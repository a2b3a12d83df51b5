/** The job manager: enqueuers, cancellers, a worker pool and a closer over a
    bounded channel, as an interleaving state machine. Each step is one critical
    section, channel operation or atomic access. */
module Jobs {
  type JobId = nat
  type Tid = nat

  datatype JobState = Queued | Running | Completed | Failed | Cancelled

  predicate IsTerminal(s: JobState) { s.Completed? || s.Failed? || s.Cancelled? }

  predicate CanTransition(from: JobState, to: JobState) {
    match from
    case Queued => to.Running? || to.Cancelled?
    case Running => to.Completed? || to.Failed? || to.Cancelled?
    case _ => false
  }

  /** What a job body returned: nil, an error wrapping context.Canceled, or another error. */
  datatype BodyError = NoError | CancelError | OtherError

  /** The state a finished body asks for, given whether its context was done. */
  function Outcome(err: BodyError, contextDone: bool): JobState {
    if err.NoError? then Completed else if err.CancelError? || contextDone then Cancelled else Failed
  }

  /** How far the thread that holds a job record has got with it. */
  datatype Stage = Named | Made | Dropping | Got | Starting | InBody | Ending(outcome: JobState) | Drained

  /** Threads below `workers` run the worker loop; the others call the API. */
  datatype Pc =
    | Waiting | Counting(outcome: JobState) | Exited
    | Idle | Admitted | Draining | Stopping | Joining
    | Holding(id: JobId, stage: Stage)

  datatype Config = Config(workers: nat, capacity: nat)

  /** `done` holds the jobs whose own context was cancelled or timed out. */
  datatype Control = Control(closed: bool, rootDone: bool, done: set<JobId>, next: JobId)

  datatype Counters = Counters(completed: nat, failed: nat)

  datatype Place = InQueue | With(t: Tid) | Released

  /** Not part of the program: where each job record is, how often its body was
      entered, and the jobs cancelled while queued. */
  datatype History = History(place: map<JobId, Place>, runs: map<JobId, nat>, early: set<JobId>)

  datatype Shared = Shared(cfg: Config, ctl: Control, cnt: Counters)

  datatype State = State(jobs: map<JobId, JobState>, queue: seq<JobId>, pcs: map<Tid, Pc>, sh: Shared, past: History)

  function PcOf(s: State, t: Tid): Pc {
    if t in s.pcs then s.pcs[t] else if t < s.sh.cfg.workers then Waiting else Idle
  }

  predicate Init(s: State) {
    && s.jobs == map[] && s.queue == [] && s.pcs == map[]
    && s.sh.ctl == Control(false, false, {}, 0) && s.sh.cnt == Counters(0, 0)
    && s.past == History(map[], map[], {})
  }

  predicate WorkerPc(p: Pc) {
    if p.Holding? then p.stage.Got? || p.stage.Starting? || p.stage.InBody? || p.stage.Ending?
    else p.Waiting? || p.Counting? || p.Exited?
  }

  predicate At(p: Pc, stage: Stage) { p.Holding? && p.stage == stage }

  // ----- Steps ---------------------------------------------------------------------

  datatype Enqueuing = CheckOpen | Allocate | InsertJob | Send | QueueFull | DeleteJob
  /** `AlreadyClosed` is the whole of a `Close` that finds the manager closed. */
  datatype Closing = BeginClose | AlreadyClosed | Drain | CancelDrained | DrainDone | RootCancel | Return
  datatype Working = Receive | Exit | ToRunning | RunBody | EndBody(err: BodyError) | Finish | Count

  /** One step of thread `t`; `Expire` is a job's own timeout. */
  datatype Action = Enqueue(e: Enqueuing) | Close(c: Closing) | Work(w: Working) | Cancel(job: JobId) | Expire(job: JobId)

  predicate EnqueueEnabled(s: State, p: Pc, e: Enqueuing) {
    match e
    case CheckOpen => p.Idle? && !s.sh.ctl.closed
    case Allocate => p.Admitted?
    case InsertJob => At(p, Named)
    case Send => At(p, Made) && |s.queue| < s.sh.cfg.capacity
    case QueueFull => At(p, Made) && |s.queue| >= s.sh.cfg.capacity
    case DeleteJob => At(p, Dropping)
  }

  predicate CloseEnabled(s: State, p: Pc, c: Closing) {
    match c
    case BeginClose => p.Idle? && !s.sh.ctl.closed
    case AlreadyClosed => p.Idle? && s.sh.ctl.closed
    case Drain => p.Draining? && s.queue != []
    case CancelDrained => At(p, Drained)
    case DrainDone => p.Draining? && s.queue == []
    case RootCancel => p.Stopping?
    case Return => p.Joining? && forall w | 0 <= w < s.sh.cfg.workers :: PcOf(s, w).Exited?
  }

  predicate WorkEnabled(s: State, p: Pc, w: Working) {
    match w
    case Receive => p.Waiting? && s.queue != []
    case Exit => p.Waiting? && s.sh.ctl.rootDone
    case ToRunning => At(p, Got)
    case RunBody => At(p, Starting)
    case EndBody(_) => At(p, InBody)
    case Finish => p.Holding? && p.stage.Ending?
    case Count => p.Counting?
  }

  predicate Enabled(s: State, t: Tid, a: Action) {
    match a
    case Enqueue(e) => EnqueueEnabled(s, PcOf(s, t), e)
    case Close(c) => CloseEnabled(s, PcOf(s, t), c)
    case Work(w) => WorkEnabled(s, PcOf(s, t), w)
    case Cancel(_) => PcOf(s, t).Idle?
    case Expire(_) => true
  }

  function Goto(s: State, t: Tid, p: Pc): State { s.(pcs := s.pcs[t := p]) }

  function Move(s: State, id: JobId, p: Place): State {
    s.(past := s.past.(place := s.past.place[id := p]))
  }

  function SetJob(s: State, id: JobId, j: JobState): State { s.(jobs := s.jobs[id := j]) }

  function WithControl(s: State, c: Control): State { s.(sh := s.sh.(ctl := c)) }

  function Stop(s: State, id: JobId): State { WithControl(s, s.sh.ctl.(done := s.sh.ctl.done + {id})) }

  function Runs(s: State, id: JobId): nat {
    if id in s.past.runs then s.past.runs[id] else 0
  }

  /** A queued job becomes Cancelled; anything else keeps its state. */
  function CancelIfQueued(s: State, id: JobId): State {
    if id in s.jobs && s.jobs[id].Queued?
    then SetJob(s, id, Cancelled).(past := s.past.(early := s.past.early + {id}))
    else s
  }

  /** The oldest record leaves the channel into the hands of `t`. */
  function Take(s: State, t: Tid, p: Pc): State
    requires s.queue != []
  { Goto(Move(s.(queue := s.queue[1..]), s.queue[0], With(t)), t, p) }

  function EnqueueNext(s: State, t: Tid, e: Enqueuing): State
    requires EnqueueEnabled(s, PcOf(s, t), e)
  {
    var p := PcOf(s, t);
    match e
    case CheckOpen => Goto(s, t, Admitted)
    case Allocate =>
      var id := s.sh.ctl.next;
      Goto(Move(WithControl(s, s.sh.ctl.(next := id + 1)), id, With(t)), t, Holding(id, Named))
    case InsertJob => Goto(SetJob(s, p.id, Queued), t, Holding(p.id, Made))
    case Send => Goto(Move(s.(queue := s.queue + [p.id]), p.id, InQueue), t, Idle)
    case QueueFull => Goto(s, t, Holding(p.id, Dropping))
    case DeleteJob => Goto(Move(Stop(s.(jobs := s.jobs - {p.id}), p.id), p.id, Released), t, Idle)
  }

  function CloseNext(s: State, t: Tid, c: Closing): State
    requires CloseEnabled(s, PcOf(s, t), c)
  {
    var p := PcOf(s, t);
    match c
    case BeginClose => Goto(WithControl(s, s.sh.ctl.(closed := true)), t, Draining)
    case AlreadyClosed => Goto(s, t, Idle)
    case Drain => Take(s, t, Holding(s.queue[0], Drained))
    case CancelDrained => Goto(Move(Stop(CancelIfQueued(s, p.id), p.id), p.id, Released), t, Draining)
    case DrainDone => Goto(s, t, Stopping)
    case RootCancel => Goto(WithControl(s, s.sh.ctl.(rootDone := true)), t, Joining)
    case Return => Goto(s, t, Idle)
  }

  function WorkNext(s: State, t: Tid, w: Working): State
    requires WorkEnabled(s, PcOf(s, t), w)
  {
    var p := PcOf(s, t);
    match w
    case Receive => Take(s, t, Holding(s.queue[0], Got))
    case Exit => Goto(s, t, Exited)
    case ToRunning =>
      if p.id in s.jobs && CanTransition(s.jobs[p.id], Running)
      then Goto(SetJob(s, p.id, Running), t, Holding(p.id, Starting))
      else Goto(Move(s, p.id, Released), t, Waiting)
    case RunBody => Goto(s.(past := s.past.(runs := s.past.runs[p.id := Runs(s, p.id) + 1])), t, Holding(p.id, InBody))
    case EndBody(err) => Goto(Stop(s, p.id), t, Holding(p.id, Ending(Outcome(err, s.sh.ctl.rootDone || p.id in s.sh.ctl.done))))
    case Finish =>
      if p.id in s.jobs && CanTransition(s.jobs[p.id], p.stage.outcome)
      then Goto(Move(SetJob(s, p.id, p.stage.outcome), p.id, Released), t, Counting(p.stage.outcome))
      else Goto(Move(s, p.id, Released), t, Waiting)
    case Count =>
      Goto(s.(sh := s.sh.(cnt := Counters(s.sh.cnt.completed + (if p.outcome.Completed? then 1 else 0),
                                          s.sh.cnt.failed + (if p.outcome.Failed? then 1 else 0)))), t, Waiting)
  }

  function Next(s: State, t: Tid, a: Action): State
    requires Enabled(s, t, a)
  {
    match a
    case Enqueue(e) => EnqueueNext(s, t, e)
    case Close(c) => CloseNext(s, t, c)
    case Work(w) => WorkNext(s, t, w)
    case Cancel(id) => if id in s.jobs && !IsTerminal(s.jobs[id]) then Stop(CancelIfQueued(s, id), id) else s
    case Expire(id) => Stop(s, id)
  }

  // ----- The invariant ----------------------------------------------------------------

  /** What holding a job with program counter `p` says about it. */
  predicate HeldOk(s: State, p: Pc, id: JobId) {
    p.Holding? && p.id == id &&
    match p.stage
    case Named => id !in s.jobs && Runs(s, id) == 0 && id !in s.past.early
    case Starting => id in s.jobs && s.jobs[id].Running? && Runs(s, id) == 0
    case InBody => id in s.jobs && s.jobs[id].Running? && Runs(s, id) == 1
    case Ending(outcome) => id in s.jobs && s.jobs[id].Running? && Runs(s, id) == 1 && CanTransition(Running, outcome)
    case _ => id in s.jobs && (s.jobs[id].Queued? || s.jobs[id].Cancelled?) && Runs(s, id) == 0
  }

  /** Every allocated job is in exactly one place, in a state that fits it. */
  predicate JobOk(s: State, id: JobId) {
    if id >= s.sh.ctl.next then id !in s.past.place && id !in s.jobs && Runs(s, id) == 0 && id !in s.past.early
    else
      && id in s.past.place
      && (match s.past.place[id]
          case InQueue => id in s.queue && id in s.jobs && (s.jobs[id].Queued? || s.jobs[id].Cancelled?) && Runs(s, id) == 0
          case With(t) => HeldOk(s, PcOf(s, t), id)
          case Released => (id in s.jobs ==> IsTerminal(s.jobs[id])) && Runs(s, id) <= 1)
      && (id in s.past.early ==> Runs(s, id) == 0 && (id in s.jobs ==> s.jobs[id].Cancelled?))
  }

  predicate ThreadOk(s: State, t: Tid) {
    var p := PcOf(s, t);
    && (WorkerPc(p) <==> t < s.sh.cfg.workers)
    && (p.Holding? ==> p.id in s.past.place && s.past.place[p.id] == With(t))
  }

  predicate QueueOk(s: State) {
    && |s.queue| <= s.sh.cfg.capacity
    && (forall i | 0 <= i < |s.queue| :: s.queue[i] in s.past.place && s.past.place[s.queue[i]] == InQueue)
    && (forall i, j | 0 <= i < j < |s.queue| :: s.queue[i] != s.queue[j])
  }

  ghost predicate Inv(s: State) {
    QueueOk(s) && (forall t :: ThreadOk(s, t)) && (forall id :: JobOk(s, id))
  }

  predicate HeadOk(s: State) {
    s.queue != [] ==> s.queue[0] in s.past.place && s.past.place[s.queue[0]] == InQueue
  }

  lemma EnqueueKeeps(s: State, t: Tid, e: Enqueuing, id: JobId)
    requires ThreadOk(s, t) && JobOk(s, id) && EnqueueEnabled(s, PcOf(s, t), e) && !e.Send? && !e.DeleteJob?
    ensures JobOk(EnqueueNext(s, t, e), id)
  {
  }

  lemma SendKeeps(s: State, t: Tid, e: Enqueuing, id: JobId)
    requires ThreadOk(s, t) && JobOk(s, id) && EnqueueEnabled(s, PcOf(s, t), e) && (e.Send? || e.DeleteJob?)
    ensures JobOk(EnqueueNext(s, t, e), id)
  {
  }

  lemma CloseKeeps(s: State, t: Tid, c: Closing, id: JobId)
    requires ThreadOk(s, t) && JobOk(s, id) && HeadOk(s) && CloseEnabled(s, PcOf(s, t), c) && !c.CancelDrained?
    ensures JobOk(CloseNext(s, t, c), id)
  {
  }

  lemma CancelDrainedKeeps(s: State, t: Tid, id: JobId)
    requires ThreadOk(s, t) && JobOk(s, id) && CloseEnabled(s, PcOf(s, t), CancelDrained)
    ensures JobOk(CloseNext(s, t, CancelDrained), id)
  {
  }

  lemma WorkKeeps(s: State, t: Tid, w: Working, id: JobId)
    requires ThreadOk(s, t) && JobOk(s, id) && HeadOk(s) && WorkEnabled(s, PcOf(s, t), w) && !w.ToRunning? && !w.Finish?
    ensures JobOk(WorkNext(s, t, w), id)
  {
  }

  lemma ToRunningKeeps(s: State, t: Tid, id: JobId)
    requires ThreadOk(s, t) && JobOk(s, id) && WorkEnabled(s, PcOf(s, t), ToRunning)
    ensures JobOk(WorkNext(s, t, ToRunning), id)
  {
  }

  lemma FinishKeeps(s: State, t: Tid, id: JobId)
    requires ThreadOk(s, t) && JobOk(s, id) && WorkEnabled(s, PcOf(s, t), Finish)
    ensures JobOk(WorkNext(s, t, Finish), id)
  {
  }

  lemma JobKept(s: State, t: Tid, a: Action, id: JobId)
    requires ThreadOk(s, t) && JobOk(s, id) && HeadOk(s) && Enabled(s, t, a)
    ensures JobOk(Next(s, t, a), id)
  {
    hide EnqueueNext, CloseNext, WorkNext;
    match a
    case Enqueue(e) => if e.Send? || e.DeleteJob? { SendKeeps(s, t, e, id); } else { EnqueueKeeps(s, t, e, id); }
    case Close(CancelDrained) => CancelDrainedKeeps(s, t, id);
    case Close(c) => CloseKeeps(s, t, c, id);
    case Work(ToRunning) => ToRunningKeeps(s, t, id);
    case Work(Finish) => FinishKeeps(s, t, id);
    case Work(w) => WorkKeeps(s, t, w, id);
    case Cancel(_) =>
    case Expire(_) =>
  }

  /** Only the stepping thread and the record it holds or takes move. */
  ghost predicate MovesOwn(s: State, s': State, t: Tid) {
    && s'.sh.cfg == s.sh.cfg
    && (forall u | u != t :: PcOf(s', u) == PcOf(s, u))
    && (forall id | id in s.past.place && s.past.place[id] != With(t) && s.past.place[id] != InQueue ::
          id in s'.past.place && s'.past.place[id] == s.past.place[id])
    && (forall id | id in s'.queue && id in s.queue && id in s.past.place && s.past.place[id] == InQueue ::
          id in s'.past.place && s'.past.place[id] == InQueue)
  }

  lemma EnqueueThread(s: State, t: Tid, e: Enqueuing)
    requires ThreadOk(s, t) && JobOk(s, s.sh.ctl.next) && EnqueueEnabled(s, PcOf(s, t), e)
    ensures ThreadOk(EnqueueNext(s, t, e), t) && MovesOwn(s, EnqueueNext(s, t, e), t)
  {
  }

  lemma CloseThread(s: State, t: Tid, c: Closing)
    requires ThreadOk(s, t) && QueueOk(s) && CloseEnabled(s, PcOf(s, t), c)
    ensures ThreadOk(CloseNext(s, t, c), t) && MovesOwn(s, CloseNext(s, t, c), t)
  {
  }

  lemma WorkThread(s: State, t: Tid, w: Working)
    requires ThreadOk(s, t) && QueueOk(s) && WorkEnabled(s, PcOf(s, t), w)
    ensures ThreadOk(WorkNext(s, t, w), t) && MovesOwn(s, WorkNext(s, t, w), t)
  {
  }

  lemma StepMovesOwn(s: State, t: Tid, a: Action)
    requires ThreadOk(s, t) && QueueOk(s) && JobOk(s, s.sh.ctl.next) && Enabled(s, t, a)
    ensures ThreadOk(Next(s, t, a), t) && MovesOwn(s, Next(s, t, a), t)
  {
    hide EnqueueNext, CloseNext, WorkNext;
    match a
    case Enqueue(e) => EnqueueThread(s, t, e);
    case Close(c) => CloseThread(s, t, c);
    case Work(w) => WorkThread(s, t, w);
    case Cancel(_) =>
    case Expire(_) =>
  }

  lemma ThreadsKept(s: State, s': State, t: Tid, u: Tid)
    requires ThreadOk(s, u) && ThreadOk(s', t) && MovesOwn(s, s', t)
    ensures ThreadOk(s', u)
  {
  }

  /** The channel is left alone, loses its oldest record, or gains the one `t` held. */
  predicate QueueStep(s: State, s': State, t: Tid) {
    || s'.queue == s.queue
    || (s.queue != [] && s'.queue == s.queue[1..])
    || (|s.queue| < s.sh.cfg.capacity && PcOf(s, t).Holding? && s'.queue == s.queue + [PcOf(s, t).id]
        && PcOf(s, t).id in s'.past.place && s'.past.place[PcOf(s, t).id] == InQueue)
  }

  lemma QueueKept(s: State, s': State, t: Tid)
    requires QueueOk(s) && ThreadOk(s, t) && MovesOwn(s, s', t) && QueueStep(s, s', t)
    ensures QueueOk(s')
  {
    forall i | 0 <= i < |s'.queue| ensures s'.queue[i] in s'.past.place && s'.past.place[s'.queue[i]] == InQueue {
      assert s'.queue[i] in s'.queue;
      if s'.queue[i] in s.queue { assert s'.queue[i] in s.past.place && s.past.place[s'.queue[i]] == InQueue; }
    }
  }

  lemma NextKeepsInv(s: State, t: Tid, a: Action)
    requires Inv(s) && Enabled(s, t, a)
    ensures Inv(Next(s, t, a))
  {
    assert ThreadOk(s, t) && JobOk(s, s.sh.ctl.next) && HeadOk(s);
    StepMovesOwn(s, t, a);
    assert QueueStep(s, Next(s, t, a), t);
    QueueKept(s, Next(s, t, a), t);
    hide Next, ThreadOk, JobOk, QueueOk, HeadOk, Enabled;
    forall u: Tid ensures ThreadOk(Next(s, t, a), u) { ThreadsKept(s, Next(s, t, a), t, u); }
    forall id: JobId ensures JobOk(Next(s, t, a), id) { JobKept(s, t, a, id); }
  }

  // ----- Counters -----------------------------------------------------------------------

  function InState(s: State, j: JobState): set<JobId> {
    set id | id in s.jobs && s.jobs[id] == j
  }

  /** Workers that changed a job to `j` and have not yet added it to the counter. */
  function CountingThreads(s: State, j: JobState): set<Tid> {
    set t | t in s.pcs && s.pcs[t] == Counting(j)
  }

  function CounterOf(s: State, j: JobState): nat {
    if j.Completed? then s.sh.cnt.completed else s.sh.cnt.failed
  }

  predicate CountOk(s: State, j: JobState) {
    |InState(s, j)| == CounterOf(s, j) + |CountingThreads(s, j)|
  }

  lemma EnqueueCounts(s: State, t: Tid, e: Enqueuing, j: JobState)
    requires ThreadOk(s, t) && EnqueueEnabled(s, PcOf(s, t), e) && (j.Completed? || j.Failed?) && CountOk(s, j)
    requires PcOf(s, t).Holding? ==> JobOk(s, PcOf(s, t).id)
    ensures CountOk(EnqueueNext(s, t, e), j)
  {
    assert InState(EnqueueNext(s, t, e), j) == InState(s, j);
    assert CountingThreads(EnqueueNext(s, t, e), j) == CountingThreads(s, j);
  }

  lemma CloseCounts(s: State, t: Tid, c: Closing, j: JobState)
    requires CloseEnabled(s, PcOf(s, t), c) && (j.Completed? || j.Failed?) && CountOk(s, j)
    ensures CountOk(CloseNext(s, t, c), j)
  {
    assert InState(CloseNext(s, t, c), j) == InState(s, j);
    assert CountingThreads(CloseNext(s, t, c), j) == CountingThreads(s, j);
  }

  lemma FinishSets(s: State, t: Tid, j: JobState)
    requires ThreadOk(s, t) && WorkEnabled(s, PcOf(s, t), Finish) && JobOk(s, PcOf(s, t).id) && (j.Completed? || j.Failed?)
    ensures var s', p := WorkNext(s, t, Finish), PcOf(s, t);
            CounterOf(s', j) == CounterOf(s, j) &&
            if p.stage.outcome == j
            then p.id !in InState(s, j) && InState(s', j) == InState(s, j) + {p.id}
                 && t !in CountingThreads(s, j) && CountingThreads(s', j) == CountingThreads(s, j) + {t}
            else InState(s', j) == InState(s, j) && CountingThreads(s', j) == CountingThreads(s, j)
  {
  }

  lemma FinishCounts(s: State, t: Tid, j: JobState)
    requires ThreadOk(s, t) && WorkEnabled(s, PcOf(s, t), Finish) && (j.Completed? || j.Failed?) && CountOk(s, j)
    requires JobOk(s, PcOf(s, t).id)
    ensures CountOk(WorkNext(s, t, Finish), j)
  {
    FinishSets(s, t, j);
    hide InState, CountingThreads, WorkNext, ThreadOk, JobOk, CounterOf;
  }

  lemma CountCounts(s: State, t: Tid, j: JobState)
    requires ThreadOk(s, t) && WorkEnabled(s, PcOf(s, t), Count) && (j.Completed? || j.Failed?) && CountOk(s, j)
    ensures CountOk(WorkNext(s, t, Count), j)
  {
    var s', p := WorkNext(s, t, Count), PcOf(s, t);
    assert InState(s', j) == InState(s, j);
    if p.outcome == j {
      assert t in CountingThreads(s, j) && CountingThreads(s', j) == CountingThreads(s, j) - {t};
    } else {
      assert CountingThreads(s', j) == CountingThreads(s, j);
    }
  }

  lemma WorkCounts(s: State, t: Tid, w: Working, j: JobState)
    requires ThreadOk(s, t) && WorkEnabled(s, PcOf(s, t), w) && (j.Completed? || j.Failed?) && CountOk(s, j)
    requires !w.Finish? && !w.Count?
    ensures CountOk(WorkNext(s, t, w), j)
  {
    assert InState(WorkNext(s, t, w), j) == InState(s, j);
    assert CountingThreads(WorkNext(s, t, w), j) == CountingThreads(s, j);
  }

  lemma CancelCounts(s: State, id: JobId, j: JobState)
    requires (j.Completed? || j.Failed?) && CountOk(s, j)
    ensures CountOk(Stop(s, id), j) && CountOk(Stop(CancelIfQueued(s, id), id), j)
  {
    assert InState(Stop(s, id), j) == InState(s, j) == InState(Stop(CancelIfQueued(s, id), id), j);
    assert CountingThreads(Stop(s, id), j) == CountingThreads(s, j) == CountingThreads(Stop(CancelIfQueued(s, id), id), j);
  }

  lemma NextKeepsCount(s: State, t: Tid, a: Action, j: JobState)
    requires Inv(s) && CountOk(s, j) && Enabled(s, t, a) && (j.Completed? || j.Failed?)
    ensures CountOk(Next(s, t, a), j)
  {
    assert ThreadOk(s, t);
    if PcOf(s, t).Holding? { assert JobOk(s, PcOf(s, t).id); }
    hide Inv, ThreadOk, JobOk, CountOk, EnqueueNext, CloseNext, WorkNext, CancelIfQueued, Stop;
    match a
    case Enqueue(e) => EnqueueCounts(s, t, e, j);
    case Close(c) => CloseCounts(s, t, c, j);
    case Work(Finish) => FinishCounts(s, t, j);
    case Work(Count) => CountCounts(s, t, j);
    case Work(w) => WorkCounts(s, t, w, j);
    case Cancel(id) => CancelCounts(s, id, j);
    case Expire(id) => CancelCounts(s, id, j);
  }

  // ----- Edges ----------------------------------------------------------------------------

  /** A job keeps its state or follows one edge; it appears as Queued; it disappears
      only when its enqueuer found the queue full, and then its body never ran. */
  predicate FollowsEdges(s: State, s': State, id: JobId) {
    && (id in s.jobs && id in s'.jobs ==> s'.jobs[id] == s.jobs[id] || CanTransition(s.jobs[id], s'.jobs[id]))
    && (id !in s.jobs && id in s'.jobs ==> s'.jobs[id].Queued?)
    && (id in s.jobs && id !in s'.jobs ==> Runs(s', id) == 0 && id in s'.past.place && s'.past.place[id] == Released)
    && (id in s.past.place && s.past.place[id] == Released ==>
          id in s'.past.place && s'.past.place[id] == Released && Runs(s', id) == Runs(s, id) && (id in s'.jobs ==> id in s.jobs))
    && Runs(s, id) <= Runs(s', id)
    && (id in s.past.early ==> id in s'.past.early)
    && (id in s.jobs && s.jobs[id].Queued? && id in s'.jobs && s'.jobs[id].Cancelled? ==> id in s'.past.early)
  }

  lemma EnqueueEdges(s: State, t: Tid, e: Enqueuing, id: JobId)
    requires ThreadOk(s, t) && JobOk(s, id) && EnqueueEnabled(s, PcOf(s, t), e)
    ensures FollowsEdges(s, EnqueueNext(s, t, e), id)
  {
  }

  lemma CloseEdges(s: State, t: Tid, c: Closing, id: JobId)
    requires ThreadOk(s, t) && HeadOk(s) && JobOk(s, id) && CloseEnabled(s, PcOf(s, t), c)
    ensures FollowsEdges(s, CloseNext(s, t, c), id)
  {
  }

  lemma WorkEdges(s: State, t: Tid, w: Working, id: JobId)
    requires ThreadOk(s, t) && HeadOk(s) && JobOk(s, id) && WorkEnabled(s, PcOf(s, t), w)
    ensures FollowsEdges(s, WorkNext(s, t, w), id)
  {
  }

  lemma StepFollowsEdges(s: State, t: Tid, a: Action, id: JobId)
    requires Inv(s) && Enabled(s, t, a)
    ensures FollowsEdges(s, Next(s, t, a), id)
  {
    assert ThreadOk(s, t) && JobOk(s, id) && HeadOk(s);
    hide Inv, EnqueueNext, CloseNext, WorkNext;
    match a
    case Enqueue(e) => EnqueueEdges(s, t, e, id);
    case Close(c) => CloseEdges(s, t, c, id);
    case Work(w) => WorkEdges(s, t, w, id);
    case Cancel(_) =>
    case Expire(_) =>
  }

  // ----- Every run -------------------------------------------------------------------------

  predicate StepAt(states: seq<State>, steps: seq<(Tid, Action)>, i: nat)
    requires |states| == |steps| + 1 && i < |steps|
  {
    Enabled(states[i], steps[i].0, steps[i].1) && states[i + 1] == Next(states[i], steps[i].0, steps[i].1)
  }

  predicate Run(states: seq<State>, steps: seq<(Tid, Action)>) {
    |states| == |steps| + 1 && Init(states[0]) && forall i: nat | i < |steps| :: StepAt(states, steps, i)
  }

  lemma {:induction false} InvAlongRun(states: seq<State>, steps: seq<(Tid, Action)>, i: nat)
    requires Run(states, steps) && i < |states|
    ensures Inv(states[i]) && CountOk(states[i], Completed) && CountOk(states[i], Failed) && states[i].sh.cfg == states[0].sh.cfg
  {
    if i == 0 {
      assert forall t :: ThreadOk(states[0], t);
    } else {
      InvAlongRun(states, steps, i - 1);
      assert StepAt(states, steps, i - 1);
      hide Inv, CountOk, Next, Enabled;
      NextKeepsInv(states[i - 1], steps[i - 1].0, steps[i - 1].1);
      NextKeepsCount(states[i - 1], steps[i - 1].0, steps[i - 1].1, Completed);
      NextKeepsCount(states[i - 1], steps[i - 1].0, steps[i - 1].1, Failed);
    }
  }

  lemma EdgesAlongRun(states: seq<State>, steps: seq<(Tid, Action)>, i: nat, id: JobId)
    requires Run(states, steps) && i < |steps|
    ensures FollowsEdges(states[i], states[i + 1], id)
  {
    hide Inv, CountOk, Next, Enabled, FollowsEdges;
    InvAlongRun(states, steps, i);
    assert StepAt(states, steps, i);
    StepFollowsEdges(states[i], steps[i].0, steps[i].1, id);
  }

  /** `id` ended as `j`, or vanished without its body ever having run. */
  predicate EndedAs(s: State, id: JobId, j: JobState) {
    if id in s.jobs then s.jobs[id] == j
    else Runs(s, id) == 0 && id in s.past.place && s.past.place[id] == Released
  }

  lemma EndStays(s: State, s': State, id: JobId, j: JobState)
    requires FollowsEdges(s, s', id) && EndedAs(s, id, j) && IsTerminal(j)
    ensures EndedAs(s', id, j)
  {
    hide Runs;
  }

  /** A terminal job never changes state again; it can only vanish, when its
      enqueuer found the queue full, and then its body never runs. */
  lemma {:induction false} TerminalIsForever(states: seq<State>, steps: seq<(Tid, Action)>, i: nat, j: nat, id: JobId)
    requires Run(states, steps) && i <= j < |states|
    requires id in states[i].jobs && IsTerminal(states[i].jobs[id])
    ensures EndedAs(states[j], id, states[i].jobs[id])
    decreases j
  {
    hide FollowsEdges, IsTerminal, Init;
    if j > i {
      TerminalIsForever(states, steps, i, j - 1, id);
      EdgesAlongRun(states, steps, j - 1, id);
      EndStays(states[j - 1], states[j], id, states[i].jobs[id]);
    }
  }

  lemma EarlyStays(s: State, s': State, id: JobId)
    requires FollowsEdges(s, s', id) && id in s.past.early
    ensures id in s'.past.early
  {
    hide Runs, CanTransition;
  }

  lemma {:induction false} EarlyForever(states: seq<State>, steps: seq<(Tid, Action)>, i: nat, j: nat, id: JobId)
    requires Run(states, steps) && i <= j < |states| && id in states[i].past.early
    ensures id in states[j].past.early
    decreases j
  {
    hide FollowsEdges, Init;
    if j > i {
      EarlyForever(states, steps, i, j - 1, id);
      EdgesAlongRun(states, steps, j - 1, id);
      EarlyStays(states[j - 1], states[j], id);
    }
  }

  /** A body is entered at most once, and never, before or after, if the job was
      cancelled while queued. */
  lemma BodiesRunAtMostOnce(states: seq<State>, steps: seq<(Tid, Action)>, j: nat, id: JobId)
    requires Run(states, steps) && j < |states|
    ensures Runs(states[j], id) <= 1
    ensures forall i | 0 <= i < j && id in states[i].jobs && id in states[i + 1].jobs
                       && states[i].jobs[id].Queued? && states[i + 1].jobs[id].Cancelled? :: Runs(states[j], id) == 0
  {
    InvAlongRun(states, steps, j);
    assert JobOk(states[j], id);
    forall i | 0 <= i < j && id in states[i].jobs && id in states[i + 1].jobs
               && states[i].jobs[id].Queued? && states[i + 1].jobs[id].Cancelled? ensures Runs(states[j], id) == 0
    {
      EdgesAlongRun(states, steps, i, id);
      EarlyForever(states, steps, i + 1, j, id);
    }
  }

  predicate Executes(s: State, t: Tid, id: JobId) {
    var p := PcOf(s, t);
    p.Holding? && p.id == id && (p.stage.Starting? || p.stage.InBody? || p.stage.Ending?)
  }

  /** Each running job is in the hands of exactly one worker, and a worker has at most one. */
  lemma RunningHasOneWorker(s: State, id: JobId)
    requires Inv(s) && id in s.jobs && s.jobs[id].Running?
    ensures exists t: Tid :: t < s.sh.cfg.workers && Executes(s, t, id)
    ensures forall t, u | Executes(s, t, id) && Executes(s, u, id) :: t == u
  {
    assert JobOk(s, id);
    var t := s.past.place[id].t;
    assert ThreadOk(s, t) && Executes(s, t, id);
    forall u, v | Executes(s, u, id) && Executes(s, v, id) ensures u == v {
      assert ThreadOk(s, u) && ThreadOk(s, v);
    }
  }

  lemma {:induction false} PigeonHole(s: State, ids: set<JobId>, n: nat)
    requires Inv(s)
    requires forall id | id in ids :: id in s.past.place && s.past.place[id].With? && s.past.place[id].t < n
    requires forall id | id in ids :: HeldOk(s, PcOf(s, s.past.place[id].t), id)
    ensures |ids| <= n
  {
    if n == 0 {
      assert ids == {};
    } else if last :| last in ids && s.past.place[last].t == n - 1 {
      PigeonHole(s, ids - {last}, n - 1);
      assert |ids| == |ids - {last}| + 1;
    } else {
      PigeonHole(s, ids, n - 1);
    }
  }

  /** Active jobs never outnumber the workers. */
  lemma ActiveIsBounded(states: seq<State>, steps: seq<(Tid, Action)>, i: nat)
    requires Run(states, steps) && i < |states|
    ensures |InState(states[i], Running)| <= states[0].sh.cfg.workers
    ensures |states[i].queue| <= states[0].sh.cfg.capacity
  {
    InvAlongRun(states, steps, i);
    var s := states[i];
    forall id | id in InState(s, Running)
      ensures id in s.past.place && s.past.place[id].With? && s.past.place[id].t < s.sh.cfg.workers
      ensures HeldOk(s, PcOf(s, s.past.place[id].t), id)
    {
      assert JobOk(s, id);
      assert ThreadOk(s, s.past.place[id].t);
    }
    PigeonHole(s, InState(s, Running), s.sh.cfg.workers);
  }

  /** `t` is the enqueuer still sending or withdrawing job `id`, a worker that
      just received it, or the closer that drained it. */
  predicate Carries(s: State, t: Tid, id: JobId) {
    var p := PcOf(s, t);
    p.Holding? && p.id == id && (p.stage.Made? || p.stage.Dropping? || p.stage.Got? || p.stage.Drained?)
  }

  /** No queued job is ever lost: it is in the channel once, or carried by exactly one thread. */
  lemma QueuedIsNeverLost(states: seq<State>, steps: seq<(Tid, Action)>, i: nat, id: JobId)
    requires Run(states, steps) && i < |states| && id in states[i].jobs && states[i].jobs[id].Queued?
    ensures (exists k :: 0 <= k < |states[i].queue| && states[i].queue[k] == id) || (exists t :: Carries(states[i], t, id))
    ensures forall k, l | 0 <= k < l < |states[i].queue| :: states[i].queue[k] != states[i].queue[l]
    ensures forall t | Carries(states[i], t, id) :: id !in states[i].queue && (forall u | Carries(states[i], u, id) :: u == t)
  {
    InvAlongRun(states, steps, i);
    var s := states[i];
    assert JobOk(s, id);
    if s.past.place[id].With? { assert Carries(s, s.past.place[id].t, id); }
    forall t, u | Carries(s, t, id) && Carries(s, u, id) ensures u == t && id !in s.queue {
      assert ThreadOk(s, t) && ThreadOk(s, u);
    }
  }

  /** The counters lag the job table by exactly the workers between unlock and add. */
  lemma CountersAreExact(states: seq<State>, steps: seq<(Tid, Action)>, i: nat)
    requires Run(states, steps) && i < |states|
    ensures |InState(states[i], Completed)| == states[i].sh.cnt.completed + |CountingThreads(states[i], Completed)|
    ensures |InState(states[i], Failed)| == states[i].sh.cnt.failed + |CountingThreads(states[i], Failed)|
  {
    InvAlongRun(states, steps, i);
  }

  // ----- Close --------------------------------------------------------------------------------

  predicate AllExited(s: State) {
    forall w: Tid | w < s.sh.cfg.workers :: PcOf(s, w).Exited?
  }

  /** With every worker gone nothing is running. */
  lemma NothingRuns(s: State, id: JobId)
    requires Inv(s) && AllExited(s)
    ensures id in s.jobs ==> !s.jobs[id].Running?
  {
    assert JobOk(s, id);
    if id in s.jobs && s.past.place[id].With? { assert ThreadOk(s, s.past.place[id].t); }
  }

  /** Gone workers stay gone, and nobody else enters a body. */
  lemma ExitedIsForever(s: State, t: Tid, a: Action, id: JobId)
    requires Inv(s) && AllExited(s) && Enabled(s, t, a)
    ensures AllExited(Next(s, t, a)) && Runs(Next(s, t, a), id) == Runs(s, id)
  {
    assert ThreadOk(s, t) && JobOk(s, s.sh.ctl.next);
    StepMovesOwn(s, t, a);
    ExitedSteps(s, t, a);
    OnlyWorkRuns(s, t, a, id);
    hide Inv, JobOk, QueueOk, Next, ThreadOk, Enabled, PcOf;
    forall w: Tid | w < s.sh.cfg.workers ensures PcOf(Next(s, t, a), w).Exited? {
      assert PcOf(s, w).Exited?;
      if w == t { ExpireLeavesThreads(s, t, a); }
    }
  }

  lemma OnlyWorkRuns(s: State, t: Tid, a: Action, id: JobId)
    requires Enabled(s, t, a) && !a.Work?
    ensures Runs(Next(s, t, a), id) == Runs(s, id)
  {
  }

  lemma ExpireLeavesThreads(s: State, t: Tid, a: Action)
    requires Enabled(s, t, a) && a.Expire?
    ensures PcOf(Next(s, t, a), t) == PcOf(s, t)
  {
  }

  lemma ExitedSteps(s: State, t: Tid, a: Action)
    requires ThreadOk(s, t) && AllExited(s) && Enabled(s, t, a)
    ensures !a.Work? && (t < s.sh.cfg.workers ==> a.Expire?)
  {
    if t < s.sh.cfg.workers { assert PcOf(s, t).Exited?; }
  }

  lemma ReturnNeedsExits(s: State, t: Tid)
    requires Enabled(s, t, Close(Return))
    ensures AllExited(s)
  {
  }

  /** Once a `Close` that found the manager open has returned, no job is running,
      then or ever after, and no body is entered again. */
  lemma {:induction false} CloseIsFinal(states: seq<State>, steps: seq<(Tid, Action)>, i: nat, j: nat, id: JobId)
    requires Run(states, steps) && i < |steps| && steps[i].1 == Close(Return) && i <= j < |states|
    ensures AllExited(states[j]) && Runs(states[j], id) == Runs(states[i], id)
    ensures id in states[j].jobs ==> !states[j].jobs[id].Running?
    decreases j
  {
    hide Inv, CountOk, AllExited, Runs, Next, Enabled, Init;
    InvAlongRun(states, steps, j);
    if j == i {
      assert StepAt(states, steps, i);
      ReturnNeedsExits(states[i], steps[i].0);
    } else {
      CloseIsFinal(states, steps, i, j - 1, id);
      InvAlongRun(states, steps, j - 1);
      assert StepAt(states, steps, j - 1);
      ExitedIsForever(states[j - 1], steps[j - 1].0, steps[j - 1].1, id);
    }
    NothingRuns(states[j], id);
  }

  lemma RunSnoc(states: seq<State>, steps: seq<(Tid, Action)>, t: Tid, a: Action)
    returns (states': seq<State>, steps': seq<(Tid, Action)>)
    requires Run(states, steps) && Enabled(states[|steps|], t, a)
    ensures Run(states', steps') && states' == states + [Next(states[|steps|], t, a)] && steps' == steps + [(t, a)]
  {
    hide Next, Enabled, Init;
    states', steps' := states + [Next(states[|steps|], t, a)], steps + [(t, a)];
    forall i: nat | i < |steps'| ensures StepAt(states', steps', i) {
      if i < |steps| { assert StepAt(states, steps, i); }
    }
  }

  /** A manager with one worker and one slot, and a job sent to it. */
  lemma JobSent() returns (states: seq<State>, steps: seq<(Tid, Action)>)
    ensures Run(states, steps)
    ensures var s := states[|steps|];
            s.sh.cfg == Config(1, 1) && !s.sh.ctl.closed && s.queue == [0] && s.jobs == map[0 := Queued] && s.pcs.Keys == {1}
  {
    var s := State(map[], [], map[], Shared(Config(1, 1), Control(false, false, {}, 0), Counters(0, 0)), History(map[], map[], {}));
    states, steps := [s], [];
    states, steps := RunSnoc(states, steps, 1, Enqueue(CheckOpen));
    states, steps := RunSnoc(states, steps, 1, Enqueue(Allocate));
    states, steps := RunSnoc(states, steps, 1, Enqueue(InsertJob));
    states, steps := RunSnoc(states, steps, 1, Enqueue(Send));
  }

  /** The worker is running the job when the first `Close` begins. */
  lemma JobInFlight() returns (states: seq<State>, steps: seq<(Tid, Action)>)
    ensures Run(states, steps)
    ensures var s := states[|steps|];
            s.sh.ctl.closed && PcOf(s, 3).Idle? && PcOf(s, 0) == Holding(0, InBody) && 0 in s.jobs && s.jobs[0].Running?
  {
    hide Run;
    states, steps := JobSent();
    RunLength(states, steps);
    states, steps := RunSnoc(states, steps, 0, Work(Receive));
    states, steps := RunSnoc(states, steps, 0, Work(ToRunning));
    states, steps := RunSnoc(states, steps, 0, Work(RunBody));
    states, steps := RunSnoc(states, steps, 2, Close(BeginClose));
  }

  lemma RunLength(states: seq<State>, steps: seq<(Tid, Action)>)
    requires Run(states, steps)
    ensures |states| == |steps| + 1
  {
  }

  /** A second `Close` returns at once, while a body is still running. */
  lemma SecondCloseReturnsEarly() returns (states: seq<State>, steps: seq<(Tid, Action)>, id: JobId)
    ensures Run(states, steps) && steps != [] && steps[|steps| - 1].1 == Close(AlreadyClosed)
    ensures var s := states[|steps|]; id in s.jobs && s.jobs[id].Running? && Executes(s, 0, id)
  {
    id := 0;
    states, steps := JobInFlight();
    states, steps := RunSnoc(states, steps, 3, Close(AlreadyClosed));
  }
}
