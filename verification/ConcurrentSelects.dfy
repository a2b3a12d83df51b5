/** Any number of concurrent `Select` calls on one engine. The calls share nothing
    but the guardrail latch, which a call loads up to three times and may store. */
module ConcurrentSelects {
  import opened Ordering
  import opened Wrappers
  import opened Policy
  import opened PolicyLaws
  import opened PolicyEngine

  type Tid = nat

  /** What a call read: for the guardrail, for the assist, and for the reason code. */
  datatype Loads = Loads(guard: bool, assist: bool, reason: bool)

  /** `late`: the latch was set when the call began. */
  datatype Pc =
    | Idle
    | Begun(call: Call, late: bool)
    | Breaching(call: Call, late: bool)
    | Guarded(call: Call, late: bool, guard: bool)
    | Assisting(call: Call, late: bool, guard: bool, assist: bool)
    | Returned(call: Call, late: bool, loads: Loads, decision: Decision)

  datatype State = State(latch: bool, pcs: map<Tid, Pc>)

  datatype Action = Begin(call: Call) | LoadGuard | Store | LoadAssist | LoadReason | Leave

  function PcOf(s: State, t: Tid): Pc { if t in s.pcs then s.pcs[t] else Idle }

  function Goto(s: State, t: Tid, p: Pc): State { s.(pcs := s.pcs[t := p]) }

  // ----- One call ----------------------------------------------------------------------

  function DecideOn(cfg: Config, latch: bool, c: Call): Decision {
    Decide(cfg, latch, c.epoch, c.providers, c.request, c.adjuster)
  }

  function CandidatesOf(cfg: Config, c: Call): seq<Candidate> {
    ScoreCandidates(cfg, DedupeAndSort(c.request.tags), c.providers)
  }

  function EarlyFor(cfg: Config, latch: bool, c: Call): Option<string> {
    EarlyReason(cfg, latch, CandidatesOf(cfg, c), c.request)
  }

  /** `Select` as a function of what its loads returned. */
  function DecideLoads(cfg: Config, ls: Loads, c: Call): Decision {
    match EarlyFor(cfg, ls.guard, c)
    case Some(reason) => BaselineDecision(cfg, c.epoch, reason)
    case None =>
      ContendersCount(cfg, ls.assist, c.providers, c.request, c.adjuster);
      Rank(cfg, ls.assist, ls.reason, c.epoch, Sort(Before, Contenders(cfg, ls.assist, c.providers, c.request, c.adjuster)),
           PluginFails(c.adjuster, DedupeAndSort(c.request.tags), Assisted(cfg, ls.assist, c.providers, c.request)),
           SsmApplied(cfg, c.request, AfterSparse(cfg, ls.assist, c.request, CandidatesOf(cfg, c))))
  }

  /** The latch is never lowered, so a later load is never below an earlier one. */
  predicate Rising(ls: Loads) { (ls.guard ==> ls.assist) && (ls.assist ==> ls.reason) }

  /** The latch rose after the assist was decided on and before the reason was. */
  predicate Mixed(cfg: Config, ls: Loads, c: Call) {
    !ls.assist && ls.reason && DecideOn(cfg, false, c).reason == "sparse_quantized_assist_selected"
  }

  lemma RankOfLoads(cfg: Config, ls: Loads, epoch: nat, ranked: seq<Candidate>, failed: bool, ssm: bool)
    requires ranked != [] && Rising(ls)
    ensures var d := Rank(cfg, ls.assist, ls.assist, epoch, ranked, failed, ssm);
            var d' := Rank(cfg, ls.assist, ls.reason, epoch, ranked, failed, ssm);
            if !ls.assist && ls.reason && d.reason == "sparse_quantized_assist_selected"
            then d' == d.(reason := "sparse_quantized_auto_disabled") else d' == d
  {
  }

  lemma EarlyDependsOnGuard(cfg: Config, c: Call, a: bool, b: bool)
    requires Breached(cfg, a, c.request) == Breached(cfg, b, c.request)
    ensures EarlyFor(cfg, a, c) == EarlyFor(cfg, b, c)
  {
  }

  /** A call decides as an undisturbed one with the latch it used for the assist,
      except that a mixed one says "sparse_quantized_auto_disabled" of a ranking
      the assist took part in. */
  lemma LoadsExplained(cfg: Config, ls: Loads, c: Call)
    requires Rising(ls) && (Breached(cfg, ls.guard, c.request) ==> !ls.assist)
    ensures DecideLoads(cfg, ls, c) ==
              if Mixed(cfg, ls, c) then DecideOn(cfg, false, c).(reason := "sparse_quantized_auto_disabled")
              else DecideOn(cfg, ls.assist, c)
  {
    EarlyDependsOnGuard(cfg, c, ls.guard, ls.assist);
    hide Sort, Contenders, PluginFails, SsmApplied, Rank, ScoreCandidates, DedupeAndSort, EarlyReason, Assisted;
    match EarlyFor(cfg, ls.guard, c)
    case Some(reason) => EarlyReasons(cfg, ls.guard, c);
    case None =>
      ContendersCount(cfg, ls.assist, c.providers, c.request, c.adjuster);
      RankOfLoads(cfg, ls, c.epoch, Sort(Before, Contenders(cfg, ls.assist, c.providers, c.request, c.adjuster)),
                  PluginFails(c.adjuster, DedupeAndSort(c.request.tags), Assisted(cfg, ls.assist, c.providers, c.request)),
                  SsmApplied(cfg, c.request, AfterSparse(cfg, ls.assist, c.request, CandidatesOf(cfg, c))));
  }

  lemma EarlyReasons(cfg: Config, latch: bool, c: Call)
    ensures EarlyFor(cfg, latch, c) != Some("sparse_quantized_assist_selected")
    ensures EarlyFor(cfg, latch, c) != Some("sparse_quantized_auto_disabled")
  {
  }

  // ----- Steps ---------------------------------------------------------------------------

  predicate Enabled(s: State, t: Tid, a: Action) {
    var p := PcOf(s, t);
    match a
    case Begin(_) => p.Idle?
    case LoadGuard => p.Begun?
    case Store => p.Breaching?
    case LoadAssist => p.Guarded?
    case LoadReason => p.Assisting?
    case Leave => p.Returned?
  }

  function Next(cfg: Config, s: State, t: Tid, a: Action): State
    requires Enabled(s, t, a)
  {
    var p := PcOf(s, t);
    match a
    case Begin(c) => Goto(s, t, Begun(c, s.latch))
    case LoadGuard =>
      if cfg.enabled && CandidatesOf(cfg, p.call) != [] && Breached(cfg, s.latch, p.call.request)
      then Goto(s, t, Breaching(p.call, p.late))
      else Goto(s, t, Guarded(p.call, p.late, s.latch))
    case Store => Goto(s.(latch := true), t, Done(cfg, p, Loads(false, false, false)))
    case LoadAssist => Goto(s, t, Assisting(p.call, p.late, p.guard, s.latch))
    case LoadReason => Goto(s, t, Done(cfg, p, Loads(p.guard, p.assist, s.latch)))
    case Leave => Goto(s, t, Idle)
  }

  function Done(cfg: Config, p: Pc, ls: Loads): Pc
    requires !p.Idle?
  {
    Returned(p.call, p.late, ls, DecideLoads(cfg, ls, p.call))
  }

  // ----- Every run ------------------------------------------------------------------------

  /** What a call in flight has read fits the latch now, and a decision fits what was read. */
  predicate PcOk(cfg: Config, latch: bool, p: Pc) {
    match p
    case Idle => true
    case Begun(_, late) => late ==> latch
    case Breaching(c, late) => !late && Breached(cfg, false, c.request)
    case Guarded(c, late, guard) => (late ==> guard) && (guard ==> latch) && Settled(cfg, c, guard)
    case Assisting(c, late, guard, assist) =>
      (late ==> guard) && (guard ==> assist) && (assist ==> latch) && Settled(cfg, c, guard)
    case Returned(c, late, ls, d) =>
      && (late ==> ls.guard) && Rising(ls) && (ls.reason ==> latch)
      && (ls.assist ==> Settled(cfg, c, ls.guard)) && d == DecideLoads(cfg, ls, c)
  }

  /** The guardrail did not stop the call, or something before it already had. */
  predicate Settled(cfg: Config, c: Call, guard: bool) {
    cfg.enabled && CandidatesOf(cfg, c) != [] ==> !Breached(cfg, guard, c.request)
  }

  ghost predicate Inv(cfg: Config, s: State) { forall t :: PcOk(cfg, s.latch, PcOf(s, t)) }

  lemma StepKeepsPc(cfg: Config, s: State, t: Tid, a: Action, u: Tid)
    requires PcOk(cfg, s.latch, PcOf(s, t)) && PcOk(cfg, s.latch, PcOf(s, u)) && Enabled(s, t, a)
    ensures PcOk(cfg, Next(cfg, s, t, a).latch, PcOf(Next(cfg, s, t, a), u))
    ensures s.latch ==> Next(cfg, s, t, a).latch
  {
    hide DecideLoads, CandidatesOf;
  }

  ghost predicate StepAt(cfg: Config, ss: seq<State>, steps: seq<(Tid, Action)>, i: nat)
    requires |ss| == |steps| + 1 && i < |steps|
  {
    Enabled(ss[i], steps[i].0, steps[i].1) && ss[i + 1] == Next(cfg, ss[i], steps[i].0, steps[i].1)
  }

  ghost predicate Run(cfg: Config, ss: seq<State>, steps: seq<(Tid, Action)>) {
    |ss| == |steps| + 1 && ss[0] == State(false, map[]) && forall i: nat | i < |steps| :: StepAt(cfg, ss, steps, i)
  }

  lemma {:induction false} InvAlongRun(cfg: Config, ss: seq<State>, steps: seq<(Tid, Action)>, i: nat)
    requires Run(cfg, ss, steps) && i < |ss|
    ensures Inv(cfg, ss[i])
  {
    if i > 0 {
      InvAlongRun(cfg, ss, steps, i - 1);
      assert StepAt(cfg, ss, steps, i - 1);
      hide Next, Enabled, PcOk;
      forall u ensures PcOk(cfg, ss[i].latch, PcOf(ss[i], u)) {
        StepKeepsPc(cfg, ss[i - 1], steps[i - 1].0, steps[i - 1].1, u);
      }
    }
  }

  /** In every run, however the calls interleave, a returned decision is the one an
      undisturbed call makes with the latch set or not set, except for a mixed one:
      the ranking with the assist, under the reason "sparse_quantized_auto_disabled".
      So that reason is carried exactly by mixed decisions and by those that found
      the latch set and would carry it undisturbed. A call begun after the latch was
      set decides as the engine without the assist. */
  lemma EveryDecisionIsExplained(cfg: Config, ss: seq<State>, steps: seq<(Tid, Action)>, i: nat, t: Tid)
    requires Run(cfg, ss, steps) && i < |ss| && PcOf(ss[i], t).Returned?
    ensures var p := PcOf(ss[i], t);
            && p.decision == (if Mixed(cfg, p.loads, p.call)
                              then DecideOn(cfg, false, p.call).(reason := "sparse_quantized_auto_disabled")
                              else DecideOn(cfg, p.loads.assist, p.call))
            && (p.decision.reason == "sparse_quantized_auto_disabled" <==>
                  Mixed(cfg, p.loads, p.call)
                  || (p.loads.assist && DecideOn(cfg, true, p.call).reason == "sparse_quantized_auto_disabled"))
            && (p.late ==> p.decision == DecideOn(cfg, true, p.call))
            && (p.late && cfg.sparse.enabled ==>
                  p.decision == DecideOn(WithoutSparse(cfg), false, p.call).(reason := p.decision.reason))
            && (p.loads.reason ==> ss[i].latch)
  {
    InvAlongRun(cfg, ss, steps, i);
    var p := PcOf(ss[i], t);
    assert PcOk(cfg, ss[i].latch, p);
    hide DecideOn, DecideLoads, Run, CandidatesOf;
    ReturnedIsExplained(cfg, p.loads, p.call);
    UnlatchedReason(cfg, p.call);
    if cfg.sparse.enabled { LatchedOn(cfg, p.call); }
  }

  lemma LatchedOn(cfg: Config, c: Call)
    requires cfg.sparse.enabled
    ensures DecideOn(cfg, true, c) == DecideOn(WithoutSparse(cfg), false, c).(reason := DecideOn(cfg, true, c).reason)
  {
    hide Decide, WithoutSparse;
    LatchedIsDisabled(cfg, false, c.epoch, c.providers, c.request, c.adjuster);
  }

  lemma ReturnedIsExplained(cfg: Config, ls: Loads, c: Call)
    requires Rising(ls) && (ls.assist ==> Settled(cfg, c, ls.guard))
    ensures DecideLoads(cfg, ls, c) ==
              if Mixed(cfg, ls, c) then DecideOn(cfg, false, c).(reason := "sparse_quantized_auto_disabled")
              else DecideOn(cfg, ls.assist, c)
  {
    hide Decide, ScoreCandidates, DedupeAndSort;
    if !ls.assist || !Breached(cfg, ls.guard, c.request) { LoadsExplained(cfg, ls, c); }
    else { AlreadySettled(cfg, ls, c); }
  }

  /** Disabled, or without a candidate, the latch does not matter. */
  lemma AlreadySettled(cfg: Config, ls: Loads, c: Call)
    requires !cfg.enabled || CandidatesOf(cfg, c) == []
    ensures DecideLoads(cfg, ls, c) == DecideOn(cfg, ls.assist, c)
  {
    hide ScoreCandidates, DedupeAndSort, Contenders, Sort, Rank;
  }

  lemma UnlatchedReason(cfg: Config, c: Call)
    ensures DecideOn(cfg, false, c).reason != "sparse_quantized_auto_disabled"
  {
    EarlyReasons(cfg, false, c);
    hide Contenders, Sort, PluginFails, SsmApplied, ScoreCandidates, DedupeAndSort, EarlyReason, Assisted;
    ContendersCount(cfg, false, c.providers, c.request, c.adjuster);
  }

  // ----- Mixed decisions happen ----------------------------------------------------------------

  lemma RunSnoc(cfg: Config, ss: seq<State>, steps: seq<(Tid, Action)>, t: Tid, a: Action)
    returns (ss': seq<State>, steps': seq<(Tid, Action)>)
    requires Run(cfg, ss, steps) && Enabled(ss[|steps|], t, a)
    ensures Run(cfg, ss', steps') && ss' == ss + [Next(cfg, ss[|steps|], t, a)] && steps' == steps + [(t, a)]
  {
    hide Next, Enabled;
    ss', steps' := ss + [Next(cfg, ss[|steps|], t, a)], steps + [(t, a)];
    forall i: nat | i < |steps'| ensures StepAt(cfg, ss', steps', i) {
      if i < |steps| { assert StepAt(cfg, ss, steps, i); }
    }
  }

  lemma AssistedIsNotBreached(cfg: Config, c: Call)
    requires DecideOn(cfg, false, c).reason == "sparse_quantized_assist_selected"
    ensures !Breached(cfg, false, c.request)
  {
    hide Contenders, Sort, PluginFails, SsmApplied, ScoreCandidates, DedupeAndSort, Assisted, Breached, SignalOf;
    EarlyReasons(cfg, false, c);
  }

  /** A call that has decided on the assist and not yet on its reason. */
  lemma AssistDecided(cfg: Config, c: Call) returns (ss: seq<State>, steps: seq<(Tid, Action)>)
    requires !Breached(cfg, false, c.request)
    ensures Run(cfg, ss, steps) && |ss| == |steps| + 1
    ensures ss[|steps|].latch == false && ss[|steps|].pcs == map[0 := Assisting(c, false, false, false)]
  {
    hide DecideOn, DecideLoads, CandidatesOf, Breached, Run;
    StartIsRun(cfg);
    ss, steps := RunSnoc(cfg, [State(false, map[])], [], 0, Begin(c));
    ss, steps := RunSnoc(cfg, ss, steps, 0, LoadGuard);
    ss, steps := RunSnoc(cfg, ss, steps, 0, LoadAssist);
  }

  /** Whenever one request would be won with the assist and another breaches the
      guardrail, some interleaving of the two gives a mixed decision. */
  lemma MixedRun(cfg: Config, c: Call, other: Call) returns (ss: seq<State>, steps: seq<(Tid, Action)>)
    requires DecideOn(cfg, false, c).reason == "sparse_quantized_assist_selected"
    requires cfg.enabled && CandidatesOf(cfg, other) != [] && Breached(cfg, false, other.request)
    ensures Run(cfg, ss, steps)
    ensures var p := PcOf(ss[|steps|], 0);
            p.Returned? && p.call == c && Mixed(cfg, p.loads, c)
            && p.decision == DecideOn(cfg, false, c).(reason := "sparse_quantized_auto_disabled")
  {
    hide DecideOn, DecideLoads, CandidatesOf, Breached, Run;
    AssistedIsNotBreached(cfg, c);
    ss, steps := AssistDecided(cfg, c);
    ss, steps := RunSnoc(cfg, ss, steps, 1, Begin(other));
    ss, steps := RunSnoc(cfg, ss, steps, 1, LoadGuard);
    ss, steps := RunSnoc(cfg, ss, steps, 1, Store);
    assert ss[|steps|].latch && PcOf(ss[|steps|], 0) == Assisting(c, false, false, false);
    ss, steps := RunSnoc(cfg, ss, steps, 0, LoadReason);
    ReturnedIsExplained(cfg, Loads(false, false, true), c);
  }

  lemma StartIsRun(cfg: Config)
    ensures Run(cfg, [State(false, map[])], [])
  {
  }
}
