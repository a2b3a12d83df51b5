/** Commits, writes and drops by any number of threads over any workspaces, as
    an interleaving state machine with one program counter per thread. */
module CommitChain {
  import opened Wrappers
  import opened Disk
  import opened ShadowStore

  type Tid = nat
  type LockId = nat

  /** A commit object. The store is content addressed, so the object is its own
      id: it names its parent, the file map it captured, and message and time. */
  datatype Commit = Commit(parent: Option<Commit>, files: map<string, Oid>, stamp: nat)

  datatype Workspace = Workspace(files: map<string, Oid>, head: Option<Commit>)

  datatype Pc =
    | Idle
    | WantLock(id: Uuid)
    | HasRef(id: Uuid, lock: LockId)
    | Locked(id: Uuid, lock: LockId)
    | ReadHead(id: Uuid, lock: LockId, parent: Option<Commit>, entries: map<string, Oid>)
    | Committed(id: Uuid, lock: LockId, commit: Commit)
    | Advanced(id: Uuid, lock: LockId, commit: Commit)
    | Writing(id: Uuid, path: string, oid: Oid)

  datatype State = State(
    workspaces: map<Uuid, Workspace>,
    lk: Locks,
    odb: set<Commit>,
    pcs: map<Tid, Pc>,
    past: History)

  /** The commit_locks side table, whose entries are never removed, and who holds what. */
  datatype Locks = Locks(table: map<Uuid, LockId>, next: nat, held: map<LockId, Tid>)

  /** Every workspace id ever handed out, what each workspace was created from,
      the commits that advanced its head in order, and those some `commit` returned. */
  datatype History = History(
    used: set<Uuid>,
    base: map<Uuid, Option<Commit>>,
    chain: map<Uuid, seq<Commit>>,
    returned: map<Uuid, set<Commit>>)

  function PcOf(s: State, t: Tid): Pc {
    if t in s.pcs then s.pcs[t] else Idle
  }

  predicate Critical(p: Pc) {
    p.Locked? || p.ReadHead? || p.Committed? || p.Advanced?
  }

  /** A fresh process on a bare repository that may hold commits already. */
  predicate Init(s: State) {
    && s == State(map[], Locks(map[], 0, map[]), s.odb, map[], History({}, map[], map[], map[]))
    && forall c | c in s.odb && c.parent.Some? :: c.parent.value in s.odb
  }

  datatype Action =
    | StartCommit(id: Uuid)
    | LookUpLock
    | Acquire
    | ReadWorkspace
    | MakeCommit(stamp: nat)
    | FailCommit
    | AdvanceHead
    | ReturnCommit
    | StartWrite(id: Uuid, path: string, oid: Oid)
    | FinishWrite
    | WriteBackFiles(id: Uuid, files: map<string, Oid>)
    | Drop(id: Uuid)
    | CreateWorkspace(id: Uuid, base: Option<Commit>)

  function Goto(s: State, t: Tid, p: Pc): State {
    s.(pcs := s.pcs[t := p])
  }

  /** Leaving `commit`, on any path, drops the guard. */
  function Unlock(s: State, t: Tid, lock: LockId): State {
    Goto(s.(lk := s.lk.(held := s.lk.held - {lock})), t, Idle)
  }

  predicate Enabled(s: State, t: Tid, a: Action) {
    var p := PcOf(s, t);
    match a
    case StartCommit(_) => p.Idle?
    case LookUpLock => p.WantLock?
    case Acquire => p.HasRef? && p.lock !in s.lk.held
    case ReadWorkspace => p.Locked?
    case MakeCommit(_) => p.ReadHead? && (p.parent.Some? ==> p.parent.value in s.odb)
    case FailCommit => p.ReadHead?
    case AdvanceHead => p.Committed?
    case ReturnCommit => p.Advanced?
    case StartWrite(id, _, _) => p.Idle? && id in s.workspaces
    case FinishWrite => p.Writing?
    case WriteBackFiles(id, _) => id in s.workspaces
    case Drop(_) => p.Idle?
    case CreateWorkspace(id, b) => p.Idle? && id !in s.past.used && (b.Some? ==> b.value in s.odb)
  }

  function Next(s: State, t: Tid, a: Action): State
    requires Enabled(s, t, a)
  {
    var p := PcOf(s, t);
    match a
    case StartCommit(id) => Goto(s, t, WantLock(id))
    case LookUpLock =>
      if p.id in s.lk.table then Goto(s, t, HasRef(p.id, s.lk.table[p.id]))
      else Goto(s.(lk := s.lk.(table := s.lk.table[p.id := s.lk.next], next := s.lk.next + 1)), t, HasRef(p.id, s.lk.next))
    case Acquire => Goto(s.(lk := s.lk.(held := s.lk.held[p.lock := t])), t, Locked(p.id, p.lock))
    case ReadWorkspace =>
      if p.id in s.workspaces
      then Goto(s, t, ReadHead(p.id, p.lock, s.workspaces[p.id].head, s.workspaces[p.id].files))
      else Unlock(s, t, p.lock)
    case MakeCommit(stamp) =>
      var c := Commit(p.parent, p.entries, stamp);
      Goto(s.(odb := s.odb + {c}), t, Committed(p.id, p.lock, c))
    case FailCommit => Unlock(s, t, p.lock)
    case AdvanceHead =>
      var s' := if p.id in s.workspaces
                then s.(workspaces := s.workspaces[p.id := s.workspaces[p.id].(head := Some(p.commit))],
                        past := s.past.(chain := s.past.chain[p.id := ChainOf(s, p.id) + [p.commit]]))
                else s;
      Goto(s', t, Advanced(p.id, p.lock, p.commit))
    case ReturnCommit =>
      Unlock(s.(past := s.past.(returned := s.past.returned[p.id := ReturnedOf(s, p.id) + {p.commit}])), t, p.lock)
    case StartWrite(id, path, oid) => Goto(s, t, Writing(id, path, oid))
    case FinishWrite =>
      var s' := if p.id in s.workspaces
                then s.(workspaces := s.workspaces[p.id := s.workspaces[p.id].(files := s.workspaces[p.id].files[p.path := p.oid])])
                else s;
      Goto(s', t, Idle)
    case WriteBackFiles(id, files) => s.(workspaces := s.workspaces[id := s.workspaces[id].(files := files)])
    case Drop(id) => s.(workspaces := s.workspaces - {id})
    case CreateWorkspace(id, b) =>
      s.(workspaces := s.workspaces[id := Workspace(if b.Some? then b.value.files else map[], b)],
         past := s.past.(used := s.past.used + {id}, base := s.past.base[id := b], chain := s.past.chain[id := []]))
  }

  function ChainOf(s: State, id: Uuid): seq<Commit> {
    if id in s.past.chain then s.past.chain[id] else []
  }

  function ReturnedOf(s: State, id: Uuid): set<Commit> {
    if id in s.past.returned then s.past.returned[id] else {}
  }

  // ----- The invariant ------------------------------------------------------

  /** Distinct workspaces have distinct locks. */
  predicate TableOk(s: State) {
    && (forall a, b | a in s.lk.table && b in s.lk.table && s.lk.table[a] == s.lk.table[b] :: a == b)
    && (forall a | a in s.lk.table :: s.lk.table[a] < s.lk.next)
  }

  /** A thread past the lookup has its workspace's own lock. */
  predicate RefOk(s: State, p: Pc) {
    p.HasRef? || Critical(p) ==> p.id in s.lk.table && s.lk.table[p.id] == p.lock
  }

  /** A thread inside the guarded span holds the lock. */
  predicate HoldOk(s: State, t: Tid) {
    Critical(PcOf(s, t)) ==> PcOf(s, t).lock in s.lk.held && s.lk.held[PcOf(s, t).lock] == t
  }

  predicate LocksOk(s: State) {
    TableOk(s) && (forall t | t in s.pcs :: RefOk(s, s.pcs[t]) && HoldOk(s, t))
  }

  /** A link-by-link history: each commit's sole parent is the one before it. */
  predicate Linked(b: Option<Commit>, cs: seq<Commit>) {
    cs == [] || (Linked(b, cs[..|cs| - 1]) && cs[|cs| - 1].parent == HeadOf(b, cs[..|cs| - 1]))
  }

  function HeadOf(b: Option<Commit>, cs: seq<Commit>): Option<Commit> {
    if cs == [] then b else Some(cs[|cs| - 1])
  }

  /** The head of a live workspace is the end of a linked chain from its base,
      and every commit returned for it is in that chain. */
  predicate WorkspaceOk(s: State, id: Uuid)
    requires id in s.workspaces
  {
    && id in s.past.used && id in s.past.base && id in s.past.chain
    && Linked(s.past.base[id], s.past.chain[id])
    && s.workspaces[id].head == HeadOf(s.past.base[id], s.past.chain[id])
    && (forall c | c in ReturnedOf(s, id) :: c in s.past.chain[id])
  }

  predicate ChainsOk(s: State) {
    && (forall id | id in s.workspaces :: WorkspaceOk(s, id))
    && (forall id | id in s.past.returned :: id in s.past.used)
  }

  /** What a thread inside `commit` knows about its workspace, if that is still there. */
  predicate InsideOk(s: State, p: Pc) {
    && (p.ReadHead? ==> p.id in s.past.used && (p.id in s.workspaces ==> s.workspaces[p.id].head == p.parent))
    && (p.Committed? ==> p.id in s.past.used && (p.id in s.workspaces ==> s.workspaces[p.id].head == p.commit.parent))
    && (p.Advanced? ==> p.id in s.past.used && (p.id in s.workspaces ==> p.commit in ChainOf(s, p.id)))
  }

  predicate ThreadsOk(s: State) {
    && (forall t | t in s.pcs :: InsideOk(s, s.pcs[t]))
  }

  predicate Stored(s: State, c: Option<Commit>) {
    c.Some? ==> c.value in s.odb
  }

  /** Every stored commit's parent is stored; every head and every commit in flight is stored. */
  predicate OdbOk(s: State) {
    && (forall c | c in s.odb :: Stored(s, c.parent))
    && (forall id | id in s.workspaces :: Stored(s, s.workspaces[id].head))
    && (forall t | t in s.pcs :: FlightOk(s, s.pcs[t]))
  }

  predicate FlightOk(s: State, p: Pc) {
    (p.ReadHead? ==> Stored(s, p.parent)) && (p.Committed? ==> p.commit in s.odb)
  }

  predicate Inv(s: State) {
    LocksOk(s) && ChainsOk(s) && ThreadsOk(s) && OdbOk(s)
  }

  lemma TableKept(s: State, t: Tid, a: Action)
    requires TableOk(s) && Enabled(s, t, a)
    ensures TableOk(Next(s, t, a))
    ensures forall id | id in s.lk.table :: id in Next(s, t, a).lk.table && Next(s, t, a).lk.table[id] == s.lk.table[id]
  {
    if !a.LookUpLock? { assert Next(s, t, a).lk.table == s.lk.table; }
  }

  lemma LockKept(s: State, t: Tid, a: Action, u: Tid)
    requires LocksOk(s) && Enabled(s, t, a)
    ensures RefOk(Next(s, t, a), PcOf(Next(s, t, a), u)) && HoldOk(Next(s, t, a), u)
  {
    TableKept(s, t, a);
    if u in s.pcs { assert RefOk(s, s.pcs[u]) && HoldOk(s, u); }
    if t in s.pcs { assert RefOk(s, s.pcs[t]) && HoldOk(s, t); }
  }

  lemma LocksKept(s: State, t: Tid, a: Action)
    requires LocksOk(s) && Enabled(s, t, a)
    ensures LocksOk(Next(s, t, a))
  {
    TableKept(s, t, a);
    forall u | u in Next(s, t, a).pcs ensures RefOk(Next(s, t, a), Next(s, t, a).pcs[u]) && HoldOk(Next(s, t, a), u) {
      LockKept(s, t, a, u);
    }
  }

  /** Two threads inside `commit` for one workspace are one thread. */
  lemma MutualExclusion(s: State, t: Tid, u: Tid)
    requires LocksOk(s) && Critical(PcOf(s, t)) && Critical(PcOf(s, u)) && PcOf(s, t).id == PcOf(s, u).id
    ensures t == u
  {
    assert RefOk(s, s.pcs[t]) && HoldOk(s, t) && RefOk(s, s.pcs[u]) && HoldOk(s, u);
  }

  lemma OdbKept(s: State, t: Tid, a: Action)
    requires OdbOk(s) && Enabled(s, t, a)
    ensures OdbOk(Next(s, t, a))
  {
    var s' := Next(s, t, a);
    assert s.odb <= s'.odb;
    forall c | c in s'.odb ensures Stored(s', c.parent) {}
    forall id | id in s'.workspaces ensures Stored(s', s'.workspaces[id].head) { HeadStored(s, t, a, id); }
    forall u | u in s'.pcs ensures FlightOk(s', s'.pcs[u]) { FlightKept(s, t, a, u); }
  }

  lemma HeadStored(s: State, t: Tid, a: Action, id: Uuid)
    requires OdbOk(s) && Enabled(s, t, a) && id in Next(s, t, a).workspaces
    ensures Stored(Next(s, t, a), Next(s, t, a).workspaces[id].head)
  {
    if a.AdvanceHead? { assert FlightOk(s, s.pcs[t]); }
  }

  lemma FlightKept(s: State, t: Tid, a: Action, u: Tid)
    requires OdbOk(s) && Enabled(s, t, a) && u in Next(s, t, a).pcs
    ensures FlightOk(Next(s, t, a), Next(s, t, a).pcs[u])
  {
    if u in s.pcs { assert FlightOk(s, s.pcs[u]); }
  }

  lemma LinkedSnoc(b: Option<Commit>, cs: seq<Commit>, c: Commit)
    requires Linked(b, cs) && c.parent == HeadOf(b, cs)
    ensures Linked(b, cs + [c]) && HeadOf(b, cs + [c]) == Some(c)
  {
    assert (cs + [c])[..|cs|] == cs;
  }

  lemma ChainKept(s: State, t: Tid, a: Action, id: Uuid)
    requires ChainsOk(s) && ThreadsOk(s) && Enabled(s, t, a) && id in Next(s, t, a).workspaces
    ensures WorkspaceOk(Next(s, t, a), id)
  {
    var s', p := Next(s, t, a), PcOf(s, t);
    if t in s.pcs { assert InsideOk(s, s.pcs[t]); }
    if id in s.workspaces { assert WorkspaceOk(s, id); }
    if a.AdvanceHead? && p.id == id { LinkedSnoc(s.past.base[id], s.past.chain[id], p.commit); }
  }

  lemma ChainsKept(s: State, t: Tid, a: Action)
    requires ChainsOk(s) && ThreadsOk(s) && Enabled(s, t, a)
    ensures ChainsOk(Next(s, t, a))
  {
    var s' := Next(s, t, a);
    forall id | id in s'.workspaces ensures WorkspaceOk(s', id) { ChainKept(s, t, a, id); }
    if a.ReturnCommit? { assert InsideOk(s, s.pcs[t]); }
  }

  /** A thread's own step. */
  lemma OwnThreadKept(s: State, t: Tid, a: Action)
    requires ChainsOk(s) && ThreadsOk(s) && Enabled(s, t, a) && t in Next(s, t, a).pcs
    ensures InsideOk(Next(s, t, a), Next(s, t, a).pcs[t])
  {
    var p := PcOf(s, t);
    if t in s.pcs { assert InsideOk(s, s.pcs[t]); }
    if a.ReadWorkspace? && p.id in s.workspaces { assert WorkspaceOk(s, p.id); }
    if p.Advanced? && p.id in s.workspaces { assert WorkspaceOk(s, p.id); }
  }

  /** Another thread's step: it changes a head only inside its own guarded span. */
  lemma OtherThreadKept(s: State, t: Tid, a: Action, u: Tid)
    requires LocksOk(s) && ChainsOk(s) && ThreadsOk(s) && Enabled(s, t, a) && u in s.pcs && u != t
    ensures InsideOk(Next(s, t, a), s.pcs[u])
  {
    var p := s.pcs[u];
    assert InsideOk(s, p);
    if a.AdvanceHead? && Critical(p) && p.id == PcOf(s, t).id { MutualExclusion(s, t, u); }
    hide LocksOk, TableOk, RefOk, HoldOk;
    if p.Advanced? && p.id in s.workspaces { assert WorkspaceOk(s, p.id); }
  }

  lemma ThreadsKept(s: State, t: Tid, a: Action)
    requires LocksOk(s) && ChainsOk(s) && ThreadsOk(s) && Enabled(s, t, a)
    ensures ThreadsOk(Next(s, t, a))
  {
    forall u | u in Next(s, t, a).pcs ensures InsideOk(Next(s, t, a), Next(s, t, a).pcs[u]) {
      if u == t { OwnThreadKept(s, t, a); } else { OtherThreadKept(s, t, a, u); }
    }
  }

  lemma InvKept(s: State, t: Tid, a: Action)
    requires Inv(s) && Enabled(s, t, a)
    ensures Inv(Next(s, t, a))
  {
    LocksKept(s, t, a);
    OdbKept(s, t, a);
    ChainsKept(s, t, a);
    ThreadsKept(s, t, a);
  }

  // ----- Whole runs ----------------------------------------------------------

  ghost predicate Run(ss: seq<State>, ts: seq<Tid>, acts: seq<Action>) {
    && |ss| == |acts| + 1 && |ts| == |acts| && Init(ss[0])
    && forall i | 0 <= i < |acts| :: Enabled(ss[i], ts[i], acts[i]) && ss[i + 1] == Next(ss[i], ts[i], acts[i])
  }

  lemma {:induction false} InvAlongRun(ss: seq<State>, ts: seq<Tid>, acts: seq<Action>, i: nat)
    requires Run(ss, ts, acts) && i < |ss|
    ensures Inv(ss[i])
  {
    if i > 0 {
      InvAlongRun(ss, ts, acts, i - 1);
      assert Enabled(ss[i - 1], ts[i - 1], acts[i - 1]) && ss[i - 1 + 1] == Next(ss[i - 1], ts[i - 1], acts[i - 1]);
      InvKept(ss[i - 1], ts[i - 1], acts[i - 1]);
    }
  }

  /** `n` steps towards the root. */
  function WalkBack(c: Option<Commit>, n: nat): Option<Commit> {
    if n == 0 || c.None? then c else WalkBack(c.value.parent, n - 1)
  }

  /** Fewer than `n` steps back from `h` lead to `c`. */
  ghost predicate OnWalk(h: Option<Commit>, n: nat, c: Commit) {
    exists k :: 0 <= k < n && WalkBack(h, k) == Some(c)
  }

  lemma {:induction false} ChainWalk(b: Option<Commit>, cs: seq<Commit>, k: nat)
    requires Linked(b, cs) && k <= |cs|
    ensures WalkBack(HeadOf(b, cs), k) == HeadOf(b, cs[..|cs| - k])
  {
    if k == 0 {
      assert cs[..|cs|] == cs;
    } else {
      var front := cs[..|cs| - 1];
      ChainWalk(b, front, k - 1);
      assert front[..|front| - (k - 1)] == cs[..|cs| - k];
    }
  }

  /** In every state of every run: at most one thread per workspace is between
      reading head and returning, each live workspace's head walks back through
      its own commits to the commit it was created from (or to a root commit),
      and every commit returned for it is on that walk. */
  lemma EveryRunKeepsHistories(ss: seq<State>, ts: seq<Tid>, acts: seq<Action>, i: nat)
    requires Run(ss, ts, acts) && i < |ss|
    ensures forall t, u | Critical(PcOf(ss[i], t)) && Critical(PcOf(ss[i], u)) && PcOf(ss[i], t).id == PcOf(ss[i], u).id :: t == u
    ensures forall id | id in ss[i].workspaces ::
              id in ss[i].past.base && WalkBack(ss[i].workspaces[id].head, |ChainOf(ss[i], id)|) == ss[i].past.base[id]
    ensures forall id, c | id in ss[i].workspaces && c in ReturnedOf(ss[i], id) ::
              OnWalk(ss[i].workspaces[id].head, |ChainOf(ss[i], id)|, c)
  {
    var s := ss[i];
    InvAlongRun(ss, ts, acts, i);
    forall t, u | Critical(PcOf(s, t)) && Critical(PcOf(s, u)) && PcOf(s, t).id == PcOf(s, u).id ensures t == u {
      MutualExclusion(s, t, u);
    }
    forall id | id in s.workspaces
      ensures id in s.past.base && WalkBack(s.workspaces[id].head, |ChainOf(s, id)|) == s.past.base[id]
    {
      assert WorkspaceOk(s, id);
      ChainWalk(s.past.base[id], s.past.chain[id], |s.past.chain[id]|);
    }
    forall id, c | id in s.workspaces && c in ReturnedOf(s, id)
      ensures OnWalk(s.workspaces[id].head, |ChainOf(s, id)|, c)
    {
      assert WorkspaceOk(s, id);
      var b, cs := s.past.base[id], s.past.chain[id];
      var j :| 0 <= j < |cs| && cs[j] == c;
      ChainWalk(b, cs, |cs| - 1 - j);
      assert cs[..|cs| - (|cs| - 1 - j)] == cs[..j] + [c];
      assert WalkBack(s.workspaces[id].head, |cs| - 1 - j) == Some(c);
    }
  }

  // ----- Isolation -----------------------------------------------------------

  /** The workspace a step may change. */
  function Target(s: State, t: Tid, a: Action): Option<Uuid> {
    match a
    case AdvanceHead => if PcOf(s, t).Committed? then Some(PcOf(s, t).id) else None
    case FinishWrite => if PcOf(s, t).Writing? then Some(PcOf(s, t).id) else None
    case WriteBackFiles(id, _) => Some(id)
    case Drop(id) => Some(id)
    case CreateWorkspace(id, _) => Some(id)
    case _ => None
  }

  /** No step on one workspace changes another's head or files; on its own, the
      head stays or moves to a child of the old head. */
  lemma StepsAreLocal(s: State, t: Tid, a: Action, id: Uuid)
    requires Inv(s) && Enabled(s, t, a)
    ensures Target(s, t, a) != Some(id) ==>
              (id in s.workspaces <==> id in Next(s, t, a).workspaces)
              && (id in s.workspaces ==> Next(s, t, a).workspaces[id] == s.workspaces[id])
    ensures id in s.workspaces && id in Next(s, t, a).workspaces ==>
              var h, h' := s.workspaces[id].head, Next(s, t, a).workspaces[id].head;
              (h' == h && ChainOf(Next(s, t, a), id) == ChainOf(s, id))
              || (h'.Some? && h'.value.parent == h && ChainOf(Next(s, t, a), id) == ChainOf(s, id) + [h'.value])
  {
    if id in s.workspaces { assert WorkspaceOk(s, id); }
    if t in s.pcs { assert InsideOk(s, s.pcs[t]); }
  }

  // ----- What a commit holds -----------------------------------------------------

  /** At some point up to `i` the workspace had exactly these files and this head. */
  ghost predicate WasSo(ss: seq<State>, i: nat, id: Uuid, head: Option<Commit>, files: map<string, Oid>) {
    exists k :: 0 <= k <= i < |ss| && id in ss[k].workspaces && ss[k].workspaces[id] == Workspace(files, head)
  }

  /** What a thread inside `commit` holds was so once. */
  ghost predicate HoldsPast(ss: seq<State>, i: nat, p: Pc) {
    && (p.ReadHead? ==> WasSo(ss, i, p.id, p.parent, p.entries))
    && (p.Committed? || p.Advanced? ==> WasSo(ss, i, p.id, p.commit.parent, p.commit.files))
  }

  lemma WasSoLater(ss: seq<State>, i: nat, id: Uuid, head: Option<Commit>, files: map<string, Oid>)
    requires WasSo(ss, i, id, head, files) && i + 1 < |ss|
    ensures WasSo(ss, i + 1, id, head, files)
  {
  }

  lemma HoldsPastLater(ss: seq<State>, i: nat, p: Pc)
    requires HoldsPast(ss, i, p) && i + 1 < |ss|
    ensures HoldsPast(ss, i + 1, p)
  {
    hide WasSo;
    if p.ReadHead? { WasSoLater(ss, i, p.id, p.parent, p.entries); }
    if p.Committed? || p.Advanced? { WasSoLater(ss, i, p.id, p.commit.parent, p.commit.files); }
  }

  lemma HoldsPastStep(ss: seq<State>, i: nat, t: Tid, a: Action, u: Tid)
    requires i + 1 < |ss| && Enabled(ss[i], t, a) && ss[i + 1] == Next(ss[i], t, a)
    requires HoldsPast(ss, i, PcOf(ss[i], t)) && HoldsPast(ss, i, PcOf(ss[i], u))
    ensures HoldsPast(ss, i + 1, PcOf(ss[i + 1], u))
  {
    HoldsPastLater(ss, i, PcOf(ss[i], t));
    HoldsPastLater(ss, i, PcOf(ss[i], u));
    if a.ReadWorkspace? && u == t {
      var p := PcOf(ss[i + 1], t);
      if p.ReadHead? { assert ss[i].workspaces[p.id] == Workspace(p.entries, p.parent); }
    }
  }

  lemma ReturnedStep(s: State, t: Tid, a: Action, id: Uuid, c: Commit)
    requires Enabled(s, t, a) && c in ReturnedOf(Next(s, t, a), id)
    ensures c in ReturnedOf(s, id) || (PcOf(s, t).Advanced? && PcOf(s, t).id == id && PcOf(s, t).commit == c)
  {
  }

  /** In every run, for every commit that some `commit` returned or is about to
      return, there was a point at which its workspace had exactly the commit's
      files and, as head, the commit's parent. */
  lemma {:induction false} CommitsCaptureFiles(ss: seq<State>, ts: seq<Tid>, acts: seq<Action>, i: nat)
    requires Run(ss, ts, acts) && i < |ss|
    ensures forall u :: HoldsPast(ss, i, PcOf(ss[i], u))
    ensures forall id, c | c in ReturnedOf(ss[i], id) :: WasSo(ss, i, id, c.parent, c.files)
  {
    if i > 0 {
      var t, a := ts[i - 1], acts[i - 1];
      CommitsCaptureFiles(ss, ts, acts, i - 1);
      assert Enabled(ss[i - 1], t, a) && ss[i - 1 + 1] == Next(ss[i - 1], t, a);
      assert HoldsPast(ss, i - 1, PcOf(ss[i - 1], t));
      hide WasSo;
      forall u ensures HoldsPast(ss, i, PcOf(ss[i], u)) { HoldsPastStep(ss, i - 1, t, a, u); }
      forall id, c | c in ReturnedOf(ss[i], id) ensures WasSo(ss, i, id, c.parent, c.files) {
        ReturnedStep(ss[i - 1], t, a, id, c);
        WasSoLater(ss, i - 1, id, c.parent, c.files);
      }
    }
  }
}
