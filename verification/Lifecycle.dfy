/** Everything that can happen to the store: workspaces created, written, registered
    and dropped, events and reconcile passes, and any change on disk in between. */
module Lifecycle {
  import opened Wrappers
  import opened Paths
  import opened Disk
  import opened ShadowStore
  import opened GitTrees
  import opened WriteBack
  import opened Mirroring
  import opened Reconciling
  import opened WatchTable

  datatype Step =
    | Create(ws: Uuid, base: Tree)
    | Write(ws: Uuid, path: string, content: Bytes)
    | Register(ws: Uuid)
    | Drop(ws: Uuid)
    | Handle(event: Event)
    | Reconcile(ws: Uuid)
    | Elsewhere   // other programs and the kernel: any disk, any watch ended or given

  /** A workspace created from tree `t`, as `Project` makes it. */
  ghost predicate Created(st: State, ws: Uuid, t: Tree, st': State) {
    && ws !in st.files && t.Tree? && TreeNames(t) && (forall p | p in Leaves(t) :: Accepted(Join(p)))
    && ws in st'.files && ws in st'.disks && st'.disks[ws].Dir?
    && Holds(t, st'.files[ws]) && IsView(st'.files[ws], st'.disks[ws])
    && st' == st.(files := st.files[ws := st'.files[ws]], disks := st.disks[ws := st'.disks[ws]])
  }

  /** `write_file`, when it succeeds. */
  ghost predicate WroteFile(st: State, ws: Uuid, path: string, content: Bytes, st': State) {
    && ws in st.files && ws in st.disks && ws in st'.disks && Accepted(path)
    && Written(st.disks[ws], st'.disks[ws], SecureRelativePath(path).value, content)
    && st' == st.(files := st.files[ws := st.files[ws][path := BlobId(content)]], disks := st.disks[ws := st'.disks[ws]])
  }

  function Dropped(st: State, ws: Uuid): State {
    RemoveWatchesUnder(st, ws, "").(files := st.files - {ws}, disks := st.disks - {ws})
  }

  ghost predicate Stepped(st: State, step: Step, st': State) {
    match step
    case Create(ws, t) => Created(st, ws, t, st')
    case Write(ws, path, content) => WroteFile(st, ws, path, content, st')
    case Register(ws) => ws in st.files && SubtreeSynced(st, st', ws, "")
    case Drop(ws) => st' == Dropped(st, ws)
    case Handle(e) => Handled(st, e, st')
    case Reconcile(ws) => Reconciled(st, st', ws)
    case Elsewhere => st'.files == st.files && st'.watches == st.watches
  }

  /** A run of the store from its start, when it has no workspace and no watch. */
  ghost predicate StoreRun(sts: seq<State>, steps: seq<Step>) {
    && |sts| == |steps| + 1 && sts[0].files == map[] && sts[0].watches == map[]
    && forall i | 0 <= i < |steps| :: Stepped(sts[i], steps[i], sts[i + 1])
  }

  // ----- What every run keeps -----------------------------------------------------------

  /** Every key of every file map is accepted, and every watch belongs to a workspace. */
  ghost predicate Orderly(st: State) {
    && (forall ws | ws in st.files :: KeysAccepted(st.files[ws]))
    && (forall wd | wd in st.watches :: st.watches[wd].ws in st.files)
  }

  lemma StepKeepsKeys(st: State, step: Step, st': State, ws: Uuid)
    requires Stepped(st, step, st') && ws in st'.files && (ws in st.files ==> KeysAccepted(st.files[ws]))
    requires step.Handle? ==> ws in st.files
    ensures KeysAccepted(st'.files[ws])
  {
    match step
    case Create(id, t) =>
      if id == ws { ViewKeysAreAccepted(st'.files[ws], st'.disks[ws]); }
    case Register(id) =>
      forall s | s in st'.files[ws] ensures Accepted(s) {
        if id == ws { AbsorbedAt(st.files[ws], st'.files[ws], TreeOf(st, ws), [], s); }
      }
    case Handle(e) => HandledKeepsKeys(st, e, st', ws);
    case Reconcile(id) =>
      forall s | s in st'.files[ws] ensures Accepted(s) {
        if id == ws && id in st.files { RepairedAt(st.files[ws], st'.files[ws], TreeOf(st, ws), s); }
      }
    case _ =>
  }

  lemma ViewKeysAreAccepted(files: map<string, Oid>, d: Node)
    requires IsView(files, d)
    ensures KeysAccepted(files)
  {
    forall s | s in files ensures Accepted(s) { assert Get(files, s) == FileAt(d, s); }
  }

  lemma AbsorbedAt(files: map<string, Oid>, files': map<string, Oid>, d: Node, at: seq<string>, s: string)
    requires Absorbed(files, files', d, at)
    ensures Get(files', s) == if at < Split(s) && FileAt(d, s).Some? then FileAt(d, s) else Get(files, s)
  {
  }

  lemma {:induction false} ReconciledAllKeepsNames(st: State, st': State, todo: set<Uuid>)
    requires ReconciledAll(st, st', todo)
    ensures st'.files.Keys == st.files.Keys
    ensures (forall wd | wd in st.watches :: st.watches[wd].ws in st.files) ==>
              forall wd | wd in st'.watches :: st'.watches[wd].ws in st.files
    decreases todo
  {
    if todo != {} {
      var k, mid :| k in todo && Reconciled(st, mid, k) && ReconciledAll(mid, st', todo - {k});
      if k in st.files { ArmedForOwner(st, mid, k, [], Recorded(st, k)); }
      ReconciledAllKeepsNames(mid, st', todo - {k});
    }
  }

  /** Arming adds entries for its own workspace only. */
  lemma ArmedForOwner(st: State, st': State, ws: Uuid, at: seq<string>, skip: set<string>)
    requires Armed(st, st', ws, at, skip)
    ensures forall wd | wd in st'.watches ::
              st'.watches[wd].ws == ws || (wd in st.watches && st'.watches[wd] == st.watches[wd])
  {
    forall wd | wd in st'.watches
      ensures st'.watches[wd].ws == ws || (wd in st.watches && st'.watches[wd] == st.watches[wd])
    {
      if Touched(st, ws, at, skip, wd) { var r := TouchedPlace(st, st', ws, at, skip, wd); }
    }
  }

  lemma HandledKeepsNames(st: State, e: Event, st': State)
    requires Handled(st, e, st')
    ensures st'.files.Keys == st.files.Keys
    ensures (forall wd | wd in st.watches :: st.watches[wd].ws in st.files) ==>
              forall wd | wd in st'.watches :: st'.watches[wd].ws in st.files
  {
    if e.kind == Overflow {
      ReconciledAllKeepsNames(st, st', st.files.Keys);
    } else if e.kind != Ignored && e.wd in st.watches && st.watches[e.wd].ws in st.files
              && e.isDir && (e.kind == Kind.Create || e.kind == MovedTo) {
      ArmedForOwner(st, st', st.watches[e.wd].ws, DirPath(Child(st.watches[e.wd].relDir, e.name)), {});
    }
  }

  lemma StepKeepsOrderly(st: State, step: Step, st': State)
    requires Orderly(st) && Stepped(st, step, st')
    ensures Orderly(st')
  {
    match step {
      case Register(ws) => ArmedForOwner(st, st', ws, [], {});
      case Handle(e) => HandledKeepsNames(st, e, st');
      case Reconcile(ws) => if ws in st.files { ArmedForOwner(st, st', ws, [], Recorded(st, ws)); }
      case Drop(ws) => forall wd | wd in st'.watches ensures st'.watches[wd].ws in st'.files { UnregisterForgets(st, ws); }
      case _ =>
    }
    forall ws | ws in st'.files ensures KeysAccepted(st'.files[ws]) { StepKeepsKeys(st, step, st', ws); }
  }

  /** In every reachable state every key is accepted and no watch is an orphan. */
  lemma {:induction false} EveryRunIsOrderly(sts: seq<State>, steps: seq<Step>, i: nat)
    requires StoreRun(sts, steps) && i < |sts|
    ensures Orderly(sts[i])
  {
    hide Orderly, Stepped;
    if i == 0 {
      StartIsOrderly(sts[0]);
    } else {
      EveryRunIsOrderly(sts, steps, i - 1);
      StepKeepsOrderly(sts[i - 1], steps[i - 1], sts[i]);
    }
  }

  lemma StartIsOrderly(st: State)
    requires st.files == map[] && st.watches == map[]
    ensures Orderly(st)
  {
  }

  /** So in every reachable state one pass yields the flat view, whatever was on
      disk, and so does an overflow for every workspace. */
  lemma ReachablePassYieldsTheView(sts: seq<State>, steps: seq<Step>, i: nat, ws: Uuid, st': State)
    requires StoreRun(sts, steps) && i < |sts| && Known(sts[i], ws)
    requires Reconciled(sts[i], st', ws) || exists e: Event :: e.kind == Overflow && Handled(sts[i], e, st')
    ensures ws in st'.files && IsView(st'.files[ws], sts[i].disks[ws])
  {
    EveryRunIsOrderly(sts, steps, i);
    if Reconciled(sts[i], st', ws) {
      ReconcileFilesIff(sts[i], st', ws);
    } else {
      var e: Event :| e.kind == Overflow && Handled(sts[i], e, st');
      OverflowRecovers(sts[i], e, st', ws);
    }
  }

  /** Creating and registering a workspace in any reachable state gives a mirror
      with a sound watch table. */
  lemma NewWorkspaceIsMirrored(sts: seq<State>, steps: seq<Step>, i: nat, ws: Uuid, t: Tree, st1: State, st2: State)
    requires StoreRun(sts, steps) && i < |sts|
    requires Created(sts[i], ws, t, st1) && UniqueInos(st1.disks) && SubtreeSynced(st1, st2, ws, "")
    ensures Mirrored(st2, ws) && Sound(st2, ws, st2.disks[ws]) && KeysAccepted(st2.files[ws])
  {
    EveryRunIsOrderly(sts, steps, i);
    forall s | s in st1.files[ws] ensures FileAt(st1.disks[ws], s).Some? {
      assert Get(st1.files[ws], s) == FileAt(st1.disks[ws], s);
    }
    RegisterMirrorsIff(st1, st2, ws);
    RegisteredIsSound(st1, st2, ws);
    ViewKeysAreAccepted(st2.files[ws], st2.disks[ws]);
  }
}
