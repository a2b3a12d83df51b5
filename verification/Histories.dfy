/** Whole histories of a workspace: any sequence of filesystem operations, the
    events of each handled before the next, with late events and reconcile passes
    in between. */
module Histories {
  import opened Paths
  import opened Disk
  import opened ShadowStore
  import opened WriteBack
  import opened LateEvents
  import opened Mirroring
  import opened Reconciling
  import opened WatchTable

  /** One operation on the real directory tree, or a tick of the reconcile loop. */
  datatype Op =
    | WriteFile(p: seq<string>, content: Bytes)
    | RemoveFile(p: seq<string>)
    | RenameFile(p: seq<string>, q: seq<string>)
    | PlaceDir(p: seq<string>, dir: Node)
    | MoveDirOut(p: seq<string>)
    | RemoveDir(p: seq<string>)
    | RenameDir(p: seq<string>, q: seq<string>)
    | Tick

  predicate IsEntry(d: Node, p: seq<string>) {
    p != [] && ValidNames(p) && See(d, DirName(p)).SawDir?
  }

  /** The kernel lets the operation happen. */
  ghost predicate Possible(st: State, ws: Uuid, op: Op)
    requires ws in st.disks
  {
    var d := st.disks[ws];
    match op
    case WriteFile(p, _) => IsEntry(d, p) && (See(d, p).Nothing? || See(d, p).SawFile?)
    case RemoveFile(p) => IsEntry(d, p) && See(d, p).SawFile?
    case RenameFile(p, q) =>
      IsEntry(d, p) && IsEntry(d, q) && p != q && See(d, p).SawFile? && (See(d, q).Nothing? || See(d, q).SawFile?)
      && See(Remove(d, p), DirName(q)).SawDir?
    case PlaceDir(p, n) => IsEntry(d, p) && See(d, p).Nothing? && n.Dir?
    case MoveDirOut(p) => IsEntry(d, p) && See(d, p).SawDir?
    case RemoveDir(p) => IsEntry(d, p) && See(d, p).SawDir? && forall q | p < q :: See(d, q).Nothing?
    case RenameDir(p, q) => CanRename(st, ws, p, q) && forall r | q < r :: See(d, r).Nothing?
    case Tick => true
  }

  /** The operation's effect on disk and in the kernel, no event handled yet. */
  ghost function Done(st: State, ws: Uuid, op: Op): State
    requires ws in st.disks && Possible(st, ws, op)
  {
    var d := st.disks[ws];
    match op
    case WriteFile(p, c) => OnDisk(st, ws, Put(d, p, File(c)))
    case RemoveFile(p) => OnDisk(st, ws, Remove(d, p))
    case RenameFile(p, q) => OnDisk(st, ws, Put(Remove(d, p), q, File(See(d, p).content)))
    case PlaceDir(p, n) => OnDisk(st, ws, Put(d, p, n))
    case MoveDirOut(p) => OnDisk(st, ws, Remove(d, p))
    case RemoveDir(p) => OnDisk(Unwatch(st, See(d, p).ino), ws, Remove(d, p))
    case RenameDir(p, q) => Renamed(st, ws, p, q)
    case Tick => st
  }

  function OnDisk(st: State, ws: Uuid, d: Node): State { st.(disks := st.disks[ws := d]) }

  /** The events the operation raises on directories that are watched. */
  ghost predicate Raises(st: State, ws: Uuid, op: Op, es: seq<Event>)
    requires ws in st.disks && Possible(st, ws, op)
  {
    var d := st.disks[ws];
    match op
    case WriteFile(p, _) => es != [] && forall e | e in es :: FileAppears(e.kind) && e == ParentEvent(st, d, p, e.kind, false)
    case RemoveFile(p) => es == [ParentEvent(st, d, p, Delete, false)] || es == [ParentEvent(st, d, p, MovedFrom, false)]
    case RenameFile(p, q) => es == [ParentEvent(st, d, p, MovedFrom, false), ParentEvent(st, d, q, MovedTo, false)]
    case PlaceDir(p, _) => es == [ParentEvent(st, d, p, Create, true)] || es == [ParentEvent(st, d, p, MovedTo, true)]
    case MoveDirOut(p) => exists self :: es == MoveOutEvents(st, d, p, self)
    case RemoveDir(p) => forall e | e in es :: RmdirEvent(e, ParentEvent(st, d, p, Delete, true), WdOf(st, See(d, p).ino))
    case RenameDir(p, q) => exists self :: es == RenameEvents(st, ws, p, q, self)
    case Tick => es == []
  }

  /** The operation happens, then its events are handled, the disk being still, with
      late ones anywhere in between; a tick then reconciles. */
  ghost predicate Round(st: State, ws: Uuid, op: Op, sts: seq<State>, all: seq<Event>, es: seq<Event>, st': State) {
    && ws in st.disks && Possible(st, ws, op) && Raises(st, ws, op, es)
    && Run(sts, all) && Played(st, sts, all, es)
    && sts[0] == Done(st, ws, op) && UniqueInos(sts[0].disks)
    && if op.Tick? then Reconciled(sts[|all|], st', ws) else st' == sts[|all|]
  }

  /** The same with the late events left out: what is heard of `es`, nothing else. */
  ghost predicate Heard(st: State, ws: Uuid, op: Op, hs: seq<State>, es: seq<Event>, st': State) {
    && ws in st.disks && Possible(st, ws, op) && Raises(st, ws, op, es)
    && HeardRun(st, hs, es)
    && hs[0] == Done(st, ws, op) && UniqueInos(hs[0].disks)
    && if op.Tick? then Reconciled(st, st', ws) else st' == hs[|es|]
  }

  lemma RoundIsHeard(st: State, ws: Uuid, op: Op, sts: seq<State>, all: seq<Event>, es: seq<Event>, st': State)
    returns (hs: seq<State>)
    requires Round(st, ws, op, sts, all, es, st')
    ensures Heard(st, ws, op, hs, es, st')
  {
    hide Possible, Raises, UniqueInos, Played, Run, HeardRun, Reconciled;
    hs := Unplay(st, sts, all, es);
    if op.Tick? { TickRaisesNothing(st, ws, op, es); }
  }

  lemma TickRaisesNothing(st: State, ws: Uuid, op: Op, es: seq<Event>)
    requires ws in st.disks && Possible(st, ws, op) && Raises(st, ws, op, es) && op.Tick?
    ensures es == []
  {
  }

  /** A directory renamed over an existing one, the only operation events cannot follow. */
  predicate Replaces(st: State, ws: Uuid, op: Op) {
    op.RenameDir? && ws in st.disks && See(st.disks[ws], op.q).SawDir?
  }

  // ----- One round from a mirror -----------------------------------------------------

  lemma MirrorIsClean(st: State, ws: Uuid)
    requires Mirrored(st, ws)
    ensures KeysAccepted(st.files[ws]) && NoStaleEntries(st, ws)
  {
    forall s | s in st.files[ws] ensures Accepted(s) { assert Get(st.files[ws], s) == FileAt(st.disks[ws], s); }
  }

  /** In a mirror every event of an operation is heard. */
  lemma MirrorHearsAll(st: State, ws: Uuid, op: Op, es: seq<Event>)
    requires Mirrored(st, ws) && Possible(st, ws, op) && Raises(st, ws, op, es)
    ensures forall e | e in es :: IsLive(st, e.wd)
  {
    var d := st.disks[ws];
    forall p | See(d, p).SawDir? ensures See(d, p).ino in st.live { assert WatchedAt(st, ws, p, See(d, p).ino); }
  }

  lemma StillLagging(st: State, ws: Uuid, op: Op)
    requires Mirrored(st, ws) && Possible(st, ws, op) && !op.RemoveDir? && !op.RenameDir? && !op.Tick?
    ensures Lagging(Done(st, ws, op), ws, st.disks[ws]) && Done(st, ws, op).gens == st.gens
  {
    DoneIsDir(st, ws, op);
  }

  lemma DoneIsDir(st: State, ws: Uuid, op: Op)
    requires Known(st, ws) && Possible(st, ws, op)
    ensures Known(Done(st, ws, op), ws) && Done(st, ws, op).files == st.files
  {
    var d := st.disks[ws];
    match op
    case WriteFile(p, c) => PutGrafts(d, p, File(c));
    case RemoveFile(p) => RemoveCuts(d, p);
    case RenameFile(p, q) => RemoveCuts(d, p); PutGrafts(Remove(d, p), q, File(See(d, p).content));
    case PlaceDir(p, n) => PutGrafts(d, p, n);
    case MoveDirOut(p) => RemoveCuts(d, p);
    case RemoveDir(p) => RemoveCuts(d, p);
    case RenameDir(p, q) =>
      SeeAfterRemove(d, p, DirName(q));
      PutGrafts(Remove(d, p), q, Lookup(d, p).value);
    case Tick =>
  }

  lemma FileRoundMirrors(st: State, ws: Uuid, op: Op, hs: seq<State>, es: seq<Event>, st': State)
    requires Mirrored(st, ws) && Heard(st, ws, op, hs, es, st') && Run(hs, es)
    requires op.WriteFile? || op.RemoveFile? || op.RenameFile?
    ensures Mirrored(st', ws)
  {
    StillLagging(st, ws, op);
    hide Mirrored, UniqueInos;
    var d := st.disks[ws];
    match op
    case WriteFile(p, c) => FileWriteMirrors(hs, es, ws, d, p, c);
    case RemoveFile(p) => FileRemoveMirrors(hs[0], hs[1], es[0], ws, d, p);
    case RenameFile(p, q) => FileRenameMirrors(hs, es, ws, d, p, q);
  }

  lemma DirRoundMirrors(st: State, ws: Uuid, op: Op, hs: seq<State>, es: seq<Event>, st': State)
    requires Mirrored(st, ws) && UniqueInos(st.disks) && Heard(st, ws, op, hs, es, st') && Run(hs, es)
    requires op.PlaceDir? || op.MoveDirOut? || op.RemoveDir?
    ensures Mirrored(st', ws)
  {
    var d := st.disks[ws];
    match op
    case PlaceDir(p, n) => StillLagging(st, ws, op); SubtreePlacedMirrors(hs[0], hs[1], es[0], ws, d, p, n);
    case MoveDirOut(p) =>
      StillLagging(st, ws, op);
      var self :| es == MoveOutEvents(st, d, p, self);
      MovedOutRun(hs, ws, d, p, self);
    case RemoveDir(p) => RmdirMirrors(st, hs, es, ws, p);
  }

  /** One round keeps the mirror, exactly unless it replaces a directory. */
  lemma RoundMirrorsIff(st: State, ws: Uuid, op: Op, sts: seq<State>, all: seq<Event>, es: seq<Event>, st': State)
    requires Mirrored(st, ws) && UniqueInos(st.disks) && Round(st, ws, op, sts, all, es, st')
    ensures Mirrored(st', ws) <==> !Replaces(st, ws, op)
  {
    var hs := RoundIsHeard(st, ws, op, sts, all, es, st');
    MirrorHearsAll(st, ws, op, es);
    AllHeard(st, hs, es);
    assert |hs| == |es| + 1;
    hide Mirrored, UniqueInos, HeardRun, Run, Played, Wiped;
    match op
    case RenameDir(p, q) =>
      var self :| es == RenameEvents(st, ws, p, q, self);
      RenameDirRun(st, hs, ws, p, q, self);
    case Tick => MirrorIsClean(st, ws); ReconcileMirrorsIff(st, st', ws);
    case PlaceDir(_, _) => DirRoundMirrors(st, ws, op, hs, es, st');
    case MoveDirOut(_) => DirRoundMirrors(st, ws, op, hs, es, st');
    case RemoveDir(_) => DirRoundMirrors(st, ws, op, hs, es, st');
    case _ => FileRoundMirrors(st, ws, op, hs, es, st');
  }

  // ----- One round from any state ------------------------------------------------------

  lemma FileRoundKeepsSound(st: State, ws: Uuid, op: Op, hs: seq<State>, es: seq<Event>, st': State)
    requires Known(st, ws) && Sound(st, ws, st.disks[ws]) && Heard(st, ws, op, hs, es, st')
    requires op.WriteFile? || op.RemoveFile? || op.RenameFile?
    ensures Sound(st', ws, hs[0].disks[ws])
  {
    var a, d := st.disks[ws], hs[0].disks[ws];
    FileEventsKeepTable(st, hs, es, |es|);
    SameTableIsSound(st, st', ws, a);
    forall r | See(a, r).SawDir? || See(d, r).SawDir? ensures See(a, r) == See(d, r) { FileOpKeepsDirs(st, ws, op, r); }
    SameDirsKeepSound(st', ws, a, d);
  }

  lemma FileOpKeepsDirs(st: State, ws: Uuid, op: Op, r: seq<string>)
    requires ws in st.disks && Possible(st, ws, op) && (op.WriteFile? || op.RemoveFile? || op.RenameFile?)
    ensures See(st.disks[ws], r).SawDir? || See(Done(st, ws, op).disks[ws], r).SawDir? ==>
              See(st.disks[ws], r) == See(Done(st, ws, op).disks[ws], r)
  {
    var a := st.disks[ws];
    match op
    case WriteFile(p, c) => SeeAfterPut(a, p, File(c), r); NoDirsThere(a, p, r);
    case RemoveFile(p) => SeeAfterRemove(a, p, r); NoDirsThere(a, p, r);
    case RenameFile(p, q) =>
      SeeAfterRemove(a, p, r);
      SeeAfterPut(Remove(a, p), q, File(See(a, p).content), r);
      NoDirsThere(a, p, r);
      NoDirsThere(a, q, r);
  }

  lemma NoDirsThere(a: Node, p: seq<string>, r: seq<string>)
    requires !See(a, p).SawDir?
    ensures p <= r ==> !See(a, r).SawDir?
  {
    PrefixCases(p, r);
    if p < r && See(a, r).SawDir? { AncestorsAreDirs(a, p, r); }
  }

  lemma DirRoundKeepsSound(st: State, ws: Uuid, op: Op, hs: seq<State>, es: seq<Event>, st': State)
    requires Known(st, ws) && Sound(st, ws, st.disks[ws]) && UniqueInos(st.disks) && Heard(st, ws, op, hs, es, st')
    requires op.PlaceDir? || op.MoveDirOut? || op.RemoveDir? || op.RenameDir?
    ensures Sound(st', ws, hs[0].disks[ws])
  {
    hide Sound, UniqueInos, HeardStep;
    match op
    case PlaceDir(p, n) =>
      assert HeardStep(st, hs[0], es[0], hs[1]);
      PlaceDirKeepsSound(st, hs[0], es[0], hs[1], ws, p, n);
    case MoveDirOut(p) =>
      var self :| es == MoveOutEvents(st, st.disks[ws], p, self);
      MoveOutKeepsSound(st, hs, ws, p, self);
    case RemoveDir(p) => RmdirKeepsSound(st, hs, es, ws, p);
    case RenameDir(p, q) =>
      var self :| es == RenameEvents(st, ws, p, q, self);
      RenameKeepsSound(st, hs, ws, p, q, self);
  }

  lemma {:induction false} ReconciledAllKeepsDisks(st: State, st': State, todo: set<Uuid>)
    requires ReconciledAll(st, st', todo)
    ensures st'.disks == st.disks
    decreases todo
  {
    if todo != {} {
      var k, mid :| k in todo && Reconciled(st, mid, k) && ReconciledAll(mid, st', todo - {k});
      ReconciledAllKeepsDisks(mid, st', todo - {k});
    }
  }

  lemma HandledKeepsDisks(st: State, e: Event, st': State)
    requires Handled(st, e, st')
    ensures st'.disks == st.disks
  {
    if e.kind == Overflow { ReconciledAllKeepsDisks(st, st', st.files.Keys); }
  }

  lemma {:induction false} HeardKeepsKeys(st0: State, hs: seq<State>, es: seq<Event>, i: nat, ws: Uuid)
    requires HeardRun(st0, hs, es) && i <= |es| && ws in hs[0].files && KeysAccepted(hs[0].files[ws])
    ensures hs[i].disks == hs[0].disks && ws in hs[i].files && KeysAccepted(hs[i].files[ws])
  {
    hide Handled, KeysAccepted;
    if i > 0 {
      HeardKeepsKeys(st0, hs, es, i - 1, ws);
      assert HeardStep(st0, hs[i - 1], es[i - 1], hs[i]);
      if IsLive(st0, es[i - 1].wd) {
        HandledKeepsDisks(hs[i - 1], es[i - 1], hs[i]);
        HandledKeepsKeys(hs[i - 1], es[i - 1], hs[i], ws);
      }
    }
  }

  /** Whatever the round, the keys stay accepted, and a tick yields the flat view. */
  lemma RoundKeepsKeys(st: State, ws: Uuid, op: Op, sts: seq<State>, all: seq<Event>, es: seq<Event>, st': State)
    requires Known(st, ws) && KeysAccepted(st.files[ws]) && Round(st, ws, op, sts, all, es, st')
    ensures Known(st', ws) && KeysAccepted(st'.files[ws])
    ensures st'.disks == sts[0].disks && UniqueInos(st'.disks)
    ensures op.Tick? ==> IsView(st'.files[ws], st'.disks[ws])
  {
    var hs := RoundIsHeard(st, ws, op, sts, all, es, st');
    DoneIsDir(st, ws, op);
    hide Possible, Raises, UniqueInos, Played, Run, Round;
    if op.Tick? {
      TickKeepsKeys(st, st', ws);
      ReconcileFilesIff(st, st', ws);
    } else {
      HeardKeepsKeys(st, hs, es, |es|, ws);
    }
  }

  lemma TickKeepsKeys(st: State, st': State, ws: Uuid)
    requires Known(st, ws) && KeysAccepted(st.files[ws]) && Reconciled(st, st', ws)
    ensures Known(st', ws) && KeysAccepted(st'.files[ws]) && st'.disks == st.disks
  {
    forall s | s in st'.files[ws] ensures Accepted(s) {
      RepairedAt(st.files[ws], st'.files[ws], st.disks[ws], s);
    }
  }

  /** One round keeps the watch table sound, and a tick on a sound table restores the mirror. */
  lemma RoundKeepsSound(st: State, ws: Uuid, op: Op, sts: seq<State>, all: seq<Event>, es: seq<Event>, st': State)
    requires Known(st, ws) && KeysAccepted(st.files[ws]) && Sound(st, ws, st.disks[ws]) && UniqueInos(st.disks)
    requires Round(st, ws, op, sts, all, es, st')
    ensures ws in st'.disks && Sound(st', ws, st'.disks[ws])
    ensures op.Tick? ==> Mirrored(st', ws)
  {
    var hs := RoundIsHeard(st, ws, op, sts, all, es, st');
    RoundKeepsKeys(st, ws, op, sts, all, es, st');
    hide Sound, UniqueInos, Possible, Raises, HeardRun, Round;
    if op.Tick? {
      SoundPassMirrors(st, st', ws);
    } else if op.WriteFile? || op.RemoveFile? || op.RenameFile? {
      FileRoundKeepsSound(st, ws, op, hs, es, st');
    } else {
      DirRoundKeepsSound(st, ws, op, hs, es, st');
    }
  }

  // ----- Whole histories ---------------------------------------------------------------

  /** `st'` follows `st` by one round. */
  ghost predicate Follows(st: State, ws: Uuid, op: Op, st': State) {
    exists sts, all, es :: Round(st, ws, op, sts, all, es, st')
  }

  ghost predicate History(states: seq<State>, ws: Uuid, ops: seq<Op>) {
    |states| == |ops| + 1 && forall i | 0 <= i < |ops| :: Follows(states[i], ws, ops[i], states[i + 1])
  }

  /** In every history, from any map with accepted keys, each tick yields the flat
      view of the disk. */
  lemma {:induction false} EveryTickYieldsTheView(states: seq<State>, ws: Uuid, ops: seq<Op>, i: nat)
    requires History(states, ws, ops) && i < |states|
    requires Known(states[0], ws) && KeysAccepted(states[0].files[ws]) && UniqueInos(states[0].disks)
    ensures Known(states[i], ws) && KeysAccepted(states[i].files[ws]) && UniqueInos(states[i].disks)
    ensures i > 0 && ops[i - 1].Tick? ==> IsView(states[i].files[ws], states[i].disks[ws])
  {
    hide Round, UniqueInos, KeysAccepted, IsView;
    if i > 0 {
      EveryTickYieldsTheView(states, ws, ops, i - 1);
      assert Follows(states[i - 1], ws, ops[i - 1], states[i]);
      var sts, all, es :| Round(states[i - 1], ws, ops[i - 1], sts, all, es, states[i]);
      RoundKeepsKeys(states[i - 1], ws, ops[i - 1], sts, all, es, states[i]);
    }
  }

  /** From any point where the mirror holds it goes on holding up to the first rename
      that replaces a directory, and that rename breaks it. */
  lemma {:induction false} MirroredUntilReplaced(states: seq<State>, ws: Uuid, ops: seq<Op>, i: nat, j: nat)
    requires History(states, ws, ops) && i <= j < |states| && Mirrored(states[i], ws) && UniqueInos(states[i].disks)
    requires forall k | i <= k < j - 1 :: !Replaces(states[k], ws, ops[k])
    ensures UniqueInos(states[j].disks)
    ensures Mirrored(states[j], ws) <==> i == j || !Replaces(states[j - 1], ws, ops[j - 1])
  {
    hide Round, UniqueInos, Mirrored;
    if i < j {
      MirroredUntilReplaced(states, ws, ops, i, j - 1);
      assert Follows(states[j - 1], ws, ops[j - 1], states[j]);
      var sts, all, es :| Round(states[j - 1], ws, ops[j - 1], sts, all, es, states[j]);
      RoundMirrorsIff(states[j - 1], ws, ops[j - 1], sts, all, es, states[j]);
      MirrorIsKnown(states[j - 1], ws);
      RoundKeepsKeys(states[j - 1], ws, ops[j - 1], sts, all, es, states[j]);
    }
  }

  lemma MirrorIsKnown(st: State, ws: Uuid)
    requires Mirrored(st, ws)
    ensures Known(st, ws) && KeysAccepted(st.files[ws])
  {
    MirrorIsClean(st, ws);
  }

  /** In every history of a registered workspace, replacing renames included, the
      watch table stays sound and each tick restores the mirror. */
  lemma {:induction false} EveryTickRestores(states: seq<State>, ws: Uuid, ops: seq<Op>, i: nat)
    requires History(states, ws, ops) && i < |states| && Known(states[0], ws) && KeysAccepted(states[0].files[ws])
    requires UniqueInos(states[0].disks) && Sound(states[0], ws, states[0].disks[ws])
    ensures UniqueInos(states[i].disks) && Known(states[i], ws) && KeysAccepted(states[i].files[ws])
    ensures Sound(states[i], ws, states[i].disks[ws])
    ensures i > 0 && ops[i - 1].Tick? ==> Mirrored(states[i], ws)
  {
    hide Round, UniqueInos, Mirrored, Sound, KeysAccepted;
    EveryTickYieldsTheView(states, ws, ops, i);
    if i > 0 {
      EveryTickRestores(states, ws, ops, i - 1);
      assert Follows(states[i - 1], ws, ops[i - 1], states[i]);
      var sts, all, es :| Round(states[i - 1], ws, ops[i - 1], sts, all, es, states[i]);
      RoundKeepsSound(states[i - 1], ws, ops[i - 1], sts, all, es, states[i]);
    }
  }

  /** So from each tick on the mirror holds up to the next rename that replaces a
      directory, and that rename breaks it. */
  lemma MirroredSinceTick(states: seq<State>, ws: Uuid, ops: seq<Op>, i: nat, j: nat)
    requires History(states, ws, ops) && 0 < i <= j < |states| && Known(states[0], ws) && KeysAccepted(states[0].files[ws])
    requires UniqueInos(states[0].disks) && Sound(states[0], ws, states[0].disks[ws])
    requires ops[i - 1].Tick? && forall k | i <= k < j - 1 :: !Replaces(states[k], ws, ops[k])
    ensures Mirrored(states[j], ws) <==> i == j || !Replaces(states[j - 1], ws, ops[j - 1])
  {
    EveryTickRestores(states, ws, ops, i);
    MirroredUntilReplaced(states, ws, ops, i, j);
  }
}
