/** Handling the events of one filesystem operation brings a mirrored workspace
    back to mirrored, and exactly when it does not. */
module Mirroring {
  import opened Wrappers
  import opened Paths
  import opened Disk
  import opened ShadowStore
  import opened WriteBack
  import opened LateEvents

  // ----- File maps follow the disk view -----------------------------------

  /** `b` is `a` without the subtree at `p`. */
  ghost predicate Cut(a: Node, b: Node, p: seq<string>) {
    forall q :: See(b, q) == if p <= q then Nothing else See(a, q)
  }

  /** `b` is `a` with `n` at `p`. */
  ghost predicate Grafted(a: Node, b: Node, p: seq<string>, n: Node) {
    forall q :: See(b, q) == GraftSeen(a, p, n, q)
  }

  function GraftSeen(a: Node, p: seq<string>, n: Node, q: seq<string>): Seen {
    if p <= q then See(n, q[|p|..]) else See(a, q)
  }

  lemma DeletePrefixFollows(files: map<string, Oid>, a: Node, b: Node, p: seq<string>)
    requires IsView(files, a) && p != [] && ValidNames(p) && !See(a, p).SawFile? && Cut(a, b, p)
    ensures IsView(DeletePrefix(files, Join(p)), b)
  {
    JoinSnoc(p, "x");
    forall s ensures Get(DeletePrefix(files, Join(p)), s) == FileAt(b, s) {
      assert Get(files, s) == FileAt(a, s);
      PrefixTest(p, s);
      PrefixCases(p, Split(s));
      assert See(b, Split(s)) == if p <= Split(s) then Nothing else See(a, Split(s));
    }
  }

  lemma PrefixTest(p: seq<string>, s: string)
    requires p != [] && ValidNames(p)
    ensures Join(p) + "/" <= s <==> p < Split(s)
  {
    forall i | 0 <= i < |p| ensures '/' !in p[i] { assert ValidName(p[i]); }
    StartsWithSlash(p, s);
  }

  lemma AbsorbFollows(files: map<string, Oid>, files': map<string, Oid>, a: Node, b: Node, p: seq<string>)
    requires IsView(files, a) && Absorbed(files, files', b, p)
    requires forall q | !(p <= q) :: See(b, q) == See(a, q)
    requires forall q | p <= q :: !See(a, q).SawFile?
    requires !See(b, p).SawFile?
    ensures IsView(files', b)
  {
    forall s ensures Get(files', s) == FileAt(b, s) {
      PrefixCases(p, Split(s));
      assert Get(files, s) == FileAt(a, s);
      assert !(p <= Split(s)) ==> See(b, Split(s)) == See(a, Split(s));
      assert p <= Split(s) ==> !See(a, Split(s)).SawFile?;
      assert Get(files', s) == if p < Split(s) && FileAt(b, s).Some? then FileAt(b, s) else Get(files, s);
    }
  }

  /** One file put at `p`: re-reading it is all the map needs. */
  lemma FileFollows(files: map<string, Oid>, a: Node, b: Node, p: seq<string>, c: Bytes, s: string)
    requires p != [] && ValidNames(p) && Grafted(a, b, p, File(c))
    requires See(a, p).Nothing? || See(a, p).SawFile?
    ensures s != Join(p) ==> FileAt(b, s) == FileAt(a, s)
    ensures s == Join(p) ==> FileAt(b, s) == if Accepted(s) then Some(BlobId(c)) else None
  {
    SplitPlace(p);
    JoinSplit(s);
    var q := Split(s);
    PrefixCases(p, q);
    assert See(b, q) == GraftSeen(a, p, File(c), q);
    if p < q && See(a, q) != Nothing { AncestorsAreDirs(a, p, q); }
  }

  lemma FileGone(a: Node, b: Node, p: seq<string>, s: string)
    requires p != [] && ValidNames(p) && Cut(a, b, p) && See(a, p).SawFile?
    ensures FileAt(b, s) == if s == Join(p) then None else FileAt(a, s)
  {
    SplitPlace(p);
    JoinSplit(s);
    var q := Split(s);
    PrefixCases(p, q);
    assert See(b, q) == if p <= q then Nothing else See(a, q);
    if p < q && See(a, q) != Nothing { AncestorsAreDirs(a, p, q); }
  }

  // ----- Watches follow the directories -----------------------------------

  lemma UnderIsPrefix(p: seq<string>, q: seq<string>)
    requires p != [] && ValidNames(p) && ValidNames(q)
    ensures Under(Join(q), Join(p)) <==> p <= q
  {
    EmptyIsRoot(p);
    EmptyIsRoot(q);
    PrefixCases(p, q);
    if q != [] {
      PrefixTest(p, Join(q));
      SplitPlace(q);
      SplitPlace(p);
    }
  }

  lemma EmptyIsRoot(q: seq<string>)
    requires ValidNames(q)
    ensures Join(q) == "" <==> q == []
  {
    JoinSnoc(q, "x");
  }

  /** A watched directory whose entry is not swept stays watched. */
  lemma StaysWatched(st: State, ws: Uuid, own: Uuid, relDir: string, q: seq<string>, i: nat)
    requires ws in st.files && WatchedAt(st, own, q, i)
    requires own != ws || !Under(Join(q), relDir)
    ensures WatchedAt(DropSubtree(st, ws, relDir), own, q, i)
    ensures WdOf(DropSubtree(st, ws, relDir), i) == WdOf(st, i)
  {
    var wd := WdOf(st, i);
    assert wd !in Stale(st, ws, relDir);
    forall w | w in Stale(st, ws, relDir) && IsLive(st, w) ensures w.ino != i {}
  }

  /** Dropping a subtree leaves every directory outside it watched. */
  lemma DropKeepsOthers(st: State, ws: Uuid, a: Node, b: Node, p: seq<string>)
    requires ws in st.files && p != [] && ValidNames(p)
    requires Tracks(st, ws, a) && Cut(a, b, p)
    ensures Tracks(DropSubtree(st, ws, Join(p)), ws, b)
  {
    var st' := DropSubtree(st, ws, Join(p));
    forall q | See(b, q).SawDir? ensures WatchedAt(st', ws, q, See(b, q).ino) {
      assert See(b, q) == if p <= q then Nothing else See(a, q);
      SeenNames(a, q);
      UnderIsPrefix(p, q);
      assert WatchedAt(st, ws, q, See(a, q).ino);
      StaysWatched(st, ws, ws, Join(p), q, See(b, q).ino);
    }
  }

  /** A swept descriptor is gone, and the kernel will not hand it out again. */
  lemma DropForgets(st: State, ws: Uuid, p: seq<string>, q: seq<string>, i: nat)
    requires ws in st.files && p != [] && ValidNames(p) && ValidNames(q) && p <= q
    requires WatchedAt(st, ws, q, i)
    ensures var st' := DropSubtree(st, ws, Join(p));
            WdOf(st, i) !in st'.watches && WdOf(st', i) != WdOf(st, i)
  {
    UnderIsPrefix(p, q);
    assert WdOf(st, i) in Stale(st, ws, Join(p)) && IsLive(st, WdOf(st, i));
  }

  /** After arming, exactly the scanned directories and the old ones are watched. */
  lemma ArmedSpec(st: State, st': State, ws: Uuid, at: seq<string>, skip: set<string>, own: Uuid, q: seq<string>)
    requires Armed(st, st', ws, at, skip) && UniqueInos(st.disks)
    requires own in st.disks && See(st.disks[own], q).SawDir?
    ensures WatchedAt(st', own, q, See(st.disks[own], q).ino) <==>
              (own == ws && Scanned(st, ws, at, skip, q)) || WatchedAt(st, own, q, See(st.disks[own], q).ino)
  {
    var i := See(st.disks[own], q).ino;
    var wd := WdOf(st, i);
    if Touched(st, ws, at, skip, wd) {
      var p :| Scanned(st, ws, at, skip, p) && wd == WdOf(st, See(TreeOf(st, ws), p).ino);
      assert own == ws && p == q;
    } else {
      assert own == ws ==> !Scanned(st, ws, at, skip, q);
      assert wd in st'.watches ==> wd in st.watches && st'.watches[wd] == st.watches[wd];
    }
  }

  // ----- One event --------------------------------------------------------

  /** The event an operation on entry `p` raises on `p`'s parent directory. */
  function ParentEvent(st: State, d: Node, p: seq<string>, kind: Kind, isDir: bool): Event
    requires p != [] && See(d, DirName(p)).SawDir?
  {
    Event(WdOf(st, See(d, DirName(p)).ino), kind, isDir, BaseName(p))
  }

  /** A parent event is handled as what it says about `p`. */
  lemma ParentEventPath(st: State, ws: Uuid, a: Node, p: seq<string>, e: Event)
    requires Tracks(st, ws, a)
    requires p != [] && ValidNames(p) && See(a, DirName(p)).SawDir?
    requires e == ParentEvent(st, a, p, e.kind, e.isDir)
    ensures e.wd in st.watches && st.watches[e.wd] == WatchEntry(ws, Join(DirName(p)))
    ensures Child(Join(DirName(p)), e.name) == Join(p)
  {
    assert p == DirName(p) + [BaseName(p)];
    assert WatchedAt(st, ws, DirName(p), See(a, DirName(p)).ino);
    JoinSnoc(DirName(p), BaseName(p));
  }

  /** The map and the watches still describe tree `a`; the disk has moved on. */
  ghost predicate Lagging(st: State, ws: Uuid, a: Node) {
    Known(st, ws) && a.Dir? && IsView(st.files[ws], a) && Tracks(st, ws, a)
  }

  /** Directories of `b` are directories of `a`, so tracking carries over. */
  lemma TracksFewer(st: State, ws: Uuid, a: Node, b: Node)
    requires Tracks(st, ws, a)
    requires forall q | See(b, q).SawDir? :: See(a, q) == See(b, q)
    ensures Tracks(st, ws, b)
  {
    forall q | See(b, q).SawDir? ensures WatchedAt(st, ws, q, See(b, q).ino) {
      assert See(a, q).SawDir?;
    }
  }

  lemma PutGrafts(a: Node, p: seq<string>, x: Node)
    requires p != [] && ValidNames(p) && See(a, DirName(p)).SawDir?
    ensures Grafted(a, Put(a, p, x), p, x) && Put(a, p, x).Dir?
  {
    forall q ensures See(Put(a, p, x), q) == GraftSeen(a, p, x, q) { SeeAfterPut(a, p, x, q); }
  }

  lemma RemoveCuts(a: Node, p: seq<string>)
    requires p != [] && ValidNames(p) && See(a, DirName(p)).SawDir?
    ensures Cut(a, Remove(a, p), p) && Remove(a, p).Dir?
  {
    forall q ensures See(Remove(a, p), q) == if p <= q then Nothing else See(a, q) { SeeAfterRemove(a, p, q); }
  }

  lemma FileDirsStay(a: Node, b: Node, p: seq<string>, c: Bytes, q: seq<string>)
    requires Grafted(a, b, p, File(c)) && See(b, q).SawDir?
    ensures See(a, q) == See(b, q)
  {
    assert See(b, q) == GraftSeen(a, p, File(c), q);
  }

  // ----- Regular files ------------------------------------------------------

  /** The three events that say "there is a file at this name now". */
  predicate FileAppears(k: Kind) {
    k == Create || k == CloseWrite || k == MovedTo
  }

  lemma FileWriteStep(st: State, st': State, e: Event, ws: Uuid, a: Node, p: seq<string>, c: Bytes)
    requires Known(st, ws) && Tracks(st, ws, a) && Handled(st, e, st')
    requires IsView(st.files[ws], a) || IsView(st.files[ws], st.disks[ws])
    requires p != [] && ValidNames(p) && See(a, DirName(p)).SawDir?
    requires See(a, p).Nothing? || See(a, p).SawFile?
    requires Grafted(a, st.disks[ws], p, File(c))
    requires FileAppears(e.kind) && e == ParentEvent(st, a, p, e.kind, false)
    ensures st' == st.(files := st'.files) && Known(st', ws) && IsView(st'.files[ws], st.disks[ws])
  {
    var d := st.disks[ws];
    ParentEventPath(st, ws, a, p, e);
    assert st' == SyncFile(st, ws, Join(p));
    forall s ensures Get(st'.files[ws], s) == FileAt(d, s) {
      FileFollows(st.files[ws], a, d, p, c, s);
      FileFollows(st.files[ws], a, d, p, c, Join(p));
      if IsView(st.files[ws], a) { assert Get(st.files[ws], s) == FileAt(a, s); }
      if IsView(st.files[ws], d) { assert Get(st.files[ws], s) == FileAt(d, s); }
      if s == Join(p) && !Accepted(s) { assert FileAt(a, s) == None; }
    }
  }

  /** Creating, overwriting or moving in a regular file: any non-empty run of
      CREATE, CLOSE_WRITE and MOVED_TO for it restores the mirror. */
  lemma {:induction false} FileWriteMirrors(sts: seq<State>, es: seq<Event>, ws: Uuid, a: Node, p: seq<string>, c: Bytes)
    requires Run(sts, es) && es != [] && Lagging(sts[0], ws, a)
    requires p != [] && ValidNames(p) && See(a, DirName(p)).SawDir?
    requires See(a, p).Nothing? || See(a, p).SawFile?
    requires sts[0].disks[ws] == Put(a, p, File(c))
    requires forall e | e in es :: FileAppears(e.kind) && e == ParentEvent(sts[0], a, p, e.kind, false)
    ensures Mirrored(sts[|es|], ws)
  {
    PutGrafts(a, p, File(c));
    var d := sts[0].disks[ws];
    var i := 0;
    while i < |es|
      invariant 0 <= i <= |es|
      invariant sts[i] == sts[0].(files := sts[i].files) && Known(sts[i], ws) && Tracks(sts[i], ws, a)
      invariant i == 0 ==> IsView(sts[i].files[ws], a)
      invariant i > 0 ==> IsView(sts[i].files[ws], d)
    {
      assert es[i] in es && Handled(sts[i], es[i], sts[i + 1]);
      FileWriteStep(sts[i], sts[i + 1], es[i], ws, a, p, c);
      KeepsTracks(sts[i], sts[i + 1], ws, a);
      i := i + 1;
    }
    forall q | See(d, q).SawDir? ensures See(a, q) == See(d, q) { FileDirsStay(a, d, p, c, q); }
    TracksFewer(sts[|es|], ws, a, d);
  }

  lemma KeepsTracks(st: State, st': State, ws: Uuid, a: Node)
    requires Tracks(st, ws, a) && st'.watches == st.watches && st'.live == st.live && st'.gens == st.gens
    ensures Tracks(st', ws, a)
  {
    forall q | See(a, q).SawDir? ensures WatchedAt(st', ws, q, See(a, q).ino) {
      assert WatchedAt(st, ws, q, See(a, q).ino);
    }
  }

  lemma FileRemoveStep(st: State, st': State, e: Event, ws: Uuid, a: Node, b: Node, p: seq<string>)
    requires Lagging(st, ws, a) && Handled(st, e, st')
    requires p != [] && ValidNames(p) && See(a, DirName(p)).SawDir? && See(a, p).SawFile? && Cut(a, b, p) && b.Dir?
    requires (e.kind == Delete || e.kind == MovedFrom) && e == ParentEvent(st, a, p, e.kind, false)
    ensures st' == st.(files := st'.files) && Lagging(st', ws, b)
  {
    ParentEventPath(st, ws, a, p, e);
    forall s ensures Get(st'.files[ws], s) == FileAt(b, s) {
      FileGone(a, b, p, s);
      assert Get(st.files[ws], s) == FileAt(a, s);
    }
    forall q | See(b, q).SawDir? ensures See(a, q) == See(b, q) {
      assert See(b, q) == if p <= q then Nothing else See(a, q);
    }
    TracksFewer(st, ws, a, b);
    KeepsTracks(st, st', ws, b);
  }

  /** Deleting a regular file, or moving it away. */
  lemma FileRemoveMirrors(st: State, st': State, e: Event, ws: Uuid, a: Node, p: seq<string>)
    requires Lagging(st, ws, a) && Handled(st, e, st')
    requires p != [] && ValidNames(p) && See(a, DirName(p)).SawDir? && See(a, p).SawFile?
    requires st.disks[ws] == Remove(a, p)
    requires (e.kind == Delete || e.kind == MovedFrom) && e == ParentEvent(st, a, p, e.kind, false)
    ensures Mirrored(st', ws)
  {
    RemoveCuts(a, p);
    FileRemoveStep(st, st', e, ws, a, Remove(a, p), p);
  }

  /** Renaming a regular file, over another one or not. */
  lemma FileRenameMirrors(sts: seq<State>, es: seq<Event>, ws: Uuid, a: Node, p: seq<string>, q: seq<string>)
    requires Run(sts, es) && Lagging(sts[0], ws, a)
    requires p != [] && q != [] && ValidNames(p) && ValidNames(q) && p != q
    requires See(a, DirName(p)).SawDir? && See(a, DirName(q)).SawDir?
    requires See(a, p).SawFile? && (See(a, q).Nothing? || See(a, q).SawFile?)
    requires See(Remove(a, p), DirName(q)).SawDir? && sts[0].disks[ws] == Put(Remove(a, p), q, File(See(a, p).content))
    requires es == [ParentEvent(sts[0], a, p, MovedFrom, false), ParentEvent(sts[0], a, q, MovedTo, false)]
    ensures Mirrored(sts[2], ws)
  {
    var b, c := Remove(a, p), See(a, p).content;
    RemoveCuts(a, p);
    PutGrafts(b, q, File(c));
    assert Handled(sts[0], es[0], sts[1]) && Handled(sts[1], es[1], sts[2]);
    FileRemoveStep(sts[0], sts[1], es[0], ws, a, b, p);
    assert See(b, DirName(q)) == See(a, DirName(q)) && (See(b, q).Nothing? || See(b, q).SawFile?);
    FileWriteStep(sts[1], sts[2], es[1], ws, b, q, c);
    var d := sts[0].disks[ws];
    forall r | See(d, r).SawDir? ensures See(b, r) == See(d, r) { FileDirsStay(b, d, q, c, r); }
    KeepsTracks(sts[1], sts[2], ws, b);
    TracksFewer(sts[2], ws, b, d);
  }

  // ----- Directories --------------------------------------------------------

  lemma DropStep(st: State, st': State, e: Event, ws: Uuid, a: Node, b: Node, p: seq<string>)
    requires Lagging(st, ws, a) && Handled(st, e, st') && b.Dir?
    requires p != [] && ValidNames(p) && See(a, DirName(p)).SawDir? && See(a, p).SawDir? && Cut(a, b, p)
    requires (e.kind == Delete || e.kind == MovedFrom) && e == ParentEvent(st, a, p, e.kind, true)
    ensures st' == DropSubtree(st, ws, Join(p)) && Lagging(st', ws, b)
    ensures WdOf(st, See(a, p).ino) !in st'.watches && WdOf(st', See(a, p).ino) != WdOf(st, See(a, p).ino)
  {
    ParentEventPath(st, ws, a, p, e);
    DeletePrefixFollows(st.files[ws], a, b, p);
    DropKeepsOthers(st, ws, a, b, p);
    assert WatchedAt(st, ws, p, See(a, p).ino);
    DropForgets(st, ws, p, p, See(a, p).ino);
  }

  /** MOVED_FROM of a directory, and its own MOVE_SELF unless its watch was gone by then. */
  function MoveOutEvents(st: State, a: Node, p: seq<string>, self: bool): seq<Event>
    requires p != [] && See(a, DirName(p)).SawDir? && See(a, p).SawDir?
  {
    [ParentEvent(st, a, p, MovedFrom, true)] + if self then [Event(WdOf(st, See(a, p).ino), MoveSelf, true, "")] else []
  }

  lemma MovedOutRun(sts: seq<State>, ws: Uuid, a: Node, p: seq<string>, self: bool)
    requires sts != [] && Lagging(sts[0], ws, a)
    requires p != [] && ValidNames(p) && See(a, DirName(p)).SawDir? && See(a, p).SawDir?
    requires Run(sts, MoveOutEvents(sts[0], a, p, self)) && sts[0].disks[ws] == Remove(a, p)
    ensures Mirrored(sts[|sts| - 1], ws)
  {
    var es := MoveOutEvents(sts[0], a, p, self);
    RemoveCuts(a, p);
    assert Handled(sts[0], es[0], sts[1]);
    DropStep(sts[0], sts[1], es[0], ws, a, Remove(a, p), p);
    if self {
      assert Handled(sts[1], es[1], sts[2]);
      assert sts[2] == sts[1];
    }
  }

  /** Moving a directory out of the workspace, whatever late events come with it:
      the IGNORED of each watch removed, in particular. */
  lemma SubtreeMovedOutMirrors(sts: seq<State>, all: seq<Event>, ws: Uuid, a: Node, p: seq<string>, self: bool)
    requires Run(sts, all) && Lagging(sts[0], ws, a)
    requires p != [] && ValidNames(p) && See(a, DirName(p)).SawDir? && See(a, p).SawDir?
    requires Played(sts[0], sts, all, MoveOutEvents(sts[0], a, p, self)) && sts[0].disks[ws] == Remove(a, p)
    ensures Mirrored(sts[|all|], ws)
  {
    var es := MoveOutEvents(sts[0], a, p, self);
    var hs := Unplay(sts[0], sts, all, es);
    assert WatchedAt(sts[0], ws, DirName(p), See(a, DirName(p)).ino) && WatchedAt(sts[0], ws, p, See(a, p).ino);
    AllHeard(sts[0], hs, es);
    MovedOutRun(hs, ws, a, p, self);
  }

  lemma GraftStep(st: State, st': State, e: Event, ws: Uuid, b: Node, q: seq<string>, n: Node)
    requires Lagging(st, ws, b) && Handled(st, e, st') && UniqueInos(st.disks)
    requires q != [] && ValidNames(q) && See(b, DirName(q)).SawDir?
    requires Grafted(b, st.disks[ws], q, n) && n.Dir?
    requires forall r | q <= r :: !See(b, r).SawFile?
    requires (e.kind == Create || e.kind == MovedTo) && e == ParentEvent(st, b, q, e.kind, true)
    ensures Mirrored(st', ws) && Armed(st, st', ws, q, {}) && st'.disks == st.disks
  {
    var d := st.disks[ws];
    ParentEventPath(st, ws, b, q, e);
    EmptyIsRoot(q);
    SplitPlace(q);
    assert DirPath(Join(q)) == q;
    assert SubtreeSynced(st, st', ws, Join(q));
    forall r | !(q <= r) ensures See(d, r) == See(b, r) {
      assert See(d, r) == GraftSeen(b, q, n, r);
    }
    assert See(d, q) == GraftSeen(b, q, n, q) && q <= q && q[|q|..] == [];
    AbsorbFollows(st.files[ws], st'.files[ws], b, d, q);
    forall r | See(d, r).SawDir? ensures WatchedAt(st', ws, r, See(d, r).ino) {
      ArmedSpec(st, st', ws, q, {}, ws, r);
      if !(q <= r) {
        assert See(b, r) == See(d, r);
        assert WatchedAt(st, ws, r, See(b, r).ino);
      }
    }
  }

  /** A directory appears with everything in it: a fresh one filled before its
      watch existed, or one moved in from outside. */
  lemma SubtreePlacedMirrors(st: State, st': State, e: Event, ws: Uuid, a: Node, p: seq<string>, n: Node)
    requires Lagging(st, ws, a) && Handled(st, e, st') && UniqueInos(st.disks)
    requires p != [] && ValidNames(p) && See(a, DirName(p)).SawDir? && See(a, p).Nothing? && n.Dir?
    requires st.disks[ws] == Put(a, p, n)
    requires (e.kind == Create || e.kind == MovedTo) && e == ParentEvent(st, a, p, e.kind, true)
    ensures Mirrored(st', ws)
  {
    PutGrafts(a, p, n);
    NothingBelow(a, p);
    GraftStep(st, st', e, ws, a, p, n);
  }

  lemma NothingBelow(a: Node, p: seq<string>)
    requires See(a, p).Nothing?
    ensures forall r | p <= r :: See(a, r).Nothing?
  {
    forall r | p <= r ensures See(a, r).Nothing? {
      PrefixCases(p, r);
      if p < r && See(a, r) != Nothing { AncestorsAreDirs(a, p, r); }
    }
  }

  /** The three events the removal of directory `p` can raise; `wd` was its descriptor. */
  predicate RmdirEvent(e: Event, parent: Event, wd: Wd) {
    e == parent || e == Event(wd, DeleteSelf, true, "") || e == Event(wd, Ignored, true, "")
  }

  lemma RmdirStep(st: State, st': State, e: Event, ws: Uuid, p: seq<string>, wd: Wd)
    requires Mirrored(st, ws) && Handled(st, e, st')
    requires p != [] && ValidNames(p) && See(st.disks[ws], DirName(p)).SawDir? && See(st.disks[ws], p).Nothing?
    requires wd in st.watches ==> st.watches[wd] == WatchEntry(ws, Join(p))
    requires !IsLive(st, wd) && RmdirEvent(e, ParentEvent(st, st.disks[ws], p, Delete, true), wd)
    ensures Mirrored(st', ws) && st'.disks == st.disks
    ensures wd in st'.watches ==> wd in st.watches && st'.watches[wd] == st.watches[wd]
    ensures ParentEvent(st', st.disks[ws], p, Delete, true) == ParentEvent(st, st.disks[ws], p, Delete, true)
    ensures !IsLive(st', wd)
  {
    var d := st.disks[ws];
    assert WatchedAt(st, ws, DirName(p), See(d, DirName(p)).ino);
    if e.kind == Ignored {
      IgnoredStep(st, st', ws, wd);
    } else if e.kind == Delete || wd in st.watches {
      if e.kind == Delete { ParentEventPath(st, ws, d, p, e); }
      DeadDropStep(st, ws, p);
      UnderIsPrefix(p, DirName(p));
      StaysWatched(st, ws, ws, Join(p), DirName(p), See(d, DirName(p)).ino);
      DropKeepsDead(st, ws, Join(p), wd);
    }
  }

  lemma IgnoredStep(st: State, st': State, ws: Uuid, wd: Wd)
    requires Mirrored(st, ws) && !IsLive(st, wd) && st' == st.(watches := st.watches - {wd})
    ensures Mirrored(st', ws)
  {
    var d := st.disks[ws];
    forall q | See(d, q).SawDir? ensures WatchedAt(st', ws, q, See(d, q).ino) {
      assert WatchedAt(st, ws, q, See(d, q).ino);
    }
  }

  lemma DeadDropStep(st: State, ws: Uuid, p: seq<string>)
    requires Mirrored(st, ws) && p != [] && ValidNames(p) && See(st.disks[ws], p).Nothing?
    ensures Mirrored(DropSubtree(st, ws, Join(p)), ws)
  {
    var d := st.disks[ws];
    NothingBelow(d, p);
    DeletePrefixFollows(st.files[ws], d, d, p);
    DropKeepsOthers(st, ws, d, d, p);
  }

  lemma DropKeepsDead(st: State, ws: Uuid, relDir: string, wd: Wd)
    requires ws in st.files && !IsLive(st, wd)
    ensures !IsLive(DropSubtree(st, ws, relDir), wd)
  {
  }

  /** The kernel side of a directory's removal: its inode is no longer watched. */
  function Unwatch(st: State, i: nat): State {
    Disarm(st, {WdOf(st, i)})
  }

  /** Removing an empty directory: DELETE on the parent, DELETE_SELF and IGNORED
      for the directory, in any order and number, leave a mirror. */
  lemma {:induction false} RmdirMirrors(st: State, sts: seq<State>, es: seq<Event>, ws: Uuid, p: seq<string>)
    requires Mirrored(st, ws) && Run(sts, es)
    requires p != [] && ValidNames(p) && See(st.disks[ws], DirName(p)).SawDir? && See(st.disks[ws], p).SawDir?
    requires forall q | p < q :: See(st.disks[ws], q).Nothing?
    requires sts[0] == Unwatch(st, See(st.disks[ws], p).ino).(disks := st.disks[ws := Remove(st.disks[ws], p)])
    requires UniqueInos(st.disks)
    requires forall e | e in es ::
      RmdirEvent(e, ParentEvent(st, st.disks[ws], p, Delete, true), WdOf(st, See(st.disks[ws], p).ino))
    ensures Mirrored(sts[|es|], ws)
  {
    var a, i := st.disks[ws], See(st.disks[ws], p).ino;
    var wd, d, parent := WdOf(st, i), Remove(a, p), ParentEvent(st, a, p, Delete, true);
    RemoveCuts(a, p);
    CutOfEmpty(st, ws, a, d, p);
    assert WatchedAt(st, ws, p, i);
    assert WatchedAt(st, ws, DirName(p), See(a, DirName(p)).ino);
    assert See(d, DirName(p)) == See(a, DirName(p)) && DirName(p) != p;
    var k := 0;
    while k < |es|
      invariant 0 <= k <= |es|
      invariant Mirrored(sts[k], ws) && sts[k].disks[ws] == d && !IsLive(sts[k], wd)
      invariant wd in sts[k].watches ==> sts[k].watches[wd] == WatchEntry(ws, Join(p))
      invariant ParentEvent(sts[k], d, p, Delete, true) == parent
    {
      assert es[k] in es && Handled(sts[k], es[k], sts[k + 1]);
      RmdirStep(sts[k], sts[k + 1], es[k], ws, p, wd);
      k := k + 1;
    }
  }

  /** Cutting a directory with nothing in it changes no file and, once its inode
      is unwatched, leaves every remaining directory watched. */
  lemma CutOfEmpty(st: State, ws: Uuid, a: Node, b: Node, p: seq<string>)
    requires Known(st, ws) && st.disks[ws] == a && IsView(st.files[ws], a) && Tracks(st, ws, a) && UniqueInos(st.disks)
    requires See(a, p).SawDir? && (forall q | p < q :: See(a, q).Nothing?) && Cut(a, b, p)
    ensures IsView(st.files[ws], b) && Tracks(Unwatch(st, See(a, p).ino), ws, b)
  {
    forall s ensures Get(st.files[ws], s) == FileAt(b, s) {
      assert Get(st.files[ws], s) == FileAt(a, s);
      PrefixCases(p, Split(s));
      assert See(b, Split(s)) == if p <= Split(s) then Nothing else See(a, Split(s));
    }
    forall q | See(b, q).SawDir? ensures WatchedAt(Unwatch(st, See(a, p).ino), ws, q, See(b, q).ino) {
      assert See(b, q) == if p <= q then Nothing else See(a, q);
      assert WatchedAt(st, ws, q, See(a, q).ino);
      assert See(a, q).ino != See(a, p).ino by { assert p <= p; }
    }
  }

  // ----- Renaming a directory -----------------------------------------------

  /** What `rename(2)` of directory `p` to `q` leaves on disk and in the kernel:
      an empty directory at `q` is replaced, and its watch goes with it. */
  function Renamed(st: State, ws: Uuid, p: seq<string>, q: seq<string>): State
    requires CanRename(st, ws, p, q)
  {
    var a := st.disks[ws];
    (if See(a, q).SawDir? then Unwatch(st, See(a, q).ino) else st)
    .(disks := st.disks[ws := RenamedTree(a, p, q)])
  }

  predicate CanRename(st: State, ws: Uuid, p: seq<string>, q: seq<string>) {
    && ws in st.disks
    && p != [] && q != [] && ValidNames(p) && ValidNames(q) && !(p <= q) && !(q <= p)
    && See(st.disks[ws], DirName(p)).SawDir? && See(st.disks[ws], DirName(q)).SawDir?
    && See(st.disks[ws], p).SawDir?
    && (See(st.disks[ws], q).Nothing? || See(st.disks[ws], q).SawDir?)
  }

  function RenamedTree(a: Node, p: seq<string>, q: seq<string>): Node
    requires p != [] && q != [] && ValidNames(p) && ValidNames(q) && !(p <= q) && !(q <= p)
    requires See(a, DirName(p)).SawDir? && See(a, DirName(q)).SawDir? && See(a, p).SawDir?
  {
    SeeAfterRemove(a, p, DirName(q));
    assert !(p <= DirName(q));
    Put(Remove(a, p), q, Lookup(a, p).value)
  }

  /** Kernel order: MOVED_FROM, MOVED_TO, the moved inode's MOVE_SELF unless its
      watch was gone by then, and the replaced inode's DELETE_SELF and IGNORED. */
  function RenameEvents(st: State, ws: Uuid, p: seq<string>, q: seq<string>, self: bool): seq<Event>
    requires CanRename(st, ws, p, q)
  {
    var a := st.disks[ws];
    [ParentEvent(st, a, p, MovedFrom, true), ParentEvent(st, a, q, MovedTo, true)]
    + (if self then [Event(WdOf(st, See(a, p).ino), MoveSelf, true, "")] else [])
    + (if See(a, q).SawDir?
       then [Event(WdOf(st, See(a, q).ino), DeleteSelf, true, ""), Event(WdOf(st, See(a, q).ino), Ignored, true, "")]
       else [])
  }

  /** With the target, if any, out of the way, map and watches still describe the rest of the old tree. */
  lemma TargetAside(st: State, ws: Uuid, p: seq<string>, q: seq<string>) returns (a0: Node)
    requires Mirrored(st, ws) && CanRename(st, ws, p, q) && UniqueInos(st.disks)
    requires forall r | q < r :: See(st.disks[ws], r).Nothing?
    ensures Cut(st.disks[ws], a0, q) && Lagging(Renamed(st, ws, p, q), ws, a0)
    ensures forall r | See(a0, r).SawDir? :: WdOf(Renamed(st, ws, p, q), See(a0, r).ino) == WdOf(st, See(a0, r).ino)
  {
    var a, st0 := st.disks[ws], Renamed(st, ws, p, q);
    RemoveCuts(a, p);
    PutGrafts(Remove(a, p), q, Lookup(a, p).value);
    if See(a, q).SawDir? {
      a0 := Remove(a, q);
      RemoveCuts(a, q);
      CutOfEmpty(st, ws, a, a0, q);
      KeepsTracks(Unwatch(st, See(a, q).ino), st0, ws, a0);
      forall r | See(a0, r).SawDir? ensures WdOf(st0, See(a0, r).ino) == WdOf(st, See(a0, r).ino) {
        assert See(a0, r) == if q <= r then Nothing else See(a, r);
        assert See(a, r).ino != See(a, q).ino by { assert q <= q; }
      }
    } else {
      a0 := a;
      NothingBelow(a, q);
      KeepsTracks(st, st0, ws, a0);
    }
  }

  lemma RenameTreeSeen(a: Node, a0: Node, b: Node, p: seq<string>, q: seq<string>)
    requires p != [] && q != [] && ValidNames(p) && ValidNames(q) && !(p <= q) && !(q <= p)
    requires See(a, DirName(p)).SawDir? && See(a, DirName(q)).SawDir? && See(a, p).SawDir?
    requires Cut(a, a0, q) && Cut(a0, b, p)
    ensures Grafted(b, RenamedTree(a, p, q), q, Lookup(a, p).value)
    ensures forall r | q <= r :: See(b, r).Nothing?
    ensures See(a0, DirName(p)) == See(a, DirName(p)) && See(a0, p) == See(a, p)
    ensures See(b, DirName(q)) == See(a0, DirName(q)) == See(a, DirName(q))
  {
    var n := Lookup(a, p).value;
    SeeAfterRemove(a, p, DirName(q));
    assert !(p <= DirName(q)) && !(q <= DirName(p)) && !(q <= DirName(q));
    forall r ensures See(RenamedTree(a, p, q), r) == GraftSeen(b, q, n, r)
             ensures q <= r ==> See(b, r).Nothing?
    {
      SeeAfterRemove(a, p, r);
      SeeAfterPut(Remove(a, p), q, n, r);
      assert See(a0, r) == if q <= r then Nothing else See(a, r);
      assert See(b, r) == if p <= r then Nothing else See(a0, r);
    }
  }

  /** After MOVED_FROM: map and watches describe the old tree without `p` and without the target. */
  lemma RenameFirstHalf(st: State, st1: State, ws: Uuid, p: seq<string>, q: seq<string>) returns (b: Node)
    requires Mirrored(st, ws) && CanRename(st, ws, p, q) && UniqueInos(st.disks)
    requires forall r | q < r :: See(st.disks[ws], r).Nothing?
    requires Handled(Renamed(st, ws, p, q), ParentEvent(st, st.disks[ws], p, MovedFrom, true), st1)
    ensures st1 == DropSubtree(Renamed(st, ws, p, q), ws, Join(p)) && st1.disks == Renamed(st, ws, p, q).disks
    ensures Lagging(st1, ws, b) && Grafted(b, st1.disks[ws], q, Lookup(st.disks[ws], p).value)
    ensures forall r | q <= r :: See(b, r).Nothing?
    ensures See(b, DirName(q)) == See(st.disks[ws], DirName(q))
    ensures WdOf(st1, See(b, DirName(q)).ino) == WdOf(st, See(b, DirName(q)).ino)
    ensures var wd := WdOf(st, See(st.disks[ws], p).ino); wd !in st1.watches && wd != WdOf(st1, wd.ino)
  {
    var a, st0 := st.disks[ws], Renamed(st, ws, p, q);
    var a0 := TargetAside(st, ws, p, q);
    assert See(a0, DirName(p)) == See(a, DirName(p)) by { assert !(q <= DirName(p)); }
    b := Remove(a0, p);
    RemoveCuts(a0, p);
    RenameTreeSeen(a, a0, b, p, q);
    DropStep(st0, st1, ParentEvent(st, a, p, MovedFrom, true), ws, a0, b, p);
    ParentKept(st0, ws, a0, p, q);
  }

  /** After MOVED_TO the mirror is back. */
  lemma RenameSecondHalf(st: State, st1: State, st2: State, ws: Uuid, p: seq<string>, q: seq<string>)
    requires Mirrored(st, ws) && CanRename(st, ws, p, q) && UniqueInos(st.disks)
    requires forall r | q < r :: See(st.disks[ws], r).Nothing?
    requires UniqueInos(Renamed(st, ws, p, q).disks)
    requires Handled(Renamed(st, ws, p, q), ParentEvent(st, st.disks[ws], p, MovedFrom, true), st1)
    requires Handled(st1, ParentEvent(st, st.disks[ws], q, MovedTo, true), st2)
    ensures st1 == DropSubtree(Renamed(st, ws, p, q), ws, Join(p)) && Armed(st1, st2, ws, q, {})
    ensures Mirrored(st2, ws) && st2.disks == Renamed(st, ws, p, q).disks
    ensures WdOf(st, See(st.disks[ws], p).ino) !in st2.watches
  {
    hide Handled, DropSubtree;
    var b := RenameFirstHalf(st, st1, ws, p, q);
    GraftForgets(st1, st2, ParentEvent(st, st.disks[ws], q, MovedTo, true), ws, b, q,
                 Lookup(st.disks[ws], p).value, WdOf(st, See(st.disks[ws], p).ino));
  }

  lemma GraftForgets(st: State, st': State, e: Event, ws: Uuid, b: Node, q: seq<string>, n: Node, gone: Wd)
    requires Lagging(st, ws, b) && Handled(st, e, st') && UniqueInos(st.disks)
    requires q != [] && ValidNames(q) && See(b, DirName(q)).SawDir?
    requires Grafted(b, st.disks[ws], q, n) && n.Dir?
    requires forall r | q <= r :: See(b, r).Nothing?
    requires e == ParentEvent(st, b, q, MovedTo, true)
    requires gone !in st.watches && gone != WdOf(st, gone.ino)
    ensures Mirrored(st', ws) && Armed(st, st', ws, q, {}) && st'.disks == st.disks && gone !in st'.watches
  {
    GraftStep(st, st', e, ws, b, q, n);
    NotTouched(st, st', ws, q, gone);
  }

  /** A descriptor that is no longer its inode's current one is left alone by arming. */
  lemma NotTouched(st: State, st': State, ws: Uuid, at: seq<string>, wd: Wd)
    requires Armed(st, st', ws, at, {}) && wd != WdOf(st, wd.ino)
    ensures wd in st'.watches <==> wd in st.watches
    ensures wd in st.watches ==> st'.watches[wd] == st.watches[wd]
  {
    assert !Touched(st, ws, at, {}, wd);
  }

  lemma ParentKept(st: State, ws: Uuid, a0: Node, p: seq<string>, q: seq<string>)
    requires ws in st.files && Tracks(st, ws, a0) && p != [] && q != [] && ValidNames(p) && ValidNames(q) && !(p <= q)
    requires See(a0, DirName(q)).SawDir?
    ensures WdOf(DropSubtree(st, ws, Join(p)), See(a0, DirName(q)).ino) == WdOf(st, See(a0, DirName(q)).ino)
  {
    assert !(p <= DirName(q));
    UnderIsPrefix(p, DirName(q));
    assert WatchedAt(st, ws, DirName(q), See(a0, DirName(q)).ino);
    StaysWatched(st, ws, ws, Join(p), DirName(q), See(a0, DirName(q)).ino);
  }

  /** The replaced directory's own table entry outlives MOVED_FROM. */
  lemma TargetEntryStays(st: State, ws: Uuid, p: seq<string>, q: seq<string>)
    requires Mirrored(st, ws) && CanRename(st, ws, p, q) && See(st.disks[ws], q).SawDir?
    ensures var wd := WdOf(st, See(st.disks[ws], q).ino);
            var st1 := DropSubtree(Renamed(st, ws, p, q), ws, Join(p));
            wd in st1.watches && st1.watches[wd] == WatchEntry(ws, Join(q)) && wd != WdOf(st1, wd.ino)
  {
    var j := See(st.disks[ws], q).ino;
    assert WatchedAt(st, ws, q, j);
    UnderIsPrefix(p, q);
    var st0 := Renamed(st, ws, p, q);
    assert IsLive(st, WdOf(st, j)) && Gen(st0, j) == Gen(st, j) + 1;
    assert WdOf(st, j) !in Stale(st0, ws, Join(p));
  }

  /** Everything at and under `q` forgotten, and descriptor `wd` with it. */
  function Wiped(st: State, ws: Uuid, q: seq<string>, wd: Wd): State
    requires ws in st.files
  {
    DropSubtree(st, ws, Join(q)).(watches := DropSubtree(st, ws, Join(q)).watches - {wd})
  }

  /** DELETE_SELF for a descriptor whose entry names a watched directory's path unwatches it. */
  lemma SelfEventWipes(st: State, st': State, st'': State, ws: Uuid, q: seq<string>, i: nat, wd: Wd)
    requires Known(st, ws) && q != [] && ValidNames(q) && WatchedAt(st, ws, q, i) && See(st.disks[ws], q) == SawDir(i)
    requires wd in st.watches && st.watches[wd] == WatchEntry(ws, Join(q))
    requires Handled(st, Event(wd, DeleteSelf, true, ""), st') && Handled(st', Event(wd, Ignored, true, ""), st'')
    ensures !Mirrored(st'', ws)
    ensures wd in Stale(st, ws, Join(q)) && st'' == Wiped(st, ws, q, wd)
  {
    assert st' == DropSubtree(st, ws, Join(q));
    assert WdOf(st, i) in Stale(st, ws, Join(q)) && IsLive(st, WdOf(st, i));
    assert i !in st''.live;
    assert !WatchedAt(st'', ws, q, i);
  }

  /** The rename's own events, none late: back to a mirror after MOVED_TO, and to
      the end exactly if nothing was at the target. */
  lemma RenameDirRun(st: State, sts: seq<State>, ws: Uuid, p: seq<string>, q: seq<string>, self: bool)
    requires Mirrored(st, ws) && CanRename(st, ws, p, q) && UniqueInos(st.disks)
    requires forall r | q < r :: See(st.disks[ws], r).Nothing?
    requires Run(sts, RenameEvents(st, ws, p, q, self)) && sts[0] == Renamed(st, ws, p, q) && UniqueInos(sts[0].disks)
    ensures Mirrored(sts[2], ws)
    ensures if See(st.disks[ws], q).Nothing? then sts[|sts| - 1] == sts[2]
            else !Mirrored(sts[|sts| - 1], ws) && sts[|sts| - 1] == Wiped(sts[2], ws, q, WdOf(st, See(st.disks[ws], q).ino))
  {
    hide Handled, Renamed, DropSubtree, Mirrored, Armed, UniqueInos, RenameEvents;
    var a, es := st.disks[ws], RenameEvents(st, ws, p, q, self);
    var k := if self then 3 else 2;
    RenameEventList(st, ws, p, q, self);
    assert Handled(sts[0], es[0], sts[1]) && Handled(sts[1], es[1], sts[2]);
    RenameSecondHalf(st, sts[1], sts[2], ws, p, q);
    if self {
      assert Handled(sts[2], es[2], sts[3]);
      UnknownIsIdle(sts[2], es[2], sts[3]);
    }
    assert sts[k] == sts[2];
    if See(a, q).SawDir? {
      assert Handled(sts[k], es[k], sts[k + 1]) && Handled(sts[k + 1], es[k + 1], sts[k + 2]);
      TargetWiped(st, sts[1], sts[2], sts[k + 1], sts[k + 2], ws, p, q);
    }
  }

  lemma RenameEventList(st: State, ws: Uuid, p: seq<string>, q: seq<string>, self: bool)
    requires CanRename(st, ws, p, q)
    ensures var a, es, k := st.disks[ws], RenameEvents(st, ws, p, q, self), if self then 3 else 2;
            && |es| == (if See(a, q).SawDir? then k + 2 else k)
            && es[0] == ParentEvent(st, a, p, MovedFrom, true) && es[1] == ParentEvent(st, a, q, MovedTo, true)
            && (self ==> es[2] == Event(WdOf(st, See(a, p).ino), MoveSelf, true, ""))
            && (See(a, q).SawDir? ==> es[k] == Event(WdOf(st, See(a, q).ino), DeleteSelf, true, "")
                                      && es[k + 1] == Event(WdOf(st, See(a, q).ino), Ignored, true, ""))
  {
  }

  lemma UnknownIsIdle(st: State, e: Event, st': State)
    requires Handled(st, e, st') && e.wd !in st.watches && e.kind != Overflow && e.kind != Ignored
    ensures st' == st
  {
  }

  /** The replaced directory's last two events, handled once the mirror was back. */
  lemma TargetWiped(st: State, st1: State, st2: State, st3: State, st4: State, ws: Uuid, p: seq<string>, q: seq<string>)
    requires Mirrored(st, ws) && CanRename(st, ws, p, q) && See(st.disks[ws], q).SawDir?
    requires st1 == DropSubtree(Renamed(st, ws, p, q), ws, Join(p)) && Armed(st1, st2, ws, q, {})
    requires Mirrored(st2, ws) && st2.disks == Renamed(st, ws, p, q).disks
    requires Handled(st2, Event(WdOf(st, See(st.disks[ws], q).ino), DeleteSelf, true, ""), st3)
    requires Handled(st3, Event(WdOf(st, See(st.disks[ws], q).ino), Ignored, true, ""), st4)
    ensures !Mirrored(st4, ws) && st4 == Wiped(st2, ws, q, WdOf(st, See(st.disks[ws], q).ino))
  {
    var a := st.disks[ws];
    assert st2.disks[ws] == RenamedTree(a, p, q);
    hide Handled, DropSubtree, Renamed;
    RenamedTarget(a, p, q);
    assert WatchedAt(st2, ws, q, See(a, p).ino);
    TargetEntryStays(st, ws, p, q);
    NotTouched(st1, st2, ws, q, WdOf(st, See(a, q).ino));
    SelfEventWipes(st2, st3, st4, ws, q, See(a, p).ino, WdOf(st, See(a, q).ino));
  }

  /** Renaming a directory, whatever late events come with it, is mirrored if and
      only if nothing was at the target: over an empty directory, the replaced inode's
      DELETE_SELF still maps to the target path and wipes what MOVED_TO had just
      recorded there. */
  lemma RenameDirMirrorsIffFresh(st: State, sts: seq<State>, all: seq<Event>, ws: Uuid, p: seq<string>, q: seq<string>, self: bool)
    requires Mirrored(st, ws) && CanRename(st, ws, p, q) && UniqueInos(st.disks)
    requires forall r | q < r :: See(st.disks[ws], r).Nothing?
    requires Run(sts, all) && Played(st, sts, all, RenameEvents(st, ws, p, q, self))
    requires sts[0] == Renamed(st, ws, p, q) && UniqueInos(sts[0].disks)
    ensures Mirrored(sts[|all|], ws) <==> See(st.disks[ws], q).Nothing?
  {
    hide Mirrored, UniqueInos, Renamed, CanRename, Played, RenameEvents, Wiped;
    var es := RenameEvents(st, ws, p, q, self);
    var hs := Unplay(st, sts, all, es);
    RenameIsHeard(st, ws, p, q, self);
    AllHeard(st, hs, es);
    RenameDirRun(st, hs, ws, p, q, self);
  }

  lemma RenameIsHeard(st: State, ws: Uuid, p: seq<string>, q: seq<string>, self: bool)
    requires Mirrored(st, ws) && CanRename(st, ws, p, q)
    ensures forall e | e in RenameEvents(st, ws, p, q, self) :: IsLive(st, e.wd)
  {
    var a := st.disks[ws];
    assert WatchedAt(st, ws, DirName(p), See(a, DirName(p)).ino) && WatchedAt(st, ws, DirName(q), See(a, DirName(q)).ino);
    assert WatchedAt(st, ws, p, See(a, p).ino);
    if See(a, q).SawDir? { assert WatchedAt(st, ws, q, See(a, q).ino); }
  }

  lemma RenamedTarget(a: Node, p: seq<string>, q: seq<string>)
    requires p != [] && q != [] && ValidNames(p) && ValidNames(q) && !(p <= q) && !(q <= p)
    requires See(a, DirName(p)).SawDir? && See(a, DirName(q)).SawDir? && See(a, p).SawDir?
    ensures See(RenamedTree(a, p, q), q) == See(a, p)
  {
    SeeAfterRemove(a, p, DirName(q));
    assert !(p <= DirName(q));
    SeeAfterPut(Remove(a, p), q, Lookup(a, p).value, q);
    assert q <= q && q[|q|..] == [];
  }

  // ----- Registration ---------------------------------------------------------

  /** Registering a workspace mirrors it exactly when its map named no path that
      is not an accepted regular file on disk: registration records but never forgets. */
  lemma RegisterMirrorsIff(st: State, st': State, ws: Uuid)
    requires Known(st, ws) && UniqueInos(st.disks) && SubtreeSynced(st, st', ws, "")
    ensures Mirrored(st', ws) <==> forall s | s in st.files[ws] :: FileAt(st.disks[ws], s).Some?
  {
    var d, files, files' := st.disks[ws], st.files[ws], st'.files[ws];
    forall p | See(d, p).SawDir? ensures WatchedAt(st', ws, p, See(d, p).ino) {
      assert Scanned(st, ws, [], {}, p);
    }
    forall s ensures Get(files', s) == if FileAt(d, s).Some? then FileAt(d, s) else Get(files, s) {
      PrefixCases([], Split(s));
      assert Get(files', s) == if [] < Split(s) && FileAt(d, s).Some? then FileAt(d, s) else Get(files, s);
    }
    if IsView(files', d) {
      forall s | s in files ensures FileAt(d, s).Some? { assert Get(files', s) == FileAt(d, s); }
    }
  }

  /** Unregistering forgets every watch of the workspace and no other. */
  lemma UnregisterForgets(st: State, ws: Uuid)
    ensures var st' := RemoveWatchesUnder(st, ws, "");
            && (forall wd | wd in st'.watches :: st'.watches[wd].ws != ws && st'.watches[wd] == st.watches[wd])
            && (forall own, q, i | own != ws && WatchedAt(st, own, q, i) :: WatchedAt(st', own, q, i))
  {
    var st' := RemoveWatchesUnder(st, ws, "");
    forall own, q, i | own != ws && WatchedAt(st, own, q, i) ensures WatchedAt(st', own, q, i) {
      assert WdOf(st, i) !in Stale(st, ws, "");
      forall w | w in Stale(st, ws, "") && IsLive(st, w) ensures w.ino != i {}
    }
  }

  // ----- Other workspaces ---------------------------------------------------

  /** An event for one workspace's watch leaves every other workspace mirrored. */
  lemma HandledIsLocal(st: State, e: Event, st': State, own: Uuid)
    requires Mirrored(st, own) && Handled(st, e, st') && UniqueInos(st.disks)
    requires e.kind != Overflow && (e.wd in st.watches ==> st.watches[e.wd].ws != own)
    ensures Mirrored(st', own)
  {
    var d := st.disks[own];
    assert st'.disks == st.disks && own in st'.files && st'.files[own] == st.files[own];
    forall q | See(d, q).SawDir? ensures WatchedAt(st', own, q, See(d, q).ino) {
      assert WatchedAt(st, own, q, See(d, q).ino);
      LocalWatch(st, e, st', own, q);
    }
  }

  lemma LocalWatch(st: State, e: Event, st': State, own: Uuid, q: seq<string>)
    requires own in st.disks && See(st.disks[own], q).SawDir? && WatchedAt(st, own, q, See(st.disks[own], q).ino)
    requires Handled(st, e, st') && UniqueInos(st.disks)
    requires e.kind != Overflow && (e.wd in st.watches ==> st.watches[e.wd].ws != own)
    ensures WatchedAt(st', own, q, See(st.disks[own], q).ino)
  {
    var i := See(st.disks[own], q).ino;
    if e.kind != Ignored && e.wd in st.watches && st.watches[e.wd].ws in st.files {
      var ws, relDir := st.watches[e.wd].ws, st.watches[e.wd].relDir;
      var path := Child(relDir, e.name);
      if e.kind == DeleteSelf || e.kind == MoveSelf {
        StaysWatched(st, ws, own, relDir, q, i);
      } else if (e.kind == Delete || e.kind == MovedFrom) && e.isDir {
        StaysWatched(st, ws, own, path, q, i);
      } else if e.isDir && (e.kind == Create || e.kind == MovedTo) {
        ArmedSpec(st, st', ws, DirPath(path), {}, own, q);
      }
    }
  }
}
