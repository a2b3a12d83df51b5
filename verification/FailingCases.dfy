/** Small workspaces on which an operation or a reconcile pass falls short, with the
    states it goes through. */
module FailingCases {
  import opened Wrappers
  import opened Paths
  import opened Disk
  import opened ShadowStore
  import opened WriteBack
  import opened Mirroring
  import opened Reconciling

  // ----- Renaming a directory over an empty one -------------------------------

  /** A workspace with two empty directories, `a` and `b`, mirrored from the start. */
  function TwoDirs(ws: Uuid): State {
    State(map[ws := map[]],
          map[ws := Dir(0, map["a" := Dir(1, map[]), "b" := Dir(2, map[])])],
          map[Wd(0, 0) := WatchEntry(ws, ""), Wd(1, 0) := WatchEntry(ws, "a"), Wd(2, 0) := WatchEntry(ws, "b")],
          {0, 1, 2},
          map[])
  }

  lemma SeeTwoDirs(ws: Uuid, p: seq<string>)
    ensures See(TwoDirs(ws).disks[ws], p) ==
            if p == [] then SawDir(0) else if p == ["a"] then SawDir(1) else if p == ["b"] then SawDir(2) else Nothing
  {
    var d := TwoDirs(ws).disks[ws];
    if p != [] && p[0] in d.entries {
      assert ValidName("a") && ValidName("b");
      assert Lookup(d, p) == Lookup(d.entries[p[0]], p[1..]);
      if p[1..] == [] {
        assert p == [p[0]];
      } else {
        assert Lookup(d.entries[p[0]], p[1..]) == None;
        assert |p| > 1;
      }
    }
  }

  lemma TwoDirsMirrored(ws: Uuid)
    ensures Mirrored(TwoDirs(ws), ws) && UniqueInos(TwoDirs(ws).disks)
  {
    var st := TwoDirs(ws);
    var d := st.disks[ws];
    forall p | See(d, p).SawDir? ensures WatchedAt(st, ws, p, See(d, p).ino) { SeeTwoDirs(ws, p); }
    forall s ensures Get(st.files[ws], s) == FileAt(d, s) { SeeTwoDirs(ws, Split(s)); }
    forall p, q | See(d, p).SawDir? && See(d, q) == See(d, p) ensures p == q {
      SeeTwoDirs(ws, p);
      SeeTwoDirs(ws, q);
    }
  }

  /** What `mv -T a b` leaves of that tree. */
  function OneDir(): Node { Dir(0, map["b" := Dir(1, map[])]) }

  lemma SeeOneDir(p: seq<string>)
    ensures See(OneDir(), p) == if p == [] then SawDir(0) else if p == ["b"] then SawDir(1) else Nothing
  {
    assert ValidName("b");
    if p != [] && p[0] == "b" {
      assert Lookup(OneDir(), p) == Lookup(Dir(1, map[]), p[1..]);
      if p[1..] == [] { assert p == ["b"]; } else { assert |p| > 1; }
    }
  }

  lemma TwoDirsRename(ws: Uuid)
    ensures CanRename(TwoDirs(ws), ws, ["a"], ["b"]) && forall r | ["b"] < r :: See(TwoDirs(ws).disks[ws], r).Nothing?
    ensures RenamedTree(TwoDirs(ws).disks[ws], ["a"], ["b"]) == OneDir()
  {
    var d := TwoDirs(ws).disks[ws];
    assert ValidName("a") && ValidName("b");
    SeeTwoDirs(ws, []);
    SeeTwoDirs(ws, ["a"]);
    SeeTwoDirs(ws, ["b"]);
    assert DirName(["a"]) == [] && DirName(["b"]) == [];
    assert !(["a"] <= ["b"]) && !(["b"] <= ["a"]) by { assert ["a"][0] != ["b"][0]; }
    forall r | ["b"] < r ensures See(d, r).Nothing? { SeeTwoDirs(ws, r); }
    assert Lookup(d, ["a"]) == Some(Dir(1, map[]));
    assert Remove(d, ["a"]) == Dir(0, map["b" := Dir(2, map[])]);
  }

  lemma TwoDirsUnique(ws: Uuid)
    requires CanRename(TwoDirs(ws), ws, ["a"], ["b"]) && RenamedTree(TwoDirs(ws).disks[ws], ["a"], ["b"]) == OneDir()
    ensures UniqueInos(Renamed(TwoDirs(ws), ws, ["a"], ["b"]).disks)
  {
    forall p, q | See(OneDir(), p).SawDir? && See(OneDir(), q) == See(OneDir(), p) ensures p == q {
      SeeOneDir(p);
      SeeOneDir(q);
    }
  }

  /** The kernel and the table after that rename, and after MOVED_FROM. */
  function AfterRename(ws: Uuid): State {
    State(map[ws := map[]], map[ws := OneDir()],
          map[Wd(0, 0) := WatchEntry(ws, ""), Wd(1, 0) := WatchEntry(ws, "a"), Wd(2, 0) := WatchEntry(ws, "b")],
          {0, 1}, map[2 := 1])
  }

  function AfterMovedFrom(ws: Uuid): State {
    State(map[ws := map[]], map[ws := OneDir()],
          map[Wd(0, 0) := WatchEntry(ws, ""), Wd(2, 0) := WatchEntry(ws, "b")], {0}, map[1 := 1, 2 := 1])
  }

  function AfterMovedTo(ws: Uuid): State {
    AfterMovedFrom(ws).(live := {0, 1}, watches := AfterMovedFrom(ws).watches[Wd(1, 1) := WatchEntry(ws, "b")])
  }

  lemma RenamedIsAfterRename(ws: Uuid)
    requires CanRename(TwoDirs(ws), ws, ["a"], ["b"]) && RenamedTree(TwoDirs(ws).disks[ws], ["a"], ["b"]) == OneDir()
    ensures Renamed(TwoDirs(ws), ws, ["a"], ["b"]) == AfterRename(ws)
  {
    var st := TwoDirs(ws);
    SeeTwoDirs(ws, ["b"]);
    assert Disarm(st, {Wd(2, 0)}).live == {0, 1};
    assert Disarm(st, {Wd(2, 0)}).gens == map[2 := 1];
  }

  lemma DroppedIsAfterMovedFrom(ws: Uuid)
    ensures DropSubtree(AfterRename(ws), ws, "a") == AfterMovedFrom(ws)
  {
    var st := AfterRename(ws);
    assert DeletePrefix(st.files[ws], "a") == map[];
    assert WithFiles(st, ws, map[]) == st;
    assert st.watches - {Wd(1, 0)} == AfterMovedFrom(ws).watches;
    StaleAtA(ws);
    DisarmedAtA(ws);
    hide Stale, Disarm, DeletePrefix;
  }

  lemma StaleAtA(ws: Uuid)
    ensures Stale(AfterRename(ws), ws, "a") == {Wd(1, 0)}
  {
    assert Under("a", "a") && !Under("", "a") && !Under("b", "a");
  }

  lemma DisarmedAtA(ws: Uuid)
    ensures Disarm(AfterRename(ws), {Wd(1, 0)}) == AfterRename(ws).(live := {0}, gens := map[1 := 1, 2 := 1])
  {
    var st := AfterRename(ws);
    assert Disarm(st, {Wd(1, 0)}).live == {0};
    assert Disarm(st, {Wd(1, 0)}).gens == map[1 := 1, 2 := 1];
  }

  lemma MovedIsSynced(ws: Uuid)
    ensures SubtreeSynced(AfterMovedFrom(ws), AfterMovedTo(ws), ws, "b")
  {
    var st1, st2 := AfterMovedFrom(ws), AfterMovedTo(ws);
    SplitCons("b", "");
    assert DirPath("b") == ["b"] && Join(["b"]) == "b";
    forall s ensures FileAt(OneDir(), s) == None { SeeOneDir(Split(s)); }
    forall p | Scanned(st1, ws, ["b"], {}, p) ensures p == ["b"] && WatchedAt(st2, ws, p, See(OneDir(), p).ino) { SeeOneDir(p); }
    SeeOneDir(["b"]);
    assert ["b"] <= ["b"];
    assert Scanned(st1, ws, ["b"], {}, ["b"]);
    assert Touched(st1, ws, ["b"], {}, Wd(1, 1));
  }

  /** The failing case is real: `mv -T a b` on that workspace has a run that ends without a mirror. */
  lemma RenameOverEmptyDirFails(ws: Uuid) returns (sts: seq<State>)
    ensures Mirrored(TwoDirs(ws), ws) && CanRename(TwoDirs(ws), ws, ["a"], ["b"])
    ensures Run(sts, RenameEvents(TwoDirs(ws), ws, ["a"], ["b"], true)) && sts[0] == Renamed(TwoDirs(ws), ws, ["a"], ["b"])
    ensures !Mirrored(sts[5], ws)
  {
    hide Mirrored, CanRename, UniqueInos, Renamed, DropSubtree, Run, RenameEvents, Handled, SubtreeSynced, See, RenamedTree;
    hide TwoDirs, OneDir, AfterRename, AfterMovedFrom, AfterMovedTo;
    TwoDirsMirrored(ws);
    TwoDirsRename(ws);
    TwoDirsUnique(ws);
    RenamedIsAfterRename(ws);
    DroppedIsAfterMovedFrom(ws);
    MovedIsSynced(ws);
    TwoDirsEvents(ws);
    RenameEventsHandled(ws);
    SeeTwoDirs(ws, ["b"]);
    var s2, s4 := AfterMovedTo(ws), DropSubtree(AfterMovedTo(ws), ws, "b");
    var s5 := s4.(watches := s4.watches - {Wd(2, 0)});
    sts := [AfterRename(ws), AfterMovedFrom(ws), s2, s2, s4, s5];
    FiveSteps(AfterRename(ws), AfterMovedFrom(ws), s2, s2, s4, s5, RenameEvents(TwoDirs(ws), ws, ["a"], ["b"], true));
    RenameDirRun(TwoDirs(ws), sts, ws, ["a"], ["b"], true);
  }

  lemma FiveSteps(s0: State, s1: State, s2: State, s3: State, s4: State, s5: State, es: seq<Event>)
    requires |es| == 5 && Handled(s0, es[0], s1) && Handled(s1, es[1], s2) && Handled(s2, es[2], s3)
    requires Handled(s3, es[3], s4) && Handled(s4, es[4], s5)
    ensures Run([s0, s1, s2, s3, s4, s5], es)
  {
    hide Handled;
    var sts := [s0, s1, s2, s3, s4, s5];
    forall i | 0 <= i < |es| ensures Handled(sts[i], es[i], sts[i + 1]) {
      if i == 0 { } else if i == 1 { } else if i == 2 { } else if i == 3 { } else { }
    }
  }

  lemma TwoDirsEvents(ws: Uuid)
    requires CanRename(TwoDirs(ws), ws, ["a"], ["b"])
    ensures RenameEvents(TwoDirs(ws), ws, ["a"], ["b"], true) ==
            [Event(Wd(0, 0), MovedFrom, true, "a"), Event(Wd(0, 0), MovedTo, true, "b"), Event(Wd(1, 0), MoveSelf, true, ""),
             Event(Wd(2, 0), DeleteSelf, true, ""), Event(Wd(2, 0), Ignored, true, "")]
  {
    RenameEventList(TwoDirs(ws), ws, ["a"], ["b"], true);
    SeeTwoDirs(ws, []);
    SeeTwoDirs(ws, ["a"]);
    SeeTwoDirs(ws, ["b"]);
    assert DirName(["a"]) == [] && DirName(["b"]) == [] && BaseName(["a"]) == "a" && BaseName(["b"]) == "b";
    hide RenameEvents, See;
  }

  lemma RenameEventsHandled(ws: Uuid)
    requires DropSubtree(AfterRename(ws), ws, "a") == AfterMovedFrom(ws)
    requires SubtreeSynced(AfterMovedFrom(ws), AfterMovedTo(ws), ws, "b")
    ensures ws in AfterMovedTo(ws).files
    ensures var s4 := DropSubtree(AfterMovedTo(ws), ws, "b");
            && Handled(AfterRename(ws), Event(Wd(0, 0), MovedFrom, true, "a"), AfterMovedFrom(ws))
            && Handled(AfterMovedFrom(ws), Event(Wd(0, 0), MovedTo, true, "b"), AfterMovedTo(ws))
            && Handled(AfterMovedTo(ws), Event(Wd(1, 0), MoveSelf, true, ""), AfterMovedTo(ws))
            && Handled(AfterMovedTo(ws), Event(Wd(2, 0), DeleteSelf, true, ""), s4)
            && Handled(s4, Event(Wd(2, 0), Ignored, true, ""), s4.(watches := s4.watches - {Wd(2, 0)}))
  {
    hide DropSubtree, SubtreeSynced;
    assert Child("", "a") == "a" && Child("", "b") == "b";
  }

  // ----- Reconciling after a directory was renamed and made anew ------------------

  /** Directory `a` was renamed to `b` and made anew while events were lost: the
      table knows inode 2, now `b`, under the path `a`, and inode 1 not at all. */
  function Recreated(ws: Uuid): State {
    TwoDirs(ws).(watches := map[Wd(0, 0) := WatchEntry(ws, ""), Wd(2, 0) := WatchEntry(ws, "a")], live := {0, 2})
  }

  /** The first pass re-points the entry to `b`; the second adds `a`. */
  function FirstPass(ws: Uuid): State {
    TwoDirs(ws).(watches := map[Wd(0, 0) := WatchEntry(ws, ""), Wd(2, 0) := WatchEntry(ws, "b")], live := {0, 2})
  }

  lemma FirstPassReconciles(ws: Uuid)
    ensures Reconciled(Recreated(ws), FirstPass(ws), ws)
  {
    var st, st1 := Recreated(ws), FirstPass(ws);
    RecreatedRecords(ws);
    NoFiles(ws);
    forall p | Scanned(st, ws, [], Recorded(st, ws), p) ensures p == ["b"] && WatchedAt(st1, ws, p, See(TreeOf(st, ws), p).ino) {
      SeeTwoDirs(ws, p);
      assert Join(["a"]) == "a" && Join(["b"]) == "b" && Join([]) == "";
    }
  }

  lemma SecondPassReconciles(ws: Uuid)
    ensures Reconciled(FirstPass(ws), TwoDirs(ws), ws)
  {
    var st, st1 := FirstPass(ws), TwoDirs(ws);
    NoFiles(ws);
    assert Wd(0, 0) in st.watches && st.watches[Wd(0, 0)].relDir in Recorded(st, ws);
    assert Wd(2, 0) in st.watches && st.watches[Wd(2, 0)].relDir in Recorded(st, ws);
    forall p | Scanned(st, ws, [], Recorded(st, ws), p) ensures p == ["a"] && WatchedAt(st1, ws, p, See(TreeOf(st, ws), p).ino) {
      SeeTwoDirs(ws, p);
      assert Join(["a"]) == "a" && Join(["b"]) == "b" && Join([]) == "";
    }
    SeeTwoDirs(ws, ["a"]);
    assert Scanned(st, ws, [], Recorded(st, ws), ["a"]);
    assert Touched(st, ws, [], Recorded(st, ws), Wd(1, 0));
  }

  lemma NoFiles(ws: Uuid)
    ensures Repaired(map[], map[], TwoDirs(ws).disks[ws])
  {
    forall s ensures !See(TwoDirs(ws).disks[ws], Split(s)).SawFile? { SeeTwoDirs(ws, Split(s)); }
  }

  lemma RecreatedRecords(ws: Uuid)
    ensures Recorded(Recreated(ws), ws) == {"", "a"}
    ensures Touched(Recreated(ws), ws, [], Recorded(Recreated(ws), ws), Wd(2, 0))
  {
    var st := Recreated(ws);
    assert Wd(0, 0) in st.watches && st.watches[Wd(0, 0)].relDir in Recorded(st, ws);
    assert Wd(2, 0) in st.watches && st.watches[Wd(2, 0)].relDir in Recorded(st, ws);
    SeeTwoDirs(ws, ["b"]);
    assert Join(["b"]) == "b";
    assert Scanned(st, ws, [], Recorded(st, ws), ["b"]);
    assert WdOf(st, See(TreeOf(st, ws), ["b"]).ino) == Wd(2, 0);
  }

  /** One pass over that workspace leaves no mirror, and the next one is not idle. */
  lemma RecreatedDirNeedsTwoPasses(ws: Uuid) returns (st1: State, st2: State)
    ensures Known(Recreated(ws), ws) && Reconciled(Recreated(ws), st1, ws) && Reconciled(st1, st2, ws)
    ensures !Mirrored(st1, ws) && st2 != st1 && Mirrored(st2, ws)
  {
    st1, st2 := FirstPass(ws), TwoDirs(ws);
    FirstPassReconciles(ws);
    SecondPassReconciles(ws);
    TwoDirsMirrored(ws);
    SeeTwoDirs(ws, ["a"]);
    assert !WatchedAt(st1, ws, ["a"], 1);
  }

  // ----- Outside every run of the store -------------------------------------------

  /** A workspace whose map has an outdated id for the rejected key `..x`. */
  function RejectedKey(ws: Uuid): State {
    State(map[ws := map["..x" := BlobId([])]], map[ws := Dir(0, map["..x" := File([1])])], map[], {}, map[])
  }

  /** A pass could neither rewrite nor delete that key, which is why the pass's
      condition names such keys. No run of the store records one. */
  lemma RejectedKeyIsStuck(ws: Uuid) returns (st': State)
    ensures !KeysAccepted(RejectedKey(ws).files[ws])
    ensures Reconciled(RejectedKey(ws), st', ws) && !IsView(st'.files[ws], RejectedKey(ws).disks[ws])
  {
    var st := RejectedKey(ws);
    st' := st.(watches := map[Wd(0, 0) := WatchEntry(ws, "")], live := {0});
    forall p ensures See(st.disks[ws], p) == if p == [] then SawDir(0) else if p == ["..x"] then SawFile([1]) else Nothing {
      SeeRejected(ws, p);
    }
    SplitCons("..x", "");
    assert Split("..x") == ["..x"];
    assert HasDotDot("..x") by { assert "..x"[0] == '.' && "..x"[1] == '.'; }
    forall s ensures Get(st'.files[ws], s) ==
      if !See(st.disks[ws], Split(s)).SawFile? then None else if Accepted(s) then FileAt(st.disks[ws], s) else Get(st.files[ws], s)
    {
      JoinSplit(s);
      assert Join(["..x"]) == "..x";
    }
    assert Scanned(st, ws, [], Recorded(st, ws), []);
    assert Touched(st, ws, [], Recorded(st, ws), Wd(0, 0));
    assert Join([]) == "";
    ReconcileFilesIff(st, st', ws);
    assert "..x" in st.files[ws];
  }

  lemma SeeRejected(ws: Uuid, p: seq<string>)
    ensures See(RejectedKey(ws).disks[ws], p) == if p == [] then SawDir(0) else if p == ["..x"] then SawFile([1]) else Nothing
  {
    var d := RejectedKey(ws).disks[ws];
    assert ValidName("..x") by { assert |"..x"| == 3; }
    if p != [] && p[0] == "..x" {
      assert Lookup(d, p) == Lookup(File([1]), p[1..]);
      if p[1..] == [] { assert p == ["..x"]; } else { assert |p| > 1; }
    }
  }
}
