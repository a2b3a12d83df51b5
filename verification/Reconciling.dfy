/** One reconciliation pass over a still disk: what it repairs, whatever the map
    and the watch table said before, and when a second pass has nothing to do. */
module Reconciling {
  import opened Wrappers
  import opened Paths
  import opened Disk
  import opened ShadowStore
  import opened WriteBack
  import opened Mirroring

  /** Every recorded key is a path the store accepts. */
  predicate KeysAccepted(files: map<string, Oid>) {
    forall s | s in files :: Accepted(s)
  }

  /** From any map, the pass yields the flat view, unless the map held a rejected
      key that is a regular file on disk: that key can be neither rewritten nor deleted. */
  lemma ReconcileFilesIff(st: State, st': State, ws: Uuid)
    requires Known(st, ws) && Reconciled(st, st', ws)
    ensures IsView(st'.files[ws], st.disks[ws]) <==>
              forall s | s in st.files[ws] && !Accepted(s) :: !See(st.disks[ws], Split(s)).SawFile?
  {
    var d, files, files' := st.disks[ws], st.files[ws], st'.files[ws];
    if forall s | s in files && !Accepted(s) :: !See(d, Split(s)).SawFile? {
      forall s ensures Get(files', s) == FileAt(d, s) { RepairedAt(files, files', d, s); }
    }
    if IsView(files', d) {
      forall s | s in files && !Accepted(s) ensures !See(d, Split(s)).SawFile? {
        RepairedAt(files, files', d, s);
        assert Get(files', s) == FileAt(d, s);
      }
    }
  }

  lemma RepairedAt(files: map<string, Oid>, files': map<string, Oid>, d: Node, s: string)
    requires Repaired(files, files', d)
    ensures Get(files', s) ==
            if !See(d, Split(s)).SawFile? then None else if Accepted(s) then FileAt(d, s) else Get(files, s)
  {
  }

  /** A directory is watched after the pass exactly if the table had no entry for
      its path, or it was properly watched already. */
  lemma ReconcileWatchesIff(st: State, st': State, ws: Uuid, p: seq<string>)
    requires Known(st, ws) && Reconciled(st, st', ws) && UniqueInos(st.disks) && See(st.disks[ws], p).SawDir?
    ensures WatchedAt(st', ws, p, See(st.disks[ws], p).ino) <==>
              Join(p) !in Recorded(st, ws) || WatchedAt(st, ws, p, See(st.disks[ws], p).ino)
  {
    ArmedSpec(st, st', ws, [], Recorded(st, ws), ws, p);
  }

  /** No table entry names an existing directory except as its own live watch. */
  ghost predicate NoStaleEntries(st: State, ws: Uuid) {
    forall p | See(TreeOf(st, ws), p).SawDir? && Join(p) in Recorded(st, ws) ::
      WatchedAt(st, ws, p, See(TreeOf(st, ws), p).ino)
  }

  /** The pass leaves a mirror behind exactly when neither kind of leftover was there. */
  lemma ReconcileMirrorsIff(st: State, st': State, ws: Uuid)
    requires Known(st, ws) && Reconciled(st, st', ws) && UniqueInos(st.disks)
    ensures Mirrored(st', ws) <==>
              NoStaleEntries(st, ws)
              && forall s | s in st.files[ws] && !Accepted(s) :: !See(st.disks[ws], Split(s)).SawFile?
  {
    var d := st.disks[ws];
    ReconcileFilesIff(st, st', ws);
    forall p | See(d, p).SawDir?
      ensures WatchedAt(st', ws, p, See(d, p).ino) <==>
                Join(p) !in Recorded(st, ws) || WatchedAt(st, ws, p, See(d, p).ino)
    {
      ReconcileWatchesIff(st, st', ws, p);
    }
    if Tracks(st', ws, d) {
      forall p | See(d, p).SawDir? && Join(p) in Recorded(st, ws) ensures WatchedAt(st, ws, p, See(d, p).ino) {
        assert WatchedAt(st', ws, p, See(d, p).ino);
      }
    }
    if NoStaleEntries(st, ws) {
      forall p | See(d, p).SawDir? ensures WatchedAt(st', ws, p, See(d, p).ino) {}
    }
  }

  // ----- A second pass -------------------------------------------------------

  /** Some entry for `p` belongs to a descriptor the pass will not re-point. */
  ghost predicate Anchored(st: State, ws: Uuid, p: seq<string>) {
    exists wd :: wd in st.watches && st.watches[wd] == WatchEntry(ws, Join(p)) && !Touched(st, ws, [], Recorded(st, ws), wd)
  }

  lemma SecondPassFiles(st: State, st1: State, st2: State, ws: Uuid)
    requires Known(st, ws) && Reconciled(st, st1, ws) && Reconciled(st1, st2, ws)
    ensures st2.files == st1.files
  {
    var d, files1, files2 := st.disks[ws], st1.files[ws], st2.files[ws];
    forall s ensures Get(files2, s) == Get(files1, s) {
      RepairedAt(st.files[ws], files1, d, s);
      RepairedAt(files1, files2, d, s);
    }
    SameFiles(files1, files2);
  }

  lemma SameFiles(a: map<string, Oid>, b: map<string, Oid>)
    requires forall s :: Get(b, s) == Get(a, s)
    ensures a == b
  {
    forall s ensures s in a <==> s in b
             ensures s in a ==> a[s] == b[s]
    {
      assert Get(b, s) == Get(a, s);
    }
  }

  /** An entry the pass re-points names a path the table did not have. */
  lemma RepointedIsNew(st: State, st1: State, ws: Uuid, wd: Wd)
    requires Armed(st, st1, ws, [], Recorded(st, ws)) && Touched(st, ws, [], Recorded(st, ws), wd)
    ensures wd in st1.watches && st1.watches[wd].relDir !in Recorded(st, ws)
  {
    var r :| Scanned(st, ws, [], Recorded(st, ws), r) && wd == WdOf(st, See(TreeOf(st, ws), r).ino);
    assert WatchedAt(st1, ws, r, See(TreeOf(st, ws), r).ino);
  }

  lemma NewlyRecorded(st: State, st1: State, ws: Uuid, p: seq<string>)
    requires Known(st, ws) && Reconciled(st, st1, ws) && See(st.disks[ws], p).SawDir?
    ensures Join(p) in Recorded(st, ws) || Join(p) in Recorded(st1, ws)
  {
    if Join(p) !in Recorded(st, ws) {
      assert Scanned(st, ws, [], Recorded(st, ws), p);
      assert WatchedAt(st1, ws, p, See(st.disks[ws], p).ino);
      assert st1.watches[WdOf(st1, See(st.disks[ws], p).ino)].relDir in Recorded(st1, ws);
    }
  }

  /** Which directories have an entry after one pass. */
  lemma RecordedAfter(st: State, st1: State, ws: Uuid, p: seq<string>)
    requires Known(st, ws) && Reconciled(st, st1, ws) && See(st.disks[ws], p).SawDir?
    ensures Join(p) in Recorded(st1, ws) <==> Join(p) !in Recorded(st, ws) || Anchored(st, ws, p)
  {
    var skip := Recorded(st, ws);
    NewlyRecorded(st, st1, ws, p);
    if Anchored(st, ws, p) {
      var wd :| wd in st.watches && st.watches[wd] == WatchEntry(ws, Join(p)) && !Touched(st, ws, [], skip, wd);
      assert wd in st1.watches && st1.watches[wd] == st.watches[wd];
    }
    if Join(p) in skip && Join(p) in Recorded(st1, ws) {
      var wd :| wd in st1.watches && st1.watches[wd].ws == ws && st1.watches[wd].relDir == Join(p);
      assert !Touched(st, ws, [], skip, wd) by {
        if Touched(st, ws, [], skip, wd) { RepointedIsNew(st, st1, ws, wd); }
      }
      assert st.watches[wd] == WatchEntry(ws, Join(p));
    }
  }

  /** The second pass changes nothing exactly when no directory loses its only
      entry to a descriptor the first pass re-points at another path. */
  lemma SecondPassIsIdleIff(st: State, st1: State, st2: State, ws: Uuid)
    requires Known(st, ws) && Reconciled(st, st1, ws) && Reconciled(st1, st2, ws)
    ensures st2 == st1 <==>
              forall p | See(st.disks[ws], p).SawDir? && Join(p) in Recorded(st, ws) :: Anchored(st, ws, p)
  {
    var d := st.disks[ws];
    SecondPassFiles(st, st1, st2, ws);
    forall p | See(d, p).SawDir?
      ensures Join(p) in Recorded(st1, ws) <==> Join(p) !in Recorded(st, ws) || Anchored(st, ws, p)
      ensures Join(p) in Recorded(st1, ws) || Join(p) in Recorded(st2, ws)
    {
      RecordedAfter(st, st1, ws, p);
      NewlyRecorded(st1, st2, ws, p);
    }
    if forall p | See(d, p).SawDir? && Join(p) in Recorded(st, ws) :: Anchored(st, ws, p) {
      forall wd ensures !Touched(st1, ws, [], Recorded(st1, ws), wd) {}
      NothingToArm(st1, st2, ws);
    }
  }

  lemma NothingToArm(st: State, st': State, ws: Uuid)
    requires Armed(st, st', ws, [], Recorded(st, ws)) && forall wd :: !Touched(st, ws, [], Recorded(st, ws), wd)
    requires st'.disks == st.disks && st'.files == st.files
    ensures st' == st
  {
    assert st'.live == st.live;
    assert st'.watches.Keys == st.watches.Keys;
    assert st'.watches == st.watches;
  }

  /** A clean table: one pass gives a mirror and the next one is idle. */
  lemma CleanPassMirrors(st: State, st1: State, st2: State, ws: Uuid)
    requires Known(st, ws) && UniqueInos(st.disks) && KeysAccepted(st.files[ws]) && NoStaleEntries(st, ws)
    requires Reconciled(st, st1, ws) && Reconciled(st1, st2, ws)
    ensures Mirrored(st1, ws) && st2 == st1
  {
    ReconcileMirrorsIff(st, st1, ws);
    var d, skip := st.disks[ws], Recorded(st, ws);
    forall p | See(d, p).SawDir? && Join(p) in skip ensures Anchored(st, ws, p) {
      assert WatchedAt(st, ws, p, See(d, p).ino);
      forall r | Scanned(st, ws, [], skip, r) ensures WdOf(st, See(d, r).ino) != WdOf(st, See(d, p).ino) {}
      assert !Touched(st, ws, [], skip, WdOf(st, See(d, p).ino));
    }
    SecondPassIsIdleIff(st, st1, st2, ws);
  }

  // ----- Keys stay accepted, so overflow recovers every file ----------------

  /** Whatever event is handled, no rejected key enters a file map. */
  lemma HandledKeepsKeys(st: State, e: Event, st': State, ws: Uuid)
    requires Handled(st, e, st') && ws in st.files && KeysAccepted(st.files[ws])
    ensures ws in st'.files && KeysAccepted(st'.files[ws])
  {
    if e.kind == Overflow {
      ReconcileAllFiles(st, st', st.files.Keys, ws);
    } else if ws in st'.files {
      forall s | s in st'.files[ws] ensures Accepted(s) {
        if e.wd in st.watches && st.watches[e.wd].ws == ws && e.isDir && (e.kind == Create || e.kind == MovedTo) {
          var at := DirPath(Child(st.watches[e.wd].relDir, e.name));
          assert Get(st'.files[ws], s) ==
            if at < Split(s) && FileAt(TreeOf(st, ws), s).Some? then FileAt(TreeOf(st, ws), s) else Get(st.files[ws], s);
        }
      }
    }
  }

  /** Recovery from lost events: after an overflow, every workspace with a live
      directory has exactly the flat view of its disk. */
  lemma {:induction false} ReconcileAllFiles(st: State, st': State, todo: set<Uuid>, ws: Uuid)
    requires ReconciledAll(st, st', todo) && ws in st.files && KeysAccepted(st.files[ws])
    ensures ws in st'.files && KeysAccepted(st'.files[ws]) && st'.disks == st.disks
    ensures ws in todo && Known(st, ws) ==> IsView(st'.files[ws], st.disks[ws])
    ensures ws !in todo ==> st'.files[ws] == st.files[ws]
    decreases todo
  {
    if todo != {} {
      var k, mid :| k in todo && Reconciled(st, mid, k) && ReconciledAll(mid, st', todo - {k});
      if k == ws {
        forall s | s in mid.files[ws] ensures Accepted(s) {
          RepairedAt(st.files[ws], mid.files[ws], TreeOf(st, ws), s);
        }
        if Known(st, ws) { ReconcileFilesIff(st, mid, ws); }
      }
      ReconcileAllFiles(mid, st', todo - {k}, ws);
    }
  }

  lemma OverflowRecovers(st: State, e: Event, st': State, ws: Uuid)
    requires e.kind == Overflow && Handled(st, e, st') && Known(st, ws) && KeysAccepted(st.files[ws])
    ensures ws in st'.files && IsView(st'.files[ws], st.disks[ws])
  {
    ReconcileAllFiles(st, st', st.files.Keys, ws);
  }
}
