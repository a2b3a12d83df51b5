/** What the watch table keeps through every operation, also where the mirror was
    lost: each directory is watched under its path or has nothing recorded at or
    under it, and no live watch of the workspace is recorded anywhere else. */
module WatchTable {
  import opened Paths
  import opened Disk
  import opened ShadowStore
  import opened WriteBack
  import opened LateEvents
  import opened Mirroring
  import opened Reconciling

  ghost predicate NoEntries(st: State, ws: Uuid, p: seq<string>) {
    forall wd | wd in st.watches && st.watches[wd].ws == ws :: !Under(st.watches[wd].relDir, Join(p))
  }

  ghost predicate SoundAt(st: State, ws: Uuid, p: seq<string>, i: nat) {
    WatchedAt(st, ws, p, i) || NoEntries(st, ws, p)
  }

  /** The kernel watches inode `i` and the table has it for this workspace. */
  predicate Listed(st: State, ws: Uuid, i: nat) {
    i in st.live && WdOf(st, i) in st.watches && st.watches[WdOf(st, i)].ws == ws
  }

  ghost predicate InPlace(st: State, ws: Uuid, d: Node, i: nat) {
    exists q :: See(d, q) == SawDir(i) && WatchedAt(st, ws, q, i)
  }

  /** Sound for the directories of tree `d`. */
  ghost predicate Sound(st: State, ws: Uuid, d: Node) {
    && (forall q | See(d, q).SawDir? :: SoundAt(st, ws, q, See(d, q).ino))
    && (forall i | Listed(st, ws, i) :: InPlace(st, ws, d, i))
  }

  // ----- What a sound table is good for -------------------------------------------

  lemma SoundHasNoStaleEntries(st: State, ws: Uuid)
    requires Known(st, ws) && Sound(st, ws, st.disks[ws])
    ensures NoStaleEntries(st, ws)
  {
    var d := st.disks[ws];
    forall p | See(d, p).SawDir? && Join(p) in Recorded(st, ws) ensures WatchedAt(st, ws, p, See(d, p).ino) {
      assert SoundAt(st, ws, p, See(d, p).ino);
      var wd :| wd in st.watches && st.watches[wd].ws == ws && st.watches[wd].relDir == Join(p);
      assert Under(Join(p), Join(p));
    }
  }

  /** From a sound table and accepted keys, one reconcile pass restores the mirror
      and leaves the table sound. */
  lemma SoundPassMirrors(st: State, st': State, ws: Uuid)
    requires Known(st, ws) && UniqueInos(st.disks) && KeysAccepted(st.files[ws]) && Sound(st, ws, st.disks[ws])
    requires Reconciled(st, st', ws)
    ensures Mirrored(st', ws) && Sound(st', ws, st'.disks[ws])
  {
    var d := st.disks[ws];
    SoundHasNoStaleEntries(st, ws);
    ReconcileMirrorsIff(st, st', ws);
    forall q | See(d, q).SawDir? ensures SoundAt(st', ws, q, See(d, q).ino) {
      assert WatchedAt(st', ws, q, See(d, q).ino);
    }
    forall i | Listed(st', ws, i) ensures InPlace(st', ws, d, i) {
      if Listed(st, ws, i) {
        StaysInPlace(st, st', ws, d, i);
      } else {
        NewlyListed(st, st', ws, [], Recorded(st, ws), i);
      }
    }
  }

  lemma StaysInPlace(st: State, st': State, ws: Uuid, d: Node, i: nat)
    requires InPlace(st, ws, d, i) && forall q | See(d, q).SawDir? :: WatchedAt(st', ws, q, See(d, q).ino)
    ensures InPlace(st', ws, d, i)
  {
    var q :| See(d, q) == SawDir(i) && WatchedAt(st, ws, q, i);
    assert WatchedAt(st', ws, q, i);
  }

  /** A mirror of a workspace that had no table entry before it was registered. */
  lemma RegisteredIsSound(st: State, st': State, ws: Uuid)
    requires Known(st, ws) && NoEntries(st, ws, []) && SubtreeSynced(st, st', ws, "")
    ensures Sound(st', ws, st'.disks[ws])
  {
    var d := st.disks[ws];
    forall q | See(d, q).SawDir? ensures SoundAt(st', ws, q, See(d, q).ino) {
      assert Scanned(st, ws, [], {}, q);
    }
    forall i | Listed(st', ws, i) ensures InPlace(st', ws, d, i) {
      NewlyListed(st, st', ws, [], {}, i);
    }
  }

  // ----- Paths under a path ----------------------------------------------------------

  lemma UnderTrans(x: string, y: string, s: string)
    requires Under(x, y) && Under(y, s)
    ensures Under(x, s)
  {
  }

  lemma UnderPath(p: seq<string>, q: seq<string>)
    requires ValidNames(p) && ValidNames(q)
    ensures Under(Join(q), Join(p)) <==> p <= q
  {
    if p != [] { UnderIsPrefix(p, q); }
  }

  lemma NoEntriesBelow(st: State, ws: Uuid, p: seq<string>, q: seq<string>)
    requires NoEntries(st, ws, p) && ValidNames(p) && ValidNames(q) && p <= q
    ensures NoEntries(st, ws, q)
  {
    UnderPath(p, q);
    forall wd | wd in st.watches && st.watches[wd].ws == ws ensures !Under(st.watches[wd].relDir, Join(q)) {
      if Under(st.watches[wd].relDir, Join(q)) { UnderTrans(st.watches[wd].relDir, Join(q), Join(p)); }
    }
  }

  /** Everything above a watched directory is watched. */
  lemma AncestorIsWatched(st: State, ws: Uuid, d: Node, p: seq<string>, q: seq<string>)
    requires Sound(st, ws, d) && See(d, q).SawDir? && p <= q && WatchedAt(st, ws, q, See(d, q).ino)
    ensures See(d, p).SawDir? && WatchedAt(st, ws, p, See(d, p).ino)
  {
    PrefixCases(p, q);
    if p < q { AncestorsAreDirs(d, p, q); }
    SeenNames(d, p);
    SeenNames(d, q);
    assert SoundAt(st, ws, p, See(d, p).ino);
    UnderPath(p, q);
  }

  lemma ComparePrefixes(p: seq<string>, q: seq<string>, r: seq<string>)
    requires p <= r && q <= r
    ensures p <= q || q <= p
  {
    if |p| <= |q| { assert p == r[..|p|] == q[..|p|]; } else { assert q == r[..|q|] == p[..|q|]; }
  }

  // ----- Steps that only take away -----------------------------------------------------

  /** Dropping any subtree of any workspace. */
  lemma DropKeepsSoundAt(st: State, own: Uuid, s: string, ws: Uuid, q: seq<string>, i: nat)
    requires own in st.files && SoundAt(st, ws, q, i)
    ensures SoundAt(DropSubtree(st, own, s), ws, q, i)
  {
    var st' := DropSubtree(st, own, s);
    if WatchedAt(st, ws, q, i) {
      if own == ws && Under(Join(q), s) {
        forall wd | wd in st'.watches && st'.watches[wd].ws == ws ensures !Under(st'.watches[wd].relDir, Join(q)) {
          if Under(st'.watches[wd].relDir, Join(q)) { UnderTrans(st'.watches[wd].relDir, Join(q), s); }
        }
      } else {
        StaysWatched(st, own, ws, s, q, i);
      }
    }
  }

  lemma DropKeepsPlace(st: State, own: Uuid, s: string, ws: Uuid, d: Node, i: nat)
    requires own in st.files && Listed(DropSubtree(st, own, s), ws, i)
    ensures Listed(st, ws, i) && (InPlace(st, ws, d, i) ==> InPlace(DropSubtree(st, own, s), ws, d, i))
  {
    var st' := DropSubtree(st, own, s);
    DropEndsClean(st, own, s, i);
    if InPlace(st, ws, d, i) {
      var q :| See(d, q) == SawDir(i) && WatchedAt(st, ws, q, i);
      assert WatchedAt(st', ws, q, i);
    }
  }

  /** An inode's watch goes on, or it ends and its descriptor is forgotten. */
  predicate WatchEndsClean(st: State, st': State, i: nat) {
    if WdOf(st', i) == WdOf(st, i) then i in st.live <==> i in st'.live else i !in st'.live && WdOf(st, i) !in st'.watches
  }

  lemma DropEndsClean(st: State, own: Uuid, s: string, i: nat)
    requires own in st.files
    ensures WatchEndsClean(st, DropSubtree(st, own, s), i)
  {
  }

  lemma DropKeepsSound(st: State, own: Uuid, s: string, ws: Uuid, d: Node)
    requires own in st.files && Sound(st, ws, d)
    ensures Sound(DropSubtree(st, own, s), ws, d)
  {
    var st' := DropSubtree(st, own, s);
    forall q | See(d, q).SawDir? ensures SoundAt(st', ws, q, See(d, q).ino) {
      DropKeepsSoundAt(st, own, s, ws, q, See(d, q).ino);
    }
    forall i | Listed(st', ws, i) ensures InPlace(st', ws, d, i) { DropKeepsPlace(st, own, s, ws, d, i); }
  }

  /** The four events that make the engine drop a subtree. */
  predicate IsDrop(e: Event) {
    e.kind == DeleteSelf || e.kind == MoveSelf || (e.isDir && (e.kind == Delete || e.kind == MovedFrom))
  }

  /** The subtree the event names. */
  function DropPath(st: State, e: Event): string
    requires e.wd in st.watches
  {
    if e.kind == Delete || e.kind == MovedFrom then Child(st.watches[e.wd].relDir, e.name) else st.watches[e.wd].relDir
  }

  lemma DropEvent(st: State, e: Event, st': State)
    requires Handled(st, e, st') && IsDrop(e)
    ensures st' == st || (e.wd in st.watches && st.watches[e.wd].ws in st.files
                          && st' == DropSubtree(st, st.watches[e.wd].ws, DropPath(st, e)))
  {
  }

  lemma DropEventKeepsSound(st: State, e: Event, st': State, ws: Uuid, d: Node)
    requires Handled(st, e, st') && IsDrop(e) && Sound(st, ws, d)
    ensures Sound(st', ws, d)
  {
    hide Sound, Handled;
    DropEvent(st, e, st');
    if st' != st { DropKeepsSound(st, st.watches[e.wd].ws, DropPath(st, e), ws, d); }
  }

  /** IGNORED of a descriptor that belongs to no directory of the tree. */
  lemma IgnoredKeepsSound(st: State, e: Event, st': State, ws: Uuid, d: Node)
    requires Handled(st, e, st') && e.kind == Ignored && Sound(st, ws, d)
    requires forall q | See(d, q).SawDir? :: See(d, q).ino != e.wd.ino
    ensures Sound(st', ws, d)
  {
    forall q | See(d, q).SawDir? ensures SoundAt(st', ws, q, See(d, q).ino) {
      assert SoundAt(st, ws, q, See(d, q).ino);
    }
    forall i | Listed(st', ws, i) ensures InPlace(st', ws, d, i) {
      assert Listed(st, ws, i);
      var q :| See(d, q) == SawDir(i) && WatchedAt(st, ws, q, i);
      assert WatchedAt(st', ws, q, i);
    }
  }

  /** An empty directory leaves the tree, and the kernel ends its watch. */
  lemma UnwatchKeepsSound(st: State, ws: Uuid, a: Node, b: Node, p: seq<string>)
    requires Sound(st, ws, a) && See(a, p).SawDir? && Cut(a, b, p) && forall q | p < q :: See(a, q).Nothing?
    requires forall q | See(a, q) == See(a, p) :: q == p
    ensures Sound(Unwatch(st, See(a, p).ino), ws, b)
  {
    var i := See(a, p).ino;
    var st' := Unwatch(st, i);
    forall q | See(b, q).SawDir? ensures SoundAt(st', ws, q, See(b, q).ino) {
      assert See(b, q) == if p <= q then Nothing else See(a, q);
      assert SoundAt(st, ws, q, See(a, q).ino) && p <= p;
    }
    forall j | Listed(st', ws, j) ensures InPlace(st', ws, b, j) {
      assert j != i && Listed(st, ws, j);
      var q :| See(a, q) == SawDir(j) && WatchedAt(st, ws, q, j);
      PrefixCases(p, q);
      assert See(b, q) == if p <= q then Nothing else See(a, q);
      assert WatchedAt(st', ws, q, j);
    }
  }

  /** The subtree at `p` leaves the tree, nothing being recorded at or under it. */
  lemma CutKeepsSound(st: State, ws: Uuid, a: Node, b: Node, p: seq<string>)
    requires Sound(st, ws, a) && Cut(a, b, p) && ValidNames(p) && NoEntries(st, ws, p)
    ensures Sound(st, ws, b)
  {
    forall q | See(b, q).SawDir? ensures SoundAt(st, ws, q, See(b, q).ino) {
      assert See(b, q) == if p <= q then Nothing else See(a, q);
      assert SoundAt(st, ws, q, See(a, q).ino);
    }
    forall i | Listed(st, ws, i) ensures InPlace(st, ws, b, i) {
      var q :| See(a, q) == SawDir(i) && WatchedAt(st, ws, q, i);
      SeenNames(a, q);
      UnderPath(p, q);
      assert See(b, q) == if p <= q then Nothing else See(a, q);
    }
  }

  lemma SameDirsKeepSound(st: State, ws: Uuid, a: Node, b: Node)
    requires Sound(st, ws, a) && forall q | See(a, q).SawDir? || See(b, q).SawDir? :: See(a, q) == See(b, q)
    ensures Sound(st, ws, b)
  {
    forall q | See(b, q).SawDir? ensures SoundAt(st, ws, q, See(b, q).ino) {
      assert See(a, q).SawDir?;
    }
    forall i | Listed(st, ws, i) ensures InPlace(st, ws, b, i) {
      var q :| See(a, q) == SawDir(i) && WatchedAt(st, ws, q, i);
      assert See(b, q) == SawDir(i);
    }
  }

  predicate SameTable(st: State, st': State) {
    st'.watches == st.watches && st'.live == st.live && st'.gens == st.gens
  }

  lemma SameTableIsSound(st: State, st': State, ws: Uuid, d: Node)
    requires Sound(st, ws, d) && SameTable(st, st')
    ensures Sound(st', ws, d)
  {
    forall q | See(d, q).SawDir? ensures SoundAt(st', ws, q, See(d, q).ino) {
      assert SoundAt(st, ws, q, See(d, q).ino);
    }
    forall i | Listed(st', ws, i) ensures InPlace(st', ws, d, i) {
      assert Listed(st, ws, i);
      var q :| See(d, q) == SawDir(i) && WatchedAt(st, ws, q, i);
      assert WatchedAt(st', ws, q, i);
    }
  }

  // ----- A subtree armed ------------------------------------------------------------------

  lemma TouchedPlace(st: State, st': State, ws: Uuid, p: seq<string>, skip: set<string>, wd: Wd) returns (r: seq<string>)
    requires Armed(st, st', ws, p, skip) && Touched(st, ws, p, skip, wd)
    ensures p <= r && ValidNames(r) && See(TreeOf(st, ws), r) == SawDir(wd.ino)
    ensures wd in st'.watches && st'.watches[wd] == WatchEntry(ws, Join(r)) && WatchedAt(st', ws, r, wd.ino)
  {
    r :| Scanned(st, ws, p, skip, r) && wd == WdOf(st, See(TreeOf(st, ws), r).ino);
    assert WatchedAt(st', ws, r, See(TreeOf(st, ws), r).ino);
    SeenNames(TreeOf(st, ws), r);
  }

  /** A watch listed by arming is in its place. */
  lemma NewlyListed(st: State, st': State, ws: Uuid, p: seq<string>, skip: set<string>, i: nat)
    requires Armed(st, st', ws, p, skip) && Listed(st', ws, i) && !Listed(st, ws, i)
    ensures InPlace(st', ws, TreeOf(st, ws), i)
  {
    assert Touched(st, ws, p, skip, WdOf(st, i));
    var r := TouchedPlace(st, st', ws, p, skip, WdOf(st, i));
  }

  /** A directory beside the armed subtree, or above it and watched. */
  lemma ArmingKeepsSoundAt(st: State, st': State, ws: Uuid, p: seq<string>, q: seq<string>)
    requires ws in st.disks && Armed(st, st', ws, p, {}) && UniqueInos(st.disks) && ValidNames(p)
    requires See(st.disks[ws], q).SawDir? && SoundAt(st, ws, q, See(st.disks[ws], q).ino) && !(p <= q)
    requires q <= p ==> WatchedAt(st, ws, q, See(st.disks[ws], q).ino)
    ensures SoundAt(st', ws, q, See(st.disks[ws], q).ino)
  {
    if WatchedAt(st, ws, q, See(st.disks[ws], q).ino) {
      ArmedSpec(st, st', ws, p, {}, ws, q);
    } else {
      SeenNames(st.disks[ws], q);
      forall wd | wd in st'.watches && st'.watches[wd].ws == ws ensures !Under(st'.watches[wd].relDir, Join(q)) {
        if Touched(st, ws, p, {}, wd) {
          var r := TouchedPlace(st, st', ws, p, {}, wd);
          UnderPath(q, r);
          if q <= r { ComparePrefixes(p, q, r); }
        }
      }
    }
  }

  /** Arming the subtree at `p`, whose parent is watched. */
  lemma ArmingKeepsSound(st: State, st': State, ws: Uuid, b: Node, p: seq<string>)
    requires ws in st.disks && Armed(st, st', ws, p, {}) && UniqueInos(st.disks) && p != [] && ValidNames(p)
    requires Sound(st, ws, b) && Cut(st.disks[ws], b, p)
    requires See(b, DirName(p)).SawDir? && WatchedAt(st, ws, DirName(p), See(b, DirName(p)).ino)
    ensures Sound(st', ws, st.disks[ws])
  {
    var d := st.disks[ws];
    forall q | See(d, q).SawDir? ensures SoundAt(st', ws, q, See(d, q).ino) {
      if p <= q {
        assert Scanned(st, ws, p, {}, q);
      } else {
        assert See(b, q) == if p <= q then Nothing else See(d, q);
        assert SoundAt(st, ws, q, See(b, q).ino);
        if q <= p {
          assert q <= DirName(p);
          AncestorIsWatched(st, ws, b, q, DirName(p));
        }
        ArmingKeepsSoundAt(st, st', ws, p, q);
      }
    }
    forall i | Listed(st', ws, i) ensures InPlace(st', ws, d, i) {
      if Listed(st, ws, i) { ArmingKeepsPlace(st, st', ws, b, p, i); } else { NewlyListed(st, st', ws, p, {}, i); }
    }
  }

  lemma ArmingKeepsPlace(st: State, st': State, ws: Uuid, b: Node, p: seq<string>, i: nat)
    requires ws in st.disks && Armed(st, st', ws, p, {}) && UniqueInos(st.disks)
    requires Cut(st.disks[ws], b, p) && InPlace(st, ws, b, i)
    ensures InPlace(st', ws, st.disks[ws], i)
  {
    var q :| See(b, q) == SawDir(i) && WatchedAt(st, ws, q, i);
    assert See(b, q) == if p <= q then Nothing else See(st.disks[ws], q);
    ArmedSpec(st, st', ws, p, {}, ws, q);
  }

  /** Arming a subtree of another workspace. */
  lemma ForeignArmingKeepsSound(st: State, st': State, own: Uuid, p: seq<string>, ws: Uuid, b: Node)
    requires ws in st.disks && Armed(st, st', own, p, {}) && UniqueInos(st.disks) && own != ws
    requires Sound(st, ws, b) && forall q | See(b, q).SawDir? :: See(st.disks[ws], q) == See(b, q)
    ensures Sound(st', ws, b)
  {
    forall q | See(b, q).SawDir? ensures SoundAt(st', ws, q, See(b, q).ino) {
      assert SoundAt(st, ws, q, See(b, q).ino);
      ArmedSpec(st, st', own, p, {}, ws, q);
      if NoEntries(st, ws, q) {
        forall wd | wd in st'.watches && st'.watches[wd].ws == ws ensures !Under(st'.watches[wd].relDir, Join(q)) {
          if Touched(st, own, p, {}, wd) { var r := TouchedPlace(st, st', own, p, {}, wd); }
        }
      }
    }
    forall i | Listed(st', ws, i) ensures InPlace(st', ws, b, i) {
      assert Listed(st, ws, i) by {
        if Touched(st, own, p, {}, WdOf(st, i)) { var r := TouchedPlace(st, st', own, p, {}, WdOf(st, i)); }
      }
      var q :| See(b, q) == SawDir(i) && WatchedAt(st, ws, q, i);
      ArmedSpec(st, st', own, p, {}, ws, q);
    }
  }

  /** Nothing is recorded at `p` or below, so whatever sits there now is sound. */
  lemma GraftKeepsSound(st: State, ws: Uuid, b: Node, d: Node, p: seq<string>)
    requires p != [] && ValidNames(p) && Sound(st, ws, b) && Cut(d, b, p) && NoEntries(st, ws, p)
    ensures Sound(st, ws, d)
  {
    forall q | See(d, q).SawDir? ensures SoundAt(st, ws, q, See(d, q).ino) {
      SeenNames(d, q);
      assert See(b, q) == if p <= q then Nothing else See(d, q);
      if p <= q { NoEntriesBelow(st, ws, p, q); } else { assert SoundAt(st, ws, q, See(b, q).ino); }
    }
    forall i | Listed(st, ws, i) ensures InPlace(st, ws, d, i) {
      var q :| See(b, q) == SawDir(i) && WatchedAt(st, ws, q, i);
      assert See(b, q) == if p <= q then Nothing else See(d, q);
    }
  }

  // ----- Events of the operations ------------------------------------------------------------

  /** Events about regular files leave the table alone. */
  lemma {:induction false} FileEventsKeepTable(st0: State, hs: seq<State>, es: seq<Event>, i: nat)
    requires HeardRun(st0, hs, es) && i <= |es|
    requires forall e | e in es :: !e.isDir && (FileAppears(e.kind) || e.kind == Delete || e.kind == MovedFrom)
    ensures SameTable(hs[0], hs[i])
  {
    if i > 0 {
      FileEventsKeepTable(st0, hs, es, i - 1);
      assert es[i - 1] in es && HeardStep(st0, hs[i - 1], es[i - 1], hs[i]);
    }
  }

  /** Events that drop subtrees, and IGNORED of an inode that left the tree. */
  lemma {:induction false} DropEventsKeepSound(st0: State, hs: seq<State>, es: seq<Event>, i: nat, ws: Uuid, d: Node)
    requires HeardRun(st0, hs, es) && i <= |es| && Sound(hs[0], ws, d)
    requires forall e | e in es :: IsDrop(e) || (e.kind == Ignored && forall q | See(d, q).SawDir? :: See(d, q).ino != e.wd.ino)
    ensures Sound(hs[i], ws, d)
  {
    hide Sound, Handled;
    if i > 0 {
      DropEventsKeepSound(st0, hs, es, i - 1, ws, d);
      var e := es[i - 1];
      assert e in es && HeardStep(st0, hs[i - 1], e, hs[i]);
      if IsLive(st0, e.wd) {
        if IsDrop(e) { DropEventKeepsSound(hs[i - 1], e, hs[i], ws, d); } else { IgnoredKeepsSound(hs[i - 1], e, hs[i], ws, d); }
      }
    }
  }

  lemma ParentKnown(st: State, ws: Uuid, p: seq<string>, i: nat)
    requires p != [] && ValidNames(p) && WatchedAt(st, ws, DirName(p), i)
    ensures st.watches[WdOf(st, i)] == WatchEntry(ws, Join(DirName(p))) && Child(Join(DirName(p)), BaseName(p)) == Join(p)
    ensures DirPath(Join(p)) == p
  {
    assert p == DirName(p) + [BaseName(p)];
    JoinSnoc(DirName(p), BaseName(p));
    EmptyIsRoot(p);
    SplitPlace(p);
  }

  /** MOVED_FROM of the directory at `p`, heard or not, leaves nothing recorded there. */
  lemma MovedFromClears(st: State, st0: State, e: Event, st1: State, ws: Uuid, b: Node, p: seq<string>)
    requires ws in st0.files && Sound(st0, ws, b) && p != [] && ValidNames(p) && See(b, DirName(p)).SawDir?
    requires e == ParentEvent(st, b, p, MovedFrom, true) && HeardStep(st, st0, e, st1)
    requires WdOf(st0, e.wd.ino) == e.wd && (e.wd.ino in st0.live ==> IsLive(st, e.wd))
    ensures Sound(st1, ws, b) && NoEntries(st1, ws, p) && st1.disks == st0.disks && ws in st1.files
    ensures forall j :: WatchEndsClean(st0, st1, j)
  {
    var i := See(b, DirName(p)).ino;
    assert SoundAt(st0, ws, DirName(p), i);
    if WatchedAt(st0, ws, DirName(p), i) {
      ParentKnown(st0, ws, p, i);
    } else {
      SeenNames(b, DirName(p));
      NoEntriesBelow(st0, ws, DirName(p), p);
    }
    if IsLive(st, e.wd) {
      DropEventKeepsSound(st0, e, st1, ws, b);
      DropEvent(st0, e, st1);
      if st1 != st0 {
        forall j ensures WatchEndsClean(st0, st1, j) { DropEndsClean(st0, st0.watches[e.wd].ws, DropPath(st0, e), j); }
      }
    }
  }

  /** CREATE or MOVED_TO of a directory arms the subtree the entry names. */
  lemma PlacedIsArmed(st: State, e: Event, st': State)
    requires Handled(st, e, st') && e.isDir && (e.kind == Create || e.kind == MovedTo)
    ensures st'.disks == st.disks
    ensures st' == st || (e.wd in st.watches
              && Armed(st, st', st.watches[e.wd].ws, DirPath(Child(st.watches[e.wd].relDir, e.name)), {}))
    ensures e.wd in st.watches && st.watches[e.wd].ws in st.files ==>
              Armed(st, st', st.watches[e.wd].ws, DirPath(Child(st.watches[e.wd].relDir, e.name)), {})
  {
    hide Armed, Absorbed, ReconciledAll, DropSubtree, Under, DirPath;
  }

  /** A directory placed at `p`, heard or not. */
  lemma PlacedKeepsSound(st: State, st1: State, e: Event, st2: State, ws: Uuid, b: Node, p: seq<string>)
    requires ws in st1.files && ws in st1.disks && UniqueInos(st1.disks) && p != [] && ValidNames(p)
    requires Sound(st1, ws, b) && Cut(st1.disks[ws], b, p) && See(b, DirName(p)).SawDir?
    requires (e.kind == Create || e.kind == MovedTo) && e == ParentEvent(st, b, p, e.kind, true) && HeardStep(st, st1, e, st2)
    requires WatchEndsClean(st, st1, e.wd.ino)
    ensures Sound(st2, ws, st1.disks[ws]) && st2.disks == st1.disks
  {
    var d, i := st1.disks[ws], See(b, DirName(p)).ino;
    assert SoundAt(st1, ws, DirName(p), i);
    if IsLive(st, e.wd) { PlacedIsArmed(st1, e, st2); }
    if WatchedAt(st1, ws, DirName(p), i) {
      ParentKnown(st1, ws, p, i);
      ArmingKeepsSound(st1, st2, ws, b, p);
    } else {
      assert st2 != st1 ==> st1.watches[e.wd].ws != ws by {
        if st2 != st1 && st1.watches[e.wd].ws == ws { ListedIsWatched(st1, ws, b, DirName(p), p); }
      }
      PlacedBeside(st1, st2, e, ws, b, p);
    }
  }

  lemma ListedIsWatched(st: State, ws: Uuid, b: Node, q: seq<string>, p: seq<string>)
    requires ws in st.disks && UniqueInos(st.disks) && Sound(st, ws, b) && Cut(st.disks[ws], b, p)
    requires See(b, q).SawDir? && Listed(st, ws, See(b, q).ino)
    ensures WatchedAt(st, ws, q, See(b, q).ino)
  {
    var d, i := st.disks[ws], See(b, q).ino;
    assert InPlace(st, ws, b, i);
    var r :| See(b, r) == SawDir(i) && WatchedAt(st, ws, r, i);
    assert See(b, q) == if p <= q then Nothing else See(d, q);
    assert See(b, r) == if p <= r then Nothing else See(d, r);
    assert q == r;
  }

  /** Nothing was recorded around `p`, and arming elsewhere does not change that. */
  lemma PlacedBeside(st: State, st': State, e: Event, ws: Uuid, b: Node, p: seq<string>)
    requires ws in st.disks && UniqueInos(st.disks) && p != [] && ValidNames(p)
    requires Sound(st, ws, b) && Cut(st.disks[ws], b, p) && See(b, DirName(p)).SawDir?
    requires !WatchedAt(st, ws, DirName(p), See(b, DirName(p)).ino)
    requires st' == st || (e.wd in st.watches && st.watches[e.wd].ws != ws
               && Armed(st, st', st.watches[e.wd].ws, DirPath(Child(st.watches[e.wd].relDir, e.name)), {}))
    ensures Sound(st', ws, st.disks[ws])
  {
    var d, i := st.disks[ws], See(b, DirName(p)).ino;
    forall q | See(b, q).SawDir? ensures See(d, q) == See(b, q) { assert See(b, q) == if p <= q then Nothing else See(d, q); }
    if st' != st {
      var own, at := st.watches[e.wd].ws, DirPath(Child(st.watches[e.wd].relDir, e.name));
      ForeignArmingKeepsSound(st, st', own, at, ws, b);
      ArmedSpec(st, st', own, at, {}, ws, DirName(p));
    }
    assert SoundAt(st', ws, DirName(p), i);
    SeenNames(b, DirName(p));
    NoEntriesBelow(st', ws, DirName(p), p);
    GraftKeepsSound(st', ws, b, d, p);
  }

  // ----- Whole operations ----------------------------------------------------------------------

  /** A directory created or moved in. */
  lemma PlaceDirKeepsSound(st: State, st0: State, e: Event, st1: State, ws: Uuid, p: seq<string>, n: Node)
    requires Known(st, ws) && Sound(st, ws, st.disks[ws]) && UniqueInos(st0.disks)
    requires p != [] && ValidNames(p) && See(st.disks[ws], DirName(p)).SawDir? && See(st.disks[ws], p).Nothing?
    requires st0 == st.(disks := st.disks[ws := Put(st.disks[ws], p, n)])
    requires (e.kind == Create || e.kind == MovedTo) && e == ParentEvent(st, st.disks[ws], p, e.kind, true)
    requires HeardStep(st, st0, e, st1)
    ensures Sound(st1, ws, st0.disks[ws])
  {
    var a, d := st.disks[ws], st0.disks[ws];
    PutGrafts(a, p, n);
    NothingBelow(a, p);
    forall q ensures See(a, q) == if p <= q then Nothing else See(d, q) { assert See(d, q) == GraftSeen(a, p, n, q); }
    SameTableIsSound(st, st0, ws, a);
    PlacedKeepsSound(st, st0, e, st1, ws, a, p);
  }

  /** A directory moved out of the workspace. */
  lemma MoveOutKeepsSound(st: State, hs: seq<State>, ws: Uuid, p: seq<string>, self: bool)
    requires Known(st, ws) && Sound(st, ws, st.disks[ws])
    requires p != [] && ValidNames(p) && See(st.disks[ws], DirName(p)).SawDir? && See(st.disks[ws], p).SawDir?
    requires HeardRun(st, hs, MoveOutEvents(st, st.disks[ws], p, self)) && SameTable(st, hs[0]) && hs[0].files == st.files
    ensures Sound(hs[|hs| - 1], ws, Remove(st.disks[ws], p))
  {
    var a, es := st.disks[ws], MoveOutEvents(st, st.disks[ws], p, self);
    SameTableIsSound(st, hs[0], ws, a);
    assert HeardStep(st, hs[0], es[0], hs[1]);
    MovedFromClears(st, hs[0], es[0], hs[1], ws, a, p);
    RemoveCuts(a, p);
    CutKeepsSound(hs[1], ws, a, Remove(a, p), p);
    HeardDrop(st, hs, es, 1);
    DropEventsKeepSound(st, hs[1..], es[1..], |es| - 1, ws, Remove(a, p));
  }

  /** An empty directory removed. */
  lemma RmdirKeepsSound(st: State, hs: seq<State>, es: seq<Event>, ws: Uuid, p: seq<string>)
    requires Known(st, ws) && Sound(st, ws, st.disks[ws]) && UniqueInos(st.disks)
    requires p != [] && ValidNames(p) && See(st.disks[ws], DirName(p)).SawDir? && See(st.disks[ws], p).SawDir?
    requires forall q | p < q :: See(st.disks[ws], q).Nothing?
    requires HeardRun(st, hs, es) && SameTable(Unwatch(st, See(st.disks[ws], p).ino), hs[0])
    requires forall e | e in es ::
      RmdirEvent(e, ParentEvent(st, st.disks[ws], p, Delete, true), WdOf(st, See(st.disks[ws], p).ino))
    ensures Sound(hs[|es|], ws, Remove(st.disks[ws], p))
  {
    var a, b, i := st.disks[ws], Remove(st.disks[ws], p), See(st.disks[ws], p).ino;
    RemoveCuts(a, p);
    forall q | See(b, q).SawDir? ensures See(b, q).ino != i {
      assert See(b, q) == if p <= q then Nothing else See(a, q);
      assert p <= p;
    }
    UnwatchKeepsSound(st, ws, a, b, p);
    SameTableIsSound(Unwatch(st, i), hs[0], ws, b);
    DropEventsKeepSound(st, hs, es, |es|, ws, b);
  }

  /** Where the directories of the renamed tree were. */
  lemma RenamedDirs(a: Node, p: seq<string>, q: seq<string>, r: seq<string>)
    requires p != [] && q != [] && ValidNames(p) && ValidNames(q) && !(p <= q) && !(q <= p)
    requires See(a, DirName(p)).SawDir? && See(a, DirName(q)).SawDir? && See(a, p).SawDir?
    ensures See(RenamedTree(a, p, q), r) ==
              if q <= r then See(a, p + r[|q|..]) else if p <= r then Nothing else See(a, r)
  {
    SeeAfterRemove(a, p, DirName(q));
    SeeAfterRemove(a, p, r);
    SeeAfterPut(Remove(a, p), q, Lookup(a, p).value, r);
    if q <= r { LookupAppend(a, p, r[|q|..]); }
  }

  /** The kernel unwatched the replaced directory, if there was one. */
  lemma TargetUnwatched(st: State, ws: Uuid, p: seq<string>, q: seq<string>)
    requires Known(st, ws) && Sound(st, ws, st.disks[ws]) && CanRename(st, ws, p, q) && UniqueInos(st.disks)
    requires forall r | q < r :: See(st.disks[ws], r).Nothing?
    ensures Sound(Renamed(st, ws, p, q), ws, Remove(st.disks[ws], q))
  {
    var a, b := st.disks[ws], Remove(st.disks[ws], q);
    RemoveCuts(a, q);
    if See(a, q).SawDir? {
      UnwatchKeepsSound(st, ws, a, b, q);
      SameTableIsSound(Unwatch(st, See(a, q).ino), Renamed(st, ws, p, q), ws, b);
    } else {
      forall r ensures See(a, r) == See(b, r) {
        PrefixCases(q, r);
        assert See(b, r) == if q <= r then Nothing else See(a, r);
      }
      SameDirsKeepSound(st, ws, a, b);
      SameTableIsSound(st, Renamed(st, ws, p, q), ws, b);
    }
  }

  /** A directory other than the target is watched after the rename as before it. */
  lemma RenamedWd(st: State, ws: Uuid, p: seq<string>, q: seq<string>, r: seq<string>)
    requires CanRename(st, ws, p, q) && UniqueInos(st.disks) && See(st.disks[ws], r).SawDir? && r != q
    ensures var i := See(st.disks[ws], r).ino;
            WdOf(Renamed(st, ws, p, q), i) == WdOf(st, i) && (i in Renamed(st, ws, p, q).live <==> i in st.live)
  {
  }

  /** The old tree without the old place and without the target is the new tree without the target. */
  lemma RenameCuts(a: Node, b: Node, c: Node, p: seq<string>, q: seq<string>)
    requires p != [] && q != [] && ValidNames(p) && ValidNames(q) && !(p <= q) && !(q <= p)
    requires See(a, DirName(p)).SawDir? && See(a, DirName(q)).SawDir? && See(a, p).SawDir?
    requires Cut(a, b, q) && Cut(b, c, p)
    ensures Cut(RenamedTree(a, p, q), c, q)
    ensures See(b, DirName(p)) == See(a, DirName(p)) && See(c, DirName(q)) == See(a, DirName(q))
  {
    assert !(q <= DirName(p)) && !(q <= DirName(q)) && !(p <= DirName(q));
    forall r ensures See(c, r) == if q <= r then Nothing else See(RenamedTree(a, p, q), r) {
      RenamedDirs(a, p, q, r);
      assert See(b, r) == if q <= r then Nothing else See(a, r);
      assert See(c, r) == if p <= r then Nothing else See(b, r);
    }
  }

  /** `b`: the old tree without the target; `c`: the moved directory taken out of it too. */
  lemma RenameStart(st: State, ws: Uuid, p: seq<string>, q: seq<string>) returns (b: Node, c: Node)
    requires Known(st, ws) && Sound(st, ws, st.disks[ws]) && CanRename(st, ws, p, q) && UniqueInos(st.disks)
    requires forall r | q < r :: See(st.disks[ws], r).Nothing?
    ensures Sound(Renamed(st, ws, p, q), ws, b) && Cut(b, c, p) && Cut(RenamedTree(st.disks[ws], p, q), c, q)
    ensures See(b, DirName(p)) == See(st.disks[ws], DirName(p)) && See(c, DirName(q)) == See(st.disks[ws], DirName(q))
    ensures Renamed(st, ws, p, q).files == st.files && Renamed(st, ws, p, q).disks == st.disks[ws := RenamedTree(st.disks[ws], p, q)]
  {
    var a := st.disks[ws];
    b := Remove(a, q);
    RemoveCuts(a, q);
    assert See(b, DirName(p)) == See(a, DirName(p)) by { assert !(q <= DirName(p)); }
    c := Remove(b, p);
    RemoveCuts(b, p);
    RenameCuts(a, b, c, p, q);
    TargetUnwatched(st, ws, p, q);
  }

  lemma RenameHalvesKeepSound(st: State, st0: State, st1: State, st2: State, ws: Uuid, p: seq<string>, q: seq<string>)
    requires Known(st, ws) && Sound(st, ws, st.disks[ws]) && CanRename(st, ws, p, q) && UniqueInos(st.disks)
    requires forall r | q < r :: See(st.disks[ws], r).Nothing?
    requires st0 == Renamed(st, ws, p, q) && UniqueInos(st0.disks)
    requires HeardStep(st, st0, ParentEvent(st, st.disks[ws], p, MovedFrom, true), st1)
    requires HeardStep(st, st1, ParentEvent(st, st.disks[ws], q, MovedTo, true), st2)
    ensures Sound(st2, ws, RenamedTree(st.disks[ws], p, q))
  {
    hide Renamed, HeardStep, Sound, UniqueInos, RenamedTree, Cut, NoEntries;
    var a := st.disks[ws];
    var b, c := RenameStart(st, ws, p, q);
    RenamedWd(st, ws, p, q, DirName(p));
    RenamedWd(st, ws, p, q, DirName(q));
    MovedFromClears(st, st0, ParentEvent(st, a, p, MovedFrom, true), st1, ws, b, p);
    CutKeepsSound(st1, ws, b, c, p);
    assert WatchEndsClean(st0, st1, See(a, DirName(q)).ino);
    PlacedKeepsSound(st, st1, ParentEvent(st, a, q, MovedTo, true), st2, ws, c, q);
  }

  lemma TargetLeft(st: State, ws: Uuid, p: seq<string>, q: seq<string>)
    requires CanRename(st, ws, p, q) && UniqueInos(st.disks)
    ensures See(st.disks[ws], q).SawDir? ==>
              forall r | See(RenamedTree(st.disks[ws], p, q), r).SawDir? ::
                See(RenamedTree(st.disks[ws], p, q), r).ino != See(st.disks[ws], q).ino
  {
    var a, d := st.disks[ws], RenamedTree(st.disks[ws], p, q);
    forall r | See(d, r).SawDir? && See(a, q).SawDir? ensures See(d, r).ino != See(a, q).ino {
      RenamedDirs(a, p, q, r);
      if q <= r { assert p <= p + r[|q|..]; } else { assert q <= q; }
    }
  }

  /** A directory renamed, over an empty one or not. */
  lemma RenameKeepsSound(st: State, hs: seq<State>, ws: Uuid, p: seq<string>, q: seq<string>, self: bool)
    requires Known(st, ws) && Sound(st, ws, st.disks[ws]) && CanRename(st, ws, p, q) && UniqueInos(st.disks)
    requires forall r | q < r :: See(st.disks[ws], r).Nothing?
    requires HeardRun(st, hs, RenameEvents(st, ws, p, q, self)) && hs[0] == Renamed(st, ws, p, q) && UniqueInos(hs[0].disks)
    ensures Sound(hs[|hs| - 1], ws, RenamedTree(st.disks[ws], p, q))
  {
    var a, d, es := st.disks[ws], RenamedTree(st.disks[ws], p, q), RenameEvents(st, ws, p, q, self);
    hide Renamed, HeardStep, Sound, RenameEvents, UniqueInos, Handled;
    RenameEventList(st, ws, p, q, self);
    assert HeardStep(st, hs[0], es[0], hs[1]) && HeardStep(st, hs[1], es[1], hs[2]);
    RenameHalvesKeepSound(st, hs[0], hs[1], hs[2], ws, p, q);
    HeardDrop(st, hs, es, 2);
    forall e | e in es[2..] ensures IsDrop(e) || (e.kind == Ignored && forall r | See(d, r).SawDir? :: See(d, r).ino != e.wd.ino) {
      TargetLeft(st, ws, p, q);
    }
    DropEventsKeepSound(st, hs[2..], es[2..], |es| - 2, ws, d);
  }
}
