/** The write-back engine itself: the recursive scan, the loops over watches and
    files, and the event dispatch, each proved against the relations of `WriteBack`. */
module WriteBackEngine {
  import opened Wrappers
  import opened Paths
  import opened Disk
  import opened ShadowStore
  import opened WriteBack
  import opened Mirroring

  // ----- Scanning -----------------------------------------------------------

  /** The content a scan of `n`, sitting at `at`, finds for path `s`. */
  function Found(n: Node, at: seq<string>, s: string): Option<Bytes> {
    if at <= Split(s) && See(n, Split(s)[|at|..]).SawFile? then Some(See(n, Split(s)[|at|..]).content) else None
  }

  /** `d` names a directory strictly below `n`. */
  predicate FoundDir(n: Node, at: seq<string>, d: string) {
    at < DirPath(d) && See(n, DirPath(d)[|at|..]).SawDir?
  }

  /** The first component of `q` below `at` is one of `names`. */
  predicate Among(at: seq<string>, names: set<string>, q: seq<string>) {
    at < q && q[|at|] in names
  }

  /** The scan result for `s` once the entries in `names` are done. */
  function FoundIn(n: Node, at: seq<string>, names: set<string>, files: map<string, Bytes>, s: string): Option<Bytes> {
    if Among(at, names, Split(s)) && Found(n, at, s).Some? then Found(n, at, s) else Get(files, s)
  }

  /** Looking below `n` through its entry `name`. */
  lemma ThroughEntry(n: Node, at: seq<string>, name: string, q: seq<string>)
    requires n.Dir? && name in Names(n) && at < q && q[|at|] == name
    ensures at + [name] <= q
    ensures See(n, q[|at|..]) == See(n.entries[name], q[|at + [name]|..])
  {
    assert q[..|at| + 1] == at + [name];
    assert q[|at|..][1..] == q[|at| + 1..];
  }

  lemma JoinDirPath(d: string)
    ensures Join(DirPath(d)) == d
  {
    if d != "" { JoinSplit(d); }
  }

  lemma EntryFiles(n: Node, at: seq<string>, name: string, s: string)
    requires n.Dir? && name in Names(n)
    ensures Among(at, {name}, Split(s)) ==> Found(n, at, s) == Found(n.entries[name], at + [name], s)
    ensures !Among(at, {name}, Split(s)) ==> Found(n.entries[name], at + [name], s) == None
  {
    hide See, Split;
    if Among(at, {name}, Split(s)) { ThroughEntry(n, at, name, Split(s)); }
    if at + [name] <= Split(s) { assert Split(s)[|at|] == (at + [name])[|at|] == name; }
  }

  lemma EntryDirs(n: Node, at: seq<string>, name: string, s: string)
    requires n.Dir? && name in Names(n)
    ensures Among(at, {name}, DirPath(s)) && DirPath(s) != at + [name] ==>
              (FoundDir(n, at, s) <==> FoundDir(n.entries[name], at + [name], s))
    ensures !Among(at, {name}, DirPath(s)) ==> !FoundDir(n.entries[name], at + [name], s)
  {
    hide See, DirPath;
    if at + [name] <= DirPath(s) { assert DirPath(s)[|at|] == (at + [name])[|at|] == name; }
    if Among(at, {name}, DirPath(s)) {
      ThroughEntry(n, at, name, DirPath(s));
      PrefixCases(at + [name], DirPath(s));
    }
  }

  lemma EntryItself(n: Node, at: seq<string>, name: string, s: string)
    requires n.Dir? && ValidNames(at) && name in Names(n)
    ensures DirPath(s) == at + [name] <==> s == Child(Join(at), name)
    ensures DirPath(s) == at + [name] ==> (FoundDir(n, at, s) <==> n.entries[name].Dir?)
  {
    JoinSnoc(at, name);
    JoinDirPath(s);
    ValidAppend(at, [name]);
    if s == Join(at + [name]) {
      EmptyIsRoot(at + [name]);
      SplitPlace(at + [name]);
    }
    if DirPath(s) == at + [name] {
      assert at < DirPath(s) && DirPath(s)[|at|..] == [name];
      assert Lookup(n, [name]) == Some(n.entries[name]);
    }
  }

  /** One entry: recursing into a directory or reading a file accounts for
      exactly the paths that go through it. */
  lemma EntryFound(n: Node, at: seq<string>, name: string, s: string)
    requires n.Dir? && ValidNames(at) && name in Names(n)
    ensures Among(at, {name}, Split(s)) ==> Found(n, at, s) == Found(n.entries[name], at + [name], s)
    ensures !Among(at, {name}, Split(s)) ==> Found(n.entries[name], at + [name], s) == None
    ensures Among(at, {name}, DirPath(s)) && DirPath(s) != at + [name] ==>
              (FoundDir(n, at, s) <==> FoundDir(n.entries[name], at + [name], s))
    ensures !Among(at, {name}, DirPath(s)) ==> !FoundDir(n.entries[name], at + [name], s)
    ensures DirPath(s) == at + [name] <==> s == Child(Join(at), name)
    ensures DirPath(s) == at + [name] ==> (FoundDir(n, at, s) <==> n.entries[name].Dir?)
  {
    hide Among, Found, FoundDir, DirPath, Split, Child, Join;
    EntryFiles(n, at, name, s);
    EntryDirs(n, at, name, s);
    EntryItself(n, at, name, s);
  }

  /** `scan_dir_into` with `apply_scan_entry`: entries come in no particular order. */
  method ScanDirInto(n: Node, at: seq<string>, relDir: string, files: map<string, Bytes>, dirs: seq<string>)
    returns (files': map<string, Bytes>, dirs': seq<string>)
    requires n.Dir? && ValidNames(at) && relDir == Join(at)
    ensures forall s :: Get(files', s) == if Found(n, at, s).Some? then Found(n, at, s) else Get(files, s)
    ensures forall d :: d in dirs' <==> d in dirs || FoundDir(n, at, d)
    decreases n
  {
    files', dirs' := files, dirs;
    var todo := Names(n);
    ghost var done: set<string> := {};
    while todo != {}
      invariant todo <= Names(n) && done == Names(n) - todo
      invariant forall s :: Get(files', s) == FoundIn(n, at, done, files, s)
      invariant forall d :: d in dirs' <==> d in dirs || (Among(at, done, DirPath(d)) && FoundDir(n, at, d))
      decreases todo
    {
      var name :| name in todo;
      ghost var f0, d0 := files', dirs';
      var path := Child(relDir, name);
      var child := n.entries[name];
      JoinSnoc(at, name);
      ValidAppend(at, [name]);
      match child {
        case Dir(_, _) =>
          dirs' := dirs' + [path];
          files', dirs' := ScanDirInto(child, at + [name], path, files', dirs');
        case File(content) => files' := files'[path := content];
        case Symlink =>
        case Other =>
      }
      todo, done := todo - {name}, done + {name};
      forall s ensures Get(files', s) == FoundIn(n, at, done, files, s) {
        EntryFound(n, at, name, s);
        FileEntry(child, at + [name], s);
        assert Get(f0, s) == FoundIn(n, at, done - {name}, files, s);
      }
      forall d ensures d in dirs' <==> d in dirs || (Among(at, done, DirPath(d)) && FoundDir(n, at, d)) {
        EntryFound(n, at, name, d);
        assert d in d0 <==> d in dirs || (Among(at, done - {name}, DirPath(d)) && FoundDir(n, at, d));
        LeafHasNoDirs(child, at + [name], d);
      }
    }
    forall s ensures Found(n, at, s).Some? ==> Among(at, done, Split(s)) {
      if Found(n, at, s).Some? { FoundGoesThrough(n, at, s); }
    }
    forall d ensures FoundDir(n, at, d) ==> Among(at, done, DirPath(d)) {
      if FoundDir(n, at, d) { FoundDirGoesThrough(n, at, d); }
    }
  }

  lemma FileEntry(c: Node, at: seq<string>, s: string)
    requires at != [] && ValidNames(at)
    ensures c.File? ==> Found(c, at, s) == if s == Join(at) then Some(c.content) else None
    ensures c.Symlink? || c.Other? ==> Found(c, at, s) == None
  {
    SplitPlace(at);
    JoinSplit(s);
    PrefixCases(at, Split(s));
    if at == Split(s) { assert Split(s)[|at|..] == []; }
  }

  lemma LeafHasNoDirs(c: Node, at: seq<string>, d: string)
    ensures !c.Dir? ==> !FoundDir(c, at, d)
  {
  }

  lemma FoundGoesThrough(n: Node, at: seq<string>, s: string)
    requires n.Dir? && Found(n, at, s).Some?
    ensures Among(at, Names(n), Split(s))
  {
    var q := Split(s)[|at|..];
    assert q != [];
    assert q[0] == Split(s)[|at|];
    PrefixCases(at, Split(s));
  }

  lemma FoundDirGoesThrough(n: Node, at: seq<string>, d: string)
    requires n.Dir? && FoundDir(n, at, d)
    ensures Among(at, Names(n), DirPath(d))
  {
    var q := DirPath(d)[|at|..];
    assert q != [] && q[0] == DirPath(d)[|at|];
  }

  /** `open_scan_dir_anchored`: one no-follow hop per component. */
  method OpenScanDir(root: Node, relDir: string) returns (r: Option<Node>)
    ensures r.Some? <==> See(root, DirPath(relDir)).SawDir?
    ensures r.Some? ==> Lookup(root, DirPath(relDir)) == r && r.value.Dir?
  {
    var p := DirPath(relDir);
    if !root.Dir? {
      assert p != [] ==> Lookup(root, p) == None;
      return None;
    }
    var current, i := root, 0;
    while i < |p|
      invariant 0 <= i <= |p| && current.Dir? && Lookup(root, p[..i]) == Some(current)
    {
      assert p == p[..i] + p[i..];
      LookupAppend(root, p[..i], p[i..]);
      if p[i] !in Names(current) || !current.entries[p[i]].Dir? { return None; }
      assert p[..i + 1] == p[..i] + [p[i]];
      LookupAppend(root, p[..i], [p[i]]);
      current, i := current.entries[p[i]], i + 1;
    }
    assert p[..|p|] == p;
    return Some(current);
  }

  /** Where a scan from `relDir` looks for path `s`. */
  function Visible(d: Node, at: seq<string>, s: string): Option<Bytes> {
    if at <= Split(s) && See(d, Split(s)).SawFile? then Some(See(d, Split(s)).content) else None
  }

  /** `scan_workspace_tree`: files and directories at and below `relDir`; the
      starting path itself is always listed. */
  method ScanWorkspaceTree(root: Node, relDir: string) returns (files: map<string, Bytes>, dirs: seq<string>)
    requires ValidNames(DirPath(relDir))
    ensures ScanOf(files, root, relDir)
    ensures forall d :: d in dirs <==> d == relDir || (DirPath(relDir) <= DirPath(d) && See(root, DirPath(d)).SawDir?)
  {
    files, dirs := map[], [relDir];
    var at := DirPath(relDir);
    JoinDirPath(relDir);
    var start := OpenScanDir(root, relDir);
    if start.Some? {
      var n := start.value;
      files, dirs := ScanDirInto(n, at, relDir, files, dirs);
      forall s ensures Get(files, s) == Visible(root, at, s) {
        BelowStart(root, n, at, Split(s));
      }
      forall d ensures d in dirs <==> d == relDir || (at <= DirPath(d) && See(root, DirPath(d)).SawDir?) {
        BelowStart(root, n, at, DirPath(d));
        PrefixCases(at, DirPath(d));
        JoinDirPath(d);
      }
    } else {
      forall d ensures at <= DirPath(d) ==> !See(root, DirPath(d)).SawDir? {
        PrefixCases(at, DirPath(d));
        if at < DirPath(d) && See(root, DirPath(d)) != Nothing { AncestorsAreDirs(root, at, DirPath(d)); }
      }
    }
  }

  lemma BelowStart(root: Node, n: Node, at: seq<string>, q: seq<string>)
    requires Lookup(root, at) == Some(n)
    ensures at <= q ==> See(root, q) == See(n, q[|at|..])
  {
    if at <= q {
      assert q == at + q[|at|..];
      LookupAppend(root, at, q[|at|..]);
    }
  }

  // ----- The engine ----------------------------------------------------------

  /** `wd` belongs to one of the directories in `ds`. */
  ghost predicate TouchedBy(st: State, ws: Uuid, ds: set<string>, wd: Wd) {
    exists d :: d in ds && See(TreeOf(st, ws), DirPath(d)) == SawDir(wd.ino) && wd == WdOf(st, wd.ino)
  }

  /** `Armed`, for an explicit set of directories. */
  ghost predicate ArmedOver(st: State, st': State, ws: Uuid, ds: set<string>) {
    OthersKept(st, st', ws, ds) &&
    forall d | d in ds && See(TreeOf(st, ws), DirPath(d)).SawDir? ::
      WatchedAt(st', ws, DirPath(d), See(TreeOf(st, ws), DirPath(d)).ino)
  }

  /** Nothing is lost, and nothing is changed or added but for directories in `ds`. */
  ghost predicate OthersKept(st: State, st': State, ws: Uuid, ds: set<string>) {
    && st'.gens == st.gens
    && (forall wd | wd in st'.watches :: TouchedBy(st, ws, ds, wd) || (wd in st.watches && st'.watches[wd] == st.watches[wd]))
    && (forall wd | wd in st.watches :: wd in st'.watches)
    && (forall i | i in st.live :: i in st'.live)
    && (forall i | i in st'.live :: i in st.live || TouchedBy(st, ws, ds, WdOf(st, i)))
  }

  /** The state after one more `add_single_watch`. */
  function AddWatch(st: State, ws: Uuid, d: string): State {
    match See(TreeOf(st, ws), DirPath(d))
    case SawDir(i) => st.(live := st.live + {i}, watches := st.watches[WdOf(st, i) := WatchEntry(ws, d)])
    case _ => st
  }

  function Listed(dirs: seq<string>, skip: set<string>): set<string> {
    set d | d in dirs && d !in skip
  }

  lemma ListedSnoc(dirs: seq<string>, d: string, skip: set<string>)
    ensures Listed(dirs + [d], skip) == if d in skip then Listed(dirs, skip) else Listed(dirs, skip) + {d}
  {
  }

  lemma ArmNone(st: State, ws: Uuid, dirs: seq<string>, skip: set<string>)
    ensures ArmedOver(st, st, ws, Listed(dirs[..0], skip))
  {
    assert Listed(dirs[..0], skip) == {};
  }

  /** One turn of the watch loop. */
  lemma ArmNext(st: State, mid: State, ws: Uuid, dirs: seq<string>, i: nat, skip: set<string>)
    requires i < |dirs| && ArmedOver(st, mid, ws, Listed(dirs[..i], skip)) && mid.disks == st.disks && UniqueInos(st.disks)
    ensures ArmedOver(st, if dirs[i] in skip then mid else AddWatch(mid, ws, dirs[i]), ws, Listed(dirs[..i + 1], skip))
  {
    hide ArmedOver, AddWatch, UniqueInos;
    ListedSnoc(dirs[..i], dirs[i], skip);
    assert dirs[..i] + [dirs[i]] == dirs[..i + 1];
    ArmOneMore(st, mid, ws, Listed(dirs[..i], skip), dirs[i]);
  }

  /** The directories of `ds` stay watched, and `d` is, once `d`'s watch is added. */
  lemma ArmedStays(st: State, mid: State, ws: Uuid, ds: set<string>, d: string, e: string)
    requires ArmedOver(st, mid, ws, ds) && mid.disks == st.disks && UniqueInos(st.disks)
    requires e in ds + {d} && See(TreeOf(st, ws), DirPath(e)).SawDir?
    ensures WatchedAt(AddWatch(mid, ws, d), ws, DirPath(e), See(TreeOf(st, ws), DirPath(e)).ino)
  {
    JoinDirPath(e);
    if e in ds { assert WatchedAt(mid, ws, DirPath(e), See(TreeOf(st, ws), DirPath(e)).ino); }
    if See(TreeOf(st, ws), DirPath(d)).SawDir? && e != d { DirsApart(st, ws, d, e); }
  }

  lemma AddedIsTouched(st: State, ws: Uuid, ds: set<string>, d: string)
    requires See(TreeOf(st, ws), DirPath(d)).SawDir?
    ensures TouchedBy(st, ws, ds + {d}, WdOf(st, See(TreeOf(st, ws), DirPath(d)).ino))
  {
    assert d in ds + {d};
  }

  lemma OthersStayKept(st: State, mid: State, ws: Uuid, ds: set<string>, d: string)
    requires OthersKept(st, mid, ws, ds) && mid.disks == st.disks
    ensures OthersKept(st, AddWatch(mid, ws, d), ws, ds + {d})
  {
    hide TouchedBy, DirPath, See;
    forall wd ensures TouchedBy(st, ws, ds, wd) ==> TouchedBy(st, ws, ds + {d}, wd) { TouchedGrows(st, ws, ds, d, wd); }
    if See(TreeOf(st, ws), DirPath(d)).SawDir? { AddedIsTouched(st, ws, ds, d); }
  }

  lemma ArmOneMore(st: State, mid: State, ws: Uuid, ds: set<string>, d: string)
    requires ArmedOver(st, mid, ws, ds) && mid.disks == st.disks && UniqueInos(st.disks)
    ensures ArmedOver(st, AddWatch(mid, ws, d), ws, ds + {d})
  {
    hide OthersKept, AddWatch, WatchedAt;
    OthersStayKept(st, mid, ws, ds, d);
    forall e | e in ds + {d} && See(TreeOf(st, ws), DirPath(e)).SawDir?
      ensures WatchedAt(AddWatch(mid, ws, d), ws, DirPath(e), See(TreeOf(st, ws), DirPath(e)).ino)
    {
      ArmedStays(st, mid, ws, ds, d, e);
    }
  }

  lemma TouchedGrows(st: State, ws: Uuid, ds: set<string>, d: string, wd: Wd)
    ensures TouchedBy(st, ws, ds, wd) ==> TouchedBy(st, ws, ds + {d}, wd)
  {
    if TouchedBy(st, ws, ds, wd) {
      var e :| e in ds && See(TreeOf(st, ws), DirPath(e)) == SawDir(wd.ino) && wd == WdOf(st, wd.ino);
      assert e in ds + {d};
    }
  }

  lemma DirsApart(st: State, ws: Uuid, d: string, e: string)
    requires UniqueInos(st.disks) && d != e
    requires See(TreeOf(st, ws), DirPath(d)).SawDir? && See(TreeOf(st, ws), DirPath(e)).SawDir?
    ensures See(TreeOf(st, ws), DirPath(d)).ino != See(TreeOf(st, ws), DirPath(e)).ino
  {
    JoinDirPath(d);
    JoinDirPath(e);
    assert ws in st.disks;
  }

  /** The watch loop over a scan's directories arms exactly what the scan saw. */
  lemma ArmedByScan(st: State, st': State, ws: Uuid, relDir: string, skip: set<string>, dirs: seq<string>)
    requires ArmedOver(st, st', ws, Listed(dirs, skip))
    requires forall d :: d in dirs <==> d == relDir || (DirPath(relDir) <= DirPath(d) && See(TreeOf(st, ws), DirPath(d)).SawDir?)
    ensures Armed(st, st', ws, DirPath(relDir), skip)
  {
    var t, at, ds := TreeOf(st, ws), DirPath(relDir), Listed(dirs, skip);
    forall p | Scanned(st, ws, at, skip, p) ensures WatchedAt(st', ws, p, See(t, p).ino) {
      PathOfDir(t, p);
      assert Join(p) in ds;
    }
    forall wd ensures TouchedBy(st, ws, ds, wd) ==> Touched(st, ws, at, skip, wd) {
      if TouchedBy(st, ws, ds, wd) {
        var d :| d in ds && See(t, DirPath(d)) == SawDir(wd.ino) && wd == WdOf(st, wd.ino);
        JoinDirPath(d);
        assert Scanned(st, ws, at, skip, DirPath(d));
      }
    }
  }

  /** What a scan from `relDir` of `root` returns as files. */
  ghost predicate ScanOf(found: map<string, Bytes>, root: Node, relDir: string) {
    forall s :: Get(found, s) == if See(root, DirPath(relDir)).SawDir? then Visible(root, DirPath(relDir), s) else None
  }

  /** `b` is `a` with every accepted path of `found` recorded. */
  ghost predicate AppliedAll(a: map<string, Oid>, b: map<string, Oid>, found: map<string, Bytes>) {
    forall s :: Get(b, s) == if s in found && Accepted(s) then Some(BlobId(found[s])) else Get(a, s)
  }

  lemma AbsorbedByScan(a: map<string, Oid>, b: map<string, Oid>, found: map<string, Bytes>, root: Node, relDir: string)
    requires ScanOf(found, root, relDir) && AppliedAll(a, b, found)
    ensures Absorbed(a, b, root, DirPath(relDir))
  {
    var at := DirPath(relDir);
    forall s ensures Get(b, s) == if at < Split(s) && FileAt(root, s).Some? then FileAt(root, s) else Get(a, s) {
      ScanFinds(found, root, relDir, s);
      PrefixCases(at, Split(s));
      assert Get(b, s) == if s in found && Accepted(s) then Some(BlobId(found[s])) else Get(a, s);
    }
  }

  lemma ScanFinds(found: map<string, Bytes>, root: Node, relDir: string, s: string)
    requires ScanOf(found, root, relDir)
    ensures s in found <==> See(root, DirPath(relDir)).SawDir? && DirPath(relDir) <= Split(s) && See(root, Split(s)).SawFile?
    ensures s in found ==> found[s] == See(root, Split(s)).content
    ensures DirPath(relDir) < Split(s) && See(root, Split(s)).SawFile? ==> See(root, DirPath(relDir)).SawDir?
  {
    var at := DirPath(relDir);
    assert Get(found, s) == if See(root, at).SawDir? then Visible(root, at, s) else None;
    PrefixCases(at, Split(s));
    if at < Split(s) && See(root, Split(s)).SawFile? { AncestorsAreDirs(root, at, Split(s)); }
  }

  lemma RepairedByScan(a: map<string, Oid>, b: map<string, Oid>, c: map<string, Oid>, found: map<string, Bytes>, root: Node)
    requires ScanOf(found, root, "") && AppliedAll(a, b, found)
    requires forall s :: Get(c, s) == if s in found then Get(b, s) else None
    ensures Repaired(a, c, root)
  {
    forall s ensures Get(c, s) ==
      if !See(root, Split(s)).SawFile? then None else if Accepted(s) then FileAt(root, s) else Get(a, s)
    {
      ScanFinds(found, root, "", s);
      assert Get(b, s) == if s in found && Accepted(s) then Some(BlobId(found[s])) else Get(a, s);
      assert DirPath("") == [] && [] <= Split(s);
      if See(root, Split(s)).SawFile? { AncestorsAreDirs(root, [], Split(s)); }
    }
  }

  lemma ArmedIgnoresFiles(st: State, mid: State, st': State, ws: Uuid, at: seq<string>, skip: set<string>)
    requires Armed(st, mid, ws, at, skip) && st' == mid.(files := st'.files)
    ensures Armed(st, st', ws, at, skip)
  {
    forall p | Scanned(st, ws, at, skip, p) ensures WatchedAt(st', ws, p, See(TreeOf(st, ws), p).ino) {
      assert WatchedAt(mid, ws, p, See(TreeOf(st, ws), p).ino);
    }
  }

  lemma PathOfDir(t: Node, p: seq<string>)
    requires See(t, p).SawDir?
    ensures DirPath(Join(p)) == p
  {
    SeenNames(t, p);
    EmptyIsRoot(p);
    if p != [] { SplitPlace(p); }
  }

  class Engine {
    var files: map<Uuid, map<string, Oid>>
    var disks: map<Uuid, Node>
    var watches: map<Wd, WatchEntry>
    var live: set<nat>
    var gens: map<nat, nat>

    ghost function Abs(): State reads this {
      State(files, disks, watches, live, gens)
    }

    constructor (disks: map<Uuid, Node>)
      ensures Abs() == State(map[], disks, map[], {}, map[])
    {
      files, watches, live, gens := map[], map[], {}, map[];
      this.disks := disks;
    }

    function Root(ws: Uuid): Node reads this {
      if ws in disks then disks[ws] else Other
    }

    function CurrentWd(i: nat): Wd reads this {
      Wd(i, if i in gens then gens[i] else 0)
    }

    method AddSingleWatch(ws: Uuid, relDir: string)
      modifies this`watches, this`live
      ensures Abs() == AddWatch(old(Abs()), ws, relDir)
    {
      match See(Root(ws), DirPath(relDir))
      case SawDir(i) =>
        live := live + {i};
        watches := watches[CurrentWd(i) := WatchEntry(ws, relDir)];
      case _ =>
    }

    /** The watch loop shared by registration, new subtrees and reconciliation. */
    method AddWatches(ws: Uuid, dirs: seq<string>, skip: set<string>)
      requires UniqueInos(disks)
      modifies this`watches, this`live
      ensures ArmedOver(old(Abs()), Abs(), ws, Listed(dirs, skip))
      ensures Abs() == old(Abs()).(watches := watches, live := live)
    {
      hide ArmedOver, AddWatch, UniqueInos, Listed;
      ghost var st := Abs();
      ArmNone(st, ws, dirs, skip);
      for i := 0 to |dirs|
        invariant ArmedOver(st, Abs(), ws, Listed(dirs[..i], skip))
      {
        ArmNext(st, Abs(), ws, dirs, i, skip);
        if dirs[i] !in skip { AddSingleWatch(ws, dirs[i]); }
      }
      assert dirs[..|dirs|] == dirs;
    }

    /** `remove_watches_under`: collect the stale descriptors, stop them in the
        kernel, then forget them. */
    method RemoveWatchesUnderDir(ws: Uuid, relDir: string)
      modifies this`watches, this`live, this`gens
      ensures Abs() == RemoveWatchesUnder(old(Abs()), ws, relDir)
    {
      ghost var st := Abs();
      var stale := set wd | wd in watches && watches[wd].ws == ws && Under(watches[wd].relDir, relDir);
      assert stale == Stale(st, ws, relDir);
      var todo := stale;
      ghost var done: set<Wd> := {};
      DisarmNone(st);
      while todo != {}
        invariant todo + done == stale && watches == st.watches
        invariant live == Disarm(st, done).live && gens == Disarm(st, done).gens
        decreases todo
      {
        var wd :| wd in todo;
        DisarmOneMore(st, done, wd);
        if wd.ino in live && wd == CurrentWd(wd.ino) {
          live := live - {wd.ino};
          gens := gens[wd.ino := wd.generation + 1];
        }
        todo, done := todo - {wd}, done + {wd};
      }
      assert done == stale;
      watches := watches - stale;
    }

    /** `wb_apply_write`; a path the store rejects is logged and skipped. */
    method ApplyWrite(ws: Uuid, path: string, content: Bytes)
      modifies this`files
      ensures files == if Accepted(path) && ws in old(files)
                       then old(files)[ws := old(files)[ws][path := BlobId(content)]] else old(files)
    {
      if Accepted(path) && ws in files {
        files := files[ws := files[ws][path := BlobId(content)]];
      }
    }

    /** Recording every scanned file, in hash order. */
    method ApplyAll(ws: Uuid, found: map<string, Bytes>)
      requires ws in files
      modifies this`files
      ensures files.Keys == old(files).Keys && forall k | k in files && k != ws :: files[k] == old(files)[k]
      ensures AppliedAll(old(files)[ws], files[ws], found)
    {
      var todo := found.Keys;
      while todo != {}
        invariant todo <= found.Keys && files.Keys == old(files).Keys
        invariant forall k | k in files && k != ws :: files[k] == old(files)[k]
        invariant forall s :: Get(files[ws], s) == if s in found && s !in todo && Accepted(s) then Some(BlobId(found[s])) else Get(old(files)[ws], s)
        decreases todo
      {
        var path :| path in todo;
        ApplyWrite(ws, path, found[path]);
        todo := todo - {path};
      }
    }

    method SyncNewSubtree(ws: Uuid, relDir: string)
      requires ws in files && UniqueInos(disks) && ValidNames(DirPath(relDir))
      modifies this
      ensures SubtreeSynced(old(Abs()), Abs(), ws, relDir)
    {
      ghost var st := Abs();
      var root := Root(ws);
      var found, dirs := ScanWorkspaceTree(root, relDir);
      AddWatches(ws, dirs, {});
      ArmedByScan(st, Abs(), ws, relDir, {}, dirs);
      ApplyAll(ws, found);
      AbsorbedByScan(st.files[ws], files[ws], found, root, relDir);
    }

    /** A new workspace: every directory watched, every file recorded. */
    method RegisterWorkspace(ws: Uuid)
      requires ws in files && UniqueInos(disks)
      modifies this
      ensures SubtreeSynced(old(Abs()), Abs(), ws, "")
    {
      ghost var st := Abs();
      var root := Root(ws);
      var found, dirs := ScanWorkspaceTree(root, "");
      AddWatches(ws, dirs, {});
      ArmedByScan(st, Abs(), ws, "", {}, dirs);
      ApplyAll(ws, found);
      AbsorbedByScan(st.files[ws], files[ws], found, root, "");
    }

    /** A dropped workspace: every watch it has, under any path, goes. */
    method UnregisterWorkspace(ws: Uuid)
      modifies this`watches, this`live, this`gens
      ensures Abs() == RemoveWatchesUnder(old(Abs()), ws, "")
    {
      RemoveWatchesUnderDir(ws, "");
    }

    method SyncOneFile(ws: Uuid, path: string)
      requires ws in files
      modifies this`files
      ensures Abs() == SyncFile(old(Abs()), ws, path)
    {
      match See(Root(ws), Split(path))
      case SawFile(content) => ApplyWrite(ws, path, content);
      case _ =>
    }

    method DropSubtreeAt(ws: Uuid, relDir: string)
      requires ws in files
      modifies this
      ensures Abs() == DropSubtree(old(Abs()), ws, relDir)
    {
      files := files[ws := DeletePrefix(files[ws], relDir)];
      RemoveWatchesUnderDir(ws, relDir);
    }

    method ReconcileWorkspace(ws: Uuid)
      requires UniqueInos(disks)
      modifies this
      ensures Reconciled(old(Abs()), Abs(), ws)
    {
      ghost var st := Abs();
      var root := Root(ws);
      var found, dirs := ScanWorkspaceTree(root, "");
      if ws !in files { return; }
      WatchUnrecorded(ws, dirs);
      ghost var mid := Abs();
      RepairFiles(ws, root, found);
      ArmedIgnoresFiles(st, mid, Abs(), ws, [], Recorded(st, ws));
    }

    /** Watches are added for scanned directories the table has no entry for. */
    method WatchUnrecorded(ws: Uuid, dirs: seq<string>)
      requires UniqueInos(disks)
      requires forall d :: d in dirs <==> d == "" || (DirPath("") <= DirPath(d) && See(Root(ws), DirPath(d)).SawDir?)
      modifies this`watches, this`live
      ensures Armed(old(Abs()), Abs(), ws, [], Recorded(old(Abs()), ws))
      ensures Abs() == old(Abs()).(watches := watches, live := live)
    {
      ghost var st := Abs();
      var recorded := set wd | wd in watches && watches[wd].ws == ws :: watches[wd].relDir;
      assert recorded == Recorded(st, ws);
      AddWatches(ws, dirs, recorded);
      ArmedByScan(st, Abs(), ws, "", recorded, dirs);
    }

    method RepairFiles(ws: Uuid, root: Node, found: map<string, Bytes>)
      requires ws in files && ScanOf(found, root, "")
      modifies this`files
      ensures files.Keys == old(files).Keys && forall k | k in files && k != ws :: files[k] == old(files)[k]
      ensures Repaired(old(files)[ws], files[ws], root)
    {
      var known := files[ws];
      ApplyChanged(ws, known, found);
      ghost var applied := files[ws];
      KeysAfterApply(known, applied, found);
      ForgetMissing(ws, known, found);
      RepairedByScan(known, applied, files[ws], found, root);
    }

    /** Files whose blob id differs from the recorded one are recorded again. */
    method ApplyChanged(ws: Uuid, known: map<string, Oid>, found: map<string, Bytes>)
      requires ws in files && files[ws] == known
      modifies this`files
      ensures files.Keys == old(files).Keys && forall k | k in files && k != ws :: files[k] == old(files)[k]
      ensures AppliedAll(known, files[ws], found)
    {
      var todo := found.Keys;
      while todo != {}
        invariant todo <= found.Keys && files.Keys == old(files).Keys
        invariant forall k | k in files && k != ws :: files[k] == old(files)[k]
        invariant forall s :: Get(files[ws], s) == if s in found && s !in todo && Accepted(s) then Some(BlobId(found[s])) else Get(known, s)
        decreases todo
      {
        var path :| path in todo;
        var candidate := BlobId(found[path]);
        if path !in known || known[path] != candidate {
          ApplyWrite(ws, path, found[path]);
        }
        todo := todo - {path};
      }
    }

    /** Recorded files that the scan did not find are deleted. */
    method ForgetMissing(ws: Uuid, known: map<string, Oid>, found: map<string, Bytes>)
      requires ws in files && files[ws].Keys <= known.Keys + found.Keys
      modifies this`files
      ensures files.Keys == old(files).Keys && forall k | k in files && k != ws :: files[k] == old(files)[k]
      ensures forall s :: Get(files[ws], s) == if s in found then Get(old(files)[ws], s) else None
    {
      var todo := known.Keys;
      while todo != {}
        invariant todo <= known.Keys && files.Keys == old(files).Keys
        invariant forall k | k in files && k != ws :: files[k] == old(files)[k]
        invariant forall s :: Get(files[ws], s) == if s in found || s in todo || s !in known then Get(old(files)[ws], s) else None
        decreases todo
      {
        var path :| path in todo;
        if path !in found { files := files[ws := files[ws] - {path}]; }
        todo := todo - {path};
      }
    }

    method ReconcileAll()
      requires UniqueInos(disks)
      modifies this
      ensures disks == old(disks)
      ensures ReconciledAll(old(Abs()), Abs(), old(files).Keys)
    {
      ReconcileEach(files.Keys);
    }

    method ReconcileEach(todo: set<Uuid>)
      requires UniqueInos(disks)
      modifies this
      ensures disks == old(disks)
      ensures ReconciledAll(old(Abs()), Abs(), todo)
      decreases todo
    {
      if todo != {} {
        ghost var st := Abs();
        var ws :| ws in todo;
        ReconcileWorkspace(ws);
        ghost var mid := Abs();
        ReconcileEach(todo - {ws});
        assert Reconciled(st, mid, ws) && ReconciledAll(mid, Abs(), todo - {ws});
      }
    }

    /** `handle_event`. */
    method HandleEvent(e: Event)
      requires UniqueInos(disks)
      requires e.wd in watches ==> ValidNames(DirPath(watches[e.wd].relDir))
      requires e.kind == Create || e.kind == MovedTo ==> ValidName(e.name)
      modifies this
      ensures Handled(old(Abs()), e, Abs())
    {
      if e.kind == Overflow { ReconcileAll(); return; }
      if e.kind == Ignored { watches := watches - {e.wd}; return; }
      if e.wd !in watches || watches[e.wd].ws !in files { return; }
      var ws, relDir := watches[e.wd].ws, watches[e.wd].relDir;
      if e.kind == DeleteSelf || e.kind == MoveSelf { DropSubtreeAt(ws, relDir); return; }
      var path := Child(relDir, e.name);
      if e.kind == Create || e.kind == MovedTo {
        if e.isDir {
          EventPath(relDir, e.name);
          SyncNewSubtree(ws, path);
        } else {
          SyncOneFile(ws, path);
        }
      } else if e.kind == CloseWrite {
        SyncOneFile(ws, path);
      } else {
        if e.isDir { DropSubtreeAt(ws, path); }
        else { files := files[ws := files[ws] - {path}]; }
      }
    }
  }

  lemma EventPath(relDir: string, name: string)
    requires ValidNames(DirPath(relDir)) && ValidName(name)
    ensures ValidNames(DirPath(Child(relDir, name)))
  {
    var p := DirPath(relDir);
    JoinDirPath(relDir);
    JoinSnoc(p, name);
    ValidAppend(p, [name]);
    SplitPlace(p + [name]);
    EmptyIsRoot(p + [name]);
  }

  lemma KeysAfterApply(a: map<string, Oid>, b: map<string, Oid>, found: map<string, Bytes>)
    requires AppliedAll(a, b, found)
    ensures b.Keys <= a.Keys + found.Keys
  {
    forall s | s in b ensures s in a.Keys + found.Keys {
      assert Get(b, s) == if s in found && Accepted(s) then Some(BlobId(found[s])) else Get(a, s);
    }
  }

  lemma DisarmNone(st: State)
    ensures Disarm(st, {}).live == st.live && Disarm(st, {}).gens == st.gens
  {
  }

  lemma DisarmOneMore(st: State, wds: set<Wd>, wd: Wd)
    ensures var mid, st' := Disarm(st, wds), Disarm(st, wds + {wd});
            if IsLive(mid, wd) then st'.live == mid.live - {wd.ino} && st'.gens == mid.gens[wd.ino := wd.generation + 1]
            else st'.live == mid.live && st'.gens == mid.gens
  {
  }
}
