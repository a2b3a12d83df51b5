/** `commit` turns a flat file map into nested git trees; `create` walks a
    committed tree back into a flat map and projects it onto a fresh directory. */
module GitTrees {
  import opened Wrappers
  import opened Paths
  import opened Disk
  import opened ShadowStore

  datatype Tree = Blob(oid: Oid) | Tree(entries: map<string, Tree>)

  function At(t: Tree, p: seq<string>): Option<Oid>
    decreases |p|
  {
    if p == [] then (if t.Blob? then Some(t.oid) else None)
    else if t.Tree? && p[0] in t.entries then At(t.entries[p[0]], p[1..])
    else None
  }

  /** One index entry written into the tree; a blob in the way gives place to a directory. */
  function Insert(t: Tree, p: seq<string>, oid: Oid): (r: Tree)
    requires p != [] && t.Tree?
    ensures r.Tree?
    decreases |p|
  {
    if |p| == 1 then Tree(t.entries[p[0] := Blob(oid)])
    else
      var sub := if p[0] in t.entries && t.entries[p[0]].Tree? then t.entries[p[0]] else Tree(map[]);
      Tree(t.entries[p[0] := Insert(sub, p[1..], oid)])
  }

  lemma {:induction false} AtAfterInsert(t: Tree, p: seq<string>, oid: Oid, q: seq<string>)
    requires p != [] && t.Tree?
    ensures At(Insert(t, p, oid), q) ==
            if q == p then Some(oid) else if p <= q || q <= p then None else At(t, q)
    decreases |p|
  {
    if q != [] {
      assert p == [p[0]] + p[1..] && q == [q[0]] + q[1..];
      if q[0] == p[0] {
        if |p| == 1 {
          assert p[1..] == [];
          assert p <= q;
        } else {
          var sub := if p[0] in t.entries && t.entries[p[0]].Tree? then t.entries[p[0]] else Tree(map[]);
          AtAfterInsert(sub, p[1..], oid, q[1..]);
          assert p <= q <==> p[1..] <= q[1..];
          assert q <= p <==> q[1..] <= p[1..];
        }
      }
    }
  }

  /** No subtree without a file in it, the root aside: the form git writes. */
  predicate Dense(t: Tree) {
    t.Tree? ==> forall n | n in t.entries :: Dense(t.entries[n]) && (t.entries[n].Tree? ==> t.entries[n].entries != map[])
  }

  lemma {:induction false} InsertDense(t: Tree, p: seq<string>, oid: Oid)
    requires p != [] && t.Tree? && Dense(t)
    ensures Dense(Insert(t, p, oid)) && Insert(t, p, oid).entries != map[]
    decreases |p|
  {
    var r := Insert(t, p, oid);
    if |p| > 1 {
      var sub := if p[0] in t.entries && t.entries[p[0]].Tree? then t.entries[p[0]] else Tree(map[]);
      InsertDense(sub, p[1..], oid);
    }
    assert p[0] in r.entries;
    forall n | n in r.entries ensures Dense(r.entries[n]) && (r.entries[n].Tree? ==> r.entries[n].entries != map[]) {
      if n != p[0] { assert n in t.entries; }
    }
  }

  /** A tree has some file in it unless it is the empty root. */
  lemma {:induction false} DenseHasFile(t: Tree) returns (p: seq<string>)
    requires Dense(t) && (t.Tree? ==> t.entries != map[])
    ensures At(t, p).Some?
  {
    if t.Blob? {
      p := [];
    } else {
      var n :| n in t.entries;
      var q := DenseHasFile(t.entries[n]);
      p := [n] + q;
      assert p[1..] == q;
    }
  }

  /** The tree object is determined by the flat files: content addressing then
      gives equal tree ids for equal workspaces, in whatever order entries were added. */
  lemma {:induction false} DenseTreesAreCanonical(a: Tree, b: Tree)
    requires Dense(a) && Dense(b) && (a.Tree? <==> b.Tree?)
    requires forall p :: At(a, p) == At(b, p)
    ensures a == b
  {
    if a.Blob? {
      assert At(a, []) == At(b, []);
    } else {
      forall n ensures n in a.entries <==> n in b.entries
               ensures n in a.entries ==> a.entries[n] == b.entries[n]
      {
        if n in a.entries { SameEntry(a, b, n); }
        if n in b.entries { SameEntry(b, a, n); }
        if n in a.entries && n in b.entries {
          assert forall q :: At(a.entries[n], q) == At(b.entries[n], q) by {
            forall q ensures At(a.entries[n], q) == At(b.entries[n], q) {
              assert ([n] + q)[1..] == q;
              assert At(a, [n] + q) == At(b, [n] + q);
            }
          }
          DenseTreesAreCanonical(a.entries[n], b.entries[n]);
        }
      }
      assert a.entries == b.entries;
    }
  }

  lemma SameEntry(a: Tree, b: Tree, n: string)
    requires a.Tree? && b.Tree? && Dense(a) && Dense(b) && n in a.entries
    requires forall p :: At(a, p) == At(b, p)
    ensures n in b.entries && (a.entries[n].Tree? <==> b.entries[n].Tree?)
  {
    var q := DenseHasFile(a.entries[n]);
    assert ([n] + q)[1..] == q;
    assert At(a, [n] + q) == At(b, [n] + q);
    assert At(a, [n]) == At(b, [n]);
    assert At(a, [n]) == At(a.entries[n], []);
    assert At(b, [n]) == At(b.entries[n], []);
  }

  // ----- Prefix-free maps ------------------------------------------------

  /** No recorded file is also a directory of another. */
  predicate PrefixFree(files: map<string, Oid>) {
    forall s, t | s in files && t in files :: !(Split(s) < Split(t))
  }

  lemma ViewsArePrefixFree(files: map<string, Oid>, n: Node)
    requires IsView(files, n)
    ensures PrefixFree(files)
  {
    forall s, t | s in files && t in files ensures !(Split(s) < Split(t)) {
      assert Get(files, s) == FileAt(n, s) && Get(files, t) == FileAt(n, t);
      if Split(s) < Split(t) { AncestorsAreDirs(n, Split(s), Split(t)); }
    }
  }

  /** The tree holds exactly the files of the map. */
  ghost predicate Holds(t: Tree, files: map<string, Oid>) {
    forall p :: At(t, p) == if p != [] && SlashFree(p) && Join(p) in files then Some(files[Join(p)]) else None
  }

  /** Every file of the tree is one of the map's. */
  ghost predicate Within(t: Tree, files: map<string, Oid>) {
    forall p | At(t, p).Some? :: p != [] && SlashFree(p) && Join(p) in files && At(t, p).value == files[Join(p)]
  }

  /** One of the two paths is a directory of the other. */
  predicate Conflict(a: string, b: string) { Split(a) < Split(b) || Split(b) < Split(a) }

  /** Key `s` is in the tree, or another key stood in its way. */
  ghost predicate KeptOrDisplaced(t: Tree, files: map<string, Oid>, s: string)
    requires s in files
  {
    At(t, Split(s)) == Some(files[s]) || exists u :: u in files && Conflict(s, u)
  }

  /** The index loop of `commit`: entries in hash order, a later one displacing
      what conflicts with it, then one tree write. Nothing is displaced exactly for
      prefix-free maps, and then the tree does not depend on the order. */
  method WriteTree(files: map<string, Oid>) returns (t: Tree)
    ensures t.Tree? && Dense(t) && Within(t, files)
    ensures forall s | s in files :: KeptOrDisplaced(t, files, s)
    ensures Holds(t, files) <==> PrefixFree(files)
    ensures PrefixFree(files) ==> forall u: Tree | u.Tree? && Dense(u) && Holds(u, files) :: u == t
  {
    t := Tree(map[]);
    var todo := files.Keys;
    while todo != {}
      invariant t.Tree? && Dense(t) && Within(t, files) && todo <= files.Keys
      invariant forall s | s in files && s !in todo :: KeptOrDisplaced(t, files, s)
      decreases todo
    {
      var path :| path in todo;
      InsertKeeps(t, files, todo, path);
      InsertDense(t, Split(path), files[path]);
      t := Insert(t, Split(path), files[path]);
      todo := todo - {path};
    }
    HoldsIffPrefixFree(t, files);
    if PrefixFree(files) {
      forall u: Tree | u.Tree? && Dense(u) && Holds(u, files) ensures u == t { DenseTreesAreCanonical(u, t); }
    }
  }

  lemma InsertKeeps(t: Tree, files: map<string, Oid>, todo: set<string>, path: string)
    requires t.Tree? && Within(t, files) && path in files
    requires forall s | s in files && s !in todo :: KeptOrDisplaced(t, files, s)
    ensures Within(Insert(t, Split(path), files[path]), files)
    ensures forall s | s in files && s !in todo - {path} :: KeptOrDisplaced(Insert(t, Split(path), files[path]), files, s)
  {
    var p, t' := Split(path), Insert(t, Split(path), files[path]);
    JoinSplit(path);
    forall q ensures At(t', q) == if q == p then Some(files[path]) else if p < q || q < p then None else At(t, q) {
      AtAfterInsert(t, p, files[path], q);
      PrefixCases(p, q);
      PrefixCases(q, p);
    }
    forall s | s in files && s !in todo - {path} ensures KeptOrDisplaced(t', files, s) {
      JoinSplit(s);
      if Conflict(s, path) { } else if s != path { assert KeptOrDisplaced(t, files, s); }
    }
  }

  lemma HoldsIffPrefixFree(t: Tree, files: map<string, Oid>)
    requires Within(t, files) && forall s | s in files :: KeptOrDisplaced(t, files, s)
    ensures Holds(t, files) <==> PrefixFree(files)
  {
    if PrefixFree(files) {
      forall p ensures At(t, p) == if p != [] && SlashFree(p) && Join(p) in files then Some(files[Join(p)]) else None {
        if p != [] && SlashFree(p) && Join(p) in files {
          SplitJoin(p);
          assert KeptOrDisplaced(t, files, Join(p));
        }
      }
    }
    if Holds(t, files) {
      forall a, b | a in files && b in files ensures !(Split(a) < Split(b)) {
        JoinSplit(a);
        JoinSplit(b);
        assert At(t, Split(a)).Some? && At(t, Split(b)).Some?;
        if Split(a) < Split(b) { BlobsArePrefixFree(t, Split(a), Split(b)); }
      }
    }
  }

  /** For example, no tree holds files at both `a` and `a/b`. */
  lemma FileUnderFileIsLost(t: Tree, x: Oid, y: Oid)
    ensures !Holds(t, map["a" := x, "a/b" := y])
  {
    SplitCons("a", "");
    SplitCons("a", "b");
    SplitCons("b", "");
    assert "a/b" == "a" + "/" + "b";
    var p, q := ["a"], ["a", "b"];
    assert Split("a") == p && Split("a/b") == q && p < q;
    JoinSplit("a");
    JoinSplit("a/b");
    if Holds(t, map["a" := x, "a/b" := y]) {
      assert At(t, p).Some? && At(t, q).Some?;
      BlobsArePrefixFree(t, p, q);
    }
  }

  // ----- Walking a tree back --------------------------------------------

  /** Names a git tree object can carry. */
  predicate TreeNames(t: Tree) {
    t.Tree? ==> forall n | n in t.entries :: ValidName(n) && TreeNames(t.entries[n])
  }

  lemma {:induction false} BlobPathsValid(t: Tree, p: seq<string>)
    requires TreeNames(t) && At(t, p).Some?
    ensures ValidNames(p)
    decreases |p|
  {
    if p != [] { BlobPathsValid(t.entries[p[0]], p[1..]); }
  }

  function Leaves(t: Tree): set<seq<string>> {
    if t.Blob? then {[]}
    else set n, p | n in t.entries && p in Leaves(t.entries[n]) :: [n] + p
  }

  lemma {:induction false} LeavesAreBlobs(t: Tree, p: seq<string>)
    ensures p in Leaves(t) <==> At(t, p).Some?
    decreases |p|
  {
    if p != [] {
      assert p == [p[0]] + p[1..];
      if t.Tree? && p[0] in t.entries { LeavesAreBlobs(t.entries[p[0]], p[1..]); }
      if t.Tree? && p in Leaves(t) {
        var n, q :| n in t.entries && q in Leaves(t.entries[n]) && p == [n] + q;
        assert p[0] == n && p[1..] == q;
      }
    }
  }

  /** A blob has nothing below it. */
  lemma {:induction false} BlobsArePrefixFree(t: Tree, p: seq<string>, q: seq<string>)
    requires At(t, p).Some? && p < q
    ensures At(t, q).None?
    decreases |p|
  {
    if p != [] { BlobsArePrefixFree(t.entries[p[0]], p[1..], q[1..]); }
  }

  /** The projection after the blobs in `done`: those files, the directories
      that lead to them, and nothing else. */
  ghost predicate Projected(root: Node, t: Tree, done: set<seq<string>>) {
    forall q ::
      if q in done then At(t, q).Some? && See(root, q) == SawFile(At(t, q).value.content)
      else See(root, q).Nothing? || (See(root, q).SawDir? && (q == [] || exists p :: p in done && q < p))
  }

  lemma ProjectedIsWritable(root: Node, t: Tree, done: set<seq<string>>, p: seq<string>, special: bool)
    requires Projected(root, t, done) && p !in done && At(t, p).Some? && p != [] && ValidNames(p)
    ensures Writable(root, p, special)
  {
    forall k | 0 < k < |p| ensures See(root, p[..k]).Nothing? || See(root, p[..k]).SawDir? {
      if p[..k] in done { BlobsArePrefixFree(t, p[..k], p); }
    }
    if See(root, p).SawDir? {
      var q :| q in done && p < q;
      BlobsArePrefixFree(t, p, q);
    }
  }

  lemma ProjectedStep(root: Node, root': Node, t: Tree, done: set<seq<string>>, p: seq<string>)
    requires Projected(root, t, done) && At(t, p).Some? && p != []
    requires Written(root, root', p, At(t, p).value.content)
    ensures Projected(root', t, done + {p})
  {
    var done' := done + {p};
    forall q ensures
      if q in done' then At(t, q).Some? && See(root', q) == SawFile(At(t, q).value.content)
      else See(root', q).Nothing? || (See(root', q).SawDir? && (q == [] || exists r :: r in done' && q < r))
    {
      assert !See(root, p).SawOther?;
      assert if q == p then See(root', q) == SawFile(At(t, p).value.content)
        else if See(root, q).Nothing? && q < p then See(root', q).SawDir? else See(root', q) == See(root, q);
      if q !in done' && See(root', q).SawDir? && q != [] {
        if See(root, q).Nothing? && q < p {
          assert p in done';
        } else {
          var r :| r in done && q < r;
          assert r in done';
        }
      }
    }
  }

  lemma ProjectedView(root: Node, t: Tree, files: map<string, Oid>)
    requires Projected(root, t, Leaves(t)) && Holds(t, files)
    requires forall p | p in Leaves(t) :: Accepted(Join(p))
    ensures IsView(files, root)
  {
    forall s ensures Get(files, s) == FileAt(root, s) {
      var p := Split(s);
      JoinSplit(s);
      LeavesAreBlobs(t, p);
      assert At(t, p) == if s in files then Some(files[s]) else None;
      assert if p in Leaves(t) then See(root, p) == SawFile(At(t, p).value.content)
             else See(root, p).Nothing? || See(root, p).SawDir?;
    }
  }

  /** `create` from a base tree: every blob, in walk order, is materialized
      onto the new directory and then recorded. */
  method Project(t: Tree, ino: nat) returns (ok: bool, root: Node, files: map<string, Oid>, ino': nat)
    requires t.Tree? && TreeNames(t)
    ensures ok <==> forall p | p in Leaves(t) :: Accepted(Join(p))
    ensures ok ==> root.Dir? && Holds(t, files) && IsView(files, root)
  {
    root, files, ino' := Dir(ino, map[]), map[], ino + 1;
    var todo := Leaves(t);
    ghost var done: set<seq<string>> := {};
    LeavesAreBlobs(t, []);
    while todo != {}
      invariant root.Dir?
      invariant todo <= Leaves(t) && done == Leaves(t) - todo
      invariant forall p | p in done :: Accepted(Join(p))
      invariant Projected(root, t, done)
      invariant forall s :: s in files <==> Split(s) in done
      invariant forall s | s in files :: At(t, Split(s)) == Some(files[s])
      decreases todo
    {
      var p :| p in todo;
      LeavesAreBlobs(t, p);
      BlobPathsValid(t, p);
      SecureOnDiskPath(p);
      SplitJoin(p);
      ProjectedIsWritable(root, t, done, p, false);
      ghost var before := root;
      ok, root, ino' := MaterializeWrite(root, Join(p), At(t, p).value.content, false, ino');
      if !ok { return; }
      ProjectedStep(before, root, t, done, p);
      files := files[Join(p) := At(t, p).value];
      forall s ensures s == Join(p) <==> Split(s) == p { JoinSplit(s); }
      todo, done := todo - {p}, done + {p};
    }
    ok := true;
    assert done == Leaves(t);
    WalkedHolds(t, files);
    ProjectedView(root, t, files);
  }

  lemma WalkedHolds(t: Tree, files: map<string, Oid>)
    requires t.Tree? && TreeNames(t)
    requires forall s :: s in files <==> Split(s) in Leaves(t)
    requires forall s | s in files :: At(t, Split(s)) == Some(files[s])
    ensures Holds(t, files)
  {
    forall p ensures At(t, p) == if p != [] && SlashFree(p) && Join(p) in files then Some(files[Join(p)]) else None {
      LeavesAreBlobs(t, p);
      if At(t, p).Some? { BlobPathsValid(t, p); }
      if p != [] && SlashFree(p) { SplitJoin(p); }
    }
  }

  /** A file map that commits and projects without loss: no file is a directory
      of another, and every key is a canonical path of kernel names. */
  predicate Committable(files: map<string, Oid>) {
    PrefixFree(files) && forall s | s in files :: Canonical(s) && ValidNames(Split(s))
  }

  lemma ViewsAreCommittable(files: map<string, Oid>, n: Node)
    requires IsView(files, n)
    ensures Committable(files)
  {
    ViewsArePrefixFree(files, n);
    forall s | s in files ensures Canonical(s) && ValidNames(Split(s)) {
      assert Get(files, s) == FileAt(n, s);
      SeenNames(n, Split(s));
      JoinSplit(s);
      SecureOnDiskPath(Split(s));
    }
  }

  /** Committing a file map and creating a workspace from that commit gives the
      same map back, mirrored by the new directory. */
  method CommitThenCreate(files: map<string, Oid>, ino: nat)
    returns (ok: bool, t: Tree, disk: Node, files': map<string, Oid>)
    requires Committable(files)
    ensures ok && Holds(t, files)
    ensures disk.Dir? && files' == files && IsView(files', disk)
  {
    t := WriteTree(files);
    TreeOfMap(files, t);
    var ino';
    ok, disk, files', ino' := Project(t, ino);
    HoldsIsExact(t, files, files');
  }

  lemma TreeOfMap(files: map<string, Oid>, t: Tree)
    requires Committable(files) && t.Tree? && Dense(t) && Holds(t, files)
    ensures TreeNames(t) && forall p | p in Leaves(t) :: Accepted(Join(p))
  {
    forall p | At(t, p).Some? ensures ValidNames(p) && Accepted(Join(p)) {
      assert p != [] && SlashFree(p) && Join(p) in files;
      SplitJoin(p);
    }
    forall p | p in Leaves(t) ensures Accepted(Join(p)) { LeavesAreBlobs(t, p); }
    NamesFromBlobs(t);
  }

  lemma {:induction false} NamesFromBlobs(t: Tree)
    requires Dense(t) && forall p | At(t, p).Some? :: ValidNames(p)
    ensures TreeNames(t)
  {
    if t.Tree? {
      forall n | n in t.entries ensures ValidName(n) && TreeNames(t.entries[n]) {
        var q := DenseHasFile(t.entries[n]);
        assert ([n] + q)[1..] == q && At(t, [n] + q).Some?;
        assert ValidName(([n] + q)[0]);
        forall r | At(t.entries[n], r).Some? ensures ValidNames(r) {
          assert ([n] + r)[1..] == r && At(t, [n] + r).Some?;
          assert forall i | 0 <= i < |r| :: r[i] == ([n] + r)[i + 1];
        }
        NamesFromBlobs(t.entries[n]);
      }
    }
  }

  /** A tree holds only one file map. */
  lemma HoldsIsExact(t: Tree, a: map<string, Oid>, b: map<string, Oid>)
    requires Holds(t, a) && Holds(t, b)
    ensures a == b
  {
    forall s ensures s in a <==> s in b
             ensures s in a ==> a[s] == b[s]
    {
      JoinSplit(s);
      var p := Split(s);
      assert At(t, p) == if s in a then Some(a[s]) else None;
      assert At(t, p) == if s in b then Some(b[s]) else None;
    }
  }
}
