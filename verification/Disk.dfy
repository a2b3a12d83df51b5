/** The real directory tree under a workspace root, what a lookup sees in it,
    and the flat file view every other component is compared with. */
module Disk {
  import opened Wrappers
  import opened Paths

  newtype byte = x: int | 0 <= x < 256
  type Bytes = seq<byte>

  /** A blob id. The object store is content addressed, so the id of a blob is
      an injective image of its bytes; here it simply carries them. */
  datatype Oid = BlobId(content: Bytes)

  datatype Node =
    | File(content: Bytes)
    | Dir(ino: nat, entries: map<string, Node>)
    | Symlink
    | Other

  /** What `openat(.., O_NOFOLLOW)` finds at a place. */
  datatype Seen =
    | Nothing
    | SawFile(content: Bytes)
    | SawDir(ino: nat)
    | SawSymlink
    | SawOther

  /** The entry names of a directory, in no particular order. */
  function Names(n: Node): set<string> {
    if n.Dir? then set s | s in n.entries && ValidName(s) else {}
  }

  function Lookup(n: Node, p: seq<string>): Option<Node>
    decreases |p|
  {
    if p == [] then Some(n)
    else if n.Dir? && ValidName(p[0]) && p[0] in n.entries then Lookup(n.entries[p[0]], p[1..])
    else None
  }

  function Show(n: Option<Node>): Seen {
    match n
    case None => Nothing
    case Some(File(c)) => SawFile(c)
    case Some(Dir(i, _)) => SawDir(i)
    case Some(Symlink) => SawSymlink
    case Some(Other) => SawOther
  }

  function See(n: Node, p: seq<string>): Seen {
    Show(Lookup(n, p))
  }

  // ----- Places in a tree ------------------------------------------------

  lemma {:induction false} SeenNames(n: Node, p: seq<string>)
    requires See(n, p) != Nothing
    ensures ValidNames(p)
    decreases |p|
  {
    if p != [] { SeenNames(n.entries[p[0]], p[1..]); }
  }

  /** Everything above a visible place is a directory. */
  lemma {:induction false} AncestorsAreDirs(n: Node, p: seq<string>, q: seq<string>)
    requires p < q && See(n, q) != Nothing
    ensures See(n, p).SawDir?
    decreases |p|
  {
    if p != [] {
      assert p[0] == q[0];
      AncestorsAreDirs(n.entries[p[0]], p[1..], q[1..]);
    }
  }

  lemma {:induction false} LookupAppend(n: Node, p: seq<string>, q: seq<string>)
    requires Lookup(n, p).Some?
    ensures Lookup(n, p + q) == Lookup(Lookup(n, p).value, q)
    decreases |p|
  {
    if p == [] {
      assert p + q == q;
    } else {
      assert (p + q)[1..] == p[1..] + q;
      LookupAppend(n.entries[p[0]], p[1..], q);
    }
  }

  // ----- Changing one place --------------------------------------------

  /** `x` placed at `p`, over whatever was there. */
  function Put(n: Node, p: seq<string>, x: Node): Node
    requires p != [] && ValidNames(p)
    requires See(n, DirName(p)).SawDir?
    decreases |p|
  {
    if |p| == 1 then n.(entries := n.entries[p[0] := x])
    else
      assert DirName(p)[0] == p[0] && DirName(p)[1..] == DirName(p[1..]);
      n.(entries := n.entries[p[0] := Put(n.entries[p[0]], p[1..], x)])
  }

  function Remove(n: Node, p: seq<string>): Node
    requires p != [] && ValidNames(p)
    requires See(n, DirName(p)).SawDir?
    decreases |p|
  {
    if |p| == 1 then n.(entries := n.entries - {p[0]})
    else
      assert DirName(p)[0] == p[0] && DirName(p)[1..] == DirName(p[1..]);
      n.(entries := n.entries[p[0] := Remove(n.entries[p[0]], p[1..])])
  }

  lemma {:induction false} SeeAfterPut(n: Node, p: seq<string>, x: Node, q: seq<string>)
    requires p != [] && ValidNames(p)
    requires See(n, DirName(p)).SawDir?
    ensures See(Put(n, p, x), q) == if p <= q then See(x, q[|p|..]) else See(n, q)
    decreases |p|
  {
    assert ValidName(p[0]);
    if q != [] {
      if |p| == 1 {
        assert p == [p[0]];
        assert p <= q <==> p[0] == q[0];
      } else {
        assert DirName(p)[0] == p[0] && DirName(p)[1..] == DirName(p[1..]);
        assert p == [p[0]] + p[1..] && q == [q[0]] + q[1..];
        if q[0] == p[0] {
          SeeAfterPut(n.entries[p[0]], p[1..], x, q[1..]);
          assert p <= q <==> p[1..] <= q[1..];
          if p <= q { assert q[1..][|p[1..]|..] == q[|p|..]; }
        }
      }
    } else if |p| > 1 {
      assert DirName(p)[0] == p[0];
    }
  }

  lemma {:induction false} SeeAfterRemove(n: Node, p: seq<string>, q: seq<string>)
    requires p != [] && ValidNames(p)
    requires See(n, DirName(p)).SawDir?
    ensures See(Remove(n, p), q) == if p <= q then Nothing else See(n, q)
    decreases |p|
  {
    assert ValidName(p[0]);
    if q != [] {
      if |p| == 1 {
        assert p == [p[0]];
        assert p <= q <==> p[0] == q[0];
      } else {
        assert DirName(p)[0] == p[0] && DirName(p)[1..] == DirName(p[1..]);
        assert p == [p[0]] + p[1..] && q == [q[0]] + q[1..];
        if q[0] == p[0] {
          SeeAfterRemove(n.entries[p[0]], p[1..], q[1..]);
          assert p <= q <==> p[1..] <= q[1..];
        }
      }
    } else if |p| > 1 {
      assert DirName(p)[0] == p[0];
    }
  }

  // ----- The flat view --------------------------------------------------

  function Get<V>(m: map<string, V>, s: string): Option<V> {
    if s in m then Some(m[s]) else None
  }

  /** What the file map should say about `s`: the id of the regular file at that
      path, if there is one and the store accepts the path. Symlinks and special files are absent. */
  function FileAt(n: Node, s: string): Option<Oid> {
    if Accepted(s) && See(n, Split(s)).SawFile? then Some(BlobId(See(n, Split(s)).content)) else None
  }

  /** `files` is the flat view of tree `n` on accepted paths. */
  ghost predicate IsView(files: map<string, Oid>, n: Node) {
    forall s :: Get(files, s) == FileAt(n, s)
  }

  lemma ViewIsUnique(a: map<string, Oid>, b: map<string, Oid>, n: Node)
    requires IsView(a, n) && IsView(b, n)
    ensures a == b
  {
    forall s ensures s in a <==> s in b
             ensures s in a ==> a[s] == b[s]
    {
      assert Get(a, s) == FileAt(n, s) == Get(b, s);
    }
  }

  /** The place a joined path names. */
  lemma SplitPlace(p: seq<string>)
    requires p != [] && ValidNames(p)
    ensures Split(Join(p)) == p
  {
    forall i | 0 <= i < |p| ensures '/' !in p[i] { assert ValidName(p[i]); }
    SplitJoin(p);
  }

  lemma ValidAppend(a: seq<string>, b: seq<string>)
    requires ValidNames(a) && ValidNames(b)
    ensures ValidNames(a + b)
  {
    forall i | 0 <= i < |a + b| ensures ValidName((a + b)[i]) {
      assert (a + b)[i] == if i < |a| then a[i] else b[i - |a|];
    }
  }
}
