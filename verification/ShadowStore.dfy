/** The store's write path: `write_file` walks the real tree one hop at a time,
    then records the blob id under the caller's own path string. */
module ShadowStore {
  import opened Wrappers
  import opened Paths
  import opened Disk

  type Uuid = nat

  // ----- The fd-anchored walk ------------------------------------------

  /** Exactly the places a write can go to: no hop before the leaf is anything
      but a directory or absent, and the leaf is a regular file, absent, or a
      device or FIFO that the kernel lets us open (`special`). */
  predicate Writable(root: Node, p: seq<string>, special: bool) {
    p != [] && ValidNames(p) && Clear(root, p, |p| - 1) && LeafOpens(root, p, special)
  }

  /** The first `n` hops of `p` find a directory or nothing. */
  predicate Clear(root: Node, p: seq<string>, n: nat)
    requires n <= |p|
  {
    forall k | 0 < k <= n :: See(root, p[..k]).Nothing? || See(root, p[..k]).SawDir?
  }

  predicate LeafOpens(root: Node, p: seq<string>, special: bool) {
    See(root, p).Nothing? || See(root, p).SawFile? || (special && See(root, p).SawOther?)
  }

  /** `b` is `a` with the directories above `p` made and nothing else changed. */
  ghost predicate Grown(a: Node, b: Node, p: seq<string>) {
    forall q ::
      if See(a, q).Nothing? && q <= p then See(b, q).SawDir? || See(b, q).Nothing?
      else See(b, q) == See(a, q)
  }

  /** `b` is `a` with `content` at `p` and the directories above it made; a
      special file at `p` swallows the content and stays what it is. */
  ghost predicate Written(a: Node, b: Node, p: seq<string>, content: Bytes) {
    forall q ::
      if q == p then See(b, q) == if See(a, q).SawOther? then SawOther else SawFile(content)
      else if See(a, q).Nothing? && q < p then See(b, q).SawDir?
      else See(b, q) == See(a, q)
  }

  /** `openat_dir_nofollow` for one hop of a write walk. */
  method OpenOrMakeDir(root: Node, here: seq<string>, ino: nat) returns (ok: bool, root': Node, ino': nat)
    requires here != [] && SlashFree(here) && See(root, DirName(here)).SawDir?
    requires '\0' !in BaseName(here) ==> ValidNames(here)
    ensures ok <==> ValidNames(here) && (See(root, here).Nothing? || See(root, here).SawDir?)
    ensures !ok ==> root' == root && ino' == ino
    ensures ok ==> See(root', here) == if See(root, here).Nothing? then SawDir(ino) else See(root, here)
    ensures forall q | q != here :: See(root', q) == See(root, q)
    ensures ino' == if ok && See(root, here).Nothing? then ino + 1 else ino
  {
    root', ino' := root, ino;
    if '\0' in BaseName(here) {
      assert !ValidName(BaseName(here));
      return false, root', ino';
    }
    match See(root, here)
    case SawDir(_) => ok := true;
    case Nothing =>
      root', ino' := Put(root, here, Dir(ino, map[])), ino + 1;
      ok := true;
      forall q ensures See(root', q) == if q == here then SawDir(ino) else See(root, q) {
        SeeAfterPut(root, here, Dir(ino, map[]), q);
        if here < q && See(root, q) != Nothing { AncestorsAreDirs(root, here, q); }
      }
    case _ => ok := false;
  }

  /** Every directory of `d` is open in `b`, made where `a` had nothing; the rest is as in `a`. */
  ghost predicate Walked(a: Node, b: Node, d: seq<string>) {
    forall q :: if q <= d then See(b, q).SawDir? && (See(a, q).Nothing? || See(b, q) == See(a, q)) else See(b, q) == See(a, q)
  }

  lemma WalkStep(a: Node, b: Node, c: Node, d: seq<string>, here: seq<string>)
    requires here != [] && d == DirName(here) && Walked(a, b, d)
    requires See(c, here).SawDir? && (See(b, here).Nothing? || See(c, here) == See(b, here))
    requires forall q | q != here :: See(c, q) == See(b, q)
    ensures Walked(a, c, here)
  {
    assert here == d + [here[|d|]];
    forall q ensures if q <= here then See(c, q).SawDir? && (See(a, q).Nothing? || See(c, q) == See(a, q)) else See(c, q) == See(a, q) {
      assert if q <= d then See(b, q).SawDir? && (See(a, q).Nothing? || See(b, q) == See(a, q)) else See(b, q) == See(a, q);
      if q == here { assert !(q <= d); }
    }
  }

  /** The first `i` hops of `p` found a directory or nothing in `root`, and are open in `b`. */
  ghost predicate Hopped(root: Node, b: Node, p: seq<string>, i: nat)
    requires i <= |p|
  {
    ValidNames(p[..i]) && Walked(root, b, p[..i]) && Clear(root, p, i)
  }

  lemma HopAhead(root: Node, b: Node, p: seq<string>, i: nat)
    requires i < |p| && Hopped(root, b, p, i)
    ensures See(b, p[..i]).SawDir? && See(b, p[..i + 1]) == See(root, p[..i + 1])
    ensures p[..i + 1] == p[..i] + [p[i]] && DirName(p[..i + 1]) == p[..i] && BaseName(p[..i + 1]) == p[i]
    ensures ValidName(p[i]) <==> ValidNames(p[..i + 1])
  {
    assert p[..i] <= p[..i] && !(p[..i + 1] <= p[..i]);
    assert p[..i + 1] == p[..i] + [p[i]];
    if ValidName(p[i]) { ValidAppend(p[..i], [p[i]]); }
    assert p[..i + 1][i] == p[i];
  }

  lemma HopDone(root: Node, b: Node, c: Node, p: seq<string>, i: nat)
    requires i < |p| && Hopped(root, b, p, i) && ValidNames(p[..i + 1])
    requires See(b, p[..i + 1]).Nothing? || See(b, p[..i + 1]).SawDir?
    requires See(c, p[..i + 1]).SawDir? && (See(b, p[..i + 1]).Nothing? || See(c, p[..i + 1]) == See(b, p[..i + 1]))
    requires forall q | q != p[..i + 1] :: See(c, q) == See(b, q)
    ensures Hopped(root, c, p, i + 1)
  {
    HopAhead(root, b, p, i);
    WalkStep(root, b, c, p[..i], p[..i + 1]);
  }

  /** The directory hops of a write walk. */
  method WalkDirs(root: Node, p: seq<string>, ino: nat) returns (ok: bool, root': Node, ino': nat)
    requires root.Dir? && p != [] && SlashFree(p)
    requires forall i | 0 <= i < |p| :: '\0' !in p[i] ==> ValidName(p[i])
    ensures ino <= ino'
    ensures ok ==> Hopped(root, root', p, |p| - 1)
    ensures !ok ==> root'.Dir? && Grown(root, root', DirName(p)) && forall special :: !Writable(root, p, special)
  {
    root', ino' := root, ino;
    assert Hopped(root, root, p, 0) by { assert p[..0] == []; }
    hide Hopped, Grown, Writable;
    for i := 0 to |p| - 1
      invariant ino <= ino' && Hopped(root, root', p, i)
    {
      ghost var before := root';
      HopAhead(root, root', p, i);
      ok, root', ino' := OpenOrMakeDir(root', p[..i + 1], ino');
      if !ok {
        HopBlocked(root, p, i);
        HoppedGrows(root, root', p, i);
        return false, root', ino';
      }
      HopDone(root, before, root', p, i);
    }
    ok := true;
  }

  lemma HoppedGrows(root: Node, b: Node, p: seq<string>, i: nat)
    requires i < |p| && Hopped(root, b, p, i)
    ensures Grown(root, b, DirName(p)) && b.Dir?
  {
    WalkedGrows(root, b, p[..i], DirName(p));
  }

  /** All hops done, whether the leaf can be written decides. */
  lemma LeafDecides(root: Node, b: Node, p: seq<string>, special: bool)
    requires p != [] && Hopped(root, b, p, |p| - 1)
    ensures Writable(root, p, special) <==> ValidName(BaseName(p)) && LeafOpens(b, p, special)
    ensures ValidName(BaseName(p)) ==> ValidNames(p)
  {
    hide See, Walked, ValidNames, ValidName, Clear;
    HopAhead(root, b, p, |p| - 1);
    assert p[..|p|] == p;
    assert |p| - 1 + 1 == |p|;
  }

  /** `materialize_write`: validate, walk, and write through the last fd. */
  method MaterializeWrite(root: Node, path: string, content: Bytes, special: bool, ino: nat)
    returns (ok: bool, root': Node, ino': nat)
    requires root.Dir?
    ensures root'.Dir?
    ensures ok <==> Accepted(path) && Writable(root, SecureRelativePath(path).value, special)
    ensures ok ==> Written(root, root', SecureRelativePath(path).value, content)
    ensures !ok && !Accepted(path) ==> root' == root
    ensures !ok && Accepted(path) ==> Grown(root, root', DirName(SecureRelativePath(path).value))
    ensures ino <= ino'
  {
    root', ino' := root, ino;
    var rel := SecureRelativePath(path);
    if rel.Err? { return false, root', ino'; }
    var p := rel.value;
    SecureComponents(path);
    hide SecureRelativePath, Grown, Written, Writable, Walked;
    ok, root', ino' := WalkDirs(root, p, ino);
    if !ok { return; }
    LeafDecides(root, root', p, special);
    HoppedGrows(root, root', p, |p| - 1);
    if '\0' in BaseName(p) { return false, root', ino'; }
    match See(root', p)
    case SawDir(_) => ok := false;
    case SawSymlink => ok := false;
    case SawOther =>
      ok := special;
      if ok { WriteSpecial(root, root', p, content); }
    case _ =>
      ok := true;
      WriteLeaf(root, root', p, content);
      root' := Put(root', p, File(content));
  }

  lemma WalkedGrows(a: Node, b: Node, d: seq<string>, e: seq<string>)
    requires Walked(a, b, d) && d <= e
    ensures Grown(a, b, e) && b.Dir?
  {
    forall q ensures if See(a, q).Nothing? && q <= e then See(b, q).SawDir? || See(b, q).Nothing? else See(b, q) == See(a, q) {
      assert if q <= d then See(b, q).SawDir? && (See(a, q).Nothing? || See(b, q) == See(a, q)) else See(b, q) == See(a, q);
    }
    assert See(b, []).SawDir? by { assert [] <= d; }
  }

  lemma HopBlocked(root: Node, p: seq<string>, i: nat)
    requires i < |p| - 1
    requires !(ValidNames(p[..i + 1]) && (See(root, p[..i + 1]).Nothing? || See(root, p[..i + 1]).SawDir?))
    ensures forall special :: !Writable(root, p, special)
  {
    if ValidNames(p) { assert ValidNames(p[..i + 1]); }
  }

  lemma WriteLeaf(root: Node, before: Node, p: seq<string>, content: Bytes)
    requires p != [] && ValidNames(p) && Walked(root, before, DirName(p))
    requires See(before, p).Nothing? || See(before, p).SawFile?
    ensures See(before, DirName(p)).SawDir?
    ensures Written(root, Put(before, p, File(content)), p, content)
  {
    var d := DirName(p);
    assert d <= d;
    assert !(p <= d) && See(before, p) == See(root, p);
    forall q ensures
      if q == p then See(Put(before, p, File(content)), q) == SawFile(content)
      else if See(root, q).Nothing? && q < p then See(Put(before, p, File(content)), q).SawDir?
      else See(Put(before, p, File(content)), q) == See(root, q)
    {
      SeeAfterPut(before, p, File(content), q);
      assert if q <= d then See(before, q).SawDir? && (See(root, q).Nothing? || See(before, q) == See(root, q)) else See(before, q) == See(root, q);
      if p < q {
        assert q[|p|..] != [];
        if See(before, q) != Nothing { AncestorsAreDirs(before, p, q); }
      } else if q < p {
        assert q <= d;
      }
    }
  }

  lemma WriteSpecial(root: Node, before: Node, p: seq<string>, content: Bytes)
    requires p != [] && Walked(root, before, DirName(p)) && See(before, p).SawOther?
    ensures Written(root, before, p, content)
  {
    var d := DirName(p);
    assert !(p <= d);
    forall q ensures
      if q == p then See(before, q) == SawOther && See(root, q).SawOther?
      else if See(root, q).Nothing? && q < p then See(before, q).SawDir?
      else See(before, q) == See(root, q)
    {
      assert if q <= d then See(before, q).SawDir? && (See(root, q).Nothing? || See(before, q) == See(root, q)) else See(before, q) == See(root, q);
      if q < p { assert q <= d; }
    }
  }

  // ----- Effect on the two views ---------------------------------------

  /** A rejected or failed walk leaves the view alone, whatever directories it made. */
  lemma GrownKeepsView(a: Node, b: Node, p: seq<string>, s: string)
    requires Grown(a, b, p)
    ensures FileAt(b, s) == FileAt(a, s)
  {
    var q := Split(s);
    assert if See(a, q).Nothing? && q <= p then See(b, q).SawDir? || See(b, q).Nothing? else See(b, q) == See(a, q);
  }

  lemma WrittenView(a: Node, b: Node, path: string, content: Bytes, s: string)
    requires Accepted(path) && ValidNames(SecureRelativePath(path).value)
    requires Written(a, b, SecureRelativePath(path).value, content)
    ensures FileAt(b, s) ==
            if s == Join(SecureRelativePath(path).value) && !See(a, SecureRelativePath(path).value).SawOther?
            then Some(BlobId(content)) else FileAt(a, s)
  {
    var p, q := SecureRelativePath(path).value, Split(s);
    SecureIsStable(path);
    SplitPlace(p);
    JoinSplit(s);
    assert if q == p then See(b, q) == (if See(a, q).SawOther? then SawOther else SawFile(content))
      else if See(a, q).Nothing? && q < p then See(b, q).SawDir? else See(b, q) == See(a, q);
  }

  /** A successful write keeps map and disk equal exactly for canonical paths that
      do not name a special file: `a//b`, `a/./b` and `a/b/` write `a/b` on disk but
      key the map by the raw string, and a device keeps nothing to compare with. */
  lemma WriteStaysInSyncIffCanonical(files: map<string, Oid>, a: Node, b: Node, path: string, content: Bytes)
    requires IsView(files, a) && Accepted(path) && ValidNames(SecureRelativePath(path).value)
    requires Written(a, b, SecureRelativePath(path).value, content)
    ensures IsView(files[path := BlobId(content)], b) <==>
            Canonical(path) && !See(a, SecureRelativePath(path).value).SawOther?
  {
    var files' := files[path := BlobId(content)];
    if Canonical(path) && !See(a, SecureRelativePath(path).value).SawOther? {
      forall s ensures Get(files', s) == FileAt(b, s) {
        WrittenView(a, b, path, content, s);
        assert Get(files, s) == FileAt(a, s);
      }
    }
    if IsView(files', b) {
      assert Get(files', path) == FileAt(b, path);
      SeenNames(b, Split(path));
      JoinSplit(path);
      SecureOnDiskPath(Split(path));
      WrittenView(a, b, path, content, path);
      assert FileAt(a, path).Some? ==> !See(a, Split(path)).SawOther?;
    }
  }

  lemma SplitDoubleSlash()
    ensures Split("a//b") == ["a", "", "b"]
  {
    SplitCons("a", "/b");
    SplitCons("", "b");
    SplitCons("b", "");
    assert "a//b" == "a" + "/" + "/b";
    assert "/b" == "" + "/" + "b";
  }

  lemma DoubleSlashPath()
    ensures Accepted("a//b") && !Canonical("a//b") && SecureRelativePath("a//b").value == ["a", "b"]
  {
    SplitDoubleSlash();
    hide Split;
    assert Normals(["a", "", "b"]) == ["a", "b"] by {
      assert ["a", "", "b"][1..] == ["", "b"];
      assert ["", "b"][1..] == ["b"];
      assert ["b"][1..] == [];
    }
    assert Join(["a", "b"]) == "a/b" by { assert ["a", "b"][1..] == ["b"]; }
    assert "a//b" != "a/b" by { assert |"a//b"| == 4; }
  }

  /** A new workspace directory, and the same with `c` at `a/b`. */
  function Fresh(): Node { Dir(0, map[]) }

  function WithFile(c: Bytes): Node { Dir(0, map["a" := Dir(1, map["b" := File(c)])]) }

  lemma SeeFresh(q: seq<string>)
    ensures See(Fresh(), q) == if q == [] then SawDir(0) else Nothing
  {
  }

  lemma SeeWithFile(c: Bytes, q: seq<string>)
    ensures See(WithFile(c), q) ==
            if q == [] then SawDir(0) else if q == ["a"] then SawDir(1) else if q == ["a", "b"] then SawFile(c) else Nothing
  {
    var d, inner := WithFile(c), Dir(1, map["b" := File(c)]);
    assert ValidName("a") && ValidName("b");
    if q != [] && q[0] == "a" {
      assert Lookup(d, q) == Lookup(inner, q[1..]);
      if q[1..] == [] {
        assert q == ["a"];
      } else if q[1] == "b" {
        assert Lookup(inner, q[1..]) == Lookup(File(c), q[1..][1..]);
        if q[1..][1..] == [] { assert q == ["a", "b"]; } else { assert |q| > 2; }
      }
    }
  }

  /** Writing `a//b` in a new workspace: map and disk, equal before, disagree after. */
  lemma RawPathDesyncs(c: Bytes) returns (files: map<string, Oid>, a: Node, b: Node)
    ensures Accepted("a//b") && Writable(a, SecureRelativePath("a//b").value, false)
    ensures IsView(files, a) && Written(a, b, SecureRelativePath("a//b").value, c)
    ensures !IsView(files["a//b" := BlobId(c)], b)
  {
    files, a, b := map[], Fresh(), WithFile(c);
    DoubleSlashPath();
    var p := ["a", "b"];
    assert ValidName("a") && ValidName("b");
    forall s ensures Get(files, s) == FileAt(a, s) { SeeFresh(Split(s)); }
    forall k | 0 < k <= |p| ensures See(a, p[..k]).Nothing? { SeeFresh(p[..k]); }
    assert p[..2] == p;
    forall q ensures
      if q == p then See(b, q) == SawFile(c) && !See(a, q).SawOther?
      else if See(a, q).Nothing? && q < p then See(b, q).SawDir? else See(b, q) == See(a, q)
    {
      SeeFresh(q);
      SeeWithFile(c, q);
      if q < p && q != [] { assert q == p[..1] == ["a"]; }
      if q == ["a"] { assert q == p[..1]; }
    }
    hide SecureRelativePath, See, Accepted, Canonical;
    WriteStaysInSyncIffCanonical(files, a, b, "a//b", c);
  }

  function Device(): Node { Dir(0, map["d" := Other]) }

  lemma SeeDevice(q: seq<string>)
    ensures See(Device(), q) == if q == [] then SawDir(0) else if q == ["d"] then SawOther else Nothing
  {
    assert ValidName("d");
    if q != [] && q[0] == "d" {
      assert Lookup(Device(), q) == Lookup(Other, q[1..]);
      if q[1..] == [] { assert q == ["d"]; } else { assert |q| > 1; }
    }
  }

  /** Writing to a device planted at `d`: the write succeeds, and the map records
      a file the disk does not have. */
  lemma SpecialFileDesyncs(c: Bytes) returns (files: map<string, Oid>)
    ensures Accepted("d") && Canonical("d") && Writable(Device(), SecureRelativePath("d").value, true)
    ensures IsView(files, Device()) && Written(Device(), Device(), SecureRelativePath("d").value, c)
    ensures !IsView(files["d" := BlobId(c)], Device())
  {
    files := map[];
    assert ValidName("d");
    SecureOnDiskPath(["d"]);
    assert Join(["d"]) == "d" && !HasDotDot("d");
    assert ["d"][..1] == ["d"];
    forall q ensures See(Device(), q) == if q == [] then SawDir(0) else if q == ["d"] then SawOther else Nothing { SeeDevice(q); }
    forall s ensures Get(files, s) == FileAt(Device(), s) { }
    hide SecureRelativePath, See, Accepted, Canonical;
    WriteStaysInSyncIffCanonical(files, Device(), Device(), "d", c);
  }

  // ----- The store ------------------------------------------------------

  class Store {
    var workspaces: map<Uuid, map<string, Oid>>
    var disks: map<Uuid, Node>
    var nextIno: nat

    ghost predicate Valid() reads this {
      workspaces.Keys == disks.Keys && forall id | id in disks :: disks[id].Dir?
    }

    ghost predicate InSync(id: Uuid) reads this requires Valid() && id in workspaces {
      IsView(workspaces[id], disks[id])
    }

    constructor ()
      ensures Valid() && workspaces == map[]
    {
      workspaces, disks, nextIno := map[], map[], 0;
    }

    /** `special`: whether the kernel lets a special file at the leaf be opened. */
    method WriteFile(id: Uuid, path: string, content: Bytes, special: bool) returns (r: Result<Oid>)
      requires Valid()
      modifies this
      ensures Valid()
      ensures r.Ok? <==> id in old(workspaces) && Accepted(path)
                         && Writable(old(disks)[id], SecureRelativePath(path).value, special)
      ensures r.Err? ==> workspaces == old(workspaces) && disks.Keys == old(disks).Keys
                         && forall k, s | k in disks :: FileAt(disks[k], s) == FileAt(old(disks)[k], s)
      ensures r.Ok? ==> r.value == BlobId(content)
                        && workspaces == old(workspaces)[id := old(workspaces)[id][path := r.value]]
                        && (forall k | k in disks && k != id :: disks[k] == old(disks)[k])
                        && (forall s :: FileAt(disks[id], s) ==
                              if s == Join(SecureRelativePath(path).value)
                                 && !See(old(disks)[id], SecureRelativePath(path).value).SawOther?
                              then Some(r.value) else FileAt(old(disks)[id], s))
      ensures r.Ok? && old(InSync(id)) ==>
                (InSync(id) <==> Canonical(path) && !See(old(disks)[id], SecureRelativePath(path).value).SawOther?)
    {
      if !CheckPath(path) { return Err("invalid path"); }
      if id !in workspaces { return Err("no such workspace"); }
      ghost var before := disks[id];
      var ok, root, ino := MaterializeWrite(disks[id], path, content, special, nextIno);
      disks, nextIno := disks[id := root], ino;
      if !ok {
        if Accepted(path) {
          forall s ensures FileAt(root, s) == FileAt(before, s) {
            GrownKeepsView(before, root, DirName(SecureRelativePath(path).value), s);
          }
        }
        return Err("materialize write");
      }
      var oid := BlobId(content);
      workspaces := workspaces[id := workspaces[id][path := oid]];
      forall s ensures FileAt(root, s) ==
        if s == Join(SecureRelativePath(path).value) && !See(before, SecureRelativePath(path).value).SawOther?
        then Some(oid) else FileAt(before, s)
      {
        WrittenView(before, root, path, content, s);
      }
      if IsView(old(workspaces)[id], before) {
        WriteStaysInSyncIffCanonical(old(workspaces)[id], before, root, path, content);
      }
      return Ok(oid);
    }

    method ReadFile(id: Uuid, path: string) returns (r: Result<Bytes>)
      requires Valid()
      ensures r.Ok? <==> CheckPath(path) && id in workspaces && path in workspaces[id]
      ensures r.Ok? ==> BlobId(r.value) == workspaces[id][path]
    {
      if !CheckPath(path) { return Err("invalid path"); }
      if id !in workspaces { return Err("no such workspace"); }
      if path !in workspaces[id] { return Err("path not found in workspace"); }
      return Ok(workspaces[id][path].content);
    }
  }
}
