/** Workspace-relative logical paths: the `/`-joined strings that key a
    workspace's file map, and the component lists that name places on disk. */
module Paths {
  import opened Wrappers

  /** What the kernel can report as a directory-entry name. */
  predicate ValidName(s: string) {
    s != "" && '/' !in s && '\0' !in s && s != "." && s != ".."
  }

  predicate ValidNames(p: seq<string>) {
    forall i | 0 <= i < |p| :: ValidName(p[i])
  }

  predicate SlashFree(p: seq<string>) {
    forall i | 0 <= i < |p| :: '/' !in p[i]
  }

  /** `format!("{dir}/{name}")` over a whole component list; the root is `""`. */
  function Join(p: seq<string>): string {
    if |p| == 0 then ""
    else if |p| == 1 then p[0]
    else p[0] + "/" + Join(p[1..])
  }

  /** The pieces of `s` between slashes, empty pieces included. */
  function Split(s: string): (r: seq<string>)
    ensures |r| >= 1 && SlashFree(r)
  {
    if s == "" then [""]
    else
      var r := Split(s[1..]);
      if s[0] == '/' then [""] + r else [[s[0]] + r[0]] + r[1..]
  }

  /** `a/b` from directory `a` and entry `b`, with no slash at the root. */
  function Child(relDir: string, name: string): string {
    if relDir == "" then name else relDir + "/" + name
  }

  function DirName(p: seq<string>): (d: seq<string>)
    requires p != []
  { p[..|p| - 1] }

  function BaseName(p: seq<string>): string
    requires p != []
  { p[|p| - 1] }

  lemma PrefixCases(p: seq<string>, q: seq<string>)
    ensures p <= q <==> p == q || p < q
  {
    if p <= q && |p| == |q| { assert p == q; }
  }

  // ----- check_path and secure_relative_path ---------------------------

  predicate HasDotDot(s: string) {
    exists i :: 0 <= i < |s| - 1 && s[i] == '.' && s[i + 1] == '.'
  }

  predicate CheckPath(s: string) {
    s != "" && s[0] != '/' && !HasDotDot(s)
  }

  /** Rust's `Path::components` drops empty pieces and every `.` piece but a leading one. */
  function Normals(pieces: seq<string>): (r: seq<string>)
    ensures SlashFree(pieces) ==> SlashFree(r)
    ensures forall i | 0 <= i < |r| :: r[i] != "" && r[i] != "." && r[i] in pieces
  {
    if pieces == [] then []
    else if pieces[0] == "" || pieces[0] == "." then Normals(pieces[1..])
    else [pieces[0]] + Normals(pieces[1..])
  }

  function SecureRelativePath(s: string): (r: Result<seq<string>>)
    ensures r.Ok? ==> r.value != [] && SlashFree(r.value)
  {
    if !CheckPath(s) then Err("invalid path")
    else
      var pieces := Split(s);
      if pieces[0] == "." then Err("invalid path component")
      else
        SplitHead(s);
        Ok(Normals(pieces))
  }

  predicate Accepted(s: string) {
    SecureRelativePath(s).Ok?
  }

  /** A path string that its own components spell out again. */
  predicate Canonical(s: string) {
    Accepted(s) && Join(SecureRelativePath(s).value) == s
  }

  lemma SplitHead(s: string)
    requires CheckPath(s)
    ensures Split(s)[0] != ""
  {
    assert s[0] != '/';
  }

  // ----- Join and Split are inverse ------------------------------------

  lemma JoinCons(x: string, r: seq<string>)
    requires r != []
    ensures Join([x] + r) == x + "/" + Join(r)
  {
    assert ([x] + r)[1..] == r;
  }

  lemma Regroup(a: string, b: string, c: string, d: string)
    ensures ((a + b) + c) + d == a + ((b + c) + d)
  {
  }

  lemma JoinLetter(c: char, r: seq<string>)
    requires r != []
    ensures Join([[c] + r[0]] + r[1..]) == [c] + Join(r)
  {
    if |r| == 1 {
      assert [[c] + r[0]] + r[1..] == [[c] + r[0]];
    } else {
      hide Join;
      JoinCons([c] + r[0], r[1..]);
      JoinCons(r[0], r[1..]);
      assert [r[0]] + r[1..] == r;
      Regroup([c], r[0], "/", Join(r[1..]));
    }
  }

  lemma {:induction false} JoinSplit(s: string)
    ensures Join(Split(s)) == s
  {
    if s != "" {
      JoinSplit(s[1..]);
      JoinLetter(s[0], Split(s[1..]));
      JoinCons("", Split(s[1..]));
      assert s == [s[0]] + s[1..];
    }
  }

  lemma {:induction false} SplitCons(name: string, rest: string)
    requires '/' !in name
    ensures Split(name + "/" + rest) == [name] + Split(rest)
    ensures Split(name) == [name]
  {
    if name == "" {
      assert ("/" + rest)[1..] == rest;
      assert name + "/" + rest == "/" + rest;
    } else {
      SplitCons(name[1..], rest);
      assert (name + "/" + rest)[1..] == name[1..] + "/" + rest;
      assert name == [name[0]] + name[1..];
    }
  }

  lemma {:induction false} SplitJoin(p: seq<string>)
    requires p != [] && SlashFree(p)
    ensures Split(Join(p)) == p
  {
    if |p| == 1 {
      SplitCons(p[0], "");
      assert p == [p[0]];
    } else {
      SplitJoin(p[1..]);
      SplitCons(p[0], Join(p[1..]));
    }
  }

  lemma {:induction false} JoinSnoc(p: seq<string>, name: string)
    requires ValidNames(p)
    ensures Join(p + [name]) == Child(Join(p), name)
    ensures Join(p) == "" <==> p == []
  {
    if p == [] {
      assert p + [name] == [name];
    } else if |p| > 1 {
      JoinSnoc(p[1..], name);
      assert (p + [name])[1..] == p[1..] + [name];
    }
  }

  // ----- The string test for "under this directory" --------------------

  lemma {:induction false} StartsWithSlash(d: seq<string>, s: string)
    requires d != [] && SlashFree(d)
    ensures Join(d) + "/" <= s <==> d < Split(s)
  {
    var p := Split(s);
    JoinSplit(s);
    if |p| == 1 {
      NoSlash(Join(d), s);
    } else {
      HeadMatches(d, p);
      if d[0] == p[0] {
        var rest := Join(p[1..]);
        assert s == p[0] + "/" + rest;
        SplitCons(p[0], rest);
        assert Split(rest) == p[1..];
        if |d| > 1 {
          StartsWithSlash(d[1..], rest);
          StripPrefix(d[0] + "/", Join(d[1..]) + "/", rest);
          assert d[0] + "/" + Join(d[1..]) + "/" == d[0] + "/" + (Join(d[1..]) + "/");
          assert d == [d[0]] + d[1..] && p == [p[0]] + p[1..];
          assert d < p <==> d[1..] < p[1..];
        } else {
          assert d == [d[0]];
          assert d[0] + "/" <= s;
        }
      }
    }
  }

  lemma NoSlash(d: string, s: string)
    requires Split(s) == [s]
    ensures !(d + "/" <= s)
  {
    assert Split(s)[0] == s;
    assert (d + "/")[|d|] == '/';
  }

  lemma StripPrefix(a: string, b: string, c: string)
    ensures a + b <= a + c <==> b <= c
  {
    if a + b <= a + c {
      forall i | 0 <= i < |b| ensures b[i] == c[i] {
        assert (a + b)[|a| + i] == (a + c)[|a| + i];
      }
    }
  }

  /** If the string prefix holds, the first components already agree. */
  lemma HeadMatches(d: seq<string>, p: seq<string>)
    requires d != [] && |p| > 1 && SlashFree(d) && SlashFree(p)
    ensures Join(d) + "/" <= Join(p) ==> d[0] == p[0]
  {
    var a, b := Join(d) + "/", Join(p);
    assert d[0] + "/" <= a by {
      if |d| > 1 { assert a == d[0] + "/" + (Join(d[1..]) + "/"); }
    }
    assert p[0] + "/" <= b;
    if a <= b {
      assert d[0] + "/" <= b;
      SlashAgree(d[0], p[0], b);
    }
  }

  lemma SlashAgree(x: string, y: string, s: string)
    requires '/' !in x && '/' !in y
    requires x + "/" <= s && y + "/" <= s
    ensures x == y
  {
    FirstSlash(x, y, s);
    FirstSlash(y, x, s);
    assert x == s[..|x|] == y;
  }

  lemma FirstSlash(x: string, y: string, s: string)
    requires '/' !in x
    requires x + "/" <= s && y + "/" <= s
    ensures |x| <= |y|
  {
    assert (y + "/")[|y|] == s[|y|] == '/';
    assert forall i | 0 <= i < |x| :: x[i] == (x + "/")[i] == s[i];
  }

  // ----- What secure_relative_path accepts -----------------------------

  lemma {:induction false} NormalsOfValid(p: seq<string>)
    requires ValidNames(p)
    ensures Normals(p) == p
  {
    if p != [] {
      NormalsOfValid(p[1..]);
      assert ValidName(p[0]);
      assert p == [p[0]] + p[1..];
    }
  }

  /** A path of kernel names is accepted exactly when no `..` occurs in it,
      and then its components are the names themselves. */
  lemma SecureOnDiskPath(p: seq<string>)
    requires p != [] && ValidNames(p)
    ensures Accepted(Join(p)) <==> !HasDotDot(Join(p))
    ensures Accepted(Join(p)) ==> SecureRelativePath(Join(p)) == Ok(p)
  {
    SplitJoin(p);
    NormalsOfValid(p);
    assert ValidName(p[0]);
    var s := Join(p);
    assert s[0] == p[0][0];
    assert p[0][0] in p[0];
  }

  /** The components of an accepted path never contain `..`. */
  lemma SecureComponents(s: string)
    requires Accepted(s)
    ensures var p := SecureRelativePath(s).value;
            forall i | 0 <= i < |p| :: '\0' !in p[i] ==> ValidName(p[i])
  {
    var p := SecureRelativePath(s).value;
    forall i | 0 <= i < |p| && '\0' !in p[i] ensures ValidName(p[i]) {
      if p[i] == ".." {
        assert p[i][0] == '.' && p[i][1] == '.';
        PieceOccurs(s, p[i]);
      }
    }
  }

  /** Two adjacent dots inside one piece are adjacent in the whole string. */
  lemma {:induction false} PieceOccurs(s: string, piece: string)
    requires piece in Split(s) && HasDotDot(piece)
    ensures HasDotDot(s)
  {
    var i :| 0 <= i < |piece| - 1 && piece[i] == '.' && piece[i + 1] == '.';
    var r := Split(s[1..]);
    if piece == Split(s)[0] {
      FirstPiece(s);
      assert s[i] == '.' && s[i + 1] == '.';
    } else {
      assert piece in r;
      PieceOccurs(s[1..], piece);
      var k :| 0 <= k < |s[1..]| - 1 && s[1..][k] == '.' && s[1..][k + 1] == '.';
      assert s[k + 1] == '.' && s[k + 2] == '.';
    }
  }

  /** Joining never puts two dots next to each other. */
  lemma {:induction false} JoinAddsNoDotDot(p: seq<string>)
    requires forall i | 0 <= i < |p| :: !HasDotDot(p[i])
    ensures !HasDotDot(Join(p))
  {
    if |p| == 1 {
      assert !HasDotDot(p[0]);
    } else if |p| > 1 {
      JoinAddsNoDotDot(p[1..]);
      var s, rest := Join(p), Join(p[1..]);
      forall i | 0 <= i < |s| - 1 ensures !(s[i] == '.' && s[i + 1] == '.') {
        if i + 1 < |p[0]| {
          assert s[i] == p[0][i] && s[i + 1] == p[0][i + 1];
          assert !HasDotDot(p[0]);
        } else if i > |p[0]| {
          var k := i - |p[0]| - 1;
          assert s[i] == rest[k] && s[i + 1] == rest[k + 1];
        } else {
          assert s[|p[0]|] == '/';
        }
      }
    }
  }

  /** The components of an accepted path spell an accepted path themselves. */
  lemma SecureIsStable(s: string)
    requires Accepted(s)
    ensures var p := SecureRelativePath(s).value;
            ValidNames(p) ==> Accepted(Join(p)) && SecureRelativePath(Join(p)).value == p
  {
    var p := SecureRelativePath(s).value;
    forall i | 0 <= i < |p| ensures !HasDotDot(p[i]) {
      if HasDotDot(p[i]) { PieceOccurs(s, p[i]); }
    }
    JoinAddsNoDotDot(p);
    if ValidNames(p) { SecureOnDiskPath(p); }
  }

  lemma {:induction false} FirstPiece(s: string)
    ensures Split(s)[0] <= s
  {
    if s != "" && s[0] != '/' { FirstPiece(s[1..]); }
  }

  /** Canonical paths are exactly the accepted strings whose raw pieces
      survive `components` unchanged. */
  lemma CanonicalPieces(s: string)
    requires Accepted(s)
    ensures Canonical(s) <==> SecureRelativePath(s).value == Split(s)
  {
    JoinSplit(s);
    SplitJoin(SecureRelativePath(s).value);
  }
}
