/** The scope-stack reference resolver, against a declarative reading of scopes.
    A syntax tree carries, per node, what the per-language kind tables say of it. */
module Resolver {
  import opened Ordering
  import opened Wrappers

  /** `name` is the child that holds a definition's name; `locals` what the
      language's binding rules insert for a node that is not a definition. */
  datatype Node = Node(
    scope: bool, methodLike: bool, name: Option<nat>, locals: set<string>,
    identifier: bool, member: bool, text: string, children: seq<Node>)

  /** A node of a tree, by child indices from the root. */
  type Position = seq<nat>

  /** A definition's name is one of its children. */
  predicate WellFormed(n: Node) {
    (n.name.Some? ==> n.name.value < |n.children|) && forall c | c in n.children :: WellFormed(c)
  }

  // ----- Bindings -----------------------------------------------------------------

  /** What `add_binding_from_node` inserts for `n`. */
  function Bound(n: Node): set<string>
    requires WellFormed(n)
  {
    if n.name.Some? then (if n.methodLike then {} else {n.children[n.name.value].text}) else n.locals
  }

  /** What `collect_bindings` inserts for scope node `n`. */
  function Own(n: Node): set<string>
    requires WellFormed(n)
    decreases n, 0
  {
    set i, x | 0 <= i < |n.children| && x in Passed(n.children[i]) :: x
  }

  /** What child `c` adds to the scope around it. */
  function Passed(c: Node): set<string>
    requires WellFormed(c)
    decreases c, 1
  {
    Bound(c) + if c.scope then {} else Own(c)
  }

  // ----- Positions ------------------------------------------------------------------

  predicate Valid(n: Node, p: Position) {
    p == [] || (p[0] < |n.children| && Valid(n.children[p[0]], p[1..]))
  }

  function At(n: Node, p: Position): Node
    requires Valid(n, p)
  {
    if p == [] then n else At(n.children[p[0]], p[1..])
  }

  lemma {:induction false} PrefixIsValid(n: Node, p: Position, i: nat)
    requires WellFormed(n) && Valid(n, p) && i <= |p|
    ensures Valid(n, p[..i]) && WellFormed(At(n, p[..i]))
    ensures i < |p| ==> p[i] < |At(n, p[..i]).children|
  {
    if i > 0 {
      assert n.children[p[0]] in n.children;
      PrefixIsValid(n.children[p[0]], p[1..], i - 1);
      assert p[..i][1..] == p[1..][..i - 1];
    }
  }

  /** A binding of `x` at `r` below scope node `n`, not behind a nested scope. */
  ghost predicate BindsAt(n: Node, r: Position, x: string)
    requires WellFormed(n)
  {
    && r != [] && Valid(n, r)
    && (forall i | 0 < i < |r| :: Valid(n, r[..i]) && !At(n, r[..i]).scope)
    && WellFormed(At(n, r)) && x in Bound(At(n, r))
  }

  lemma BindsAtStep(n: Node, i: nat, r: Position, x: string)
    requires WellFormed(n) && i < |n.children| && WellFormed(n.children[i])
    ensures BindsAt(n, [i] + r, x) <==>
            if r == [] then x in Bound(n.children[i]) else !n.children[i].scope && BindsAt(n.children[i], r, x)
  {
    var c, q := n.children[i], [i] + r;
    assert q[1..] == r && (Valid(c, r) ==> At(n, q) == At(c, r));
    if r == [] {
      assert At(c, r) == c;
    } else {
      if BindsAt(n, q, x) {
        assert q[..1] == [i] && At(n, q[..1]) == c by { assert q[..1][1..] == []; }
        forall k | 0 < k < |r| ensures Valid(c, r[..k]) && !At(c, r[..k]).scope {
          assert q[..k + 1][1..] == r[..k];
        }
      }
      if !c.scope && BindsAt(c, r, x) {
        forall k | 0 < k < |q| ensures Valid(n, q[..k]) && !At(n, q[..k]).scope {
          assert q[..k][1..] == r[..k - 1];
        }
      }
    }
  }

  /** A scope's own bindings, declaratively. */
  lemma {:induction false} OwnIff(n: Node, x: string)
    requires WellFormed(n)
    ensures x in Own(n) <==> exists r :: BindsAt(n, r, x)
  {
    if x in Own(n) {
      var i :| 0 <= i < |n.children| && x in Passed(n.children[i]);
      var c := n.children[i];
      if x in Bound(c) {
        BindsAtStep(n, i, [], x);
      } else {
        OwnIff(c, x);
        var r :| BindsAt(c, r, x);
        BindsAtStep(n, i, r, x);
      }
    }
    if q :| BindsAt(n, q, x) {
      var c, r := n.children[q[0]], q[1..];
      assert c in n.children && q == [q[0]] + r;
      BindsAtStep(n, q[0], r, x);
      if r != [] { OwnIff(c, x); }
      assert x in Passed(c);
    }
  }

  // ----- What is reported --------------------------------------------------------------

  /** Position `p` is inside no definition's name. */
  predicate Walked(n: Node, p: Position)
    requires WellFormed(n)
  {
    Valid(n, p) && forall i | 0 <= i < |p| :: Valid(n, p[..i]) && At(n, p[..i]).name != Some(p[i])
  }

  /** Some scope node on the way to `p`, `p` included, binds `target`. */
  predicate InScope(n: Node, p: Position, target: string)
    requires WellFormed(n)
  {
    exists i | 0 <= i <= |p| :: Valid(n, p[..i]) && Binds(At(n, p[..i]), target)
  }

  predicate Binds(n: Node, target: string) {
    n.scope && WellFormed(n) && target in Own(n)
  }

  predicate IsUse(n: Node, target: string) {
    n.name.None? && n.identifier && !n.member && n.text == target
  }

  /** A matching definition name. */
  predicate DefinitionHit(n: Node, p: Position, target: string)
    requires WellFormed(n)
  {
    && p != [] && Valid(n, p) && Walked(n, Init(p)) && Valid(n, Init(p))
    && At(n, Init(p)).name == Some(Last(p)) && At(n, p).text == target
  }

  /** A matching identifier that is no member name and resolves in its scope chain. */
  predicate UseHit(n: Node, p: Position, target: string, visible: bool)
    requires WellFormed(n)
  {
    Walked(n, p) && IsUse(At(n, p), target) && (visible || InScope(n, p, target))
  }

  /** The same, along the walk. `visible`: the scopes around `n` bind `target`. */
  predicate Reported(n: Node, p: Position, target: string, visible: bool)
    requires WellFormed(n)
    decreases |p|
  {
    var here := visible || Binds(n, target);
    if p == [] then IsUse(n, target) && here
    else p[0] < |n.children| &&
         if n.name == Some(p[0]) then |p| == 1 && n.children[p[0]].text == target
         else Reported(n.children[p[0]], p[1..], target, here)
  }

  lemma WalkedStep(n: Node, p: Position)
    requires WellFormed(n) && p != []
    ensures Walked(n, p) <==>
            p[0] < |n.children| && n.name != Some(p[0]) && WellFormed(n.children[p[0]]) && Walked(n.children[p[0]], p[1..])
  {
    if p[0] < |n.children| {
      var c, q := n.children[p[0]], p[1..];
      assert c in n.children;
      if Walked(n, p) {
        assert p[..0] == [] && At(n, p[..0]) == n;
        forall i | 0 <= i < |q| ensures Valid(c, q[..i]) && At(c, q[..i]).name != Some(q[i]) {
          assert p[..i + 1][1..] == q[..i] && p[i + 1] == q[i];
        }
      }
      if n.name != Some(p[0]) && Walked(c, q) {
        forall i | 0 <= i < |p| ensures Valid(n, p[..i]) && At(n, p[..i]).name != Some(p[i]) {
          if i > 0 { assert p[..i][1..] == q[..i - 1] && p[i] == q[i - 1]; }
        }
      }
    }
  }

  lemma InScopeStep(n: Node, p: Position, target: string)
    requires WellFormed(n) && p != [] && Valid(n, p) && WellFormed(n.children[p[0]])
    ensures InScope(n, p, target) <==> Binds(n, target) || InScope(n.children[p[0]], p[1..], target)
  {
    var c, q := n.children[p[0]], p[1..];
    if i :| 0 <= i <= |p| && Valid(n, p[..i]) && Binds(At(n, p[..i]), target) {
      if i > 0 { assert p[..i][1..] == q[..i - 1]; }
    }
    if Binds(n, target) { assert p[..0] == [] && At(n, p[..0]) == n; }
    if i :| 0 <= i <= |q| && Valid(c, q[..i]) && Binds(At(c, q[..i]), target) {
      assert p[..i + 1][1..] == q[..i];
      assert Valid(n, p[..i + 1]) && At(n, p[..i + 1]) == At(c, q[..i]);
    }
  }

  /** The walk's verdict is the declarative one: a matching definition name, or a
      matching non-member identifier whose scope chain binds the target. */
  lemma {:induction false} ReportedIff(n: Node, p: Position, target: string, visible: bool)
    requires WellFormed(n)
    ensures Reported(n, p, target, visible) <==> DefinitionHit(n, p, target) || UseHit(n, p, target, visible)
    decreases |p|
  {
    if p == [] {
      assert p[..0] == [];
      assert InScope(n, p, target) <==> Binds(n, target) by {
        if Binds(n, target) { assert Valid(n, p[..0]) && At(n, p[..0]) == n; }
      }
    } else if p[0] < |n.children| {
      var c, q := n.children[p[0]], p[1..];
      assert c in n.children;
      WalkedStep(n, p);
      if Valid(n, p) { InScopeStep(n, p, target); }
      DefinitionStep(n, p, target);
      if n.name != Some(p[0]) { ReportedIff(c, q, target, visible || Binds(n, target)); }
    }
  }

  lemma ChildDefinition(n: Node, i: nat, target: string)
    requires WellFormed(n) && i < |n.children|
    ensures DefinitionHit(n, [i], target) <==> n.name == Some(i) && n.children[i].text == target
  {
    var p: Position := [i];
    assert Init(p) == [] && p[1..] == [];
    assert Valid(n.children[i], p[1..]) && At(n.children[i], p[1..]) == n.children[i];
    assert Valid(n, p) && At(n, p) == At(n.children[p[0]], p[1..]);
  }

  lemma DefinitionStep(n: Node, p: Position, target: string)
    requires WellFormed(n) && p != [] && p[0] < |n.children| && WellFormed(n.children[p[0]])
    ensures DefinitionHit(n, p, target) <==>
            if n.name == Some(p[0]) then |p| == 1 && n.children[p[0]].text == target
            else DefinitionHit(n.children[p[0]], p[1..], target)
  {
    var c, q := n.children[p[0]], p[1..];
    if |p| == 1 {
      ChildDefinition(n, p[0], target);
      assert p == [p[0]] && q == [];
    } else {
      assert Init(p)[1..] == Init(q) && Last(q) == Last(p);
      WalkedStep(n, Init(p));
    }
  }

  // ----- What the walk emits -----------------------------------------------------------

  function Hits(n: Node, at: Position, target: string, visible: bool): seq<Position>
    requires WellFormed(n)
    decreases n, |n.children| + 1
  {
    var here := visible || Binds(n, target);
    (if n.name.Some? && n.children[n.name.value].text == target then [at + [n.name.value]] else [])
    + (if IsUse(n, target) && here then [at] else [])
    + ChildHits(n, at, target, here, |n.children|)
  }

  /** Of the first `k` children, the one that holds the name left out. */
  function ChildHits(n: Node, at: Position, target: string, here: bool, k: nat): seq<Position>
    requires WellFormed(n) && k <= |n.children|
    decreases n, k
  {
    if k == 0 then []
    else ChildHits(n, at, target, here, k - 1)
         + if n.name == Some(k - 1) then [] else Hits(n.children[k - 1], at + [k - 1], target, here)
  }

  predicate Distinct(s: seq<Position>) {
    forall i, j | 0 <= i < j < |s| :: s[i] != s[j]
  }

  lemma DistinctAppend(a: seq<Position>, b: seq<Position>)
    requires Distinct(a) && Distinct(b) && forall x | x in a :: x !in b
    ensures Distinct(a + b)
  {
    forall i, j | 0 <= i < j < |a + b| ensures (a + b)[i] != (a + b)[j] {
      if i < |a| <= j { assert a[i] in a && b[j - |a|] in b; }
    }
  }

  /** `p` lies below `at` and is reported there. */
  predicate HitBelow(n: Node, at: Position, target: string, visible: bool, p: Position)
    requires WellFormed(n)
  {
    at <= p && Reported(n, p[|at|..], target, visible)
  }

  lemma {:induction false} HitsIff(n: Node, at: Position, target: string, visible: bool)
    requires WellFormed(n)
    ensures forall p :: p in Hits(n, at, target, visible) <==> HitBelow(n, at, target, visible, p)
    ensures Distinct(Hits(n, at, target, visible))
    decreases n, |n.children| + 1
  {
    var here := visible || Binds(n, target);
    var def := if n.name.Some? && n.children[n.name.value].text == target then [at + [n.name.value]] else [];
    var own := if IsUse(n, target) && here then [at] else [];
    var rest := ChildHits(n, at, target, here, |n.children|);
    ChildHitsIff(n, at, target, here, |n.children|);
    DistinctAppend(def, own);
    forall x | x in def + own ensures x !in rest { assert x in def || x in own; }
    DistinctAppend(def + own, rest);
    forall p ensures p in Hits(n, at, target, visible) <==> HitBelow(n, at, target, visible, p) {
      if at <= p && p != at { assert p == at + p[|at|..] && p[|at|] == p[|at|..][0]; }
      if p == at { assert p[|at|..] == []; }
      HitCases(n, at, target, visible, p);
    }
  }

  /** `p` goes through one of the first `k` children, other than the name. */
  predicate ThroughChild(n: Node, at: Position, target: string, here: bool, k: nat, p: Position)
    requires WellFormed(n)
  {
    && |p| > |at| && at <= p && p[|at|] < k && p[|at|] < |n.children| && n.name != Some(p[|at|])
    && Reported(n.children[p[|at|]], p[|at| + 1..], target, here)
  }

  lemma HitCases(n: Node, at: Position, target: string, visible: bool, p: Position)
    requires WellFormed(n)
    ensures var here := visible || Binds(n, target);
            HitBelow(n, at, target, visible, p) <==>
            || (n.name.Some? && n.children[n.name.value].text == target && p == at + [n.name.value])
            || (IsUse(n, target) && here && p == at)
            || ThroughChild(n, at, target, here, |n.children|, p)
  {
    if at <= p {
      var q := p[|at|..];
      assert p == at + q;
      if q != [] { assert q[0] == p[|at|] && q[1..] == p[|at| + 1..]; }
    }
  }

  lemma {:induction false} ChildHitsIff(n: Node, at: Position, target: string, here: bool, k: nat)
    requires WellFormed(n) && k <= |n.children|
    ensures forall p :: p in ChildHits(n, at, target, here, k) <==> ThroughChild(n, at, target, here, k, p)
    ensures Distinct(ChildHits(n, at, target, here, k))
    decreases n, k
  {
    if k > 0 {
      ChildHitsIff(n, at, target, here, k - 1);
      if n.name != Some(k - 1) {
        var c := n.children[k - 1];
        HitsIff(c, at + [k - 1], target, here);
        var a, b := ChildHits(n, at, target, here, k - 1), Hits(c, at + [k - 1], target, here);
        forall p ensures HitBelow(c, at + [k - 1], target, here, p) <==>
                         ThroughChild(n, at, target, here, k, p) && p[|at|] == k - 1
        {
          ThisChild(n, at, target, here, k - 1, p);
        }
        DistinctAppend(a, b);
      }
    }
  }

  lemma ThisChild(n: Node, at: Position, target: string, here: bool, i: nat, p: Position)
    requires WellFormed(n) && i < |n.children| && n.name != Some(i) && WellFormed(n.children[i])
    ensures HitBelow(n.children[i], at + [i], target, here, p) <==>
            ThroughChild(n, at, target, here, i + 1, p) && p[|at|] == i
  {
    if at + [i] <= p { assert p[..|at| + 1] == at + [i] && p[|at|] == i && at == p[..|at|]; }
    if |p| > |at| && at <= p && p[|at|] == i { assert at + [i] == p[..|at| + 1]; }
  }

  /** Every node that should be reported is, exactly once, and no other. */
  lemma HitsAreExact(root: Node, target: string, p: Position)
    requires WellFormed(root)
    ensures p in Hits(root, [], target, false) <==> DefinitionHit(root, p, target) || UseHit(root, p, target, false)
    ensures Distinct(Hits(root, [], target, false))
  {
    HitsIff(root, [], target, false);
    ReportedIff(root, p, target, false);
    assert p[0..] == p;
  }

  // ----- The walk itself --------------------------------------------------------------------

  /** Some frame of the stack binds `target`. */
  predicate Visible(scopes: seq<set<string>>, target: string) {
    exists s | s in scopes :: target in s
  }

  lemma VisibleSnoc(scopes: seq<set<string>>, s: set<string>, target: string)
    ensures Visible(scopes + [s], target) == (Visible(scopes, target) || target in s)
  {
    assert s in scopes + [s];
    assert forall x | x in scopes :: x in scopes + [s];
  }

  class Walker {
    var scopes: seq<set<string>>
    var hits: seq<Position>

    constructor ()
      ensures scopes == [] && hits == []
    {
      scopes, hits := [], [];
    }

    /** Inserts into the innermost scope. */
    method CollectBindings(n: Node)
      requires WellFormed(n) && scopes != []
      modifies `scopes
      ensures scopes == Init(old(scopes)) + [Last(old(scopes)) + Own(n)]
      decreases n
    {
      var top := |scopes| - 1;
      for i := 0 to |n.children|
        invariant |scopes| == |old(scopes)| && scopes[..top] == old(scopes)[..top]
        invariant forall x :: x in scopes[top] <==> x in old(scopes)[top] || exists j | 0 <= j < i :: x in Passed(n.children[j])
      {
        var c := n.children[i];
        scopes := scopes[top := scopes[top] + Bound(c)];
        if !c.scope { CollectBindings(c); }
      }
      assert scopes[top] == old(scopes)[top] + Own(n);
    }

    /** A new innermost scope, filled. */
    method PushScope(n: Node)
      requires WellFormed(n)
      modifies `scopes
      ensures scopes == old(scopes) + [Own(n)]
    {
      scopes := scopes + [{}];
      assert Init(scopes) == old(scopes);
      CollectBindings(n);
      assert {} + Own(n) == Own(n);
    }

    method Walk(n: Node, at: Position, target: string)
      requires WellFormed(n)
      modifies this
      ensures scopes == old(scopes)
      ensures hits == old(hits) + Hits(n, at, target, Visible(old(scopes), target))
      decreases n
    {
      hide Own, ChildHits, Visible;
      var outer := scopes;
      if n.name.Some? && n.children[n.name.value].text == target {
        hits := hits + [at + [n.name.value]];
      }
      if n.scope {
        PushScope(n);
        VisibleSnoc(outer, Own(n), target);
      }
      if IsUse(n, target) && Visible(scopes, target) {
        hits := hits + [at];
      }
      WalkChildren(n, at, target);
      if n.scope {
        scopes := scopes[..|scopes| - 1];
        assert scopes == outer;
      }
    }

    method WalkChildren(n: Node, at: Position, target: string)
      requires WellFormed(n)
      modifies this
      ensures scopes == old(scopes)
      ensures hits == old(hits) + ChildHits(n, at, target, Visible(scopes, target), |n.children|)
      decreases n, 0
    {
      hide Hits, Visible;
      for i := 0 to |n.children|
        invariant scopes == old(scopes) && hits == old(hits) + ChildHits(n, at, target, Visible(scopes, target), i)
      {
        if n.name == Some(i) { continue; }
        Walk(n.children[i], at + [i], target);
      }
    }
  }

  /** `resolve_references`: the hits of a whole tree. */
  method ResolveReferences(root: Node, target: string) returns (hits: seq<Position>)
    requires WellFormed(root)
    ensures Distinct(hits)
    ensures forall p :: p in hits <==> DefinitionHit(root, p, target) || UseHit(root, p, target, false)
  {
    var w := new Walker();
    w.Walk(root, [], target);
    hits := w.hits;
    forall p ensures p in hits <==> DefinitionHit(root, p, target) || UseHit(root, p, target, false) {
      HitsAreExact(root, target, p);
    }
    HitsIff(root, [], target, false);
  }
}
