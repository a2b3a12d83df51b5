/** Byte-wise string order, and stable sorting under a strict weak order. */
module Ordering {

  // ----- Strings --------------------------------------------------------------

  predicate StringLess(a: string, b: string) {
    b != [] && (a == [] || a[0] < b[0] || (a[0] == b[0] && StringLess(a[1..], b[1..])))
  }

  lemma {:induction false} StringLessTotal(a: string, b: string)
    ensures (StringLess(a, b) && a != b && !StringLess(b, a)) || (StringLess(b, a) && a != b && !StringLess(a, b))
         || (a == b && !StringLess(a, b))
  {
    if a != [] && b != [] && a[0] == b[0] {
      StringLessTotal(a[1..], b[1..]);
      assert a == [a[0]] + a[1..] && b == [b[0]] + b[1..];
    }
  }

  lemma {:induction false} StringLessTransitive(a: string, b: string, c: string)
    requires StringLess(a, b) && StringLess(b, c)
    ensures StringLess(a, c)
  {
    if a != [] && a[0] == b[0] && b[0] == c[0] {
      StringLessTransitive(a[1..], b[1..], c[1..]);
    }
  }

  // ----- Strict weak orders -----------------------------------------------------

  ghost predicate StrictWeak<T(!new)>(less: (T, T) -> bool) {
    && (forall x, y :: less(x, y) ==> !less(y, x))
    && (forall x, y, z :: less(x, y) && less(y, z) ==> less(x, z))
    && (forall x, y, z :: less(x, z) ==> less(x, y) || less(y, z))
  }

  lemma StringOrderIsStrictWeak()
    ensures StrictWeak(StringLess)
  {
    forall x, y ensures StringLess(x, y) ==> !StringLess(y, x) { StringLessTotal(x, y); }
    forall x, y, z ensures StringLess(x, y) && StringLess(y, z) ==> StringLess(x, z) {
      if StringLess(x, y) && StringLess(y, z) { StringLessTransitive(x, y, z); }
    }
    forall x, y, z ensures StringLess(x, z) ==> StringLess(x, y) || StringLess(y, z) {
      StringLessTotal(x, y);
      if StringLess(x, z) && StringLess(y, x) { StringLessTransitive(y, x, z); }
    }
  }

  ghost predicate Sorted<T(!new)>(less: (T, T) -> bool, s: seq<T>) {
    forall i, j | 0 <= i < j < |s| :: !less(s[j], s[i])
  }

  function Last<T>(s: seq<T>): T
    requires s != []
  { s[|s| - 1] }

  function Init<T>(s: seq<T>): seq<T>
    requires s != []
  { s[..|s| - 1] }

  lemma MultisetOfInit<T>(s: seq<T>)
    requires s != []
    ensures s == Init(s) + [Last(s)]
    ensures multiset(s) == multiset(Init(s)) + multiset{Last(s)}
  {
    assert s == Init(s) + [Last(s)];
  }

  lemma MultisetWithout<T>(b: seq<T>, i: nat)
    requires i < |b|
    ensures multiset(b) == multiset(b[..i] + b[i + 1..]) + multiset{b[i]}
  {
    assert b == b[..i] + [b[i]] + b[i + 1..];
  }

  lemma SameRest<T>(a: multiset<T>, b: multiset<T>, x: T)
    requires a + multiset{x} == b + multiset{x}
    ensures a == b
  {
    assert (a + multiset{x}) - multiset{x} == a && (b + multiset{x}) - multiset{x} == b;
  }

  /** The last element of `a` found in a permutation `b`, which without it permutes the rest of `a`. */
  lemma MatchLast<T>(a: seq<T>, b: seq<T>) returns (i: nat)
    requires multiset(a) == multiset(b) && a != []
    ensures i < |b| && b[i] == Last(a)
    ensures multiset(b[..i] + b[i + 1..]) == multiset(Init(a))
  {
    MultisetOfInit(a);
    assert Last(a) in multiset(b);
    i :| 0 <= i < |b| && b[i] == Last(a);
    MultisetWithout(b, i);
    SameRest(multiset(Init(a)), multiset(b[..i] + b[i + 1..]), Last(a));
  }

  // ----- Stable sorting -----------------------------------------------------------

  /** `x` goes behind everything it is not less than. */
  function Insert<T>(less: (T, T) -> bool, s: seq<T>, x: T): seq<T> {
    if s == [] || !less(x, Last(s)) then s + [x]
    else Insert(less, Init(s), x) + [Last(s)]
  }

  function Sort<T>(less: (T, T) -> bool, s: seq<T>): seq<T> {
    if s == [] then [] else Insert(less, Sort(less, Init(s)), Last(s))
  }

  lemma {:induction false} InsertMultiset<T>(less: (T, T) -> bool, s: seq<T>, x: T)
    ensures multiset(Insert(less, s, x)) == multiset(s) + multiset{x}
  {
    if s != [] && less(x, Last(s)) {
      InsertMultiset(less, Init(s), x);
      MultisetOfInit(s);
    }
  }

  lemma {:induction false} SortPermutes<T>(less: (T, T) -> bool, s: seq<T>)
    ensures multiset(Sort(less, s)) == multiset(s)
  {
    if s != [] {
      SortPermutes(less, Init(s));
      InsertMultiset(less, Sort(less, Init(s)), Last(s));
      MultisetOfInit(s);
    }
  }

  lemma {:induction false} InsertSorted<T(!new)>(less: (T, T) -> bool, s: seq<T>, x: T)
    requires StrictWeak(less) && Sorted(less, s)
    ensures Sorted(less, Insert(less, s, x))
  {
    if s != [] {
      var init, last := Init(s), Last(s);
      if less(x, last) {
        InsertSorted(less, init, x);
        var r := Insert(less, init, x);
        InsertMultiset(less, init, x);
        forall i | 0 <= i < |r| ensures !less(last, r[i]) {
          assert r[i] in multiset(r);
        }
      } else {
        forall i | 0 <= i < |s| ensures !less(x, s[i]) { }
      }
    }
  }

  lemma {:induction false} SortSorts<T(!new)>(less: (T, T) -> bool, s: seq<T>)
    requires StrictWeak(less)
    ensures Sorted(less, Sort(less, s))
  {
    if s != [] {
      SortSorts(less, Init(s));
      InsertSorted(less, Sort(less, Init(s)), Last(s));
    }
  }

  /** The elements that tie with `k`, in order. */
  function Ties<T>(less: (T, T) -> bool, s: seq<T>, k: T): seq<T> {
    if s == [] then []
    else Ties(less, Init(s), k) + (if less(Last(s), k) || less(k, Last(s)) then [] else [Last(s)])
  }

  lemma TiesSnoc<T>(less: (T, T) -> bool, s: seq<T>, x: T, k: T)
    ensures Ties(less, s + [x], k) == Ties(less, s, k) + (if less(x, k) || less(k, x) then [] else [x])
  {
    assert Init(s + [x]) == s;
  }

  lemma {:induction false} TiesOfInsert<T(!new)>(less: (T, T) -> bool, s: seq<T>, x: T, k: T)
    requires StrictWeak(less)
    ensures Ties(less, Insert(less, s, x), k) == Ties(less, s + [x], k)
  {
    if s != [] && less(x, Last(s)) {
      TiesOfInsert(less, Init(s), x, k);
      TiesSnoc(less, Insert(less, Init(s), x), Last(s), k);
      TiesSnoc(less, Init(s), x, k);
      TiesSnoc(less, s, x, k);
    }
  }

  /** Stability: equal keys keep their order. */
  lemma {:induction false} SortIsStable<T(!new)>(less: (T, T) -> bool, s: seq<T>, k: T)
    requires StrictWeak(less)
    ensures Ties(less, Sort(less, s), k) == Ties(less, s, k)
  {
    hide StrictWeak, Insert;
    if s != [] {
      SortIsStable(less, Init(s), k);
      TiesOfInsert(less, Sort(less, Init(s)), Last(s), k);
      TiesSnoc(less, Sort(less, Init(s)), Last(s), k);
    }
  }

  /** Elements that tie are equal. */
  ghost predicate TiesAreEqual<T(!new)>(less: (T, T) -> bool, s: multiset<T>) {
    forall x, y | x in s && y in s && x != y :: less(x, y) || less(y, x)
  }

  lemma LastIsGreatest<T(!new)>(less: (T, T) -> bool, a: seq<T>, y: T)
    requires Sorted(less, a) && a != [] && y in a
    ensures y == a[|a| - 1] || !less(a[|a| - 1], y)
  {
    var i :| 0 <= i < |a| && a[i] == y;
  }

  lemma SameGreatest<T(!new)>(less: (T, T) -> bool, a: seq<T>, b: seq<T>)
    requires Sorted(less, a) && Sorted(less, b) && multiset(a) == multiset(b)
    requires TiesAreEqual(less, multiset(a)) && a != [] && b != []
    ensures Last(a) == Last(b)
  {
    assert Last(a) in multiset(a) && Last(b) in multiset(b);
    LastIsGreatest(less, a, Last(b));
    LastIsGreatest(less, b, Last(a));
  }

  lemma InitStaysSorted<T(!new)>(less: (T, T) -> bool, a: seq<T>)
    requires Sorted(less, a) && TiesAreEqual(less, multiset(a)) && a != []
    ensures Sorted(less, Init(a)) && TiesAreEqual(less, multiset(Init(a)))
  {
    MultisetOfInit(a);
  }

  /** When ties are equal elements, a sorted sequence is determined by its multiset. */
  lemma {:induction false} SortedIsUnique<T(!new)>(less: (T, T) -> bool, a: seq<T>, b: seq<T>)
    requires Sorted(less, a) && Sorted(less, b) && multiset(a) == multiset(b)
    requires TiesAreEqual(less, multiset(a))
    ensures a == b
    decreases |a|
  {
    hide Sorted, TiesAreEqual;
    assert |multiset(a)| == |multiset(b)|;
    if a != [] {
      SameGreatest(less, a, b);
      InitStaysSorted(less, a);
      InitStaysSorted(less, b);
      MultisetOfInit(a);
      MultisetOfInit(b);
      assert multiset(Init(a)) == multiset(a) - multiset{Last(a)} == multiset(Init(b));
      SortedIsUnique(less, Init(a), Init(b));
    }
  }

  /** Sorting forgets the order of its input when ties are equal elements. */
  lemma SortForgetsOrder<T(!new)>(less: (T, T) -> bool, a: seq<T>, b: seq<T>)
    requires StrictWeak(less) && multiset(a) == multiset(b) && TiesAreEqual(less, multiset(a))
    ensures Sort(less, a) == Sort(less, b)
  {
    SortSorts(less, a);
    SortSorts(less, b);
    SortPermutes(less, a);
    SortPermutes(less, b);
    SortedIsUnique(less, Sort(less, a), Sort(less, b));
  }
}
