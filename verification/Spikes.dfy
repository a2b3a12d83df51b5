/** Sliding windows pruned in place, against the full history of writes. */
module Spikes {
  import opened Ordering
  import opened Wrappers

  datatype Kind = NoKind | Cosmetic | SymbolAdded | SymbolRemoved | SignatureChange | AnyKind

  /** `kind` is the scorer's verdict. */
  datatype Write = Write(workspace: string, path: string, symbol: string, at: int, kind: Kind)

  // ----- One window -----------------------------------------------------------------

  /** The writes after `cutoff`. */
  function After(ws: seq<Write>, cutoff: int): seq<Write> {
    if ws == [] then [] else After(Init(ws), cutoff) + if Last(ws).at > cutoff then [Last(ws)] else []
  }

  /** What the window holds once all of `ws` have been pushed, pruning before each push. */
  function Pushed(window: int, ws: seq<Write>): seq<Write> {
    if ws == [] then [] else After(Pushed(window, Init(ws)), Last(ws).at - window) + [Last(ws)]
  }

  ghost predicate InOrder(ws: seq<Write>) {
    forall i, j | 0 <= i < j < |ws| :: ws[i].at <= ws[j].at
  }

  lemma AfterSnoc(ws: seq<Write>, w: Write, cutoff: int)
    ensures After(ws + [w], cutoff) == After(ws, cutoff) + if w.at > cutoff then [w] else []
  {
    assert Init(ws + [w]) == ws;
  }

  lemma {:induction false} AfterAfter(ws: seq<Write>, early: int, late: int)
    requires early <= late
    ensures After(After(ws, early), late) == After(ws, late)
  {
    if ws != [] {
      AfterAfter(Init(ws), early, late);
      if Last(ws).at > early { AfterSnoc(After(Init(ws), early), Last(ws), late); }
      else { assert After(ws, early) == After(Init(ws), early); }
    }
  }

  /** No later write, up to the end of `ws`, prunes write `i`. */
  predicate Survives(window: int, ws: seq<Write>, i: nat)
    requires i < |ws|
  {
    forall k | i < k < |ws| :: ws[i].at > ws[k].at - window
  }

  /** The survivors among the first `n` writes. */
  function Survivors(window: int, ws: seq<Write>, n: nat): seq<Write>
    requires n <= |ws|
  {
    if n == 0 then []
    else if Survives(window, ws, n - 1) then Survivors(window, ws, n - 1) + [ws[n - 1]]
    else Survivors(window, ws, n - 1)
  }

  lemma {:induction false} SurvivorsStep(window: int, ws: seq<Write>, w: Write, n: nat)
    requires n <= |ws|
    ensures After(Survivors(window, ws, n), w.at - window) == Survivors(window, ws + [w], n)
  {
    if n > 0 {
      SurvivorsStep(window, ws, w, n - 1);
      SurvivesStep(window, ws, w, n - 1);
      hide Survives, After;
      AfterSnoc(Survivors(window, ws, n - 1), ws[n - 1], w.at - window);
    }
  }

  lemma SurvivesStep(window: int, ws: seq<Write>, w: Write, i: nat)
    requires i < |ws|
    ensures Survives(window, ws + [w], i) <==> Survives(window, ws, i) && ws[i].at > w.at - window
    ensures (ws + [w])[i] == ws[i]
  {
    var longer := ws + [w];
    assert longer[|ws|] == w && forall k | i <= k < |ws| :: longer[k] == ws[k];
  }

  lemma WindowStep(window: int, ws: seq<Write>, w: Write)
    requires Pushed(window, ws) == Survivors(window, ws, |ws|)
    ensures Pushed(window, ws + [w]) == Survivors(window, ws + [w], |ws| + 1)
  {
    hide Pushed, Survivors, After;
    PushedSnoc(window, ws, w);
    SurvivorsStep(window, ws, w, |ws|);
    LastSurvives(window, ws + [w]);
  }

  /** Whatever the order of the writes, the window holds the survivors. */
  lemma {:induction false} WindowHoldsSurvivors(window: int, ws: seq<Write>)
    ensures Pushed(window, ws) == Survivors(window, ws, |ws|)
  {
    if ws != [] {
      WindowHoldsSurvivors(window, Init(ws));
      WindowStep(window, Init(ws), Last(ws));
      assert ws == Init(ws) + [Last(ws)];
    }
  }

  lemma LastSurvives(window: int, ws: seq<Write>)
    requires ws != []
    ensures Survivors(window, ws, |ws|) == Survivors(window, ws, |ws| - 1) + [Last(ws)]
  {
    assert Survives(window, ws, |ws| - 1);
  }

  /** Every write still inside the last window survived. */
  predicate NothingPushedOut(window: int, ws: seq<Write>, n: nat)
    requires ws != [] && n <= |ws|
  {
    forall i | 0 <= i < n && ws[i].at > Last(ws).at - window :: Survives(window, ws, i)
  }

  lemma {:induction false} SurvivorsAmongRecent(window: int, ws: seq<Write>, n: nat)
    requires ws != [] && n <= |ws| && window > 0
    ensures |Survivors(window, ws, n)| <= |After(ws[..n], Last(ws).at - window)|
    ensures NothingPushedOut(window, ws, n) <==> |Survivors(window, ws, n)| == |After(ws[..n], Last(ws).at - window)|
    ensures NothingPushedOut(window, ws, n) ==> Survivors(window, ws, n) == After(ws[..n], Last(ws).at - window)
  {
    if n == 0 {
      assert ws[..0] == [];
    } else {
      assert Survives(window, ws, n - 1) ==> ws[n - 1].at > Last(ws).at - window;
      hide Survives, After;
      SurvivorsAmongRecent(window, ws, n - 1);
      assert ws[..n] == ws[..n - 1] + [ws[n - 1]];
      AfterSnoc(ws[..n - 1], ws[n - 1], Last(ws).at - window);
    }
  }

  /** The pruned window is the recent part of the whole history exactly if no write
      still inside it was pushed out by an earlier, larger timestamp. */
  lemma WindowIsRecentHistoryIff(window: int, ws: seq<Write>)
    requires ws != [] && window > 0
    ensures Pushed(window, ws) == After(ws, Last(ws).at - window) <==> NothingPushedOut(window, ws, |ws|)
  {
    WindowHoldsSurvivors(window, ws);
    SurvivorsAmongRecent(window, ws, |ws|);
    assert ws[..|ws|] == ws;
  }

  /** So it is for writes in time order. */
  lemma InOrderNothingIsPushedOut(window: int, ws: seq<Write>)
    requires InOrder(ws) && ws != []
    ensures NothingPushedOut(window, ws, |ws|)
  {
  }

  lemma AllAfter(a: Write, b: Write, c: Write, cutoff: int)
    requires a.at > cutoff && b.at > cutoff && c.at > cutoff
    ensures After([a, b, c], cutoff) == [a, b, c]
  {
    AfterSnoc([], a, cutoff);
    AfterSnoc([a], b, cutoff);
    AfterSnoc([a, b], c, cutoff);
    assert [] + [a] == [a] && [a] + [b] == [a, b] && [a, b] + [c] == [a, b, c];
  }

  lemma FirstPushedOut(window: int, a: Write, b: Write, c: Write)
    requires a.at <= b.at - window && b.at > c.at - window
    ensures Pushed(window, [a, b, c]) == [b, c]
  {
    assert Pushed(window, [a]) == [a] by { PushedSnoc(window, [], a); }
    assert Pushed(window, [a, b]) == [b] by {
      assert [a] + [b] == [a, b];
      PushedSnoc(window, [a], b);
    }
    hide Pushed;
    assert [a, b] + [c] == [a, b, c];
    PushedSnoc(window, [a, b], c);
    AfterSnoc([], b, c.at - window);
  }

  /** And not in general: 100, 200, 105 with a window of 10 leaves two writes, though
      three are after 95. */
  lemma OutOfOrderForgets(w: Write)
    ensures var ws := [w.(at := 100), w.(at := 200), w.(at := 105)];
            |Pushed(10, ws)| == 2 && |After(ws, 95)| == 3
  {
    hide After, Pushed;
    AllAfter(w.(at := 100), w.(at := 200), w.(at := 105), 95);
    FirstPushedOut(10, w.(at := 100), w.(at := 200), w.(at := 105));
  }

  // ----- Volume spikes ---------------------------------------------------------------------

  datatype Limits = Limits(window: int, threshold: int, debounce: int)

  predicate LimitsOk(l: Limits) { l.window > 0 && l.threshold > 0 && l.debounce > 0 }

  /** When the last spike fired, after all of `ws`. */
  function LastSpike(l: Limits, ws: seq<Write>): Option<int>
    decreases |ws|, 1
  {
    if ws == [] then None else if Fires(l, ws) then Some(Last(ws).at) else LastSpike(l, Init(ws))
  }

  /** The last of `ws` raises a spike. */
  predicate Fires(l: Limits, ws: seq<Write>)
    decreases |ws|, 0
  {
    ws != [] && |Pushed(l.window, ws)| >= l.threshold &&
    var last := LastSpike(l, Init(ws));
    last.None? || Last(ws).at - last.value >= l.debounce
  }

  /** The times of all spikes. */
  function SpikeTimes(l: Limits, ws: seq<Write>): seq<int> {
    if ws == [] then [] else SpikeTimes(l, Init(ws)) + if Fires(l, ws) then [Last(ws).at] else []
  }

  lemma {:induction false} LastSpikeIsLast(l: Limits, ws: seq<Write>)
    ensures LastSpike(l, ws) == if SpikeTimes(l, ws) == [] then None else Some(Last(SpikeTimes(l, ws)))
  {
    if ws != [] { LastSpikeIsLast(l, Init(ws)); }
  }

  /** Whatever the order of the writes, spikes are at least one debounce apart. */
  lemma {:induction false} SpikesAreApart(l: Limits, ws: seq<Write>, i: nat)
    requires i + 1 < |SpikeTimes(l, ws)|
    ensures SpikeTimes(l, ws)[i + 1] - SpikeTimes(l, ws)[i] >= l.debounce
  {
    var before := SpikeTimes(l, Init(ws));
    if i + 1 < |before| {
      SpikesAreApart(l, Init(ws), i);
    } else {
      LastSpikeIsLast(l, Init(ws));
    }
  }

  lemma {:induction false} SpikeSpread(l: Limits, ws: seq<Write>, i: nat, n: nat)
    requires i + n < |SpikeTimes(l, ws)| && l.debounce > 0
    ensures SpikeTimes(l, ws)[i + n] - SpikeTimes(l, ws)[i] >= n * l.debounce
    decreases n
  {
    if n > 0 {
      SpikeSpread(l, ws, i, n - 1);
      SpikesAreApart(l, ws, i + n - 1);
      assert n * l.debounce == (n - 1) * l.debounce + l.debounce;
    }
  }

  lemma LessByFactor(a: int, b: int, d: int)
    requires d > 0 && a * d < b * d
    ensures a < b
  {
  }

  lemma AtMostQuotient(n: nat, d: int, span: int)
    requires d > 0 && n * d <= span
    ensures n <= span / d
  {
    assert span < (span / d + 1) * d by { assert (span / d + 1) * d == span / d * d + d; }
    LessByFactor(n, span / d + 1, d);
  }

  /** Any run of spikes that fits in a span has at most span / debounce + 1 members. */
  lemma SpikesInSpan(l: Limits, ws: seq<Write>, i: nat, n: nat, span: int)
    requires i + n < |SpikeTimes(l, ws)| && l.debounce > 0
    requires SpikeTimes(l, ws)[i + n] - SpikeTimes(l, ws)[i] <= span
    ensures n + 1 <= span / l.debounce + 1
  {
    SpikeSpread(l, ws, i, n);
    AtMostQuotient(n, l.debounce, span);
  }

  lemma NoLaterSpike(l: Limits, ws: seq<Write>, t: int)
    requires l.debounce > 0 && t in SpikeTimes(l, ws)
    ensures t <= Last(SpikeTimes(l, ws))
  {
    var times := SpikeTimes(l, ws);
    var i :| 0 <= i < |times| && times[i] == t;
    SpikeSpread(l, ws, i, |times| - 1 - i);
    assert (|times| - 1 - i) * l.debounce >= 0;
  }

  /** With nothing pushed out, as for writes in time order, a spike fires exactly when the writes of the whole
      history within the window reach the threshold and every earlier spike is at
      least one debounce old. */
  lemma FiresIff(l: Limits, ws: seq<Write>)
    requires LimitsOk(l) && ws != [] && NothingPushedOut(l.window, ws, |ws|)
    ensures Fires(l, ws) <==>
            && |After(ws, Last(ws).at - l.window)| >= l.threshold
            && forall t | t in SpikeTimes(l, Init(ws)) :: Last(ws).at - t >= l.debounce
  {
    WindowIsRecentHistoryIff(l.window, ws);
    LastSpikeIsLast(l, Init(ws));
    hide SpikeTimes, After, Pushed, LastSpike, NothingPushedOut;
    var times := SpikeTimes(l, Init(ws));
    forall t | t in times ensures times != [] && t <= Last(times) { NoLaterSpike(l, Init(ws), t); }
    if times != [] { assert Last(times) in times; }
  }

  // ----- The stream of one workspace or symbol --------------------------------------------------

  function OfWorkspace(ws: seq<Write>, name: string): seq<Write> {
    if ws == [] then [] else OfWorkspace(Init(ws), name) + if Last(ws).workspace == name then [Last(ws)] else []
  }

  function OfSymbol(ws: seq<Write>, symbol: string): seq<Write> {
    if ws == [] then [] else OfSymbol(Init(ws), symbol) + if Last(ws).symbol == symbol then [Last(ws)] else []
  }

  lemma StreamSnoc(ws: seq<Write>, w: Write, name: string, symbol: string)
    ensures OfWorkspace(ws + [w], name) == if w.workspace == name then OfWorkspace(ws, name) + [w] else OfWorkspace(ws, name)
    ensures OfSymbol(ws + [w], symbol) == if w.symbol == symbol then OfSymbol(ws, symbol) + [w] else OfSymbol(ws, symbol)
  {
    assert Init(ws + [w]) == ws;
  }

  lemma PushedSnoc(window: int, ws: seq<Write>, w: Write)
    ensures Pushed(window, ws + [w]) == After(Pushed(window, ws), w.at - window) + [w]
  {
    assert Init(ws + [w]) == ws;
  }

  lemma SpikeSnoc(l: Limits, ws: seq<Write>, w: Write)
    ensures LastSpike(l, ws + [w]) == if Fires(l, ws + [w]) then Some(w.at) else LastSpike(l, ws)
    ensures Fires(l, ws + [w]) <==>
            && |After(Pushed(l.window, ws), w.at - l.window) + [w]| >= l.threshold
            && (LastSpike(l, ws).None? || w.at - LastSpike(l, ws).value >= l.debounce)
  {
    PushedSnoc(l.window, ws, w);
    hide Pushed, After;
    assert Init(ws + [w]) == ws;
  }

  method Prune(ws: seq<Write>, cutoff: int) returns (kept: seq<Write>)
    ensures kept == After(ws, cutoff)
  {
    kept := [];
    for i := 0 to |ws|
      invariant kept == After(ws[..i], cutoff)
    {
      assert Init(ws[..i + 1]) == ws[..i];
      if ws[i].at > cutoff { kept := kept + [ws[i]]; }
    }
    assert ws[..|ws|] == ws;
  }

  datatype Window = Window(samples: seq<Write>, lastSpikeAt: Option<int>)

  function WindowOf(windows: map<string, Window>, name: string): Window {
    if name in windows then windows[name] else Window([], None)
  }

  /** The window and debounce clock that a stream of writes leaves. */
  function Expected(l: Limits, ws: seq<Write>): Window {
    Window(Pushed(l.window, ws), LastSpike(l, ws))
  }

  ghost predicate Follows(l: Limits, windows: map<string, Window>, history: seq<Write>) {
    forall name :: WindowOf(windows, name) == Expected(l, OfWorkspace(history, name))
  }

  lemma RecordFollows(l: Limits, windows: map<string, Window>, history: seq<Write>, w: Write)
    requires Follows(l, windows, history)
    ensures OfWorkspace(history + [w], w.workspace) == OfWorkspace(history, w.workspace) + [w]
    ensures Follows(l, windows[w.workspace := Expected(l, OfWorkspace(history, w.workspace) + [w])], history + [w])
  {
    hide Expected, OfWorkspace;
    StreamSnoc(history, w, w.workspace, "");
    var windows' := windows[w.workspace := Expected(l, OfWorkspace(history, w.workspace) + [w])];
    forall name ensures WindowOf(windows', name) == Expected(l, OfWorkspace(history + [w], name)) {
      StreamSnoc(history, w, name, "");
      assert WindowOf(windows, name) == Expected(l, OfWorkspace(history, name));
    }
  }

  class Monitor {
    const limits: Limits
    var windows: map<string, Window>
    /** Every write observed. */
    ghost var history: seq<Write>

    ghost predicate Valid()
      reads this
    {
      LimitsOk(limits) && Follows(limits, windows, history)
    }

    constructor (windowMs: int, threshold: int, debounceMs: int)
      ensures Valid() && history == []
    {
      var w := if windowMs <= 0 then 1000 else windowMs;
      limits := Limits(w, if threshold <= 0 then 8 else threshold, if debounceMs <= 0 then w else debounceMs);
      windows, history := map[], [];
    }

    /** The window and the debounce clock of one workspace follow its own history;
        the result says whether a spike fires. */
    method Record(w: Write) returns (fired: bool)
      requires Valid()
      modifies this
      ensures Valid() && history == old(history) + [w]
      ensures fired <==> Fires(limits, OfWorkspace(history, w.workspace))
    {
      hide OfWorkspace, Pushed, LastSpike, Fires, After;
      var win := WindowOf(windows, w.workspace);
      assert win == Expected(limits, OfWorkspace(history, w.workspace));
      var samples := Prune(win.samples, w.at - limits.window);
      samples := samples + [w];
      fired := |samples| >= limits.threshold && (win.lastSpikeAt.None? || w.at - win.lastSpikeAt.value >= limits.debounce);
      ghost var stream := OfWorkspace(history, w.workspace);
      PushedSnoc(limits.window, stream, w);
      SpikeSnoc(limits, stream, w);
      RecordFollows(limits, windows, history, w);
      windows := windows[w.workspace := Window(samples, if fired then Some(w.at) else win.lastSpikeAt)];
      history := history + [w];
    }
  }

  // ----- Conflict warnings -----------------------------------------------------------------------

  function Rank(k: Kind): int {
    match k
    case Cosmetic => 1
    case SymbolAdded => 2
    case SymbolRemoved => 2
    case SignatureChange => 3
    case _ => 0
  }

  function ThresholdRank(k: Kind): int {
    if k.AnyKind? then 1 else if Rank(k) > 0 then Rank(k) else 3
  }

  /** Other named workspaces with a write after `cutoff`. */
  function Peers(ws: seq<Write>, name: string): set<string> {
    set w | w in ws && w.workspace != "" && w.workspace != name :: w.workspace
  }

  /** `s` is set `p` in increasing order, cut to its first `n`. */
  ghost predicate SortedCapped(s: seq<string>, p: set<string>, n: nat) {
    && |s| == (if |p| <= n then |p| else n)
    && (forall i, j | 0 <= i < j < |s| :: StringLess(s[i], s[j]))
    && (forall x | x in s :: x in p)
    && (forall x, y | x in s && y in p && y !in s :: StringLess(x, y))
  }

  ghost predicate Lists(s: seq<string>, p: set<string>) {
    (forall x :: x in s <==> x in p) && forall i, j | 0 <= i < j < |s| :: s[i] != s[j]
  }

  method ListSet(p: set<string>) returns (s: seq<string>)
    ensures Lists(s, p) && |s| == |p|
  {
    s := [];
    var rest := p;
    while rest != {}
      invariant rest <= p && Lists(s, p - rest) && |s| + |rest| == |p|
      decreases |rest|
    {
      var x :| x in rest;
      s := s + [x];
      rest := rest - {x};
    }
    assert p - rest == p;
  }

  lemma SortedListing(s: seq<string>, p: set<string>)
    requires Lists(s, p) && |s| == |p|
    ensures Lists(Sort(StringLess, s), p) && SortedCapped(Sort(StringLess, s), p, |p|)
  {
    var t := Sort(StringLess, s);
    StringOrderIsStrictWeak();
    SortSorts(StringLess, s);
    SortPermutes(StringLess, s);
    assert |multiset(t)| == |multiset(s)|;
    forall x ensures x in t <==> x in p { assert x in multiset(t) <==> x in multiset(s); }
    forall i, j | 0 <= i < j < |t| ensures t[i] != t[j] && StringLess(t[i], t[j]) {
      OnceEach(s, t, i, j);
      StringLessTotal(t[i], t[j]);
    }
  }

  lemma {:induction false} CountOfDistinct(s: seq<string>, x: string)
    requires forall i, j | 0 <= i < j < |s| :: s[i] != s[j]
    ensures multiset(s)[x] <= 1
  {
    if s != [] {
      CountOfDistinct(Init(s), x);
      MultisetOfInit(s);
      if x == Last(s) { assert x !in Init(s); }
    }
  }

  lemma CountOfTwice(t: seq<string>, i: nat, j: nat)
    requires i < j < |t|
    ensures t[i] == t[j] ==> multiset(t)[t[i]] >= 2
  {
    if t[i] == t[j] {
      assert t == t[..j] + [t[j]] + t[j + 1..];
      assert t[i] in t[..j];
      assert t[i] in multiset(t[..j]);
    }
  }

  lemma OnceEach(s: seq<string>, t: seq<string>, i: nat, j: nat)
    requires multiset(s) == multiset(t) && (forall k, l | 0 <= k < l < |s| :: s[k] != s[l]) && i < j < |t|
    ensures t[i] != t[j]
  {
    CountOfDistinct(s, t[i]);
    CountOfTwice(t, i, j);
  }

  lemma CapSorted(s: seq<string>, p: set<string>, n: nat)
    requires Lists(s, p) && SortedCapped(s, p, |p|) && |s| == |p|
    ensures SortedCapped(if |s| > n then s[..n] else s, p, n)
  {
    if |s| > n {
      var t := s[..n];
      assert forall k | 0 <= k < n :: t[k] == s[k] && t[k] in t;
      forall x, y | x in t && y in p && y !in t ensures StringLess(x, y) {
        var i :| 0 <= i < n && s[i] == x;
        var j :| 0 <= j < |s| && s[j] == y;
        assert j >= n;
      }
    }
  }

  lemma IncreasingIsSorted(s: seq<string>, p: set<string>, n: nat)
    requires SortedCapped(s, p, n)
    ensures Sorted(StringLess, s)
  {
    forall i, j | 0 <= i < j < |s| ensures !StringLess(s[j], s[i]) { StringLessTotal(s[i], s[j]); }
  }

  datatype Warning = Warning(symbol: string, kind: Kind, peers: seq<string>, workspaces: seq<string>)

  function WritersOf(writers: map<string, seq<Write>>, symbol: string): seq<Write> {
    if symbol in writers then writers[symbol] else []
  }

  ghost predicate Keeps(window: int, writers: map<string, seq<Write>>, passed: seq<Write>) {
    forall symbol :: WritersOf(writers, symbol) == Pushed(window, OfSymbol(passed, symbol))
  }

  lemma ClassifyKeeps(window: int, writers: map<string, seq<Write>>, passed: seq<Write>, w: Write)
    requires Keeps(window, writers, passed)
    ensures OfSymbol(passed + [w], w.symbol) == OfSymbol(passed, w.symbol) + [w]
    ensures Keeps(window, writers[w.symbol := After(WritersOf(writers, w.symbol), w.at - window) + [w]], passed + [w])
  {
    hide Pushed, After, OfSymbol;
    PushedSnoc(window, OfSymbol(passed, w.symbol), w);
    StreamSnoc(passed, w, "", w.symbol);
    assert WritersOf(writers, w.symbol) == Pushed(window, OfSymbol(passed, w.symbol));
    var writers' := writers[w.symbol := After(WritersOf(writers, w.symbol), w.at - window) + [w]];
    forall symbol ensures WritersOf(writers', symbol) == Pushed(window, OfSymbol(passed + [w], symbol)) {
      StreamSnoc(passed, w, "", symbol);
      assert WritersOf(writers, symbol) == Pushed(window, OfSymbol(passed, symbol));
    }
  }

  class ConflictFilter {
    const threshold: Kind
    const window: int
    const maxPeers: nat
    var writers: map<string, seq<Write>>
    /** Every write that passed the threshold and names a symbol. */
    ghost var passed: seq<Write>

    ghost predicate Valid()
      reads this
    {
      window > 0 && maxPeers > 0 && Keeps(window, writers, passed)
    }

    constructor (semanticThreshold: Kind, windowMs: int, peers: int)
      ensures Valid() && passed == [] && threshold == semanticThreshold
    {
      threshold := semanticThreshold;
      window := if windowMs <= 0 then 2000 else windowMs;
      maxPeers := if peers <= 0 then 8 else peers;
      writers, passed := map[], [];
    }

    /** A write below the threshold, or without a symbol, warns of nothing and leaves
        no trace. Otherwise the warning lists exactly the first `maxPeers`, in order, of
        the other workspaces with a surviving write on the symbol, and there is one
        exactly if there are any. With nothing pushed out, as for writes in time order,
        these are the workspaces with any passing write on the symbol inside the window. */
    method Classify(w: Write) returns (spike: bool, warning: Option<Warning>)
      requires Valid()
      modifies this
      ensures Valid()
      ensures spike <==> Rank(w.kind) >= ThresholdRank(threshold)
      ensures !spike || w.symbol == "" ==> warning.None? && passed == old(passed)
      ensures spike && w.symbol != "" ==> passed == old(passed) + [w]
      ensures spike && w.symbol != "" ==>
                OfSymbol(passed, w.symbol) == OfSymbol(old(passed), w.symbol) + [w]
                && Warns(warning, w, Peers(Others(window, OfSymbol(passed, w.symbol)), w.workspace), maxPeers)
      ensures spike && w.symbol != "" && NothingPushedOut(window, OfSymbol(passed, w.symbol), |OfSymbol(passed, w.symbol)|) ==>
                Warns(warning, w, Peers(After(OfSymbol(old(passed), w.symbol), w.at - window), w.workspace), maxPeers)
    {
      hide OfSymbol, Pushed, After, NothingPushedOut, Survivors, Warns, Peers;
      spike := Rank(w.kind) >= ThresholdRank(threshold);
      if !spike || w.symbol == "" { return spike, None; }
      var recent := Prune(WritersOf(writers, w.symbol), w.at - window);
      ClassifyKeeps(window, writers, passed, w);
      PrunedStream(window, OfSymbol(passed, w.symbol), w);
      assert WritersOf(writers, w.symbol) == Pushed(window, OfSymbol(passed, w.symbol));
      writers := writers[w.symbol := recent + [w]];
      passed := passed + [w];
      warning := Warn(w, Peers(recent, w.workspace), maxPeers);
    }
  }

  /** The survivors before the last write. */
  function Others(window: int, ws: seq<Write>): seq<Write>
    requires ws != []
  {
    Survivors(window, ws, |ws| - 1)
  }

  /** Sorts and caps the peers, and lists the writer among the workspaces. */
  method Warn(w: Write, peers: set<string>, maxPeers: nat) returns (warning: Option<Warning>)
    ensures Warns(warning, w, peers, maxPeers)
  {
    if peers == {} { return None; }
    var list := ListSet(peers);
    SortedListing(list, peers);
    list := Sort(StringLess, list);
    CapSorted(list, peers, maxPeers);
    if |list| > maxPeers { list := list[..maxPeers]; }
    IncreasingIsSorted(list, peers, maxPeers);
    hide SortedCapped, Sorted, Lists, Sort, StrictWeak;
    var workspaces := list;
    if w.workspace != "" {
      workspaces := workspaces + [w.workspace];
      StringOrderIsStrictWeak();
      SortSorts(StringLess, workspaces);
      SortPermutes(StringLess, workspaces);
      workspaces := Sort(StringLess, workspaces);
    }
    warning := Some(Warning(w.symbol, w.kind, list, workspaces));
  }

  lemma PrunedStream(window: int, stream: seq<Write>, w: Write)
    requires window > 0
    ensures After(Pushed(window, stream), w.at - window) == Others(window, stream + [w])
    ensures NothingPushedOut(window, stream + [w], |stream| + 1) ==>
              After(Pushed(window, stream), w.at - window) == After(stream, w.at - window)
  {
    hide After, Pushed, Survivors;
    WindowHoldsSurvivors(window, stream);
    SurvivorsStep(window, stream, w, |stream|);
    if NothingPushedOut(window, stream + [w], |stream| + 1) {
      assert NothingPushedOut(window, stream + [w], |stream|);
      SurvivorsAmongRecent(window, stream + [w], |stream|);
      assert (stream + [w])[..|stream|] == stream;
    }
  }

  /** The warning for `w` given the conflicting workspaces. */
  ghost predicate Warns(warning: Option<Warning>, w: Write, peers: set<string>, n: nat) {
    && (warning.None? <==> peers == {})
    && (warning.Some? ==>
          && warning.value.symbol == w.symbol && warning.value.kind == w.kind
          && SortedCapped(warning.value.peers, peers, n)
          && multiset(warning.value.workspaces) ==
             multiset(warning.value.peers) + (if w.workspace == "" then multiset{} else multiset{w.workspace})
          && Sorted(StringLess, warning.value.workspaces))
  }
}
