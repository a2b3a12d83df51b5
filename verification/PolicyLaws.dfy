/** What `Select` and `FallbackOnFailure` promise, for every configuration and snapshot. */
module PolicyLaws {
  import opened Ordering
  import opened Wrappers
  import opened Text
  import opened Policy

  // ----- The order of the snapshot does not matter ------------------------------------

  lemma BeforeIsStrictWeak()
    ensures StrictWeak(Before)
  {
    StringOrderIsStrictWeak();
    forall x: Candidate, y: Candidate, z: Candidate | Before(x, z) ensures Before(x, y) || Before(y, z) {
      assert StringLess(x.id, z.id) ==> StringLess(x.id, y.id) || StringLess(y.id, z.id);
    }
    forall x: Candidate, y: Candidate, z: Candidate | Before(x, y) && Before(y, z) ensures Before(x, z) {
      assert StringLess(x.id, y.id) && StringLess(y.id, z.id) ==> StringLess(x.id, z.id);
    }
  }

  lemma {:induction false} ScoreWithout(cfg: Config, tags: seq<string>, ps: seq<Provider>, i: nat)
    requires i < |ps|
    ensures multiset(ScoreCandidates(cfg, tags, ps)) ==
            multiset(ScoreCandidates(cfg, tags, ps[..i] + ps[i + 1..])) + multiset(IfEligible(cfg, tags, ps[i]))
    decreases |ps|
  {
    hide IfEligible;
    var rest := ps[..i] + ps[i + 1..];
    if i == |ps| - 1 {
      assert rest == Init(ps);
    } else {
      ScoreWithout(cfg, tags, Init(ps), i);
      assert Init(rest) == Init(ps)[..i] + Init(ps)[i + 1..] && Last(rest) == Last(ps);
    }
  }

  lemma {:induction false} ScorePermutes(cfg: Config, tags: seq<string>, ps: seq<Provider>, qs: seq<Provider>)
    requires multiset(ps) == multiset(qs)
    ensures multiset(ScoreCandidates(cfg, tags, ps)) == multiset(ScoreCandidates(cfg, tags, qs))
    decreases |ps|
  {
    hide IfEligible;
    assert |multiset(ps)| == |multiset(qs)|;
    if ps != [] {
      var i := MatchLast(ps, qs);
      ScorePermutes(cfg, tags, Init(ps), qs[..i] + qs[i + 1..]);
      ScoreWithout(cfg, tags, qs, i);
    }
  }

  lemma MapWithout(f: Candidate -> Candidate, cs: seq<Candidate>, i: nat)
    requires i < |cs|
    ensures multiset(Map(f, cs)) == multiset(Map(f, cs[..i] + cs[i + 1..])) + multiset{f(cs[i])}
  {
    var rest := cs[..i] + cs[i + 1..];
    assert Map(f, cs) == Map(f, cs[..i]) + [f(cs[i])] + Map(f, cs[i + 1..]);
    assert Map(f, rest) == Map(f, cs[..i]) + Map(f, cs[i + 1..]);
  }

  lemma {:induction false} MapPermutes(f: Candidate -> Candidate, a: seq<Candidate>, b: seq<Candidate>)
    requires multiset(a) == multiset(b)
    ensures multiset(Map(f, a)) == multiset(Map(f, b))
    decreases |a|
  {
    assert |multiset(a)| == |multiset(b)|;
    if a == [] {
      assert Map(f, a) == Map(f, b);
    } else {
      var i := MatchLast(a, b);
      MapPermutes(f, Init(a), b[..i] + b[i + 1..]);
      MapWithout(f, b, i);
      assert Map(f, a) == Map(f, Init(a)) + [f(Last(a))];
    }
  }

  lemma SameElements(a: seq<Candidate>, b: seq<Candidate>)
    requires multiset(a) == multiset(b)
    ensures forall c :: c in a <==> c in b
  {
    forall c ensures c in a <==> c in b { assert c in a <==> c in multiset(a); }
  }

  /** Providers that share an id are the same provider. */
  predicate IdsIdentify(ps: seq<Provider>) {
    forall p, q | p in ps && q in ps && p.id == q.id :: p == q
  }

  predicate Identified(cs: seq<Candidate>) {
    forall a, b | a in cs && b in cs && a.id == b.id :: a == b
  }

  lemma {:induction false} ScoredFrom(cfg: Config, tags: seq<string>, ps: seq<Provider>, c: Candidate)
    ensures c in ScoreCandidates(cfg, tags, ps) <==> exists p | p in ps :: Eligible(cfg, tags, p) && c == Scored(cfg, tags, p)
  {
    hide Eligible, Scored;
    if ps != [] {
      ScoredFrom(cfg, tags, Init(ps), c);
      assert ps == Init(ps) + [Last(ps)];
    }
  }

  lemma ScoredIdentified(cfg: Config, tags: seq<string>, ps: seq<Provider>)
    requires IdsIdentify(ps)
    ensures Identified(ScoreCandidates(cfg, tags, ps))
  {
    var cs := ScoreCandidates(cfg, tags, ps);
    forall a, b | a in cs && b in cs && a.id == b.id ensures a == b {
      ScoredFrom(cfg, tags, ps, a);
      ScoredFrom(cfg, tags, ps, b);
      var p :| p in ps && Eligible(cfg, tags, p) && a == Scored(cfg, tags, p);
      var q :| q in ps && Eligible(cfg, tags, q) && b == Scored(cfg, tags, q);
    }
  }

  /** `f` keeps ids. */
  ghost predicate KeepsIds(f: Candidate -> Candidate) {
    forall c :: f(c).id == c.id
  }

  lemma MapIdentified(f: Candidate -> Candidate, cs: seq<Candidate>)
    requires Identified(cs) && KeepsIds(f)
    ensures Identified(Map(f, cs)) && Ids(Map(f, cs)) == Ids(cs)
  {
    var ms := Map(f, cs);
    forall a, b | a in ms && b in ms && a.id == b.id ensures a == b {
      var i :| 0 <= i < |ms| && ms[i] == a;
      var j :| 0 <= j < |ms| && ms[j] == b;
      assert a == f(cs[i]) && b == f(cs[j]) && cs[i] in cs && cs[j] in cs;
    }
  }

  /** One stage of `Select` applied to permuted candidates. */
  lemma StagesPermute(cfg: Config, latch: bool, r: Request, adjuster: Option<Adjuster>, a: seq<Candidate>, b: seq<Candidate>)
    requires multiset(a) == multiset(b)
    ensures multiset(AfterSparse(cfg, latch, r, a)) == multiset(AfterSparse(cfg, latch, r, b))
    ensures multiset(AfterSsm(cfg, r, a)) == multiset(AfterSsm(cfg, r, b))
    ensures SsmApplied(cfg, r, a) == SsmApplied(cfg, r, b)
    ensures PluginFails(adjuster, DedupeAndSort(r.tags), a) == PluginFails(adjuster, DedupeAndSort(r.tags), b)
    ensures multiset(AfterPlugin(adjuster, DedupeAndSort(r.tags), a)) == multiset(AfterPlugin(adjuster, DedupeAndSort(r.tags), b))
  {
    SameElements(a, b);
    var tags := DedupeAndSort(r.tags);
    MapPermutes(c => SparseBoost(cfg, tags, c), a, b);
    if SignalOf(cfg, r).Length? {
      var length := NormalLength(SignalOf(cfg, r).n, cfg.ssm.minLength, cfg.ssm.maxLength);
      MapPermutes(c => SsmBoost(cfg, length, c), a, b);
    }
    if adjuster.Some? { MapPermutes(c => Adjusted(adjuster.value, tags, c), a, b); }
  }

  /** Every stage keeps the ids, in order, and keeps candidates identified by them. */
  lemma StagesKeepIds(cfg: Config, latch: bool, r: Request, adjuster: Option<Adjuster>, cs: seq<Candidate>)
    requires Identified(cs)
    ensures Identified(AfterSparse(cfg, latch, r, cs)) && Ids(AfterSparse(cfg, latch, r, cs)) == Ids(cs)
    ensures Identified(AfterSsm(cfg, r, cs)) && Ids(AfterSsm(cfg, r, cs)) == Ids(cs)
    ensures Identified(AfterPlugin(adjuster, DedupeAndSort(r.tags), cs)) && Ids(AfterPlugin(adjuster, DedupeAndSort(r.tags), cs)) == Ids(cs)
  {
    var tags := DedupeAndSort(r.tags);
    MapIdentified(c => SparseBoost(cfg, tags, c), cs);
    if SignalOf(cfg, r).Length? {
      var length := NormalLength(SignalOf(cfg, r).n, cfg.ssm.minLength, cfg.ssm.maxLength);
      MapIdentified(c => SsmBoost(cfg, length, c), cs);
    }
    if adjuster.Some? { MapIdentified(c => Adjusted(adjuster.value, tags, c), cs); }
  }

  /** The decision depends on the set of providers only, not on the order they are listed in. */
  lemma SelectIgnoresOrder(cfg: Config, latch: bool, epoch: nat, ps: seq<Provider>, qs: seq<Provider>, r: Request, adjuster: Option<Adjuster>)
    requires multiset(ps) == multiset(qs) && IdsIdentify(ps)
    ensures Decide(cfg, latch, epoch, ps, r, adjuster) == Decide(cfg, latch, epoch, qs, r, adjuster)
  {
    hide Sort, AfterSparse, AfterSsm, AfterPlugin, SsmApplied, PluginFails, ScoreCandidates, Identified, IdsIdentify;
    var tags := DedupeAndSort(r.tags);
    var a, b := ScoreCandidates(cfg, tags, ps), ScoreCandidates(cfg, tags, qs);
    ScorePermutes(cfg, tags, ps, qs);
    assert |multiset(a)| == |multiset(b)|;
    StagesPermute(cfg, latch, r, adjuster, a, b);
    var a1, b1 := AfterSparse(cfg, latch, r, a), AfterSparse(cfg, latch, r, b);
    StagesPermute(cfg, latch, r, adjuster, a1, b1);
    var a2, b2 := AfterSsm(cfg, r, a1), AfterSsm(cfg, r, b1);
    StagesPermute(cfg, latch, r, adjuster, a2, b2);
    ScoredIdentified(cfg, tags, ps);
    StagesKeepIds(cfg, latch, r, adjuster, a);
    StagesKeepIds(cfg, latch, r, adjuster, a1);
    StagesKeepIds(cfg, latch, r, adjuster, a2);
    RankingIsUnique(AfterPlugin(adjuster, tags, a2), AfterPlugin(adjuster, tags, b2));
  }

  lemma RankingIsUnique(a: seq<Candidate>, b: seq<Candidate>)
    requires multiset(a) == multiset(b) && Identified(a)
    ensures Sort(Before, a) == Sort(Before, b)
  {
    BeforeIsStrictWeak();
    forall x, y | x in multiset(a) && y in multiset(a) && x != y ensures Before(x, y) || Before(y, x) {
      assert x in a && y in a;
      StringLessTotal(x.id, y.id);
    }
    SortForgetsOrder(Before, a, b);
  }

  // ----- The winner and the chain ---------------------------------------------------------

  /** `w` ranks before every other contender. */
  predicate Greatest(w: Candidate, cs: seq<Candidate>) {
    w in cs && (forall c | c in cs && c.id != w.id :: Before(w, c)) && forall c | c in cs :: !Before(c, w)
  }

  /** The decision goes to `w`, or to the baseline if `w` is not trusted enough. */
  predicate Awards(cfg: Config, d: Decision, w: Candidate) {
    if w.confidence < cfg.minConfidence
    then d.selected == cfg.baseline && d.confidence == 1.0 && d.reason == "low_confidence_baseline"
    else d.selected == w.id && d.confidence == w.confidence && d.reason != "low_confidence_baseline"
  }

  ghost predicate HasWinner(cfg: Config, d: Decision, cs: seq<Candidate>) {
    exists w :: Greatest(w, cs) && Awards(cfg, d, w)
  }

  lemma FirstIsGreatest(cs: seq<Candidate>)
    requires cs != []
    ensures Sort(Before, cs) != [] && Greatest(Sort(Before, cs)[0], cs)
  {
    BeforeIsStrictWeak();
    SortLength(cs);
    SortSorts(Before, cs);
    SortPermutes(Before, cs);
    SameElements(Sort(Before, cs), cs);
    var w := Sort(Before, cs)[0];
    forall c | c in cs ensures !Before(c, w) && (c.id != w.id ==> Before(w, c)) {
      var i :| 0 <= i < |Sort(Before, cs)| && Sort(Before, cs)[i] == c;
      StringLessTotal(w.id, c.id);
    }
  }

  lemma ContendersMatchScored(cfg: Config, latch: bool, ps: seq<Provider>, r: Request, adjuster: Option<Adjuster>)
    ensures Ids(Contenders(cfg, latch, ps, r, adjuster)) == Ids(ScoreCandidates(cfg, DedupeAndSort(r.tags), ps))
  {
  }

  /** Past the early rules, the decision is a ranking of the contenders. */
  lemma DecideRanks(cfg: Config, latch: bool, epoch: nat, ps: seq<Provider>, r: Request, adjuster: Option<Adjuster>)
    requires EarlyReason(cfg, latch, ScoreCandidates(cfg, DedupeAndSort(r.tags), ps), r).None?
    ensures var cs, d := Contenders(cfg, latch, ps, r, adjuster), Decide(cfg, latch, epoch, ps, r, adjuster);
            cs != [] && Sort(Before, cs) != [] && Awards(cfg, d, Sort(Before, cs)[0])
            && d.chain == ChainFor(cfg.baseline, d.selected, Ids(Sort(Before, cs)))
  {
    ContendersCount(cfg, latch, ps, r, adjuster);
    SortLength(Contenders(cfg, latch, ps, r, adjuster));
    hide Contenders, Assisted, PluginFails, SsmApplied, AfterSparse, ScoreCandidates, ChainFor, Sort;
  }

  /** Unless an early rule or low confidence sends the request to the baseline, the
      winner is the lexicographically greatest contender: by score, health rank,
      reliability rank, then smallest id. */
  lemma WinnerIsGreatest(cfg: Config, latch: bool, epoch: nat, ps: seq<Provider>, r: Request, adjuster: Option<Adjuster>)
    requires EarlyReason(cfg, latch, ScoreCandidates(cfg, DedupeAndSort(r.tags), ps), r).None?
    ensures HasWinner(cfg, Decide(cfg, latch, epoch, ps, r, adjuster), Contenders(cfg, latch, ps, r, adjuster))
  {
    var cs := Contenders(cfg, latch, ps, r, adjuster);
    DecideRanks(cfg, latch, epoch, ps, r, adjuster);
    FirstIsGreatest(cs);
    hide Contenders, Decide, Sort, Greatest, Awards;
    assert Greatest(Sort(Before, cs)[0], cs);
  }

  predicate NoDuplicates(s: seq<string>) {
    forall i, j | 0 <= i < j < |s| :: s[i] != s[j]
  }

  lemma {:induction false} UniqueIsUnique(s: seq<string>)
    ensures NoDuplicates(Unique(s))
    ensures forall x :: x in Unique(s) <==> x in s
    ensures s != [] ==> Unique(s) != [] && Unique(s)[0] == s[0]
  {
    if s != [] {
      UniqueIsUnique(Init(s));
      assert s == Init(s) + [Last(s)];
    }
  }

  lemma IdsOf(cs: seq<Candidate>, x: string)
    ensures x in Ids(cs) <==> exists c | c in cs :: c.id == x
  {
    if x in Ids(cs) { var i :| 0 <= i < |cs| && Ids(cs)[i] == x; assert cs[i] in cs; }
    if c :| c in cs && c.id == x { var i :| 0 <= i < |cs| && cs[i] == c; assert Ids(cs)[i] == x; }
  }

  /** The fallback chain has no duplicates, starts with the selected provider and
      contains the baseline. */
  lemma ChainIsSound(cfg: Config, latch: bool, epoch: nat, ps: seq<Provider>, r: Request, adjuster: Option<Adjuster>)
    ensures var d := Decide(cfg, latch, epoch, ps, r, adjuster);
            NoDuplicates(d.chain) && d.chain != [] && d.chain[0] == d.selected && cfg.baseline in d.chain
  {
    if EarlyReason(cfg, latch, ScoreCandidates(cfg, DedupeAndSort(r.tags), ps), r).None? {
      DecideRanks(cfg, latch, epoch, ps, r, adjuster);
      var d := Decide(cfg, latch, epoch, ps, r, adjuster);
      var ids := Ids(Sort(Before, Contenders(cfg, latch, ps, r, adjuster)));
      hide Decide, Contenders, Sort, Unique, EarlyReason, ScoreCandidates;
      UniqueIsUnique((if d.selected == cfg.baseline then [cfg.baseline] else []) + ids + [cfg.baseline]);
    }
  }

  /** Outside the early returns it lists exactly the eligible providers and the baseline. */
  lemma ChainIsEligibleAndBaseline(cfg: Config, latch: bool, epoch: nat, ps: seq<Provider>, r: Request, adjuster: Option<Adjuster>, id: string)
    requires EarlyReason(cfg, latch, ScoreCandidates(cfg, DedupeAndSort(r.tags), ps), r).None?
    ensures id in Decide(cfg, latch, epoch, ps, r, adjuster).chain <==>
            id == cfg.baseline || exists p | p in ps :: Eligible(cfg, DedupeAndSort(r.tags), p) && p.id == id
  {
    var tags := DedupeAndSort(r.tags);
    var scored, cs := ScoreCandidates(cfg, tags, ps), Contenders(cfg, latch, ps, r, adjuster);
    ContendersMatchScored(cfg, latch, ps, r, adjuster);
    DecideRanks(cfg, latch, epoch, ps, r, adjuster);
    hide Decide, Unique, Sort, Contenders, ScoreCandidates, Eligible, Ids, EarlyReason;
    SortPermutes(Before, cs);
    SameElements(Sort(Before, cs), cs);
    var d := Decide(cfg, latch, epoch, ps, r, adjuster);
    UniqueIsUnique((if d.selected == cfg.baseline then [cfg.baseline] else []) + Ids(Sort(Before, cs)) + [cfg.baseline]);
    IdsOf(Sort(Before, cs), id);
    IdsOf(cs, id);
    IdsOf(scored, id);
    EligibleIds(cfg, tags, ps, id);
  }

  lemma EligibleIds(cfg: Config, tags: seq<string>, ps: seq<Provider>, id: string)
    ensures (exists c | c in ScoreCandidates(cfg, tags, ps) :: c.id == id) <==> exists p | p in ps :: Eligible(cfg, tags, p) && p.id == id
  {
    if c :| c in ScoreCandidates(cfg, tags, ps) && c.id == id { ScoredFrom(cfg, tags, ps, c); }
    if p :| p in ps && Eligible(cfg, tags, p) && p.id == id { ScoredFrom(cfg, tags, ps, Scored(cfg, tags, p)); }
  }

  // ----- Confidence ---------------------------------------------------------------------------

  lemma PartIsBounded(w: real, x: real)
    requires w >= 0.0 && 0.0 <= x <= 1.0
    ensures 0.0 <= Part(w, x) <= w
  {
  }

  lemma ShareIsBounded(x: real, total: real)
    requires 0.0 <= x <= total && total > 0.0
    ensures 0.0 <= x / total <= 1.0
  {
  }

  lemma ScoresAreBounded(maxDepth: int, tags: seq<string>, p: Provider)
    ensures 0.0 <= HealthScore(p.health) <= 1.0 && 0.0 <= ReliabilityScore(p.reliability) <= 1.0
    ensures 0.0 <= CostScore(p.cost) <= 1.0 && 0.0 <= LatencyScore(p.latency) <= 1.0
    ensures 0.0 <= QueueScore(p.queueDepth, maxDepth) <= 1.0 && 0.0 <= WorkloadScore(tags, p.tags) <= 1.0
  {
  }

  lemma BaseScoreIsBounded(w: Weights, maxDepth: int, tags: seq<string>, p: Provider)
    requires WeightsOk(w)
    ensures 0.0 <= BaseScore(w, maxDepth, tags, p) <= TotalWeight(w)
  {
    ScoresAreBounded(maxDepth, tags, p);
    hide Part, HealthScore, ReliabilityScore, CostScore, LatencyScore, QueueScore, WorkloadScore;
    PartIsBounded(w.health, HealthScore(p.health));
    PartIsBounded(w.reliability, ReliabilityScore(p.reliability));
    PartIsBounded(w.cost, CostScore(p.cost));
    PartIsBounded(w.latency, LatencyScore(p.latency));
    PartIsBounded(w.queue, QueueScore(p.queueDepth, maxDepth));
    PartIsBounded(w.workload, WorkloadScore(tags, p.tags));
  }

  /** A base score is a weighted mean: before any assist, clamping a confidence never changes it. */
  lemma BaseConfidenceIsAMean(cfg: Config, tags: seq<string>, p: Provider)
    requires WeightsOk(cfg.weights)
    ensures Scored(cfg, tags, p).confidence == BaseScore(cfg.weights, cfg.maxQueueDepth, tags, p) / TotalWeight(cfg.weights)
    ensures 0.0 <= Scored(cfg, tags, p).confidence <= 1.0
  {
    BaseScoreIsBounded(cfg.weights, cfg.maxQueueDepth, tags, p);
    hide BaseScore, TotalWeight;
    ShareIsBounded(BaseScore(cfg.weights, cfg.maxQueueDepth, tags, p), TotalWeight(cfg.weights));
  }

  // ----- The latch ------------------------------------------------------------------------------

  /** The same engine with the sparse assist switched off. */
  function WithoutSparse(cfg: Config): Config { cfg.(sparse := cfg.sparse.(enabled := false)) }

  lemma {:induction false} ScoreIgnoresSparse(cfg: Config, tags: seq<string>, ps: seq<Provider>)
    ensures ScoreCandidates(WithoutSparse(cfg), tags, ps) == ScoreCandidates(cfg, tags, ps)
  {
    hide BaseScore, NormSet, Divisor;
    if ps != [] {
      ScoreIgnoresSparse(cfg, tags, Init(ps));
      assert Scored(WithoutSparse(cfg), tags, Last(ps)) == Scored(cfg, tags, Last(ps));
    }
  }

  lemma SsmIgnoresSparse(cfg: Config, r: Request, cs: seq<Candidate>)
    ensures AfterSsm(WithoutSparse(cfg), r, cs) == AfterSsm(cfg, r, cs)
    ensures SsmApplied(WithoutSparse(cfg), r, cs) == SsmApplied(cfg, r, cs)
  {
    if SignalOf(cfg, r).Length? {
      var length := NormalLength(SignalOf(cfg, r).n, cfg.ssm.minLength, cfg.ssm.maxLength);
      forall c | c in cs
        ensures SsmShift(WithoutSparse(cfg), length, c) == SsmShift(cfg, length, c)
        ensures SsmBoost(WithoutSparse(cfg), length, c) == SsmBoost(cfg, length, c)
      {
      }
    }
  }

  /** Once latched, every decision is that of the engine without the sparse assist,
      except that "selected" and "ssm_assist_selected" read "sparse_quantized_auto_disabled". */
  lemma LatchedIsDisabled(cfg: Config, latch: bool, epoch: nat, ps: seq<Provider>, r: Request, adjuster: Option<Adjuster>)
    requires cfg.sparse.enabled
    ensures var d, off := Decide(cfg, true, epoch, ps, r, adjuster), Decide(WithoutSparse(cfg), latch, epoch, ps, r, adjuster);
            && d == off.(reason := d.reason)
            && d.reason == if off.reason in {"selected", "ssm_assist_selected"} then "sparse_quantized_auto_disabled" else off.reason
  {
    var tags := DedupeAndSort(r.tags);
    ScoreIgnoresSparse(cfg, tags, ps);
    var scored := ScoreCandidates(cfg, tags, ps);
    SsmIgnoresSparse(cfg, r, scored);
    hide NormalLength, DedupeAndSort, LongContext, SequenceSignal, Ids;
    hide ScoreCandidates, AfterSsm, SsmApplied, Sort, AfterPlugin, PluginFails, ChainFor;
  }

  // ----- Repeated fallbacks --------------------------------------------------------------------

  /** `n` failures in a row of whatever is then selected. */
  function Failures(cfg: Config, d: Decision, n: nat, cls: string): Decision {
    if n == 0 then d else Fallback(cfg, Failures(cfg, d, n - 1, cls), "", cls)
  }

  lemma {:induction false} SuccessorAt(chain: seq<string>, i: nat, baseline: string)
    requires NoDuplicates(chain) && i < |chain|
    ensures Successor(chain, chain[i], baseline) == if i + 1 < |chain| then chain[i + 1] else baseline
  {
    if i > 0 { SuccessorAt(chain[1..], i - 1, baseline); }
  }

  /** A decision as `Select` makes it, at some entry of its chain. */
  predicate OnChain(cfg: Config, d: Decision) {
    && NoDuplicates(d.chain) && TrimSpace(cfg.baseline) != ""
    && (forall id | id in d.chain :: TrimSpace(id) != "")
    && d.selected in d.chain && cfg.baseline in d.chain
  }

  /** `e` is `d` moved to entry `n` of its chain, or to the baseline past its end. */
  predicate MovedTo(cfg: Config, d: Decision, n: nat, e: Decision) {
    OnChain(cfg, e) && e.chain == d.chain && e.selected == if n < |d.chain| then d.chain[n] else cfg.baseline
  }

  lemma FallbackMoves(cfg: Config, d: Decision, n: nat, e: Decision, cls: string)
    requires MovedTo(cfg, d, n, e) && n < |d.chain|
    ensures MovedTo(cfg, d, n + 1, Fallback(cfg, e, "", cls))
  {
    SuccessorAt(d.chain, n, cfg.baseline);
  }

  lemma NotMoved(cfg: Config, d: Decision)
    requires OnChain(cfg, d) && d.selected == d.chain[0]
    ensures MovedTo(cfg, d, 0, d)
  {
  }

  /** Failing over and over visits the chain in order, each entry once, and then the baseline. */
  lemma {:induction false} FailuresVisitTheChain(cfg: Config, d: Decision, n: nat, cls: string)
    requires OnChain(cfg, d) && d.selected == d.chain[0] && n <= |d.chain|
    ensures MovedTo(cfg, d, n, Failures(cfg, d, n, cls))
  {
    hide Fallback, OnChain, MovedTo, NoDuplicates;
    if n == 0 {
      NotMoved(cfg, d);
    } else {
      FailuresVisitTheChain(cfg, d, n - 1, cls);
      FallbackMoves(cfg, d, n - 1, Failures(cfg, d, n - 1, cls), cls);
    }
  }

  /** The baseline is final exactly when it ends the chain; otherwise its own
      failure moves on to the entry ranked behind it. */
  lemma BaselineIsFinalIffLast(cfg: Config, d: Decision, cls: string)
    requires OnChain(cfg, d) && d.selected == cfg.baseline
    ensures Fallback(cfg, d, "", cls).selected == cfg.baseline <==> Last(d.chain) == cfg.baseline
  {
    var i :| 0 <= i < |d.chain| && d.chain[i] == cfg.baseline;
    FallbackMoves(cfg, d, i, d, cls);
  }

  /** For example, with provider `x` ranked behind the baseline `b`. */
  lemma BaselineFailureMovesOn(cfg: Config, d: Decision)
    requires cfg.baseline == "b" && d.selected == "b" && d.chain == ["b", "x"]
    ensures Fallback(cfg, d, "", "timeout").selected == "x"
  {
    assert TrimSpace("") == "" && TrimSpace("x") == "x";
  }

  /** Every decision of `Select` is on its chain, so its failures visit it all. */
  lemma SelectThenFail(cfg: Config, latch: bool, epoch: nat, ps: seq<Provider>, r: Request, adjuster: Option<Adjuster>, n: nat, cls: string)
    requires TrimSpace(cfg.baseline) != ""
    requires n <= |Decide(cfg, latch, epoch, ps, r, adjuster).chain|
    ensures var d := Decide(cfg, latch, epoch, ps, r, adjuster);
            Failures(cfg, d, n, cls).selected == if n < |d.chain| then d.chain[n] else cfg.baseline
  {
    var d := Decide(cfg, latch, epoch, ps, r, adjuster);
    ChainIsSound(cfg, latch, epoch, ps, r, adjuster);
    if EarlyReason(cfg, latch, ScoreCandidates(cfg, DedupeAndSort(r.tags), ps), r).None? {
      forall id | id in d.chain ensures TrimSpace(id) != "" {
        ChainIsEligibleAndBaseline(cfg, latch, epoch, ps, r, adjuster, id);
      }
    }
    FailuresVisitTheChain(cfg, d, n, cls);
  }
}
