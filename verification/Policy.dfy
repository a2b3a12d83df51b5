/** Policy engine v2 as functions of the configuration, the latch, the snapshot and the request. */
module Policy {
  import opened Ordering
  import opened Wrappers
  import opened Text

  datatype Provider = Provider(
    id: string, health: string, latency: string, cost: string, queueDepth: int,
    tags: seq<string>, reliability: string, flags: seq<string>)

  datatype Request = Request(tags: seq<string>, quality: Option<real>, labels: seq<string>)

  datatype Weights = Weights(health: real, reliability: real, cost: real, latency: real, queue: real, workload: real)

  datatype Sparse = Sparse(enabled: bool, flag: string, tradeoff: real, minScore: real)

  datatype Ssm = Ssm(enabled: bool, flag: string, bias: real, minLength: int, maxLength: int, sensitivity: real)

  datatype Config = Config(
    enabled: bool, version: string, baseline: string, minConfidence: real, maxQueueDepth: int,
    weights: Weights, sparse: Sparse, ssm: Ssm)

  /** The score plugin: a new score for a provider, or an error. */
  type Adjuster = (string, real, seq<string>) -> Option<real>

  datatype Decision = Decision(
    version: string, epoch: nat, selected: string, chain: seq<string>, confidence: real, reason: string)

  // ----- Configuration ---------------------------------------------------------------

  const DEFAULT_WEIGHTS := Weights(0.35, 0.25, 0.10, 0.10, 0.10, 0.10)

  function NormalWeights(w: Weights): Weights {
    var n := Weights(
               if w.health < 0.0 then 0.35 else w.health, if w.reliability < 0.0 then 0.25 else w.reliability,
               if w.cost < 0.0 then 0.10 else w.cost, if w.latency < 0.0 then 0.10 else w.latency,
               if w.queue < 0.0 then 0.10 else w.queue, if w.workload < 0.0 then 0.10 else w.workload);
    if TotalWeight(n) == 0.0 then DEFAULT_WEIGHTS else n
  }

  function TotalWeight(w: Weights): real { w.health + w.reliability + w.cost + w.latency + w.queue + w.workload }

  function NormalSparse(s: Sparse): Sparse {
    Sparse(s.enabled, if s.flag == "" then "hhd.sparse_quantized_assist" else s.flag,
           if s.tradeoff < -1.0 || s.tradeoff > 1.0 then 0.0 else s.tradeoff,
           if s.minScore < 0.0 || s.minScore > 1.0 then 0.98 else s.minScore)
  }

  function NormalSsm(s: Ssm): Ssm {
    var low := if s.minLength <= 0 then 2048 else s.minLength;
    Ssm(s.enabled, if s.flag == "" then "hhd.ssm_sequence_assist" else s.flag,
        if s.bias < -1.0 || s.bias > 1.0 then 0.0 else s.bias,
        low, if s.maxLength <= low then 32768 else s.maxLength,
        if s.sensitivity < 0.0 || s.sensitivity > 2.0 then 1.0 else s.sensitivity)
  }

  function NormalConfig(c: Config): Config {
    Config(c.enabled, if TrimSpace(c.version) == "" then "policy-v2" else c.version,
           if TrimSpace(c.baseline) == "" then "cpu-baseline" else c.baseline,
           if c.minConfidence < 0.0 || c.minConfidence > 1.0 then 0.50 else c.minConfidence,
           if c.maxQueueDepth <= 0 then 32 else c.maxQueueDepth,
           NormalWeights(c.weights), NormalSparse(c.sparse), NormalSsm(c.ssm))
  }

  /** What `NewPolicyEngineV2` leaves to rely on. */
  predicate WeightsOk(w: Weights) {
    w.health >= 0.0 && w.reliability >= 0.0 && w.cost >= 0.0 && w.latency >= 0.0 && w.queue >= 0.0 && w.workload >= 0.0
    && TotalWeight(w) > 0.0
  }

  predicate ConfigOk(c: Config) {
    && TrimSpace(c.baseline) != "" && TrimSpace(c.version) != "" && 0.0 <= c.minConfidence <= 1.0 && c.maxQueueDepth > 0
    && WeightsOk(c.weights)
  }

  /** Normalising establishes what `Select` relies on, and a second time changes nothing. */
  lemma NormalConfigIsOk(c: Config)
    ensures ConfigOk(NormalConfig(c)) && NormalConfig(NormalConfig(c)) == NormalConfig(c)
  {
    assert TrimSpace("policy-v2") == "policy-v2" && TrimSpace("cpu-baseline") == "cpu-baseline";
  }

  /** A sequence length the assist accepts. */
  predicate InWindow(s: Ssm, n: int) { s.minLength <= n <= s.maxLength }

  /** Some length is accepted, unless the lower bound is beyond the default upper
      bound and the upper bound given is not above it. */
  lemma SequenceWindowIff(s: Ssm)
    ensures (exists n :: n > 0 && InWindow(NormalSsm(s), n)) <==> !(s.minLength > 32768 && s.maxLength <= s.minLength)
  {
    assert NormalSsm(s).minLength > 0;
    if !(s.minLength > 32768 && s.maxLength <= s.minLength) { assert InWindow(NormalSsm(s), NormalSsm(s).minLength); }
  }

  /** For example, asking for sequences from 40000 on and giving no upper bound. */
  lemma EmptySequenceWindow()
    ensures var n := NormalSsm(Ssm(true, "", 0.5, 40000, 0, 1.0)); n.minLength == 40000 && n.maxLength == 32768
    ensures forall n :: !InWindow(NormalSsm(Ssm(true, "", 0.5, 40000, 0, 1.0)), n)
  {
  }

  // ----- Scores --------------------------------------------------------------------------

  function Clamp01(v: real): real { if v < 0.0 then 0.0 else if v > 1.0 then 1.0 else v }

  function HealthScore(s: string): real {
    if Norm(s) == "healthy" then 1.0 else if Norm(s) == "degraded" then 0.5 else 0.0
  }

  function HealthRank(s: string): int {
    if Norm(s) == "healthy" then 2 else if Norm(s) == "degraded" then 1 else 0
  }

  function ReliabilityScore(s: string): real {
    var n := Norm(s);
    if n == "platinum" then 1.0 else if n == "gold" then 0.9 else if n == "standard" then 0.7
    else if n == "silver" then 0.6 else if n == "bronze" then 0.4 else 0.5
  }

  function ReliabilityRank(s: string): int {
    var n := Norm(s);
    if n == "platinum" then 5 else if n == "gold" then 4 else if n == "standard" then 3
    else if n == "silver" then 2 else if n == "bronze" then 1 else 0
  }

  function CostScore(s: string): real {
    var n := Norm(s);
    if n == "low" then 1.0 else if n == "medium" then 0.7 else if n == "high" then 0.4 else 0.6
  }

  function LatencyScore(s: string): real {
    var n := Norm(s);
    if n == "ultra" then 1.0 else if n == "fast" then 0.9 else if n == "baseline" then 0.7 else if n == "slow" then 0.4 else 0.6
  }

  function QueueScore(depth: int, maxDepth: int): real {
    var limit := if maxDepth <= 0 then 1 else maxDepth;
    if depth <= 0 then 1.0 else Clamp01(1.0 - depth as real / limit as real)
  }

  function NormSet(tags: seq<string>): set<string> {
    set t | t in tags && Norm(t) != "" :: Norm(t)
  }

  function Matched(required: seq<string>, supported: set<string>): nat {
    if required == [] then 0
    else Matched(Init(required), supported) + if Norm(Last(required)) in supported then 1 else 0
  }

  function WorkloadScore(required: seq<string>, supported: seq<string>): real {
    if required == [] then 1.0 else if supported == [] then 0.0
    else Clamp01(Matched(required, NormSet(supported)) as real / |required| as real)
  }

  /** Trimmed, blank-free, duplicate-free, sorted. */
  function Dedupe(values: seq<string>): seq<string> {
    if values == [] then []
    else var rest, v := Dedupe(Init(values)), TrimSpace(Last(values));
         if v == "" || v in rest then rest else rest + [v]
  }

  function DedupeAndSort(values: seq<string>): seq<string> { Sort(StringLess, Dedupe(values)) }

  predicate Eligible(cfg: Config, tags: seq<string>, p: Provider) {
    && TrimSpace(p.id) != ""
    && Lower(p.health) != "unavailable"
    && (p.id == cfg.baseline || tags == [] || NormSet(tags) * NormSet(p.tags) != {})
  }

  datatype Candidate = Candidate(
    id: string, score: real, confidence: real, healthRank: int, reliabilityRank: int,
    cost: real, latency: real, queue: real, flags: seq<string>)

  function Part(weight: real, score: real): real { weight * score }

  function BaseScore(w: Weights, maxDepth: int, tags: seq<string>, p: Provider): real {
    Part(w.health, HealthScore(p.health)) + Part(w.reliability, ReliabilityScore(p.reliability))
    + Part(w.cost, CostScore(p.cost)) + Part(w.latency, LatencyScore(p.latency))
    + Part(w.queue, QueueScore(p.queueDepth, maxDepth)) + Part(w.workload, WorkloadScore(tags, p.tags))
  }

  function Divisor(w: Weights): real {
    if TotalWeight(w) <= 0.0 then 1.0 else TotalWeight(w)
  }

  function Scored(cfg: Config, tags: seq<string>, p: Provider): Candidate {
    var score := BaseScore(cfg.weights, cfg.maxQueueDepth, tags, p);
    Candidate(p.id, score, Clamp01(score / Divisor(cfg.weights)), HealthRank(p.health), ReliabilityRank(p.reliability),
              CostScore(p.cost), LatencyScore(p.latency), QueueScore(p.queueDepth, cfg.maxQueueDepth), p.flags)
  }

  function IfEligible(cfg: Config, tags: seq<string>, p: Provider): seq<Candidate> {
    if Eligible(cfg, tags, p) then [Scored(cfg, tags, p)] else []
  }

  function ScoreCandidates(cfg: Config, tags: seq<string>, ps: seq<Provider>): seq<Candidate> {
    if ps == [] then [] else ScoreCandidates(cfg, tags, Init(ps)) + IfEligible(cfg, tags, Last(ps))
  }

  // ----- Assists and the plugin ------------------------------------------------------------

  predicate HasFlag(flags: seq<string>, target: string) {
    Norm(target) != "" && exists f | f in flags :: Norm(f) == Norm(target)
  }

  function Shifted(c: Candidate, delta: real): Candidate {
    c.(score := c.score + delta, confidence := Clamp01(c.confidence + delta))
  }

  predicate Targeted(tags: seq<string>) {
    exists t | t in tags :: Norm(t) == "merge-assist" || Norm(t) == "inference-heavy"
  }

  function SparseDelta(tradeoff: real, cost: real, latency: real, tags: seq<string>): real {
    if tradeoff == 0.0 || !Targeted(tags) then 0.0 else tradeoff * (cost - latency)
  }

  function SparseBoost(cfg: Config, tags: seq<string>, c: Candidate): Candidate {
    if HasFlag(c.flags, cfg.sparse.flag) then Shifted(c, SparseDelta(cfg.sparse.tradeoff, c.cost, c.latency, tags)) else c
  }

  predicate LongContext(tags: seq<string>) {
    exists t | t in tags :: Norm(t) == "long-context" || Norm(t) == "sequence-heavy" || Norm(t) == "ssm-assist"
  }

  datatype Signal = NoSignal | Invalid | Length(n: int)

  function ParseLabel(raw: string): Option<(string, string)> {
    var r := Norm(raw);
    if r == "" then None
    else match Cut(r, if '=' in r then '=' else ':')
         case None => None
         case Some(parts) =>
           var key, value := TrimSpace(parts.0), TrimSpace(parts.1);
           if key == "" || value == "" then None else Some((key, value))
  }

  /** The first label that names a sequence length decides. */
  function SequenceSignal(labels: seq<string>): Signal {
    if labels == [] then NoSignal
    else match ParseLabel(labels[0])
         case None => SequenceSignal(labels[1..])
         case Some(kv) =>
           if kv.0 !in {"sequence_length", "sequence.length", "context_tokens", "context.tokens"} then SequenceSignal(labels[1..])
           else match Atoi(kv.1)
                case None => Invalid
                case Some(n) => if n <= 0 then Invalid else Length(n)
  }

  function NormalLength(n: int, low: int, high: int): real {
    if high <= low then 1.0 else Clamp01((n - low) as real / (high - low) as real)
  }

  function SsmDelta(ssm: Ssm, length: real, latency: real, queue: real): real {
    if ssm.bias == 0.0 then 0.0
    else ssm.bias * Clamp01((latency + queue) / 2.0) * (1.0 + Clamp01(length) * ssm.sensitivity)
  }

  function SsmShift(cfg: Config, length: real, c: Candidate): real {
    if HasFlag(c.flags, cfg.ssm.flag) then SsmDelta(cfg.ssm, length, c.latency, c.queue) else 0.0
  }

  function SsmBoost(cfg: Config, length: real, c: Candidate): Candidate {
    if SsmShift(cfg, length, c) == 0.0 then c else Shifted(c, SsmShift(cfg, length, c))
  }

  function Map(f: Candidate -> Candidate, cs: seq<Candidate>): seq<Candidate> {
    seq(|cs|, i requires 0 <= i < |cs| => f(cs[i]))
  }

  function Adjusted(adjust: Adjuster, tags: seq<string>, c: Candidate): Candidate {
    var r := adjust(c.id, c.score, tags);
    if r.None? then c else c.(score := r.value, confidence := Clamp01(r.value))
  }

  predicate PluginFails(adjuster: Option<Adjuster>, tags: seq<string>, cs: seq<Candidate>) {
    adjuster.Some? && exists c | c in cs :: adjuster.value(c.id, c.score, tags).None?
  }

  // ----- Select ------------------------------------------------------------------------------

  predicate SparseActive(cfg: Config, latch: bool) { cfg.sparse.enabled && !latch }

  predicate Breached(cfg: Config, latch: bool, r: Request) {
    SparseActive(cfg, latch) && r.quality.Some? && r.quality.value < cfg.sparse.minScore
  }

  function SignalOf(cfg: Config, r: Request): Signal {
    if cfg.ssm.enabled && LongContext(r.tags) then SequenceSignal(r.labels) else NoSignal
  }

  /** Why `Select` returns the baseline before ranking, if it does. */
  function EarlyReason(cfg: Config, latch: bool, cs: seq<Candidate>, r: Request): Option<string> {
    if !cfg.enabled then Some("feature_disabled")
    else if cs == [] then Some("no_eligible_provider")
    else if Breached(cfg, latch, r) then Some("quality_guardrail_autodisable")
    else match SignalOf(cfg, r)
         case NoSignal => None
         case Invalid => Some("ssm_signal_invalid_fallback")
         case Length(n) => if InWindow(cfg.ssm, n) then None else Some("ssm_signal_out_of_threshold_fallback")
  }

  function BaselineDecision(cfg: Config, epoch: nat, reason: string): Decision {
    Decision(if reason == "feature_disabled" then "cpu-baseline-default" else cfg.version,
             epoch, cfg.baseline, [cfg.baseline], 1.0, reason)
  }

  function AfterSparse(cfg: Config, latch: bool, r: Request, cs: seq<Candidate>): seq<Candidate> {
    if SparseActive(cfg, latch) then Map(c => SparseBoost(cfg, DedupeAndSort(r.tags), c), cs) else cs
  }

  function AfterSsm(cfg: Config, r: Request, cs: seq<Candidate>): seq<Candidate> {
    match SignalOf(cfg, r)
    case Length(n) => Map(c => SsmBoost(cfg, NormalLength(n, cfg.ssm.minLength, cfg.ssm.maxLength), c), cs)
    case _ => cs
  }

  predicate SsmApplied(cfg: Config, r: Request, cs: seq<Candidate>) {
    match SignalOf(cfg, r)
    case Length(n) => exists c | c in cs :: SsmShift(cfg, NormalLength(n, cfg.ssm.minLength, cfg.ssm.maxLength), c) != 0.0
    case _ => false
  }

  function AfterPlugin(adjuster: Option<Adjuster>, tags: seq<string>, cs: seq<Candidate>): seq<Candidate> {
    if adjuster.None? || PluginFails(adjuster, tags, cs) then cs else Map(c => Adjusted(adjuster.value, tags, c), cs)
  }

  /** Ranks before: higher score, then health, then reliability, then smaller id. */
  predicate Before(a: Candidate, b: Candidate) {
    if a.score != b.score then a.score > b.score
    else if a.healthRank != b.healthRank then a.healthRank > b.healthRank
    else if a.reliabilityRank != b.reliabilityRank then a.reliabilityRank > b.reliabilityRank
    else StringLess(a.id, b.id)
  }

  function Ids(cs: seq<Candidate>): seq<string> {
    seq(|cs|, i requires 0 <= i < |cs| => cs[i].id)
  }

  /** First occurrences only. */
  function Unique(s: seq<string>): seq<string> {
    if s == [] then [] else if Last(s) in Init(s) then Unique(Init(s)) else Unique(Init(s)) + [Last(s)]
  }

  function ChainFor(baseline: string, selected: string, ids: seq<string>): seq<string> {
    Unique((if selected == baseline then [baseline] else []) + ids + [baseline])
  }

  /** `latch` is what was read to decide on the sparse assist, `later` what was read for the reason. */
  function Rank(cfg: Config, latch: bool, later: bool, epoch: nat, ranked: seq<Candidate>, failed: bool, ssm: bool): Decision
    requires ranked != []
  {
    var low := ranked[0].confidence < cfg.minConfidence;
    var selected := if low then cfg.baseline else ranked[0].id;
    var reason := if low then "low_confidence_baseline"
                  else if failed then "plugin_failed_fallback"
                  else if cfg.sparse.enabled && later then "sparse_quantized_auto_disabled"
                  else if SparseActive(cfg, latch) then "sparse_quantized_assist_selected"
                  else if ssm then "ssm_assist_selected" else "selected";
    Decision(cfg.version, epoch, selected, ChainFor(cfg.baseline, selected, Ids(ranked)),
             if low then 1.0 else ranked[0].confidence, reason)
  }

  /** The candidates with the assists applied, before and after the plugin. */
  function Assisted(cfg: Config, latch: bool, ps: seq<Provider>, r: Request): seq<Candidate> {
    AfterSsm(cfg, r, AfterSparse(cfg, latch, r, ScoreCandidates(cfg, DedupeAndSort(r.tags), ps)))
  }

  function Contenders(cfg: Config, latch: bool, ps: seq<Provider>, r: Request, adjuster: Option<Adjuster>): seq<Candidate> {
    AfterPlugin(adjuster, DedupeAndSort(r.tags), Assisted(cfg, latch, ps, r))
  }

  lemma ContendersCount(cfg: Config, latch: bool, ps: seq<Provider>, r: Request, adjuster: Option<Adjuster>)
    ensures |Sort(Before, Contenders(cfg, latch, ps, r, adjuster))| == |ScoreCandidates(cfg, DedupeAndSort(r.tags), ps)|
  {
    SortLength(Contenders(cfg, latch, ps, r, adjuster));
  }

  function Decide(cfg: Config, latch: bool, epoch: nat, ps: seq<Provider>, r: Request, adjuster: Option<Adjuster>): Decision {
    var tags := DedupeAndSort(r.tags);
    var scored := ScoreCandidates(cfg, tags, ps);
    match EarlyReason(cfg, latch, scored, r)
    case Some(reason) => BaselineDecision(cfg, epoch, reason)
    case None =>
      ContendersCount(cfg, latch, ps, r, adjuster);
      Rank(cfg, latch, latch, epoch, Sort(Before, Contenders(cfg, latch, ps, r, adjuster)),
           PluginFails(adjuster, tags, Assisted(cfg, latch, ps, r)), SsmApplied(cfg, r, AfterSparse(cfg, latch, r, scored)))
  }

  /** With a window that accepts nothing, every long-context request that states its
      length is answered with the baseline, as if it were out of range. */
  lemma EmptyWindowRefusesAll(c: Config, latch: bool, epoch: nat, ps: seq<Provider>, r: Request, adjuster: Option<Adjuster>)
    requires c.ssm.minLength > 32768 && c.ssm.maxLength <= c.ssm.minLength
    requires var cfg := NormalConfig(c);
             cfg.enabled && !Breached(cfg, latch, r) && SignalOf(cfg, r).Length? && ScoreCandidates(cfg, DedupeAndSort(r.tags), ps) != []
    ensures var cfg := NormalConfig(c);
            Decide(cfg, latch, epoch, ps, r, adjuster) == BaselineDecision(cfg, epoch, "ssm_signal_out_of_threshold_fallback")
  {
    SequenceWindowIff(c.ssm);
    var cfg := NormalConfig(c);
    hide ScoreCandidates, DedupeAndSort, SignalOf, Breached;
    assert SignalOf(cfg, r).n > 0 by { LengthsArePositive(cfg, r); }
    assert !InWindow(cfg.ssm, SignalOf(cfg, r).n);
  }

  lemma LengthsArePositive(cfg: Config, r: Request)
    ensures SignalOf(cfg, r).Length? ==> SignalOf(cfg, r).n > 0
  {
    SignalIsPositive(r.labels);
  }

  lemma {:induction false} SignalIsPositive(labels: seq<string>)
    ensures SequenceSignal(labels).Length? ==> SequenceSignal(labels).n > 0
  {
    if labels != [] { SignalIsPositive(labels[1..]); }
  }

  lemma SortLength(cs: seq<Candidate>)
    ensures |Sort(Before, cs)| == |cs|
  {
    SortPermutes(Before, cs);
    assert |multiset(Sort(Before, cs))| == |multiset(cs)|;
  }

  // ----- FallbackOnFailure --------------------------------------------------------------------

  function FailureClass(raw: string): string {
    if Norm(raw) in {"unavailable", "capacity_exhausted", "timeout", "contract_incompatible", "quality_guardrail"}
    then Norm(raw) else "provider_failure"
  }

  /** The entry behind the first `failed` in the chain; the baseline if there is none. */
  function Successor(chain: seq<string>, failed: string, baseline: string): string {
    if chain == [] then baseline
    else if chain[0] == failed then (if |chain| > 1 then chain[1] else baseline)
    else Successor(chain[1..], failed, baseline)
  }

  function Fallback(cfg: Config, d: Decision, failed: string, cls: string): Decision {
    var chain := if d.chain == [] then [cfg.baseline] else d.chain;
    var name := if TrimSpace(failed) == "" then d.selected else TrimSpace(failed);
    var next := Successor(chain, name, cfg.baseline);
    d.(chain := chain, selected := if TrimSpace(next) == "" then cfg.baseline else next,
       confidence := 1.0, reason := "fallback_" + FailureClass(cls))
  }
}
