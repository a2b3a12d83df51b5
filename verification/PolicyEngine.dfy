/** The engine object: `Select`, with its loops and its one-way latch, and `FallbackOnFailure`. */
module PolicyEngine {
  import opened Ordering
  import opened Wrappers
  import opened Text
  import opened Policy
  import opened PolicyLaws

  /** What `Select` returns, given the latch before it, and the latch it leaves. */
  ghost predicate Selects(cfg: Config, latch: bool, epoch: nat, ps: seq<Provider>, r: Request, adjuster: Option<Adjuster>,
                          d: Decision, latch': bool)
  {
    && d == Decide(cfg, latch, epoch, ps, r, adjuster)
    && (latch' <==> latch || (cfg.enabled && Breached(cfg, latch, r) && ScoreCandidates(cfg, DedupeAndSort(r.tags), ps) != []))
  }

  lemma UniqueSnoc(s: seq<string>, x: string)
    ensures Unique(s + [x]) == if x in s then Unique(s) else Unique(s) + [x]
  {
    assert Init(s + [x]) == s;
  }

  lemma UniqueOfOne(x: string)
    ensures Unique([]) == [] && Unique([x]) == [x]
  {
    assert Init([x]) == [];
  }

  lemma Grow(head: seq<string>, ids: seq<string>, i: nat)
    requires i < |ids|
    ensures head + ids[..i + 1] == (head + ids[..i]) + [ids[i]]
    ensures Unique(head + ids[..i + 1]) ==
              if ids[i] in head + ids[..i] then Unique(head + ids[..i]) else Unique(head + ids[..i]) + [ids[i]]
  {
    UniqueSnoc(head + ids[..i], ids[i]);
    assert head + ids[..i + 1] == (head + ids[..i]) + [ids[i]];
  }

  class Engine {
    const cfg: Config
    /** The guardrail latch. */
    var autoDisabled: bool

    constructor (c: Config)
      ensures cfg == NormalConfig(c) && ConfigOk(cfg) && !autoDisabled
    {
      NormalConfigIsOk(c);
      cfg := NormalConfig(c);
      autoDisabled := false;
    }

    method Select(epoch: nat, ps: seq<Provider>, r: Request, adjuster: Option<Adjuster>) returns (d: Decision)
      modifies this
      ensures Selects(cfg, old(autoDisabled), epoch, ps, r, adjuster, d, autoDisabled)
      ensures old(autoDisabled) ==> autoDisabled
      ensures autoDisabled && !old(autoDisabled) ==> d == BaselineDecision(cfg, epoch, "quality_guardrail_autodisable")
    {
      hide Sort, DedupeAndSort, ScoreCandidates, SignalOf, Rank, SparseBoost, SsmBoost, SsmShift, Adjusted;
      if !cfg.enabled { return BaselineDecision(cfg, epoch, "feature_disabled"); }
      var tags := DedupeAndSort(r.tags);
      var scored := Score(tags, ps);
      if |scored| == 0 { return BaselineDecision(cfg, epoch, "no_eligible_provider"); }
      if Breached(cfg, autoDisabled, r) {
        autoDisabled := true;
        return BaselineDecision(cfg, epoch, "quality_guardrail_autodisable");
      }
      var candidates := scored;
      if SparseActive(cfg, autoDisabled) { candidates := ApplySparse(tags, scored); }
      var sparse := candidates;
      var applied := false;
      match SignalOf(cfg, r) {
        case NoSignal =>
        case Invalid => return BaselineDecision(cfg, epoch, "ssm_signal_invalid_fallback");
        case Length(n) =>
          if !InWindow(cfg.ssm, n) {
            return BaselineDecision(cfg, epoch, "ssm_signal_out_of_threshold_fallback");
          }
          applied, candidates := ApplySsm(NormalLength(n, cfg.ssm.minLength, cfg.ssm.maxLength), sparse);
      }
      assert candidates == AfterSsm(cfg, r, sparse) && applied == SsmApplied(cfg, r, sparse);
      var failed := false;
      if adjuster.Some? {
        var adjusted;
        failed, adjusted := ApplyAdjustments(adjuster.value, tags, candidates);
        if !failed { candidates := adjusted; }
      }
      ContendersCount(cfg, autoDisabled, ps, r, adjuster);
      candidates := Sort(Before, candidates);
      d := FromRanking(epoch, candidates, failed, applied);
    }

    method Score(tags: seq<string>, ps: seq<Provider>) returns (out: seq<Candidate>)
      ensures out == ScoreCandidates(cfg, tags, ps)
    {
      out := [];
      for i := 0 to |ps|
        invariant out == ScoreCandidates(cfg, tags, ps[..i])
      {
        assert Init(ps[..i + 1]) == ps[..i];
        if !Eligible(cfg, tags, ps[i]) { continue; }
        out := out + [Scored(cfg, tags, ps[i])];
      }
      assert ps[..|ps|] == ps;
    }

    method ApplySparse(tags: seq<string>, cs: seq<Candidate>) returns (out: seq<Candidate>)
      ensures out == Map(c => SparseBoost(cfg, tags, c), cs)
    {
      out := cs;
      for i := 0 to |cs|
        invariant |out| == |cs|
        invariant forall j | 0 <= j < |cs| :: out[j] == if j < i then SparseBoost(cfg, tags, cs[j]) else cs[j]
      {
        if !HasFlag(out[i].flags, cfg.sparse.flag) { continue; }
        var delta := SparseDelta(cfg.sparse.tradeoff, out[i].cost, out[i].latency, tags);
        out := out[i := out[i].(score := out[i].score + delta, confidence := Clamp01(out[i].confidence + delta))];
      }
    }

    method ApplySsm(length: real, cs: seq<Candidate>) returns (applied: bool, out: seq<Candidate>)
      ensures out == Map(c => SsmBoost(cfg, length, c), cs)
      ensures applied <==> exists c | c in cs :: SsmShift(cfg, length, c) != 0.0
    {
      out, applied := cs, false;
      for i := 0 to |cs|
        invariant |out| == |cs|
        invariant forall j | 0 <= j < |cs| :: out[j] == if j < i then SsmBoost(cfg, length, cs[j]) else cs[j]
        invariant applied <==> exists j | 0 <= j < i :: SsmShift(cfg, length, cs[j]) != 0.0
      {
        if !HasFlag(out[i].flags, cfg.ssm.flag) { continue; }
        var delta := SsmDelta(cfg.ssm, length, out[i].latency, out[i].queue);
        if delta == 0.0 { continue; }
        applied := true;
        out := out[i := out[i].(score := out[i].score + delta, confidence := Clamp01(out[i].confidence + delta))];
      }
    }

    method ApplyAdjustments(adjust: Adjuster, tags: seq<string>, cs: seq<Candidate>) returns (failed: bool, out: seq<Candidate>)
      ensures failed == PluginFails(Some(adjust), tags, cs)
      ensures !failed ==> out == Map(c => Adjusted(adjust, tags, c), cs)
    {
      out := cs;
      for i := 0 to |cs|
        invariant |out| == |cs|
        invariant forall j | 0 <= j < |cs| :: out[j] == if j < i then Adjusted(adjust, tags, cs[j]) else cs[j]
        invariant forall j | 0 <= j < i :: adjust(cs[j].id, cs[j].score, tags).Some?
      {
        var score := adjust(out[i].id, out[i].score, tags);
        if score.None? {
          assert cs[i] in cs;
          return true, [];
        }
        out := out[i := out[i].(score := score.value, confidence := Clamp01(score.value))];
      }
      failed := false;
    }

    method FromRanking(epoch: nat, ranked: seq<Candidate>, failed: bool, applied: bool) returns (d: Decision)
      requires ranked != []
      ensures d == Rank(cfg, autoDisabled, autoDisabled, epoch, ranked, failed, applied)
    {
      var selected, confidence, reason := ranked[0].id, ranked[0].confidence, "selected";
      if confidence < cfg.minConfidence {
        selected, confidence, reason := cfg.baseline, 1.0, "low_confidence_baseline";
      } else if failed {
        reason := "plugin_failed_fallback";
      } else if cfg.sparse.enabled && autoDisabled {
        reason := "sparse_quantized_auto_disabled";
      } else if SparseActive(cfg, autoDisabled) {
        reason := "sparse_quantized_assist_selected";
      } else if applied {
        reason := "ssm_assist_selected";
      }
      var chain := BuildChain(selected, Ids(ranked));
      d := Decision(cfg.version, epoch, selected, chain, confidence, reason);
    }

    method BuildChain(selected: string, ids: seq<string>) returns (chain: seq<string>)
      ensures chain == ChainFor(cfg.baseline, selected, ids)
    {
      hide Unique;
      var head := if selected == cfg.baseline then [cfg.baseline] else [];
      UniqueOfOne(cfg.baseline);
      assert head + ids[..0] == head;
      chain := head;
      var seen := set x | x in head;
      for i := 0 to |ids|
        invariant chain == Unique(head + ids[..i])
        invariant forall x :: x in seen <==> x in head + ids[..i]
      {
        Grow(head, ids, i);
        if ids[i] in seen { continue; }
        chain := chain + [ids[i]];
        seen := seen + {ids[i]};
      }
      assert ids[..|ids|] == ids;
      UniqueSnoc(head + ids, cfg.baseline);
      if cfg.baseline !in seen { chain := chain + [cfg.baseline]; }
    }

    method FallbackOnFailure(d: Decision, failed: string, cls: string) returns (e: Decision)
      ensures e == Fallback(cfg, d, failed, cls)
    {
      var chain := if d.chain == [] then [cfg.baseline] else d.chain;
      var name := TrimSpace(failed);
      if name == "" { name := d.selected; }
      var next := cfg.baseline;
      for i := 0 to |chain|
        invariant next == cfg.baseline
        invariant Successor(chain, name, cfg.baseline) == Successor(chain[i..], name, cfg.baseline)
      {
        if chain[i] == name {
          if i + 1 < |chain| { next := chain[i + 1]; }
          break;
        }
        assert chain[i..][1..] == chain[i + 1..];
      }
      if TrimSpace(next) == "" { next := cfg.baseline; }
      e := d.(chain := chain, selected := next, confidence := 1.0, reason := "fallback_" + FailureClass(cls));
    }
  }

  // ----- A whole session of calls ------------------------------------------------------------

  datatype Call = Call(epoch: nat, providers: seq<Provider>, request: Request, adjuster: Option<Adjuster>)

  /** Call `i` turned latch `i` into latch `i + 1` and returned decision `i`. */
  ghost predicate CallAt(cfg: Config, calls: seq<Call>, ds: seq<Decision>, latches: seq<bool>, i: nat)
    requires |latches| == |calls| + 1 == |ds| + 1 && i < |calls|
  {
    Selects(cfg, latches[i], calls[i].epoch, calls[i].providers, calls[i].request, calls[i].adjuster, ds[i], latches[i + 1])
  }

  /** The decisions `ds` and the latch before and after each of `calls`, one after
      the other on one engine. */
  ghost predicate Session(cfg: Config, calls: seq<Call>, ds: seq<Decision>, latches: seq<bool>) {
    |latches| == |calls| + 1 == |ds| + 1 && forall i: nat | i < |calls| :: CallAt(cfg, calls, ds, latches, i)
  }

  /** From the breach on, every decision of the session is the one the engine
      without the sparse assist would make, but for the reason code. */
  lemma {:induction false} LatchIsForever(cfg: Config, calls: seq<Call>, ds: seq<Decision>, latches: seq<bool>, i: nat, j: nat)
    requires Session(cfg, calls, ds, latches) && i <= j < |calls| && latches[i] && cfg.sparse.enabled
    ensures latches[j + 1]
    ensures var c := calls[j];
            ds[j] == Decide(WithoutSparse(cfg), latches[j], c.epoch, c.providers, c.request, c.adjuster).(reason := ds[j].reason)
    decreases j
  {
    hide Decide, Breached, ScoreCandidates, WithoutSparse;
    if j > i { LatchIsForever(cfg, calls, ds, latches, i, j - 1); }
    var c := calls[j];
    assert CallAt(cfg, calls, ds, latches, j);
    LatchedIsDisabled(cfg, latches[j], c.epoch, c.providers, c.request, c.adjuster);
  }
}
