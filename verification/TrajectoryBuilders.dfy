/** The builder and validator loops, proved against `Trajectory`. */
module TrajectoryBuilders {
  import opened Ordering
  import opened Wrappers
  import opened Trajectory

  method TokensEqual(a: seq<Token>, b: seq<Token>) returns (r: bool)
    ensures r <==> a == b
  {
    if |a| != |b| { return false; }
    for i := 0 to |a|
      invariant a[..i] == b[..i]
    {
      if a[i] != b[i] { return false; }
    }
    return true;
  }

  method HasPrefix(prompt: seq<Token>, prefix: seq<Token>) returns (r: bool)
    ensures r <==> prefix <= prompt
  {
    if |prompt| < |prefix| { return false; }
    for i := 0 to |prefix|
      invariant forall j | 0 <= j < i :: prompt[j] == prefix[j]
    {
      if prompt[i] != prefix[i] { return false; }
    }
    return true;
  }

  method HasEotBoundary(suffix: seq<Token>, prompt: seq<Token>) returns (r: bool)
    ensures r <==> suffix <= prompt && EOT in prompt[|suffix|..]
  {
    var p := HasPrefix(prompt, suffix);
    if !p { return false; }
    var gap := prompt[|suffix|..];
    for i := 0 to |gap|
      invariant EOT !in gap[..i]
    {
      if gap[i] == EOT { return true; }
    }
    return false;
  }

  method ChainSuffix(c: Chain) returns (out: seq<Token>)
    ensures out == Tail(c)
  {
    out := c.prefix;
    for i := 0 to |c.steps|
      invariant out == Suffix(c.prefix, c.steps[..i])
    {
      out := out + c.steps[i].tokens;
      assert Init(c.steps[..i + 1]) == c.steps[..i];
    }
    assert c.steps[..|c.steps|] == c.steps;
  }

  method LossMaskOnes(n: nat) returns (mask: seq<nat>)
    ensures mask == Const(1, n)
  {
    var a := new nat[n](i => 0);
    for i := 0 to n
      invariant forall j | 0 <= j < i :: a[j] == 1
    {
      a[i] := 1;
    }
    mask := a[..];
  }

  method FindExtendable(chains: seq<Chain>, r: Record) returns (k: int)
    ensures k == FirstFrom(V1, chains, r, 0)
  {
    for i := 0 to |chains|
      invariant FirstFrom(V1, chains, r, 0) == FirstFrom(V1, chains, r, i)
    {
      var suffix := ChainSuffix(chains[i]);
      var same := TokensEqual(r.prompt, suffix);
      if same { return i; }
    }
    return -1;
  }

  method FindPolarExtendable(chains: seq<Chain>, r: Record, interstitials: bool) returns (k: int)
    ensures k == FirstFrom(Polar(interstitials), chains, r, 0)
  {
    for i := 0 to |chains|
      invariant FirstFrom(Polar(interstitials), chains, r, 0) == FirstFrom(Polar(interstitials), chains, r, i)
    {
      if !Compatible(chains[i], r) { continue; }
      var suffix := ChainSuffix(chains[i]);
      var p := HasPrefix(r.prompt, suffix);
      if !p { continue; }
      if interstitials {
        var boundary := HasEotBoundary(suffix, r.prompt);
        if boundary { continue; }
      }
      return i;
    }
    return -1;
  }

  method BuildTrajectoryGroup(session: string, records: seq<Record>) returns (g: Group)
    ensures g == Build(V1, session, records)
  {
    var sorted := Sort(RecordLess, records);
    var chains: seq<Chain> := [];
    for i := 0 to |sorted|
      invariant chains == Fold(V1, sorted[..i])
    {
      var r := sorted[i];
      assert Init(sorted[..i + 1]) == sorted[..i];
      if |r.sampled| == 0 { continue; }
      var mask := LossMaskOnes(|r.sampled|);
      var step := Step(r.sampled, mask, r.logprobs, "");
      var k := FindExtendable(chains, r);
      if k >= 0 {
        chains := chains[k := chains[k].(steps := chains[k].steps + [step])];
        continue;
      }
      chains := chains + [Chain("chain-" + r.requestId, r.prompt, [step], "")];
    }
    assert sorted[..|sorted|] == sorted;
    return Group(if session == "" then "default" else session, chains, V1);
  }

  method BuildPerRequest(session: string, records: seq<Record>) returns (g: Group)
    ensures g == Build(PerRequest, session, records)
  {
    var sorted := Sort(RecordLess, records);
    var chains: seq<Chain> := [];
    for i := 0 to |sorted|
      invariant chains == Fold(PerRequest, sorted[..i])
    {
      var r := sorted[i];
      assert Init(sorted[..i + 1]) == sorted[..i];
      if |r.sampled| == 0 { continue; }
      var mask := LossMaskOnes(|r.sampled|);
      NeverExtends(chains, r, 0);
      chains := chains + [Chain("chain-" + r.requestId, r.prompt, [Step(r.sampled, mask, r.logprobs, "")], "")];
    }
    assert sorted[..|sorted|] == sorted;
    return Group(if session == "" then "default" else session, chains, PerRequest);
  }

  lemma {:induction false} NeverExtends(chains: seq<Chain>, r: Record, i: nat)
    requires i <= |chains|
    ensures FirstFrom(PerRequest, chains, r, i) == -1
    decreases |chains| - i
  {
    if i < |chains| { NeverExtends(chains, r, i + 1); }
  }

  method BuildPrefixMergePolar(session: string, records: seq<Record>, interstitials: bool) returns (g: Group)
    ensures g == Build(Polar(interstitials), session, records)
  {
    var sorted := Sort(RecordLess, records);
    var chains: seq<Chain> := [];
    for i := 0 to |sorted|
      invariant chains == Fold(Polar(interstitials), sorted[..i])
    {
      var r := sorted[i];
      assert Init(sorted[..i + 1]) == sorted[..i];
      if |r.sampled| == 0 { continue; }
      var mask := LossMaskOnes(|r.sampled|);
      var step := Step(r.sampled, mask, r.logprobs, r.messageGroup);
      var k := FindPolarExtendable(chains, r, interstitials);
      if k >= 0 {
        var steps := chains[k].steps;
        if interstitials {
          var suffix := ChainSuffix(chains[k]);
          var gap := r.prompt[|suffix|..];
          if |gap| > 0 { steps := steps + [Interstitial(gap)]; }
        }
        chains := chains[k := chains[k].(steps := steps + [step])];
        continue;
      }
      chains := chains + [Chain("chain-" + r.requestId, r.prompt, [step], r.partitionKey)];
    }
    assert sorted[..|sorted|] == sorted;
    return Group(if session == "" then "default" else session, chains, Polar(interstitials));
  }

  method CheckStep(s: Step) returns (d: Option<int>)
    ensures d == None <==> MaskOk(s)
    ensures d == Some(-1) <==> |s.mask| != |s.tokens|
    ensures d.Some? && d.value != -1 ==>
              0 <= d.value < |s.mask| && s.mask[d.value] > 1 && forall j | 0 <= j < d.value :: s.mask[j] <= 1
  {
    if |s.mask| != |s.tokens| { return Some(-1); }
    for mi := 0 to |s.mask|
      invariant forall j | 0 <= j < mi :: s.mask[j] <= 1
    {
      if s.mask[mi] != 0 && s.mask[mi] != 1 {
        assert s.mask[mi] in s.mask;
        return Some(mi);
      }
    }
    return None;
  }

  /** Succeeds exactly on well-formed groups; otherwise names the first defect, and
      never the non-appendable one, since a cursor that appends each step's tokens
      always equals the prefix and the steps so far. */
  method ValidateTrajectoryGroup(g: Group) returns (r: Option<Defect>)
    ensures r.None? <==> WellFormed(g)
    ensures r.Some? ==> FirstDefect(g, r.value) && !r.value.NonAppendable?
  {
    if g.session == "" { return Some(NoSession); }
    for ci := 0 to |g.chains|
      invariant ChainsOk(g, ci)
    {
      var c := g.chains[ci];
      if c.id == "" { return Some(NoChainId(ci)); }
      var cursor := c.prefix;
      for si := 0 to |c.steps|
        invariant StepsOk(c, si)
        invariant cursor == Suffix(c.prefix, c.steps[..si])
      {
        var s := c.steps[si];
        var d := CheckStep(s);
        if d == Some(-1) { return Some(MaskLength(ci, si)); }
        if d.Some? { return Some(MaskValue(ci, si, d.value)); }
        if si > 0 {
          var prefix := ChainSuffix(c.(steps := c.steps[..si]));
          var same := TokensEqual(cursor, prefix);
          var defect := NonAppendable(ci, si);
          if !same { return Some(defect); }
        }
        cursor := cursor + s.tokens;
        assert Init(c.steps[..si + 1]) == c.steps[..si];
      }
    }
    return None;
  }
}
