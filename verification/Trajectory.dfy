/** Completion records assembled into append-only token chains, and read back. */
module Trajectory {
  import opened Ordering

  type Token = nat
  const EOT: Token := 0xE07

  datatype Record = Record(
    requestId: string, timestamp: nat, prompt: seq<Token>, sampled: seq<Token>,
    logprobs: seq<real>, partitionKey: string, messageGroup: string)

  datatype Step = Step(tokens: seq<Token>, mask: seq<nat>, logprobs: seq<real>, messageGroup: string)

  /** `partition` is the metadata entry "partition_key", empty when absent. */
  datatype Chain = Chain(id: string, prefix: seq<Token>, steps: seq<Step>, partition: string)

  /** The three builders; `Polar` is prefix merging with or without interstitial steps. */
  datatype Builder = V1 | PerRequest | Polar(interstitials: bool)

  datatype Group = Group(session: string, chains: seq<Chain>, builder: Builder)

  // ----- Order of the stream ------------------------------------------------------

  predicate RecordLess(a: Record, b: Record) {
    if a.timestamp != b.timestamp then a.timestamp < b.timestamp else StringLess(a.requestId, b.requestId)
  }

  lemma RecordOrderIsStrictWeak()
    ensures StrictWeak(RecordLess)
  {
    StringOrderIsStrictWeak();
    forall x: Record, y: Record, z: Record | RecordLess(x, z) ensures RecordLess(x, y) || RecordLess(y, z) {
      assert StringLess(x.requestId, z.requestId) ==> StringLess(x.requestId, y.requestId) || StringLess(y.requestId, z.requestId);
    }
    forall x: Record, y: Record, z: Record | RecordLess(x, y) && RecordLess(y, z) ensures RecordLess(x, z) {
      assert StringLess(x.requestId, y.requestId) && StringLess(y.requestId, z.requestId) ==> StringLess(x.requestId, z.requestId);
    }
  }

  // ----- The tokens of a chain ------------------------------------------------------

  /** Everything in a chain so far: its prefix and the tokens of all its steps. */
  function Suffix(prefix: seq<Token>, steps: seq<Step>): seq<Token> {
    if steps == [] then prefix else Suffix(prefix, Init(steps)) + Last(steps).tokens
  }

  function Tail(c: Chain): seq<Token> { Suffix(c.prefix, c.steps) }

  function Const(v: nat, n: nat): seq<nat> { seq(n, i => v) }

  function Zeros(n: nat): seq<real> { seq(n, i => 0.0) }

  function StepOf(b: Builder, r: Record): Step {
    Step(r.sampled, Const(1, |r.sampled|), r.logprobs, if b.Polar? then r.messageGroup else "")
  }

  function Interstitial(tokens: seq<Token>): Step {
    Step(tokens, Const(0, |tokens|), Zeros(|tokens|), "")
  }

  // ----- What the builders compute ---------------------------------------------------

  predicate Compatible(c: Chain, r: Record) {
    r.partitionKey == "" || c.partition == "" || c.partition == r.partitionKey
  }

  /** Chain `c` can take record `r`. */
  predicate Extends(b: Builder, c: Chain, r: Record) {
    match b
    case PerRequest => false
    case V1 => r.prompt == Tail(c)
    case Polar(e) => Compatible(c, r) && Tail(c) <= r.prompt && !(e && EOT in r.prompt[|Tail(c)|..])
  }

  function Grown(b: Builder, c: Chain, r: Record): Chain
    requires Extends(b, c, r)
  {
    if b == Polar(true) && |r.prompt| > |Tail(c)|
    then c.(steps := c.steps + [Interstitial(r.prompt[|Tail(c)|..])] + [StepOf(b, r)])
    else c.(steps := c.steps + [StepOf(b, r)])
  }

  function Opened(b: Builder, r: Record): Chain {
    Chain("chain-" + r.requestId, r.prompt, [StepOf(b, r)], if b.Polar? then r.partitionKey else "")
  }

  /** The first chain from `i` on that can take `r`, or -1. */
  function FirstFrom(b: Builder, chains: seq<Chain>, r: Record, i: nat): (k: int)
    requires i <= |chains|
    ensures k == -1 || (i <= k < |chains| && Extends(b, chains[k], r))
    decreases |chains| - i
  {
    if i == |chains| then -1 else if Extends(b, chains[i], r) then i else FirstFrom(b, chains, r, i + 1)
  }

  function Absorb(b: Builder, chains: seq<Chain>, r: Record): seq<Chain> {
    var k := FirstFrom(b, chains, r, 0);
    if r.sampled == [] then chains
    else if k >= 0 then chains[k := Grown(b, chains[k], r)]
    else chains + [Opened(b, r)]
  }

  function Fold(b: Builder, rs: seq<Record>): seq<Chain> {
    if rs == [] then [] else Absorb(b, Fold(b, Init(rs)), Last(rs))
  }

  function SessionId(session: string): string { if session == "" then "default" else session }

  function Build(b: Builder, session: string, rs: seq<Record>): Group {
    Group(SessionId(session), Fold(b, Sort(RecordLess, rs)), b)
  }

  // ----- Reading a group back -----------------------------------------------------------

  datatype Sample = Sample(prompt: seq<Token>, tokens: seq<Token>, logprobs: seq<real>)

  function SampleOf(r: Record): Sample { Sample(r.prompt, r.sampled, r.logprobs) }

  /** A trained step: its mask is all ones. */
  predicate Trained(s: Step) {
    s.tokens != [] && s.mask == Const(1, |s.tokens|)
  }

  /** Each trained step, read as everything before it in the chain and its tokens. */
  function Samples(prefix: seq<Token>, steps: seq<Step>): multiset<Sample> {
    if steps == [] then multiset{}
    else Samples(prefix, Init(steps)) +
         if Trained(Last(steps)) then multiset{Sample(Suffix(prefix, Init(steps)), Last(steps).tokens, Last(steps).logprobs)}
         else multiset{}
  }

  function AllSamples(chains: seq<Chain>): multiset<Sample> {
    if chains == [] then multiset{}
    else AllSamples(Init(chains)) + Samples(Last(chains).prefix, Last(chains).steps)
  }

  /** What the records ask to be kept: those with a non-empty completion. */
  function Wanted(rs: seq<Record>): multiset<Sample> {
    if rs == [] then multiset{}
    else Wanted(Init(rs)) + if Last(rs).sampled == [] then multiset{} else multiset{SampleOf(Last(rs))}
  }

  lemma SamplesSnoc(prefix: seq<Token>, steps: seq<Step>, s: Step)
    ensures Suffix(prefix, steps + [s]) == Suffix(prefix, steps) + s.tokens
    ensures Samples(prefix, steps + [s]) ==
            Samples(prefix, steps) + if Trained(s) then multiset{Sample(Suffix(prefix, steps), s.tokens, s.logprobs)} else multiset{}
  {
    assert Init(steps + [s]) == steps;
  }

  /** What an extended chain reads back: the record itself, unless `interstitials`
      is off, when the chain's own tokens stand in for the prompt. */
  function Kept(b: Builder, c: Chain, r: Record): Sample {
    if b == Polar(false) then Sample(Tail(c), r.sampled, r.logprobs) else SampleOf(r)
  }

  lemma GrownReads(b: Builder, c: Chain, r: Record)
    requires Extends(b, c, r) && r.sampled != []
    ensures Samples(c.prefix, Grown(b, c, r).steps) == Samples(c.prefix, c.steps) + multiset{Kept(b, c, r)}
  {
    hide Samples, Suffix;
    if b == Polar(true) && |r.prompt| > |Tail(c)| {
      var gap := Interstitial(r.prompt[|Tail(c)|..]);
      assert gap.mask[0] == 0 && Const(1, |gap.tokens|)[0] == 1;
      SamplesSnoc(c.prefix, c.steps, gap);
      SamplesSnoc(c.prefix, c.steps + [gap], StepOf(b, r));
      assert Tail(c) + gap.tokens == r.prompt;
    } else {
      SamplesSnoc(c.prefix, c.steps, StepOf(b, r));
      assert b != Polar(false) ==> Tail(c) == r.prompt[..|Tail(c)|] == r.prompt;
    }
  }

  lemma OpenedReads(b: Builder, r: Record)
    requires r.sampled != []
    ensures Samples(r.prompt, Opened(b, r).steps) == multiset{SampleOf(r)}
  {
    SamplesSnoc(r.prompt, [], StepOf(b, r));
    assert [] + [StepOf(b, r)] == [StepOf(b, r)];
  }

  lemma {:induction false} AllSamplesUpdate(chains: seq<Chain>, k: nat, c: Chain, x: Sample)
    requires k < |chains|
    requires Samples(c.prefix, c.steps) == Samples(chains[k].prefix, chains[k].steps) + multiset{x}
    ensures AllSamples(chains[k := c]) == AllSamples(chains) + multiset{x}
  {
    var u := chains[k := c];
    if k == |chains| - 1 {
      assert Init(u) == Init(chains);
    } else {
      AllSamplesUpdate(Init(chains), k, c, x);
      assert Init(u) == Init(chains)[k := c];
    }
  }

  /** The sample that absorbing `r` adds. */
  function Added(b: Builder, chains: seq<Chain>, r: Record): Sample {
    var k := FirstFrom(b, chains, r, 0);
    if k >= 0 then Kept(b, chains[k], r) else SampleOf(r)
  }

  lemma AbsorbReads(b: Builder, chains: seq<Chain>, r: Record)
    requires r.sampled != []
    ensures AllSamples(Absorb(b, chains, r)) == AllSamples(chains) + multiset{Added(b, chains, r)}
  {
    var k := FirstFrom(b, chains, r, 0);
    if k >= 0 {
      GrownReads(b, chains[k], r);
      AllSamplesUpdate(chains, k, Grown(b, chains[k], r), Kept(b, chains[k], r));
    } else {
      OpenedReads(b, r);
      assert Init(chains + [Opened(b, r)]) == chains;
    }
  }

  lemma {:induction false} FoldReads(b: Builder, rs: seq<Record>)
    requires b != Polar(false)
    ensures AllSamples(Fold(b, rs)) == Wanted(rs)
  {
    if rs != [] {
      FoldReads(b, Init(rs));
      if Last(rs).sampled != [] { AbsorbReads(b, Fold(b, Init(rs)), Last(rs)); }
    }
  }

  // ----- Losslessness ---------------------------------------------------------------------

  function BagOf(r: Record): multiset<Sample> {
    if r.sampled == [] then multiset{} else multiset{SampleOf(r)}
  }

  lemma WantedSnoc(rs: seq<Record>, r: Record)
    ensures Wanted(rs + [r]) == Wanted(rs) + BagOf(r)
  {
    assert Init(rs + [r]) == rs;
  }

  lemma {:induction false} WantedOfInsert(rs: seq<Record>, r: Record)
    ensures Wanted(Insert(RecordLess, rs, r)) == Wanted(rs) + BagOf(r)
  {
    hide Wanted, RecordLess, BagOf;
    if rs == [] || !RecordLess(r, Last(rs)) {
      WantedSnoc(rs, r);
    } else {
      WantedOfInsert(Init(rs), r);
      WantedSnoc(Insert(RecordLess, Init(rs), r), Last(rs));
      WantedSnoc(Init(rs), Last(rs));
      assert rs == Init(rs) + [Last(rs)];
    }
  }

  lemma {:induction false} WantedOfSort(rs: seq<Record>)
    ensures Wanted(Sort(RecordLess, rs)) == Wanted(rs)
  {
    hide Wanted, Insert, BagOf, RecordLess;
    if rs != [] {
      WantedOfSort(Init(rs));
      WantedOfInsert(Sort(RecordLess, Init(rs)), Last(rs));
      WantedSnoc(Init(rs), Last(rs));
      assert rs == Init(rs) + [Last(rs)];
    }
  }

  /** Reading the trained steps of a built group gives back exactly the prompts,
      completions and logprobs of the non-empty records, with multiplicity. */
  lemma BuildIsLossless(b: Builder, session: string, rs: seq<Record>)
    requires b != Polar(false)
    ensures AllSamples(Build(b, session, rs).chains) == Wanted(rs)
  {
    FoldReads(b, Sort(RecordLess, rs));
    WantedOfSort(rs);
  }

  // ----- Without interstitial steps ------------------------------------------------------------

  function PromptTotal(m: seq<Sample>): nat {
    if m == [] then 0 else PromptTotal(Init(m)) + |Last(m).prompt|
  }

  /** Every record that joins a chain has exactly that chain's tokens as its prompt. */
  predicate NoGaps(rs: seq<Record>) {
    rs == [] || (NoGaps(Init(rs)) &&
                 (Last(rs).sampled == [] ||
                  var k := FirstFrom(Polar(false), Fold(Polar(false), Init(rs)), Last(rs), 0);
                  k < 0 || Tail(Fold(Polar(false), Init(rs))[k]) == Last(rs).prompt))
  }

  /** The samples the fold adds, record by record, and the samples wanted. */
  function AddedBy(rs: seq<Record>): seq<Sample> {
    if rs == [] then []
    else if Last(rs).sampled == [] then AddedBy(Init(rs))
    else AddedBy(Init(rs)) + [Added(Polar(false), Fold(Polar(false), Init(rs)), Last(rs))]
  }

  function WantedBy(rs: seq<Record>): seq<Sample> {
    if rs == [] then []
    else if Last(rs).sampled == [] then WantedBy(Init(rs))
    else WantedBy(Init(rs)) + [SampleOf(Last(rs))]
  }

  lemma {:induction false} AddedIsRead(rs: seq<Record>)
    ensures AllSamples(Fold(Polar(false), rs)) == multiset(AddedBy(rs))
    ensures Wanted(rs) == multiset(WantedBy(rs))
  {
    if rs != [] {
      AddedIsRead(Init(rs));
      if Last(rs).sampled != [] { AbsorbReads(Polar(false), Fold(Polar(false), Init(rs)), Last(rs)); }
    }
  }

  /** A gap shows in the length of what is kept of the prompt. */
  lemma AddedPrompt(chains: seq<Chain>, r: Record)
    ensures var k, kept := FirstFrom(Polar(false), chains, r, 0), Added(Polar(false), chains, r);
            && |kept.prompt| <= |r.prompt|
            && (kept == SampleOf(r) <==> |kept.prompt| == |r.prompt|)
            && (kept == SampleOf(r) <==> k < 0 || Tail(chains[k]) == r.prompt)
  {
    var k := FirstFrom(Polar(false), chains, r, 0);
    if k >= 0 { assert Tail(chains[k]) == r.prompt[..|Tail(chains[k])|]; }
  }

  lemma {:induction false} GapsShorten(rs: seq<Record>)
    ensures PromptTotal(AddedBy(rs)) <= PromptTotal(WantedBy(rs))
    ensures NoGaps(rs) <==> PromptTotal(AddedBy(rs)) == PromptTotal(WantedBy(rs))
    ensures NoGaps(rs) ==> AddedBy(rs) == WantedBy(rs)
  {
    hide Added, FirstFrom, Fold;
    if rs != [] {
      GapsShorten(Init(rs));
      if Last(rs).sampled != [] {
        AddedPrompt(Fold(Polar(false), Init(rs)), Last(rs));
        assert Init(AddedBy(rs)) == AddedBy(Init(rs));
        assert Init(WantedBy(rs)) == WantedBy(Init(rs));
      }
    }
  }

  lemma PromptTotalSplit(a: seq<Sample>, i: nat)
    requires i < |a|
    ensures PromptTotal(a) == PromptTotal(a[..i] + a[i + 1..]) + |a[i].prompt|
    decreases |a|
  {
    if i == |a| - 1 {
      assert a[..i] + a[i + 1..] == Init(a);
    } else {
      PromptTotalSplit(Init(a), i);
      assert Init(a[..i] + a[i + 1..]) == Init(a)[..i] + Init(a)[i + 1..];
    }
  }

  lemma {:induction false} PromptTotalOfPermutation(a: seq<Sample>, b: seq<Sample>)
    requires multiset(a) == multiset(b)
    ensures PromptTotal(a) == PromptTotal(b)
    decreases |a|
  {
    assert |multiset(a)| == |multiset(b)|;
    if a != [] {
      var i := MatchLast(a, b);
      PromptTotalSplit(b, i);
      PromptTotalOfPermutation(Init(a), b[..i] + b[i + 1..]);
    }
  }

  /** With interstitial steps off the builder is lossless exactly on streams
      without gaps: otherwise some prompt cannot be read back. */
  lemma WithoutInterstitialsLosslessIffNoGaps(session: string, rs: seq<Record>)
    ensures AllSamples(Build(Polar(false), session, rs).chains) == Wanted(rs) <==> NoGaps(Sort(RecordLess, rs))
  {
    var sorted := Sort(RecordLess, rs);
    WantedOfSort(rs);
    AddedIsRead(sorted);
    GapsShorten(sorted);
    if multiset(AddedBy(sorted)) == multiset(WantedBy(sorted)) {
      PromptTotalOfPermutation(AddedBy(sorted), WantedBy(sorted));
    }
  }

  function First(): Record { Record("r1", 1, [1], [2], [], "", "") }

  function Second(): Record { Record("r2", 2, [1, 2, 3], [4], [], "", "") }

  lemma TwoAreSorted()
    ensures Sort(RecordLess, [First(), Second()]) == [First(), Second()]
  {
    var rs, one := [First(), Second()], [First()];
    assert Init(rs) == one && Init(one) == [];
    assert Sort(RecordLess, one) == one;
    assert !RecordLess(Second(), Last(one));
    assert one + [Second()] == rs;
  }

  lemma FirstOpens()
    ensures Fold(Polar(false), [First()]) == [Opened(Polar(false), First())]
    ensures Tail(Opened(Polar(false), First())) == [1, 2]
  {
    assert Init([First()]) == [];
    assert Init(Opened(Polar(false), First()).steps) == [];
  }

  lemma SecondLeavesGap()
    ensures !NoGaps([First(), Second()])
  {
    var b, c := Polar(false), Opened(Polar(false), First());
    FirstOpens();
    hide Fold, Tail, Opened;
    assert Init([First(), Second()]) == [First()];
    assert FirstFrom(b, [c], Second(), 0) == 0;
  }

  /** For example: the second prompt has a token, 3, that the first turn does not
      end with, and without interstitial steps it is gone. */
  lemma GapIsLost(session: string)
    ensures AllSamples(Build(Polar(false), session, [First(), Second()]).chains) != Wanted([First(), Second()])
  {
    hide *;
    TwoAreSorted();
    SecondLeavesGap();
    WithoutInterstitialsLosslessIffNoGaps(session, [First(), Second()]);
  }

  // ----- Chain by chain: shape, partitions and members -----------------------------------------------

  /** What every chain of a built group looks like. */
  predicate StepOk(s: Step) {
    Trained(s) || (s.tokens != [] && s.mask == Const(0, |s.tokens|) && EOT !in s.tokens)
  }

  predicate ChainOk(c: Chain) {
    c.id != "" && c.steps != [] && forall s | s in c.steps :: StepOk(s)
  }

  lemma AbsorbKeepsOk(b: Builder, chains: seq<Chain>, r: Record)
    requires forall c | c in chains :: ChainOk(c)
    ensures forall c | c in Absorb(b, chains, r) :: ChainOk(c)
  {
    var k := FirstFrom(b, chains, r, 0);
    if r.sampled != [] {
      assert Trained(StepOf(b, r));
      if k < 0 {
        assert ChainOk(Opened(b, r)) by { assert Opened(b, r).id[0] == 'c'; }
      } else {
        assert ChainOk(chains[k]);
        assert ChainOk(Grown(b, chains[k], r));
      }
    }
  }

  lemma {:induction false} FoldIsOk(b: Builder, rs: seq<Record>)
    ensures forall c | c in Fold(b, rs) :: ChainOk(c)
  {
    if rs != [] {
      FoldIsOk(b, Init(rs));
      AbsorbKeepsOk(b, Fold(b, Init(rs)), Last(rs));
    }
  }

  /** The chain that record `r`, arriving at `chains`, goes to. */
  function Home(b: Builder, chains: seq<Chain>, r: Record): nat {
    var k := FirstFrom(b, chains, r, 0);
    if k >= 0 then k else |chains|
  }

  /** The non-empty records that went to chain `k`, in order. */
  function Members(b: Builder, rs: seq<Record>, k: nat): seq<Record> {
    if rs == [] then []
    else if Last(rs).sampled != [] && Home(b, Fold(b, Init(rs)), Last(rs)) == k
    then Members(b, Init(rs), k) + [Last(rs)]
    else Members(b, Init(rs), k)
  }

  lemma {:induction false} NoMembersYet(b: Builder, rs: seq<Record>, k: nat)
    requires k >= |Fold(b, rs)|
    ensures Members(b, rs, k) == []
  {
    if rs != [] {
      var chains := Fold(b, Init(rs));
      assert Last(rs).sampled != [] ==> Home(b, chains, Last(rs)) < |Fold(b, rs)|;
      assert |chains| <= |Fold(b, rs)|;
      NoMembersYet(b, Init(rs), k);
    }
  }

  /** What chain `k` holds: exactly its members, all of them fitting its partition. */
  ghost predicate HoldsMembers(b: Builder, c: Chain, members: seq<Record>) {
    && (b != Polar(false) ==> Samples(c.prefix, c.steps) == Wanted(members))
    && (b.Polar? ==> forall r | r in members :: Compatible(c, r))
  }

  lemma GrownHolds(b: Builder, c: Chain, members: seq<Record>, r: Record)
    requires HoldsMembers(b, c, members) && Extends(b, c, r) && r.sampled != []
    ensures HoldsMembers(b, Grown(b, c, r), members + [r])
  {
    hide Samples, Suffix, Wanted;
    WantedSnoc(members, r);
    GrownReads(b, c, r);
  }

  lemma OpenedHolds(b: Builder, r: Record)
    requires r.sampled != []
    ensures HoldsMembers(b, Opened(b, r), [r])
  {
    WantedSnoc([], r);
    OpenedReads(b, r);
    assert [] + [r] == [r];
  }

  /** Chain by chain: a chain reads back exactly its members, and every member
      fits the chain's partition. */
  lemma {:induction false} ChainHoldsItsMembers(b: Builder, rs: seq<Record>, k: nat)
    requires k < |Fold(b, rs)|
    ensures HoldsMembers(b, Fold(b, rs)[k], Members(b, rs, k))
  {
    hide HoldsMembers, Grown, Opened, Extends;
    var chains, r := Fold(b, Init(rs)), Last(rs);
    if k < |chains| {
      ChainHoldsItsMembers(b, Init(rs), k);
      if r.sampled != [] && Home(b, chains, r) == k {
        GrownHolds(b, chains[k], Members(b, Init(rs), k), r);
      }
    } else {
      NoMembersYet(b, Init(rs), k);
      OpenedHolds(b, r);
      assert Members(b, rs, k) == [r];
    }
  }

  /** A chain keyed to a partition holds only records keyed to it, or unkeyed. */
  lemma PartitionsDoNotMix(e: bool, session: string, rs: seq<Record>, k: nat, r: Record)
    requires k < |Build(Polar(e), session, rs).chains|
    requires r in Members(Polar(e), Sort(RecordLess, rs), k)
    requires Build(Polar(e), session, rs).chains[k].partition != ""
    ensures r.partitionKey in {"", Build(Polar(e), session, rs).chains[k].partition}
  {
    ChainHoldsItsMembers(Polar(e), Sort(RecordLess, rs), k);
  }

  // ----- Totals, and the order of the input --------------------------------------------------------------

  function Ones(mask: seq<nat>): nat {
    if mask == [] then 0 else Ones(Init(mask)) + if Last(mask) == 1 then 1 else 0
  }

  function StepOnes(steps: seq<Step>): nat {
    if steps == [] then 0 else StepOnes(Init(steps)) + Ones(Last(steps).mask)
  }

  function TotalOnes(chains: seq<Chain>): nat {
    if chains == [] then 0 else TotalOnes(Init(chains)) + StepOnes(Last(chains).steps)
  }

  function SampledTotal(rs: seq<Record>): nat {
    if rs == [] then 0 else SampledTotal(Init(rs)) + |Last(rs).sampled|
  }

  lemma {:induction false} OnesOfConst(v: nat, n: nat)
    ensures Ones(Const(v, n)) == if v == 1 then n else 0
  {
    if n > 0 {
      assert Init(Const(v, n)) == Const(v, n - 1);
      OnesOfConst(v, n - 1);
    }
  }

  lemma GrownOnes(b: Builder, c: Chain, r: Record)
    requires Extends(b, c, r)
    ensures StepOnes(Grown(b, c, r).steps) == StepOnes(c.steps) + |r.sampled|
  {
    var s := StepOf(b, r);
    OnesOfConst(1, |r.sampled|);
    if b == Polar(true) && |r.prompt| > |Tail(c)| {
      var gap := Interstitial(r.prompt[|Tail(c)|..]);
      OnesOfConst(0, |gap.tokens|);
      assert Init(c.steps + [gap]) == c.steps && Init(c.steps + [gap] + [s]) == c.steps + [gap];
    } else {
      assert Init(c.steps + [s]) == c.steps;
    }
  }

  lemma {:induction false} TotalOnesUpdate(chains: seq<Chain>, k: nat, c: Chain)
    requires k < |chains|
    ensures TotalOnes(chains[k := c]) == TotalOnes(chains) + StepOnes(c.steps) - StepOnes(chains[k].steps)
  {
    if k == |chains| - 1 {
      assert Init(chains[k := c]) == Init(chains);
    } else {
      TotalOnesUpdate(Init(chains), k, c);
      assert Init(chains[k := c]) == Init(chains)[k := c];
    }
  }

  lemma {:induction false} FoldOnes(b: Builder, rs: seq<Record>)
    ensures TotalOnes(Fold(b, rs)) == SampledTotal(rs)
  {
    if rs != [] {
      FoldOnes(b, Init(rs));
      var chains, r := Fold(b, Init(rs)), Last(rs);
      var k := FirstFrom(b, chains, r, 0);
      if r.sampled == [] {
      } else if k >= 0 {
        GrownOnes(b, chains[k], r);
        TotalOnesUpdate(chains, k, Grown(b, chains[k], r));
      } else {
        OnesOfConst(1, |r.sampled|);
        assert Init([StepOf(b, r)]) == [] && Init(chains + [Opened(b, r)]) == chains;
        assert StepOnes(Opened(b, r).steps) == Ones(StepOf(b, r).mask);
      }
    }
  }

  lemma SampledSnoc(rs: seq<Record>, r: Record)
    ensures SampledTotal(rs + [r]) == SampledTotal(rs) + |r.sampled|
  {
    assert Init(rs + [r]) == rs;
  }

  lemma {:induction false} SampledOfInsert(rs: seq<Record>, r: Record)
    ensures SampledTotal(Insert(RecordLess, rs, r)) == SampledTotal(rs) + |r.sampled|
  {
    SampledSnoc(rs, r);
    if rs != [] && RecordLess(r, Last(rs)) {
      SampledOfInsert(Init(rs), r);
      SampledSnoc(Insert(RecordLess, Init(rs), r), Last(rs));
    }
  }

  lemma {:induction false} SampledOfSort(rs: seq<Record>)
    ensures SampledTotal(Sort(RecordLess, rs)) == SampledTotal(rs)
  {
    if rs != [] {
      SampledOfSort(Init(rs));
      SampledOfInsert(Sort(RecordLess, Init(rs)), Last(rs));
    }
  }

  /** Every builder trains on exactly the sampled tokens, so all agree on the total. */
  lemma BuildersAgreeOnOnes(b: Builder, session: string, rs: seq<Record>)
    ensures TotalOnes(Build(b, session, rs).chains) == SampledTotal(rs)
  {
    FoldOnes(b, Sort(RecordLess, rs));
    SampledOfSort(rs);
  }

  /** Records that share timestamp and request id are the same record. */
  predicate KeysIdentify(rs: seq<Record>) {
    forall x, y | x in rs && y in rs && x.timestamp == y.timestamp && x.requestId == y.requestId :: x == y
  }

  /** When keys identify records, every builder ignores the order of its input. */
  lemma BuildIgnoresOrder(b: Builder, session: string, xs: seq<Record>, ys: seq<Record>)
    requires multiset(xs) == multiset(ys) && KeysIdentify(xs)
    ensures Build(b, session, xs) == Build(b, session, ys)
  {
    RecordOrderIsStrictWeak();
    forall x, y | x in multiset(xs) && y in multiset(xs) && x != y ensures RecordLess(x, y) || RecordLess(y, x) {
      assert x in xs && y in xs;
      StringLessTotal(x.requestId, y.requestId);
    }
    SortForgetsOrder(RecordLess, xs, ys);
  }

  // ----- Validation -----------------------------------------------------------------------------------------

  datatype Defect =
    | NoSession
    | NoChainId(chain: nat)
    | MaskLength(chain: nat, step: nat)
    | MaskValue(chain: nat, step: nat, at: nat)
    | NonAppendable(chain: nat, step: nat)

  predicate MaskOk(s: Step) {
    |s.mask| == |s.tokens| && forall m | m in s.mask :: m == 0 || m == 1
  }

  predicate StepsOk(c: Chain, n: nat)
    requires n <= |c.steps|
  {
    forall i | 0 <= i < n :: MaskOk(c.steps[i])
  }

  predicate ChainsOk(g: Group, n: nat)
    requires n <= |g.chains|
  {
    forall i | 0 <= i < n :: g.chains[i].id != "" && StepsOk(g.chains[i], |g.chains[i].steps|)
  }

  predicate WellFormed(g: Group) {
    g.session != "" && ChainsOk(g, |g.chains|)
  }

  /** `d` names the first thing wrong with `g`. */
  predicate FirstDefect(g: Group, d: Defect) {
    match d
    case NoSession => g.session == ""
    case NoChainId(ci) => g.session != "" && ci < |g.chains| && ChainsOk(g, ci) && g.chains[ci].id == ""
    case MaskLength(ci, si) =>
      g.session != "" && ci < |g.chains| && ChainsOk(g, ci) && g.chains[ci].id != "" && si < |g.chains[ci].steps| &&
      StepsOk(g.chains[ci], si) && |g.chains[ci].steps[si].mask| != |g.chains[ci].steps[si].tokens|
    case MaskValue(ci, si, mi) =>
      g.session != "" && ci < |g.chains| && ChainsOk(g, ci) && g.chains[ci].id != "" && si < |g.chains[ci].steps| &&
      var s := g.chains[ci].steps[si];
      StepsOk(g.chains[ci], si) && |s.mask| == |s.tokens| && mi < |s.mask| && s.mask[mi] > 1 &&
      forall j | 0 <= j < mi :: s.mask[j] <= 1
    case NonAppendable(_, _) => false
  }

  /** Every group any builder makes passes validation. */
  lemma BuiltGroupsAreWellFormed(b: Builder, session: string, rs: seq<Record>)
    ensures WellFormed(Build(b, session, rs))
    ensures forall c, s | c in Build(b, session, rs).chains && s in c.steps :: Trained(s) || EOT !in s.tokens
  {
    FoldIsOk(b, Sort(RecordLess, rs));
    var chains := Build(b, session, rs).chains;
    forall i | 0 <= i < |chains| ensures chains[i].id != "" && StepsOk(chains[i], |chains[i].steps|) {
      assert ChainOk(chains[i]);
      forall j | 0 <= j < |chains[i].steps| ensures MaskOk(chains[i].steps[j]) { assert StepOk(chains[i].steps[j]); }
    }
    forall c, s | c in chains && s in c.steps ensures Trained(s) || EOT !in s.tokens {
      assert ChainOk(c);
      assert StepOk(s);
    }
  }
}
