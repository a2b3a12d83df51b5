/** The broker's retained log: a ring buffer that refines an append-only log. */
module Broker {
  import opened Ordering
  import opened Text

  /** Times are nanoseconds since the zero time. */
  type Time = nat

  datatype Record = Record(sequence: nat, topic: string, jobId: string, at: Time, payload: string)

  datatype QueryOptions = QueryOptions(topics: seq<string>, jobId: string, since: Time, window: int, limit: int)

  // ----- What a query means -------------------------------------------------------

  /** Some entry of `topics` is `t` once trimmed. */
  predicate Listed(topics: seq<string>, t: string) {
    exists u | u in topics :: TrimSpace(u) == t
  }

  predicate AllBlank(topics: seq<string>) {
    forall u | u in topics :: TrimSpace(u) == ""
  }

  /** `r` is asked for: its topic is listed, unless every listed topic is blank;
      its job matches; and it is no older than `since` and than `window`. */
  predicate Matches(r: Record, o: QueryOptions, now: int) {
    && (AllBlank(o.topics) || (r.topic != "" && Listed(o.topics, r.topic)))
    && (o.jobId == "" || r.jobId == o.jobId)
    && r.at >= o.since
    && (o.window > 0 ==> r.at >= now - o.window)
  }

  function Filter(log: seq<Record>, o: QueryOptions, now: int): seq<Record> {
    if log == [] then []
    else Filter(Init(log), o, now) + if Matches(Last(log), o, now) then [Last(log)] else []
  }

  function LastN(s: seq<Record>, n: int): seq<Record> {
    if n <= 0 || |s| <= n then s else s[|s| - n..]
  }

  /** Consecutive sequence numbers ending at `n`. */
  predicate Consecutive(log: seq<Record>, n: int) {
    forall i | 0 <= i < |log| :: log[i].sequence == n - |log| + 1 + i
  }

  predicate Increasing(s: seq<Record>) {
    forall i, j | 0 <= i < j < |s| :: s[i].sequence < s[j].sequence
  }

  lemma {:induction false} FilterIsIncreasing(log: seq<Record>, o: QueryOptions, now: int)
    requires Increasing(log)
    ensures Increasing(Filter(log, o, now))
    ensures forall r | r in Filter(log, o, now) :: r in log && Matches(r, o, now)
  {
    if log != [] {
      FilterIsIncreasing(Init(log), o, now);
      forall r | r in Filter(Init(log), o, now) ensures r.sequence < Last(log).sequence {
        assert r in Init(log);
      }
    }
  }

  // ----- The ring -------------------------------------------------------------------

  function Slot(head: nat, i: nat, capacity: nat): nat {
    if head + i < capacity then head + i else head + i - capacity
  }

  lemma WrapOnce(x: nat, n: nat)
    requires 0 < n && x < 2 * n
    ensures x % n == if x < n then x else x - n
  {
    if x >= n { assert x == n * 1 + (x - n); }
  }

  /** Index arithmetic as the ring does it, which is `Slot`. */
  function Wrap(head: nat, i: nat, capacity: nat): (k: nat)
    requires head < capacity && i <= capacity
    ensures k == Slot(head, i, capacity) < capacity
  {
    WrapOnce(head + i, capacity);
    (head + i) % capacity
  }

  /** Array `a`, read from `head`, holds the last `count` records of `log`. */
  predicate Holds(a: seq<Record>, head: nat, count: nat, log: seq<Record>) {
    && head < |a| && count <= |a| && count <= |log|
    && forall i | 0 <= i < count :: a[Slot(head, i, |a|)] == log[|log| - count + i]
  }

  lemma PushBelowCapacity(a: seq<Record>, head: nat, count: nat, log: seq<Record>, r: Record)
    requires Holds(a, head, count, log) && count < |a|
    ensures Holds(a[Slot(head, count, |a|) := r], head, count + 1, log + [r])
  {
  }

  lemma PushAtCapacity(a: seq<Record>, head: nat, log: seq<Record>, r: Record)
    requires Holds(a, head, |a|, log)
    ensures Holds(a[head := r], Slot(head, 1, |a|), |a|, log + [r])
  {
    var a', h' := a[head := r], Slot(head, 1, |a|);
    forall i | 0 <= i < |a| ensures a'[Slot(h', i, |a|)] == (log + [r])[|log| + 1 - |a| + i] {
      if i < |a| - 1 { assert Slot(h', i, |a|) == Slot(head, i + 1, |a|); }
    }
  }

  class Ring {
    const capacity: nat
    const records: array<Record>
    var head: nat
    var count: nat
    var nextSeq: nat
    /** Everything ever appended. */
    ghost var log: seq<Record>

    ghost predicate Valid()
      reads this, records
    {
      && records.Length == capacity
      && count == (if |log| < capacity then |log| else capacity)
      && nextSeq == |log|
      && Consecutive(log, |log|)
      && Holds(records[..], head, count, log)
    }

    /** The last min(n, capacity) records of the log. */
    ghost function Retained(): seq<Record>
      reads this, records
      requires Valid()
    { if |log| <= capacity then log else log[|log| - capacity..] }

    constructor (size: nat, blank: Record)
      requires size > 0
      ensures Valid() && capacity == size && log == [] && fresh(records)
    {
      capacity := size;
      records := new Record[size](i => blank);
      head, count, nextSeq, log := 0, 0, 0, [];
    }

    method AppendEvent(topic: string, jobId: string, at: Time, payload: string) returns (rec: Record)
      requires Valid()
      modifies `head, `count, `nextSeq, `log, records
      ensures Valid()
      ensures rec == Record(|old(log)| + 1, topic, jobId, at, payload)
      ensures log == old(log) + [rec]
    {
      assert head < capacity;
      hide Wrap, Holds, Slot;
      nextSeq := nextSeq + 1;
      rec := Record(nextSeq, topic, jobId, at, payload);
      if count < capacity {
        PushBelowCapacity(records[..], head, count, log, rec);
        var idx := Wrap(head, count, capacity);
        records[idx] := rec;
        assert records[..] == old(records[..])[idx := rec];
        count := count + 1;
      } else {
        PushAtCapacity(records[..], head, log, rec);
        records[head] := rec;
        assert records[..] == old(records[..])[head := rec];
        head := Wrap(head, 1, capacity);
      }
      log := log + [rec];
    }

    method Query(o: QueryOptions, now: int) returns (out: seq<Record>)
      requires Valid()
      ensures out == LastN(Filter(Retained(), o, now), o.limit)
    {
      hide Wrap, Matches, Consecutive, Listed, AllBlank;
      if count == 0 { return []; }
      var topicSet := TopicSet(o.topics);
      var cutoff: int := o.since;
      if o.window > 0 {
        var windowCutoff := now - o.window;
        if cutoff == 0 || windowCutoff > cutoff { cutoff := windowCutoff; }
      }
      ghost var kept := Retained();
      out := [];
      for i := 0 to count
        invariant out == Filter(kept[..i], o, now)
      {
        var r := records[Wrap(head, i, capacity)];
        assert kept[i] == r;
        assert Init(kept[..i + 1]) == kept[..i];
        MatchTests(r, o, now, topicSet, cutoff);
        if topicSet != {} && r.topic !in topicSet { continue; }
        if o.jobId != "" && r.jobId != o.jobId { continue; }
        if cutoff != 0 && r.at < cutoff { continue; }
        out := out + [r];
      }
      assert kept[..count] == kept;
      if o.limit <= 0 || |out| <= o.limit { return; }
      out := out[|out| - o.limit..];
    }
  }

  /** Where the cutoff of a query lies. */
  predicate IsCutoff(o: QueryOptions, now: int, cutoff: int) {
    cutoff == if o.window > 0 && (o.since == 0 || now - o.window > o.since) then now - o.window else o.since
  }

  /** The three tests of the query loop decide `Matches`. */
  lemma MatchTests(r: Record, o: QueryOptions, now: int, topicSet: set<string>, cutoff: int)
    requires forall t :: t in topicSet <==> t != "" && Listed(o.topics, t)
    requires topicSet == {} <==> AllBlank(o.topics)
    requires IsCutoff(o, now, cutoff)
    ensures Matches(r, o, now) <==>
            && (topicSet == {} || r.topic in topicSet)
            && (o.jobId == "" || r.jobId == o.jobId)
            && (cutoff == 0 || r.at >= cutoff)
  {
  }

  method TopicSet(topics: seq<string>) returns (s: set<string>)
    ensures forall t :: t in s <==> t != "" && Listed(topics, t)
    ensures s == {} <==> AllBlank(topics)
  {
    s := {};
    for i := 0 to |topics|
      invariant forall t :: t in s <==> t != "" && Listed(topics[..i], t)
    {
      var topic := TrimSpace(topics[i]);
      ListedSnoc(topics[..i], topics[i]);
      assert topics[..i + 1] == topics[..i] + [topics[i]];
      if topic != "" { s := s + {topic}; }
    }
    assert topics[..|topics|] == topics;
    forall u | u in topics && TrimSpace(u) != "" ensures TrimSpace(u) in s { assert Listed(topics, TrimSpace(u)); }
  }

  lemma ListedSnoc(topics: seq<string>, u: string)
    ensures forall t :: Listed(topics + [u], t) <==> Listed(topics, t) || TrimSpace(u) == t
  {
    forall t ensures Listed(topics + [u], t) <==> Listed(topics, t) || TrimSpace(u) == t {
      assert u in topics + [u];
      assert forall v | v in topics :: v in topics + [u];
    }
  }

  /** Whatever part of the log is retained, any query returns matching records of
      it only, in strictly increasing sequence order, and no more than its limit. */
  lemma QueryIsIncreasing(log: seq<Record>, k: nat, o: QueryOptions, now: int)
    requires Consecutive(log, |log|) && k <= |log|
    ensures Increasing(LastN(Filter(log[k..], o, now), o.limit))
    ensures o.limit > 0 ==> |LastN(Filter(log[k..], o, now), o.limit)| <= o.limit
    ensures forall r | r in LastN(Filter(log[k..], o, now), o.limit) :: r in log[k..] && Matches(r, o, now)
  {
    FilterIsIncreasing(log[k..], o, now);
  }
}
