/** One subscriber queue: the broker's offering thread, the pump goroutine and
    closers, interleaved at the level of lock sections and channel operations. */
module Subscriber {
  import opened Wrappers

  datatype Item = Item(sequence: nat, size: nat)

  /** `offer`: idle; inside the lock with the closed flag not yet read; past the
      size and depth test; sent, with the bytes not yet added. */
  datatype OfferPc = Resting | Locked(item: Item) | Passed(item: Item) | Sent(item: Item)

  /** `pump`: waiting on the channel; holding a record; delivered, with
      `onDequeued` still to run; ended, perhaps with a record in hand. */
  datatype PumpPc = Waiting | Holding(item: Item) | Delivered(item: Item) | Ended(left: Option<Item>)

  datatype Queue = Queue(ch: seq<Item>, bytes: int, closed: bool, dropped: nat)

  datatype Config = Config(depth: nat, maxBytes: nat)

  /** `sequence`, the last number the broker offered, is the broker's; the rest records the run:
      what entered the channel, what was delivered, and how many offers found the queue open. */
  datatype History = History(sequence: nat, accepted: seq<Item>, delivered: seq<Item>, offers: nat)

  datatype State = State(cfg: Config, q: Queue, offerer: OfferPc, pump: PumpPc, done: bool, past: History)

  predicate Init(s: State) {
    && s.q == Queue([], 0, false, 0) && s.offerer == Resting && s.pump == Waiting && !s.done
    && s.past.accepted == [] && s.past.delivered == [] && s.past.offers == 0
  }

  /** The offering thread is the only one that keeps the mutex between steps. */
  predicate LockFree(s: State) { s.offerer.Resting? }

  datatype Action =
    | Lock(item: Item) | SeeClosed | Reject | Pass | Send | Default | Add
    | Receive | Deliver | Abort | Dequeue | EndOfChannel
    | CloseDone | CloseQueue

  predicate Enabled(s: State, a: Action) {
    match a
    case Lock(item) => LockFree(s) && item.sequence > s.past.sequence
    case SeeClosed => s.offerer.Locked? && s.q.closed
    case Reject => s.offerer.Locked? && !s.q.closed
                   && (s.q.bytes + s.offerer.item.size > s.cfg.maxBytes || |s.q.ch| >= s.cfg.depth)
    case Pass => s.offerer.Locked? && !s.q.closed
                 && !(s.q.bytes + s.offerer.item.size > s.cfg.maxBytes || |s.q.ch| >= s.cfg.depth)
    case Send => s.offerer.Passed? && |s.q.ch| < s.cfg.depth
    case Default => s.offerer.Passed? && |s.q.ch| >= s.cfg.depth
    case Add => s.offerer.Sent?
    case Receive => s.pump.Waiting? && s.q.ch != []
    case Deliver => s.pump.Holding?
    case Abort => s.pump.Holding? && s.done
    case Dequeue => s.pump.Delivered? && LockFree(s)
    case EndOfChannel => s.pump.Waiting? && s.q.ch == [] && s.q.closed
    case CloseDone => true
    case CloseQueue => LockFree(s)
  }

  function Clamp(n: int): int { if n < 0 then 0 else n }

  function Next(s: State, a: Action): State
    requires Enabled(s, a)
  {
    match a
    case Lock(item) => s.(offerer := Locked(item), past := s.past.(sequence := item.sequence))
    case SeeClosed => s.(offerer := Resting)
    case Reject => s.(offerer := Resting, q := s.q.(dropped := s.q.dropped + 1), past := s.past.(offers := s.past.offers + 1))
    case Pass => s.(offerer := Passed(s.offerer.item))
    case Send =>
      var item := s.offerer.item;
      s.(offerer := Sent(item), q := s.q.(ch := s.q.ch + [item]),
         past := s.past.(accepted := s.past.accepted + [item], offers := s.past.offers + 1))
    case Default => s.(offerer := Resting, q := s.q.(dropped := s.q.dropped + 1), past := s.past.(offers := s.past.offers + 1))
    case Add => s.(offerer := Resting, q := s.q.(bytes := s.q.bytes + s.offerer.item.size))
    case Receive => s.(pump := Holding(s.q.ch[0]), q := s.q.(ch := s.q.ch[1..]))
    case Deliver => s.(pump := Delivered(s.pump.item), past := s.past.(delivered := s.past.delivered + [s.pump.item]))
    case Abort => s.(pump := Ended(Some(s.pump.item)))
    case Dequeue => s.(pump := Waiting, q := s.q.(bytes := Clamp(s.q.bytes - s.pump.item.size)))
    case EndOfChannel => s.(pump := Ended(None))
    case CloseDone => s.(done := true)
    case CloseQueue => s.(q := s.q.(closed := true))
  }

  // ----- The invariant -------------------------------------------------------------

  function Bytes(items: seq<Item>): nat {
    if items == [] then 0 else items[0].size + Bytes(items[1..])
  }

  lemma {:induction false} BytesSnoc(items: seq<Item>, item: Item)
    ensures Bytes(items + [item]) == Bytes(items) + item.size
  {
    if items != [] {
      BytesSnoc(items[1..], item);
      assert (items + [item])[1..] == items[1..] + [item];
    }
  }

  /** Sent but not yet added. */
  function InFlight(s: State): nat { if s.offerer.Sent? then s.offerer.item.size else 0 }

  /** Received and not yet subtracted. */
  function HeldBytes(s: State): nat {
    match s.pump
    case Holding(item) => item.size
    case Delivered(item) => item.size
    case Ended(Some(item)) => item.size
    case _ => 0
  }

  /** Received and neither delivered nor abandoned by the channel's end. */
  function HeldItems(s: State): seq<Item> {
    match s.pump
    case Holding(item) => [item]
    case Ended(Some(item)) => [item]
    case _ => []
  }

  predicate Increasing(items: seq<Item>) {
    forall i, j | 0 <= i < j < |items| :: items[i].sequence < items[j].sequence
  }

  predicate BytesOk(s: State) {
    && s.q.bytes + InFlight(s) == Bytes(s.q.ch) + HeldBytes(s)
    && 0 <= s.q.bytes
    && s.q.bytes + InFlight(s) <= s.cfg.maxBytes
    && |s.q.ch| <= s.cfg.depth
    && (s.offerer.Passed? ==> !s.q.closed && |s.q.ch| < s.cfg.depth && s.q.bytes + s.offerer.item.size <= s.cfg.maxBytes)
    && (s.offerer.Sent? ==> !s.q.closed)
  }

  predicate ContentsOk(s: State) {
    && s.past.accepted == s.past.delivered + HeldItems(s) + s.q.ch
    && s.past.offers == |s.past.accepted| + s.q.dropped
  }

  predicate OrderOk(s: State) {
    && Increasing(s.past.accepted)
    && (forall item | item in s.past.accepted :: item.sequence <= s.past.sequence)
    && ((s.offerer.Locked? || s.offerer.Passed?) ==>
          s.offerer.item.sequence == s.past.sequence && forall item | item in s.past.accepted :: item.sequence < s.past.sequence)
  }

  ghost predicate Inv(s: State) { BytesOk(s) && ContentsOk(s) && OrderOk(s) }

  lemma BytesKept(s: State, a: Action)
    requires BytesOk(s) && Enabled(s, a)
    ensures BytesOk(Next(s, a))
  {
    if a.Send? { BytesSnoc(s.q.ch, s.offerer.item); }
  }

  lemma ContentsKept(s: State, a: Action)
    requires ContentsOk(s) && Enabled(s, a)
    ensures ContentsOk(Next(s, a))
  {
    var s' := Next(s, a);
    match a
    case Send => assert s'.past.accepted == s.past.delivered + HeldItems(s) + s'.q.ch;
    case Receive => assert s.q.ch == [s.q.ch[0]] + s.q.ch[1..];
    case Deliver => assert s'.past.delivered + [] == s.past.delivered + [s.pump.item];
    case _ =>
  }

  lemma OrderKept(s: State, a: Action)
    requires OrderOk(s) && Enabled(s, a)
    ensures OrderOk(Next(s, a))
  {
  }

  // ----- Every run ---------------------------------------------------------------------

  ghost predicate Run(states: seq<State>, steps: seq<Action>) {
    && |states| == |steps| + 1
    && Init(states[0])
    && (forall i | 0 <= i < |steps| :: Enabled(states[i], steps[i]) && states[i + 1] == Next(states[i], steps[i]))
  }

  lemma {:induction false} InvAlongRun(states: seq<State>, steps: seq<Action>, i: nat)
    requires Run(states, steps) && i < |states|
    ensures Inv(states[i]) && states[i].cfg == states[0].cfg
  {
    if i > 0 {
      InvAlongRun(states, steps, i - 1);
      BytesKept(states[i - 1], steps[i - 1]);
      ContentsKept(states[i - 1], steps[i - 1]);
      OrderKept(states[i - 1], steps[i - 1]);
    }
  }

  /** The byte account is exact at every instant, never exceeds the bound, and the
      channel never holds more than its depth. */
  lemma BytesAreExact(states: seq<State>, steps: seq<Action>, i: nat)
    requires Run(states, steps) && i < |states|
    ensures states[i].q.bytes + InFlight(states[i]) == Bytes(states[i].q.ch) + HeldBytes(states[i])
    ensures 0 <= states[i].q.bytes <= states[0].cfg.maxBytes && |states[i].q.ch| <= states[0].cfg.depth
  {
    InvAlongRun(states, steps, i);
  }

  /** The inner default drop is never taken, the clamp at zero never acts, and
      nothing is ever sent on a closed channel. */
  lemma DefensiveBranchesAreUnreachable(states: seq<State>, steps: seq<Action>, i: nat)
    requires Run(states, steps) && i < |steps|
    ensures !steps[i].Default?
    ensures steps[i].Dequeue? ==> states[i + 1].q.bytes == states[i].q.bytes - states[i].pump.item.size
    ensures steps[i].Send? ==> !states[i].q.closed
  {
    InvAlongRun(states, steps, i);
  }

  /** Every offer that found the queue open was delivered, is queued, is held by the
      pump, or was dropped; and delivery is in strictly increasing sequence order. */
  lemma OffersAreConserved(states: seq<State>, steps: seq<Action>, i: nat)
    requires Run(states, steps) && i < |states|
    ensures states[i].past.offers ==
            |states[i].past.delivered| + |states[i].q.ch| + |HeldItems(states[i])| + states[i].q.dropped
    ensures states[i].past.accepted == states[i].past.delivered + HeldItems(states[i]) + states[i].q.ch
    ensures Increasing(states[i].past.delivered)
  {
    InvAlongRun(states, steps, i);
    var s := states[i];
    assert forall k | 0 <= k < |s.past.delivered| :: s.past.delivered[k] == s.past.accepted[k];
  }

  /** Once the pump has ended, nothing more is delivered: what is left was discarded. */
  lemma {:induction false} EndIsFinal(states: seq<State>, steps: seq<Action>, i: nat, j: nat)
    requires Run(states, steps) && i <= j < |states| && states[i].pump.Ended?
    ensures states[j].pump == states[i].pump && states[j].past.delivered == states[i].past.delivered
    decreases j
  {
    if j > i { EndIsFinal(states, steps, i, j - 1); }
  }
}
