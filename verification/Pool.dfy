/** The shadow client's connection pool: a token semaphore and an idle channel
    under any number of concurrent `acquire`, `release` and `Close` calls. */
module Pool {
  type Conn = nat
  type Tid = nat

  /** What a thread is doing with a connection it holds: using it, returning it
      past the closed check, closing it in `release`, or closing it in `Close`. */
  datatype Use = InUse | Returning | Discarding | Sweeping

  datatype Pc =
    | Idle
    | Checked | Blocked                 // acquire: past the closed check; past the first look at idle
    | Dialing | DialFailed              // acquire: holds a token; about to give it back
    | Holding(conn: Conn, use: Use)
    | Freeing(sweep: bool)              // connection closed, token still to be received
    | Sweep                             // Close: draining idle

  /** `tokens` is len(sem), `size` the capacity of both channels. */
  datatype Channels = Channels(size: nat, tokens: int, idle: seq<Conn>, closed: bool)

  datatype Place = InIdle | With(t: Tid) | Gone

  /** `next` names the next connection dialled; `place` says where each one is. */
  datatype State = State(ch: Channels, pcs: map<Tid, Pc>, next: Conn, place: map<Conn, Place>)

  function PcOf(s: State, t: Tid): Pc { if t in s.pcs then s.pcs[t] else Idle }

  predicate Init(s: State) {
    s.ch.tokens == 0 && s.ch.idle == [] && !s.ch.closed && s.pcs == map[] && s.next == 0 && s.place == map[]
  }

  datatype Action =
    | CheckOpen | TakeFirst | NoneIdle | TakeIdle | TakeToken | SeeClosed | Dial | DialFails | GiveBack
    | Unhealthy | ReleaseClosed | ReleaseOpen | Push | IdleFull | CloseConn | Free
    | BeginClose | SweepOne | SweepDone

  predicate Uses(p: Pc, u: Use) { p.Holding? && p.use == u }

  predicate Enabled(s: State, t: Tid, a: Action) {
    var p := PcOf(s, t);
    match a
    case CheckOpen => p.Idle? && !s.ch.closed
    case TakeFirst => p.Checked? && s.ch.idle != []
    case NoneIdle => p.Checked? && s.ch.idle == []
    case TakeIdle => p.Blocked? && s.ch.idle != []
    case TakeToken => p.Blocked? && s.ch.tokens < s.ch.size
    case SeeClosed => p.Blocked? && s.ch.closed
    case Dial => p.Dialing?
    case DialFails => p.Dialing?
    case GiveBack => p.DialFailed? && s.ch.tokens > 0
    case Unhealthy => Uses(p, InUse)
    case ReleaseClosed => Uses(p, InUse) && s.ch.closed
    case ReleaseOpen => Uses(p, InUse) && !s.ch.closed
    case Push => Uses(p, Returning) && |s.ch.idle| < s.ch.size
    case IdleFull => Uses(p, Returning) && |s.ch.idle| >= s.ch.size
    case CloseConn => Uses(p, Discarding) || Uses(p, Sweeping)
    case Free => p.Freeing? && s.ch.tokens > 0
    case BeginClose => p.Idle?
    case SweepOne => p.Sweep? && s.ch.idle != []
    case SweepDone => p.Sweep? && s.ch.idle == []
  }

  function Goto(s: State, t: Tid, p: Pc): State { s.(pcs := s.pcs[t := p]) }

  function Take(s: State, t: Tid, u: Use): State
    requires s.ch.idle != []
  {
    var c := s.ch.idle[0];
    s.(ch := s.ch.(idle := s.ch.idle[1..]), place := s.place[c := With(t)], pcs := s.pcs[t := Holding(c, u)])
  }

  function Tokens(s: State, n: int): State { s.(ch := s.ch.(tokens := n)) }

  function Next(s: State, t: Tid, a: Action): State
    requires Enabled(s, t, a)
  {
    var p := PcOf(s, t);
    match a
    case CheckOpen => Goto(s, t, Checked)
    case TakeFirst => Take(s, t, InUse)
    case NoneIdle => Goto(s, t, Blocked)
    case TakeIdle => Take(s, t, InUse)
    case TakeToken => Goto(Tokens(s, s.ch.tokens + 1), t, Dialing)
    case SeeClosed => Goto(s, t, Idle)
    case Dial => Goto(s.(next := s.next + 1, place := s.place[s.next := With(t)]), t, Holding(s.next, InUse))
    case DialFails => Goto(s, t, DialFailed)
    case GiveBack => Goto(Tokens(s, s.ch.tokens - 1), t, Idle)
    case Unhealthy => Goto(s, t, Holding(p.conn, Discarding))
    case ReleaseClosed => Goto(s, t, Holding(p.conn, Discarding))
    case ReleaseOpen => Goto(s, t, Holding(p.conn, Returning))
    case Push => Goto(s.(ch := s.ch.(idle := s.ch.idle + [p.conn]), place := s.place[p.conn := InIdle]), t, Idle)
    case IdleFull => Goto(s, t, Holding(p.conn, Discarding))
    case CloseConn => Goto(s.(place := s.place[p.conn := Gone]), t, Freeing(p.use.Sweeping?))
    case Free => Goto(Tokens(s, s.ch.tokens - 1), t, if p.sweep then Sweep else Idle)
    case BeginClose => Goto(s.(ch := s.ch.(closed := true)), t, Sweep)
    case SweepOne => Take(s, t, Sweeping)
    case SweepDone => Goto(s, t, Idle)
  }

  // ----- The invariant -----------------------------------------------------------

  /** The thread owns one token: for a dial, a connection, or a slot still to be freed. */
  predicate OwnsToken(p: Pc) { p.Dialing? || p.DialFailed? || p.Holding? || p.Freeing? }

  function Owners(s: State): set<Tid> { set t | t in s.pcs && OwnsToken(s.pcs[t]) }

  /** Connections dialled and not yet closed. */
  function Live(s: State): set<Conn> { set c | c in s.place && !s.place[c].Gone? }

  /** Threads that own a token without a connection. */
  function Empty(s: State): set<Tid> { set t | t in s.pcs && OwnsToken(s.pcs[t]) && !s.pcs[t].Holding? }

  predicate CountsOk(s: State) {
    && s.ch.tokens == |s.ch.idle| + |Owners(s)|
    && s.ch.tokens == |Live(s)| + |Empty(s)|
    && s.ch.tokens <= s.ch.size
  }

  predicate ThreadOk(s: State, t: Tid) {
    var p := PcOf(s, t);
    p.Holding? ==> p.conn in s.place && s.place[p.conn] == With(t)
  }

  predicate ConnOk(s: State, c: Conn) {
    (c in s.place <==> c < s.next) &&
    (c in s.place ==>
       match s.place[c]
       case InIdle => c in s.ch.idle
       case With(t) => PcOf(s, t).Holding? && PcOf(s, t).conn == c
       case Gone => true)
  }

  predicate IdleOk(s: State) {
    && (forall i | 0 <= i < |s.ch.idle| :: s.ch.idle[i] in s.place && s.place[s.ch.idle[i]] == InIdle)
    && (forall i, j | 0 <= i < j < |s.ch.idle| :: s.ch.idle[i] != s.ch.idle[j])
  }

  predicate HeadOk(s: State) {
    s.ch.idle != [] ==> s.ch.idle[0] in s.place && s.place[s.ch.idle[0]] == InIdle
  }

  ghost predicate Inv(s: State) {
    IdleOk(s) && CountsOk(s) && (forall t :: ThreadOk(s, t)) && (forall c :: ConnOk(s, c))
  }

  lemma ThreadKept(s: State, t: Tid, a: Action, u: Tid)
    requires ThreadOk(s, t) && ThreadOk(s, u) && HeadOk(s) && ConnOk(s, s.next) && Enabled(s, t, a)
    ensures ThreadOk(Next(s, t, a), u)
  {
  }

  lemma ConnKept(s: State, t: Tid, a: Action, c: Conn)
    requires ThreadOk(s, t) && ConnOk(s, c) && HeadOk(s) && Enabled(s, t, a)
    ensures ConnOk(Next(s, t, a), c)
  {
  }

  lemma IdleKept(s: State, t: Tid, a: Action)
    requires ThreadOk(s, t) && IdleOk(s) && ConnOk(s, s.next) && Enabled(s, t, a)
    ensures IdleOk(Next(s, t, a))
  {
  }

  /** How one step changes the sets that are counted. */
  lemma OwnersAfter(s: State, t: Tid, a: Action)
    requires Enabled(s, t, a)
    ensures var s' := Next(s, t, a);
            && Owners(s') == (if OwnsToken(PcOf(s', t)) then Owners(s) + {t} else Owners(s) - {t})
            && (t in Owners(s) <==> OwnsToken(PcOf(s, t)))
  {
  }

  lemma EmptyAfter(s: State, t: Tid, a: Action)
    requires Enabled(s, t, a)
    ensures var s' := Next(s, t, a); var p, p' := PcOf(s, t), PcOf(s', t);
            && Empty(s') == (if OwnsToken(p') && !p'.Holding? then Empty(s) + {t} else Empty(s) - {t})
            && (t in Empty(s) <==> OwnsToken(p) && !p.Holding?)
  {
  }

  lemma LiveAfter(s: State, t: Tid, a: Action)
    requires ThreadOk(s, t) && HeadOk(s) && ConnOk(s, s.next) && Enabled(s, t, a)
    ensures var s', p := Next(s, t, a), PcOf(s, t);
            && Live(s') == (if a.Dial? then Live(s) + {s.next} else if a.CloseConn? then Live(s) - {p.conn} else Live(s))
            && (a.CloseConn? ==> p.conn in Live(s)) && s.next !in Live(s)
  {
  }

  function One(b: bool): int { if b then 1 else 0 }

  lemma CardAfter(before: set<nat>, after: set<nat>, x: nat, inside: bool)
    requires after == if inside then before + {x} else before - {x}
    ensures |after| == |before| + One(inside) - One(x in before)
  {
  }

  /** The same, as numbers. */
  lemma CardsAfter(s: State, t: Tid, a: Action)
    requires ThreadOk(s, t) && HeadOk(s) && ConnOk(s, s.next) && Enabled(s, t, a)
    ensures var s' := Next(s, t, a); var p, p' := PcOf(s, t), PcOf(s', t);
            && |Owners(s')| == |Owners(s)| + One(OwnsToken(p')) - One(OwnsToken(p))
            && |Empty(s')| == |Empty(s)| + One(OwnsToken(p') && !p'.Holding?) - One(OwnsToken(p) && !p.Holding?)
            && |Live(s')| == |Live(s)| + One(a.Dial?) - One(a.CloseConn?)
  {
    OwnersAfter(s, t, a);
    EmptyAfter(s, t, a);
    LiveAfter(s, t, a);
    hide Owners, Empty, Live, ThreadOk, HeadOk, ConnOk, Next, Enabled, OwnsToken;
    var s' := Next(s, t, a);
    var p' := PcOf(s', t);
    CardAfter(Owners(s), Owners(s'), t, OwnsToken(p'));
    CardAfter(Empty(s), Empty(s'), t, OwnsToken(p') && !p'.Holding?);
  }

  lemma CountsKept(s: State, t: Tid, a: Action)
    requires ThreadOk(s, t) && HeadOk(s) && ConnOk(s, s.next) && CountsOk(s) && Enabled(s, t, a)
    ensures CountsOk(Next(s, t, a))
  {
    CardsAfter(s, t, a);
    hide Owners, Empty, Live, ThreadOk, HeadOk, ConnOk;
  }

  lemma NextKeepsInv(s: State, t: Tid, a: Action)
    requires Inv(s) && Enabled(s, t, a)
    ensures Inv(Next(s, t, a))
  {
    assert ThreadOk(s, t) && ConnOk(s, s.next) && HeadOk(s);
    IdleKept(s, t, a);
    CountsKept(s, t, a);
    hide Next, ThreadOk, ConnOk, IdleOk, CountsOk, HeadOk, Enabled;
    forall u: Tid ensures ThreadOk(Next(s, t, a), u) { ThreadKept(s, t, a, u); }
    forall c: Conn ensures ConnOk(Next(s, t, a), c) { ConnKept(s, t, a, c); }
  }

  // ----- Every run --------------------------------------------------------------------

  ghost predicate Run(states: seq<State>, steps: seq<(Tid, Action)>) {
    && |states| == |steps| + 1
    && Init(states[0])
    && (forall i | 0 <= i < |steps| ::
          Enabled(states[i], steps[i].0, steps[i].1) && states[i + 1] == Next(states[i], steps[i].0, steps[i].1))
  }

  lemma {:induction false} InvAlongRun(states: seq<State>, steps: seq<(Tid, Action)>, i: nat)
    requires Run(states, steps) && i < |states|
    ensures Inv(states[i]) && states[i].ch.size == states[0].ch.size
  {
    if i > 0 {
      InvAlongRun(states, steps, i - 1);
      NextKeepsInv(states[i - 1], steps[i - 1].0, steps[i - 1].1);
    }
  }

  /** Tokens account for every connection and dial, and bound the live connections. */
  lemma TokensAccountForConnections(states: seq<State>, steps: seq<(Tid, Action)>, i: nat)
    requires Run(states, steps) && i < |states|
    ensures states[i].ch.tokens == |states[i].ch.idle| + |Owners(states[i])|
    ensures |Live(states[i])| <= states[i].ch.tokens <= states[0].ch.size
  {
    InvAlongRun(states, steps, i);
  }

  /** No connection is held twice, or held and idle, or idle twice, or held once closed. */
  lemma NoConnectionIsShared(states: seq<State>, steps: seq<(Tid, Action)>, i: nat, t: Tid, u: Tid)
    requires Run(states, steps) && i < |states| && PcOf(states[i], t).Holding?
    ensures PcOf(states[i], u).Holding? && PcOf(states[i], u).conn == PcOf(states[i], t).conn ==> u == t
    ensures PcOf(states[i], t).conn !in states[i].ch.idle && PcOf(states[i], t).conn in Live(states[i])
    ensures forall k, l | 0 <= k < l < |states[i].ch.idle| :: states[i].ch.idle[k] != states[i].ch.idle[l]
  {
    InvAlongRun(states, steps, i);
    assert ThreadOk(states[i], t) && ThreadOk(states[i], u);
  }

  /** A thread that has to receive a token finds one, and `release` finds room in idle. */
  lemma NoReceiveBlocks(states: seq<State>, steps: seq<(Tid, Action)>, i: nat, t: Tid)
    requires Run(states, steps) && i < |states|
    ensures OwnsToken(PcOf(states[i], t)) ==> states[i].ch.tokens > 0 && |states[i].ch.idle| < states[0].ch.size
    ensures PcOf(states[i], t).DialFailed? ==> Enabled(states[i], t, GiveBack)
    ensures PcOf(states[i], t).Freeing? ==> Enabled(states[i], t, Free)
    ensures !Enabled(states[i], t, IdleFull)
  {
    InvAlongRun(states, steps, i);
    if OwnsToken(PcOf(states[i], t)) { assert t in Owners(states[i]); }
  }
}
