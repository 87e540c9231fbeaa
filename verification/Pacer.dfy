/**
 The prototype's pacer: a leaky bucket of bytes.  Control packets and tokens are sent whenever they
 are there and only charged; data is held back while 3000 bytes or more are outstanding.  The bucket
 drains by whole bytes, and an interval too short to drain a byte is left to accumulate.
 */
module Pacer {
  import opened Arithmetic
  import opened Options

  const DATA_BYTES := 1500
  const ETHER_HDR := 14
  const THRESHOLD := 3000

  /** Bits per second and clock cycles per second. */
  datatype Rate = Rate(bandwidth: nat, hz: nat)

  /** Whole bytes a link carries in so many cycles. */
  type Capacity = nat -> nat

  /** The link's capacity, rounded down twice as the source does. */
  function CapOf(rate: Rate): Capacity
    requires rate.hz > 0
  {
    (d: nat) => d * rate.bandwidth / rate.hz / 8
  }

  /** Two intervals never drain more than the one they make up. */
  ghost predicate SuperAdditive(cap: Capacity) {
    forall a, b :: Adds(cap, a, b)
  }

  ghost predicate Adds(cap: Capacity, a: nat, b: nat) {
    cap(a) + cap(b) <= cap(a + b)
  }

  datatype Token = Token(flowId: nat, length: nat)

  /** The bucket, the control ring, the receiver's token rings and the sender's. */
  datatype State = State(
    remaining: nat, lastUpdate: nat, ctrl: seq<nat>,
    shortTokens: seq<Token>, longTokens: seq<Token>, shortData: seq<Token>, longData: seq<Token>)

  datatype Packet = Control(length: nat) | TokenSent(token: Token) | DataSent(token: Token)

  function Bytes(p: Packet): nat {
    match p
    case Control(length) => length + ETHER_HDR
    case TokenSent(t) => t.length + ETHER_HDR
    case DataSent(_) => DATA_BYTES
  }

  function Charged(log: seq<Packet>): nat {
    if log == [] then 0 else Charged(log[..|log| - 1]) + Bytes(log[|log| - 1])
  }

  // ---- Capacity ----

  lemma DivMul(x: nat, d: nat)
    requires d > 0
    ensures x / d * d <= x < x / d * d + d
  {
  }

  lemma FloorsAdd(x: nat, y: nat, d: nat)
    requires d > 0
    ensures x / d + y / d <= (x + y) / d
  {
    DivMul(x, d);
    DivMul(y, d);
    DivMul(x + y, d);
    Distribute(x / d, y / d, d);
    Distribute((x + y) / d, 1, d);
    CancelFactor(x / d + y / d, (x + y) / d + 1, d);
  }

  lemma FloorGrows(x: nat, y: nat, d: nat)
    requires d > 0 && x <= y
    ensures x / d <= y / d
  {
    FloorsAdd(x, y - x, d);
  }

  lemma CapAdds(rate: Rate, a: nat, b: nat)
    requires rate.hz > 0
    ensures CapOf(rate)(a) + CapOf(rate)(b) <= CapOf(rate)(a + b)
  {
    var x, y := a * rate.bandwidth, b * rate.bandwidth;
    Distribute(a, b, rate.bandwidth);
    FloorsAdd(x, y, rate.hz);
    FloorsAdd(x / rate.hz, y / rate.hz, 8);
    FloorGrows(x / rate.hz + y / rate.hz, (x + y) / rate.hz, 8);
  }

  /** Rounding down never lets two drains exceed one. */
  lemma CapIsSuperAdditive(rate: Rate)
    requires rate.hz > 0
    ensures SuperAdditive(CapOf(rate))
  {
    forall a: nat, b: nat
      ensures Adds(CapOf(rate), a, b)
    {
      CapAdds(rate, a, b);
    }
  }

  lemma Carries(rate: Rate, bytes: nat, wait: nat)
    requires rate.hz > 0 && wait * rate.bandwidth >= bytes * 8 * rate.hz
    ensures bytes <= CapOf(rate)(wait)
  {
    DivMul(wait * rate.bandwidth, rate.hz);
    var q := wait * rate.bandwidth / rate.hz;
    Distribute(q, 1, rate.hz);
    CancelFactor(bytes * 8, q + 1, rate.hz);
  }

  /** A wait worth the whole backlog empties it: what the data timer is set to. */
  lemma WaitEmpties(rate: Rate, s: State, wait: nat)
    requires rate.hz > 0 && wait * rate.bandwidth >= s.remaining * 8 * rate.hz
    ensures Update(CapOf(rate), s, s.lastUpdate + wait).remaining == 0
  {
    Carries(rate, s.remaining, wait);
  }

  // ---- Operations ----

  function Update(cap: Capacity, s: State, now: nat): (r: State)
    requires s.lastUpdate <= now
    ensures s.lastUpdate <= r.lastUpdate <= now
  {
    var drain := cap(now - s.lastUpdate);
    if drain == 0 then s
    else s.(lastUpdate := now, remaining := if s.remaining < drain then 0 else s.remaining - drain)
  }

  /** Tokens of finished flows are thrown away until a live one turns up. */
  function DropDead(q: seq<Token>, live: set<nat>): (r: seq<Token>)
    ensures r != [] ==> r[0].flowId in live && r[0] in q
    ensures r == [] <==> forall i | 0 <= i < |q| :: q[i].flowId !in live
  {
    if q == [] || q[0].flowId in live then q else DropDead(q[1..], live)
  }

  function SendToken(s: State, live: set<nat>): (State, seq<Packet>) {
    var short := DropDead(s.shortTokens, live);
    if short != [] then
      (s.(shortTokens := short[1..], remaining := s.remaining + short[0].length + ETHER_HDR), [TokenSent(short[0])])
    else
      var long := DropDead(s.longTokens, live);
      if long != [] then
        (s.(shortTokens := [], longTokens := long[1..], remaining := s.remaining + long[0].length + ETHER_HDR), [TokenSent(long[0])])
      else (s.(shortTokens := [], longTokens := []), [])
  }

  function SendData(cap: Capacity, s: State, now: nat): (State, seq<Packet>)
    requires s.lastUpdate <= now
  {
    var u := Update(cap, s, now);
    if u.remaining >= THRESHOLD then (u, [])
    else if u.shortData != [] then
      (u.(shortData := u.shortData[1..], remaining := u.remaining + DATA_BYTES), [DataSent(u.shortData[0])])
    else if u.longData != [] then
      (u.(longData := u.longData[1..], remaining := u.remaining + DATA_BYTES), [DataSent(u.longData[0])])
    else (u, [])
  }

  function SendControl(s: State): (State, seq<Packet>) {
    if s.ctrl == [] then (s, [])
    else (s.(ctrl := s.ctrl[1..], remaining := s.remaining + s.ctrl[0] + ETHER_HDR), [Control(s.ctrl[0])])
  }

  // ---- Runs ----

  /** What the pacer core does, and what other cores put in its rings. */
  datatype Event =
    | Poll
    | ControlPacket
    | TokenTimer(live: set<nat>)
    | DataTimer
    | Rings(ctrl: seq<nat>, shortTokens: seq<Token>, longTokens: seq<Token>, shortData: seq<Token>, longData: seq<Token>)

  datatype Step = Step(now: nat, event: Event)

  function Next(cap: Capacity, s: State, step: Step): (State, seq<Packet>)
    requires s.lastUpdate <= step.now
  {
    match step.event
    case Poll => (Update(cap, s, step.now), [])
    case ControlPacket => SendControl(s)
    case TokenTimer(live) => SendToken(s, live)
    case DataTimer => SendData(cap, s, step.now)
    case Rings(c, st, lt, sd, ld) => (s.(ctrl := c, shortTokens := st, longTokens := lt, shortData := sd, longData := ld), [])
  }

  /** The clock never goes back. */
  ghost predicate Timed(start: nat, steps: seq<Step>) {
    && (forall i | 0 <= i < |steps| :: start <= steps[i].now)
    && (forall i, j | 0 <= i < j < |steps| :: steps[i].now <= steps[j].now)
  }

  /** The states and all packets sent since `s`; `s` need not be the start. */
  function Run(cap: Capacity, s: State, steps: seq<Step>): (r: (State, seq<Packet>))
    requires Timed(s.lastUpdate, steps)
    ensures s.lastUpdate <= r.0.lastUpdate
    ensures r.0.lastUpdate == s.lastUpdate || (steps != [] && r.0.lastUpdate <= steps[|steps| - 1].now)
    decreases |steps|
  {
    if steps == [] then (s, [])
    else
      var (t, log) := Run(cap, s, steps[..|steps| - 1]);
      var (u, sent) := Next(cap, t, steps[|steps| - 1]);
      (u, log + sent)
  }

  /** One turn of the core: bring the bucket up to date, then send `n` control packets. */
  function TurnSteps(now: nat, n: nat): (r: seq<Step>)
    ensures |r| == n + 1 && forall i | 0 <= i < |r| :: r[i].now == now
  {
    if n == 0 then [Step(now, Poll)] else TurnSteps(now, n - 1) + [Step(now, ControlPacket)]
  }

  lemma OneMoreCharged(log: seq<Packet>, p: Packet)
    ensures Charged(log + [p]) == Charged(log) + Bytes(p)
  {
    assert (log + [p])[..|log|] == log;
  }

  lemma TimedPrefix(start: nat, steps: seq<Step>)
    requires Timed(start, steps) && steps != []
    ensures Timed(start, steps[..|steps| - 1])
    ensures start <= steps[|steps| - 1].now && forall i | 0 <= i < |steps| - 1 :: steps[i].now <= steps[|steps| - 1].now
  {
  }

  lemma RunUnfolds(cap: Capacity, s: State, steps: seq<Step>)
    requires steps != [] && Timed(s.lastUpdate, steps)
    ensures Timed(s.lastUpdate, steps[..|steps| - 1])
    ensures var (t, log) := Run(cap, s, steps[..|steps| - 1]);
            && s.lastUpdate <= t.lastUpdate <= steps[|steps| - 1].now
            && Run(cap, s, steps) == (Next(cap, t, steps[|steps| - 1]).0, log + Next(cap, t, steps[|steps| - 1]).1)
  {
    TimedPrefix(s.lastUpdate, steps);
  }

  /** Updates take no more out of the bucket than the link carried; what is sent goes in, and nothing else. */
  ghost predicate Accounts(cap: Capacity, s: State, u: State, before: nat, after: nat) {
    && s.lastUpdate <= u.lastUpdate
    && after + s.remaining <= before + u.remaining + cap(u.lastUpdate - s.lastUpdate)
    && before + u.remaining <= after + s.remaining
  }

  /** A step sends at most one packet, and charges it. */
  lemma NextCharges(cap: Capacity, s: State, step: Step)
    requires s.lastUpdate <= step.now && cap(0) == 0
    ensures var (u, sent) := Next(cap, s, step);
            && |sent| <= 1 && u.lastUpdate <= step.now
            && Accounts(cap, s, u, 0, if sent == [] then 0 else Bytes(sent[0]))
  {
  }

  lemma NextAccounts(cap: Capacity, s: State, step: Step, log: seq<Packet>)
    requires s.lastUpdate <= step.now && cap(0) == 0
    ensures var (u, sent) := Next(cap, s, step);
            Accounts(cap, s, u, Charged(log), Charged(log + sent)) && u.lastUpdate <= step.now
  {
    NextCharges(cap, s, step);
    ChargedMore(log, Next(cap, s, step).1);
  }

  lemma ChargedMore(log: seq<Packet>, sent: seq<Packet>)
    requires |sent| <= 1
    ensures Charged(log + sent) == Charged(log) + if sent == [] then 0 else Bytes(sent[0])
  {
    if sent == [] {
      assert log + sent == log;
    } else {
      assert sent == [sent[0]];
      OneMoreCharged(log, sent[0]);
    }
  }

  lemma AccountsTwice(cap: Capacity, s: State, t: State, u: State, before: nat, between: nat, after: nat)
    requires SuperAdditive(cap) && Accounts(cap, s, t, before, between) && Accounts(cap, t, u, between, after)
    ensures Accounts(cap, s, u, before, after)
  {
    assert Adds(cap, t.lastUpdate - s.lastUpdate, u.lastUpdate - t.lastUpdate);
  }

  /** Between any two moments, bytes sent exceed what the link carried by no more than the backlog grew, which is by no more than was sent. */
  lemma {:induction false} BacklogCoversExcess(cap: Capacity, s: State, steps: seq<Step>)
    requires SuperAdditive(cap) && Timed(s.lastUpdate, steps)
    ensures var (t, log) := Run(cap, s, steps);
            Accounts(cap, s, t, 0, Charged(log))
    decreases |steps|
  {
    assert Adds(cap, 0, 0);
    if steps != [] {
      var n := |steps| - 1;
      RunUnfolds(cap, s, steps);
      BacklogCoversExcess(cap, s, steps[..n]);
      var (t, log) := Run(cap, s, steps[..n]);
      NextAccounts(cap, t, steps[n], log);
      var (u, sent) := Next(cap, t, steps[n]);
      AccountsTwice(cap, s, t, u, 0, Charged(log), Charged(log + sent));
    }
  }

  /**
   Whenever a data packet is sent, and from any earlier moment of the run on: everything sent since,
   this packet included, fits in 4499 bytes plus what the link carried, less the backlog there was then.
   */
  lemma DataConforms(rate: Rate, s: State, steps: seq<Step>)
    requires rate.hz > 0 && steps != [] && Timed(s.lastUpdate, steps) && steps[|steps| - 1].event.DataTimer?
    ensures Run(CapOf(rate), s, steps).1 != Run(CapOf(rate), s, steps[..|steps| - 1]).1 ==>
              Conforms(CapOf(rate), s, Run(CapOf(rate), s, steps).1, steps[|steps| - 1].now)
  {
    var cap, n := CapOf(rate), |steps| - 1;
    CapIsSuperAdditive(rate);
    RunUnfolds(cap, s, steps);
    BacklogCoversExcess(cap, s, steps[..n]);
    var (t, log) := Run(cap, s, steps[..n]);
    assert log + [] == log;
    if Next(cap, t, steps[n]).1 != [] {
      SendConforms(cap, s, t, log, steps[n]);
    }
  }

  /** All that was sent since `s` fits in what the link carried by `now`, and a burst. */
  ghost predicate Conforms(cap: Capacity, s: State, log: seq<Packet>, now: nat)
    requires s.lastUpdate <= now
  {
    Charged(log) + s.remaining <= THRESHOLD - 1 + DATA_BYTES + cap(now - s.lastUpdate)
  }

  lemma SendConforms(cap: Capacity, s: State, t: State, log: seq<Packet>, step: Step)
    requires SuperAdditive(cap) && Accounts(cap, s, t, 0, Charged(log)) && t.lastUpdate <= step.now
    requires step.event.DataTimer? && Next(cap, t, step).1 != []
    ensures Conforms(cap, s, log + Next(cap, t, step).1, step.now)
  {
    var (u, sent) := Next(cap, t, step);
    ZeroCap(cap);
    NextAccounts(cap, t, step, log);
    SendIsLow(cap, t, step.now);
    BurstFits(cap, s, t, u, Charged(log), Charged(log + sent), step.now);
  }

  lemma ZeroCap(cap: Capacity)
    requires SuperAdditive(cap)
    ensures cap(0) == 0
  {
    assert Adds(cap, 0, 0);
  }

  lemma BurstFits(cap: Capacity, s: State, t: State, u: State, between: nat, after: nat, now: nat)
    requires SuperAdditive(cap) && Accounts(cap, s, t, 0, between) && Accounts(cap, t, u, between, after)
    requires u.lastUpdate <= now && u.remaining <= THRESHOLD - 1 + DATA_BYTES
    ensures after + s.remaining <= THRESHOLD - 1 + DATA_BYTES + cap(now - s.lastUpdate)
  {
    AccountsTwice(cap, s, t, u, 0, between, after);
    FitsLater(cap, s, u, after, now);
  }

  lemma FitsLater(cap: Capacity, s: State, u: State, charged: nat, now: nat)
    requires SuperAdditive(cap) && Accounts(cap, s, u, 0, charged)
    requires u.lastUpdate <= now && u.remaining <= THRESHOLD - 1 + DATA_BYTES
    ensures charged + s.remaining <= THRESHOLD - 1 + DATA_BYTES + cap(now - s.lastUpdate)
  {
    assert Adds(cap, u.lastUpdate - s.lastUpdate, now - u.lastUpdate);
  }

  lemma SendIsLow(cap: Capacity, s: State, now: nat)
    requires s.lastUpdate <= now
    ensures var (u, sent) := SendData(cap, s, now);
            u.lastUpdate <= now && (sent != [] ==> u.remaining <= THRESHOLD - 1 + DATA_BYTES)
  {
  }

  /** A token goes out exactly when some live flow has one waiting, and it is a live flow's. */
  lemma TokenSentExactlyWhen(s: State, live: set<nat>)
    ensures SendToken(s, live).1 != [] <==> exists x :: (x in s.shortTokens || x in s.longTokens) && x.flowId in live
    ensures forall p | p in SendToken(s, live).1 :: p.TokenSent? && p.token.flowId in live
  {
    if x :| (x in s.shortTokens || x in s.longTokens) && x.flowId in live {
      assert DropDead(s.shortTokens, live) != [] || DropDead(s.longTokens, live) != [];
    }
  }

  /** Short flows' tokens go first; a long flow's leave only when no short one is live. */
  lemma ShortTokensFirst(s: State, live: set<nat>)
    requires exists x :: x in s.shortTokens && x.flowId in live
    ensures SendToken(s, live).0.longTokens == s.longTokens
    ensures |SendToken(s, live).1| == 1 && SendToken(s, live).1[0].token in s.shortTokens
  {
    assert DropDead(s.shortTokens, live) != [];
  }

  /** `i` is where the first token of a live flow stands. */
  ghost predicate FirstLiveAt(q: seq<Token>, live: set<nat>, i: nat) {
    i < |q| && q[i].flowId in live && forall j | 0 <= j < i :: q[j].flowId !in live
  }

  /** The line's first live token has left, with the dead ones before it. */
  ghost predicate FirstLiveLeft(line: seq<Token>, live: set<nat>, left: Token, rest: seq<Token>) {
    exists i: nat :: FirstLiveAt(line, live, i) && left == line[i] && rest == line[i + 1..]
  }

  lemma LeftFromShort(short: seq<Token>, long: seq<Token>, live: set<nat>, i: nat)
    requires FirstLiveAt(short, live, i)
    ensures FirstLiveLeft(short + long, live, short[i], short[i + 1..] + long)
  {
    assert FirstLiveAt(short + long, live, i) && (short + long)[i + 1..] == short[i + 1..] + long;
  }

  lemma LeftFromLong(short: seq<Token>, long: seq<Token>, live: set<nat>, i: nat)
    requires FirstLiveAt(long, live, i) && forall j | 0 <= j < |short| :: short[j].flowId !in live
    ensures FirstLiveLeft(short + long, live, long[i], long[i + 1..])
  {
    assert FirstLiveAt(short + long, live, |short| + i) && (short + long)[|short| + i + 1..] == long[i + 1..];
  }

  /** The head of a ring cleared of dead tokens is the ring's first live one. */
  lemma {:induction false} HeadIsFirstLive(q: seq<Token>, live: set<nat>) returns (i: nat)
    requires DropDead(q, live) != []
    ensures var d := DropDead(q, live); FirstLiveAt(q, live, i) && q[i] == d[0] && q[i + 1..] == d[1..]
  {
    i := 0;
    if q[0].flowId !in live {
      i := HeadIsFirstLive(q[1..], live);
      assert q[i + 2..] == q[1..][i + 1..];
      i := i + 1;
    }
  }

  /**
   The two rings are one line, short flows' tokens before long ones': the first live token leaves and
   is charged, and with it go the dead ones before it, unless nothing in the line is live.
   */
  lemma TokensLeaveInLine(s: State, live: set<nat>)
    ensures var (line, (t, sent)) := (s.shortTokens + s.longTokens, SendToken(s, live));
            if sent == [] then t.shortTokens + t.longTokens == [] && t.remaining == s.remaining
            else
              && |sent| == 1 && sent[0].TokenSent? && t.remaining == s.remaining + Bytes(sent[0])
              && FirstLiveLeft(line, live, sent[0].token, t.shortTokens + t.longTokens)
  {
    if DropDead(s.shortTokens, live) != [] {
      var i := HeadIsFirstLive(s.shortTokens, live);
      LeftFromShort(s.shortTokens, s.longTokens, live, i);
    } else if DropDead(s.longTokens, live) != [] {
      var i := HeadIsFirstLive(s.longTokens, live);
      LeftFromLong(s.shortTokens, s.longTokens, live, i);
      assert [] + s.longTokens[i + 1..] == s.longTokens[i + 1..];
    }
  }

  /** The backlog has drained by what the link carried, down to nothing, and then took in what was sent. */
  ghost predicate Refilled(before: nat, carried: nat, after: nat, added: nat) {
    added <= after && (after == added + before - carried || (after == added && before < carried))
  }

  /** The line's head has left, and nothing else. */
  ghost predicate HeadLeft(line: seq<Token>, rest: seq<Token>, sent: seq<Packet>) {
    line != [] && rest == line[1..] && sent == [DataSent(line[0])]
  }

  /**
   Data leaves at a data timer exactly when the backlog, less what the link has carried, is below the
   threshold and a ring holds some.  The two rings are one line, short flows' data before long ones':
   its head leaves, nothing else does, and the packet is charged.
   */
  lemma DataSentExactlyWhen(cap: Capacity, s: State, now: nat)
    requires s.lastUpdate <= now
    ensures var (line, (t, sent)) := (s.shortData + s.longData, SendData(cap, s, now));
            && (sent != [] <==> line != [] && s.remaining < THRESHOLD + cap(now - s.lastUpdate))
            && (if sent == [] then (t.shortData, t.longData) == (s.shortData, s.longData)
                else HeadLeft(line, t.shortData + t.longData, sent))
            && Refilled(s.remaining, cap(now - s.lastUpdate), t.remaining, if sent == [] then 0 else DATA_BYTES)
  {
    LineHead(s.shortData, s.longData);
  }

  lemma LineHead(short: seq<Token>, long: seq<Token>)
    ensures short != [] ==> (short + long)[0] == short[0] && (short + long)[1..] == short[1..] + long
    ensures short == [] ==> short + long == long && (long != [] ==> (short + long)[1..] == short + long[1..])
  {
  }

  // ---- A quiet bucket drains ----

  /** The bucket is empty, or it took in a byte for less than sixteen bits the link carried. */
  ghost predicate HalfDrained(rate: Rate, s: State, t: State) {
    && s.lastUpdate <= t.lastUpdate && t.remaining <= s.remaining
    && (t.remaining == 0 || (t.lastUpdate - s.lastUpdate) * rate.bandwidth <= (s.remaining - t.remaining) * (16 * rate.hz))
  }

  /** A drain rounds down by less than the byte it has at least. */
  lemma DrainIsHalf(rate: Rate, d: nat)
    requires rate.hz > 0 && CapOf(rate)(d) > 0
    ensures d * rate.bandwidth <= CapOf(rate)(d) * (16 * rate.hz)
  {
    var x, q := d * rate.bandwidth / rate.hz, CapOf(rate)(d);
    DivMul(d * rate.bandwidth, rate.hz);
    Distribute(x, 1, rate.hz);
    Scale(x + 1, 16 * q, rate.hz);
    assert 16 * q * rate.hz == q * (16 * rate.hz);
  }

  lemma ZeroTime(bandwidth: nat)
    ensures 0 * bandwidth == 0
  {
  }

  lemma UpdateHalfDrains(rate: Rate, s: State, now: nat)
    requires rate.hz > 0 && s.lastUpdate <= now
    ensures HalfDrained(rate, s, Update(CapOf(rate), s, now))
  {
    ZeroTime(rate.bandwidth);
    ZeroTime(16 * rate.hz);
    if CapOf(rate)(now - s.lastUpdate) > 0 {
      DrainIsHalf(rate, now - s.lastUpdate);
    }
  }

  lemma NextHalfDrains(rate: Rate, s: State, step: Step)
    requires rate.hz > 0 && s.lastUpdate <= step.now && Next(CapOf(rate), s, step).1 == []
    ensures HalfDrained(rate, s, Next(CapOf(rate), s, step).0)
  {
    UpdateHalfDrains(rate, s, step.now);
    ZeroTime(rate.bandwidth);
    ZeroTime(16 * rate.hz);
  }

  lemma HalfDrainedTwice(rate: Rate, s: State, t: State, u: State)
    requires HalfDrained(rate, s, t) && HalfDrained(rate, t, u)
    ensures HalfDrained(rate, s, u)
  {
    Distribute(t.lastUpdate - s.lastUpdate, u.lastUpdate - t.lastUpdate, rate.bandwidth);
    Distribute(s.remaining - t.remaining, t.remaining - u.remaining, 16 * rate.hz);
  }

  lemma {:induction false} QuietHalfDrains(rate: Rate, s: State, steps: seq<Step>)
    requires rate.hz > 0 && Timed(s.lastUpdate, steps) && Run(CapOf(rate), s, steps).1 == []
    ensures HalfDrained(rate, s, Run(CapOf(rate), s, steps).0)
    decreases |steps|
  {
    ZeroTime(rate.bandwidth);
    ZeroTime(16 * rate.hz);
    if steps != [] {
      var n := |steps| - 1;
      RunUnfolds(CapOf(rate), s, steps);
      QuietHalfDrains(rate, s, steps[..n]);
      var t := Run(CapOf(rate), s, steps[..n]).0;
      NextHalfDrains(rate, t, steps[n]);
      HalfDrainedTwice(rate, s, t, Next(CapOf(rate), t, steps[n]).0);
    }
  }

  /** Less than a byte is still to drain. */
  ghost predicate UpToDate(rate: Rate, s: State, now: nat) {
    s.lastUpdate <= now && (now - s.lastUpdate) * rate.bandwidth < 8 * rate.hz
  }

  lemma UpdateIsUpToDate(rate: Rate, s: State, now: nat)
    requires rate.hz > 0 && s.lastUpdate <= now
    ensures UpToDate(rate, Update(CapOf(rate), s, now), now)
  {
    ZeroTime(rate.bandwidth);
    var d := now - Update(CapOf(rate), s, now).lastUpdate;
    if d > 0 {
      Undrained(rate, d);
    }
  }

  lemma Undrained(rate: Rate, d: nat)
    requires rate.hz > 0 && CapOf(rate)(d) == 0
    ensures d * rate.bandwidth < 8 * rate.hz
  {
    var x := d * rate.bandwidth / rate.hz;
    DivMul(d * rate.bandwidth, rate.hz);
    Distribute(x, 1, rate.hz);
    Scale(x + 1, 8, rate.hz);
  }

  /** The bucket is empty, or the bits carried by now are fewer than sixteen a byte drained, and eight. */
  ghost predicate HalfDrainedBy(rate: Rate, s: State, t: State, now: nat) {
    && s.lastUpdate <= now && t.remaining <= s.remaining
    && (t.remaining > 0 ==>
          (now - s.lastUpdate) * rate.bandwidth < (s.remaining - t.remaining) * (16 * rate.hz) + 8 * rate.hz)
  }

  lemma LastByte(rate: Rate, s: State, t: State, now: nat)
    requires HalfDrained(rate, s, t) && UpToDate(rate, t, now)
    ensures HalfDrainedBy(rate, s, t, now)
  {
    Distribute(t.lastUpdate - s.lastUpdate, now - t.lastUpdate, rate.bandwidth);
  }

  /** However often the core turns, a bucket nothing goes into empties at half the link's rate at least. */
  lemma QuietBucketEmpties(rate: Rate, s: State, steps: seq<Step>)
    requires rate.hz > 0 && steps != [] && Timed(s.lastUpdate, steps) && steps[|steps| - 1].event.Poll?
    requires Run(CapOf(rate), s, steps).1 == []
    ensures HalfDrainedBy(rate, s, Run(CapOf(rate), s, steps).0, steps[|steps| - 1].now)
  {
    QuietHalfDrains(rate, s, steps);
    RunUnfolds(CapOf(rate), s, steps);
    UpdateIsUpToDate(rate, Run(CapOf(rate), s, steps[..|steps| - 1]).0, steps[|steps| - 1].now);
    LastByte(rate, s, Run(CapOf(rate), s, steps).0, steps[|steps| - 1].now);
  }

  /** A turn sends control packets from the head on, and charges each. */
  ghost predicate ControlsSent(u: State, t: State, log: seq<Packet>) {
    && |log| <= |u.ctrl| && (forall i | 0 <= i < |log| :: log[i] == Control(u.ctrl[i]))
    && t == u.(ctrl := u.ctrl[|log|..], remaining := u.remaining + Charged(log))
  }

  lemma OneMoreControl(u: State, t: State, log: seq<Packet>)
    requires ControlsSent(u, t, log) && t.ctrl != []
    ensures ControlsSent(u, SendControl(t).0, log + SendControl(t).1)
  {
    OneMoreCharged(log, Control(t.ctrl[0]));
  }

  lemma TurnUnfolds(cap: Capacity, s: State, now: nat, n: nat)
    requires s.lastUpdate <= now
    ensures var (t, log) := Run(cap, s, TurnSteps(now, n));
            Run(cap, s, TurnSteps(now, n + 1)) == (SendControl(t).0, log + SendControl(t).1)
  {
    RunUnfolds(cap, s, TurnSteps(now, n + 1));
    assert TurnSteps(now, n + 1)[..n + 1] == TurnSteps(now, n);
  }

  lemma PolledOnce(cap: Capacity, s: State, now: nat)
    requires s.lastUpdate <= now
    ensures Run(cap, s, TurnSteps(now, 0)) == (Update(cap, s, now), [])
  {
    var steps, none: seq<Packet> := TurnSteps(now, 0), [];
    RunUnfolds(cap, s, steps);
    assert steps[..|steps| - 1] == [] && none + none == none;
    assert Next(cap, s, steps[0]) == (Update(cap, s, now), none);
  }

  // ---- The pacer object ----

  class RtpPacer {
    const rate: Rate
    var remainingBytes: nat
    var lastUpdateTime: nat
    var ctrlQ: seq<nat>
    var shortTokenQ: seq<Token>
    var longTokenQ: seq<Token>
    var shortDataQ: seq<Token>
    var longDataQ: seq<Token>

    ghost predicate Valid() {
      rate.hz > 0
    }

    ghost function Value(): State
      reads this
    {
      State(remainingBytes, lastUpdateTime, ctrlQ, shortTokenQ, longTokenQ, shortDataQ, longDataQ)
    }

    constructor InitPacer(rate: Rate, now: nat)
      requires rate.hz > 0
      ensures Valid() && this.rate == rate && Value() == State(0, now, [], [], [], [], [])
    {
      this.rate, remainingBytes, lastUpdateTime, ctrlQ := rate, 0, now, [];
      shortTokenQ, longTokenQ, shortDataQ, longDataQ := [], [], [], [];
    }

    method UpdateTimeByte(now: nat)
      requires Valid() && lastUpdateTime <= now
      modifies this`remainingBytes, this`lastUpdateTime
      ensures Value() == Update(CapOf(rate), old(Value()), now)
    {
      var diff := now - lastUpdateTime;
      if diff * rate.bandwidth / rate.hz / 8 == 0 {
        return;
      }
      lastUpdateTime := now;
      if remainingBytes < diff * rate.bandwidth / rate.hz / 8 {
        remainingBytes := 0;
      } else {
        remainingBytes := remainingBytes - diff * rate.bandwidth / rate.hz / 8;
      }
    }

    /** Empties a ring up to its first token of a live flow, which is taken. */
    method FirstLive(q: seq<Token>, live: set<nat>) returns (t: Option<Token>, rest: seq<Token>)
      ensures var d := DropDead(q, live); if d == [] then t == None && rest == [] else t == Some(d[0]) && rest == d[1..]
    {
      t, rest := None, q;
      while rest != []
        invariant t == None && DropDead(rest, live) == DropDead(q, live)
        decreases |rest|
      {
        var first := rest[0];
        rest := rest[1..];
        if first.flowId in live {
          t := Some(first);
          break;
        }
      }
    }

    method SendTokenHandler(live: set<nat>) returns (sent: seq<Packet>)
      modifies this`remainingBytes, this`shortTokenQ, this`longTokenQ
      ensures (Value(), sent) == SendToken(old(Value()), live)
    {
      sent := [];
      var t: Option<Token>;
      t, shortTokenQ := FirstLive(shortTokenQ, live);
      if t.None? {
        t, longTokenQ := FirstLive(longTokenQ, live);
      }
      if t.Some? {
        sent := [TokenSent(t.value)];
        remainingBytes := remainingBytes + t.value.length + ETHER_HDR;
      }
    }

    method SendDataPktHandler(now: nat) returns (sent: seq<Packet>)
      requires Valid() && lastUpdateTime <= now
      modifies this
      ensures (Value(), sent) == SendData(CapOf(rate), old(Value()), now)
    {
      sent := [];
      UpdateTimeByte(now);
      if remainingBytes >= THRESHOLD {
        return;
      }
      var t := None;
      if shortDataQ != [] {
        t, shortDataQ := Some(shortDataQ[0]), shortDataQ[1..];
      }
      if t.None? && longDataQ != [] {
        t, longDataQ := Some(longDataQ[0]), longDataQ[1..];
      }
      if t.Some? {
        sent := [DataSent(t.value)];
        remainingBytes := remainingBytes + DATA_BYTES;
      }
    }

    method SendControlPkt() returns (sent: Packet)
      requires ctrlQ != []
      modifies this`ctrlQ, this`remainingBytes
      ensures (Value(), [sent]) == SendControl(old(Value()))
    {
      sent := Control(ctrlQ[0]);
      remainingBytes := remainingBytes + ctrlQ[0] + ETHER_HDR;
      ctrlQ := ctrlQ[1..];
    }

    /** One turn of the pacer core: bring the bucket up to date, then send every control packet. */
    method MainLoopTurn(now: nat) returns (sent: seq<Packet>)
      requires Valid() && lastUpdateTime <= now
      modifies this
      ensures ctrlQ == [] && |sent| == |old(ctrlQ)|
      ensures ControlsSent(Update(CapOf(rate), old(Value()), now), Value(), sent)
      ensures (Value(), sent) == Run(CapOf(rate), old(Value()), TurnSteps(now, |sent|))
    {
      ghost var was := Value();
      PolledOnce(CapOf(rate), was, now);
      UpdateTimeByte(now);
      sent := [];
      while ctrlQ != []
        invariant ControlsSent(Update(CapOf(rate), was, now), Value(), sent)
        invariant (Value(), sent) == Run(CapOf(rate), was, TurnSteps(now, |sent|))
        decreases |ctrlQ|
      {
        TurnUnfolds(CapOf(rate), was, now, |sent|);
        OneMoreControl(Update(CapOf(rate), was, now), Value(), sent);
        var p := SendControlPkt();
        sent := sent + [p];
      }
    }
  }
}
