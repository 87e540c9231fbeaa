/**
 Receiver-side bookkeeping of one Ranking flow: which packets have arrived, which packet the next
 token asks for, how far tokens may run ahead of data, and when a full pass over the missing packets
 arms the redundancy timer.
 */
module TokenFlow {
  import opened Sets

  /** `window` and the two timeouts are configuration; times are integers. */
  datatype Params = Params(window: nat, windowTimeout: nat, resendTimeout: nat)

  /** A timer value of -1 means "not armed".  `last` is -1 before the first token. */
  datatype Flow = Flow(
    src: nat, size: nat, received: set<nat>, receivedUntil: nat, last: int,
    tokenCount: int, largestSeq: int, goal: int,
    redundancy: int, latestSent: int, finished: bool)
  {
    predicate Missing(x: int) {
      0 <= x < size && x !in received
    }

    /** `receivedUntil` is the least missing packet, or the size once there is none. */
    ghost predicate Valid() {
      && 0 < size && (forall x | x in received :: x < size)
      && receivedUntil <= size && (forall x: nat | x < receivedUntil :: x in received)
      && (receivedUntil < size ==> receivedUntil !in received)
      && -1 <= last < size
    }

    predicate Incomplete() {
      receivedUntil < size
    }

    function RemainingPkts(): nat {
      if |received| <= size then size - |received| else 0
    }

    function TokenGap(): int {
      tokenCount - largestSeq - 1
    }

    /** How many of its missing packets have no token on the way. */
    function Work(): int {
      RemainingPkts() - TokenGap()
    }
  }

  /** A flow nobody has asked for yet, as its constructor leaves it. */
  function NewFlow(src: nat, size: nat): Flow {
    Flow(src, size, {}, 0, -1, 0, -1, size, -1, -1, false)
  }

  // ---- The circular scan ----

  /** The least missing packet not below `from`, or the size when there is none. */
  function FirstMissing(received: set<nat>, size: nat, from: nat): (r: nat)
    requires from <= size
    ensures from <= r <= size
    ensures forall x | from <= x < r :: x in received
    ensures r < size ==> r !in received
    decreases size - from
  {
    if from == size || from !in received then from else FirstMissing(received, size, from + 1)
  }

  /** The packet the next token asks for: onward from the last one, then round to the least missing. */
  function NextSeq(f: Flow): (r: nat)
    requires f.Valid()
    ensures f.Incomplete() ==> f.Missing(r)
  {
    var m := FirstMissing(f.received, f.size, (f.last + 1) % f.size);
    if m < f.size then m else f.receivedUntil
  }

  function Advance(received: set<nat>, size: nat, until: nat): (r: nat)
    requires until <= size
    ensures until <= r <= size
    ensures forall x | until <= x < r :: x in received
    ensures r < size ==> r !in received
    decreases size - until
  {
    if until < size && until in received then Advance(received, size, until + 1) else until
  }

  // ---- Operations ----

  /** One data packet arrives: the packet it carries and the token it answers. */
  function ReceiveData(f: Flow, dataSeq: nat, tokenSeq: int): Flow
    requires f.Valid()
  {
    var g := if dataSeq in f.received then f
             else f.(received := f.received + {dataSeq},
                     receivedUntil := Advance(f.received + {dataSeq}, f.size, f.receivedUntil));
    var h := g.(largestSeq := if tokenSeq > g.largestSeq then tokenSeq else g.largestSeq);
    h.(finished := h.finished || |h.received| >= h.size)
  }

  function IssueToken(f: Flow, now: int): (r: Flow)
    requires f.Valid() && f.Incomplete()
    ensures r.Valid() && r.Incomplete()
  {
    f.(last := NextSeq(f), tokenCount := f.tokenCount + 1, latestSent := now)
  }

  function RelaxGap(f: Flow, p: Params): Flow {
    f.(largestSeq := f.tokenCount - p.window)
  }

  /** The first packet of a short flow arrives, or its request: its free tokens are accounted for. */
  function ReceiveShortFlow(f: Flow, now: int, firstTimeout: nat): Flow {
    var g := f.(tokenCount := f.size, last := f.size - 1);
    if g.tokenCount == g.goal then g.(redundancy := now + firstTimeout) else g
  }

  /** What one visit of the token loop does with a flow. */
  datatype Visit =
    | Blocked(until: int)
    | Sent(dataSeq: nat, tokenSeq: int)

  function Rearmed(f: Flow): Flow {
    if f.redundancy > 0 then f.(redundancy := -1, goal := f.goal + f.RemainingPkts()) else f
  }

  function Opened(f: Flow, p: Params, now: int): Flow {
    if f.TokenGap() > p.window && now >= f.latestSent + p.windowTimeout then RelaxGap(f, p) else f
  }

  /** A pass is over when the next token would not move forward: then wait before starting another. */
  function Armed(f: Flow, sentSeq: nat, p: Params, now: int): Flow
    requires f.Valid()
  {
    if sentSeq >= NextSeq(f) then f.(redundancy := now + p.resendTimeout) else f
  }

  function Turn(f: Flow, p: Params, now: int): (Flow, Visit)
    requires f.Valid() && f.Incomplete()
  {
    if f.redundancy > now then (f, Blocked(f.redundancy))
    else
      var g := Opened(Rearmed(f), p, now);
      if g.TokenGap() <= p.window then
        (Armed(IssueToken(g, now), NextSeq(g), p, now), Sent(NextSeq(g), g.tokenCount))
      else (g, Blocked(g.latestSent + p.windowTimeout))
  }

  // ---- The scan, characterised ----

  /** The scan never returns a packet that has arrived, and never skips one that has not. */
  lemma ScanIsLeastAheadElseLeast(f: Flow)
    requires f.Valid() && f.Incomplete()
    ensures f.Missing(NextSeq(f))
    ensures NextSeq(f) > f.last ==> forall x | f.last < x < NextSeq(f) :: !f.Missing(x)
    ensures NextSeq(f) <= f.last <==> forall x | f.last < x < f.size :: !f.Missing(x)
    ensures NextSeq(f) <= f.last ==> forall x | 0 <= x < NextSeq(f) :: !f.Missing(x)
  {
    WrapAround(f.last + 1, f.size);
  }

  lemma WrapAround(x: nat, n: nat)
    requires 0 < n && x <= n
    ensures x % n == if x == n then 0 else x
  {
  }

  /** A flow has something missing exactly when its packet count falls short of its size. */
  lemma IncompleteIsCount(f: Flow)
    requires f.Valid()
    ensures f.Incomplete() <==> |f.received| < f.size
    ensures f.Incomplete() <==> exists x :: f.Missing(x)
    ensures f.Incomplete() <==> f.RemainingPkts() > 0
  {
    assert f.received <= Below(f.size);
    CountIsComplete(f.received, f.size);
    if f.Incomplete() {
      assert f.Missing(f.receivedUntil);
    }
  }

  lemma ReceiveKeepsValid(f: Flow, dataSeq: nat, tokenSeq: int)
    requires f.Valid() && dataSeq < f.size
    ensures ReceiveData(f, dataSeq, tokenSeq).Valid()
    ensures ReceiveData(f, dataSeq, tokenSeq).Incomplete() || ReceiveData(f, dataSeq, tokenSeq).finished
  {
    var g := ReceiveData(f, dataSeq, tokenSeq);
    assert g.received == f.received + {dataSeq};
    IncompleteIsCount(g);
  }

  /** A data packet takes itself off the missing ones, and brings the gap down to the token it answers. */
  lemma ArrivalCloses(f: Flow, dataSeq: nat, tokenSeq: int)
    requires f.Valid() && dataSeq < f.size
    ensures var g := ReceiveData(f, dataSeq, tokenSeq);
            && (forall y :: g.Missing(y) <==> f.Missing(y) && y != dataSeq)
            && g.TokenGap() == (if f.tokenCount - tokenSeq - 1 < f.TokenGap() then f.tokenCount - tokenSeq - 1 else f.TokenGap())
            && (g.finished <==> f.finished || forall y :: !g.Missing(y))
  {
    var g := ReceiveData(f, dataSeq, tokenSeq);
    ReceiveKeepsValid(f, dataSeq, tokenSeq);
    assert g.received == f.received + {dataSeq};
    IncompleteIsCount(g);
  }

  // ---- The window ----

  /**
   A token widens the gap by one; a visit that finds the window full and its timeout over closes the
   gap to just below the window before it sends.  A visit in vain leaves the gap as it was.
   */
  lemma GapAfterVisit(f: Flow, p: Params, now: int)
    requires f.Valid() && f.Incomplete()
    ensures var (g, v) := Turn(f, p, now);
            g.TokenGap() == if v.Blocked? then f.TokenGap() else if f.TokenGap() <= p.window then f.TokenGap() + 1 else p.window
  {
    assert SamePackets(f, Opened(Rearmed(f), p, now));
  }

  /** Nothing missing is left beyond the packet. */
  ghost predicate LastMissing(f: Flow, x: int) {
    forall y | x < y < f.size :: !f.Missing(y)
  }

  /**
   A wait begins exactly with a token for the last packet missing, and is as long as configured.  The
   goal rises by what is missing exactly when a wait has run out.
   */
  lemma WaitBeginsExactlyWhen(f: Flow, p: Params, now: int)
    requires f.Valid() && f.Incomplete() && 0 < p.resendTimeout && 0 <= now
    ensures var (g, v) := Turn(f, p, now);
            && (g.redundancy > now <==> f.redundancy > now || (v.Sent? && LastMissing(f, v.dataSeq)))
            && (v.Sent? && g.redundancy > now ==> g.redundancy == now + p.resendTimeout)
            && g.goal == f.goal + if 0 < f.redundancy <= now then f.RemainingPkts() else 0
  {
    var before := Opened(Rearmed(f), p, now);
    assert SamePackets(f, before);
    if f.redundancy <= now && before.TokenGap() <= p.window {
      var g := IssueToken(before, now);
      ScanIsLeastAheadElseLeast(g);
      assert forall y :: g.Missing(y) <==> f.Missing(y);
    }
  }

  /**
   A timeout of a full window is worth two tokens: while no data answers and no wait begins, the visit
   at the timeout and the next one send, and any further one waits for the next timeout.
   */
  lemma TimeoutIsWorthTwo(f: Flow, p: Params, t0: int, t1: int, t2: int)
    requires f.Valid() && f.Incomplete() && f.TokenGap() > p.window
    requires f.redundancy <= t0 && f.latestSent + p.windowTimeout <= t0
    requires Turn(f, p, t0).0.redundancy <= t1 && Turn(Turn(f, p, t0).0, p, t1).0.redundancy <= t2 < t1 + p.windowTimeout
    ensures var (g, v) := Turn(f, p, t0);
            var (h, w) := Turn(g, p, t1);
            v.Sent? && w.Sent? && w.tokenSeq == v.tokenSeq + 1 && Turn(h, p, t2).1 == Blocked(t1 + p.windowTimeout)
  {
    FirstToken(f, p, t0);
    SecondToken(Turn(f, p, t0).0, p, t1, t2);
  }

  lemma FirstToken(f: Flow, p: Params, now: int)
    requires f.Valid() && f.Incomplete() && f.TokenGap() > p.window
    requires f.redundancy <= now && f.latestSent + p.windowTimeout <= now
    ensures var (g, v) := Turn(f, p, now);
            g.Valid() && g.Incomplete() && g.TokenGap() == p.window && v.Sent? && g.tokenCount == v.tokenSeq + 1
  {
    GapAfterVisit(f, p, now);
    assert SamePackets(f, Opened(Rearmed(f), p, now));
  }

  lemma SecondToken(g: Flow, p: Params, t1: int, t2: int)
    requires g.Valid() && g.Incomplete() && g.TokenGap() == p.window && g.redundancy <= t1
    requires Turn(g, p, t1).0.redundancy <= t2 < t1 + p.windowTimeout
    ensures var (h, w) := Turn(g, p, t1);
            && h.Valid() && h.Incomplete() && w.Sent? && w.tokenSeq == g.tokenCount
            && Turn(h, p, t2).1 == Blocked(t1 + p.windowTimeout)
  {
    GapAfterVisit(g, p, t1);
  }

  // ---- Passes ----

  /**
   `given` is the set of packets a token was sent for in the current pass, `ahead` the packets that
   were missing beyond the last one asked for right after its token went out, and `armed` says that
   this token began a wait.
   */
  datatype Pass = Pass(given: set<nat>, ahead: set<nat>, armed: bool)

  function Beyond(f: Flow, x: int): set<nat> {
    set y | y in Below(f.size) && x < y && y !in f.received
  }

  /** A token for `x` that does not move forward opens a new pass; `g` is the flow after it. */
  function NextPass(pass: Pass, last: int, x: nat, g: Flow): Pass
    requires g.Valid()
  {
    Pass(if x <= last then {x} else pass.given + {x}, Beyond(g, x), x >= NextSeq(g))
  }

  /** Everything up to the last token has arrived or got a token in this pass, and nothing beyond it did. */
  ghost predicate Covered(f: Flow, pass: Pass) {
    && (forall x | 0 <= x <= f.last :: x in f.received || x in pass.given)
    && (forall x | x in pass.given :: x <= f.last)
    && (forall x | x in Beyond(f, f.last) :: x in pass.ahead)
    && (pass.armed <==> pass.ahead == {})
    && (pass.armed ==> forall x | 0 <= x < f.size :: x in f.received || x in pass.given)
  }

  lemma ArmedCoversAll(f: Flow, pass: Pass)
    requires forall x | 0 <= x <= f.last :: x in f.received || x in pass.given
    requires Beyond(f, f.last) == {}
    ensures forall x | 0 <= x < f.size :: x in f.received || x in pass.given
  {
    forall x | 0 <= x < f.size
      ensures x in f.received || x in pass.given
    {
      var y: nat := x;
      assert y in Below(f.size);
      assert x <= f.last || y !in Beyond(f, f.last);
    }
  }

  lemma SendKeepsPass(f: Flow, pass: Pass, now: int)
    requires f.Valid() && f.Incomplete() && Covered(f, pass)
    ensures var x, g := NextSeq(f), IssueToken(f, now); Covered(g, NextPass(pass, f.last, x, g))
  {
    var x, g := NextSeq(f), IssueToken(f, now);
    var next := NextPass(pass, f.last, x, g);
    ScanIsLeastAheadElseLeast(f);
    ScanIsLeastAheadElseLeast(g);
    forall y | 0 <= y <= x
      ensures y in f.received || y in next.given
    {
      assert y == x || !f.Missing(y) || 0 <= y <= f.last;
    }
    if next.armed {
      forall y | y in Beyond(g, x)
        ensures false
      {
        assert g.Missing(y);
      }
      ArmedCoversAll(g, next);
    } else {
      assert NextSeq(g) in Beyond(g, x);
    }
  }

  /** The two flows differ in counters and timers only. */
  ghost predicate SamePackets(f: Flow, g: Flow) {
    f.received == g.received && f.receivedUntil == g.receivedUntil && f.last == g.last && f.size == g.size
  }

  lemma SamePacketsCovered(f: Flow, g: Flow, pass: Pass)
    requires Covered(f, pass) && SamePackets(f, g)
    ensures Covered(g, pass)
  {
    assert Beyond(g, g.last) == Beyond(f, f.last);
  }

  /** More arrivals leave a pass covered. */
  lemma ArrivalKeepsPass(f: Flow, g: Flow, pass: Pass)
    requires Covered(f, pass) && f.received <= g.received && g.last == f.last && g.size == f.size
    ensures Covered(g, pass)
  {
    assert Beyond(g, g.last) <= Beyond(f, f.last);
  }

  // ---- Whole runs of one flow ----

  /**
   What can happen to a flow, in any order: its request comes, the token loop visits it, or a data
   packet arrives, which for a short flow may come before the request and then stands for it.
   */
  datatype Event =
    | Announced(now: int, firstTimeout: nat)
    | Visited(now: int)
    | Arrived(now: int, firstTimeout: nat, dataSeq: nat, tokenSeq: int)

  /** `short` flows start with a token for every packet; `until` is when the last wait begun ends. */
  datatype History = History(flow: Flow, short: bool, announced: bool, pass: Pass, until: int, clock: int)

  function FirstHistory(src: nat, size: nat, short: bool, start: int): History {
    History(NewFlow(src, size), short, false, Pass({}, Below(size), false), start, start)
  }

  /** A short flow's request gives a token to each of its packets and begins a wait. */
  function Announce(h: History, now: int, firstTimeout: nat): (r: History)
    requires h.flow.Valid()
    ensures r.flow.Valid()
  {
    if h.announced then h
    else if h.short then
      h.(flow := ReceiveShortFlow(h.flow, now, firstTimeout), announced := true,
         pass := Pass(Below(h.flow.size), {}, true), until := now + firstTimeout)
    else h.(announced := true)
  }

  function Step(h: History, e: Event, p: Params): History
    requires h.flow.Valid()
  {
    match e
    case Announced(now, firstTimeout) => Announce(h, now, firstTimeout).(clock := now)
    case Arrived(now, firstTimeout, d, t) =>
      var g := Announce(h, now, firstTimeout);
      g.(flow := ReceiveData(g.flow, d, t), clock := now)
    case Visited(now) =>
      if !h.announced || h.flow.finished || !h.flow.Incomplete() then h.(clock := now)
      else AfterTurn(h, p, now)
  }

  function AfterTurn(h: History, p: Params, now: int): History
    requires h.flow.Valid() && h.flow.Incomplete()
  {
    var (g, visit) := Turn(h.flow, p, now);
    match visit
    case Blocked(_) => h.(flow := g, clock := now)
    case Sent(x, _) => h.(flow := g, pass := NextPass(h.pass, h.flow.last, x, g), until := now + p.resendTimeout, clock := now)
  }

  /** Time goes on; data packets carry packets of the flow and answer tokens already issued. */
  ghost predicate Possible(h: History, e: Event)
    requires h.flow.Valid()
  {
    && h.clock <= e.now
    && (e.Arrived? ==> e.dataSeq < h.flow.size && 0 <= e.tokenSeq < Announce(h, e.now, e.firstTimeout).flow.tokenCount)
  }

  ghost predicate Next(h: History, e: Event, g: History, p: Params) {
    h.flow.Valid() && Possible(h, e) && g == Step(h, e, p)
  }

  ghost predicate Run(hs: seq<History>, es: seq<Event>, p: Params) {
    && |hs| == |es| + 1 && 0 < hs[0].flow.size
    && hs[0] == FirstHistory(hs[0].flow.src, hs[0].flow.size, hs[0].short, hs[0].clock)
    && forall i | 0 <= i < |es| :: Next(hs[i], es[i], hs[i + 1], p)
  }

  /** Data never overtakes tokens, and tokens run ahead of data by a bounded amount. */
  ghost predicate Windowed(f: Flow, p: Params, free: nat) {
    && f.largestSeq < f.tokenCount
    && 0 <= f.tokenCount
    && (f.TokenGap() <= p.window + 1 || f.TokenGap() <= free)
  }

  /** How many tokens a flow had without asking. */
  function FreeTokens(h: History): nat {
    if h.short && h.announced then h.flow.size else 0
  }

  /** A wait that was begun is still being waited for, or its time has come. */
  ghost predicate WaitsProperly(h: History) {
    h.pass.armed ==> h.flow.redundancy == h.until || h.until <= h.clock
  }

  /** Until it is announced, a flow is as new. */
  ghost predicate NewUntilAnnounced(h: History) {
    !h.announced ==> h.flow == NewFlow(h.flow.src, h.flow.size) && !h.pass.armed
  }

  ghost predicate Ok(h: History, p: Params) {
    && h.flow.Valid() && Covered(h.flow, h.pass) && Windowed(h.flow, p, FreeTokens(h))
    && WaitsProperly(h) && NewUntilAnnounced(h)
  }

  /** After its request every packet of a short flow has a token, and the wait begun lasts as asked. */
  lemma AnnouncementCovers(h: History, p: Params, now: int, firstTimeout: nat)
    requires Ok(h, p) && !h.announced && h.short
    ensures var g := Announce(h, now, firstTimeout);
            && Ok(g, p) && g.flow.tokenCount == g.flow.goal == g.flow.size && g.pass.given == Below(g.flow.size)
            && g.flow.redundancy == now + firstTimeout && g.flow.TokenGap() == g.flow.size
            && (now + firstTimeout > now ==> Turn(g.flow, p, now).1 == Blocked(now + firstTimeout))
  {
    var g := Announce(h, now, firstTimeout);
    assert Beyond(g.flow, g.flow.last) == {};
  }

  lemma AnnounceKeeps(h: History, p: Params, now: int, firstTimeout: nat)
    requires Ok(h, p)
    ensures Ok(Announce(h, now, firstTimeout), p)
  {
    if !h.announced && h.short {
      AnnouncementCovers(h, p, now, firstTimeout);
    }
  }

  lemma ReceiveKeeps(h: History, p: Params, d: nat, t: int)
    requires Ok(h, p) && h.announced && d < h.flow.size && t < h.flow.tokenCount
    ensures Ok(h.(flow := ReceiveData(h.flow, d, t)), p)
  {
    ReceiveKeepsValid(h.flow, d, t);
    var g := ReceiveData(h.flow, d, t);
    assert g.received == h.flow.received + {d};
    ArrivalKeepsPass(h.flow, g, h.pass);
  }

  lemma SentKeepsPass(f: Flow, pass: Pass, p: Params, now: int)
    requires f.Valid() && f.Incomplete() && Covered(f, pass)
    ensures var x := NextSeq(f); var g := Armed(IssueToken(f, now), x, p, now);
            g.Valid() && Covered(g, NextPass(pass, f.last, x, g))
  {
    var x, sent := NextSeq(f), IssueToken(f, now);
    var g := Armed(sent, x, p, now);
    SendKeepsPass(f, pass, now);
    SamePacketsCovered(sent, g, NextPass(pass, f.last, x, sent));
    assert NextPass(pass, f.last, x, g) == NextPass(pass, f.last, x, sent);
  }

  lemma TurnKeepsPass(h: History, p: Params, now: int)
    requires h.flow.Valid() && h.flow.Incomplete() && Covered(h.flow, h.pass)
    ensures AfterTurn(h, p, now).flow.Valid() && Covered(AfterTurn(h, p, now).flow, AfterTurn(h, p, now).pass)
  {
    var f, before := h.flow, Opened(Rearmed(h.flow), p, now);
    assert SamePackets(f, before);
    SamePacketsCovered(f, before, h.pass);
    if f.redundancy <= now && before.TokenGap() <= p.window {
      SentKeepsPass(before, h.pass, p, now);
    }
  }

  lemma TurnKeepsCounts(h: History, p: Params, now: int)
    requires Ok(h, p) && h.announced && h.flow.Incomplete() && h.clock <= now && 1 <= p.window
    ensures var g := AfterTurn(h, p, now);
            && Windowed(g.flow, p, FreeTokens(g)) && WaitsProperly(g)
            && (g.announced, g.short, g.flow.size, g.clock) == (h.announced, h.short, h.flow.size, now)
  {
    TurnKeepsWindow(h.flow, p, FreeTokens(h), now);
    TurnKeepsWait(h, p, now);
  }

  lemma TurnKeepsWindow(f: Flow, p: Params, free: nat, now: int)
    requires f.Valid() && f.Incomplete() && Windowed(f, p, free) && 1 <= p.window
    ensures Windowed(Turn(f, p, now).0, p, free) && Turn(f, p, now).0.size == f.size
  {
  }

  lemma TurnKeepsWait(h: History, p: Params, now: int)
    requires Ok(h, p) && h.announced && h.flow.Incomplete() && h.clock <= now
    ensures WaitsProperly(AfterTurn(h, p, now))
  {
    var before := Opened(Rearmed(h.flow), p, now);
    assert SamePackets(h.flow, before);
  }

  lemma StepKeeps(h: History, e: Event, p: Params)
    requires Ok(h, p) && Possible(h, e) && 1 <= p.window
    ensures Ok(Step(h, e, p), p)
  {
    match e
    case Announced(now, firstTimeout) =>
      AnnounceKeeps(h, p, now, firstTimeout);
    case Arrived(now, firstTimeout, d, t) =>
      AnnounceKeeps(h, p, now, firstTimeout);
      ReceiveKeeps(Announce(h, now, firstTimeout), p, d, t);
    case Visited(now) =>
      if h.announced && !h.flow.finished && h.flow.Incomplete() {
        TurnKeepsPass(h, p, now);
        TurnKeepsCounts(h, p, now);
      }
  }

  /** Every run keeps all of it, for short and long flows, however requests, visits and arrivals interleave. */
  lemma {:induction false} RunKeeps(hs: seq<History>, es: seq<Event>, p: Params)
    requires Run(hs, es, p) && 1 <= p.window
    ensures forall i | 0 <= i < |hs| :: Ok(hs[i], p)
  {
    if |es| == 0 {
      assert Beyond(hs[0].flow, -1) == Below(hs[0].flow.size);
      assert 0 in Below(hs[0].flow.size);
    } else {
      var n := |es| - 1;
      RunKeeps(hs[..|es|], es[..n], p);
      assert hs[..|es|][n] == hs[n];
      assert Next(hs[n], es[n], hs[n + 1], p);
      StepKeeps(hs[n], es[n], p);
      assert forall i | 0 <= i < |es| :: hs[i] == hs[..|es|][i];
    }
  }

  /**
   A new pass opens exactly when nothing is missing beyond the last token, and it opens at the least
   missing packet.
   */
  lemma PassOpens(f: Flow, pass: Pass, p: Params, now: int)
    requires f.Valid() && f.Incomplete() && Covered(f, pass)
    requires Turn(f, p, now).1.Sent?
    ensures var x := Turn(f, p, now).1.dataSeq;
            && f.Missing(x)
            && (x <= f.last <==> forall y | f.last < y < f.size :: !f.Missing(y))
            && (x <= f.last ==> forall y | 0 <= y < x :: !f.Missing(y))
            && (x > f.last ==> forall y | y in pass.given :: y < x)
  {
    var before := Opened(Rearmed(f), p, now);
    assert SamePackets(f, before);
    ScanIsLeastAheadElseLeast(before);
    assert forall y :: before.Missing(y) <==> f.Missing(y);
  }

  /** The visit at step `i` sends a token and opens a new pass. */
  ghost predicate OpensPass(h: History, e: Event, p: Params) {
    && e.Visited? && h.flow.Valid() && h.announced && !h.flow.finished && h.flow.Incomplete()
    && Turn(h.flow, p, e.now).1.Sent? && Turn(h.flow, p, e.now).1.dataSeq <= h.flow.last
  }

  /**
   A pass opens without a wait before it exactly when some packet was missing beyond the last token
   when that token went out, and has arrived since; otherwise the wait has been kept in full.
   */
  lemma OpensUnwaitedExactlyWhen(hs: seq<History>, es: seq<Event>, p: Params, i: nat)
    requires Run(hs, es, p) && 1 <= p.window && i < |es| && OpensPass(hs[i], es[i], p)
    ensures !hs[i].pass.armed <==> exists y :: y in hs[i].pass.ahead && y in hs[i].flow.received
    ensures hs[i].pass.armed ==> hs[i].until <= es[i].now
  {
    RunKeeps(hs, es, p);
    AheadIsBeyond(hs, es, p, i);
    assert Ok(hs[i], p) && Next(hs[i], es[i], hs[i + 1], p);
    AllAheadArrived(hs[i], p, es[i].now);
    OpensAfterWait(hs[i], es[i], p);
  }

  lemma AllAheadArrived(h: History, p: Params, now: int)
    requires h.flow.Valid() && Covered(h.flow, h.pass) && OpensPass(h, Visited(now), p)
    requires forall y | y in h.pass.ahead :: h.flow.last < y < h.flow.size
    ensures forall y | y in h.pass.ahead :: y in h.flow.received
    ensures !h.pass.armed <==> exists y :: y in h.pass.ahead && y in h.flow.received
  {
    PassOpens(h.flow, h.pass, p, now);
    forall y | y in h.pass.ahead
      ensures y in h.flow.received
    {
      assert !h.flow.Missing(y);
    }
  }

  lemma OpensAfterWait(h: History, e: Event, p: Params)
    requires Ok(h, p) && OpensPass(h, e, p) && h.clock <= e.now
    ensures h.pass.armed ==> h.until <= e.now
  {
  }

  lemma {:induction false} AheadIsBeyond(hs: seq<History>, es: seq<Event>, p: Params, i: nat)
    requires Run(hs, es, p) && i < |hs|
    ensures forall y | y in hs[i].pass.ahead :: hs[i].flow.last < y < hs[i].flow.size
  {
    if i > 0 {
      AheadIsBeyond(hs, es, p, i - 1);
      assert Next(hs[i - 1], es[i - 1], hs[i], p);
      StepAhead(hs[i - 1], es[i - 1], p);
    }
  }

  lemma StepAhead(h: History, e: Event, p: Params)
    requires h.flow.Valid() && forall y | y in h.pass.ahead :: h.flow.last < y < h.flow.size
    ensures var g := Step(h, e, p); forall y | y in g.pass.ahead :: g.flow.last < y < g.flow.size
  {
    if e.Visited? {
      var before := Opened(Rearmed(h.flow), p, e.now);
      assert SamePackets(h.flow, before);
    }
  }

  // ---- A second pass whose last packet arrives first ----

  /** Nothing has arrived, and the first `k` packets have a token. */
  ghost predicate FirstPass(f: Flow, k: nat) {
    && f.Valid() && !f.finished && f.received == {} && f.receivedUntil == 0 && k <= f.size && f.last == k - 1 && f.tokenCount == k
    && f.largestSeq < k && (k < f.size ==> f.redundancy == -1)
  }

  lemma FirstPassTurn(f: Flow, k: nat, p: Params, now: int)
    requires FirstPass(f, k) && k < f.size && 0 <= now && f.latestSent + p.windowTimeout <= now
    ensures var (g, v) := Turn(f, p, now);
            && v == Sent(k, k) && FirstPass(g, k + 1) && (g.src, g.size, g.latestSent) == (f.src, f.size, now)
            && g.redundancy == if k + 1 == f.size then now + p.resendTimeout else -1
  {
    var g := Opened(Rearmed(f), p, now);
    WrapAround(k, f.size);
    assert NextSeq(g) == k;
    WrapAround(k + 1, f.size);
    assert NextSeq(IssueToken(g, now)) == if k + 1 == f.size then 0 else k + 1;
  }

  /** Every packet has a token, packet 0 a second one, and packets 1 to `j - 1` have arrived. */
  ghost predicate SecondPass(f: Flow, j: nat) {
    && f.Valid() && !f.finished && 1 <= j <= f.size && 2 <= f.size
    && (forall x :: x in f.received <==> 1 <= x < j) && |f.received| == j - 1
    && f.receivedUntil == 0 && f.last == 0 && f.tokenCount == f.size + 1 && f.redundancy <= 0
  }

  lemma SecondPassTurn(f: Flow, p: Params, now: int)
    requires FirstPass(f, f.size) && 2 <= f.size && f.redundancy <= now && 0 <= now && f.latestSent + p.windowTimeout <= now
    ensures var (g, v) := Turn(f, p, now);
            && v == Sent(0, f.size) && SecondPass(g, 1) && NextSeq(g) == 1 && g.TokenGap() <= p.window + 1
            && (g.src, g.size, g.latestSent) == (f.src, f.size, now)
  {
    var g := Opened(Rearmed(f), p, now);
    WrapAround(f.size, f.size);
    assert NextSeq(g) == 0;
    WrapAround(1, f.size);
    assert NextSeq(IssueToken(g, now)) == 1;
  }

  lemma SecondPassArrival(f: Flow, j: nat)
    requires SecondPass(f, j) && j < f.size
    ensures var g := ReceiveData(f, j, j);
            SecondPass(g, j + 1) && (g.src, g.size, g.latestSent) == (f.src, f.size, f.latestSent)
  {
    ReceiveKeepsValid(f, j, j);
    assert f.receivedUntil == 0 && Advance(f.received + {j}, f.size, 0) == 0;
  }

  /** Then only packet 0 is missing: it is asked for again at once, and it completes the flow. */
  lemma SecondPassEnds(f: Flow, tokenSeq: int)
    requires SecondPass(f, f.size)
    ensures f.Incomplete() && (forall x :: f.Missing(x) <==> x == 0)
    ensures NextSeq(f) == 0 && ReceiveData(f, 0, tokenSeq).finished
  {
    assert forall x :: f.Missing(x) <==> x == 0;
  }

  lemma OneMoreEvent(hs: seq<History>, es: seq<Event>, p: Params, e: Event) returns (hs': seq<History>, es': seq<Event>)
    requires Run(hs, es, p) && hs[|es|].flow.Valid() && Possible(hs[|es|], e)
    ensures Run(hs', es', p) && |es'| == |es| + 1 && es'[|es|] == e && hs'[0] == hs[0]
    ensures hs'[|es|] == hs[|es|] && hs'[|es| + 1] == Step(hs[|es|], e, p)
  {
    hs', es' := hs + [Step(hs[|es|], e, p)], es + [e];
  }

  ghost predicate Going(h: History, size: nat, p: Params) {
    && h.announced && h.flow.size == size && 0 <= h.clock
    && h.flow.latestSent <= h.clock && h.flow.redundancy <= h.clock + p.resendTimeout
  }

  /** One visit for each packet not yet asked for, each late enough to find the window open. */
  lemma AsksForAll(hs: seq<History>, es: seq<Event>, p: Params, size: nat, k: nat) returns (hs': seq<History>, es': seq<Event>)
    requires Run(hs, es, p) && Going(hs[|es|], size, p) && FirstPass(hs[|es|].flow, k)
    ensures Run(hs', es', p) && Going(hs'[|es'|], size, p) && FirstPass(hs'[|es'|].flow, size) && hs'[0] == hs[0]
    decreases size - k
  {
    hs', es' := hs, es;
    if k < size {
      var h := hs[|es|];
      var now := h.clock + p.windowTimeout;
      FirstPassTurn(h.flow, k, p, now);
      hs', es' := OneMoreEvent(hs, es, p, Visited(now));
      hs', es' := AsksForAll(hs', es', p, size, k + 1);
    }
  }

  lemma AllButOneArrive(hs: seq<History>, es: seq<Event>, p: Params, size: nat, j: nat) returns (hs': seq<History>, es': seq<Event>)
    requires Run(hs, es, p) && Going(hs[|es|], size, p) && SecondPass(hs[|es|].flow, j) && !hs[|es|].pass.armed
    ensures Run(hs', es', p) && Going(hs'[|es'|], size, p) && SecondPass(hs'[|es'|].flow, size) && !hs'[|es'|].pass.armed
    ensures hs'[0] == hs[0]
    decreases size - j
  {
    hs', es' := hs, es;
    if j < size {
      var h := hs[|es|];
      SecondPassArrival(h.flow, j);
      hs', es' := OneMoreEvent(hs, es, p, Arrived(h.clock, 0, j, j));
      hs', es' := AllButOneArrive(hs', es', p, size, j + 1);
    }
  }

  lemma StartsSecondPass(hs: seq<History>, es: seq<Event>, p: Params, size: nat) returns (hs': seq<History>, es': seq<Event>)
    requires Run(hs, es, p) && Going(hs[|es|], size, p) && FirstPass(hs[|es|].flow, size) && 2 <= size
    ensures Run(hs', es', p) && Going(hs'[|es'|], size, p) && SecondPass(hs'[|es'|].flow, 1) && !hs'[|es'|].pass.armed
    ensures hs'[0] == hs[0]
  {
    var h := hs[|es|];
    var now := h.clock + p.windowTimeout + p.resendTimeout;
    SecondPassTurn(h.flow, p, now);
    hs', es' := OneMoreEvent(hs, es, p, Visited(now));
  }

  /**
   It happens to short and long flows of every size but one, whatever the window: all packets are
   asked for, the wait is kept, packet 0 is asked for again, and the others arrive late, so that the
   next token starts over at once.
   */
  lemma OpensUnwaitedInSomeRun(p: Params, size: nat, short: bool) returns (hs: seq<History>, es: seq<Event>)
    requires 2 <= size
    ensures es != [] && Run(hs, es, p) && hs[0].flow.size == size && hs[0].short == short
    ensures OpensPass(hs[|es| - 1], es[|es| - 1], p) && !hs[|es| - 1].pass.armed
  {
    hs, es := [FirstHistory(0, size, short, 1)], [];
    hs, es := OneMoreEvent(hs, es, p, Announced(1, 0));
    hs, es := AsksForAll(hs, es, p, size, if short then size else 0);
    hs, es := StartsSecondPass(hs, es, p, size);
    hs, es := AllButOneArrive(hs, es, p, size, 1);
    var h := hs[|es|];
    SecondPassEnds(h.flow, 0);
    OpensAtOnce(h, p);
    hs, es := OneMoreEvent(hs, es, p, Visited(h.clock + p.windowTimeout));
  }

  ghost predicate OpensUnwaited(hs: seq<History>, es: seq<Event>, p: Params, size: nat, short: bool) {
    && Run(hs, es, p) && hs[0].flow.size == size && hs[0].short == short
    && exists i :: 0 <= i < |es| && OpensPass(hs[i], es[i], p) && !hs[i].pass.armed
  }

  lemma {:induction false} SizeStays(hs: seq<History>, es: seq<Event>, p: Params, i: nat)
    requires Run(hs, es, p) && i < |hs|
    ensures hs[i].flow.size == hs[0].flow.size
  {
    if i > 0 {
      SizeStays(hs, es, p, i - 1);
      assert Next(hs[i - 1], es[i - 1], hs[i], p);
    }
  }

  /** It can happen to every flow of more than one packet, and to no other. */
  lemma OpensUnwaitedExactlyForSizes(p: Params, size: nat, short: bool)
    requires 1 <= p.window
    ensures (exists hs, es :: OpensUnwaited(hs, es, p, size, short)) <==> 2 <= size
  {
    if 2 <= size {
      var hs, es := OpensUnwaitedInSomeRun(p, size, short);
      var i := |es| - 1;
      assert 0 <= i < |es| && OpensPass(hs[i], es[i], p) && !hs[i].pass.armed;
      assert OpensUnwaited(hs, es, p, size, short);
    }
    forall hs: seq<History>, es: seq<Event> | OpensUnwaited(hs, es, p, size, short)
      ensures 2 <= size
    {
      var i :| 0 <= i < |es| && OpensPass(hs[i], es[i], p) && !hs[i].pass.armed;
      OpensUnwaitedExactlyWhen(hs, es, p, i);
      AheadIsBeyond(hs, es, p, i);
      SizeStays(hs, es, p, i);
    }
  }

  lemma OpensAtOnce(h: History, p: Params)
    requires h.announced && 0 <= h.clock && h.flow.latestSent <= h.clock
    requires SecondPass(h.flow, h.flow.size) && h.flow.Incomplete() && NextSeq(h.flow) == 0
    ensures OpensPass(h, Visited(h.clock + p.windowTimeout), p)
  {
  }

  // ---- The flow object ----

  class RankingFlow {
    const src: nat
    const size: nat
    var packetsReceived: set<nat>
    var receivedCount: nat
    var receivedUntil: nat
    var lastTokenDataSeqNumSent: int
    var tokenCount: int
    var largestTokenSeqReceived: int
    var tokenGoal: int
    var redundancyCtrlTimeout: int
    var latestTokenSentTime: int
    var finishedAtReceiver: bool

    function Value(): Flow
      reads this
    {
      Flow(src, size, packetsReceived, receivedUntil, lastTokenDataSeqNumSent, tokenCount,
           largestTokenSeqReceived, tokenGoal, redundancyCtrlTimeout, latestTokenSentTime, finishedAtReceiver)
    }

    ghost predicate Valid()
      reads this
    {
      Value().Valid() && receivedCount == |packetsReceived|
    }

    constructor (src: nat, size: nat)
      requires 0 < size
      ensures Valid() && Value() == NewFlow(src, size)
    {
      this.src, this.size := src, size;
      packetsReceived, receivedCount, receivedUntil := {}, 0, 0;
      lastTokenDataSeqNumSent, tokenCount, largestTokenSeqReceived := -1, 0, -1;
      tokenGoal, redundancyCtrlTimeout, latestTokenSentTime := size, -1, -1;
      finishedAtReceiver := false;
    }

    /** At most `size` probes, and the assertion behind the loop is never reached. */
    method GetNextTokenSeqNum() returns (dataSeq: nat)
      requires Valid() && Value().Incomplete()
      ensures dataSeq == NextSeq(Value())
    {
      var count := 0;
      dataSeq := (lastTokenDataSeqNumSent + 1) % size;
      ghost var first := dataSeq;
      while count < size
        invariant 0 <= count < size && dataSeq < size
        invariant || (dataSeq == first + count && FirstMissing(packetsReceived, size, first) == FirstMissing(packetsReceived, size, dataSeq))
                  || (dataSeq == receivedUntil && FirstMissing(packetsReceived, size, first) == size)
        decreases size - count
      {
        if dataSeq !in packetsReceived {
          return;
        }
        dataSeq := dataSeq + 1;
        if dataSeq >= size {
          dataSeq := receivedUntil;
        }
        count := count + 1;
      }
      assert false;
    }

    method SendTokenPkt(now: int) returns (dataSeq: nat, tokenSeq: int)
      requires Valid() && Value().Incomplete()
      modifies this
      ensures Valid() && Value() == IssueToken(old(Value()), now)
      ensures dataSeq == NextSeq(old(Value())) && tokenSeq == old(tokenCount)
    {
      dataSeq := GetNextTokenSeqNum();
      lastTokenDataSeqNumSent := dataSeq;
      tokenSeq := tokenCount;
      tokenCount := tokenCount + 1;
      latestTokenSentTime := now;
    }

    method RelaxTokenGap(p: Params)
      requires Valid()
      modifies this
      ensures Valid() && Value() == RelaxGap(old(Value()), p)
    {
      largestTokenSeqReceived := tokenCount - p.window;
    }

    /** A new packet is counted, and the end of the received prefix moved up. */
    method StorePacket(dataSeq: nat)
      requires Valid() && dataSeq < size && dataSeq !in packetsReceived
      modifies this`packetsReceived, this`receivedCount, this`receivedUntil
      ensures Value() == old(Value()).(received := old(packetsReceived) + {dataSeq},
                                       receivedUntil := Advance(old(packetsReceived) + {dataSeq}, size, old(receivedUntil)))
      ensures receivedCount == |packetsReceived|
    {
      packetsReceived := packetsReceived + {dataSeq};
      receivedCount := receivedCount + 1;
      while receivedUntil < size && receivedUntil in packetsReceived
        invariant receivedUntil <= size
        invariant packetsReceived == old(packetsReceived) + {dataSeq} && receivedCount == |packetsReceived|
        invariant Advance(packetsReceived, size, receivedUntil) == Advance(packetsReceived, size, old(receivedUntil))
      {
        receivedUntil := receivedUntil + 1;
      }
    }

    method ReceiveDataPacket(dataSeq: nat, tokenSeq: int)
      requires Valid() && dataSeq < size
      modifies this
      ensures Valid() && Value() == ReceiveData(old(Value()), dataSeq, tokenSeq)
    {
      ReceiveKeepsValid(Value(), dataSeq, tokenSeq);
      if dataSeq !in packetsReceived {
        StorePacket(dataSeq);
      }
      if tokenSeq > largestTokenSeqReceived {
        largestTokenSeqReceived := tokenSeq;
      }
      if receivedCount >= size {
        finishedAtReceiver := true;
      }
    }

    /** A wait that has run out is ended, and a window that stayed full too long is relaxed. */
    method Reopen(p: Params, now: int)
      requires Valid()
      modifies this
      ensures Valid() && Value() == Opened(Rearmed(old(Value())), p, now)
    {
      if redundancyCtrlTimeout > 0 {
        redundancyCtrlTimeout := -1;
        tokenGoal := tokenGoal + Value().RemainingPkts();
      }
      if tokenCount - largestTokenSeqReceived - 1 > p.window {
        if now >= latestTokenSentTime + p.windowTimeout {
          RelaxTokenGap(p);
        }
      }
    }

    /** A token is sent; when the next one would not move forward, a wait begins. */
    method SendAndArm(p: Params, now: int) returns (dataSeq: nat, tokenSeq: int)
      requires Valid() && Value().Incomplete()
      modifies this
      ensures Valid() && Value() == Armed(IssueToken(old(Value()), now), NextSeq(old(Value())), p, now)
      ensures dataSeq == NextSeq(old(Value())) && tokenSeq == old(tokenCount)
    {
      dataSeq, tokenSeq := SendTokenPkt(now);
      var next := GetNextTokenSeqNum();
      if dataSeq >= next {
        redundancyCtrlTimeout := now + p.resendTimeout;
      }
    }

    /** One visit of the token loop. */
    method Visit(p: Params, now: int) returns (v: Visit)
      requires Valid() && Value().Incomplete()
      modifies this
      ensures Valid() && Value() == Turn(old(Value()), p, now).0 && v == Turn(old(Value()), p, now).1
    {
      if redundancyCtrlTimeout > now {
        return Blocked(redundancyCtrlTimeout);
      }
      Reopen(p, now);
      v := Blocked(latestTokenSentTime + p.windowTimeout);
      if tokenCount - largestTokenSeqReceived - 1 <= p.window {
        var dataSeq, tokenSeq := SendAndArm(p, now);
        v := Sent(dataSeq, tokenSeq);
      }
    }
  }
}
