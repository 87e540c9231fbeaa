/**
 Whole runs of the reliable window flow over a network that may lose and reorder packets: what every
 run keeps, what a finished transfer means, and exactly when a transfer that has gone quiet can still
 finish.
 */
module ReliableDelivery {
  import opened Arithmetic
  import opened ReliableFlow

  // ---- What is sent ----

  /** A packet with this segment goes out. */
  ghost predicate Carries(out: seq<Msg>, x: nat) {
    exists bytes :: Data(x, bytes) in out
  }

  /** One call sends exactly the missing segments in the window, from the next one on, and passes over the window. */
  lemma SendsExactly(f: State, x: nat)
    requires f.mss > 0 && Boundary(f, f.nextSeq)
    requires Segment(f, x) && x !in f.received ==> f.receivedBytes < f.size
    ensures Carries(SendPending(f).1, x) <==> Segment(f, x) && f.nextSeq <= x && InWindow(f, x) && x !in f.received
    ensures f.receivedBytes < f.size && Segment(f, x) && f.nextSeq <= x ==> (x < SendPending(f).0.nextSeq <==> InWindow(f, x))
  {
    PendingInRange(f, f.nextSeq);
    PendingIsExact(f, f.nextSeq);
    var segments := Pending(f, f.nextSeq);
    if x in segments {
      var i :| 0 <= i < |segments| && segments[i] == x;
      assert Packets(f, segments)[i] == Data(x, SegmentBytes(f, x));
    }
  }

  /** `x` is missing, comes next or later, and lies in the window the ack leaves, one segment wider. */
  ghost predicate NextInWindow(f: State, ack: nat, sacks: seq<nat>, x: nat)
    requires f.mss > 0
  {
    var cwnd := if f.cwnd < f.maxCwnd then f.cwnd + 1 else f.maxCwnd;
    Segment(f, x) && x !in f.received && f.nextSeq <= x && ack <= x && x + f.mss <= ack + cwnd * f.mss + |sacks| * f.mss
  }

  /** A new ack has exactly those segments sent and widens the window by one at most; an old one does neither. */
  lemma AckSendsExactly(f: State, ack: nat, sacks: seq<nat>, x: nat)
    requires Ok(f) && !f.finished && InFlight(f, Ack(ack, sacks))
    ensures Carries(OnAck(f, ack, sacks).1, x) <==> f.lastUnacked < ack && NextInWindow(f, ack, sacks, x)
    ensures var g := OnAck(f, ack, sacks).0;
            if f.lastUnacked < ack then g.lastUnacked == ack && g.cwnd == (if f.cwnd < f.maxCwnd then f.cwnd + 1 else f.maxCwnd)
            else g.lastUnacked == f.lastUnacked && g.cwnd == f.cwnd
  {
    if f.lastUnacked < ack {
      var g := f.(scoreboard := |sacks| * f.mss, nextSeq := if f.nextSeq < ack then ack else f.nextSeq);
      AllBytes(f, 0);
      SendPendingKeeps(Grown(g.(lastUnacked := ack)));
      SendsExactly(Grown(g.(lastUnacked := ack)), x);
    }
  }

  // ---- Runs ----

  datatype System = System(flow: State, net: multiset<Msg>)

  datatype Step = Deliver(m: Msg) | Lose(m: Msg) | Fire

  ghost predicate Inv(s: System) {
    Ok(s.flow) && forall m | m in s.net :: InFlight(s.flow, m)
  }

  /** A step that is not enabled changes nothing. */
  function Next(s: System, step: Step): System
    requires s.flow.mss > 0 && s.flow.recvTill <= s.flow.size
  {
    match step
    case Lose(m) => s.(net := s.net - multiset{m})
    case Deliver(m) =>
      if m in s.net then
        var (f, out) := Handle(s.flow, m);
        System(f, s.net - multiset{m} + multiset(out))
      else s
    case Fire =>
      if s.flow.timers > 0 then
        var (f, out) := Timeout(s.flow);
        System(f, s.net + multiset(out))
      else s
  }

  datatype Config = Config(size: nat, mss: nat, cwnd: nat, maxCwnd: nat) {
    predicate Valid() {
      size > 0 && mss > 0 && cwnd > 0
    }
  }

  function Started(c: Config): System
    requires c.Valid()
  {
    var (f, out) := SendPending(NewFlow(c.size, c.mss, c.cwnd, c.maxCwnd));
    System(f, multiset(out))
  }

  lemma StartedOk(c: Config)
    requires c.Valid()
    ensures Inv(Started(c))
  {
    var f := NewFlow(c.size, c.mss, c.cwnd, c.maxCwnd);
    Scale(1, c.cwnd, c.mss);
    NothingYet(f, 0);
    SendPendingKeeps(f);
    BytesSame(f, SendPending(f).0, 0);
    var out := SendPending(f).1;
    assert forall m | m in multiset(out) :: m in out;
  }

  /** A new flow sends the segments its first window holds. */
  lemma StartSendsExactly(c: Config, x: nat)
    requires c.Valid()
    ensures (exists bytes :: Data(x, bytes) in Started(c).net) <==> x < c.size && x % c.mss == 0 && x + c.mss <= c.cwnd * c.mss
  {
    SendsExactly(NewFlow(c.size, c.mss, c.cwnd, c.maxCwnd), x);
    var out := SendPending(NewFlow(c.size, c.mss, c.cwnd, c.maxCwnd)).1;
    assert forall m :: m in multiset(out) <==> m in out;
  }

  lemma {:induction false} NothingYet(f: State, s: nat)
    requires f.mss > 0 && f.received == {}
    ensures BytesFrom(f, s) == 0
    decreases f.size - s
  {
    if s < f.size {
      NothingYet(f, After(f, s));
    }
  }

  /** What is in flight stays good as the receiver gets more. */
  lemma StaysInFlight(f: State, g: State, m: Msg)
    requires f.mss > 0 && (g.size, g.mss) == (f.size, f.mss) && f.recvTill <= g.recvTill
    requires !g.finished ==> !f.finished && f.received <= g.received
    requires InFlight(f, m)
    ensures InFlight(g, m)
  {
  }

  lemma HandleKeeps(f: State, m: Msg)
    requires Ok(f) && InFlight(f, m)
    ensures var (g, out) := Handle(f, m);
            && Ok(g) && (g.size, g.mss) == (f.size, f.mss) && f.recvTill <= g.recvTill
            && (!g.finished ==> !f.finished && f.received <= g.received)
            && forall x | x in out :: InFlight(g, x)
  {
    if !f.finished {
      match m {
        case Data(s, bytes) => DataKeeps(f, s);
        case Ack(ack, sacks) =>
          AckKeeps(f, ack, sacks);
          var (g, out) := OnAck(f, ack, sacks);
          forall x | x in out
            ensures InFlight(g, x)
          {
            StaysInFlight(f, g, x);
          }
      }
    }
  }

  lemma SameInFlight(f: State, g: State, net: multiset<Msg>, out: seq<Msg>)
    requires f.mss > 0 && (g.size, g.mss) == (f.size, f.mss) && f.recvTill <= g.recvTill
    requires !g.finished ==> !f.finished && f.received <= g.received
    requires forall m | m in net :: InFlight(f, m)
    requires forall m | m in out :: InFlight(g, m)
    ensures forall m | m in net + multiset(out) :: InFlight(g, m)
  {
    forall m | m in net + multiset(out)
      ensures InFlight(g, m)
    {
      if m in net {
        StaysInFlight(f, g, m);
      } else {
        assert m in multiset(out);
      }
    }
  }

  lemma NextKeeps(s: System, step: Step)
    requires Inv(s)
    ensures Inv(Next(s, step))
  {
    match step {
      case Lose(m) =>
      case Deliver(m) =>
        if m in s.net {
          HandleKeeps(s.flow, m);
          var (f, out) := Handle(s.flow, m);
          SameInFlight(s.flow, f, s.net - multiset{m}, out);
        }
      case Fire =>
        if s.flow.timers > 0 {
          TimeoutKeeps(s.flow);
          var (f, out) := Timeout(s.flow);
          SameInFlight(s.flow, f, s.net, out);
        }
    }
  }

  /** Every reachable state is good: in particular `last_unacked <= recv_till <= size`, one timer exactly while unacked. */
  function RunFrom(s: System, steps: seq<Step>): (r: System)
    requires Inv(s)
    ensures Inv(r)
    decreases |steps|
  {
    if steps == [] then s
    else
      NextKeeps(s, steps[0]);
      RunFrom(Next(s, steps[0]), steps[1..])
  }

  function Run(c: Config, steps: seq<Step>): (r: System)
    requires c.Valid()
    ensures Inv(r)
  {
    StartedOk(c);
    RunFrom(Started(c), steps)
  }

  lemma RunStep(s: System, step: Step, rest: seq<Step>)
    requires Inv(s)
    ensures Inv(Next(s, step)) && RunFrom(s, [step] + rest) == RunFrom(Next(s, step), rest)
  {
    NextKeeps(s, step);
    assert ([step] + rest)[1..] == rest;
  }

  /** Whenever a run makes the sender finish, every segment had arrived and every byte was counted. */
  lemma FinishMeansDelivered(c: Config, steps: seq<Step>, step: Step)
    requires c.Valid()
    ensures var s := Run(c, steps);
            !s.flow.finished && Next(s, step).flow.finished ==>
              s.flow.receivedBytes == s.flow.size && forall x: nat | Segment(s.flow, x) :: x in s.flow.received
  {
    var s := Run(c, steps);
    if !s.flow.finished && Next(s, step).flow.finished {
      FinishStep(s, step);
    }
  }

  lemma FinishStep(s: System, step: Step)
    requires Inv(s) && !s.flow.finished && Next(s, step).flow.finished
    ensures s.flow.receivedBytes == s.flow.size && forall x: nat | Segment(s.flow, x) :: x in s.flow.received
  {
    if step.Fire? {
      TimeoutKeeps(s.flow);
      assert false;
    } else if step.m.Data? {
      DataKeeps(s.flow, step.m.seqNo);
      assert false;
    }
    AckKeeps(s.flow, step.m.ack, step.m.sacks);
    AllBytes(s.flow, 0);
  }

  // ---- When a quiet transfer can still finish ----

  /** `x` lies in the window a timeout falls back to, and is missing at the receiver. */
  predicate Resends(f: State, x: nat)
    requires f.mss > 0
  {
    Segment(f, x) && f.lastUnacked <= x <= f.lastUnacked + f.scoreboard && x !in f.received
  }

  /** A timeout has something to send. */
  ghost predicate Resendable(f: State)
    requires f.mss > 0
  {
    exists x :: Resends(f, x)
  }

  /** A timeout sends exactly the missing segments in the window it falls back to. */
  lemma TimeoutResends(f: State, x: nat)
    requires Ok(f) && f.timers > 0
    ensures Carries(Timeout(f).1, x) <==> Resends(f, x)
    ensures Timeout(f).0.cwnd == 1 && forall m | m in Timeout(f).1 :: m.Data?
  {
    var g := f.(timers := f.timers - 1, nextSeq := f.lastUnacked, cwnd := 1);
    AllBytes(f, 0);
    SendsExactly(g, x);
  }

  /** Nothing in flight, and a timeout would send nothing. */
  ghost predicate Stuck(s: System)
    requires s.flow.mss > 0
  {
    s.net == multiset{} && !s.flow.finished && !Resendable(s.flow)
  }

  lemma QuietTimeout(f: State)
    requires Ok(f) && f.timers > 0 && !Resendable(f)
    ensures var (g, out) := Timeout(f);
            out == [] && (g.scoreboard, g.lastUnacked, g.finished, g.received) == (f.scoreboard, f.lastUnacked, f.finished, f.received)
  {
    TimeoutKeeps(f);
    var out := Timeout(f).1;
    assert out != [] ==> out[0] in out;
    forall m | m in out
      ensures false
    {
      assert m.Data? && Data(m.seqNo, m.bytes) in out;
      TimeoutResends(f, m.seqNo);
    }
  }

  lemma StuckStays(s: System, step: Step)
    requires Inv(s) && Stuck(s)
    ensures Stuck(Next(s, step))
  {
    match step {
      case Lose(m) =>
      case Deliver(m) =>
      case Fire =>
        QuietTimeout(s.flow);
        TimeoutKeeps(s.flow);
        assert forall x :: Resends(Timeout(s.flow).0, x) == Resends(s.flow, x);
        assert s.net + multiset(Timeout(s.flow).1) == multiset{};
    }
  }

  lemma {:induction false} StuckForever(s: System, steps: seq<Step>)
    requires Inv(s) && Stuck(s)
    ensures !RunFrom(s, steps).flow.finished
    decreases |steps|
  {
    if steps != [] {
      NextKeeps(s, steps[0]);
      StuckStays(s, steps[0]);
      StuckForever(Next(s, steps[0]), steps[1..]);
    }
  }

  lemma FireSends(s: System, x: nat) returns (data: Msg)
    requires Inv(s) && !s.flow.finished && Resends(s.flow, x)
    ensures var r := Next(s, Fire);
            && Inv(r) && data in r.net && data.Data? && data.seqNo == x && !r.flow.finished
            && (r.flow.size, r.flow.mss, r.flow.recvTill, r.flow.received) == (s.flow.size, s.flow.mss, s.flow.recvTill, s.flow.received)
  {
    TimeoutResends(s.flow, x);
    var bytes :| Data(x, bytes) in Timeout(s.flow).1;
    data := Data(x, bytes);
    NextKeeps(s, Fire);
    TimeoutKeeps(s.flow);
    assert data in multiset(Timeout(s.flow).1);
  }

  lemma DataIsAnswered(s: System, data: Msg) returns (reply: Msg)
    requires Inv(s) && !s.flow.finished && data in s.net && data.Data?
    ensures var r := Next(s, Deliver(data));
            && Inv(r) && reply in r.net && reply.Ack? && reply.ack == r.flow.recvTill && !r.flow.finished
            && r.flow.size == s.flow.size && s.flow.recvTill <= r.flow.recvTill
            && (data.seqNo == s.flow.recvTill ==> s.flow.recvTill < r.flow.recvTill)
  {
    NextKeeps(s, Deliver(data));
    assert InFlight(s.flow, data);
    DataKeeps(s.flow, data.seqNo);
    AckIsExact(s.flow, data.seqNo);
    reply := ReceiveData(s.flow, data.seqNo, data.bytes).1;
    assert reply in multiset([reply]);
  }

  lemma AckAgrees(s: System, reply: Msg)
    requires Inv(s) && !s.flow.finished && reply in s.net && reply.Ack? && reply.ack == s.flow.recvTill
    ensures var r := Next(s, Deliver(reply));
            Inv(r) && r.flow.size == s.flow.size && r.flow.lastUnacked == r.flow.recvTill == s.flow.recvTill
  {
    NextKeeps(s, Deliver(reply));
    assert InFlight(s.flow, reply);
    AckKeeps(s.flow, reply.ack, reply.sacks);
  }

  /** The timer fires, `data` gets through, and so does its `reply`. */
  ghost predicate Round(s: System, data: Msg, reply: Msg, r: System)
    requires Inv(s)
  {
    var s1 := Next(s, Fire);
    Inv(s1) &&
    var s2 := Next(s1, Deliver(data));
    Inv(s2) && Inv(r) && r == Next(s2, Deliver(reply))
  }

  lemma OneRound(s: System, x: nat) returns (data: Msg, reply: Msg, r: System)
    requires Inv(s) && !s.flow.finished && Resends(s.flow, x)
    ensures Round(s, data, reply, r)
    ensures r.flow.lastUnacked == r.flow.recvTill && r.flow.size == s.flow.size && s.flow.recvTill <= r.flow.recvTill
    ensures x == s.flow.recvTill ==> s.flow.recvTill < r.flow.recvTill
  {
    data := FireSends(s, x);
    reply := DataIsAnswered(Next(s, Fire), data);
    AckAgrees(Next(Next(s, Fire), Deliver(data)), reply);
    r := Next(Next(Next(s, Fire), Deliver(data)), Deliver(reply));
  }

  function RoundSteps(data: Msg, reply: Msg, rest: seq<Step>): seq<Step> {
    [Fire] + ([Deliver(data)] + ([Deliver(reply)] + rest))
  }

  lemma RunRound(s: System, data: Msg, reply: Msg, r: System, rest: seq<Step>)
    requires Inv(s) && Round(s, data, reply, r)
    ensures RunFrom(s, RoundSteps(data, reply, rest)) == RunFrom(r, rest)
  {
    var s1 := Next(s, Fire);
    var s2 := Next(s1, Deliver(data));
    RunStep(s, Fire, [Deliver(data)] + ([Deliver(reply)] + rest));
    RunStep(s1, Deliver(data), [Deliver(reply)] + rest);
    RunStep(s2, Deliver(reply), rest);
  }

  /** Once both ends agree where the first hole is, every round fills it. */
  lemma {:induction false} FinishesFromAgreement(s: System) returns (steps: seq<Step>)
    requires Inv(s) && s.flow.lastUnacked == s.flow.recvTill
    ensures RunFrom(s, steps).flow.finished
    decreases s.flow.size - s.flow.recvTill
  {
    if s.flow.finished {
      steps := [];
    } else {
      var data, reply, r := OneRound(s, s.flow.recvTill);
      var rest := FinishesFromAgreement(r);
      steps := RoundSteps(data, reply, rest);
      RunRound(s, data, reply, r, rest);
    }
  }

  lemma Finishes(s: System) returns (steps: seq<Step>)
    requires Inv(s) && !s.flow.finished && Resendable(s.flow)
    ensures RunFrom(s, steps).flow.finished
  {
    var x :| Resends(s.flow, x);
    var data, reply, r := OneRound(s, x);
    var rest := FinishesFromAgreement(r);
    steps := RoundSteps(data, reply, rest);
    RunRound(s, data, reply, r, rest);
  }

  /** With nothing in flight, the transfer can still finish exactly when a timeout would resend something. */
  lemma QuietTransferFinishesExactlyWhen(s: System)
    requires Inv(s) && s.net == multiset{} && !s.flow.finished
    ensures (exists steps :: RunFrom(s, steps).flow.finished) <==> Resendable(s.flow)
  {
    if Resendable(s.flow) {
      var steps := Finishes(s);
    } else {
      forall steps
        ensures !RunFrom(s, steps).flow.finished
      {
        StuckForever(s, steps);
      }
    }
  }

  /** The failing case happens: the only ack of a one-segment flow is lost. */
  lemma LostAckIsNeverRepaired(cwnd: nat, maxCwnd: nat, steps: seq<Step>)
    requires cwnd > 0
    ensures var s := Run(Config(1, 1, cwnd, maxCwnd), [Deliver(Data(0, 1)), Lose(Ack(1, []))]);
            s.flow.receivedBytes == 1 && !RunFrom(s, steps).flow.finished
  {
    var c := Config(1, 1, cwnd, maxCwnd);
    StartedOk(c);
    var s0 := Started(c);
    var f0 := NewFlow(1, 1, cwnd, maxCwnd);
    assert Pending(f0, 0) == [0];
    assert SendPending(f0).1 == [Data(0, 1)];
    RunStep(s0, Deliver(Data(0, 1)), [Lose(Ack(1, []))]);
    var s1 := Next(s0, Deliver(Data(0, 1)));
    assert ReceiveData(s0.flow, 0, 1).1 == Ack(1, []);
    assert s1.net == multiset{Ack(1, [])};
    RunStep(s1, Lose(Ack(1, [])), []);
    var s2 := Next(s1, Lose(Ack(1, [])));
    assert s2.net == multiset{};
    assert [Lose(Ack(1, []))] + [] == [Lose(Ack(1, []))];
    assert [Deliver(Data(0, 1))] + [Lose(Ack(1, []))] == [Deliver(Data(0, 1)), Lose(Ack(1, []))];
    StuckForever(s2, steps);
  }
}
