/**
 The data path of a PIM flow.  Its sender scans for unacknowledged packets as a Ranking receiver scans
 for missing ones, and stops for a while when a pass is over; the receiver acknowledges every packet
 it gets.  In the bookkeeping record `received` holds the packets acknowledged and `tokenCount` the
 number of packets sent.
 */
module PimFlow {
  import opened Options
  import opened PriorityQueue
  import opened FlowQueue
  import opened Sets
  import opened TokenFlow

  function Gap(f: Flow): int {
    f.tokenCount - f.largestSeq
  }

  function Rested(f: Flow): Flow {
    if f.redundancy > 0 then f.(redundancy := -1) else f
  }

  function Relaxed(f: Flow, p: Params, now: int): Flow {
    if Gap(f) > p.window && now >= f.latestSent + p.windowTimeout then RelaxGap(f, p) else f
  }

  /** One visit of the send loop. */
  function SendTurn(f: Flow, p: Params, now: int): (Flow, Visit)
    requires f.Valid() && f.Incomplete()
  {
    if f.redundancy > now then (f, Blocked(f.redundancy))
    else
      var g := Relaxed(Rested(f), p, now);
      if Gap(g) <= p.window then
        (Armed(IssueToken(g, now), NextSeq(g), p, now), Sent(NextSeq(g), g.tokenCount))
      else (g, Blocked(g.latestSent + p.windowTimeout))
  }

  datatype Sender = Sender(flow: Flow, remaining: int)

  /** The last acknowledgement finishes the flow and empties the sender's set. */
  function ReceiveAck(s: Sender, dataSeq: nat, seqNo: int): Sender
    requires s.flow.Valid()
  {
    var f := s.flow;
    var acked := f.received + {dataSeq};
    var g := if dataSeq in f.received then f
             else f.(received := acked, receivedUntil := Advance(acked, f.size, f.receivedUntil));
    var h := g.(largestSeq := if seqNo > g.largestSeq then seqNo else g.largestSeq);
    var left := if dataSeq in f.received then s.remaining else s.remaining - 1;
    Sender(if left == 0 then h.(received := {}, finished := true) else h, left)
  }

  // ---- Whole transfers ----

  datatype Msg = Data(dataSeq: nat, seqNo: int) | Ack(dataSeq: nat, seqNo: int)

  /** `delivered` is what the receiver has; the network may lose and reorder.  `pass` is the sender's. */
  datatype System = System(sender: Sender, delivered: set<nat>, net: multiset<Msg>, pass: Pass)

  datatype Step = Send(now: int) | Deliver(m: Msg) | Lose(m: Msg)

  function First(src: nat, size: nat): System {
    System(Sender(NewFlow(src, size), size), {}, multiset{}, Pass({}, Below(size), false))
  }

  /** A finished flow takes no packets; a step that is not enabled changes nothing. */
  function Next(s: System, step: Step, p: Params): System
    requires !s.sender.flow.finished ==> s.sender.flow.Valid() && s.sender.flow.Incomplete()
  {
    match step
    case Lose(m) => s.(net := s.net - multiset{m})
    case Send(now) =>
      if s.sender.flow.finished then s
      else
        var (f, v) := SendTurn(s.sender.flow, p, now);
        var t := s.(sender := s.sender.(flow := f));
        if v.Sent? then
          t.(net := s.net + multiset{Data(v.dataSeq, v.tokenSeq)}, pass := NextPass(s.pass, s.sender.flow.last, v.dataSeq, f))
        else t
    case Deliver(m) =>
      if m !in s.net then s
      else
        var rest := s.(net := s.net - multiset{m});
        if s.sender.flow.finished then rest
        else
          match m
          case Data(d, n) => rest.(delivered := s.delivered + {d}, net := rest.net + multiset{Ack(d, n)})
          case Ack(d, n) => rest.(sender := ReceiveAck(s.sender, d, n))
  }

  /** Packets sent are numbered in order, and acknowledgements name packets sent. */
  ghost predicate InFlight(s: System, m: Msg) {
    && m.seqNo < s.sender.flow.tokenCount
    && (m.Data? ==> m.dataSeq < s.sender.flow.size)
    && (m.Ack? ==> m.dataSeq in s.delivered)
  }

  /** The sender's record of an unfinished flow, checked against what has really arrived. */
  ghost predicate SenderOk(s: Sender, delivered: set<nat>) {
    && s.flow.Valid() && s.flow.Incomplete()
    && s.flow.received <= delivered && s.remaining == s.flow.size - |s.flow.received| && s.remaining > 0
    && s.flow.largestSeq <= s.flow.tokenCount
  }

  ghost predicate Inv(s: System) {
    && s.delivered <= Below(s.sender.flow.size)
    && (forall m | m in s.net :: InFlight(s, m))
    && if s.sender.flow.finished then s.delivered == Below(s.sender.flow.size)
       else SenderOk(s.sender, s.delivered) && Covered(s.sender.flow, s.pass)
  }

  lemma TurnKeeps(f: Flow, p: Params, now: int)
    requires f.Valid() && f.Incomplete() && f.largestSeq <= f.tokenCount
    ensures var (g, v) := SendTurn(f, p, now);
            && g.Valid() && g.Incomplete() && (g.received, g.size, g.finished) == (f.received, f.size, f.finished)
            && g.largestSeq <= g.tokenCount && f.tokenCount <= g.tokenCount
            && (v.Sent? ==> f.Missing(v.dataSeq) && v.tokenSeq == f.tokenCount < g.tokenCount)
            && (v.Blocked? ==> now < v.until)
  {
    var before := Relaxed(Rested(f), p, now);
    assert SamePackets(f, before);
  }

  /** In a pass every packet up to the last one sent was acknowledged or sent; when the wait starts, every packet. */
  lemma SendKeepsPassOf(f: Flow, pass: Pass, p: Params, now: int)
    requires f.Valid() && f.Incomplete() && Covered(f, pass)
    ensures var (g, v) := SendTurn(f, p, now);
            && g.Valid() && Covered(g, if v.Sent? then NextPass(pass, f.last, v.dataSeq, g) else pass)
            && (v.Sent? && NextPass(pass, f.last, v.dataSeq, g).armed ==> g.redundancy == now + p.resendTimeout)
  {
    var before := Relaxed(Rested(f), p, now);
    assert SamePackets(f, before);
    SamePacketsCovered(f, before, pass);
    if f.redundancy <= now && Gap(before) <= p.window {
      var x, sent := NextSeq(before), IssueToken(before, now);
      SendKeepsPass(before, pass, now);
      var g := Armed(sent, x, p, now);
      assert SendTurn(f, p, now) == (g, Sent(x, before.tokenCount));
      SamePacketsCovered(sent, g, NextPass(pass, f.last, x, sent));
      assert NextPass(pass, f.last, x, g) == NextPass(pass, f.last, x, sent);
    }
  }

  lemma SendKeeps(s: System, now: int, p: Params)
    requires Inv(s) && !s.sender.flow.finished
    ensures Inv(Next(s, Send(now), p)) && Next(s, Send(now), p).sender.flow.size == s.sender.flow.size
  {
    TurnKeeps(s.sender.flow, p, now);
    SendKeepsPassOf(s.sender.flow, s.pass, p, now);
    var t := Next(s, Send(now), p);
    forall m | m in t.net
      ensures InFlight(t, m)
    {
      assert m in s.net || m == Data(m.dataSeq, s.sender.flow.tokenCount);
    }
  }

  lemma AckedOk(f: Flow, d: nat)
    requires f.Valid() && d < f.size
    ensures var acked := f.received + {d};
            var g := f.(received := acked, receivedUntil := Advance(acked, f.size, f.receivedUntil));
            g.Valid() && (g.Incomplete() <==> |acked| < f.size) && |acked| <= f.size && (|acked| == f.size ==> acked == Below(f.size))
  {
    var acked := f.received + {d};
    var g := f.(received := acked, receivedUntil := Advance(acked, f.size, f.receivedUntil));
    assert g.Valid();
    IncompleteIsCount(g);
    CountIsComplete(acked, f.size);
  }

  /** An acknowledgement is right about what arrived, so the count reaches zero only at the end. */
  lemma AckKeeps(s: Sender, delivered: set<nat>, d: nat, n: int)
    requires SenderOk(s, delivered) && !s.flow.finished && delivered <= Below(s.flow.size)
    requires d in delivered && n < s.flow.tokenCount
    ensures var t := ReceiveAck(s, d, n);
            && t.flow.size == s.flow.size && t.flow.tokenCount == s.flow.tokenCount
            && if t.flow.finished then delivered == Below(s.flow.size) else SenderOk(t, delivered)
  {
    assert d < s.flow.size;
    if d !in s.flow.received {
      AckedOk(s.flow, d);
    }
  }

  lemma DeliverKeeps(s: System, m: Msg, p: Params)
    requires Inv(s) && m in s.net && !s.sender.flow.finished
    ensures Inv(Next(s, Deliver(m), p)) && Next(s, Deliver(m), p).sender.flow.size == s.sender.flow.size
  {
    assert InFlight(s, m);
    if m.Ack? {
      AckKeeps(s.sender, s.delivered, m.dataSeq, m.seqNo);
      var t := ReceiveAck(s.sender, m.dataSeq, m.seqNo);
      if !t.flow.finished {
        ArrivalKeepsPass(s.sender.flow, t.flow, s.pass);
      }
    } else {
      var d: nat := m.dataSeq;
      assert d in Below(s.sender.flow.size);
    }
  }

  lemma NextKeeps(s: System, step: Step, p: Params)
    requires Inv(s)
    ensures Inv(Next(s, step, p)) && Next(s, step, p).sender.flow.size == s.sender.flow.size
  {
    match step {
      case Lose(m) =>
      case Send(now) =>
        if !s.sender.flow.finished {
          SendKeeps(s, now, p);
        }
      case Deliver(m) =>
        if m in s.net && !s.sender.flow.finished {
          DeliverKeeps(s, m, p);
        }
    }
  }

  function RunFrom(s: System, steps: seq<Step>, p: Params): (r: System)
    requires Inv(s)
    ensures Inv(r) && r.sender.flow.size == s.sender.flow.size
    decreases |steps|
  {
    if steps == [] then s
    else
      NextKeeps(s, steps[0], p);
      RunFrom(Next(s, steps[0], p), steps[1..], p)
  }

  lemma FirstOk(src: nat, size: nat)
    requires size > 0
    ensures Inv(First(src, size))
  {
    var f := First(src, size).sender.flow;
    assert Beyond(f, -1) == Below(size);
    assert 0 in Below(size);
  }

  /** In every run a finished flow has had all its packets delivered, and an unfinished one counts exactly. */
  function Run(src: nat, size: nat, steps: seq<Step>, p: Params): (r: System)
    requires size > 0
    ensures if r.sender.flow.finished then forall x: nat | x < size :: x in r.delivered
            else r.sender.flow.received <= r.delivered && r.sender.remaining == size - |r.sender.flow.received| > 0
    ensures Inv(r)
  {
    FirstOk(src, size);
    RunFrom(First(src, size), steps, p)
  }

  /** When a wait starts, every packet has been acknowledged or was sent in the pass it closes. */
  lemma WaitMeansAllSent(s: System, p: Params, now: int)
    requires Inv(s) && !s.sender.flow.finished
    ensures var t := Next(s, Send(now), p);
            SendTurn(s.sender.flow, p, now).1.Sent? && t.pass.armed ==>
              && t.sender.flow.redundancy == now + p.resendTimeout
              && forall x: nat | x < t.sender.flow.size :: x in t.sender.flow.received || x in t.pass.given
  {
    SendKeepsPassOf(s.sender.flow, s.pass, p, now);
  }

  /**
   A visit that starts the wait has just closed a pass: nothing unacknowledged lies beyond the packet
   sent, and the next one would be the least unacknowledged.
   */
  lemma WaitClosesAPass(f: Flow, p: Params, now: int)
    requires f.Valid() && f.Incomplete() && p.resendTimeout > 0 && 0 <= now
    requires SendTurn(f, p, now).1.Sent?
    ensures var (g, v) := SendTurn(f, p, now);
            g.redundancy > now <==> forall x | v.dataSeq < x < f.size :: !f.Missing(x)
  {
    var before := Relaxed(Rested(f), p, now);
    assert SamePackets(f, before);
    var sent := IssueToken(before, now);
    ScanIsLeastAheadElseLeast(sent);
    assert forall x :: sent.Missing(x) <==> f.Missing(x);
  }

  // ---- What a visit and an acknowledgement change ----

  /**
   A visit sends exactly when neither the wait of a closed pass nor a full window's timeout is running;
   it sends the next packet unacknowledged.  A full window is closed to the window before one is sent,
   and a wait that has run out is forgotten.
   */
  lemma SendsExactlyWhen(f: Flow, p: Params, now: int)
    requires f.Valid() && f.Incomplete()
    ensures var (g, v) := SendTurn(f, p, now);
            && (v.Sent? <==> f.redundancy <= now && (Gap(f) <= p.window || f.latestSent + p.windowTimeout <= now))
            && (v.Sent? ==> v == Sent(NextSeq(f), f.tokenCount) && (g.last, g.tokenCount, g.latestSent) == (v.dataSeq, f.tokenCount + 1, now)
                            && Gap(g) == if Gap(f) <= p.window then Gap(f) + 1 else p.window + 1)
            && (g.redundancy >= now || g.redundancy <= 0)
            && (v.Blocked? ==> SamePackets(f, g) && Gap(g) == Gap(f)
                               && v.until == if f.redundancy > now then f.redundancy else f.latestSent + p.windowTimeout)
  {
    assert SamePackets(f, Relaxed(Rested(f), p, now));
  }

  /** An acknowledgement takes its packet off those missing, and the last one finishes the flow. */
  lemma AckCloses(s: Sender, delivered: set<nat>, d: nat, n: int)
    requires SenderOk(s, delivered) && !s.flow.finished && d < s.flow.size
    ensures var t := ReceiveAck(s, d, n);
            && (t.flow.finished <==> forall y :: s.flow.Missing(y) ==> y == d)
            && (!t.flow.finished ==> forall y :: t.flow.Missing(y) <==> s.flow.Missing(y) && y != d)
            && Gap(t.flow) == (if Gap(s.flow) < s.flow.tokenCount - n then Gap(s.flow) else s.flow.tokenCount - n)
  {
    IncompleteIsCount(s.flow);
    if d !in s.flow.received {
      AckedOk(s.flow, d);
      var acked := s.flow.received + {d};
      var g := s.flow.(received := acked, receivedUntil := Advance(acked, s.flow.size, s.flow.receivedUntil));
      IncompleteIsCount(g);
      assert forall y :: g.Missing(y) <==> s.flow.Missing(y) && y != d;
    } else {
      var y :| s.flow.Missing(y);
      assert y != d;
    }
  }

  // ---- The flow object ----

  class PimFlow {
    const src: nat
    const size: nat
    var ackReceived: set<nat>
    var ackUntil: nat
    var remainingPktsAtSender: int
    var largestSeqAck: int
    var lastDataSeqNumSent: int
    var nextSeqNo: int
    var redundancyCtrlTimeout: int
    var latestDataPktSendTime: int
    var finished: bool

    function Value(): Sender
      reads this
    {
      Sender(Flow(src, size, ackReceived, ackUntil, lastDataSeqNumSent, nextSeqNo, largestSeqAck, size,
                  redundancyCtrlTimeout, latestDataPktSendTime, finished), remainingPktsAtSender)
    }

    ghost predicate Valid()
      reads this
    {
      Value().flow.Valid()
    }

    constructor (src: nat, size: nat)
      requires 0 < size
      ensures Valid() && Value() == First(src, size).sender
    {
      this.src, this.size := src, size;
      ackReceived, ackUntil, remainingPktsAtSender, finished := {}, 0, size, false;
      largestSeqAck, lastDataSeqNumSent, nextSeqNo := -1, -1, 0;
      redundancyCtrlTimeout, latestDataPktSendTime := -1, -1;
    }

    method ReceiveAckPkt(dataSeq: nat, seqNo: int)
      requires Valid() && !finished && dataSeq < size
      modifies this
      ensures Value() == ReceiveAck(old(Value()), dataSeq, seqNo)
    {
      if dataSeq !in ackReceived {
        ackReceived := ackReceived + {dataSeq};
        ghost var g := Value();
        while ackUntil < size && ackUntil in ackReceived
          invariant ackUntil <= size && Value() == g.(flow := g.flow.(receivedUntil := ackUntil))
          invariant Advance(ackReceived, size, ackUntil) == Advance(ackReceived, size, g.flow.receivedUntil)
        {
          ackUntil := ackUntil + 1;
        }
        remainingPktsAtSender := remainingPktsAtSender - 1;
      }
      if largestSeqAck < seqNo {
        largestSeqAck := seqNo;
      }
      if remainingPktsAtSender == 0 {
        finished := true;
        ackReceived := {};
      }
    }

    /** While something is unacknowledged the scan finds it, and the fall-through is never taken. */
    method GetNextDataSeqNum() returns (dataSeq: nat)
      requires Valid() && Value().flow.Incomplete()
      ensures dataSeq == NextSeq(Value().flow)
    {
      var count := 0;
      dataSeq := (lastDataSeqNumSent + 1) % size;
      ghost var first := dataSeq;
      while count < size
        invariant 0 <= count < size && dataSeq < size
        invariant || (dataSeq == first + count && FirstMissing(ackReceived, size, first) == FirstMissing(ackReceived, size, dataSeq))
                  || (dataSeq == ackUntil && FirstMissing(ackReceived, size, first) == size)
        decreases size - count
      {
        if dataSeq !in ackReceived {
          return;
        }
        dataSeq := dataSeq + 1;
        if dataSeq >= size {
          dataSeq := ackUntil;
        }
        count := count + 1;
      }
      assert false;
    }

    method SendPendingData(now: int) returns (m: Msg)
      requires Valid() && Value().flow.Incomplete()
      modifies this
      ensures Valid() && Value() == old(Value()).(flow := IssueToken(old(Value()).flow, now))
      ensures m == Data(NextSeq(old(Value()).flow), old(nextSeqNo))
    {
      var dataSeq := GetNextDataSeqNum();
      m := Data(dataSeq, nextSeqNo);
      latestDataPktSendTime := now;
      lastDataSeqNumSent := dataSeq;
      nextSeqNo := nextSeqNo + 1;
    }

    /** A wait that has run out is over, and a window that stayed full too long is relaxed. */
    method Reopen(p: Params, now: int)
      requires Valid()
      modifies this
      ensures Valid() && Value() == old(Value()).(flow := Relaxed(Rested(old(Value()).flow), p, now))
    {
      if redundancyCtrlTimeout > 0 {
        redundancyCtrlTimeout := -1;
      }
      if nextSeqNo - largestSeqAck > p.window {
        if now >= latestDataPktSendTime + p.windowTimeout {
          largestSeqAck := nextSeqNo - p.window;
        }
      }
    }

    /** A packet is sent; when the next one would not move forward, a wait begins. */
    method SendAndArm(p: Params, now: int) returns (m: Msg)
      requires Valid() && Value().flow.Incomplete()
      modifies this
      ensures var f := old(Value()).flow;
              && Valid() && Value() == old(Value()).(flow := Armed(IssueToken(f, now), NextSeq(f), p, now))
              && m == Data(NextSeq(f), f.tokenCount)
    {
      var dataSeq := GetNextDataSeqNum();
      m := SendPendingData(now);
      var next := GetNextDataSeqNum();
      if dataSeq >= next {
        redundancyCtrlTimeout := now + p.resendTimeout;
      }
    }

    /** One visit of the host's send loop. */
    method Turn(p: Params, now: int) returns (sent: Option<Msg>)
      requires Valid() && Value().flow.Incomplete()
      modifies this
      ensures Valid() && Value() == old(Value()).(flow := SendTurn(old(Value()).flow, p, now).0)
      ensures match SendTurn(old(Value()).flow, p, now).1
              case Sent(d, n) => sent == Some(Data(d, n))
              case Blocked(_) => sent == None
    {
      sent := None;
      if redundancyCtrlTimeout > now {
        return;
      }
      Reopen(p, now);
      if nextSeqNo - largestSeqAck <= p.window {
        var m := SendAndArm(p, now);
        sent := Some(m);
      }
    }
  }

  // ---- Choosing a flow for the matched receiver ----

  /**
   The host's choice among its flows to one receiver.  A ready flow is found whenever there is one;
   otherwise the last flow looked at may be returned although its timer is still running, which the
   send loop notices.
   */
  method GetTopUnfinishFlow(flows: map<nat, Flow>, queue: seq<nat>, now: int) returns (best: Option<nat>, rest: seq<nat>)
    requires forall f | f in queue :: f in flows
    ensures HasReady(flows, queue, now) ==> best.Some?
    ensures best.Some? ==> best.value in flows && best.value in rest && !flows[best.value].finished
    ensures best.Some? && !Ready(flows[best.value], now) ==> !HasReady(flows, queue, now)
    ensures DropsOnlyFinished(flows, multiset(queue), multiset(rest))
  {
    best := None;
    var q, tried: seq<nat> := queue, [];
    assert multiset(q) + multiset(tried) == multiset(queue);
    while q != []
      invariant Split(flows, queue, q, tried, now)
      invariant best.Some? ==> best.value in tried && !flows[best.value].finished && flows[best.value].redundancy > now
      decreases |q|
    {
      var i :| 0 <= i < |q|;
      var f := q[i];
      SplitKnows(flows, queue, q, tried, now, i);
      best := Some(f);
      if flows[f].finished {
        best := None;
        q := RemoveAt(q, i);
      } else if flows[f].redundancy > now {
        tried := tried + [f];
        q := RemoveAt(q, i);
      } else {
        break;
      }
    }
    SplitEnds(flows, queue, q, tried, now);
    rest := q + tried;
  }
}
