/**
 The reliable window flow: one object holds both ends of a transfer.  Data is cut into segments of
 `mss` bytes, the last one shorter; the receiver answers every segment with a cumulative ack and the
 list of segments it holds beyond the first hole; one retransmission timer restarts the sender.
 */
module ReliableFlow {
  import opened Arithmetic

  /** `armed` says that the sender holds a timer, `timers` counts the live timers in the event queue. */
  datatype State = State(
    size: nat, mss: nat, maxCwnd: nat,
    nextSeq: nat, lastUnacked: nat, cwnd: nat, scoreboard: nat, armed: bool, timers: int,
    received: set<nat>, receivedBytes: nat, recvTill: nat, maxSeq: nat, finished: bool)

  datatype Msg = Data(seqNo: nat, bytes: nat) | Ack(ack: nat, sacks: seq<nat>)

  predicate Segment(f: State, s: nat)
    requires f.mss > 0
  {
    s < f.size && s % f.mss == 0
  }

  predicate Boundary(f: State, s: nat)
    requires f.mss > 0
  {
    s == f.size || Segment(f, s)
  }

  function SegmentBytes(f: State, s: nat): nat
    requires s <= f.size
  {
    if s + f.mss > f.size then f.size - s else f.mss
  }

  /** The boundary after `s`. */
  function After(f: State, s: nat): nat {
    if s + f.mss < f.size then s + f.mss else f.size
  }

  lemma GridStep(s: nat, m: nat)
    requires m > 0 && s % m == 0
    ensures (s + m) % m == 0
  {
    var q, q' := s / m, (s + m) / m;
    assert s + m == q' * m + (s + m) % m && s + m == (q + 1) * m;
    Scale(q + 2, q', m);
    Scale(q', q, m);
  }

  /** Two points of the grid are at least one step apart. */
  lemma GridGap(x: nat, y: nat, m: nat)
    requires m > 0 && x % m == 0 && y % m == 0 && x < y
    ensures x + m <= y
  {
    var a, b := x / m, y / m;
    assert x == a * m && y == b * m;
    assert a < b;
    assert (a + 1) * m <= b * m;
  }

  lemma AfterIsNext(f: State, s: nat)
    requires f.mss > 0 && Segment(f, s)
    ensures s < After(f, s) && Boundary(f, After(f, s)) && After(f, s) == s + SegmentBytes(f, s)
    ensures forall x: nat | Segment(f, x) && s < x :: After(f, s) <= x
  {
    GridStep(s, f.mss);
    forall x: nat | Segment(f, x) && s < x
      ensures After(f, s) <= x
    {
      GridGap(s, x, f.mss);
    }
  }

  // ---- Sending ----

  predicate InWindow(f: State, s: nat) {
    s + f.mss <= f.lastUnacked + f.cwnd * f.mss + f.scoreboard
  }

  /** The segments one call sends, from `s` on; the sender looks at what the receiver already has. */
  function Pending(f: State, s: nat): seq<nat>
    requires f.mss > 0
    decreases f.size - s
  {
    if s < f.size && InWindow(f, s) then (if s in f.received then [] else [s]) + Pending(f, After(f, s)) else []
  }

  function Reached(f: State, s: nat): nat
    requires f.mss > 0
    decreases f.size - s
  {
    if s < f.size && InWindow(f, s) then Reached(f, After(f, s)) else s
  }

  function Packets(f: State, segments: seq<nat>): (r: seq<Msg>)
    requires InRange(f, segments)
    ensures |r| == |segments|
  {
    seq(|segments|, i requires 0 <= i < |segments| => Data(segments[i], SegmentBytes(f, segments[i])))
  }

  lemma {:induction false} PendingInRange(f: State, s: nat)
    requires f.mss > 0
    ensures forall i | 0 <= i < |Pending(f, s)| :: s <= Pending(f, s)[i] < f.size
    ensures s <= f.size ==> s <= Reached(f, s) <= f.size
    decreases f.size - s
  {
    if s < f.size && InWindow(f, s) {
      PendingInRange(f, After(f, s));
    }
  }

  /** What goes out is exactly what lies in the window and is missing, in order and once each. */
  lemma {:induction false} PendingIsExact(f: State, s: nat)
    requires f.mss > 0 && Boundary(f, s)
    ensures forall x :: x in Pending(f, s) <==> Segment(f, x) && s <= x && InWindow(f, x) && x !in f.received
    ensures forall i, j | 0 <= i < j < |Pending(f, s)| :: Pending(f, s)[i] < Pending(f, s)[j]
    ensures Boundary(f, Reached(f, s)) && (Reached(f, s) < f.size ==> !InWindow(f, Reached(f, s)))
    ensures forall x: nat | Segment(f, x) && s <= x :: x < Reached(f, s) <==> InWindow(f, x)
    decreases f.size - s
  {
    if s < f.size && InWindow(f, s) {
      AfterIsNext(f, s);
      PendingIsExact(f, After(f, s));
      PendingInRange(f, After(f, s));
    }
  }

  function Arm(f: State): State {
    if f.lastUnacked < f.size then f.(armed := true, timers := f.timers + 1) else f
  }

  function Cancel(f: State): State {
    if f.armed then f.(armed := false, timers := f.timers - 1) else f
  }

  function SendPending(f: State): (State, seq<Msg>)
    requires f.mss > 0
  {
    PendingInRange(f, f.nextSeq);
    if f.receivedBytes < f.size && f.nextSeq < f.size && InWindow(f, f.nextSeq) then
      var g := f.(nextSeq := Reached(f, f.nextSeq));
      (if g.armed then g else Arm(g), Packets(f, Pending(f, f.nextSeq)))
    else (f, [])
  }

  // ---- Acks ----

  function Grown(f: State): State {
    f.(cwnd := if f.cwnd + 1 > f.maxCwnd then f.maxCwnd else f.cwnd + 1)
  }

  function NewAck(f: State, ack: nat): (State, seq<Msg>)
    requires f.mss > 0
  {
    var (g, out) := SendPending(Grown(f.(lastUnacked := ack)));
    (if g.armed then Arm(Cancel(g)) else g, out)
  }

  function OnAck(f: State, ack: nat, sacks: seq<nat>): (State, seq<Msg>)
    requires f.mss > 0
  {
    var g := f.(scoreboard := |sacks| * f.mss, nextSeq := if f.nextSeq < ack then ack else f.nextSeq);
    var (h, out) := if ack > g.lastUnacked then NewAck(g, ack) else (g, []);
    (if ack == h.size && !h.finished then h.(finished := true, received := {}) else h, out)
  }

  // ---- Data ----

  /** Where the longest received run from `s` ends. */
  function PrefixEnd(f: State, s: nat): (r: nat)
    requires f.mss > 0 && s <= f.size
    ensures s <= r <= f.size
    ensures r < f.size ==> r !in f.received
    decreases f.size - s
  {
    if s < f.size && s in f.received then PrefixEnd(f, After(f, s)) else s
  }

  function SacksFrom(f: State, s: nat): seq<nat>
    requires f.mss > 0
    decreases f.maxSeq + 1 - s
  {
    if s > f.maxSeq then [] else (if s in f.received then [s] else []) + SacksFrom(f, s + f.mss)
  }

  function Store(f: State, s: nat, bytes: nat): State {
    var g := if s in f.received then f else f.(received := f.received + {s}, receivedBytes := f.receivedBytes + bytes);
    g.(maxSeq := if s > g.maxSeq then s else g.maxSeq)
  }

  function ReceiveData(f: State, s: nat, bytes: nat): (r: (State, Msg))
    requires f.mss > 0 && f.recvTill <= f.size
    ensures r.1.Ack? && r.1.ack == r.0.recvTill
  {
    var g := Store(f, s, bytes);
    var till := PrefixEnd(g, g.recvTill);
    (g.(recvTill := till), Ack(till, SacksFrom(g, till)))
  }

  /** The timer fires: back to the first unacked byte with a window of one. */
  function Timeout(f: State): (State, seq<Msg>)
    requires f.mss > 0
  {
    var (g, out) := SendPending(f.(timers := f.timers - 1, nextSeq := f.lastUnacked, cwnd := 1));
    (if g.lastUnacked < g.size then Arm(g) else g.(armed := false), out)
  }

  // ---- What every run keeps ----

  function BytesFrom(f: State, s: nat): nat
    requires f.mss > 0
    decreases f.size - s
  {
    if s >= f.size then 0
    else (if s in f.received then SegmentBytes(f, s) else 0) + BytesFrom(f, After(f, s))
  }

  lemma {:induction false} BytesOneMore(f: State, x: nat, s: nat)
    requires f.mss > 0 && Segment(f, x) && x !in f.received && Boundary(f, s)
    ensures BytesFrom(f.(received := f.received + {x}), s) == BytesFrom(f, s) + if s <= x then SegmentBytes(f, x) else 0
    decreases f.size - s
  {
    if s < f.size {
      AfterIsNext(f, s);
      BytesOneMore(f, x, After(f, s));
    }
  }

  /** Bytes counted are all the bytes exactly when every segment is there. */
  lemma {:induction false} AllBytes(f: State, s: nat)
    requires f.mss > 0 && Boundary(f, s)
    ensures BytesFrom(f, s) <= f.size - s
    ensures BytesFrom(f, s) == f.size - s <==> forall x: nat | Segment(f, x) && s <= x :: x in f.received
    decreases f.size - s
  {
    if s < f.size {
      AfterIsNext(f, s);
      AllBytes(f, After(f, s));
    }
  }

  /** The receiver's half: what it holds, what it has counted, and where its prefix ends. */
  ghost predicate Received(f: State)
    requires f.mss > 0
  {
    && (forall x | x in f.received :: Segment(f, x) && x <= f.maxSeq)
    && f.maxSeq < f.size && f.receivedBytes == BytesFrom(f, 0)
    && (forall x: nat | Segment(f, x) && x < f.recvTill :: x in f.received)
    && (f.recvTill < f.size ==> f.recvTill !in f.received)
  }

  /** The sender's half, with one timer exactly while something is unacked. */
  ghost predicate Sending(f: State) {
    && f.mss > 0 && f.size > 0
    && f.lastUnacked <= f.recvTill <= f.size && f.lastUnacked <= f.nextSeq <= f.size
    && Boundary(f, f.lastUnacked) && Boundary(f, f.recvTill) && Boundary(f, f.nextSeq)
    && f.armed == (f.lastUnacked < f.size) && f.timers == (if f.armed then 1 else 0)
    && f.finished == (f.lastUnacked == f.size)
  }

  /** A finished flow has counted every byte and holds no packet any more. */
  ghost predicate Ok(f: State) {
    && Sending(f)
    && (if f.finished then f.receivedBytes == f.size && f.received == {} else Received(f))
  }

  /** Acks in flight never claim more than the receiver has. */
  ghost predicate InFlight(f: State, m: Msg)
    requires f.mss > 0
  {
    match m
    case Data(s, bytes) => Segment(f, s) && bytes == SegmentBytes(f, s)
    case Ack(ack, sacks) =>
      && ack <= f.recvTill && Boundary(f, ack)
      && (!f.finished ==> forall i | 0 <= i < |sacks| :: ack < sacks[i] && sacks[i] in f.received)
  }

  lemma SendPendingKeeps(f: State)
    requires f.mss > 0 && f.nextSeq <= f.size && Boundary(f, f.nextSeq) && f.lastUnacked <= f.nextSeq
    ensures var (g, out) := SendPending(f);
            && g == f.(nextSeq := g.nextSeq, armed := g.armed, timers := g.timers)
            && f.nextSeq <= g.nextSeq <= f.size && Boundary(f, g.nextSeq)
            && (f.armed ==> g.armed && g.timers == f.timers)
            && (!f.armed ==> g.timers == f.timers + (if g.armed then 1 else 0))
            && (g.armed && !f.armed ==> f.lastUnacked < f.size)
            && (forall i | 0 <= i < |out| :: out[i].Data? && InFlight(f, out[i]))
  {
    PendingInRange(f, f.nextSeq);
    ReachesABoundary(f, f.nextSeq);
    PacketsInFlight(f, f.nextSeq);
  }

  lemma ReachesABoundary(f: State, s: nat)
    requires f.mss > 0 && Boundary(f, s)
    ensures Boundary(f, Reached(f, s))
  {
    PendingIsExact(f, s);
  }

  lemma PacketsInFlight(f: State, s: nat)
    requires f.mss > 0 && Boundary(f, s)
    ensures forall i | 0 <= i < |Pending(f, s)| :: Segment(f, Pending(f, s)[i])
  {
    PendingIsExact(f, s);
    assert forall i | 0 <= i < |Pending(f, s)| :: Pending(f, s)[i] in Pending(f, s);
  }

  /** The sender's half, except that the flow has not been marked finished yet. */
  ghost predicate Acked(f: State) {
    Sending(f.(finished := f.lastUnacked == f.size)) && !f.finished
  }

  lemma NewAckKeeps(f: State, ack: nat)
    requires Acked(f) && f.lastUnacked < ack <= f.recvTill && ack <= f.nextSeq && Boundary(f, ack)
    ensures var (g, out) := NewAck(f, ack);
            && Acked(g) && g.lastUnacked == ack
            && g == f.(lastUnacked := ack, cwnd := g.cwnd, nextSeq := g.nextSeq, armed := g.armed, timers := g.timers)
            && (forall i | 0 <= i < |out| :: out[i].Data? && InFlight(f, out[i]))
  {
    SendPendingKeeps(Grown(f.(lastUnacked := ack)));
  }

  lemma AckKeeps(f: State, ack: nat, sacks: seq<nat>)
    requires Ok(f) && !f.finished && InFlight(f, Ack(ack, sacks))
    ensures var (g, out) := OnAck(f, ack, sacks);
            && Ok(g) && (g.size, g.mss, g.recvTill) == (f.size, f.mss, f.recvTill)
            && (!g.finished ==> g.received == f.received)
            && (forall i | 0 <= i < |out| :: out[i].Data? && InFlight(f, out[i]))
  {
    if ack > f.lastUnacked {
      NewAckKeeps(f.(scoreboard := |sacks| * f.mss, nextSeq := if f.nextSeq < ack then ack else f.nextSeq), ack);
    }
    if ack == f.size {
      AllBytes(f, 0);
    }
    BytesSame(f, OnAck(f, ack, sacks).0.(received := f.received), 0);
  }

  lemma {:induction false} BytesSame(f: State, g: State, s: nat)
    requires f.mss > 0 && (g.mss, g.size, g.received) == (f.mss, f.size, f.received)
    ensures BytesFrom(g, s) == BytesFrom(f, s)
    decreases f.size - s
  {
    if s < f.size {
      BytesSame(f, g, After(f, s));
    }
  }

  lemma {:induction false} PrefixIsLongest(f: State, s: nat)
    requires f.mss > 0 && Boundary(f, s)
    ensures Boundary(f, PrefixEnd(f, s))
    ensures forall x: nat | Segment(f, x) && s <= x < PrefixEnd(f, s) :: x in f.received
    decreases f.size - s
  {
    if s < f.size && s in f.received {
      AfterIsNext(f, s);
      PrefixIsLongest(f, After(f, s));
    }
  }

  lemma {:induction false} SacksAreExact(f: State, s: nat)
    requires f.mss > 0 && (forall x | x in f.received :: x % f.mss == 0 && x <= f.maxSeq)
    requires s % f.mss == 0 || s > f.maxSeq
    ensures forall x :: x in SacksFrom(f, s) <==> x in f.received && s <= x
    ensures forall i, j | 0 <= i < j < |SacksFrom(f, s)| :: SacksFrom(f, s)[i] < SacksFrom(f, s)[j]
    decreases f.maxSeq + 1 - s
  {
    if s <= f.maxSeq {
      GridStep(s, f.mss);
      SacksAreExact(f, s + f.mss);
      forall x | x in f.received && s < x
        ensures s + f.mss <= x
      {
        GridGap(s, x, f.mss);
      }
      var rest := SacksFrom(f, s + f.mss);
      assert forall i | 0 <= i < |rest| :: rest[i] in rest;
    }
  }

  /** `sacks` lists what is held beyond `till`, the end of the longest prefix held. */
  ghost predicate Reports(f: State, till: nat, sacks: seq<nat>)
    requires f.mss > 0
  {
    && (forall x: nat | Segment(f, x) && x < till :: x in f.received)
    && (till < f.size ==> till !in f.received)
    && (forall x :: x in sacks <==> x in f.received && till < x)
    && (forall i, j | 0 <= i < j < |sacks| :: sacks[i] < sacks[j])
  }

  lemma StoreKeeps(f: State, s: nat)
    requires Ok(f) && !f.finished && Segment(f, s)
    ensures var g := Store(f, s, SegmentBytes(f, s));
            && g == f.(received := f.received + {s}, receivedBytes := BytesFrom(g, 0), maxSeq := g.maxSeq)
            && (forall x | x in g.received :: Segment(g, x) && x <= g.maxSeq)
  {
    var g := Store(f, s, SegmentBytes(f, s));
    if s in f.received {
      assert f.received + {s} == f.received;
    } else {
      BytesOneMore(f, s, 0);
    }
    BytesSame(f.(received := f.received + {s}), g, 0);
  }

  lemma ReportsAll(g: State)
    requires g.mss > 0 && Boundary(g, g.recvTill) && g.maxSeq < g.size
    requires forall x | x in g.received :: Segment(g, x) && x <= g.maxSeq
    requires forall x: nat | Segment(g, x) && x < g.recvTill :: x in g.received
    ensures var till := PrefixEnd(g, g.recvTill); Boundary(g, till) && Reports(g, till, SacksFrom(g, till))
  {
    PrefixIsLongest(g, g.recvTill);
    SacksAreExact(g, PrefixEnd(g, g.recvTill));
  }

  /** Every data packet is answered with an exact report. */
  lemma AckIsExact(f: State, s: nat)
    requires Ok(f) && !f.finished && Segment(f, s)
    ensures var (g, m) := ReceiveData(f, s, SegmentBytes(f, s));
            g.received == f.received + {s} && g.mss == f.mss && Reports(g, m.ack, m.sacks) && Boundary(f, m.ack) && f.recvTill <= m.ack
  {
    var g := Store(f, s, SegmentBytes(f, s));
    StoreKeeps(f, s);
    ReportsAll(g);
  }

  lemma DataKeeps(f: State, s: nat)
    requires Ok(f) && !f.finished && Segment(f, s)
    ensures var (g, m) := ReceiveData(f, s, SegmentBytes(f, s));
            && Ok(g) && (g.size, g.mss, g.finished) == (f.size, f.mss, f.finished) && f.recvTill <= g.recvTill
            && f.received <= g.received && InFlight(g, m)
  {
    AckIsExact(f, s);
    StoreKeeps(f, s);
    var (h, m) := ReceiveData(f, s, SegmentBytes(f, s));
    BytesSame(Store(f, s, SegmentBytes(f, s)), h, 0);
    forall i | 0 <= i < |m.sacks|
      ensures m.ack < m.sacks[i] && m.sacks[i] in h.received
    {
      assert m.sacks[i] in m.sacks;
    }
  }

  lemma TimeoutKeeps(f: State)
    requires Ok(f) && f.timers > 0
    ensures var (g, out) := Timeout(f);
            && Ok(g) && (g.size, g.mss, g.recvTill, g.finished, g.received) == (f.size, f.mss, f.recvTill, f.finished, f.received)
            && (forall i | 0 <= i < |out| :: out[i].Data? && InFlight(f, out[i]))
  {
    var g := f.(timers := f.timers - 1, nextSeq := f.lastUnacked, cwnd := 1);
    SendPendingKeeps(g);
    BytesSame(f, Timeout(f).0, 0);
  }

  /** A send loop started in `f` has come to `s` and sent `sent`; the first turn makes sure a timer runs. */
  ghost predicate Progress(f: State, now: State, s: nat, sent: seq<nat>)
    requires f.mss > 0
  {
    && f.nextSeq <= s && sent + Pending(f, s) == Pending(f, f.nextSeq) && Reached(f, s) == Reached(f, f.nextSeq)
    && now == (if s == f.nextSeq || f.armed then f else Arm(f)).(nextSeq := s)
    && (s != f.nextSeq ==> f.nextSeq < f.size && InWindow(f, f.nextSeq))
  }

  lemma OneMoreSent(f: State, s: nat, sent: seq<nat>)
    requires f.mss > 0 && s < f.size && InWindow(f, s) && InRange(f, sent)
    ensures var sent' := if s in f.received then sent else sent + [s];
            && sent' + Pending(f, After(f, s)) == sent + Pending(f, s) && Reached(f, After(f, s)) == Reached(f, s)
            && Packets(f, sent') == if s in f.received then Packets(f, sent) else Packets(f, sent) + [Data(s, SegmentBytes(f, s))]
  {
  }

  ghost predicate InRange(f: State, segments: seq<nat>) {
    forall i | 0 <= i < |segments| :: segments[i] < f.size
  }

  lemma {:induction false} SacksIgnorePrefix(f: State, g: State, s: nat)
    requires f.mss > 0 && g == f.(recvTill := g.recvTill)
    ensures SacksFrom(g, s) == SacksFrom(f, s)
    decreases f.maxSeq + 1 - s
  {
    if s <= f.maxSeq {
      SacksIgnorePrefix(f, g, s + f.mss);
    }
  }

  // ---- The flow object ----

  function NewFlow(size: nat, mss: nat, cwnd: nat, maxCwnd: nat): State {
    State(size, mss, maxCwnd, 0, 0, cwnd, 0, false, 0, {}, 0, 0, 0, false)
  }

  /** A finished flow throws packets away. */
  function Handle(f: State, m: Msg): (State, seq<Msg>)
    requires f.mss > 0 && f.recvTill <= f.size
  {
    if f.finished then (f, [])
    else
      match m
      case Ack(ack, sacks) => OnAck(f, ack, sacks)
      case Data(s, bytes) =>
        var (g, reply) := ReceiveData(f, s, bytes);
        (g, [reply])
  }

  class Flow {
    const size: nat
    const mss: nat
    const maxCwnd: nat
    var nextSeqNo: nat
    var lastUnackedSeq: nat
    var cwndMss: nat
    var scoreboardSackBytes: nat
    var retxEvent: bool
    var liveTimers: int
    var received: set<nat>
    var receivedBytes: nat
    var recvTill: nat
    var maxSeqNoRecv: nat
    var finished: bool

    ghost function Value(): State
      reads this
    {
      State(size, mss, maxCwnd, nextSeqNo, lastUnackedSeq, cwndMss, scoreboardSackBytes, retxEvent, liveTimers,
            received, receivedBytes, recvTill, maxSeqNoRecv, finished)
    }

    constructor (size: nat, mss: nat, cwnd: nat, maxCwnd: nat)
      ensures Value() == NewFlow(size, mss, cwnd, maxCwnd)
    {
      this.size, this.mss, this.maxCwnd, cwndMss := size, mss, maxCwnd, cwnd;
      nextSeqNo, lastUnackedSeq, scoreboardSackBytes, retxEvent, liveTimers := 0, 0, 0, false, 0;
      received, receivedBytes, recvTill, maxSeqNoRecv, finished := {}, 0, 0, 0, false;
    }

    method SetTimeout()
      modifies this
      ensures Value() == Arm(old(Value()))
    {
      if lastUnackedSeq < size {
        liveTimers := liveTimers + 1;
        retxEvent := true;
      }
    }

    method CancelRetxEvent()
      modifies this
      ensures Value() == Cancel(old(Value()))
    {
      if retxEvent {
        liveTimers := liveTimers - 1;
      }
      retxEvent := false;
    }

    method IncreaseCwnd()
      modifies this
      ensures Value() == Grown(old(Value()))
    {
      cwndMss := cwndMss + 1;
      if cwndMss > maxCwnd {
        cwndMss := maxCwnd;
      }
    }

    method Send(seqNo: nat) returns (p: Msg)
      requires seqNo < size
      ensures p == Data(seqNo, SegmentBytes(Value(), seqNo))
    {
      p := Data(seqNo, if seqNo + mss > size then size - seqNo else mss);
    }

    method SendNext(ghost f: State, s: nat, out: seq<Msg>, ghost sent: seq<nat>) returns (s': nat, out': seq<Msg>, ghost sent': seq<nat>)
      requires mss > 0 && f.mss == mss && lastUnackedSeq <= s < size && InWindow(f, s)
      requires Progress(f, Value(), s, sent) && InRange(f, sent) && out == Packets(f, sent)
      modifies this
      ensures Progress(f, Value(), s', sent') && InRange(f, sent') && out' == Packets(f, sent')
      ensures s < s' <= size
    {
      OneMoreSent(f, s, sent);
      out', sent' := out, sent;
      if s !in received {
        var p := Send(s);
        out', sent' := out + [p], sent + [s];
      }
      if s + mss < size {
        nextSeqNo := s + mss;
        s' := s + mss;
      } else {
        nextSeqNo := size;
        s' := size;
      }
      if !retxEvent {
        SetTimeout();
      }
    }

    method SendPendingData() returns (out: seq<Msg>)
      requires mss > 0 && lastUnackedSeq <= nextSeqNo <= size
      modifies this
      ensures (Value(), out) == SendPending(old(Value()))
    {
      out := [];
      ghost var f, sent: seq<nat> := Value(), [];
      if receivedBytes < size {
        var s := nextSeqNo;
        var window := cwndMss * mss + scoreboardSackBytes;
        while s + mss <= lastUnackedSeq + window && (s + mss <= size || (s != size && size - s < mss))
          invariant lastUnackedSeq <= s <= size
          invariant Progress(f, Value(), s, sent) && InRange(f, sent) && out == Packets(f, sent)
          decreases size - s
        {
          s, out, sent := SendNext(f, s, out, sent);
        }
        assert sent + [] == sent;
      }
    }

    method ReceiveNewAck(ack: nat) returns (out: seq<Msg>)
      requires mss > 0 && lastUnackedSeq < ack <= nextSeqNo <= size
      modifies this
      ensures (Value(), out) == NewAck(old(Value()), ack)
    {
      lastUnackedSeq := ack;
      IncreaseCwnd();
      out := SendPendingData();
      if retxEvent {
        CancelRetxEvent();
        if lastUnackedSeq < size {
          SetTimeout();
        }
      }
    }

    method ReceiveAck(ack: nat, sackList: seq<nat>) returns (out: seq<Msg>)
      requires mss > 0 && nextSeqNo <= size && ack <= size
      modifies this
      ensures (Value(), out) == OnAck(old(Value()), ack, sackList)
    {
      out := [];
      scoreboardSackBytes := |sackList| * mss;
      if nextSeqNo < ack {
        nextSeqNo := ack;
      }
      if ack > lastUnackedSeq {
        out := ReceiveNewAck(ack);
      }
      if ack == size && !finished {
        finished := true;
        received := {};
      }
    }

    /** One pass over the segments from the end of the prefix on: extend the prefix, then list the rest. */
    method FindAck() returns (sackList: seq<nat>)
      requires mss > 0 && recvTill <= size && (forall x | x in received :: x <= maxSeqNoRecv) && maxSeqNoRecv < size
      modifies this`recvTill
      ensures recvTill == PrefixEnd(old(Value()), old(recvTill))
      ensures sackList == SacksFrom(old(Value()), recvTill)
    {
      ghost var f := Value();
      var s := recvTill;
      var inSequence := true;
      sackList := [];
      while s <= maxSeqNoRecv
        invariant recvTill <= size && PrefixEnd(f, recvTill) == PrefixEnd(f, f.recvTill)
        invariant inSequence ==> sackList == [] && recvTill == (if s < size then s else size)
        invariant !inSequence ==> recvTill !in received && recvTill < size && sackList + SacksFrom(f, s) == SacksFrom(f, recvTill)
        decreases maxSeqNoRecv + 1 - s
      {
        if s in received {
          if inSequence {
            recvTill := if recvTill + mss > size then size else recvTill + mss;
          } else {
            sackList := sackList + [s];
          }
        } else {
          inSequence := false;
        }
        s := s + mss;
      }
      assert sackList + [] == sackList;
    }

    method ReceiveDataPkt(seqNo: nat, bytes: nat) returns (reply: Msg)
      requires mss > 0 && recvTill <= size && seqNo < size && (forall x | x in received :: x <= maxSeqNoRecv) && maxSeqNoRecv < size
      modifies this
      ensures (Value(), reply) == ReceiveData(old(Value()), seqNo, bytes)
    {
      if seqNo !in received {
        received := received + {seqNo};
        receivedBytes := receivedBytes + bytes;
      }
      if seqNo > maxSeqNoRecv {
        maxSeqNoRecv := seqNo;
      }
      ghost var g := Value();
      assert g == Store(old(Value()), seqNo, bytes);
      var sackList := FindAck();
      SacksIgnorePrefix(g, Value(), recvTill);
      reply := Ack(recvTill, sackList);
    }

    /** The timer has just fired; the pointer still names it until a new one is set. */
    method HandleTimeout() returns (out: seq<Msg>)
      requires mss > 0 && lastUnackedSeq <= size
      modifies this
      ensures (Value(), out) == Timeout(old(Value()))
    {
      liveTimers := liveTimers - 1;
      nextSeqNo := lastUnackedSeq;
      cwndMss := 1;
      out := SendPendingData();
      SetTimeout();
      if lastUnackedSeq >= size {
        retxEvent := false;
      }
    }

    /** A packet of this flow arrives at either end. */
    method Receive(m: Msg) returns (out: seq<Msg>)
      requires Ok(Value()) && InFlight(Value(), m)
      modifies this
      ensures (Value(), out) == Handle(old(Value()), m)
    {
      out := [];
      if !finished {
        match m {
          case Ack(ack, sacks) =>
            out := ReceiveAck(ack, sacks);
          case Data(seqNo, bytes) =>
            var reply := ReceiveDataPkt(seqNo, bytes);
            out := [reply];
        }
      }
    }
  }
}
