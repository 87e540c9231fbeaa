/**
 The pFabric switch queue: on overflow the packet with the largest priority number goes, on departure
 the flow of the packet with the smallest one is served, oldest packet first.
 */
module PFabricQueue {
  import opened Arithmetic
  import opened Options
  import opened PriorityQueue

  const UINT_MAX := 0xFFFF_FFFF

  datatype Packet = Packet(flow: nat, priority: nat, size: nat)

  /** The queue with its counters. */
  datatype State = State(
    packets: seq<Packet>, bytes: int, pArrivals: nat, bArrivals: nat, pDepartures: nat, bDepartures: nat, drops: nat)

  function TotalSize(ps: seq<Packet>): nat {
    if ps == [] then 0 else TotalSize(ps[..|ps| - 1]) + ps[|ps| - 1].size
  }

  lemma {:induction false} TotalSizeRemove(ps: seq<Packet>, i: nat)
    requires i < |ps|
    ensures TotalSize(ps) == TotalSize(RemoveAt(ps, i)) + ps[i].size
  {
    var n := |ps| - 1;
    if i == n {
      assert RemoveAt(ps, i) == ps[..n];
    } else {
      TotalSizeRemove(ps[..n], i);
      assert RemoveAt(ps, i)[..n - 1] == RemoveAt(ps[..n], i);
    }
  }

  /** The packet to drop: the last of those with the largest priority number. */
  function WorstIndex(ps: seq<Packet>): (k: nat)
    requires ps != []
    ensures k < |ps|
    ensures forall i | 0 <= i < |ps| :: ps[i].priority <= ps[k].priority
    ensures forall i | k < i < |ps| :: ps[i].priority < ps[k].priority
  {
    var n := |ps| - 1;
    if n == 0 then 0
    else
      var k := WorstIndex(ps[..n]);
      if ps[n].priority >= ps[k].priority then n else k
  }

  /** The most urgent packet, the first of its kind; the largest priority number is not seen at all. */
  function BestPacket(ps: seq<Packet>): (r: Option<nat>)
    ensures r.None? <==> forall i | 0 <= i < |ps| :: ps[i].priority >= UINT_MAX
    ensures r.Some? ==> r.value < |ps| && ps[r.value].priority < UINT_MAX
    ensures r.Some? ==> forall i | 0 <= i < |ps| :: ps[r.value].priority <= ps[i].priority
    ensures r.Some? ==> forall i | 0 <= i < r.value :: ps[r.value].priority < ps[i].priority
  {
    if ps == [] then None
    else
      var n := |ps| - 1;
      match BestPacket(ps[..n])
      case None => if ps[n].priority < UINT_MAX then Some(n) else None
      case Some(k) => Some(if ps[n].priority < ps[k].priority then n else k)
  }

  function FirstOfFlow(ps: seq<Packet>, flow: nat): (k: nat)
    requires exists i :: 0 <= i < |ps| && ps[i].flow == flow
    ensures k < |ps| && ps[k].flow == flow
    ensures forall i | 0 <= i < k :: ps[i].flow != flow
  {
    if ps[0].flow == flow then 0 else 1 + FirstOfFlow(ps[1..], flow)
  }

  /** What `deque` does; the last outcome is the source's null pointer dereference. */
  datatype Choice = Empty | Serve(index: nat) | NoUrgentPacket

  function Choose(s: State): (r: Choice)
    ensures r.Serve? ==> r.index < |s.packets|
  {
    if s.bytes <= 0 then Empty
    else
      match BestPacket(s.packets)
      case None => NoUrgentPacket
      case Some(k) => Serve(FirstOfFlow(s.packets, s.packets[k].flow))
  }

  /** Packet `k` is the most urgent, and the first of these. */
  ghost predicate IsBest(ps: seq<Packet>, k: int) {
    && 0 <= k < |ps| && (forall i | 0 <= i < |ps| :: ps[k].priority <= ps[i].priority)
    && forall i | 0 <= i < k :: ps[k].priority < ps[i].priority
  }

  /** The served packet is the oldest of its flow, and its flow holds the first of the most urgent packets. */
  lemma ServesTheUrgentFlow(s: State)
    ensures var c := Choose(s);
            && (c.Empty? <==> s.bytes <= 0)
            && (c.NoUrgentPacket? <==> s.bytes > 0 && forall i | 0 <= i < |s.packets| :: s.packets[i].priority >= UINT_MAX)
            && (c.Serve? ==> (exists i :: 0 <= i < |s.packets| && s.packets[i].flow == s.packets[c.index].flow
                                       && IsBest(s.packets, i))
                             && forall i | 0 <= i < c.index :: s.packets[i].flow != s.packets[c.index].flow)
  {
    var best := BestPacket(s.packets);
    if s.bytes > 0 && best.Some? {
      assert s.packets[best.value].flow == s.packets[Choose(s).index].flow && IsBest(s.packets, best.value);
    }
  }

  function Arrive(s: State, p: Packet): State {
    s.(packets := s.packets + [p], bytes := s.bytes + p.size, pArrivals := s.pArrivals + 1, bArrivals := s.bArrivals + p.size)
  }

  function Drop(s: State): State
    requires s.packets != []
  {
    var k := WorstIndex(s.packets);
    s.(packets := RemoveAt(s.packets, k), bytes := s.bytes - s.packets[k].size, drops := s.drops + 1)
  }

  /** Every arrival is let in, then at most one packet goes. */
  function Enque(s: State, p: Packet, limit: nat): State {
    if Arrive(s, p).bytes > limit then Drop(Arrive(s, p)) else Arrive(s, p)
  }

  /** Packet `k` is the one to go: of the largest priority number, and the last of these. */
  ghost predicate IsWorst(ps: seq<Packet>, k: nat) {
    && k < |ps| && (forall i | 0 <= i < |ps| :: ps[i].priority <= ps[k].priority)
    && forall i | k < i < |ps| :: ps[i].priority < ps[k].priority
  }

  /**
   Within the limit an arrival joins the others and nothing leaves; above it exactly the worst packet
   leaves, which may be the new one, and is no longer counted.
   */
  lemma EnqueDropsExactlyWhen(s: State, p: Packet, limit: nat)
    ensures var t, all, bytes := Enque(s, p, limit), s.packets + [p], s.bytes + p.size;
            && t.pArrivals == s.pArrivals + 1 && t.bArrivals == s.bArrivals + p.size
            && (t.pDepartures, t.bDepartures) == (s.pDepartures, s.bDepartures)
            && if bytes <= limit then t.packets == all && t.bytes == bytes && t.drops == s.drops
               else t.drops == s.drops + 1 && exists k: nat ::
                 IsWorst(all, k) && t.packets == all[..k] + all[k + 1..] && t.bytes == bytes - all[k].size
  {
    var all := s.packets + [p];
    assert IsWorst(all, WorstIndex(all));
  }

  function Depart(s: State, k: nat): State
    requires k < |s.packets|
  {
    var p := s.packets[k];
    s.(packets := RemoveAt(s.packets, k), bytes := s.bytes - p.size, pDepartures := s.pDepartures + 1, bDepartures := s.bDepartures + p.size)
  }

  // ---- Whole runs, with every packet known by its arrival number ----

  datatype Op = Put(p: Packet) | Get

  /** `when[i]` is the arrival number of the packet at position `i`. */
  datatype System = System(q: State, arrived: seq<Packet>, when: seq<nat>, left: seq<nat>, dropped: seq<nat>)

  const EMPTY := System(State([], 0, 0, 0, 0, 0, 0), [], [], [], [])

  function Put1(s: System, p: Packet, limit: nat): (r: System)
    requires |s.when| == |s.q.packets|
    ensures |r.when| == |r.q.packets|
  {
    var when := s.when + [|s.arrived|];
    if s.q.bytes + p.size > limit then
      var k := WorstIndex(s.q.packets + [p]);
      System(Enque(s.q, p, limit), s.arrived + [p], RemoveAt(when, k), s.left, s.dropped + [when[k]])
    else System(Enque(s.q, p, limit), s.arrived + [p], when, s.left, s.dropped)
  }

  function Get1(s: System): (r: System)
    requires |s.when| == |s.q.packets|
    ensures |r.when| == |r.q.packets|
  {
    match Choose(s.q)
    case Serve(k) => System(Depart(s.q, k), s.arrived, RemoveAt(s.when, k), s.left + [s.when[k]], s.dropped)
    case _ => s
  }

  function Next(s: System, op: Op, limit: nat): (r: System)
    requires |s.when| == |s.q.packets|
    ensures |r.when| == |r.q.packets|
  {
    match op
    case Put(p) => Put1(s, p, limit)
    case Get => Get1(s)
  }

  /** The queue holds arrivals in order, under their numbers. */
  ghost predicate Queued(arrived: seq<Packet>, when: seq<nat>, packets: seq<Packet>) {
    && |when| == |packets| && Known(arrived, when)
    && (forall i | 0 <= i < |when| :: arrived[when[i]] == packets[i])
    && (forall i, j | 0 <= i < j < |when| :: when[i] < when[j])
  }

  ghost predicate Known(arrived: seq<Packet>, numbers: seq<nat>) {
    forall i | 0 <= i < |numbers| :: numbers[i] < |arrived|
  }

  predicate SameFlow(arrived: seq<Packet>, a: nat, b: nat) {
    a < |arrived| && b < |arrived| && arrived[a].flow == arrived[b].flow
  }

  /** Packets of one flow have left in arrival order, and before those still queued. */
  ghost predicate InFlowOrder(arrived: seq<Packet>, when: seq<nat>, left: seq<nat>) {
    && Known(arrived, left)
    && (forall i, j | 0 <= i < j < |left| && SameFlow(arrived, left[i], left[j]) :: left[i] < left[j])
    && (forall i, j | 0 <= i < |left| && 0 <= j < |when| && SameFlow(arrived, left[i], when[j]) :: left[i] < when[j])
  }

  /** Every arrival is in exactly one place, exactly once. */
  ghost predicate Conserved(n: nat, when: seq<nat>, left: seq<nat>, dropped: seq<nat>) {
    multiset(when) + multiset(left) + multiset(dropped) == multiset(Numbers(n))
  }

  function Numbers(n: nat): (r: seq<nat>)
    ensures |r| == n && forall i | 0 <= i < n :: r[i] == i
  {
    seq(n, i => i)
  }

  /** The size of the arrivals with these numbers. */
  function SizeOf(arrived: seq<Packet>, numbers: seq<nat>): nat {
    if numbers == [] then 0
    else
      var n := numbers[|numbers| - 1];
      SizeOf(arrived, numbers[..|numbers| - 1]) + if n < |arrived| then arrived[n].size else 0
  }

  lemma {:induction false} SizeOfStays(arrived: seq<Packet>, p: Packet, numbers: seq<nat>)
    requires Known(arrived, numbers)
    ensures SizeOf(arrived + [p], numbers) == SizeOf(arrived, numbers)
  {
    if numbers != [] {
      SizeOfStays(arrived, p, numbers[..|numbers| - 1]);
    }
  }

  /** The counters say what happened. */
  ghost predicate Counted(s: System) {
    && s.q.bytes == TotalSize(s.q.packets)
    && s.q.pArrivals == |s.arrived| && s.q.bArrivals == TotalSize(s.arrived)
    && s.q.bDepartures == SizeOf(s.arrived, s.left)
    && s.q.pDepartures == |s.left| && s.q.drops == |s.dropped|
    && s.q.pArrivals == s.q.pDepartures + s.q.drops + |s.q.packets|
  }

  ghost predicate Inv(s: System) {
    Queued(s.arrived, s.when, s.q.packets) && InFlowOrder(s.arrived, s.when, s.left)
    && Conserved(|s.arrived|, s.when, s.left, s.dropped) && Counted(s)
  }

  lemma QueuedAppend(arrived: seq<Packet>, when: seq<nat>, packets: seq<Packet>, left: seq<nat>, p: Packet)
    requires Queued(arrived, when, packets) && InFlowOrder(arrived, when, left)
    ensures Queued(arrived + [p], when + [|arrived|], packets + [p])
    ensures InFlowOrder(arrived + [p], when + [|arrived|], left)
  {
    forall i, j | 0 <= i < j < |left| && SameFlow(arrived + [p], left[i], left[j])
      ensures left[i] < left[j]
    {
      assert SameFlow(arrived, left[i], left[j]);
    }
    forall i, j | 0 <= i < |left| && 0 <= j < |when| && SameFlow(arrived + [p], left[i], when[j])
      ensures left[i] < when[j]
    {
      assert SameFlow(arrived, left[i], when[j]);
    }
  }

  lemma Removed<T>(v: seq<T>, k: nat)
    requires k < |v|
    ensures |RemoveAt(v, k)| == |v| - 1
    ensures forall i | 0 <= i < |v| - 1 :: RemoveAt(v, k)[i] == v[if i < k then i else i + 1]
  {
  }

  lemma QueuedRemove(arrived: seq<Packet>, when: seq<nat>, packets: seq<Packet>, left: seq<nat>, k: nat)
    requires Queued(arrived, when, packets) && InFlowOrder(arrived, when, left) && k < |when|
    ensures Queued(arrived, RemoveAt(when, k), RemoveAt(packets, k))
    ensures InFlowOrder(arrived, RemoveAt(when, k), left)
  {
    Removed(when, k);
    Removed(packets, k);
  }

  /** The oldest queued packet of its flow may leave. */
  lemma LeavesInOrder(arrived: seq<Packet>, when: seq<nat>, packets: seq<Packet>, left: seq<nat>, k: nat)
    requires Queued(arrived, when, packets) && InFlowOrder(arrived, when, left) && k < |when|
    requires forall i | 0 <= i < k :: packets[i].flow != packets[k].flow
    ensures InFlowOrder(arrived, RemoveAt(when, k), left + [when[k]])
  {
    QueuedRemove(arrived, when, packets, left, k);
    Removed(when, k);
    var rest := RemoveAt(when, k);
    forall j | 0 <= j < |rest| && SameFlow(arrived, when[k], rest[j])
      ensures when[k] < rest[j]
    {
      var was := if j < k then j else j + 1;
      assert rest[j] == when[was] && arrived[when[was]] == packets[was];
    }
  }

  lemma PutKeepsOrder(s: System, p: Packet, limit: nat)
    requires Queued(s.arrived, s.when, s.q.packets) && InFlowOrder(s.arrived, s.when, s.left)
    ensures var t := Put1(s, p, limit); Queued(t.arrived, t.when, t.q.packets) && InFlowOrder(t.arrived, t.when, t.left)
  {
    QueuedAppend(s.arrived, s.when, s.q.packets, s.left, p);
    var q := Arrive(s.q, p);
    QueuedRemove(s.arrived + [p], s.when + [|s.arrived|], q.packets, s.left, WorstIndex(q.packets));
  }

  lemma GetKeepsOrder(s: System)
    requires Queued(s.arrived, s.when, s.q.packets) && InFlowOrder(s.arrived, s.when, s.left)
    ensures var t := Get1(s); Queued(t.arrived, t.when, t.q.packets) && InFlowOrder(t.arrived, t.when, t.left)
  {
    ServesTheUrgentFlow(s.q);
    var c := Choose(s.q);
    if c.Serve? {
      QueuedRemove(s.arrived, s.when, s.q.packets, s.left, c.index);
      LeavesInOrder(s.arrived, s.when, s.q.packets, s.left, c.index);
    }
  }

  lemma ArrivalConserves(n: nat, when: seq<nat>, left: seq<nat>, dropped: seq<nat>)
    requires Conserved(n, when, left, dropped)
    ensures Conserved(n + 1, when + [n], left, dropped)
  {
    assert Numbers(n + 1) == Numbers(n) + [n];
    assert multiset(when + [n]) == multiset(when) + multiset{n};
  }

  lemma DropConserves(n: nat, when: seq<nat>, left: seq<nat>, dropped: seq<nat>, k: nat)
    requires Conserved(n, when, left, dropped) && k < |when|
    ensures Conserved(n, RemoveAt(when, k), left, dropped + [when[k]])
  {
    RemoveAtMultiset(when, k);
    assert multiset(dropped + [when[k]]) == multiset(dropped) + multiset{when[k]};
  }

  lemma DepartureConserves(n: nat, when: seq<nat>, left: seq<nat>, dropped: seq<nat>, k: nat)
    requires Conserved(n, when, left, dropped) && k < |when|
    ensures Conserved(n, RemoveAt(when, k), left + [when[k]], dropped)
  {
    RemoveAtMultiset(when, k);
    assert multiset(left + [when[k]]) == multiset(left) + multiset{when[k]};
  }

  lemma NextConserves(s: System, op: Op, limit: nat)
    requires |s.when| == |s.q.packets| && Conserved(|s.arrived|, s.when, s.left, s.dropped)
    ensures var t := Next(s, op, limit); Conserved(|t.arrived|, t.when, t.left, t.dropped)
  {
    match op {
      case Get =>
        var c := Choose(s.q);
        if c.Serve? {
          DepartureConserves(|s.arrived|, s.when, s.left, s.dropped, c.index);
        }
      case Put(p) =>
        var q := Arrive(s.q, p);
        ArrivalConserves(|s.arrived|, s.when, s.left, s.dropped);
        if q.bytes > limit {
          DropConserves(|s.arrived| + 1, s.when + [|s.arrived|], s.left, s.dropped, WorstIndex(q.packets));
        }
    }
  }

  lemma NextCounts(s: System, op: Op, limit: nat)
    requires Queued(s.arrived, s.when, s.q.packets) && Known(s.arrived, s.left) && Counted(s)
    ensures Counted(Next(s, op, limit))
  {
    match op {
      case Get => GetCounts(s, limit);
      case Put(p) => PutCounts(s, p, limit);
    }
  }

  lemma GetCounts(s: System, limit: nat)
    requires Queued(s.arrived, s.when, s.q.packets) && Counted(s)
    ensures Counted(Next(s, Get, limit))
  {
    var c := Choose(s.q);
    if c.Serve? {
      TotalSizeRemove(s.q.packets, c.index);
      assert (s.left + [s.when[c.index]])[..|s.left|] == s.left;
    }
  }

  lemma PutCounts(s: System, p: Packet, limit: nat)
    requires |s.when| == |s.q.packets| && Counted(s) && Known(s.arrived, s.left)
    ensures Counted(Next(s, Put(p), limit))
  {
    var q := Arrive(s.q, p);
    SizeOfStays(s.arrived, p, s.left);
    assert q.packets[..|s.q.packets|] == s.q.packets;
    assert (s.arrived + [p])[..|s.arrived|] == s.arrived;
    TotalSizeRemove(q.packets, WorstIndex(q.packets));
  }

  /** Every reachable queue is in order, loses nothing, and counts right. */
  function Run(ops: seq<Op>, limit: nat): (s: System)
    ensures Inv(s)
  {
    if ops == [] then EMPTY
    else
      var s := Run(ops[..|ops| - 1], limit);
      var op := ops[|ops| - 1];
      InvKept(s, op, limit);
      Next(s, op, limit)
  }

  lemma InvKept(s: System, op: Op, limit: nat)
    requires Inv(s)
    ensures Inv(Next(s, op, limit))
  {
    NextCounts(s, op, limit);
    NextConserves(s, op, limit);
    match op {
      case Put(p) =>
        PutKeepsOrder(s, p, limit);
      case Get =>
        GetKeepsOrder(s);
    }
  }

  // ---- How full the queue gets ----

  ghost predicate SizesWithin(ops: seq<Op>, least: nat, most: nat) {
    forall i | 0 <= i < |ops| && ops[i].Put? :: least <= ops[i].p.size <= most
  }

  ghost predicate AllWithin(ps: seq<Packet>, least: nat, most: nat) {
    forall i | 0 <= i < |ps| :: least <= ps[i].size <= most
  }

  lemma {:induction false} TotalSizeWithin(ps: seq<Packet>, least: nat, most: nat)
    requires AllWithin(ps, least, most)
    ensures |ps| * least <= TotalSize(ps) <= |ps| * most
  {
    if ps != [] {
      TotalSizeWithin(ps[..|ps| - 1], least, most);
      Distribute(|ps| - 1, 1, least);
      Distribute(|ps| - 1, 1, most);
    }
  }

  ghost predicate Fits(q: State, limit: nat, least: nat, most: nat) {
    AllWithin(q.packets, least, most) && |q.packets| * least <= limit
  }

  lemma {:induction false} NeverMorePacketsThanFit(ops: seq<Op>, limit: nat, least: nat, most: nat)
    requires SizesWithin(ops, least, most)
    ensures Fits(Run(ops, limit).q, limit, least, most)
  {
    if ops != [] {
      var n := |ops| - 1;
      NeverMorePacketsThanFit(ops[..n], limit, least, most);
      var s := Run(ops[..n], limit);
      assert Run(ops, limit) == Next(s, ops[n], limit);
      match ops[n] {
        case Put(p) => PutFits(s, p, limit, least, most);
        case Get => GetFits(s, limit, least, most);
      }
    }
  }

  lemma GetFits(s: System, limit: nat, least: nat, most: nat)
    requires |s.when| == |s.q.packets| && Fits(s.q, limit, least, most)
    ensures Fits(Get1(s).q, limit, least, most)
  {
    var c := Choose(s.q);
    if c.Serve? {
      Removed(s.q.packets, c.index);
      Scale(|s.q.packets| - 1, |s.q.packets|, least);
    }
  }

  lemma PutFits(s: System, p: Packet, limit: nat, least: nat, most: nat)
    requires |s.when| == |s.q.packets| && s.q.bytes == TotalSize(s.q.packets)
    requires Fits(s.q, limit, least, most) && least <= p.size <= most
    ensures Fits(Put1(s, p, limit).q, limit, least, most)
  {
    var q := Arrive(s.q, p);
    assert q.packets[..|s.q.packets|] == s.q.packets;
    TotalSizeWithin(q.packets, least, most);
    Removed(q.packets, WorstIndex(q.packets));
  }

  lemma QuotientBounds(n: nat, least: nat, most: nat, limit: nat)
    requires 0 < least && n * least <= limit
    ensures n <= limit / least && n * most <= limit / least * most && limit / least * least <= limit
  {
    var q := limit / least;
    Scale(q + 1, n, least);
    Scale(n, q, most);
  }

  /** With sizes in `[least, most]` the queue never holds more than limit/least packets, nor that many largest ones. */
  lemma QueueIsBounded(ops: seq<Op>, limit: nat, least: nat, most: nat)
    requires 0 < least <= most && SizesWithin(ops, least, most)
    ensures var q := Run(ops, limit).q; |q.packets| <= limit / least && q.bytes <= limit / least * most
    ensures least == most ==> Run(ops, limit).q.bytes <= limit
  {
    NeverMorePacketsThanFit(ops, limit, least, most);
    var q := Run(ops, limit).q;
    TotalSizeWithin(q.packets, least, most);
    QuotientBounds(|q.packets|, least, most, limit);
  }

  lemma RoomForOne(s: System, p: Packet, limit: nat)
    requires |s.when| == |s.q.packets| && s.q.bytes + p.size <= limit
    ensures var q := Next(s, Put(p), limit).q; q.packets == s.q.packets + [p] && q.bytes == s.q.bytes + p.size
  {
  }

  /** Mixed sizes do exceed the limit. */
  lemma LimitExceeded()
    ensures var s := Next(Next(EMPTY, Put(Packet(0, 9, 1)), 10), Put(Packet(0, 8, 1)), 10);
            Next(s, Put(Packet(1, 1, 10)), 10).q.bytes == 11
  {
    var a, b, c := Packet(0, 9, 1), Packet(0, 8, 1), Packet(1, 1, 10);
    RoomForOne(EMPTY, a, 10);
    RoomForOne(Next(EMPTY, Put(a), 10), b, 10);
    assert [] + [a] + [b] == [a, b];
    WorstOfThree(a, b, c);
  }

  lemma WorstOfThree(a: Packet, b: Packet, c: Packet)
    requires a.priority > b.priority && a.priority > c.priority
    ensures WorstIndex([a, b] + [c]) == 0
  {
    var ps := [a, b] + [c];
    assert ps[0] == a && ps[1] == b && ps[2] == c;
  }

  // ---- When the byte limit holds ----

  function Repeat(p: Packet, n: nat): (r: seq<Packet>)
    ensures |r| == n && forall i | 0 <= i < n :: r[i] == p
  {
    seq(n, _ => p)
  }

  /** Small packets in front that are dropped first, large ones behind. */
  function Mixed(least: nat, a: nat, most: nat, b: nat): (r: seq<Packet>)
    ensures |r| == a + b
    ensures forall i | 0 <= i < a + b :: r[i] == if i < a then Packet(0, 2, least) else Packet(0, 1, most)
  {
    Repeat(Packet(0, 2, least), a) + Repeat(Packet(0, 1, most), b)
  }

  lemma RunOneMore(ops: seq<Op>, op: Op, limit: nat)
    ensures Run(ops + [op], limit) == Next(Run(ops, limit), op, limit)
  {
    assert (ops + [op])[..|ops|] == ops;
  }

  lemma SmallFits(s: System, limit: nat, least: nat, most: nat, a: nat)
    requires |s.when| == |s.q.packets| && s.q.bytes == TotalSize(s.q.packets)
    requires s.q.packets == Mixed(least, a, most, 0) && (a + 1) * least <= limit
    ensures Next(s, Put(Packet(0, 2, least)), limit).q.packets == Mixed(least, a + 1, most, 0)
  {
    var p := Packet(0, 2, least);
    var q := Arrive(s.q, p);
    assert q.packets == Mixed(least, a + 1, most, 0);
    assert q.packets[..a] == s.q.packets;
    TotalSizeWithin(q.packets, least, least);
  }

  lemma WorstOfMixed(least: nat, a: nat, most: nat, b: nat)
    requires 0 < a
    ensures WorstIndex(Mixed(least, a, most, b)) == a - 1
    ensures RemoveAt(Mixed(least, a, most, b), a - 1) == Mixed(least, a - 1, most, b)
  {
    var ps := Mixed(least, a, most, b);
    assert ps[a - 1].priority == 2;
    Removed(ps, a - 1);
  }

  /** A large packet overflows a queue that holds as many packets as fit, and pushes out a small one. */
  lemma LargeReplacesSmall(s: System, limit: nat, least: nat, most: nat, a: nat, b: nat, n: nat)
    requires |s.when| == |s.q.packets| && s.q.bytes == TotalSize(s.q.packets)
    requires s.q.packets == Mixed(least, a, most, b) && 0 < a && least <= most && n == a + b + 1 && limit < n * least
    ensures Next(s, Put(Packet(0, 1, most)), limit).q.packets == Mixed(least, a - 1, most, b + 1)
  {
    var p := Packet(0, 1, most);
    var q := Arrive(s.q, p);
    assert q.packets == Mixed(least, a, most, b + 1);
    assert q.packets[..a + b] == s.q.packets;
    TotalSizeWithin(q.packets, least, most);
    WorstOfMixed(least, a, most, b + 1);
  }

  lemma OneMoreWithin(ops: seq<Op>, p: Packet, least: nat, most: nat)
    requires SizesWithin(ops, least, most) && least <= p.size <= most
    ensures SizesWithin(ops + [Put(p)], least, most)
  {
  }

  lemma {:induction false} FillWithSmall(limit: nat, least: nat, most: nat, a: nat) returns (ops: seq<Op>)
    requires least <= most && a * least <= limit
    ensures SizesWithin(ops, least, most) && Run(ops, limit).q.packets == Mixed(least, a, most, 0)
  {
    if a == 0 {
      ops := [];
    } else {
      Scale(a - 1, a, least);
      var before := FillWithSmall(limit, least, most, a - 1);
      RunOneMore(before, Put(Packet(0, 2, least)), limit);
      SmallFits(Run(before, limit), limit, least, most, a - 1);
      OneMoreWithin(before, Packet(0, 2, least), least, most);
      ops := before + [Put(Packet(0, 2, least))];
    }
  }

  lemma OneMoreLarge(ops: seq<Op>, limit: nat, least: nat, most: nat, a: nat, b: nat, n: nat) returns (more: seq<Op>)
    requires SizesWithin(ops, least, most) && Run(ops, limit).q.packets == Mixed(least, a, most, b)
    requires 0 < a && least <= most && n == a + b + 1 && JustTooMany(n, least, limit)
    ensures SizesWithin(more, least, most) && Run(more, limit).q.packets == Mixed(least, a - 1, most, b + 1)
  {
    more := ops + [Put(Packet(0, 1, most))];
    OneMoreWithin(ops, Packet(0, 1, most), least, most);
    LargeReplacesSmall(Run(ops, limit), limit, least, most, a, b, n);
    RunOneMore(ops, Put(Packet(0, 1, most)), limit);
  }

  /** One packet of the least size more than fit. */
  ghost predicate JustTooMany(n: nat, least: nat, limit: nat) {
    (n - 1) * least <= limit < n * least
  }

  lemma {:induction false} ReplaceWithLarge(limit: nat, least: nat, most: nat, n: nat, b: nat) returns (ops: seq<Op>)
    requires least <= most && b < n && JustTooMany(n, least, limit)
    ensures SizesWithin(ops, least, most) && Run(ops, limit).q.packets == Mixed(least, n - 1 - b, most, b)
  {
    if b == 0 {
      assert (n - 1) * least <= limit;
      ops := FillWithSmall(limit, least, most, n - 1);
    } else {
      var before := ReplaceWithLarge(limit, least, most, n, b - 1);
      ops := OneMoreLarge(before, limit, least, most, n - b, b - 1, n);
    }
  }

  /** A run that ends with as many of the largest packets as the smallest ones would fit. */
  lemma FullOfLarge(limit: nat, least: nat, most: nat) returns (ops: seq<Op>)
    requires 0 < least <= most
    ensures SizesWithin(ops, least, most) && Run(ops, limit).q.bytes == limit / least * most
  {
    var n := limit / least;
    assert limit < (n + 1) * least by {
      Distribute(n, 1, least);
    }
    ops := ReplaceWithLarge(limit, least, most, n + 1, n);
    TotalSizeWithin(Run(ops, limit).q.packets, most, most);
  }

  /**
   The byte limit holds in every run with sizes in `[least, most]` exactly when as many packets of the
   largest size fit in it as packets of the smallest do.
   */
  lemma LimitKeptExactlyWhen(limit: nat, least: nat, most: nat)
    requires 0 < least <= most
    ensures (forall ops | SizesWithin(ops, least, most) :: Run(ops, limit).q.bytes <= limit) <==> limit / least * most <= limit
  {
    if limit / least * most <= limit {
      forall ops | SizesWithin(ops, least, most)
        ensures Run(ops, limit).q.bytes <= limit
      {
        QueueIsBounded(ops, limit, least, most);
      }
    } else {
      var ops := FullOfLarge(limit, least, most);
      assert Run(ops, limit).q.bytes > limit;
    }
  }

  // ---- The queue object ----

  class Queue {
    const limitBytes: nat
    var packets: seq<Packet>
    var bytesInQueue: int
    var pArrivals: nat
    var bArrivals: nat
    var pDepartures: nat
    var bDepartures: nat
    var pktDrop: nat

    ghost function Value(): State
      reads this
    {
      State(packets, bytesInQueue, pArrivals, bArrivals, pDepartures, bDepartures, pktDrop)
    }

    constructor (limitBytes: nat)
      ensures Value() == EMPTY.q && this.limitBytes == limitBytes
    {
      this.limitBytes, packets, bytesInQueue := limitBytes, [], 0;
      pArrivals, bArrivals, pDepartures, bDepartures, pktDrop := 0, 0, 0, 0, 0;
    }

    method FindWorst() returns (worst: nat)
      requires packets != []
      ensures worst == WorstIndex(packets)
    {
      var worstPriority := 0;
      worst := 0;
      var i := 0;
      while i < |packets|
        invariant 0 <= i <= |packets|
        invariant i == 0 ==> worst == 0 && worstPriority == 0
        invariant i > 0 ==> worst == WorstIndex(packets[..i]) && worstPriority == packets[worst].priority
      {
        assert packets[..i + 1][..i] == packets[..i];
        if packets[i].priority >= worstPriority {
          worstPriority := packets[i].priority;
          worst := i;
        }
        i := i + 1;
      }
      assert packets[..i] == packets;
    }

    method FindBest() returns (best: Option<nat>)
      ensures best == BestPacket(packets)
    {
      var bestPriority := UINT_MAX;
      best := None;
      var i := 0;
      while i < |packets|
        invariant 0 <= i <= |packets| && best == BestPacket(packets[..i])
        invariant bestPriority == if best.Some? then packets[best.value].priority else UINT_MAX
      {
        assert packets[..i + 1][..i] == packets[..i];
        if packets[i].priority < bestPriority {
          bestPriority := packets[i].priority;
          best := Some(i);
        }
        i := i + 1;
      }
      assert packets[..i] == packets;
    }

    method FindFirst(flow: nat) returns (k: nat)
      requires exists i :: 0 <= i < |packets| && packets[i].flow == flow
      ensures k == FirstOfFlow(packets, flow)
    {
      k := 0;
      while packets[k].flow != flow
        invariant k < |packets| && (forall i | 0 <= i < k :: packets[i].flow != flow)
        decreases |packets| - k
      {
        k := k + 1;
      }
    }

    method Enqueue(p: Packet)
      modifies this
      ensures Value() == Enque(old(Value()), p, limitBytes)
    {
      pArrivals := pArrivals + 1;
      bArrivals := bArrivals + p.size;
      packets := packets + [p];
      bytesInQueue := bytesInQueue + p.size;
      if bytesInQueue > limitBytes {
        var worst := FindWorst();
        bytesInQueue := bytesInQueue - packets[worst].size;
        packets := RemoveAt(packets, worst);
        pktDrop := pktDrop + 1;
      }
    }

    /** `crash` is the source's dereference of a best packet it never found. */
    method Dequeue() returns (p: Option<Packet>, crash: bool)
      modifies this
      ensures match old(Choose(Value()))
              case Empty => p == None && !crash && Value() == old(Value())
              case NoUrgentPacket => p == None && crash && Value() == old(Value())
              case Serve(k) => p == Some(old(packets)[k]) && !crash && Value() == Depart(old(Value()), k)
    {
      p, crash := None, false;
      if bytesInQueue > 0 {
        var best := FindBest();
        if best.None? {
          crash := true;
        } else {
          var k := FindFirst(packets[best.value].flow);
          p := Some(packets[k]);
          bytesInQueue := bytesInQueue - packets[k].size;
          pDepartures := pDepartures + 1;
          bDepartures := bDepartures + packets[k].size;
          packets := RemoveAt(packets, k);
        }
      }
    }
  }
}
