/**
 PIM in lockstep: when no message is lost or late, every iteration matches at least one more pair as
 long as some request joins two unmatched hosts, so that the matching soon cannot be extended.
 */
module PimProgress {
  import opened Sets
  import opened Options
  import opened PimEpoch
  import opened Matching

  /** Who asks whom: the flows waiting to be sent, which an epoch takes as they are. */
  type Requests = set<Edge>

  predicate Asks(requests: Requests, src: nat, dst: nat) {
    Edge(0, src, dst) in requests
  }

  /** The order messages arrive in at each host, and the random choices made. */
  datatype Choices = Choices(rtsFrom: seq<seq<nat>>, rIndex: seq<nat>, grantsFrom: seq<seq<nat>>, sIndex: seq<nat>)

  ghost predicate Known(es: seq<Epoch>, from: seq<nat>) {
    forall i | 0 <= i < |from| :: from[i] < |es|
  }

  ghost predicate Sized(es: seq<Epoch>, c: Choices) {
    && |c.rtsFrom| == |c.rIndex| == |c.grantsFrom| == |c.sIndex| == |es|
    && (forall h | 0 <= h < |es| :: Known(es, c.rtsFrom[h]) && Known(es, c.grantsFrom[h]))
  }

  /** Requests of these senders arrive one after the other. */
  ghost function RequestsIn(es: seq<Epoch>, e: Epoch, from: seq<nat>): Epoch
    requires Known(es, from)
  {
    if from == [] then e
    else
      var n := |from| - 1;
      ReceiveRts(RequestsIn(es, e, from[..n]), es[from[n]].iter, from[n])
  }

  /** Grants of these receivers arrive one after the other. */
  ghost function GrantsIn(es: seq<Epoch>, e: Epoch, from: seq<nat>): Epoch
    requires Known(es, from)
  {
    if from == [] then e
    else
      var n := |from| - 1;
      ReceiveGrants(GrantsIn(es, e, from[..n]), es[from[n]].iter, from[n])
  }

  ghost function Requested(es: seq<Epoch>, c: Choices, h: nat): Epoch
    requires Sized(es, c) && h < |es|
  {
    RequestsIn(es, es[h], c.rtsFrom[h])
  }

  /** A host once its requests and its grants are in. */
  ghost function Heard(es: seq<Epoch>, c: Choices, h: nat): Epoch
    requires Sized(es, c) && h < |es|
  {
    GrantsIn(es, Requested(es, c, h), c.grantsFrom[h])
  }

  /** The sender that receiver `r` grants once its requests are in. */
  ghost function Granted(es: seq<Epoch>, c: Choices, r: nat): Option<nat>
    requires Sized(es, c) && r < |es|
  {
    GrantChoice(Requested(es, c, r), c.rIndex[r])
  }

  /** The receiver that sender `s` accepts once its grants are in. */
  ghost function Taken(es: seq<Epoch>, c: Choices, s: nat): Option<nat>
    requires Sized(es, c) && s < |es|
  {
    AcceptChoice(Heard(es, c, s), c.sIndex[s])
  }

  ghost predicate Queued(q: seq<Entry>, peer: nat) {
    exists i :: 0 <= i < |q| && q[i].peer == peer
  }

  /** All hosts begin the same iteration, with nothing queued. */
  ghost predicate InStep(es: seq<Epoch>) {
    forall h | 0 <= h < |es| :: es[h].rtsQ == [] && es[h].grantsQ == [] && es[h].iter == es[0].iter
  }

  /** Exactly the requests and grants that are sent arrive, in any order, and every choice is of an arrived message. */
  ghost predicate Delivered(es: seq<Epoch>, c: Choices, requests: Requests, limit: nat) {
    && Sized(es, c) && InStep(es)
    && (forall r, s: nat {:trigger s in c.rtsFrom[r]} {:trigger Asks(requests, s, r)} | 0 <= r < |es| ::
          s in c.rtsFrom[r] <==> s < |es| && Asks(requests, s, r) && SendsRts(es[s], limit))
    && (forall s, r: nat {:trigger r in c.grantsFrom[s]} {:trigger Granted(es, c, r), c.grantsFrom[s]} | 0 <= s < |es| ::
          r in c.grantsFrom[s] <==> r < |es| && Granted(es, c, r) == Some(s))
    && (forall h | 0 <= h < |es| :: c.rtsFrom[h] == [] || c.rIndex[h] < |c.rtsFrom[h]|)
    && (forall h | 0 <= h < |es| :: c.grantsFrom[h] == [] || c.sIndex[h] < |c.grantsFrom[h]|)
  }

  lemma QueuedOneMore(q: seq<Entry>, e: Entry, peer: nat)
    ensures Queued(q + [e], peer) <==> Queued(q, peer) || e.peer == peer
  {
    assert (q + [e])[|q|] == e;
    if Queued(q, peer) {
      var i :| 0 <= i < |q| && q[i].peer == peer;
      assert (q + [e])[i].peer == peer;
    }
  }

  /** The handlers queue what arrives in the present iteration, and exactly that. */
  lemma {:induction false} RequestsQueue(es: seq<Epoch>, e: Epoch, from: seq<nat>, peer: nat)
    requires Known(es, from) && forall i | 0 <= i < |from| :: es[from[i]].iter == e.iter
    ensures var r := RequestsIn(es, e, from);
            && r == e.(rtsQ := r.rtsQ) && |r.rtsQ| == |e.rtsQ| + |from|
            && (Queued(r.rtsQ, peer) <==> Queued(e.rtsQ, peer) || peer in from)
  {
    if from != [] {
      var n := |from| - 1;
      RequestsQueue(es, e, from[..n], peer);
      QueuedOneMore(RequestsIn(es, e, from[..n]).rtsQ, Entry(e.iter, from[n]), peer);
      assert from == from[..n] + [from[n]];
    }
  }

  lemma {:induction false} GrantsQueue(es: seq<Epoch>, e: Epoch, from: seq<nat>, peer: nat)
    requires Known(es, from) && forall i | 0 <= i < |from| :: es[from[i]].iter == e.iter
    ensures var r := GrantsIn(es, e, from);
            && r == e.(grantsQ := r.grantsQ) && |r.grantsQ| == |e.grantsQ| + |from|
            && (Queued(r.grantsQ, peer) <==> Queued(e.grantsQ, peer) || peer in from)
  {
    if from != [] {
      var n := |from| - 1;
      GrantsQueue(es, e, from[..n], peer);
      QueuedOneMore(GrantsIn(es, e, from[..n]).grantsQ, Entry(e.iter, from[n]), peer);
      assert from == from[..n] + [from[n]];
    }
  }

  /** A host's queues name exactly those that asked it, and those that granted it. */
  lemma QueuesNameSenders(es: seq<Epoch>, c: Choices, requests: Requests, limit: nat, h: nat, peer: nat)
    requires Delivered(es, c, requests, limit) && h < |es|
    ensures var e := Heard(es, c, h);
            && e == es[h].(rtsQ := e.rtsQ, grantsQ := e.grantsQ) && Requested(es, c, h) == es[h].(rtsQ := e.rtsQ)
            && |e.rtsQ| == |c.rtsFrom[h]| && |e.grantsQ| == |c.grantsFrom[h]|
            && (Queued(e.rtsQ, peer) <==> peer < |es| && Asks(requests, peer, h) && SendsRts(es[peer], limit))
            && (Queued(e.grantsQ, peer) <==> peer < |es| && Granted(es, c, peer) == Some(h))
  {
    RequestsQueue(es, es[h], c.rtsFrom[h], peer);
    GrantsQueue(es, Requested(es, c, h), c.grantsFrom[h], peer);
  }

  /** The receiver's handler for each acceptance it gets; `from` is the one sender that accepted it, if any. */
  function Settled(e: Epoch, from: Option<nat>): Epoch {
    if from.Some? then ReceiveAccept(e, from.value).0 else e
  }

  /** One iteration everywhere: requests, grants, acceptances, and on to the next. */
  ghost predicate Round(es: seq<Epoch>, es': seq<Epoch>, c: Choices, requests: Requests, limit: nat) {
    && |es'| == |es| && Delivered(es, c, requests, limit)
    && forall h | 0 <= h < |es| ::
         && es[h].iter <= limit
         && exists from: Option<nat> ::
              && (from.Some? ==> from.value < |es| && Taken(es, c, from.value) == Some(h))
              && (from.None? ==> forall s | 0 <= s < |es| :: Taken(es, c, s) != Some(h))
              && es'[h] == Settled(AdvanceIter(Accepted(Heard(es, c, h), c.sIndex[h])), from)
  }

  /** Both ends of every match agree, and matches are requests. */
  ghost predicate Agree(es: seq<Epoch>, requests: Requests) {
    && (forall s | 0 <= s < |es| && es[s].matchReceiver.Some? ::
          var r := es[s].matchReceiver.value;
          r < |es| && es[r].matchSender == Some(s) && Asks(requests, s, r))
    && (forall r | 0 <= r < |es| && es[r].matchSender.Some? ::
          var s := es[r].matchSender.value;
          s < |es| && es[s].matchReceiver == Some(r))
  }

  function Pairs(es: seq<Epoch>): set<Edge> {
    set s | 0 <= s < |es| && es[s].matchReceiver.Some? :: Edge(0, s, es[s].matchReceiver.value)
  }

  /** No request joins two unmatched hosts. */
  ghost predicate Maximal(es: seq<Epoch>, requests: Requests) {
    forall s, r | 0 <= s < |es| && 0 <= r < |es| && Asks(requests, s, r) ::
      es[s].matchReceiver.Some? || es[r].matchSender.Some?
  }

  // ---- One round ----

  lemma GrantedAsked(es: seq<Epoch>, c: Choices, requests: Requests, limit: nat, r: nat)
    requires Delivered(es, c, requests, limit) && r < |es|
    ensures Granted(es, c, r).Some? ==>
              var s := Granted(es, c, r).value;
              s < |es| && Asks(requests, s, r) && es[s].matchReceiver.None? && es[r].matchSender.None?
    ensures Granted(es, c, r).None? && es[r].matchSender.None? ==>
              forall s | 0 <= s < |es| && Asks(requests, s, r) :: !SendsRts(es[s], limit)
  {
    QueuesNameSenders(es, c, requests, limit, r, 0);
    var q := Requested(es, c, r).rtsQ;
    if Granted(es, c, r).Some? {
      QueuesNameSenders(es, c, requests, limit, r, Granted(es, c, r).value);
      assert q[c.rIndex[r]].peer == Granted(es, c, r).value;
    } else if es[r].matchSender.None? {
      assert c.rtsFrom[r] == [];
    }
  }

  lemma TakenGranted(es: seq<Epoch>, c: Choices, requests: Requests, limit: nat, s: nat)
    requires Delivered(es, c, requests, limit) && s < |es|
    ensures Taken(es, c, s).Some? ==> Taken(es, c, s).value < |es| && Granted(es, c, Taken(es, c, s).value) == Some(s)
    ensures Taken(es, c, s).None? && es[s].matchReceiver.None? ==> forall r | 0 <= r < |es| :: Granted(es, c, r) != Some(s)
  {
    QueuesNameSenders(es, c, requests, limit, s, 0);
    var q := Heard(es, c, s).grantsQ;
    if Taken(es, c, s).Some? {
      QueuesNameSenders(es, c, requests, limit, s, Taken(es, c, s).value);
      assert q[c.sIndex[s]].peer == Taken(es, c, s).value;
    } else if es[s].matchReceiver.None? {
      assert c.grantsFrom[s] == [];
    }
  }

  /** What a host knows after a round: the sender side by its choice, the receiver side by whoever chose it. */
  lemma RoundMatches(es: seq<Epoch>, es': seq<Epoch>, c: Choices, requests: Requests, limit: nat, h: nat)
    requires Round(es, es', c, requests, limit) && h < |es|
    ensures es'[h].matchReceiver == if Taken(es, c, h).Some? then Taken(es, c, h) else es[h].matchReceiver
    ensures forall s | 0 <= s < |es| && Taken(es, c, s) == Some(h) :: es[h].matchSender.None? && es'[h].matchSender == Some(s)
    ensures (forall s | 0 <= s < |es| :: Taken(es, c, s) != Some(h)) ==> es'[h].matchSender == es[h].matchSender
    ensures es'[h].iter == es[h].iter + 1 && es'[h].rtsQ == es'[h].grantsQ == []
  {
    QueuesNameSenders(es, c, requests, limit, h, 0);
    forall s | 0 <= s < |es| && Taken(es, c, s) == Some(h)
      ensures Granted(es, c, h) == Some(s) && es[h].matchSender.None?
    {
      TakenGranted(es, c, requests, limit, s);
      GrantedAsked(es, c, requests, limit, h);
    }
  }

  lemma SenderAgrees(es: seq<Epoch>, es': seq<Epoch>, c: Choices, requests: Requests, limit: nat, h: nat)
    requires Agree(es, requests) && Round(es, es', c, requests, limit) && h < |es| && es'[h].matchReceiver.Some?
    ensures var r := es'[h].matchReceiver.value;
            r < |es| && es'[r].matchSender == Some(h) && Asks(requests, h, r)
  {
    RoundMatches(es, es', c, requests, limit, h);
    if Taken(es, c, h).Some? {
      var r := Taken(es, c, h).value;
      TakenGranted(es, c, requests, limit, h);
      GrantedAsked(es, c, requests, limit, r);
      RoundMatches(es, es', c, requests, limit, r);
    } else {
      StaysMatched(es, es', c, requests, limit, es[h].matchReceiver.value);
    }
  }

  lemma ReceiverAgrees(es: seq<Epoch>, es': seq<Epoch>, c: Choices, requests: Requests, limit: nat, h: nat)
    requires Agree(es, requests) && Round(es, es', c, requests, limit) && h < |es| && es'[h].matchSender.Some?
    ensures var s := es'[h].matchSender.value;
            s < |es| && es'[s].matchReceiver == Some(h)
  {
    RoundMatches(es, es', c, requests, limit, h);
    if s :| 0 <= s < |es| && Taken(es, c, s) == Some(h) {
      RoundMatches(es, es', c, requests, limit, s);
    } else {
      KeepsReceiver(es, es', c, requests, limit, es[h].matchSender.value);
    }
  }

  /** A matched sender accepts nobody else. */
  lemma KeepsReceiver(es: seq<Epoch>, es': seq<Epoch>, c: Choices, requests: Requests, limit: nat, s: nat)
    requires Round(es, es', c, requests, limit) && s < |es| && es[s].matchReceiver.Some?
    ensures es'[s].matchReceiver == es[s].matchReceiver
  {
    QueuesNameSenders(es, c, requests, limit, s, 0);
    RoundMatches(es, es', c, requests, limit, s);
  }

  lemma RoundAgrees(es: seq<Epoch>, es': seq<Epoch>, c: Choices, requests: Requests, limit: nat)
    requires Agree(es, requests) && Round(es, es', c, requests, limit)
    ensures Agree(es', requests)
  {
    forall h | 0 <= h < |es| && es'[h].matchReceiver.Some?
      ensures var r := es'[h].matchReceiver.value;
              r < |es| && es'[r].matchSender == Some(h) && Asks(requests, h, r)
    {
      SenderAgrees(es, es', c, requests, limit, h);
    }
    forall h | 0 <= h < |es| && es'[h].matchSender.Some?
      ensures var s := es'[h].matchSender.value;
              s < |es| && es'[s].matchReceiver == Some(h)
    {
      ReceiverAgrees(es, es', c, requests, limit, h);
    }
  }

  lemma StaysMatched(es: seq<Epoch>, es': seq<Epoch>, c: Choices, requests: Requests, limit: nat, r: nat)
    requires Round(es, es', c, requests, limit) && r < |es| && es[r].matchSender.Some?
    ensures es'[r].matchSender == es[r].matchSender
  {
    RoundMatches(es, es', c, requests, limit, r);
  }

  /** Some receiver that was asked grants, and the sender it grants takes a new receiver. */
  lemma NewPair(es: seq<Epoch>, es': seq<Epoch>, c: Choices, requests: Requests, limit: nat, s: nat, r: nat)
    requires Round(es, es', c, requests, limit) && s < |es| && r < |es| && Asks(requests, s, r)
    requires es[s].matchReceiver.None? && es[r].matchSender.None?
    ensures exists t :: 0 <= t < |es| && es[t].matchReceiver.None? && es'[t].matchReceiver.Some?
  {
    GrantedAsked(es, c, requests, limit, r);
    var t := Granted(es, c, r).value;
    TakenGranted(es, c, requests, limit, t);
    RoundMatches(es, es', c, requests, limit, t);
  }

  lemma RoundKeepsPairs(es: seq<Epoch>, es': seq<Epoch>, c: Choices, requests: Requests, limit: nat)
    requires Round(es, es', c, requests, limit)
    ensures Pairs(es) <= Pairs(es')
  {
    forall e | e in Pairs(es)
      ensures e in Pairs(es')
    {
      KeepsReceiver(es, es', c, requests, limit, e.src);
    }
  }

  lemma RoundAddsPair(es: seq<Epoch>, es': seq<Epoch>, c: Choices, requests: Requests, limit: nat, s: nat, r: nat) returns (e: Edge)
    requires Round(es, es', c, requests, limit) && s < |es| && r < |es| && Asks(requests, s, r)
    requires es[s].matchReceiver.None? && es[r].matchSender.None?
    ensures e in Pairs(es') && e !in Pairs(es)
  {
    NewPair(es, es', c, requests, limit, s, r);
    var t :| 0 <= t < |es| && es[t].matchReceiver.None? && es'[t].matchReceiver.Some?;
    e := Edge(0, t, es'[t].matchReceiver.value);
  }

  /** Matches are kept, and unless nothing is left to match there is a new one. */
  lemma RoundProgresses(es: seq<Epoch>, es': seq<Epoch>, c: Choices, requests: Requests, limit: nat)
    requires Round(es, es', c, requests, limit)
    ensures Pairs(es) <= Pairs(es')
    ensures Maximal(es, requests) || |Pairs(es')| > |Pairs(es)|
  {
    RoundKeepsPairs(es, es', c, requests, limit);
    if !Maximal(es, requests) {
      var s, r :| 0 <= s < |es| && 0 <= r < |es| && Asks(requests, s, r) && es[s].matchReceiver.None? && es[r].matchSender.None?;
      var e := RoundAddsPair(es, es', c, requests, limit, s, r);
      OneMoreIsMore(Pairs(es), Pairs(es'), e);
    }
  }

  lemma OneMoreIsMore(a: set<Edge>, b: set<Edge>, e: Edge)
    requires a <= b && e in b && e !in a
    ensures |b| > |a|
  {
    SubsetCardinality(a + {e}, b);
  }

  lemma PairsConflictFree(es: seq<Epoch>, requests: Requests)
    requires Agree(es, requests)
    ensures ConflictFree(Pairs(es)) && Pairs(es) <= requests
  {
  }

  // ---- A whole epoch ----

  /** An epoch in lockstep, from the first iteration on. */
  ghost predicate Epochs(ess: seq<seq<Epoch>>, cs: seq<Choices>, requests: Requests, limit: nat) {
    && |ess| == |cs| + 1
    && (forall h | 0 <= h < |ess[0]| :: ess[0][h] == AdvanceIter(NewEpoch()))
    && forall i | 0 <= i < |cs| :: Round(ess[i], ess[i + 1], cs[i], requests, limit)
  }

  /** After `k` rounds there are `k` pairs, or the matching is maximal. */
  lemma {:induction false} PairsGrow(ess: seq<seq<Epoch>>, cs: seq<Choices>, requests: Requests, limit: nat, k: nat)
    requires Epochs(ess, cs, requests, limit) && k <= |cs|
    ensures Agree(ess[k], requests) && |ess[k]| == |ess[0]|
    ensures Maximal(ess[k], requests) || |Pairs(ess[k])| >= k
    ensures InStep(ess[k])
  {
    if k > 0 {
      PairsGrow(ess, cs, requests, limit, k - 1);
      RoundAgrees(ess[k - 1], ess[k], cs[k - 1], requests, limit);
      RoundProgresses(ess[k - 1], ess[k], cs[k - 1], requests, limit);
      RoundStaysInStep(ess[k - 1], ess[k], cs[k - 1], requests, limit);
      if Maximal(ess[k - 1], requests) {
        MaximalStays(ess[k - 1], ess[k], cs[k - 1], requests, limit);
      }
    }
  }

  /** Hosts stay in step: what a round assumes of its start, the one before it leaves. */
  lemma RoundStaysInStep(es: seq<Epoch>, es': seq<Epoch>, c: Choices, requests: Requests, limit: nat)
    requires Round(es, es', c, requests, limit)
    ensures InStep(es')
  {
    forall h | 0 <= h < |es|
      ensures es'[h].rtsQ == [] && es'[h].grantsQ == [] && es'[h].iter == es'[0].iter
    {
      RoundMatches(es, es', c, requests, limit, h);
      RoundMatches(es, es', c, requests, limit, 0);
    }
  }

  lemma MaximalStays(es: seq<Epoch>, es': seq<Epoch>, c: Choices, requests: Requests, limit: nat)
    requires Maximal(es, requests) && Round(es, es', c, requests, limit)
    ensures Maximal(es', requests)
  {
    forall s, r | 0 <= s < |es| && 0 <= r < |es| && Asks(requests, s, r)
      ensures es'[s].matchReceiver.Some? || es'[r].matchSender.Some?
    {
      RoundMatches(es, es', c, requests, limit, s);
      RoundMatches(es, es', c, requests, limit, r);
    }
  }

  /** A matching that is not maximal has room on both sides. */
  lemma NotMaximalIsSmall(es: seq<Epoch>, requests: Requests)
    requires Agree(es, requests) && !Maximal(es, requests)
    ensures |Pairs(es)| < |Sources(requests)| && |Pairs(es)| < |Destinations(requests)|
  {
    PairsConflictFree(es, requests);
    ConflictFreeIsOneToOne(Pairs(es));
    var s, r :| 0 <= s < |es| && 0 <= r < |es| && Asks(requests, s, r) && es[s].matchReceiver.None? && es[r].matchSender.None?;
    assert Edge(0, s, r) in requests;
    assert s !in Sources(Pairs(es)) && r !in Destinations(Pairs(es));
    SubsetCardinality(Sources(Pairs(es)) + {s}, Sources(requests));
    SubsetCardinality(Destinations(Pairs(es)) + {r}, Destinations(requests));
  }

  lemma MaximalCovers(es: seq<Epoch>, requests: Requests)
    requires Agree(es, requests) && Maximal(es, requests)
    requires forall e | e in requests :: e.id == 0 && e.src < |es| && e.dst < |es|
    ensures Covers(Pairs(es), requests)
  {
    forall e | e in requests
      ensures exists m :: m in Pairs(es) && Conflict(m, e)
    {
      assert Asks(requests, e.src, e.dst);
      var m := if es[e.src].matchReceiver.Some? then Edge(0, e.src, es[e.src].matchReceiver.value)
               else Edge(0, es[e.dst].matchSender.value, e.dst);
      assert m in Pairs(es) && Conflict(m, e);
    }
  }

  /**
   As many iterations as there are requesting senders, or requested receivers, reach a matching that
   cannot be extended, and that holds at least half as many pairs as any other.
   */
  lemma EpochReachesMaximal(ess: seq<seq<Epoch>>, cs: seq<Choices>, requests: Requests, limit: nat, other: set<Edge>)
    requires Epochs(ess, cs, requests, limit)
    requires forall e | e in requests :: e.id == 0 && e.src < |ess[0]| && e.dst < |ess[0]|
    requires |cs| >= |Sources(requests)| || |cs| >= |Destinations(requests)|
    requires other <= requests && ConflictFree(other)
    ensures Maximal(ess[|cs|], requests) && Agree(ess[|cs|], requests)
    ensures |other| <= 2 * |Pairs(ess[|cs|])|
  {
    var es := ess[|cs|];
    PairsGrow(ess, cs, requests, limit, |cs|);
    if !Maximal(es, requests) {
      NotMaximalIsSmall(es, requests);
    }
    MaximalCovers(es, requests);
    AtLeastHalf(Pairs(es), requests, other);
  }
}
