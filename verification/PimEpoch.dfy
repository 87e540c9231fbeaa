/**
 One host's part in one matching epoch of PIM: as a sender it holds at most one accepted receiver, as a
 receiver at most one accepted sender.  Random choices are the `index` arguments.
 */
module PimEpoch {
  import opened Options
  import opened PriorityQueue

  datatype Entry = Entry(iter: nat, peer: nat)

  datatype Epoch = Epoch(
    iter: nat, matchReceiver: Option<nat>, matchSender: Option<nat>, rtsQ: seq<Entry>, grantsQ: seq<Entry>)
  {
    /** Both queues hold messages of the present iteration only. */
    ghost predicate Current() {
      && (forall i | 0 <= i < |rtsQ| :: rtsQ[i].iter == iter)
      && (forall i | 0 <= i < |grantsQ| :: grantsQ[i].iter == iter)
    }
  }

  function NewEpoch(): Epoch {
    Epoch(0, None, None, [], [])
  }

  // ---- Messages ----

  /** Messages of an earlier iteration are dropped; later ones are not expected. */
  function ReceiveRts(e: Epoch, iter: nat, src: nat): Epoch {
    if iter < e.iter then e else e.(rtsQ := e.rtsQ + [Entry(iter, src)])
  }

  function ReceiveGrants(e: Epoch, iter: nat, dst: nat): Epoch {
    if iter < e.iter then e else e.(grantsQ := e.grantsQ + [Entry(iter, dst)])
  }

  /** A receiver that is already matched turns the sender down. */
  function ReceiveAccept(e: Epoch, src: nat): (Epoch, bool) {
    if e.matchSender.Some? then (e, false) else (e.(matchSender := Some(src)), true)
  }

  function ReceiveGrantsR(e: Epoch): Epoch {
    e.(matchReceiver := None)
  }

  /** A message of the present iteration, or a later one, joins the others; an earlier one is ignored. */
  lemma MessagesQueuedExactlyWhen(e: Epoch, iter: nat, peer: nat)
    ensures var r := ReceiveRts(e, iter, peer);
            && r == e.(rtsQ := r.rtsQ)
            && multiset(r.rtsQ) == multiset(e.rtsQ) + if iter >= e.iter then multiset{Entry(iter, peer)} else multiset{}
    ensures var g := ReceiveGrants(e, iter, peer);
            && g == e.(grantsQ := g.grantsQ)
            && multiset(g.grantsQ) == multiset(e.grantsQ) + if iter >= e.iter then multiset{Entry(iter, peer)} else multiset{}
  {
    assert multiset(e.rtsQ + [Entry(iter, peer)]) == multiset(e.rtsQ) + multiset{Entry(iter, peer)};
    assert multiset(e.grantsQ + [Entry(iter, peer)]) == multiset(e.grantsQ) + multiset{Entry(iter, peer)};
  }

  // ---- Iterations ----

  /** The sender an unmatched receiver grants: one of those that asked in this iteration. */
  function GrantChoice(e: Epoch, index: nat): Option<nat> {
    if e.matchSender.Some? || index >= |e.rtsQ| then None else Some(e.rtsQ[index].peer)
  }

  /** The receiver an unmatched sender accepts: one of those that granted in this iteration. */
  function AcceptChoice(e: Epoch, index: nat): Option<nat> {
    if e.matchReceiver.Some? || index >= |e.grantsQ| then None else Some(e.grantsQ[index].peer)
  }

  function Accepted(e: Epoch, index: nat): Epoch {
    if AcceptChoice(e, index).Some? then e.(matchReceiver := AcceptChoice(e, index)) else e
  }

  function AdvanceIter(e: Epoch): Epoch {
    e.(iter := e.iter + 1, rtsQ := [], grantsQ := [])
  }

  /** Requests go out while unmatched, up to the last iteration. */
  predicate SendsRts(e: Epoch, limit: nat) {
    e.iter <= limit && e.matchReceiver.None?
  }

  lemma KeepsOthers(q: seq<Entry>, index: nat)
    requires index < |q|
    ensures forall e :: e in RemoveAt(q, index) ==> e in q
    ensures forall e :: e in q && e != q[index] ==> e in RemoveAt(q, index)
  {
    RemoveAtMultiset(q, index);
    forall e
      ensures e in RemoveAt(q, index) ==> e in q
      ensures e in q && e != q[index] ==> e in RemoveAt(q, index)
    {
      assert e in q <==> e in multiset(q);
      assert e in RemoveAt(q, index) <==> e in multiset(RemoveAt(q, index));
    }
  }

  // ---- The epoch object ----

  class PimEpoch {
    var iter: nat
    var matchReceiver: Option<nat>
    var matchSender: Option<nat>
    var rtsQ: seq<Entry>
    var grantsQ: seq<Entry>

    ghost function Value(): Epoch
      reads this
    {
      Epoch(iter, matchReceiver, matchSender, rtsQ, grantsQ)
    }

    constructor ()
      ensures Value() == NewEpoch()
    {
      iter, matchReceiver, matchSender, rtsQ, grantsQ := 0, None, None, [], [];
    }

    method ReceiveRtsPkt(pktIter: nat, src: nat)
      requires Value().Current() && pktIter <= iter
      modifies this
      ensures Value() == ReceiveRts(old(Value()), pktIter, src) && Value().Current()
    {
      if pktIter < iter {
        return;
      }
      assert pktIter == iter;
      rtsQ := rtsQ + [Entry(pktIter, src)];
    }

    method ReceiveGrantsPkt(pktIter: nat, dst: nat)
      requires Value().Current() && pktIter <= iter
      modifies this
      ensures Value() == ReceiveGrants(old(Value()), pktIter, dst) && Value().Current()
    {
      if pktIter < iter {
        return;
      }
      assert iter == pktIter;
      grantsQ := grantsQ + [Entry(pktIter, dst)];
    }

    method ReceiveAcceptPkt(src: nat) returns (taken: bool)
      modifies this`matchSender
      ensures (Value(), taken) == ReceiveAccept(old(Value()), src)
    {
      if matchSender.Some? {
        return false;
      }
      assert matchSender.None?;
      matchSender := Some(src);
      taken := true;
    }

    method ReceiveGrantsRPkt(dst: nat)
      requires matchReceiver == Some(dst)
      modifies this`matchReceiver
      ensures Value() == ReceiveGrantsR(old(Value()))
    {
      assert matchReceiver == Some(dst);
      matchReceiver := None;
    }

    /** A random queued request of this iteration; stale ones met on the way are thrown out. */
    method PickCurrent(q: seq<Entry>) returns (q': seq<Entry>, index: nat)
      requires forall i | 0 <= i < |q| :: q[i].iter <= iter
      ensures index < |q'| ==> q'[index].iter == iter
      ensures index >= |q'| ==> q' == [] && forall i | 0 <= i < |q| :: q[i].iter < iter
      ensures forall e :: e in q' ==> e in q
      ensures (forall i | 0 <= i < |q| :: q[i].iter == iter) ==> q' == q
    {
      q', index := q, 0;
      while q' != []
        invariant forall i | 0 <= i < |q'| :: q'[i].iter <= iter
        invariant forall e :: e in q && e.iter == iter ==> e in q'
        invariant forall e :: e in q' ==> e in q
        invariant (forall i | 0 <= i < |q| :: q[i].iter == iter) ==> q' == q
        decreases |q'|
      {
        index :| 0 <= index < |q'|;
        if q'[index].iter != iter {
          assert q'[index].iter < iter;
          RemoveAtMultiset(q', index);
          ghost var before := q';
          q' := RemoveAt(q', index);
          KeepsOthers(before, index);
        } else {
          return;
        }
      }
      assert forall i | 0 <= i < |q| :: q[i] in q;
    }

    method HandleAllRts() returns (granted: Option<nat>, ghost index: nat)
      requires forall i | 0 <= i < |rtsQ| :: rtsQ[i].iter <= iter
      modifies this`rtsQ
      ensures granted == GrantChoice(Value(), index)
      ensures granted.Some? ==> Entry(iter, granted.value) in old(rtsQ)
      ensures granted.None? && matchSender.None? ==> forall e | e in old(rtsQ) :: e.iter < iter
      ensures old(Value()).Current() ==> Value() == old(Value())
    {
      granted, index := None, 0;
      if matchSender.Some? {
        return;
      }
      var q, i := PickCurrent(rtsQ);
      rtsQ := q;
      index := i;
      if i < |rtsQ| {
        assert rtsQ[i] in rtsQ;
        granted := Some(rtsQ[i].peer);
      }
    }

    method HandleAllGrants() returns (accepted: Option<nat>, ghost index: nat)
      requires forall i | 0 <= i < |grantsQ| :: grantsQ[i].iter <= iter
      modifies this`grantsQ, this`matchReceiver
      ensures accepted.Some? ==> old(matchReceiver).None? && Entry(iter, accepted.value) in old(grantsQ)
      ensures accepted.None? && old(matchReceiver).None? ==> forall e | e in old(grantsQ) :: e.iter < iter
      ensures matchReceiver == if accepted.Some? then accepted else old(matchReceiver)
      ensures old(Value()).Current() ==>
                accepted == AcceptChoice(old(Value()), index) && Value() == Accepted(old(Value()), index)
    {
      accepted, index := None, 0;
      if matchReceiver.Some? {
        return;
      }
      var q, i := PickCurrent(grantsQ);
      grantsQ := q;
      index := i;
      if i < |grantsQ| {
        assert grantsQ[i] in grantsQ;
        accepted := Some(grantsQ[i].peer);
        matchReceiver := accepted;
      }
    }

    /** The sender's event: settle this iteration's grants, then open the next one. */
    method ScheduleSenderIterEvt(limit: nat) returns (accepted: Option<nat>, sendRts: bool, ghost index: nat)
      requires Value().Current()
      modifies this
      ensures Value() == AdvanceIter(Accepted(old(Value()), index)) && Value().Current()
      ensures accepted == AcceptChoice(old(Value()), index) && sendRts == SendsRts(Value(), limit)
      ensures accepted.None? ==> old(matchReceiver).Some? || old(grantsQ) == []
    {
      assert grantsQ != [] ==> grantsQ[0] in grantsQ;
      accepted, index := HandleAllGrants();
      iter, rtsQ, grantsQ := iter + 1, [], [];
      if iter > limit {
        return accepted, false, index;
      }
      sendRts := matchReceiver.None?;
    }

    method ScheduleReceiverIterEvt(limit: nat) returns (granted: Option<nat>, ghost index: nat)
      requires Value().Current()
      modifies this`rtsQ
      ensures Value() == old(Value())
      ensures granted == if iter > limit then None else GrantChoice(Value(), index)
      ensures granted.None? ==> iter > limit || matchSender.Some? || rtsQ == []
    {
      granted, index := None, 0;
      if iter <= limit {
        assert rtsQ != [] ==> rtsQ[0] in rtsQ;
        granted, index := HandleAllRts();
      }
    }
  }
}
