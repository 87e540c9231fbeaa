/**
 PIM across hosts: every host runs its own epochs, and messages of any epoch may be delayed, reordered,
 lost, or arrive when their host is in another epoch.  No sender is ever claimed by two receivers.
 */
module PimAgreement {
  import opened Options
  import opened PimEpoch

  /** `src` and `dst` are the ends of the flow a message is about. */
  datatype Msg =
    | Rts(src: nat, dst: nat, iter: nat, epoch: int)
    | Grants(src: nat, dst: nat, iter: nat, epoch: int)
    | Accept(src: nat, dst: nat, epoch: int)
    | GrantsR(src: nat, dst: nat, epoch: int)

  /** `sender` and `receiver` are what the data path uses. */
  datatype Host = Host(cur: int, epochs: map<int, Epoch>, sender: Option<nat>, receiver: Option<nat>) {
    predicate In(e: int) {
      cur == e && e in epochs
    }

    function Now(): Epoch
      requires cur in epochs
    {
      epochs[cur]
    }

    function Update(e: Epoch): Host {
      this.(epochs := epochs[cur := e], sender := e.matchSender, receiver := e.matchReceiver)
    }
  }

  /** `dropped` records the senders whose answer or refusal got lost, with the epoch. */
  datatype System = System(hosts: seq<Host>, net: map<nat, Msg>, dropped: set<(nat, int)>)

  datatype Action =
    | StartEpoch(host: nat)
    | SenderIter(host: nat, index: nat, newId: nat)
    | SendRts(host: nat, dst: nat, newId: nat)
    | ReceiverIter(host: nat, index: nat, newId: nat)
    | Deliver(id: nat, newId: nat)
    | Lose(id: nat)

  // ---- Steps ----

  /** The host a message is addressed to. */
  function Addressee(m: Msg): nat {
    if m.Rts? || m.Accept? then m.dst else m.src
  }

  function SetHost(s: System, h: nat, host: Host): System
    requires h < |s.hosts|
  {
    s.(hosts := s.hosts[h := host])
  }

  function Post(s: System, id: nat, m: Option<Msg>): System {
    if m.Some? then s.(net := s.net[id := m.value]) else s
  }

  /** The sender whose claim on a receiver a message settles. */
  function Settles(m: Msg): set<(nat, int)> {
    if m.Accept? || m.GrantsR? then {(m.src, m.epoch)} else {}
  }

  /**
   Messages may name any flow between hosts.  A request never arrives before its receiver has begun
   the iteration it was sent in: that is the only timing assumption.
   */
  predicate Possible(s: System, a: Action, limit: nat) {
    match a
    case StartEpoch(h) => h < |s.hosts|
    case SenderIter(h, _, id) => h < |s.hosts| && s.hosts[h].In(s.hosts[h].cur) && id !in s.net
    case SendRts(h, dst, id) =>
      && h < |s.hosts| && dst < |s.hosts| && s.hosts[h].In(s.hosts[h].cur) && id !in s.net
      && SendsRts(s.hosts[h].Now(), limit)
    case ReceiverIter(h, _, id) =>
      && h < |s.hosts| && s.hosts[h].In(s.hosts[h].cur) && id !in s.net && s.hosts[h].Now().iter <= limit
    case Deliver(id, newId) =>
      && id in s.net && Addressee(s.net[id]) < |s.hosts| && newId !in s.net
      && (s.net[id].Rts? && s.hosts[s.net[id].dst].In(s.net[id].epoch) ==>
            s.net[id].iter <= s.hosts[s.net[id].dst].Now().iter)
    case Lose(id) => id in s.net
  }

  /** What a host does with a message of its present epoch. */
  function React(h: Host, m: Msg): (Host, Option<Msg>)
    requires h.In(m.epoch)
  {
    match m
    case Rts(src, _, iter, _) => (h.Update(ReceiveRts(h.Now(), iter, src)), None)
    case Grants(_, dst, iter, _) => (h.Update(ReceiveGrants(h.Now(), iter, dst)), None)
    case Accept(src, dst, epoch) =>
      var (e, taken) := ReceiveAccept(h.Now(), src);
      (h.Update(e), if taken then None else Some(GrantsR(src, dst, epoch)))
    case GrantsR(_, _, _) => (h.Update(ReceiveGrantsR(h.Now())), None)
  }

  /** The previous epoch is forgotten, and with it the sender it was matched to. */
  function NextEpoch(h: Host): Host {
    Host(h.cur + 1, h.epochs[h.cur + 1 := NewEpoch()] - {h.cur}, None, None)
  }

  function Forgotten(h: Host): set<(nat, int)> {
    if h.cur in h.epochs && h.Now().matchSender.Some? then {(h.Now().matchSender.value, h.cur)} else {}
  }

  function Apply(s: System, a: Action, limit: nat): System
    requires Possible(s, a, limit)
  {
    match a
    case StartEpoch(h) =>
      SetHost(s, h, NextEpoch(s.hosts[h])).(dropped := s.dropped + Forgotten(s.hosts[h]))
    case SenderIter(h, index, id) =>
      var e := s.hosts[h].Now();
      var choice := AcceptChoice(e, index);
      Post(SetHost(s, h, s.hosts[h].Update(AdvanceIter(Accepted(e, index)))), id,
           if choice.Some? then Some(Accept(h, choice.value, s.hosts[h].cur)) else None)
    case SendRts(h, dst, id) =>
      Post(s, id, Some(Rts(h, dst, s.hosts[h].Now().iter, s.hosts[h].cur)))
    case ReceiverIter(h, index, id) =>
      var e := s.hosts[h].Now();
      var choice := GrantChoice(e, index);
      Post(s, id, if choice.Some? then Some(Grants(choice.value, h, e.iter, s.hosts[h].cur)) else None)
    case Deliver(id, newId) =>
      var m := s.net[id];
      var t := s.(net := s.net - {id});
      if s.hosts[Addressee(m)].In(m.epoch) then
        var (h, reply) := React(s.hosts[Addressee(m)], m);
        Post(SetHost(t, Addressee(m), h), newId, reply)
      else t.(dropped := t.dropped + Settles(m))
    case Lose(id) => s.(net := s.net - {id}, dropped := s.dropped + Settles(s.net[id]))
  }

  ghost predicate Initial(s: System) {
    && s.net == map[] && s.dropped == {}
    && forall h | 0 <= h < |s.hosts| :: s.hosts[h] == Host(-1, map[], None, None)
  }

  ghost predicate Run(ss: seq<System>, acts: seq<Action>, limit: nat) {
    && |ss| == |acts| + 1 && Initial(ss[0])
    && forall i | 0 <= i < |acts| :: Possible(ss[i], acts[i], limit) && ss[i + 1] == Apply(ss[i], acts[i], limit)
  }

  // ---- Claims ----

  datatype Place = InFlight(id: nat) | AtHost(host: nat)

  /** Sender `src` is spoken for by `dst` in `epoch`. */
  datatype Claim = Claim(src: nat, dst: nat, epoch: int)

  /** An acceptance or a refusal on its way, or a receiver that took the sender. */
  function Claims(s: System, p: Place): Option<Claim> {
    match p
    case InFlight(id) =>
      if id in s.net && (s.net[id].Accept? || s.net[id].GrantsR?)
      then Some(Claim(s.net[id].src, s.net[id].dst, s.net[id].epoch)) else None
    case AtHost(r) =>
      if r < |s.hosts| && s.hosts[r].In(s.hosts[r].cur) && s.hosts[r].Now().matchSender.Some?
      then Some(Claim(s.hosts[r].Now().matchSender.value, r, s.hosts[r].cur)) else None
  }

  /** A host keeps the state of its present epoch only, and the data path follows it. */
  ghost predicate HostOk(h: Host) {
    && -1 <= h.cur
    && h.epochs.Keys == (if h.cur == -1 then {} else {h.cur})
    && (h.cur != -1 ==> h.sender == h.Now().matchSender && h.receiver == h.Now().matchReceiver && h.Now().Current())
    && (h.cur == -1 ==> h.sender.None? && h.receiver.None?)
  }

  /** Nothing about a sender is ahead of that sender. */
  ghost predicate NotAhead(s: System, src: nat, epoch: int, iter: nat) {
    && src < |s.hosts| && epoch <= s.hosts[src].cur
    && (s.hosts[src].In(epoch) ==> iter <= s.hosts[src].Now().iter)
  }

  ghost predicate MessagesOk(s: System) {
    && (forall id | id in s.net && (s.net[id].Rts? || s.net[id].Grants?) ::
          s.net[id].dst < |s.hosts| && 0 <= s.net[id].epoch && NotAhead(s, s.net[id].src, s.net[id].epoch, s.net[id].iter))
    && (forall id | id in s.net && (s.net[id].Accept? || s.net[id].GrantsR?) :: s.net[id].dst < |s.hosts|)
    && (forall r, i | 0 <= r < |s.hosts| && s.hosts[r].In(s.hosts[r].cur) && 0 <= i < |s.hosts[r].Now().rtsQ| ::
          NotAhead(s, s.hosts[r].Now().rtsQ[i].peer, s.hosts[r].cur, s.hosts[r].Now().rtsQ[i].iter))
    && (forall r, i | 0 <= r < |s.hosts| && s.hosts[r].In(s.hosts[r].cur) && 0 <= i < |s.hosts[r].Now().grantsQ| ::
          s.hosts[r].Now().grantsQ[i].peer < |s.hosts|)
  }

  /** A sender is spoken for at most once in an epoch, and by the receiver it accepted. */
  ghost predicate ClaimsOk(s: System) {
    && (forall p | Claims(s, p).Some? ::
          var c := Claims(s, p).value;
          && c.src < |s.hosts| && c.dst < |s.hosts| && 0 <= c.epoch <= s.hosts[c.src].cur
          && (s.hosts[c.src].In(c.epoch) ==> s.hosts[c.src].Now().matchReceiver == Some(c.dst)))
    && (forall p, q | Claims(s, p).Some? && Claims(s, q).Some? ::
          Claims(s, p).value.src == Claims(s, q).value.src && Claims(s, p).value.epoch == Claims(s, q).value.epoch ==> p == q)
  }

  /** The other way round, unless an answer was dropped: an accepted receiver's claim is somewhere. */
  ghost predicate Answered(s: System) {
    forall h | 0 <= h < |s.hosts| && s.hosts[h].In(s.hosts[h].cur) && s.hosts[h].Now().matchReceiver.Some? ::
      (h, s.hosts[h].cur) in s.dropped
      || exists p :: Claims(s, p) == Some(Claim(h, s.hosts[h].Now().matchReceiver.value, s.hosts[h].cur))
  }

  ghost predicate Inv(s: System) {
    && (forall h | 0 <= h < |s.hosts| :: HostOk(s.hosts[h]))
    && MessagesOk(s) && ClaimsOk(s) && Answered(s)
  }

  // ---- Every step keeps it ----

  /** Hosts only move on: to later iterations, and to later epochs. */
  ghost predicate MovesOn(s: System, t: System) {
    && |t.hosts| == |s.hosts|
    && forall h | 0 <= h < |s.hosts| ::
         && s.hosts[h].cur <= t.hosts[h].cur
         && (t.hosts[h].cur == s.hosts[h].cur && t.hosts[h].In(t.hosts[h].cur) ==>
               s.hosts[h].In(s.hosts[h].cur) && s.hosts[h].Now().iter <= t.hosts[h].Now().iter)
  }

  lemma NotAheadStays(s: System, t: System, src: nat, epoch: int, iter: nat)
    requires MovesOn(s, t) && NotAhead(s, src, epoch, iter)
    ensures NotAhead(t, src, epoch, iter)
  {
  }

  /** Queued requests name senders that are not ahead, queued grants name hosts. */
  ghost predicate QueuesOk(s: System, h: Host) {
    h.In(h.cur) ==>
      && (forall i | 0 <= i < |h.Now().rtsQ| :: NotAhead(s, h.Now().rtsQ[i].peer, h.cur, h.Now().rtsQ[i].iter))
      && (forall i | 0 <= i < |h.Now().grantsQ| :: h.Now().grantsQ[i].peer < |s.hosts|)
  }

  ghost predicate MsgOk(s: System, m: Msg) {
    m.dst < |s.hosts| && (m.Rts? || m.Grants? ==> 0 <= m.epoch && NotAhead(s, m.src, m.epoch, m.iter))
  }

  lemma MessagesByPart(s: System)
    ensures MessagesOk(s) <==>
            && (forall id | id in s.net :: MsgOk(s, s.net[id]))
            && (forall r | 0 <= r < |s.hosts| :: QueuesOk(s, s.hosts[r]))
  {
  }

  /** One host changes and at most one message is added: only these need looking at. */
  lemma MessagesStay(s: System, t: System, h: nat)
    requires MessagesOk(s) && MovesOn(s, t) && h < |s.hosts|
    requires forall g | 0 <= g < |s.hosts| && g != h :: t.hosts[g] == s.hosts[g]
    requires QueuesOk(t, t.hosts[h])
    requires forall id | id in t.net :: (id in s.net && t.net[id] == s.net[id]) || MsgOk(t, t.net[id])
    ensures MessagesOk(t)
  {
    MessagesByPart(s);
    forall id | id in t.net
      ensures MsgOk(t, t.net[id])
    {
      if id in s.net && t.net[id] == s.net[id] && (s.net[id].Rts? || s.net[id].Grants?) {
        NotAheadStays(s, t, s.net[id].src, s.net[id].epoch, s.net[id].iter);
      }
    }
    forall r | 0 <= r < |s.hosts|
      ensures QueuesOk(t, t.hosts[r])
    {
      if r != h {
        QueuesStay(s, t, s.hosts[r]);
      }
    }
    MessagesByPart(t);
  }

  lemma QueuesStay(s: System, t: System, h: Host)
    requires MovesOn(s, t) && QueuesOk(s, h)
    ensures QueuesOk(t, h)
  {
    if h.In(h.cur) {
      forall i | 0 <= i < |h.Now().rtsQ|
        ensures NotAhead(t, h.Now().rtsQ[i].peer, h.cur, h.Now().rtsQ[i].iter)
      {
        NotAheadStays(s, t, h.Now().rtsQ[i].peer, h.cur, h.Now().rtsQ[i].iter);
      }
    }
  }

  /** Claims that disappear are recorded; accepted receivers are either old news or claimed. */
  lemma AnsweredStays(s: System, t: System)
    requires Answered(s) && s.dropped <= t.dropped && |t.hosts| == |s.hosts|
    requires forall p | Claims(s, p).Some? ::
               (Claims(s, p).value.src, Claims(s, p).value.epoch) in t.dropped || Claimed(t, Claims(s, p).value)
               || Withdrawn(t, Claims(s, p).value)
    requires forall h | 0 <= h < |t.hosts| && t.hosts[h].In(t.hosts[h].cur) && t.hosts[h].Now().matchReceiver.Some? ::
               || Claimed(t, Claim(h, t.hosts[h].Now().matchReceiver.value, t.hosts[h].cur))
               || (s.hosts[h].cur == t.hosts[h].cur && s.hosts[h].In(s.hosts[h].cur)
                   && s.hosts[h].Now().matchReceiver == t.hosts[h].Now().matchReceiver)
    ensures Answered(t)
  {
    forall h | 0 <= h < |t.hosts| && t.hosts[h].In(t.hosts[h].cur) && t.hosts[h].Now().matchReceiver.Some?
      ensures (h, t.hosts[h].cur) in t.dropped || Claimed(t, Claim(h, t.hosts[h].Now().matchReceiver.value, t.hosts[h].cur))
    {
      var c := Claim(h, t.hosts[h].Now().matchReceiver.value, t.hosts[h].cur);
      if !Claimed(t, c) && (h, t.hosts[h].cur) !in s.dropped {
        var p :| Claims(s, p) == Some(c);
        assert !Withdrawn(t, c);
      }
    }
  }

  ghost predicate Claimed(s: System, c: Claim) {
    exists p :: Claims(s, p) == Some(c)
  }

  /** The sender itself no longer thinks it is matched. */
  predicate Withdrawn(s: System, c: Claim) {
    c.src < |s.hosts| && s.hosts[c.src].In(c.epoch) && s.hosts[c.src].Now().matchReceiver.None?
  }

  /** What hosts think of themselves changes only for senders nobody speaks for. */
  ghost predicate MatchesStay(s: System, t: System) {
    && |t.hosts| == |s.hosts|
    && forall h | 0 <= h < |s.hosts| ::
         && s.hosts[h].cur <= t.hosts[h].cur
         && (t.hosts[h].cur == s.hosts[h].cur && t.hosts[h].In(t.hosts[h].cur) ==>
               && s.hosts[h].In(s.hosts[h].cur)
               && (t.hosts[h].Now().matchReceiver == s.hosts[h].Now().matchReceiver || Free(t, h, t.hosts[h].cur)))
  }

  ghost predicate Free(s: System, src: nat, epoch: int) {
    forall p | Claims(s, p).Some? :: Claims(s, p).value.src != src || Claims(s, p).value.epoch != epoch
  }

  /** At most one claim moves, and others may only vanish. */
  lemma ClaimsMove(s: System, t: System, from: Place, to: Place)
    requires ClaimsOk(s) && MatchesStay(s, t)
    requires forall p | p != from && p != to :: Claims(t, p) == Claims(s, p) || Claims(t, p).None?
    requires Claims(t, to) == Claims(s, from) || Claims(t, to).None?
    requires to != from ==> Claims(t, from).None?
    ensures ClaimsOk(t)
  {
  }

  lemma ClaimsAdd(s: System, t: System, at: Place, h: nat, dst: nat)
    requires ClaimsOk(s) && |t.hosts| == |s.hosts| && h < |s.hosts| && dst < |s.hosts|
    requires s.hosts[h].In(s.hosts[h].cur) && 0 <= s.hosts[h].cur && s.hosts[h].Now().matchReceiver.None?
    requires t.hosts[h].In(s.hosts[h].cur) && t.hosts[h].Now().matchReceiver == Some(dst)
    requires forall g | 0 <= g < |s.hosts| && g != h :: t.hosts[g] == s.hosts[g]
    requires forall p | p != at :: Claims(t, p) == Claims(s, p)
    requires Claims(t, at) == Some(Claim(h, dst, s.hosts[h].cur))
    ensures ClaimsOk(t)
  {
    assert Free(s, h, s.hosts[h].cur);
  }

  lemma StartEpochMessages(s: System, h: nat, limit: nat)
    requires Inv(s) && Possible(s, StartEpoch(h), limit)
    ensures MessagesOk(Apply(s, StartEpoch(h), limit)) && HostOk(Apply(s, StartEpoch(h), limit).hosts[h])
  {
    MessagesStay(s, Apply(s, StartEpoch(h), limit), h);
  }

  lemma StartEpochKeeps(s: System, h: nat, limit: nat)
    requires Inv(s) && Possible(s, StartEpoch(h), limit)
    ensures Inv(Apply(s, StartEpoch(h), limit))
  {
    var t := Apply(s, StartEpoch(h), limit);
    assert forall p :: Claims(t, p) == if p == AtHost(h) then None else Claims(s, p);
    StartEpochMessages(s, h, limit);
    ClaimsMove(s, t, AtHost(h), AtHost(h));
    AnsweredStays(s, t);
  }

  lemma SenderIterMessages(s: System, a: Action, limit: nat)
    requires Inv(s) && a.SenderIter? && Possible(s, a, limit)
    ensures MessagesOk(Apply(s, a, limit)) && HostOk(Apply(s, a, limit).hosts[a.host])
  {
    MessagesStay(s, Apply(s, a, limit), a.host);
  }

  lemma SenderIterClaims(s: System, a: Action, limit: nat)
    requires Inv(s) && a.SenderIter? && Possible(s, a, limit)
    ensures ClaimsOk(Apply(s, a, limit)) && Answered(Apply(s, a, limit))
  {
    var t, h := Apply(s, a, limit), a.host;
    var choice := AcceptChoice(s.hosts[h].Now(), a.index);
    var c := Claim(h, choice.GetOr(0), s.hosts[h].cur);
    assert forall p :: Claims(t, p) == if p == InFlight(a.newId) && choice.Some? then Some(c) else Claims(s, p);
    if choice.Some? {
      assert Claims(t, InFlight(a.newId)) == Some(c);
      ClaimsAdd(s, t, InFlight(a.newId), h, choice.value);
    } else {
      ClaimsMove(s, t, InFlight(a.newId), InFlight(a.newId));
    }
    AnsweredStays(s, t);
  }

  /** Claims and matches are what they were. */
  lemma NothingClaimed(s: System, t: System)
    requires ClaimsOk(s) && Answered(s) && |t.hosts| == |s.hosts| && t.dropped == s.dropped
    requires forall h | 0 <= h < |s.hosts| ::
               && t.hosts[h].cur == s.hosts[h].cur && (t.hosts[h].In(t.hosts[h].cur) <==> s.hosts[h].In(s.hosts[h].cur))
               && (s.hosts[h].In(s.hosts[h].cur) ==>
                     && t.hosts[h].Now().matchReceiver == s.hosts[h].Now().matchReceiver
                     && t.hosts[h].Now().matchSender == s.hosts[h].Now().matchSender)
    requires forall p: Place | p.InFlight? :: Claims(t, p) == Claims(s, p)
    ensures ClaimsOk(t) && Answered(t)
  {
    assert forall p: Place | p.AtHost? :: Claims(t, p) == Claims(s, p);
    ClaimsMove(s, t, AtHost(0), AtHost(0));
    AnsweredStays(s, t);
  }

  lemma PostMessages(s: System, a: Action, limit: nat)
    requires Inv(s) && (a.SendRts? || a.ReceiverIter?) && Possible(s, a, limit)
    ensures MessagesOk(Apply(s, a, limit)) && HostOk(Apply(s, a, limit).hosts[a.host])
  {
    MessagesStay(s, Apply(s, a, limit), a.host);
  }

  lemma PostClaims(s: System, a: Action, limit: nat)
    requires Inv(s) && (a.SendRts? || a.ReceiverIter?) && Possible(s, a, limit)
    ensures ClaimsOk(Apply(s, a, limit)) && Answered(Apply(s, a, limit))
  {
    var t := Apply(s, a, limit);
    assert forall p :: Claims(t, p) == Claims(s, p);
    NothingClaimed(s, t);
  }

  lemma PostKeeps(s: System, a: Action, limit: nat)
    requires Inv(s) && (a.SendRts? || a.ReceiverIter?) && Possible(s, a, limit)
    ensures Inv(Apply(s, a, limit))
  {
    PostMessages(s, a, limit);
    PostClaims(s, a, limit);
  }

  lemma VanishKeeps(s: System, id: nat)
    requires Inv(s) && id in s.net
    ensures Inv(s.(net := s.net - {id}, dropped := s.dropped + Settles(s.net[id])))
  {
    var t := s.(net := s.net - {id}, dropped := s.dropped + Settles(s.net[id]));
    assert forall p :: Claims(t, p) == if p == InFlight(id) then None else Claims(s, p);
    if s.hosts != [] {
      MessagesStay(s, t, 0);
    }
    ClaimsMove(s, t, InFlight(id), InFlight(id));
    AnsweredStays(s, t);
  }

  /** The assertions a host makes when a message of its present epoch arrives. */
  ghost predicate AssertionsHold(h: Host, m: Msg) {
    h.In(m.epoch) ==>
      match m
      case Rts(_, _, iter, _) => iter <= h.Now().iter
      case Grants(_, _, iter, _) => iter <= h.Now().iter
      case Accept(_, _, _) => true
      case GrantsR(_, dst, _) => h.Now().matchReceiver == Some(dst)
  }

  lemma NoAssertionFires(s: System, a: Action, limit: nat)
    requires Inv(s) && a.Deliver? && Possible(s, a, limit)
    ensures AssertionsHold(s.hosts[Addressee(s.net[a.id])], s.net[a.id])
  {
    var m := s.net[a.id];
    if m.GrantsR? {
      assert Claims(s, InFlight(a.id)) == Some(Claim(m.src, m.dst, m.epoch));
    }
  }

  /** The message is gone and only its addressee has changed. */
  lemma DeliverMessages(s: System, a: Action, limit: nat)
    requires Inv(s) && a.Deliver? && Possible(s, a, limit)
    requires s.hosts[Addressee(s.net[a.id])].In(s.net[a.id].epoch)
    ensures MessagesOk(Apply(s, a, limit)) && HostOk(Apply(s, a, limit).hosts[Addressee(s.net[a.id])])
  {
    var t, m := Apply(s, a, limit), s.net[a.id];
    NoAssertionFires(s, a, limit);
    MessagesByPart(s);
    DeliverQueues(s, a, limit);
    DeliverHost(s, a, limit);
    MessagesStay(s, t, Addressee(m));
  }

  lemma DeliverHost(s: System, a: Action, limit: nat)
    requires Inv(s) && a.Deliver? && Possible(s, a, limit)
    requires s.hosts[Addressee(s.net[a.id])].In(s.net[a.id].epoch)
    ensures HostOk(Apply(s, a, limit).hosts[Addressee(s.net[a.id])])
  {
    NoAssertionFires(s, a, limit);
  }

  lemma DeliverQueues(s: System, a: Action, limit: nat)
    requires Inv(s) && a.Deliver? && Possible(s, a, limit)
    requires s.hosts[Addressee(s.net[a.id])].In(s.net[a.id].epoch)
    ensures MovesOn(s, Apply(s, a, limit))
    ensures QueuesOk(Apply(s, a, limit), Apply(s, a, limit).hosts[Addressee(s.net[a.id])])
  {
    var t, m := Apply(s, a, limit), s.net[a.id];
    var h := s.hosts[Addressee(m)];
    MessagesByPart(s);
    assert MsgOk(s, m) && QueuesOk(s, h);
    QueuesStay(s, t, h);
    if m.Rts? {
      NotAheadStays(s, t, m.src, m.epoch, m.iter);
    }
  }

  lemma DeliverQueuedClaims(s: System, a: Action, limit: nat)
    requires Inv(s) && a.Deliver? && Possible(s, a, limit)
    requires s.net[a.id].Rts? || s.net[a.id].Grants?
    requires s.hosts[Addressee(s.net[a.id])].In(s.net[a.id].epoch)
    ensures ClaimsOk(Apply(s, a, limit)) && Answered(Apply(s, a, limit))
  {
    NothingClaimed(s, Apply(s, a, limit));
  }

  /** Where an accepted match is claimed next: at the receiver, or in the GrantsR that turns it down. */
  function AcceptGoesTo(s: System, a: Action): Place
    requires a.Deliver? && a.id in s.net && s.net[a.id].Accept? && s.net[a.id].dst < |s.hosts|
    requires s.hosts[s.net[a.id].dst].In(s.net[a.id].epoch)
  {
    if s.hosts[s.net[a.id].dst].Now().matchSender.None? then AtHost(s.net[a.id].dst) else InFlight(a.newId)
  }

  lemma AcceptMovesClaim(s: System, a: Action, limit: nat)
    requires Inv(s) && a.Deliver? && Possible(s, a, limit)
    requires s.net[a.id].Accept? && s.hosts[s.net[a.id].dst].In(s.net[a.id].epoch)
    ensures var c := Some(Claim(s.net[a.id].src, s.net[a.id].dst, s.net[a.id].epoch));
            && Claims(s, InFlight(a.id)) == c
            && forall p :: Claims(Apply(s, a, limit), p) ==
                             if p == AcceptGoesTo(s, a) then c else if p == InFlight(a.id) then None else Claims(s, p)
  {
  }

  lemma DeliverAcceptClaims(s: System, a: Action, limit: nat)
    requires Inv(s) && a.Deliver? && Possible(s, a, limit)
    requires s.net[a.id].Accept? && s.hosts[s.net[a.id].dst].In(s.net[a.id].epoch)
    ensures ClaimsOk(Apply(s, a, limit)) && Answered(Apply(s, a, limit))
  {
    var t := Apply(s, a, limit);
    AcceptMovesClaim(s, a, limit);
    assert Claims(t, AcceptGoesTo(s, a)).Some?;
    ClaimsMove(s, t, InFlight(a.id), AcceptGoesTo(s, a));
    AnsweredStays(s, t);
  }

  lemma DeliverGrantsRClaims(s: System, a: Action, limit: nat)
    requires Inv(s) && a.Deliver? && Possible(s, a, limit)
    requires s.net[a.id].GrantsR? && s.hosts[s.net[a.id].src].In(s.net[a.id].epoch)
    ensures ClaimsOk(Apply(s, a, limit)) && Answered(Apply(s, a, limit))
  {
    var t, m := Apply(s, a, limit), s.net[a.id];
    assert Claims(s, InFlight(a.id)) == Some(Claim(m.src, m.dst, m.epoch));
    GrantsRMovesClaim(s, a, limit);
    assert Free(t, m.src, m.epoch);
    ClaimsMove(s, t, InFlight(a.id), InFlight(a.id));
    AnsweredStays(s, t);
  }

  lemma GrantsRMovesClaim(s: System, a: Action, limit: nat)
    requires Inv(s) && a.Deliver? && Possible(s, a, limit)
    requires s.net[a.id].GrantsR? && s.hosts[s.net[a.id].src].In(s.net[a.id].epoch)
    ensures forall p :: Claims(Apply(s, a, limit), p) == if p == InFlight(a.id) then None else Claims(s, p)
  {
    NoAssertionFires(s, a, limit);
  }

  lemma DeliverKeeps(s: System, a: Action, limit: nat)
    requires Inv(s) && a.Deliver? && Possible(s, a, limit)
    ensures Inv(Apply(s, a, limit))
  {
    var m := s.net[a.id];
    if !s.hosts[Addressee(m)].In(m.epoch) {
      VanishKeeps(s, a.id);
    } else {
      DeliverMessages(s, a, limit);
      if m.Accept? {
        DeliverAcceptClaims(s, a, limit);
      } else if m.GrantsR? {
        DeliverGrantsRClaims(s, a, limit);
      } else {
        DeliverQueuedClaims(s, a, limit);
      }
    }
  }

  lemma StepKeeps(s: System, a: Action, limit: nat)
    requires Inv(s) && Possible(s, a, limit)
    ensures Inv(Apply(s, a, limit))
  {
    match a
    case StartEpoch(h) => StartEpochKeeps(s, h, limit);
    case SenderIter(_, _, _) =>
      SenderIterMessages(s, a, limit);
      SenderIterClaims(s, a, limit);
    case SendRts(_, _, _) => PostKeeps(s, a, limit);
    case ReceiverIter(_, _, _) => PostKeeps(s, a, limit);
    case Lose(id) => VanishKeeps(s, id);
    case Deliver(_, _) => DeliverKeeps(s, a, limit);
  }

  lemma {:induction false} RunKeeps(ss: seq<System>, acts: seq<Action>, limit: nat)
    requires Run(ss, acts, limit)
    ensures forall i | 0 <= i < |ss| :: Inv(ss[i])
  {
    if acts == [] {
      assert forall p :: Claims(ss[0], p).None?;
    } else {
      var n := |acts| - 1;
      RunKeeps(ss[..|acts|], acts[..n], limit);
      assert Inv(ss[..|acts|][n]) && ss[..|acts|][n] == ss[n];
      StepKeeps(ss[n], acts[n], limit);
      forall i | 0 <= i < |ss|
        ensures Inv(ss[i])
      {
        if i < |acts| {
          assert ss[i] == ss[..|acts|][i];
        }
      }
    }
  }

  // ---- What it means ----

  /** No assertion of the message handlers fires in any run. */
  lemma RunAssertionsHold(ss: seq<System>, acts: seq<Action>, limit: nat, i: nat)
    requires Run(ss, acts, limit) && i < |acts| && acts[i].Deliver?
    ensures AssertionsHold(ss[i].hosts[Addressee(ss[i].net[acts[i].id])], ss[i].net[acts[i].id])
  {
    RunKeeps(ss, acts, limit);
    NoAssertionFires(ss[i], acts[i], limit);
  }

  /**
   In one epoch the data path pairs every receiver with a sender that sends to it, and no sender with
   two receivers.
   */
  lemma DataPathAgrees(ss: seq<System>, acts: seq<Action>, limit: nat, i: nat, r: nat, s: nat)
    requires Run(ss, acts, limit) && i < |ss| && r < |ss[i].hosts| && ss[i].hosts[r].sender == Some(s)
    ensures s < |ss[i].hosts|
    ensures ss[i].hosts[s].cur == ss[i].hosts[r].cur ==> ss[i].hosts[s].receiver == Some(r)
    ensures forall q | 0 <= q < |ss[i].hosts| && ss[i].hosts[q].sender == Some(s) && ss[i].hosts[q].cur == ss[i].hosts[r].cur :: q == r
  {
    RunKeeps(ss, acts, limit);
    var t := ss[i];
    assert Claims(t, AtHost(r)) == Some(Claim(s, r, t.hosts[r].cur));
    forall q | 0 <= q < |t.hosts| && t.hosts[q].sender == Some(s) && t.hosts[q].cur == t.hosts[r].cur
      ensures q == r
    {
      assert Claims(t, AtHost(q)) == Some(Claim(s, q, t.hosts[q].cur));
    }
  }

  /**
   The converse, which fails only while an answer is on its way or after one was dropped: a sender
   that thinks it is matched is matched.
   */
  lemma SettledSendersAgree(ss: seq<System>, acts: seq<Action>, limit: nat, i: nat, s: nat, r: nat)
    requires Run(ss, acts, limit) && i < |ss| && s < |ss[i].hosts| && ss[i].hosts[s].receiver == Some(r)
    requires (s, ss[i].hosts[s].cur) !in ss[i].dropped
    requires forall id | id in ss[i].net && (ss[i].net[id].Accept? || ss[i].net[id].GrantsR?) ::
               ss[i].net[id].src != s || ss[i].net[id].epoch != ss[i].hosts[s].cur
    ensures r < |ss[i].hosts| && ss[i].hosts[r].cur == ss[i].hosts[s].cur && ss[i].hosts[r].sender == Some(s)
  {
    RunKeeps(ss, acts, limit);
    var t := ss[i];
    var p :| Claims(t, p) == Some(Claim(s, r, t.hosts[s].cur));
    assert p == AtHost(r);
  }
}
