# Flow scheduling for datacentre networks: a verified model

The repository holds a packet-level simulator and a DPDK prototype of protocols that decide which
sender may send to which receiver, and when. This project models their decision logic in Dafny and
proves what it is for.

- Matching: what makes a set of sender/receiver pairs good, shared by all the schedulers.
- PriorityQueue, FlowQueue: the scanned queue with a cached winner, and how hosts take it apart.
- RankingArbiter, RankingReceiver, RankingLease, TokenFlow, TokenRound, RankingHost: the Ranking
  protocol. The arbiter grants disjoint pairs; a receiver holds a grant, its timers and its token
  budget; a system of N receivers with lost and reordered messages never has two grants of one port;
  a flow asks for missing packets pass by pass; flows take turns; the host object does both.
- RankingRequests: what the arbiter is asked in that system. SourceList: the order of a request's list.
- RankingWorld, ForgottenGrant, RankingProgress: the system together with its flows, tokens and data
  packets; exactly when a grant is forgotten in it, and what keeps a receiver asking for packets.
- PimEpoch, PimAgreement, PimProgress, PimFlow: parallel iterative matching without a central node:
  the handlers, agreement under loss over many epochs, progress in lockstep, and the data path.
- Fastpass, SortedList, Controller: greedy slot scheduling, and the prototype's controller over a
  linked list kept in order.
- CapabilityFlow, CapabilityRound, CapabilityHost: the pHost-like receiver and its issue goal.
- ReliableFlow, ReliableDelivery: the window flow, and its runs over a losing network.
- Pacer: the prototype's leaky bucket. PFabricQueue: the priority-drop queue. EmpiricalCdf: drawing
  from a table.

Code that changes state in place is a class whose methods are proved equal to a function on values,
or to stay within a relation where the source leaves an order open; the properties are then proved
about those functions and relations and about all runs built from them. Time is an
integer that steps receive as an argument, random choice is any choice, and a timer that has been
cancelled is no longer live.

Four properties one might expect turned out false of the code. Each has a run that breaks it and the
exact condition under which it holds: a Ranking grant can be forgotten
(`ForgottenGrant.GrantsForgottenExactlyWhen`), a pass can start without its waiting time
(`TokenFlow.OpensUnwaitedExactlyWhen`, `TokenFlow.OpensUnwaitedExactlyForSizes`), a window flow whose last
acknowledgement is lost never finishes (`ReliableDelivery.QuietTransferFinishesExactlyWhen`), and the
pFabric queue can exceed its limit (`PFabricQueue.LimitKeptExactlyWhen`).

`dafny verify dfyconfig.toml` checks the whole project.

## Model

| member | source | states |
|---|---|---|
| `Matching.AtLeastHalf` | simulator/ext/fastpasshost.cpp:65-110 | a chosen set that shares a port with every candidate holds at least half as many pairs as any conflict-free set of candidates; every greedy scheduler below rests on it |
| `Matching.ConflictFreeIsOneToOne` | simulator/ext/fastpasshost.cpp:92-101 | in a conflict-free set pairs, senders and receivers are equally many |
| `PriorityQueue.BestIndexIsBest` | simulator/ext/custompriorityqueue.h:61-73 | for a strict weak order the scan of `top` finds an element served after nobody, and among equals the one pushed last |
| `PriorityQueue.CustomPriorityQueue.Top` | simulator/ext/custompriorityqueue.h:61-73 | `top` returns the winner of a full rescan and caches exactly its position |
| `PriorityQueue.CustomPriorityQueue.Pop` | simulator/ext/custompriorityqueue.h:50-59 | `pop` removes the element the last `top` returned, or the best one when nothing is cached |
| `PriorityQueue.CustomPriorityQueue.TakeTop` | simulator/ext/custompriorityqueue.h:50-73 | top, keys changed, pop: the element removed is still the one seen, and nothing else leaves |
| `RankingArbiter.ServeAllocates` | simulator/ext/rankinghost.cpp:736-782 | an epoch empties the queue; its grants are requested pairs on ports that were free, no port twice, and exactly those ports become busy |
| `RankingArbiter.ServeIsMaximal` | simulator/ext/rankinghost.cpp:746-773 | a free receiver's request for a free sender is served, or loses the sender to a receiver ranked no later |
| `RankingArbiter.EpochIsHalfOptimal` | simulator/ext/rankinghost.cpp:746-773 | no conflict-free choice among the grantable requests of an epoch is more than twice as large as what the epoch grants |
| `RankingArbiter.ServePrefersEarlier` | simulator/ext/rankinghost.cpp:757-772 | each grant of an epoch answers a request in which every source listed earlier was busy at the start or went to a receiver ranked no later |
| `RankingArbiter.RankingArbiter.ScheduleEpoch` | simulator/ext/rankinghost.cpp:736-782 | the loop over the request queue and the busy-bit arrays computes the specified epoch, grants in order |
| `RankingArbiter.RankingArbiter.ServeRequest` | simulator/ext/rankinghost.cpp:749-771 | one request: nothing for a busy receiver, else the free sender before which every listed one is busy; both ports are marked busy |
| `RankingArbiter.RankingArbiter.ReceiveListSrcs` | simulator/ext/rankinghost.cpp:784-795 | a request is queued, and a returned pair of ports becomes free |
| `RankingReceiver.NoAssertionFires` | simulator/ext/rankinghost.cpp:255-260 | in a good state no input makes a handler meet one of the source's timer assertions (also 310-322, 353-358, 480-510, 628-713 of the same file) |
| `RankingReceiver.HandleKeepsReceiverOk` | simulator/ext/rankinghost.cpp:290-364 | every handler keeps one live event per timer pointer, no wakeup while a grant is owed, and the token budget of the present grant |
| `RankingReceiver.HandleKeepsTimers` | simulator/ext/rankinghost.cpp:480-510 | timers alone: each pointer names the one live event of its kind, and a receiver that owes a grant has no wakeup |
| `RankingReceiver.HandleKeepsBudget` | simulator/ext/rankinghost.cpp:617-626 | budget alone: tokens left plus tokens sent in the round equal what the grant carried, and every token went to the granted source |
| `RankingReceiver.RoundNamesOneGrant` | simulator/ext/rankinghost.cpp:696-700 | two tokens with one round number went to the same source: no two grants share a round |
| `RankingReceiver.GrantEffect` | simulator/ext/rankinghost.cpp:331-364 | an input keeps the grant, gives back exactly the pair owed, or forgets it; an unusable new grant goes straight back |
| `RankingReceiver.ForgetsExactlyWhen` | simulator/ext/rankinghost.cpp:340-346 | a grant still owed is forgotten without being given back if and only if a flow's last packet arrives under that very grant |
| `RankingReceiver.HandleKeepsReserve` | simulator/ext/rankinghost.cpp:628-649 | a grant that has been used and is still owed has more tokens left than the give-back gap |
| `RankingReceiver.OwesAfterTurnExactlyWhen` | simulator/ext/rankinghost.cpp:617-649 | after its flow's turn a grant is still owed if and only if it was before, the flow need not wait, and both the flow's work and the tokens not yet sent exceed the give-back gap; otherwise exactly that grant goes back |
| `RankingReceiver.WorksOnGrantExactlyWhen` | simulator/ext/rankinghost.cpp:331-364 | a receiver works on a grant until its last token, until a packet of its round completes a flow, or until its own flow completes with no other ready |
| `RankingReceiver.RequestsExactlyWhen` | simulator/ext/rankinghost.cpp:365-478 | a request goes out if and only if a grant is given back, or something is listed and either the retry has come or there is no grant to work on |
| `RankingReceiver.TokensGoOnExactlyWhen` | simulator/ext/rankinghost.cpp:655-671 | the token event is set again at once after a token, else for when a flow is ready; a used grant, the top flow's request and data for it bring it forward |
| `RankingLease.RunKeeps` | simulator/ext/rankinghost.cpp:736-797 | over every run of N hosts and the arbiter, with any order and loss of messages: each unreturned grant is in at most one place, each port is in at most one grant, and both its ports are busy at the arbiter |
| `RankingLease.ReturnFreesABusyPair` | simulator/ext/rankinghost.cpp:791-794 | a grant coming back names two busy ports, is outstanding, and no other place holds a grant of either port |
| `RankingLease.RunAssertionsHold` | simulator/ext/rankinghost.cpp:797-802 | the assertions at the arbiter and at the receivers hold at every step of every run |
| `RankingLease.BusyEquallyMany` | simulator/ext/rankinghost.cpp:767-768 | in every reachable state as many senders as receivers are busy |
| `RankingLease.LostExactlyWhen` | simulator/ext/rankinghost.cpp:343-347 | a step leaves a grant with nobody if and only if it drops the message carrying it, or a flow's last packet arrives under the grant its receiver still owes |
| `RankingLease.LostStaysLost` | simulator/ext/rankinghost.cpp:343-347 | a lost grant stays lost at the next step |
| `RankingLease.LostForever` | simulator/ext/rankinghost.cpp:343-347 | from then on its two ports are never granted again, in any run |
| `RankingWorld.StepRefines` | simulator/ext/rankinghost.cpp:290-364 | whatever happens to requests, tokens, data packets, timers and flows is possible in the lease system: a finished flow's last packet names a round a token was sent in, requests list known sources, a turn is reported only under a grant |
| `RankingWorld.RunKeeps` | simulator/ext/rankingflow.cpp:328-336 | in every run of receivers, flows, tokens and data together the lease is in order, finished flows are exactly the complete ones, every token on its way names a packet asked for and, for a long flow, a round of its source, and data never overtakes tokens |
| `RankingWorld.ForgetsGrantExactlyWhen` | simulator/ext/rankinghost.cpp:331-347 | an event makes a receiver forget the grant it owes if and only if it is the arrival of a long flow's only missing packet, answering a token of that grant's round |
| `RankingWorld.ForgettingLoses` | simulator/ext/rankinghost.cpp:343-347 | then both ports of the grant stay busy and nobody owes it |
| `RankingProgress.ForgottenOnlyAmidWork` | simulator/ext/rankinghost.cpp:628-649 | in every run a grant is forgotten only if, at its flow's last turn under it, the flow did not wait, more than the gap of its packets lacked a token, and more than the gap of tokens were left |
| `RankingProgress.UnaskedExactlyWhen` | simulator/ext/rankinghost.cpp:340-363 | in every run a receiver with an unfinished long flow has neither a grant nor a live retry if and only if it has forgotten a grant and since then no long flow was announced and no grant offered |
| `RankingProgress.StuckExactlyWhen` | simulator/ext/rankinghost.cpp:340-363 | it has no live token event either if and only if, besides, none is set |
| `RankingProgress.RetryLivesExactlyWhen` | simulator/ext/rankinghost.cpp:496-510 | after a retry another is live if and only if a long flow of the receiver is unfinished |
| `ForgottenGrant.GrantsForgottenExactlyWhen` | simulator/ext/rankinghost.cpp:343-347 | some run forgets a grant if and only if a grant carries more tokens than the give-back gap plus one, whatever the window, the timeouts and the free tokens |
| `ForgottenGrant.ForgetsInSomeRun` | simulator/ext/rankinghost.cpp:343-347 | that run from the start: a long flow is asked for grant after grant, the wait is kept, packet 0 is asked for again under a last grant, the others arrive late and packet 0 last |
| `RankingLease.StepKeeps` | simulator/ext/rankinghost.cpp:673-713 | one step of any kind keeps the lease invariant |
| `RankingRequests.PendingIsUnserved` | simulator/ext/rankinghost.cpp:784-795 | in every run the arbiter's queue holds exactly the requests delivered to it since the last epoch, each as often as it came |
| `RankingRequests.GrantsAnswerRequests` | simulator/ext/rankinghost.cpp:746-782 | every grant of a run answers a request delivered since the last epoch, from that receiver and listing that sender |
| `RankingHost.RankingHost.SendTokenEvt` | simulator/ext/rankinghost.cpp:511-671 | the token event is one step of the receiver's machine; every flow is as before or as its turn leaves it, one flow that need not wait gets a token or none does, and a long flow's turn is what the grant is charged with; if none was sent, every short flow left and the granted source's flow wait, a wake-up is set exactly when the first of them is ready before the horizon, and for that moment, which lies in the future; the granted flow has its turn exactly when its source has a ready one; data still does not overtake tokens |
| `RankingHost.RankingHost.TokenLoop` | simulator/ext/rankinghost.cpp:537-649 | the loop terminates after one flow's successful turn or when no flow is left, every unfinished short flow is put back, and without a token the time found is when the first of the flows that had a turn is ready |
| `RankingHost.RankingHost.VisitLongFlow` | simulator/ext/rankinghost.cpp:617-649 | a long flow's turn charges the grant, resets it with the last token, and gives it back when the flow waits or little work or few tokens are left (what that means: RankingReceiver.OwesAfterTurnExactlyWhen) |
| `RankingHost.RankingHost.VisitFlow` | simulator/ext/rankinghost.cpp:564-616 | a visit leaves the flow as its turn does; it sends exactly when the flow need not wait, and otherwise lowers the wake-up time to the moment it is ready |
| `RankingHost.RankingHost.GetTopUnfinishFlow` | simulator/ext/rankinghost.cpp:262-289 | a ready flow of the source is found exactly when there is one, and only finished flows leave the queue |
| `RankingHost.RankingHost.ReceiveFlow` | simulator/ext/rankinghost.cpp:290-330 | a new long flow may prompt a request, a new short one starts the token timer; flows and queues change accordingly |
| `RankingHost.RankingHost.ReceiveGosrcPkt` | simulator/ext/rankinghost.cpp:673-713 | an arriving grant is used when its source has a ready flow and given back otherwise |
| `RankingHost.RankingHost.FlowFinishAtReceiver` | simulator/ext/rankinghost.cpp:331-364 | the end of a long flow is one step of the receiver's machine, looking for another flow of the source exactly where the source does |
| `RankingHost.RankingHost.ReceiveDataPkt` | simulator/ext/rankingflow.cpp:204-275 | a data packet updates its flow, and ends it, or resumes its tokens exactly when the grant is for its source and it is the flow to serve; a short flow's packet that comes before its request announces the flow first |
| `RankingHost.RankingHost.WakeupEvt` | simulator/ext/rankinghost.cpp:496-510 | a wake-up asks for exactly the sources with a ready flow, each once, in the order of how many packets that flow still wants; a retry is live afterwards if and only if a queued flow is unfinished |
| `RankingHost.RankingHost.ListSources` | simulator/ext/rankinghost.cpp:378-463 | the sweep lists exactly the sources with a ready flow, sorted by how many packets that flow still wants, drops only finished flows, and leaves no source queued exactly when no queued flow is unfinished |
| `TokenRound.TurnWaits` | simulator/ext/rankinghost.cpp:579-600 | a flow that has to wait is ready strictly later, and still waits after its turn |
| `TokenRound.TurnsIssueOne` | simulator/ext/rankinghost.cpp:537-649 | when every flow is as before or as its turn leaves it and only one turn succeeded, that flow alone is counted a token, and data still does not overtake tokens |
| `FlowQueue.SplitEnds` | simulator/ext/rankinghost.cpp:262-289 | popping blocked flows aside and dropping finished ones loses no unfinished flow, and when nothing is left no queued flow was ready |
| `TokenFlow.ScanIsLeastAheadElseLeast` | simulator/ext/rankingflow.cpp:344-367 | the circular scan returns the least missing packet ahead of the last one asked for, or else the least missing one of all |
| `TokenFlow.IncompleteIsCount` | simulator/ext/rankingflow.cpp:324-326 | a packet is missing exactly when the count falls short of the size |
| `TokenFlow.RunKeeps` | simulator/ext/rankinghost.cpp:599-615 | in every run of a short or a long flow, its request, visits and arrivals interleaved: everything up to the last token has arrived or got a token in this pass; when the timer is armed that is every packet; data never overtakes tokens; tokens run ahead of data by at most the window plus one, or the free tokens of a short flow |
| `TokenFlow.PassOpens` | simulator/ext/rankingflow.cpp:344-388 | a new pass opens exactly when nothing beyond the last token is missing, at the least missing packet; within a pass token numbers increase |
| `TokenFlow.AnnouncementCovers` | simulator/ext/rankingflow.cpp:298-322 | the request of a short flow gives every packet a token: the pass is covered in full, the gap equals the size, and a visit before its first timeout sends nothing |
| `TokenFlow.OpensUnwaitedExactlyWhen` | simulator/ext/rankinghost.cpp:599-615 | in every run, a new pass opens without a wait before it if and only if a packet was missing beyond the last token when that token went out and has arrived since; otherwise the wait begun has run out |
| `TokenFlow.OpensUnwaitedExactlyForSizes` | simulator/ext/rankinghost.cpp:608-611 | it can happen to a short or long flow if and only if it has more than one packet |
| `TokenFlow.OpensUnwaitedInSomeRun` | simulator/ext/rankinghost.cpp:608-611 | for every window and every flow of two packets or more, short or long, the run from a new flow in which it happens |
| `TokenFlow.ReceiveKeepsValid` | simulator/ext/rankingflow.cpp:215-241 | `received_until` stays the least missing packet, and a full flow is marked finished |
| `TokenFlow.ArrivalCloses` | simulator/ext/rankingflow.cpp:215-241 | a data packet takes exactly itself off the missing ones, brings the gap down to the token it answers, and finishes the flow if and only if nothing is missing any more |
| `TokenFlow.GapAfterVisit` | simulator/ext/rankingflow.cpp:338-342 | a token widens the gap by one; a visit that finds the window full and its timeout over leaves a gap of exactly the window; a visit in vain leaves it alone |
| `TokenFlow.TimeoutIsWorthTwo` | simulator/ext/rankinghost.cpp:578-600 | a timeout of a full window lets two tokens out and no third before the next timeout, while no data answers and no wait begins |
| `TokenFlow.WaitBeginsExactlyWhen` | simulator/ext/rankinghost.cpp:599-615 | a wait begins if and only if the token sent is for the last packet missing, and lasts as configured; the goal rises by what is missing exactly when a wait has run out |
| `TokenFlow.RankingFlow.GetNextTokenSeqNum` | simulator/ext/rankingflow.cpp:344-367 | the loop finds that packet within `size` probes and never reaches its final assertion |
| `TokenFlow.RankingFlow.ReceiveDataPacket` | simulator/ext/rankingflow.cpp:215-241 | the loop advancing `received_until`, the counters and the finish test do what the specification says |
| `TokenFlow.RankingFlow.Visit` | simulator/ext/rankinghost.cpp:579-615 | one turn in the token loop: reopen, relax, send, arm |
| `PimEpoch.PimEpoch.HandleAllRts` | simulator/ext/pimhost.cpp:215-242 | an unmatched receiver grants a queued request of its own iteration whenever there is one |
| `PimEpoch.PimEpoch.HandleAllGrants` | simulator/ext/pimhost.cpp:243-302 | an unmatched sender takes a grant of its own iteration whenever there is one |
| `PimEpoch.PimEpoch.ScheduleSenderIterEvt` | simulator/ext/pimhost.cpp:303-333 | the sender's event settles the grants of its iteration, opens the next one and asks again only while unmatched and within the limit |
| `PimEpoch.PimEpoch.ReceiveAcceptPkt` | simulator/ext/pimhost.cpp:146-171 | the first accept is taken, later ones are turned down |
| `PimEpoch.PimEpoch.ReceiveRtsPkt` | simulator/ext/pimhost.cpp:172-188 | a request of the present iteration is queued and the others stay, an older one is ignored; the queues only hold the present iteration |
| `PimEpoch.PimEpoch.ReceiveGrantsPkt` | simulator/ext/pimhost.cpp:100-118 | a grant of the present iteration is queued, an older one ignored |
| `PimEpoch.MessagesQueuedExactlyWhen` | simulator/ext/pimhost.cpp:172-188 | a request or grant joins the others, and is queued, if and only if it is not of an earlier iteration (grants: 100-118 of the same file) |
| `PimEpoch.PimEpoch.ReceiveGrantsRPkt` | simulator/ext/pimhost.cpp:132-145 | a turned-down sender is unmatched again, by the receiver it was matched to |
| `PimEpoch.PimEpoch.ScheduleReceiverIterEvt` | simulator/ext/pimhost.cpp:334-344 | the receiver's event grants a request of its iteration unless it is matched, past the limit or unasked |
| `PimAgreement.RunKeeps` | simulator/ext/pimhost.cpp:132-171 | over every run of hosts moving through epochs, with loss and reordering: a sender is claimed at most once among accepts in flight, GrantsR in flight and matched receivers, and a claim names the sender's own match |
| `PimAgreement.RunAssertionsHold` | simulator/ext/pimhost.cpp:132-144 | no assertion in the message handlers ever fires, the one on GrantsR arrival included |
| `PimAgreement.DataPathAgrees` | simulator/ext/pimflow.cpp:193-228 | a receiver matched to a sender in an epoch is the one that sender is matched to in that epoch |
| `PimAgreement.SettledSendersAgree` | simulator/ext/pimhost.cpp:146-171 | once nothing of an epoch is in flight or lost, every matched sender's receiver is matched to it |
| `PimAgreement.StepKeeps` | simulator/ext/pimhost.cpp:243-344 | one step of any kind, a new epoch included, keeps the claims in order |
| `PimProgress.RoundAgrees` | simulator/ext/pimhost.cpp:189-344 | a lockstep iteration keeps senders and receivers in agreement |
| `PimProgress.QueuesNameSenders` | simulator/ext/pimhost.cpp:172-188 | receiving exactly the requests and grants that were sent, in any order, leaves queues that name exactly those who asked and those who granted: what an iteration starts from |
| `PimProgress.RoundProgresses` | simulator/ext/pimhost.cpp:189-344 | a lockstep iteration keeps every pair and adds one, unless the matching is already maximal |
| `PimProgress.PairsGrow` | simulator/ext/pimhost.cpp:303-344 | after k iterations there are k pairs or the matching is maximal |
| `PimProgress.EpochReachesMaximal` | simulator/ext/pimhost.cpp:303-344 | as many iterations as there are senders or receivers to match, whichever are fewer, reach a maximal matching with at least half as many pairs as any other |
| `PimFlow.AckKeeps` | simulator/ext/pimflow.cpp:138-186 | the sender's count of unacknowledged packets is exact and reaches zero only when every packet has been delivered |
| `PimFlow.RunFrom` | simulator/ext/pimflow.cpp:188-247 | over every run with loss and reordering the sender's record stays exact, and the pass covered |
| `PimFlow.Run` | simulator/ext/pimflow.cpp:188-247 | in every run from a new flow a finished flow has delivered every packet, an unfinished one counts exactly what is unacknowledged |
| `PimFlow.WaitMeansAllSent` | simulator/ext/pimhost.cpp:576-593 | in every state of a run, when a visit starts the wait every packet has been acknowledged or was sent in the pass it closes |
| `PimFlow.WaitClosesAPass` | simulator/ext/pimhost.cpp:576-593 | a visit starts the wait exactly when nothing unacknowledged lies beyond the packet it sends |
| `PimFlow.SendsExactlyWhen` | simulator/ext/pimhost.cpp:536-593 | a visit sends, the next packet unacknowledged, if and only if neither the wait of a closed pass nor a full window's timeout is running; the gap grows by one, or is the window and one after a timeout |
| `PimFlow.AckCloses` | simulator/ext/pimflow.cpp:138-168 | an acknowledgement takes exactly its packet off those missing and finishes the flow if and only if it was the only one |
| `PimFlow.PimFlow.ReceiveAckPkt` | simulator/ext/pimflow.cpp:138-168 | the loop advancing `ack_until`, the count and the finish do what the specification says |
| `PimFlow.PimFlow.GetNextDataSeqNum` | simulator/ext/pimflow.cpp:261-286 | while something is unacknowledged the scan finds it and never falls through |
| `PimFlow.GetTopUnfinishFlow` | simulator/ext/pimhost.cpp:408-433 | a ready flow is found whenever there is one; a flow with its timer running is returned only when none is ready |
| `Fastpass.SlotIsHalfOptimal` | simulator/ext/fastpasshost.cpp:65-110 | no conflict-free set of waiting flows is more than twice as large as a slot's schedule |
| `Fastpass.FastpassArbiter.ScheduleTimeslot` | simulator/ext/fastpasshost.cpp:65-110 | whatever the pop order: a slot gives each sender at most one of its own flows, receivers all different, every flow left out shares a port with a chosen one, each chosen flow loses one packet, no unfinished flow leaves the queue |
| `Fastpass.FastpassArbiter.ScheduleEpoch` | simulator/ext/fastpasshost.cpp:122-155 | over eight slots a flow is scheduled exactly as often as its count went down, never below zero, under its own sender, and a flow still waiting was shut out of every slot |
| `Fastpass.FastpassArbiter.ReceiveRts` | simulator/ext/fastpasshost.cpp:161-174 | the first request queues a flow once; each sets what is left, or marks the flow finished |
| `Fastpass.SlotAddsUp` | simulator/ext/fastpasshost.cpp:92-101 | packets left and slots given add up to what a flow had |
| `Fastpass.EpochOneMore` | simulator/ext/fastpasshost.cpp:122-155 | one more slot keeps rows, distinct receivers, counts and exclusion in order |
| `SortedList.InsertKeepsSorted` | prototype/src/pq.c:39-69 | insertion keeps the list sorted and adds exactly one item |
| `SortedList.InsertionPointParts` | prototype/src/pq.c:49-67 | everything before the insertion point is no larger, strictly smaller behind the head, and everything after is no smaller |
| `SortedList.RequestList.Push` | prototype/src/pq.c:39-69 | the pointer traversal inserts at exactly that point of the list |
| `SortedList.RequestList.Pop` | prototype/src/pq.c:31-36 | the head leaves, the rest of the list is untouched |
| `Controller.ServeGrantsDisjointPairs` | prototype/src/rtp_host.c:798-830 | grants are requests on previously free ports and pairwise disjoint |
| `Controller.ServeTakesPorts` | prototype/src/rtp_host.c:804-809 | exactly the ports that grants use stop being free |
| `Controller.PassedOverForASmallerFlow` | prototype/src/rtp_host.c:798-830 | a request on free ports is granted, or loses one of them to a grant for no larger a flow |
| `Controller.ServeIsHalfOptimal` | prototype/src/rtp_host.c:798-830 | no conflict-free choice among the grantable requests has more than twice as many pairs |
| `Controller.RunKeeps` | prototype/src/rtp_host.c:741-830 | in every run the request list is sorted, no port is granted again before it has been returned, and a port is free exactly when it is not out |
| `Controller.QueuedExactlyWhen` | prototype/src/rtp_host.c:754-796 | in every run a request waits if and only if its receiver has listed that sender, with that flow size, since the last timer |
| `Controller.QueuedAreListed` | prototype/src/rtp_host.c:754-796 | and as many wait as sources were listed |
| `Controller.GrantsAnswerRequests` | prototype/src/rtp_host.c:754-830 | every grant in a run's log answers an earlier packet of that receiver that lists that sender |
| `Controller.ReturnedInBetween` | prototype/src/rtp_host.c:765-773 | between two grants of one sender that sender has been returned |
| `Controller.RtpController.HandleRequests` | prototype/src/rtp_host.c:798-830 | the loop over the linked list empties it and grants as specified, each grant with a token number within the configured bounds |
| `Controller.RtpController.ReceiveListSrcs` | prototype/src/rtp_host.c:754-796 | returned ports become free and every listed source is inserted at its place |
| `Controller.RtpController.InitController` | prototype/src/rtp_host.c:741-752 | sixteen ports are free on each side and the list is empty |
| `ReliableFlow.PendingIsExact` | simulator/coresim/flow.cpp:66-92 | what a call sends is exactly the segments that lie in the window, are not yet received and were not yet passed, in order and once each |
| `ReliableFlow.AckIsExact` | simulator/coresim/flow.cpp:191-230 | every data packet is answered with the end of the longest received prefix and exactly the segments held beyond it, in increasing order |
| `ReliableFlow.AllBytes` | simulator/coresim/flow.cpp:195-201 | the bytes counted are all the bytes exactly when every segment has arrived |
| `ReliableFlow.AckKeeps` | simulator/coresim/flow.cpp:125-165 | an acknowledgement keeps `last_unacked_seq <= recv_till <= size`, the timer and the count in order |
| `ReliableFlow.TimeoutKeeps` | simulator/coresim/flow.cpp:241-247 | a timeout leaves exactly one live timer |
| `ReliableFlow.Flow.SendPendingData` | simulator/coresim/flow.cpp:66-92 | the send loop sends those segments and sets the timer if none is set |
| `ReliableFlow.Flow.FindAck` | simulator/coresim/flow.cpp:209-227 | the one-pass loop computes prefix end and list |
| `ReliableFlow.Flow.ReceiveAck` | simulator/coresim/flow.cpp:125-165 | the handler is the specified transition |
| `ReliableFlow.Flow.ReceiveDataPkt` | simulator/coresim/flow.cpp:191-230 | the handler is the specified transition |
| `ReliableFlow.Flow.HandleTimeout` | simulator/coresim/flow.cpp:241-247 | the handler is the specified transition, the fired timer's pointer included |
| `ReliableDelivery.RunFrom` | simulator/coresim/flow.cpp:168-189 | every state reachable over a losing, reordering network satisfies the whole invariant: order of the marks, exact count, one retransmission timer exactly while something is unacknowledged |
| `ReliableDelivery.FinishMeansDelivered` | simulator/coresim/flow.cpp:157-164 | whenever the sender finishes, every segment has arrived and every byte has been counted |
| `ReliableDelivery.TimeoutResends` | simulator/coresim/flow.cpp:241-247 | a timeout sends exactly the missing segments of the window it falls back to |
| `ReliableDelivery.AckSendsExactly` | simulator/coresim/flow.cpp:125-165 | a new acknowledgement has exactly the missing segments sent that lie in the window it leaves, one segment wider up to the maximum; an old one sends nothing |
| `ReliableDelivery.StartSendsExactly` | simulator/coresim/flow.cpp:62-92 | a new flow sends exactly the segments its first window holds |
| `ReliableDelivery.QuietTransferFinishesExactlyWhen` | simulator/coresim/flow.cpp:241-247 | with nothing in flight a transfer can still finish if and only if a segment of the fall-back window is missing at the receiver |
| `ReliableDelivery.StuckForever` | simulator/coresim/flow.cpp:74-77 | otherwise it never finishes, whatever happens |
| `ReliableDelivery.LostAckIsNeverRepaired` | simulator/coresim/flow.cpp:67-67 | a concrete run: everything arrives, the last acknowledgement is lost, the sender never finishes |
| `Pacer.DataConforms` | prototype/src/rtp_pacer.c:133-139 | at every data packet of any run, and from any earlier state of it: all bytes charged since are at most 4499 plus the link's floored capacity since that state's last clock update, less the backlog there was then |
| `Pacer.BacklogCoversExcess` | prototype/src/rtp_pacer.c:249-260 | between any two moments bytes sent exceed capacity by no more than the backlog grew, and the backlog grew by no more than the bytes sent |
| `Pacer.CapIsSuperAdditive` | prototype/src/rtp_pacer.c:249-260 | draining in floored pieces never drains more than draining at once |
| `Pacer.WaitEmpties` | prototype/src/rtp_pacer.c:243-244 | a wait worth the backlog empties the bucket |
| `Pacer.TokenSentExactlyWhen` | prototype/src/rtp_pacer.c:76-113 | a token is sent exactly when some flow not finished at the receiver has one, and it is such a flow's |
| `Pacer.ShortTokensFirst` | prototype/src/rtp_pacer.c:76-101 | a long flow's token leaves only when no short flow has a live one |
| `Pacer.TokensLeaveInLine` | prototype/src/rtp_pacer.c:63-117 | the short and the long token ring are one line: its first live token leaves and is charged, with the dead ones before it |
| `Pacer.DataSentExactlyWhen` | prototype/src/rtp_pacer.c:125-225 | data leaves at a data timer if and only if the backlog less what the link carried is below 3000 bytes and a ring holds some; it is the head of the short ring, or of the long one when that is empty, and 1500 bytes are charged |
| `Pacer.QuietBucketEmpties` | prototype/src/rtp_pacer.c:249-260 | however often the core turns while nothing is sent, the bucket drains at half the link's rate at least: updates that round down never starve it |
| `Pacer.RtpPacer.UpdateTimeByte` | prototype/src/rtp_pacer.c:249-260 | the update drains whole bytes, never below zero, and leaves the clock alone when there is less than a byte |
| `Pacer.RtpPacer.FirstLive` | prototype/src/rtp_pacer.c:76-87 | the dequeue loop drops dead tokens and takes the first live one |
| `Pacer.RtpPacer.SendTokenHandler` | prototype/src/rtp_pacer.c:63-117 | the token timer's handler and its charge |
| `Pacer.RtpPacer.SendDataPktHandler` | prototype/src/rtp_pacer.c:125-225 | the data timer's handler: held back at 3000 bytes or more, else one packet and its charge |
| `Pacer.RtpPacer.MainLoopTurn` | prototype/src/main.c:162-172 | every waiting control packet is sent in order and charged; the turn is a run of that many steps |
| `PFabricQueue.ServesTheUrgentFlow` | simulator/ext/pfabricqueue.cpp:39-63 | the served packet is the oldest of the flow that holds the first of the most urgent packets; nothing is served when empty; the null dereference happens exactly when every queued priority is the largest number |
| `PFabricQueue.EnqueDropsExactlyWhen` | simulator/ext/pfabricqueue.cpp:15-37 | within the limit an arrival joins and nothing leaves; above it exactly one packet leaves, the last of largest priority number, the new one included, and bytes and drops follow |
| `PFabricQueue.Run` | simulator/ext/pfabricqueue.cpp:15-83 | over every sequence of operations: each arrival is in exactly one of queue, departed and dropped; packets of one flow leave in arrival order and before those still queued; byte and packet counters are exact |
| `PFabricQueue.QueueIsBounded` | simulator/ext/pfabricqueue.cpp:15-37 | with sizes in [m, M] never more than limit/m packets nor limit/m times M bytes; with one size never more than the limit |
| `PFabricQueue.LimitKeptExactlyWhen` | simulator/ext/pfabricqueue.cpp:15-37 | for packet sizes from m to M, m > 0: every run keeps the queue within its limit if and only if limit/m, rounded down, packets of size M fit in it |
| `PFabricQueue.FullOfLarge` | simulator/ext/pfabricqueue.cpp:21-36 | the run that does it: small packets fill the queue, then every large one of smaller priority number pushes one of them out, until limit/m large ones are queued |
| `PFabricQueue.LimitExceeded` | simulator/ext/pfabricqueue.cpp:21-36 | a concrete run that ends above the limit |
| `PFabricQueue.Queue.Enqueue` | simulator/ext/pfabricqueue.cpp:15-37 | the scan and erase drop the last packet of largest priority number |
| `PFabricQueue.Queue.Dequeue` | simulator/ext/pfabricqueue.cpp:39-83 | the two scans, the erase and the counters |
| `EmpiricalCdf.SearchesAgreeExactlyWhen` | simulator/coresim/random_variable.cpp:80-93 | binary search and linear scan find the same row if and only if the table has two rows or the draw does not exceed its only one |
| `EmpiricalCdf.NeverDividesByZero` | simulator/coresim/random_variable.cpp:63-78 | where the source interpolates the divisor is positive, also past a one-row table |
| `EmpiricalCdf.DrawIsMonotone` | simulator/coresim/random_variable.cpp:63-78 | a larger draw never gives a smaller value when values are nondecreasing |
| `EmpiricalCdf.DrawStaysInRow` | simulator/coresim/random_variable.cpp:63-78 | the value lies between the values of its row, and is at most the stepwise variable's |
| `EmpiricalCdf.DrawDividesRow` | simulator/coresim/random_variable.cpp:63-78 | a draw within a row divides the row's values in the ratio in which it divides the row's shares; outside it is the first or the last value |
| `EmpiricalCdf.SmoothedRowIsMiddleDraw` | simulator/coresim/random_variable.cpp:105-116 | with smoothing, a row after the first counts as its share times the draw at its middle, for sizes in whole packets |
| `EmpiricalCdf.EmpiricalRandomVariable.LookupRow` | simulator/coresim/random_variable.cpp:80-93 | the loop computes the bisection |
| `EmpiricalCdf.EmpiricalRandomVariable.Value` | simulator/coresim/random_variable.cpp:63-72 | a draw as specified, for any number of rows |
| `EmpiricalCdf.EmpiricalRandomVariable.StepValue` | simulator/coresim/random_variable.cpp:192-204 | the linear scan |
| `EmpiricalCdf.MeanIsAverageDraw` | simulator/coresim/random_variable.cpp:105-116 | without smoothing, the mean computed while loading is the average of the stepwise variable over n even draws, whenever the table's shares are multiples of 1/n |
| `EmpiricalCdf.EmpiricalRandomVariable.LoadCDF` | simulator/coresim/random_variable.cpp:95-126 | loading succeeds exactly when the cumulative column is nondecreasing from a nonnegative start, and then holds the file's rows and their weighted mean size in bytes, smoothed or not |
| `CapabilityFlow.BoundedOverIssue` | simulator/ext/capabilityflow.cpp:307-317 | after k redundancy timeouts at most the size plus what was missing at each, hence at most k+1 times the size, has been issued; at that number the timer runs |
| `CapabilityFlow.RunKeeps` | simulator/ext/capabilityhost.cpp:384-436 | in every run capabilities issued never exceed the goal, at the goal the timer runs, and the goal is the size plus the raises, which only get smaller |
| `CapabilityFlow.VisitWithinGoal` | simulator/ext/capabilityhost.cpp:384-436 | one visit raises the goal by exactly what is missing when the timer has run out, and not otherwise |
| `CapabilityFlow.VisitSendsExactlyWhen` | simulator/ext/capabilityhost.cpp:384-436 | a visit sends, the next missing packet's capability, if and only if neither the redundancy timer nor a full window's timeout is running; otherwise it names the moment the flow is ready |
| `CapabilityFlow.GapAfterVisit` | simulator/ext/capabilityhost.cpp:392-420 | a capability widens the gap by one; after a full window's timeout the gap is exactly the window and one |
| `CapabilityFlow.TimeoutIsWorthOne` | simulator/ext/capabilityhost.cpp:392-420 | a timeout of a full window lets one capability out and no second before the next timeout, while no data answers |
| `CapabilityFlow.WaitBeginsExactlyWhen` | simulator/ext/capabilityhost.cpp:420-436 | a wait begins if and only if the capability sent reaches the goal, and lasts as configured |
| `CapabilityFlow.RunStaysWindowed` | simulator/ext/capabilityhost.cpp:384-436 | in every run capabilities are ahead of the data that answers them by the window and one at most, a short flow's free ones apart |
| `CapabilityFlow.FirstVisit` | simulator/ext/capabilityflow.cpp:272-279 | after its request a short flow has a capability for every packet and waits for its first timeout; a long one is sent its first |
| `CapabilityFlow.CapabilityFlow.SetCapabilityCount` | simulator/ext/capabilityflow.cpp:272-279 | a short flow starts with all its capabilities counted and the timer set, a long one with none |
| `CapabilityFlow.CapabilityFlow.GetNextCapaSeqNum` | simulator/ext/capabilityflow.cpp:282-305 | the scan finds a missing packet within `size` probes and never reaches its final assertion |
| `CapabilityFlow.CapabilityFlow.Turn` | simulator/ext/capabilityhost.cpp:384-436 | one visit of the loop |
| `CapabilityRound.WaitingIsStable` | simulator/ext/capabilityhost.cpp:384-420 | a flow whose visit is in vain must wait for its timer or a full window, is ready strictly later, and asking again changes nothing |
| `CapabilityRound.TurnsIssueOne` | simulator/ext/capabilityhost.cpp:384-436 | when only one turn succeeded, that flow alone is counted a capability |
| `CapabilityRound.SwapRemoveTakesOne` | simulator/ext/capabilityhost.cpp:333-342 | drawing with the last element filling the hole takes out exactly the element drawn |
| `CapabilityHost.CapabilityHost.SendCapability` | simulator/ext/capabilityhost.cpp:352-464 | the event issues at most one capability: every flow is as before or as its turn leaves it, and only the flow reported is counted one; no unfinished flow is lost; if none is issued every active flow waits, and the next event is set for the moment the first of them is ready, which lies in the future |
| `CapabilityHost.CapabilityHost.ChooseRecvFlow` | simulator/ext/capabilityhost.cpp:319-351 | both variants take exactly one flow out, a random host the one it served last |
| `CapabilityHost.CapabilityHost.ReceiveRts` | simulator/ext/capabilityflow.cpp:89-113 | an announced flow is queued once and a host waiting for a timeout is woken |

## Left out

- Order of the ListSrcs entries (simulator/ext/rankinghost.cpp:365-478): the wake-up sorts its list; for the host object what is listed elsewhere is an argument. RankingWorld fixes what is listed but not the order, up to the queue's order among several flows of a source given back. The list is cut to sources of the network.
- RankingWorld: a live timer may fire, and a packet on its way arrive, at any moment; the pace of links and the delays timers are set with are not modelled. Which of several ready flows a grant serves is left open.
- `RankingArbiter::receive_nrts` as a handler of its own (simulator/ext/rankinghost.cpp:797-803): grants only come back inside requests, which is the only way the simulator sends them.
- The early return of the arbiter once the experiment has seen all its flows (simulator/ext/rankinghost.cpp:737-738), and random rerankings: a new ranking is an argument.
- Flow comparators: where a queue's keys change while flows are in it (Ranking, Fastpass, Capability, PIM hosts) every pop order is allowed, so "shortest first" is not claimed.
- Aliasing between flows and the queues that hold them: hosts keep flows as values in one map, and queues hold identifiers.
- TokenFlow.RunKeeps: needs a token window of at least one, as every configuration has; a grant carries at least one token.
- TokenFlow: the sender clears the receiver's record when its acknowledgement arrives; nothing reads it afterwards.
- PimEpoch.PimEpoch.ReceiveRtsPkt: a request never runs ahead of its receiver's iteration; the simulator gets this from equal clocks, the runs here from a delivery guard. The accept flag, always true in the source, is not carried.
- PimProgress: iterations are lockstep and loss-free by assumption; under loss only safety is claimed.
- PimFlow.ReceiveAck: the finish event follows at the same instant and is taken as part of the acknowledgement. Short-flow preference and the low-priority branch of the send loop are not modelled.
- Controller: the configured token bounds are whole packets with the lower below the upper, else the source divides by zero; a packet of another type stops the prototype and has no step here.
- ReliableFlow: sequence numbers do not wrap at 32 bits, and packet priorities are left out; the network loses and reorders but does not duplicate.
- Pacer: 64-bit overflow of cycles times bandwidth, and the floating-point computation of the next timer, are left out; timers may fire at any time.
- The prototype's receiver (prototype/src/rtp_host.c) apart from its controller: it resets the address it then sends back, so grant release is taken from the simulator.
- EmpiricalCdf: parsing is left out, and a file longer than the table is the caller's error; numbers are reals without rounding. The byte-sized table, whose mean counts headers, is left out.
- CapabilityHost.CapabilityHost.SendCapability: scheduling statistics are left out. The sending side of Capability hosts (choosing a flow, expiry of capabilities) repeats the same queue handling and is left out.
- CapabilityFlow.Run: assumes a positive redundancy timeout, and that data packets answer capabilities already counted.
- Fastpass hosts (delivery of schedules, timeouts) and the time between arbiter events.
- Wall-clock time, event heap, topology, routing, tracing, oracle completion times, object lifetime, DPDK plumbing, and the protocols that repeat these shapes (Magic, Ideal, Fountain, TCP and DCTCP variants, probabilistic drop).
