# Verification of the Paxos nodes, the Paxos switches and the learning switch

This project models three state machines of the repository, and the byte format that connects them, and proves
what they promise. `dafny verify dfyconfig.toml` checks all of it.

**Single-decree Paxos** (`python/insane-paxos/node.py`). Any number of nodes, each proposer, acceptor and
learner at once. Messages are a growing set, so every run covers loss, reordering and duplication. Class
`PaxosNode.Node` is the node updated in place, proved against handler functions; `PaxosSystem` runs those
functions together; `PaxosInvariant` holds what every step keeps; `PaxosAgreement` what runs guarantee;
`PaxosProgress` and `PaxosLearning` show that a choice stays possible and can reach all; `PaxosLimits` what
agreement depends on: the number of votes that make a choice, and TRUST-VALUEs that name the node they reach, as
the driver sends them (`python/insane-paxos/start.py:93-97`); `PaxosUnanimity` what is left of it when they do
not. A value is *chosen* when `q` acceptors voted for it in one round: the code has no notion of it, and an
entry in `values` is stored on the first LEARN, so nothing here says that learned means chosen. Values are an
abstract type: the order in which `sorted` breaks ties on `vrnd` is left open and proved not to matter.

**Multi-Paxos on switches** (`paxos/controller/paxosctrl.py`), in the steady phase: all switches have joined and
the leader has started its round. `SlotQueue` specifies slots, vote counting, the in-order queue with
postponement, and the collector; `PaxosController` has the classes `Slot`, `Slots` and `Controller`, proved
against it down to the bytes of `paxos/message.py` (`PaxosMessage`); `SwitchObjects` shows that these objects
play the switches of `SwitchSystem`. `AnyRounds` is about one switch and frames of any rounds. `SteadyNode`,
`NodeHistory` and `Collection` are about one switch under one leader, `SwitchSystem` and `SwitchInvariant` about
all of them; `TotalOrder` has the guarantees, `SwitchProgress` shows that delivery never gets stuck,
`SwitchDrain` that it ends, and `SwitchLimits` that the order is lost with a fifth switch. The leader's frames
reach each switch in order and without loss, with repetitions; LEARNs between the others may be lost, repeated
and reordered.

In these runs whole handlers, queue passes and collections interleave. `Interleaving` takes one switch apart at
the mutex, where the background thread may collect a slot its handler is working on, for a round it read before
it waited, and `InterleavedObjects` does the same on the objects; `InterleavedSystem` puts such switches
together, and `InterleavedHistory` and `InterleavedOrder` carry consensus and completeness over to them.
`process_message` is abstracted there to how many times in a row it succeeds. `HostDelivery` models it, and
`EndToEnd` puts it into the queue pass, up to the frames that leave each port. `Joining` models the joining that
comes before, `JoiningObjects` ties its objects and their frames to its system, and `LateJoining` why it has to:
all results above assume that every switch has joined before the first CLIENT frame, and with three or more
switches they need it.

**Learning switch** (`paxos/controller/baseline.py`). `LearningSwitch` has the controller, as functions and as a
class, and the OpenFlow table it feeds; `FlowCache` compares runs with and without flows and says when flows
that outlive their MAC table, because a deletion was lost or a new controller does not clear them, are correct;
`Tree` and `TreeForwarding` put such switches on an acyclic network of switches and hosts. A flow with the match
of an old one replaces it, equal priorities leave the choice to the switch, and a packet never leaves on the
port it came in on (OpenFlow Switch Specification 1.0.0, sections 3.3 and 4.6).

Where the code differs from its own words, the code is followed:

- The single-decree threshold `(n-1)/2 + 1` is called a majority but is one only for odd `n`.
- `crnd % len(nodes)` is said to give the node's id, but gives 0 for node `n` (`PaxosAgreement.RoundModulo`);
  `Owner` is the exact form.
- `unpack_join` is said to return the address first, but returns the id first.
- `update_node_count` is said to affect all slots, but iterates over keys: it fails on a table that has any, so a
  JOIN that comes once there is a slot is counted but not answered (`Joining.Member.HandleJoin`,
  `Joining.LateJoiner`). Elsewhere membership is fixed before there are any.
- `garbage_collect` is said to remove slots that are not needed any more, but removes those processed in the
  round the background thread read before it waited for the mutex (`Interleaving.CollectedIff`); a slot processed
  in an earlier one stays (`Interleaving.StaleRound`).
- `next_seqno` is called before the payload is unpacked, so a malformed CLIENT frame spends a number for good
  (`TotalOrder.ClientNumbered`).
- `host_addresses_known` subtracts the client port from the expected number but does not skip it while
  counting (`HostDelivery.KnownMeansAllHosts`).

## Model

| member | source | states |
|---|---|---|
| Quorums.AlwaysMeetIff | python/insane-paxos/node.py:220-230 | every set of p and every set of q out of n nodes intersect exactly when p + q > n |
| Quorums.PromiseQuorumNeedsOddNodes | paxos/controller/paxosctrl.py:63-72 | for all n: two promise quorums of the single-decree node always intersect iff n is odd, iff its threshold equals 1 + n//2; the controller threshold intersects itself and a promise quorum for every n |
| PaxosNode.Node.constructor | python/insane-paxos/node.py:11-29 | a node starts with round 0, no vote, no proposal, no promises, nothing learned |
| PaxosNode.Node.SetValue | python/insane-paxos/node.py:139-142 | only the payload changes |
| PaxosNode.Node.PickNext | python/insane-paxos/node.py:144-152 | the first round is the id, later ones are n apart; nothing else changes |
| PaxosNode.Node.HandleTrust | python/insane-paxos/node.py:186-204 | in place equals the specification: a new round, promises forgotten and one PREPARE for every node if addressed to us, nothing otherwise |
| PaxosNode.Node.HandleTrustValue | python/insane-paxos/node.py:83-89 | the payload is set even when the TRUST part is ignored |
| PaxosNode.Node.HandlePrepare | python/insane-paxos/node.py:98-113 | promises exactly the rounds above rnd, reporting the current vote |
| PaxosNode.Node.PickLargest | python/insane-paxos/node.py:241-244 | the value comes from a promise that no other promise beats on vrnd, None being lowest |
| PaxosNode.Node.SendAccepts | python/insane-paxos/node.py:264-265 | one ACCEPT for every node |
| PaxosNode.Node.HandlePromise | python/insane-paxos/node.py:214-273 | in place equals the specification: ACCEPTs go out each time the number of recorded promises is exactly the threshold, with the payload or the value of a highest vote |
| PaxosNode.Node.HandleAccept | python/insane-paxos/node.py:116-137 | votes iff the round is at least rnd and not the one voted in last; one LEARN for every node |
| PaxosNode.Node.HandleLearn | python/insane-paxos/node.py:275-287 | keeps the first LEARN of a round |
| PaxosInvariant.NextRoundOwned | python/insane-paxos/node.py:144-152 | a node only ever moves to a higher round that it owns |
| PaxosInvariant.VotesKept | python/insane-paxos/node.py:116-133 | every announced vote answers an ACCEPT from the owner of its round and is not above its caster's last vote |
| PaxosInvariant.PromisesKept | python/insane-paxos/node.py:98-109 | a promise reports the last vote its sender has cast, and will ever cast, below the promised round; no acceptor promises a round twice |
| PaxosInvariant.SettledKept | python/insane-paxos/node.py:246-265 | while a round runs, repeated promises can only re-fire with the proposal already made |
| PaxosInvariant.ProposalDetermined | python/insane-paxos/node.py:232-244 | a set of promises allows one value only, so how sorted() breaks ties on vrnd cannot matter |
| PaxosInvariant.NewAccept | python/insane-paxos/node.py:246-265 | an ACCEPT goes out only when a promise completes a quorum of its sender's current round, with a value that quorum allows |
| PaxosInvariant.OneValueKept | python/insane-paxos/node.py:246-265 | all ACCEPTs of a round carry one value, re-fired ones included |
| PaxosInvariant.ProposalSafe | python/insane-paxos/node.py:228-265 | condition P2c: a promise quorum for b makes what it lets its holder propose safe at b, at every lower round |
| PaxosInvariant.SafeKept | python/insane-paxos/node.py:228-265 | every ACCEPT stays safe for ever |
| PaxosInvariant.SuppliedKept | python/insane-paxos/node.py:236-256 | payloads and proposals are None or were supplied by a TRUST-VALUE |
| PaxosInvariant.LearnedKept | python/insane-paxos/node.py:275-283 | a learned entry repeats a LEARN that was sent to this node |
| PaxosInvariant.StepInv | python/insane-paxos/node.py:83-287 | every handler step of every node, under loss, reordering and duplication, keeps the whole invariant |
| PaxosInvariant.RunInv | python/insane-paxos/node.py:83-287 | and so it holds at every point of every run, for any number of nodes |
| PaxosAgreement.AcceptorsAdvance | python/insane-paxos/node.py:103-104 | over any stretch of a run rnd and the voted round of an acceptor never decrease and a vote is replaced only by one of a higher round |
| PaxosAgreement.NoVoteBelowPromise | python/insane-paxos/node.py:121-124 | no vote is cast below a round its caster has promised |
| PaxosAgreement.ChosenFixesProposals | python/insane-paxos/node.py:116-137 | in any reachable state, once q acceptors voted for a value in round r, every ACCEPT of round r or above carries it, if q votes meet every promise quorum |
| PaxosAgreement.ProposalsAfterChoice | python/insane-paxos/node.py:246-265 | condition P2b over a whole run, whenever the choice and the ACCEPT are observed |
| PaxosAgreement.AgreementOverRun | python/insane-paxos/node.py:83-287 | no two different values are ever chosen by q votes, for any n and q with threshold + q > n |
| PaxosAgreement.MajorityAgreement | python/insane-paxos/node.py:83-287 | a majority choice is unique for every number of nodes, odd or even |
| PaxosAgreement.LearnedConsistent | python/insane-paxos/node.py:275-283 | nodes that hold an entry for a round hold the same one; after a choice in round b all entries for b and above are that value; entries were supplied or are None |
| PaxosAgreement.ChosenSupplied | python/insane-paxos/node.py:139-142 | a chosen value is None or was supplied |
| PaxosAgreement.RoundsNeverCollide | python/insane-paxos/node.py:144-152 | id + k*n belongs to node id and to no other |
| PaxosAgreement.RoundModulo | python/insane-paxos/node.py:144-152 | crnd % len(nodes) gives the id of the round's node back iff that is not node n, which comes out as 0 |
| PaxosAgreement.TrustedRound | python/insane-paxos/node.py:144-152 | in every run the k-th TRUST a node acts on starts round id + (k - 1)*n |
| PaxosAgreement.OneValueOneOwner | python/insane-paxos/node.py:246-265 | all ACCEPTs of one round, over the whole run, come from the owner of the round and carry one value |
| PaxosProgress.CollectQuorum | python/insane-paxos/node.py:246-265 | the promise that completes a quorum sends ACCEPTs to all, for any value the quorum allows |
| PaxosProgress.NewRound | python/insane-paxos/node.py:83-287 | any node can run a round above all others with any quorum, for any value that quorum allows, and have any number of acceptors vote for it |
| PaxosLearning.VotersTell | python/insane-paxos/node.py:132-133 | in every run, addressed or not, an acceptor that voted has sent a LEARN of its vote to every node |
| PaxosLearning.LearnStored | python/insane-paxos/node.py:275-283 | a LEARN that arrives leaves an entry for its round, its own value unless there was one before, and changes nothing else |
| PaxosLearning.EntriesStay | python/insane-paxos/node.py:275-283 | over any stretch of any run an entry never goes away or changes |
| PaxosLearning.FirstLearnKept | python/insane-paxos/node.py:275-283 | so a node keeps, for each round, the first value it was sent |
| PaxosLearning.ChosenAlwaysLearnable | python/insane-paxos/node.py:83-287 | from every point of every run at which a value is chosen, some continuation makes every node hold it for that round |
| PaxosLearning.ChoiceAlwaysPossible | python/insane-paxos/node.py:83-287 | from every point of every run some continuation makes a choice that all acceptors vote for and every node learns |
| PaxosLimits.TwoChoices | python/insane-paxos/node.py:220-230 | if threshold + q <= n, a run in which two different values get q votes each |
| PaxosLimits.AgreementIff | python/insane-paxos/node.py:220-230 | choices by q votes agree in every run iff threshold + q > n |
| PaxosLimits.AgreementNeedsOddNodes | python/insane-paxos/node.py:220-230 | with the code's own threshold as the choice, agreement holds iff n is odd; with a majority it always holds |
| PaxosLimits.RefireChangesValue | python/insane-paxos/node.py:83-89 | a TRUST-VALUE naming another node lets a repeated PROMISE send a second value in one round |
| PaxosLimits.MisaddressedTrustValue | python/insane-paxos/node.py:83-89 | a TRUST-VALUE keeps one value per round under every repeated promise iff it names its recipient, or the recipient has no own proposal at its quorum, or the value is the same |
| PaxosUnanimity.StepLoose | python/insane-paxos/node.py:83-287 | even when TRUST-VALUEs reach nodes they do not name: an acceptor votes once a round, and every ACCEPT has, for each lower round, an acceptor who voted for nothing else there and is past it |
| PaxosUnanimity.UnanimousAgrees | python/insane-paxos/node.py:83-287 | so choices by all n votes agree, however TRUST-VALUEs are addressed |
| PaxosLimits.MisaddressedDisagreement | python/insane-paxos/node.py:83-89 | with two or more nodes one misaddressed TRUST-VALUE can make choices of any q < n votes differ |
| PaxosLimits.LooseAgreementIff | python/insane-paxos/node.py:83-89 | with misaddressed TRUST-VALUEs choices by q of n votes agree in every run iff q == n |
| PaxosLimits.LooseMajorities | python/insane-paxos/node.py:83-89 | so a majority agrees iff n <= 2, and the code's own threshold iff n == 1 |
| PaxosMessage.JoinRoundTrip | paxos/message.py:58-89 | packing and unpacking JOIN are inverse, on exactly the ids, addresses and payloads either accepts |
| PaxosMessage.AcceptRoundTrip | paxos/message.py:92-105 | packing and unpacking ACCEPT are inverse, both ways |
| PaxosMessage.LearnRoundTrip | paxos/message.py:108-124 | packing LEARN is undone by unpacking; unpacking is undone by packing exactly for payloads without trailing bytes |
| PaxosMessage.AcceptBytes | paxos/message.py:92-105 | an ACCEPT is exactly the round and the number, four bytes each in network order, and the value |
| PaxosMessage.LearnBytes | paxos/message.py:108-124 | a LEARN is exactly the round and the number |
| PaxosMessage.JoinBytes | paxos/message.py:58-89 | a JOIN is exactly the id in four bytes and the six of the address |
| PaxosMessage.ClientRoundTrip | paxos/message.py:127-144 | a frame survives wrapping; a payload is some wrapping iff its header is zero |
| PaxosMessage.ClientToAccept | paxos/controller/paxosctrl.py:735-752 | the frame a client sent is the value field of the ACCEPT it is renumbered into |
| Addresses.RawRoundTrip | paxos/controller/paxosctrl.py:777-820 | an Ethernet address survives being embedded in a JOIN |
| Addresses.RawBytes | paxos/controller/paxosctrl.py:818-826 | and its bytes are in network order |
| SlotQueue.DecodeFrame | paxos/controller/paxosctrl.py:637-679 | an ACCEPT or LEARN frame says to its receiver what was packed into it |
| SlotQueue.FrameBytes | paxos/message.py:25-26 | the type numbers of ACCEPT and LEARN frames, and their bytes |
| SlotQueue.PumpDelivers | paxos/controller/paxosctrl.py:882-893 | a queue pass delivers a gap-free stretch of learned slots in order, marks exactly those processed, changes nothing else, and stops early only at a gap or when postponed |
| SlotQueue.QueueExact | paxos/controller/paxosctrl.py:87-125 | any frame, pass, postponement or collection keeps: processed and delivered are exactly the numbers below _cseq, once each, in order |
| SlotQueue.NothingUndeliveredLost | paxos/controller/paxosctrl.py:96-125 | postponement changes nothing; the assertions on processed numbers cannot fail; only delivered slots are collected |
| SteadyNode.QuorumMeetsLeaderOrSelf | paxos/controller/paxosctrl.py:63-72 | with at most four switches a majority of LEARNs at a switch includes the leader's or its own |
| SteadyNode.HeadHoldsValue | paxos/controller/paxosctrl.py:87-108 | so a learned slot at the head of the queue holds the leader's value, never None |
| SteadyNode.StepSteady | paxos/controller/paxosctrl.py:658-893 | every step of a switch keeps: slots and deliveries hold the leader's values, votes are real, nothing taken is lost |
| SteadyNode.CollectedSlotsGone | paxos/controller/paxosctrl.py:110-125 | a collection leaves no delivered slot behind, if every pass and collection reads the leader's round, as any does that starts after the first ACCEPT; Interleaving.CollectedIff says what remains otherwise |
| NodeHistory.VotesStep | paxos/controller/paxosctrl.py:676-679 | a switch has voted for exactly the numbers whose ACCEPT it received |
| NodeHistory.HeardStep | paxos/controller/paxosctrl.py:854-879 | a LEARN that was heard is counted unless the slot needs no more; only LEARNs that were heard are counted, each sender once |
| NodeHistory.CastsStep | paxos/controller/paxosctrl.py:676-684 | the first ACCEPT of a number, and nothing else, is answered with a LEARN to everyone |
| NodeHistory.DeliveredLearned | paxos/controller/paxosctrl.py:87-108 | what a step delivers has a majority of counted LEARNs |
| NodeHistory.RoundGrows | paxos/controller/paxosctrl.py:676-677 | a switch's crnd never decreases |
| AnyRounds.LearnHeeded | paxos/controller/paxosctrl.py:845-880 | a LEARN changes no slot but its own, nor what the switch accepted |
| AnyRounds.LearnedIff | paxos/controller/paxosctrl.py:845-880 | for LEARNs of any rounds in any order: a slot is learned iff at some point a majority had sent one for the highest round heard of until then, and before that it counts exactly those |
| AnyRounds.AlwaysAcceptor | paxos/controller/paxosctrl.py:658-689 | after any frames and passes without a collection: crnd is the highest round accepted, a number has one value in a round, and a slot holds the value of the highest |
| AnyRounds.AcceptsIff | paxos/controller/paxosctrl.py:676-677 | then an ACCEPT is accepted iff its round is at least every round accepted before and the number has no value in that round yet |
| AnyRounds.AcceptAnswered | paxos/controller/paxosctrl.py:674-689 | an accepted ACCEPT is stored, answered with one LEARN to everyone, and counted for the switch itself; any other one only leaves its slot behind |
| Collection.RunsAlike | paxos/controller/paxosctrl.py:110-125 | running one schedule with and without collection, the two switches differ only below what was delivered, although late LEARNs and ACCEPTs recreate collected slots |
| Collection.CollectionInvisible | paxos/controller/paxosctrl.py:535-542 | the log with collection extends the log without it, and equals it after any pass that was not postponed, repeated ACCEPTs included |
| Collection.SendsAlikeIff | paxos/controller/paxosctrl.py:658-689 | what is sent does not depend on collection either, except exactly for an ACCEPT of a delivered number whose value was dropped: it is answered once more |
| Collection.QueueAlwaysExact | paxos/controller/paxosctrl.py:87-125 | after any schedule of frames, passes, postponements and collections, with any contents, processed and delivered are exactly the numbers below _cseq, once each, in order |
| Interleaving.Uninterrupted | paxos/controller/paxosctrl.py:658-689 | the steps of a handler between its holds of the mutex, uninterrupted, are the whole handler |
| InterleavedObjects.TakeSlot | paxos/controller/paxosctrl.py:137-145 | on the objects: a handler takes its slot from the table, which has it from then on |
| InterleavedObjects.AcceptHeld | paxos/controller/paxosctrl.py:674-689 | what on_accept does with the slot in its hand is the step of the model: it shows in the table iff the slot was not collected meanwhile |
| InterleavedObjects.LearnHeld | paxos/controller/paxosctrl.py:855-879 | so is what on_learn does with it |
| InterleavedObjects.EvictMeanwhile | paxos/controller/paxosctrl.py:110-125 | a collection meanwhile takes the slot out of the table, but not out of the handler's hand |
| Interleaving.PassAlike | paxos/controller/paxosctrl.py:87-108 | a queue pass by either thread, for whatever round it read, delivers what the undelivered, uncollected slots hold |
| Interleaving.CollectedIff | paxos/controller/paxosctrl.py:110-125 | whatever rounds the background thread read before it got the mutex, a collection for round n removes exactly the slots that a pass for round n delivered |
| Interleaving.StaleRound | paxos/controller/paxosctrl.py:535-542 | a run in which a pass for a round read before the first ACCEPT delivers slot 0, which the collection for the leader's round then leaves in the table |
| Interleaving.LateAccept | paxos/controller/paxosctrl.py:674-684 | an ACCEPT whose slot was collected from under its handler changes nothing that is still to be delivered |
| Interleaving.StepSteady | paxos/controller/paxosctrl.py:137-145 | every step of either thread keeps this, a collection between get_slot and the update included, and passes and collections for rounds that are out of date |
| Interleaving.InterleavedInOrder | paxos/controller/paxosctrl.py:535-542 | however the two threads interleave at the mutex, whatever round the background thread read before, a switch delivers what the leader issued in order, once, without gap or None |
| InterleavedSystem.StreamFits | paxos/controller/paxosctrl.py:658-693 | in a system of such switches the leader's stream brings each reader what it expects, although the leader may be anywhere in its own handler |
| InterleavedSystem.StepInv | paxos/controller/paxosctrl.py:658-893 | every step of any thread of any switch keeps the invariant of that system, background passes and collections for any round included |
| InterleavedSystem.LogIsPrefix | paxos/controller/paxosctrl.py:87-145 | so at every point of every such run each switch has delivered a prefix of the leader's proposals, values only |
| InterleavedSystem.LogsAgree | paxos/controller/paxosctrl.py:87-145 | and any two logs of the run, at any times, are prefix-comparable |
| InterleavedHistory.PlaceFacts | paxos/controller/paxosctrl.py:658-893 | what such a switch has voted for, counted and delivered follows from what it received, although its handler may be anywhere between two holds of the mutex |
| InterleavedOrder.StepLedger | paxos/controller/paxosctrl.py:658-893 | every step keeps the books between the switches: a LEARN that was heard, is being counted or is in flight names a switch that took its number, and one that took it has sent its LEARNs |
| InterleavedOrder.DeliveryImpliesConsensus | paxos/controller/paxosctrl.py:63-72 | whatever a switch delivers under number s in such a run was accepted for s in the leader's round by at least 1 + |N|//2 distinct switches |
| InterleavedOrder.CompleteAtQuiescence | paxos/controller/paxosctrl.py:882-893 | with nothing in flight and all handlers through, a pass for any round that is not postponed has delivered everything below the first number without a value; everything that was issued iff there is no such number |
| SwitchSystem.HistoryFacts | paxos/controller/paxosctrl.py:658-893 | a switch's slots, votes and queue are determined by what it received, at every point of its history |
| SwitchInvariant.StreamFits | paxos/controller/paxosctrl.py:191-196 | the leader puts itself last, so at no switch does its LEARN overtake its ACCEPT |
| SwitchInvariant.LearnedBacked | paxos/controller/paxosctrl.py:764-775 | a learned slot is backed by as many distinct switches that really accepted |
| SwitchInvariant.StepInv | paxos/controller/paxosctrl.py:658-893 | every event of the system keeps the invariant of the steady phase |
| SwitchInvariant.RunInv | paxos/controller/paxosctrl.py:658-893 | and so it holds at every point of every run of at most four switches |
| TotalOrder.LogIsPrefix | paxos/controller/paxosctrl.py:87-108 | in every reachable state each switch's delivery log is a prefix of the leader's proposals and holds values only |
| TotalOrder.LogsAgree | paxos/controller/paxosctrl.py:87-108 | any two logs, of any switches at any times of a run, are prefix-comparable |
| TotalOrder.DeliveryImpliesConsensus | paxos/controller/paxosctrl.py:63-72 | whatever a switch delivers under number s was accepted for s in the leader's round by at least 1 + |N|//2 distinct switches |
| TotalOrder.CompleteAtQuiescence | paxos/controller/paxosctrl.py:882-893 | with nothing in flight, an unpostponed pass has delivered everything below the first number without a value; everything that was issued iff there is no such number |
| TotalOrder.ClientNumbered | paxos/controller/paxosctrl.py:735-752 | a client packet gets a value iff its payload has a header and the number fits 32 bits; a wrapped frame keeps its bytes; otherwise the number is spent and nothing from it on is ever delivered |
| TotalOrder.CollectionInvisibleInRun | paxos/controller/paxosctrl.py:110-125 | the same at every switch of every run of the whole system |
| SwitchProgress.CompletionAlwaysPossible | paxos/controller/paxosctrl.py:535-542 | from every point of every run, reading what is in flight and one pass at each switch deliver everything below the first number without a value |
| SwitchDrain.StepLowers | paxos/controller/paxosctrl.py:658-893 | no step without a client packet adds to the measure of unread frames, undelivered frames between switches and undelivered numbers, and each first delivery lowers it |
| SwitchDrain.NothingLeftIff | paxos/controller/paxosctrl.py:535-542 | no first delivery is possible iff nothing is in flight and every switch has delivered everything below the first number without a value |
| SwitchDrain.CompletionInevitable | paxos/controller/paxosctrl.py:535-542 | so every continuation without client packets makes at most that many first deliveries, whatever is repeated in between, and cannot run out of them before every switch is complete |
| SwitchLimits.InOrderIff | paxos/controller/paxosctrl.py:63-72 | delivery follows the leader's log in every run iff there are at most four switches |
| SwitchLimits.LearnOvertakes | paxos/controller/paxosctrl.py:845-880 | LEARNs alone make a slot learned, and it is delivered with no value |
| LateJoining.LateInOrderIff | paxos/controller/paxosctrl.py:649-653 | when switches join in the middle and drop what reaches them before, delivery follows the leader's log in every run iff there are at most two switches |
| LateJoining.JoinedFirst | paxos/controller/paxosctrl.py:649-653 | when no client packet comes before everybody has joined, joining makes no difference: every state is one of the steady phase |
| LateJoining.JoinedFirstInOrder | paxos/controller/paxosctrl.py:649-653 | so then delivery follows the leader's log with up to four switches |
| PaxosController.Slot.Count | paxos/controller/paxosctrl.py:860-875 | a LEARN of a later round restarts the count, a repeated one does not count |
| PaxosController.Slot.IsLearned | paxos/controller/paxosctrl.py:63-72 | learned iff at least 1 + node_count//2 distinct senders |
| PaxosController.Slots.GetSlot | paxos/controller/paxosctrl.py:137-145 | creates the slot if it is missing and changes no other |
| PaxosController.Slots.GarbageCollect | paxos/controller/paxosctrl.py:110-125 | removes exactly the slots processed in round n |
| PaxosController.Controller.constructor | paxos/controller/paxosctrl.py:156-173 | the state in which the steady phase starts |
| PaxosController.Controller.DeliverHead | paxos/controller/paxosctrl.py:887-891 | one delivery: logged once, marked processed, _cseq advanced |
| PaxosController.Controller.ProcessQueue | paxos/controller/paxosctrl.py:882-893 | the loop with its generator equals the specification pass; the assertions at 96 and 888 hold |
| PaxosController.Controller.HandleLearn | paxos/controller/paxosctrl.py:845-880 | in place equals the specification, for any payload bytes |
| PaxosController.Controller.OrderedNodes | paxos/controller/paxosctrl.py:191-196 | all others in ascending order, ourselves last |
| PaxosController.SortedMembers | paxos/controller/paxosctrl.py:191-196 | the order has every member once, ascending |
| PaxosController.SortMacs | paxos/controller/paxosctrl.py:191-196 | computes that order |
| PaxosController.Controller.HandleAccept | paxos/controller/paxosctrl.py:658-689 | in place equals the specification, for any payload bytes, LEARNs in order |
| PaxosController.Controller.HandleFrame | paxos/controller/paxosctrl.py:637-656 | dispatch of a joined switch; what is not implemented changes nothing |
| PaxosController.Controller.PumpQueue | paxos/controller/paxosctrl.py:535-542 | the background pass |
| PaxosController.Controller.CollectGarbage | paxos/controller/paxosctrl.py:535-542 | the background collection |
| PaxosController.Controller.NextSeqno | paxos/controller/paxosctrl.py:207-218 | the numbers are 0, 1, 2, ...: as many as have been taken before |
| PaxosController.Controller.StartRound | paxos/controller/paxosctrl.py:521-526 | the leader's round goes up by the number of switches, nobody else's |
| PaxosController.Controller.Propose | paxos/controller/paxosctrl.py:744-747 | ACCEPT to the others in order, then our own |
| PaxosController.Controller.HandleClient | paxos/controller/paxosctrl.py:721-749 | a client packet gets as its number the count of those before it, the first one 0; the number is spent even if the packet cannot be sent |
| SwitchObjects.CastsBring | paxos/controller/paxosctrl.py:191-196 | what a handler sends brings every other switch all its frames, once and in order, and nobody else any |
| SwitchObjects.Boot | paxos/controller/paxosctrl.py:156-173 | a joined controller, once next_round has run, is its switch in the first state of the system |
| SwitchObjects.Receive | paxos/controller/paxosctrl.py:637-693 | a frame that reaches a controller is the step of the system at its switch: the same state, and the same frames on the wires |
| SwitchObjects.TakeClient | paxos/controller/paxosctrl.py:721-749 | so is a client packet: the leader's object numbers as the system does, and at any other switch nothing happens |
| SwitchObjects.Pump | paxos/controller/paxosctrl.py:535-542 | so is a background pass |
| SwitchObjects.Collect | paxos/controller/paxosctrl.py:535-542 | and a collection |
| SwitchObjects.ElsewhereSame | paxos/controller/paxosctrl.py:637-656 | and what happens at another switch does not concern it |
| PaxosController.LearnAfterPut | paxos/controller/paxosctrl.py:855-855 | get_slot first makes no difference to what a LEARN does |
| PaxosController.AcceptAfterPut | paxos/controller/paxosctrl.py:674-674 | nor to what an ACCEPT does |
| Joining.Member.HandleJoin | paxos/controller/paxosctrl.py:777-816 | in place equals the specification: an embedded broadcast address is answered with an announcement, a new address is noted with its port and answered, a known one is ignored; it raises iff the address is new and a slot exists, and then the newcomer is counted in but neither passed to the learning switch nor answered, and old slots keep their count |
| Joining.Member.AddNode | paxos/controller/paxosctrl.py:186-189 | counts the address in and sets the count for new slots; raises iff a slot exists, with old slots unchanged |
| Joining.LateJoiner | paxos/controller/paxosctrl.py:777-816 | a switch that has taken an ACCEPT and is then joined by somebody new: the newcomer is a member, the new count is in place, the slot keeps its old count and nothing is answered |
| Joining.Member.SendJoin | paxos/controller/paxosctrl.py:818-834 | carries our address, or the broadcast address to ask for announcements |
| Joining.Member.JoinTurn | paxos/controller/paxosctrl.py:1052-1079 | announces itself while members are missing; joined iff it knows as many as there are; dies of its own announcement iff a slot exists already |
| Joining.StepInv | paxos/controller/paxosctrl.py:777-834 | switches know only switches and have a port for each other; whoever announced itself is known or about to be, everywhere |
| Joining.JoinCounts | paxos/controller/paxosctrl.py:789-816 | an address that is new removes one missing membership and sets off at most n - 1 JOINs |
| Joining.StepLowers | paxos/controller/paxosctrl.py:777-834 | each delivery lowers the measure of requests, missing memberships and JOINs in flight |
| Joining.DeliveriesBounded | paxos/controller/paxosctrl.py:777-834 | no run delivers more than n*n*(n + requests) JOINs and requests, however they are ordered and overheard |
| Joining.JoinedKnowsAll | paxos/controller/paxosctrl.py:1049-1079 | no switch knows more than n; one that knows n knows exactly all, and has a port for each of the others and for nobody else, the same one in both tables |
| Joining.EverybodyKnown | paxos/controller/paxosctrl.py:777-834 | once the network is drained everybody knows everybody iff everybody has announced itself |
| Joining.AnnouncedItself | paxos/controller/paxosctrl.py:806-810 | a switch counts itself in by its own announcement and in no other way |
| JoiningObjects.Answers | paxos/controller/paxosctrl.py:777-834 | every frame that answers a JOIN carries the sender's own address: a request or the first own announcement is answered by one broadcast on all ports, a new address by one frame to it out of the port its JOIN came in on, a known one by none |
| JoiningObjects.Remembers | paxos/controller/paxosctrl.py:789-803 | a new address becomes a member, its port and its sender's are noted, the learning switch keeps the port it has, and nobody else is touched |
| JoiningObjects.Boot | paxos/controller/paxosctrl.py:462-471 | a new controller is its switch before the exchange |
| JoiningObjects.Announces | paxos/controller/paxosctrl.py:1052-1079 | a turn of the joining loop is the announcement of the system: the same state, and its frames are the JOINs added to the mail |
| JoiningObjects.Receives | paxos/controller/paxosctrl.py:777-816 | so is the delivery of a JOIN, for any frame that unpacks to the address of its sender |
| JoiningObjects.ReceivesRequest | paxos/controller/paxosctrl.py:783-787 | and that of a request |
| JoiningObjects.Asks | paxos/controller/paxosctrl.py:560-563 | a switch that waits sends one request to all |
| HostDelivery.Deliverer.HostBehind | paxos/controller/paxosctrl.py:898-918 | a port is a host iff it is not a Paxos port, not the switch interface, has exactly one address and its IP address is known |
| HostDelivery.Deliverer.HostAddressesKnown | paxos/controller/paxosctrl.py:895-936 | the loop counts such ports and compares with all ports less Paxos, client and switch ports |
| HostDelivery.Deliverer.Hosts | paxos/controller/paxosctrl.py:938-960 | lists each of them once with its addresses |
| HostDelivery.Deliverer.ProcessMessage | paxos/controller/paxosctrl.py:962-987 | False iff addresses are missing, and then nothing is sent; True means one packet for each such port; an assertion fails iff a Paxos address is among them, and then some of the other hosts, each at most once, have been served |
| HostDelivery.HostPortsCounted | paxos/controller/paxosctrl.py:924-931 | the expected number is the number of host ports |
| HostDelivery.HostAddresses | paxos/controller/paxosctrl.py:898-918 | a port is a host's iff it may be one, exactly one address is learned on it, and that address has an IP address; the host is these two |
| HostDelivery.KnownMeansAllHosts | paxos/controller/paxosctrl.py:895-936 | when the count is right, the ports found are exactly the host ports iff the client port does not look like a host; otherwise exactly one host port is missed |
| HostDelivery.EveryHostOnce | paxos/controller/paxosctrl.py:962-987 | so a packet goes to every host port exactly once, and to no other, under exactly that condition |
| HostDelivery.ClientTakenForHost | paxos/controller/paxosctrl.py:895-936 | a view in which the count is right, the client is served and a host is not |
| EndToEnd.PaxosSwitch.ProcessQueue | paxos/controller/paxosctrl.py:882-893 | the loop with process_message in it equals the specified pass; it goes on to the end of the queue iff the head can be served or there is none, and what it sent is the served values one after the other, plus what a failed assertion left behind |
| EndToEnd.PortFrames | paxos/controller/paxosctrl.py:938-987 | over a history of served deliveries, a port that was a host of ours at each of them got exactly the values of the log, in order, each once; one that was at none got nothing |
| EndToEnd.HostsFollowLeader | paxos/controller/paxosctrl.py:962-987 | so at every point of every run each host port of each switch has got a prefix of the leader's values, each once and never None, and every other port nothing |
| EndToEnd.RightAddresses | paxos/controller/paxosctrl.py:938-960 | in every run of the learning switch whose senders tell the truth, what is delivered goes to a host's own Ethernet and IP address, out of the port it is behind |
| EndToEnd.JoinedNeverRaises | paxos/controller/paxosctrl.py:962-987 | the assertion in process_message cannot fail at a switch whose Paxos ports, and whose learned ports of Paxos switches, come from its joining: in no state of any joining run is a Paxos address among the hosts |
| LearningSwitch.BaselineController.constructor | paxos/controller/baseline.py:20-105 | starts empty, clears the flow table if asked, installs the broadcast rule if it uses flows |
| LearningSwitch.BaselineController.ConnectionDown | paxos/controller/baseline.py:107-139 | forgets ports, keeps IP addresses, deletes all flows |
| LearningSwitch.BaselineController.AddForwardFlow | paxos/controller/baseline.py:186-223 | one flow for one destination and one or any source |
| LearningSwitch.BaselineController.Broadcast | paxos/controller/baseline.py:154-165 | floods |
| LearningSwitch.BaselineController.LearnPortOf | paxos/controller/baseline.py:167-174 | the first port stays |
| LearningSwitch.BaselineController.LearnIpOf | paxos/controller/baseline.py:176-184 | the first IP address stays |
| LearningSwitch.BaselineController.PacketIn | paxos/controller/baseline.py:225-281 | in place equals the specification: learn, then flood, forward, or install flows both ways and forward |
| LearningSwitch.BaselineController.PortToMac | paxos/controller/baseline.py:290-295 | all addresses learned on a port, each once |
| LearningSwitch.BaselineController.MacToIp | paxos/controller/baseline.py:297-302 | the learned IP address, if any |
| FlowCache.ReceiveKeeps | paxos/controller/baseline.py:225-281 | a packet is flooded or sent to its destination's port, whichever matching flow answers; the MAC table and all flows stay true to where hosts are |
| FlowCache.FlowsSpareController | paxos/controller/baseline.py:277-281 | after a packet between two learned addresses neither direction reaches the controller until a flow times out |
| FlowCache.AlwaysHome | paxos/controller/baseline.py:107-139 | in every run, lost deletions and restarts that keep old flows included, a packet is flooded or goes to the port its destination is behind |
| FlowCache.AlwaysCorrectIff | paxos/controller/baseline.py:27-28 | whatever flows a controller finds, packets go right for ever, over lost deletions and restarts, iff each of these flows that some host can trigger floods or points to its destination's port |
| FlowCache.BroadcastsSpared | paxos/controller/baseline.py:94-99 | from the start of a controller that uses flows, no broadcast reaches it until the rule times out, is deleted, or a controller without flows takes over |
| FlowCache.IpsLearned | paxos/controller/baseline.py:240-244 | a controller knows the IP addresses of exactly those whose packets with an IP header reached it while it records them, and each is the sender's own |
| FlowCache.PortsStay | paxos/controller/baseline.py:167-174 | wherever packets come in: a sender whose packet reaches the controller is learned on that port unless it was learned before, and its port stays until the connection goes down or a controller starts anew |
| FlowCache.IpsStay | paxos/controller/baseline.py:176-184 | a learned IP address never changes while the controller lives, disconnections included |
| FlowCache.CachedRunInv | paxos/controller/baseline.py:94-99 | in every run whose deletions get through: no unicast flow hides an unlearned source; unicast senders are all learned, non-senders are not |
| FlowCache.FlowlessRunInv | paxos/controller/baseline.py:260-263 | without flows exactly the senders are learned |
| FlowCache.CacheRefines | paxos/controller/baseline.py:186-281 | in such runs, for any packets, timeouts, disconnections and restarts, the run with flows sends each packet where the flowless run does or floods it, its MAC table is a subset, and packets to unicast senders go to the same port |
| FlowCache.NextRefinesIff | paxos/controller/baseline.py:107-139 | for any flows and tables, no next packet goes to a port it would not go to without flows iff every flow some host can trigger floods or points where the flowless controller would send |
| FlowCache.AlwaysRefinesIff | paxos/controller/baseline.py:107-139 | for any flows, and tables true to the hosts of which the flowless one knows no less, every continuation whose deletions get through only floods or sends where the flowless run does iff each of these flows does so already |
| FlowCache.NobodyHiddenIff | paxos/controller/baseline.py:94-99 | the next unicast sender is always learned iff every unicast flow is for learned senders only |
| FlowCache.LostDeletion | paxos/controller/baseline.py:107-139 | a run from a cleared start through two packets and one lost deletion after which packets still go right, but both of these fail |
| Tree.SmallTopologyValid | paxos/topology.py:61-106 | the baseline line of three switches, one host each, is such a topology |
| Tree.OthersComeBack | paxos/topology.py:162-175 | in an acyclic topology every neighbour but the next hop has the target back through here |
| Tree.NeverBack | paxos/topology.py:162-175 | the next hop never turns back |
| Tree.OneWay | paxos/topology.py:162-175 | the way is unique: any walk without turning back that reaches a switch starts with the next hop |
| Tree.AwayComesBack | paxos/controller/baseline.py:167-174 | a packet that leaves on a port away from its sender enters the next switch on the port toward its sender |
| TreeForwarding.HandledFine | paxos/controller/baseline.py:225-281 | a switch that has learned only ways learns the way to the sender, and floods or sends along the way to the destination |
| TreeForwarding.NewCopyFine | paxos/controller/baseline.py:154-165 | what leaves a switch has not been at the switch it goes to |
| TreeForwarding.StepInv | paxos/controller/baseline.py:225-281 | every step of the network keeps all of this, with timeouts, disconnections whose deletion may be lost, and restarts that may keep old flows |
| TreeForwarding.LearnedTheWay | paxos/controller/baseline.py:107-174 | in every such run every learned entry and every unicast flow points along the way to its host, and every other flow is the broadcast rule |
| TreeForwarding.FinitelyManyHops | paxos/controller/baseline.py:225-281 | a packet is handled at most once per switch |
| TreeForwarding.NothingGetsStuck | paxos/controller/baseline.py:225-281 | a packet on a wire can always be handled |
| TreeForwarding.DeliveredOnce | paxos/controller/baseline.py:225-281 | once the wires are empty a unicast packet has reached its host exactly once, a broadcast every host but its sender exactly once, and nobody got anything twice or its own |

## Left out

- Sockets, pickling, logging, timers, POX and OpenFlow objects: sends are appends to a set, stream or sequence.
- Interleaving within a stretch between two holds of the mutex: the assignments to a slot there, and the frames sent
  for it, are one step.
- The liveness of the single-decree protocol: competing proposers can block each other for ever.
- Crash and recovery, leader change and changing membership in the switch controller: not implemented there.
- `on_prepare`, `on_promise` and `on_trust` of the switch controller: stubs; such frames change nothing here.
- `WANController`: the clients are an environment that hands payloads to the leader.
- `rewrite_destinations`: rests on packet code that is not part of this model; deliveries carry the value and the
  addresses it is rewritten to.
- Frames addressed to somebody else and the `dst` tests in `on_accept` and `on_learn`: they drop frames, which
  between the others the lossy network already covers, and the leader's stream is addressed to its readers.
- Switches that have not joined, outside `LateJoining`: what they drop of the leader's stream is never repeated.
- Lookup of ports in `send_accept` and `send_learn`: where a frame goes, not how it gets there.
- Exceptions out of handlers, other than those of `add_node` and `process_message`: a payload that does not unpack
  leaves the state as it was.
- Ethernet addresses in `Joining` are the six raw bytes; textual addresses are not modelled.
- `mac_to_port`, `ip_to_mac`, `ip_to_port` and `drop` of the learning switch: not used by anything modelled here.
- Moving hosts, outside `FlowCache.PortsStay`: a host stays behind its port, as the learning switch never relearns
  one.
- `paxos/controller/paxosctrl_ovs.py`, `paxos/paxos.py`, the other controllers and the key-value store: variants,
  wrappers and examples.
- Joining.DeliveriesBounded: counts deliveries, not the time between announcements, which the code repeats on a timer.
