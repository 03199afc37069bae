/** What a switch makes of ACCEPTs and LEARNs of any rounds, whoever sends them and in whatever order they come. */
module AnyRounds {
  import opened Addresses
  import opened Collection
  import opened PaxosMessage
  import opened Quorums
  import opened SlotQueue
  import opened Wrappers

  /** LEARNs for one number, by sender and round, in the order they come. */
  type Heard = seq<(Mac, int)>

  function SendersOf(heard: Heard, n: int): set<Mac> {
    set x | x in heard && x.1 == n :: x.0
  }

  /** The highest round heard of, from 0 on. */
  function Highest(heard: Heard): int {
    if heard == [] then
      0
    else
      var before := Highest(heard[..|heard| - 1]);
      if heard[|heard| - 1].1 > before then heard[|heard| - 1].1 else before
  }

  lemma {:induction false} HighestIs(heard: Heard)
    ensures forall x | x in heard :: x.1 <= Highest(heard)
    ensures Highest(heard) == 0 || exists x :: x in heard && x.1 == Highest(heard)
  {
    if heard != [] {
      var before, x := heard[..|heard| - 1], heard[|heard| - 1];
      HighestIs(before);
      assert heard == before + [x];
      assert x in heard && forall y | y in before :: y in heard;
    }
  }

  /** As many as a majority have sent LEARNs for the highest round heard of. */
  predicate MajorityHeard(count: nat, heard: Heard) {
    |SendersOf(heard, Highest(heard))| >= Majority(count)
  }

  /** What one LEARN does to its slot. */
  function Heeded(slot: SlotState, src: Mac, n: int): SlotState {
    if Learned(slot) || n < slot.hrnd || (n == slot.hrnd && src in slot.learns) then slot else CountLearn(slot, src, n)
  }

  lemma {:induction false} PumpSlots(node: NodeState, n: int, ready: nat)
    ensures Pump(node, n, ready).slots == node.slots && Pump(node, n, ready).crnd == node.crnd
    ensures Pump(node, n, ready).votes == node.votes
    decreases ready
  {
    if Deliverable(node) && ready > 0 {
      PumpSlots(DeliverOne(node, n), n, ready - 1);
    }
  }

  /** A LEARN concerns its own slot only, and may deliver. */
  lemma LearnHeeded(node: NodeState, count: nat, src: Mac, n: int, s: int, ready: nat)
    ensures OnLearn(node, count, src, n, s, ready).slots == node.slots[s := Heeded(SlotAt(node, count, s), src, n)]
    ensures OnLearn(node, count, src, n, s, ready).crnd == node.crnd
    ensures OnLearn(node, count, src, n, s, ready).votes == node.votes
  {
    PumpSlots(PutSlot(node, s, Heeded(SlotAt(node, count, s), src, n)), n, ready);
  }

  /** The slot after these LEARNs. */
  function Tally(slot: SlotState, heard: Heard): SlotState {
    if heard == [] then
      slot
    else
      var (src, n) := heard[|heard| - 1];
      Heeded(Tally(slot, heard[..|heard| - 1]), src, n)
  }

  // ---- When a slot is learned ----

  ghost predicate SomeMajority(count: nat, heard: Heard) {
    exists i | 0 <= i <= |heard| :: MajorityHeard(count, heard[..i])
  }

  lemma SamePrefix(heard: Heard, x: (Mac, int), i: nat)
    requires i <= |heard|
    ensures (heard + [x])[..i] == heard[..i]
  {
  }

  lemma SomeMajorityStays(count: nat, heard: Heard, x: (Mac, int))
    requires SomeMajority(count, heard)
    ensures SomeMajority(count, heard + [x])
  {
    var i :| 0 <= i <= |heard| && MajorityHeard(count, heard[..i]);
    SamePrefix(heard, x, i);
  }

  lemma SomeMajorityMore(count: nat, heard: Heard, x: (Mac, int))
    ensures SomeMajority(count, heard + [x]) <==> SomeMajority(count, heard) || MajorityHeard(count, heard + [x])
  {
    var more := heard + [x];
    assert more[..|more|] == more;
    if SomeMajority(count, heard) {
      SomeMajorityStays(count, heard, x);
    } else if SomeMajority(count, more) {
      var i :| 0 <= i <= |more| && MajorityHeard(count, more[..i]);
      if i <= |heard| {
        SamePrefix(heard, x, i);
      }
    }
  }

  lemma SendersMore(heard: Heard, x: (Mac, int), n: int)
    ensures SendersOf(heard + [x], n) == SendersOf(heard, n) + if x.1 == n then {x.0} else {}
  {
    forall m ensures m in SendersOf(heard + [x], n) <==> m in SendersOf(heard, n) + if x.1 == n then {x.0} else {} {
      assert (m, n) in heard + [x] <==> (m, n) in heard || (m, n) == x;
    }
  }

  /** The slot counts the senders of the highest round heard of. */
  ghost predicate CountsHighest(slot: SlotState, heard: Heard) {
    slot.hrnd == Highest(heard) && slot.learns == SendersOf(heard, Highest(heard))
  }

  lemma HighestMore(heard: Heard, x: (Mac, int))
    ensures Highest(heard + [x]) == if x.1 > Highest(heard) then x.1 else Highest(heard)
  {
    assert (heard + [x])[..|heard|] == heard;
  }

  lemma NobodyAbove(heard: Heard, n: int)
    requires n > Highest(heard)
    ensures SendersOf(heard, n) == {}
  {
    HighestIs(heard);
  }

  lemma OneMoreHeard(slot: SlotState, heard: Heard, x: (Mac, int))
    requires CountsHighest(slot, heard) && !Learned(slot)
    ensures CountsHighest(Heeded(slot, x.0, x.1), heard + [x])
  {
    HighestMore(heard, x);
    if x.1 > Highest(heard) {
      NobodyAbove(heard, x.1);
      SendersMore(heard, x, x.1);
    } else {
      SendersMore(heard, x, Highest(heard));
    }
  }

  /** Whatever rounds the LEARNs are for and however they come, a new slot is learned exactly if at some point a
      majority had sent one for the highest round heard of until then; before that it counts exactly those. */
  lemma {:induction false} LearnedIff(count: nat, heard: Heard)
    ensures var slot := Tally(NewSlot(count), heard);
            && (Learned(slot) <==> SomeMajority(count, heard))
            && (!Learned(slot) ==> CountsHighest(slot, heard))
            && slot.nodeCount == count && slot.vval.None? && slot.vrnd.None?
  {
    if heard == [] {
      assert SendersOf(heard, 0) == {};
      assert heard[..0] == heard;
    } else {
      var before, x := heard[..|heard| - 1], heard[|heard| - 1];
      assert heard == before + [x];
      LearnedIff(count, before);
      SomeMajorityMore(count, before, x);
      if !Learned(Tally(NewSlot(count), before)) {
        OneMoreHeard(Tally(NewSlot(count), before), before, x);
      }
    }
  }

  // ---- What a switch accepts ----

  /** The slot holds the last value accepted for its number, if there was one. */
  ghost predicate HoldsVote(votes: set<Vote>, s: int, slot: SlotState) {
    match slot.vrnd
    case None => slot.vval.None? && forall x | x in votes :: x.seqno != s
    case Some(n) =>
      && slot.vval.Some? && Vote(n, s, slot.vval.value) in votes
      && forall x | x in votes && x.seqno == s :: x.rnd <= n
  }

  /** `crnd` is the highest round accepted, or still the first one. */
  ghost predicate RoundHighest(first: int, crnd: int, votes: set<Vote>) {
    && first <= crnd && (forall x | x in votes :: first <= x.rnd <= crnd)
    && (crnd == first || exists x :: x in votes && x.rnd == crnd)
  }

  /** One value is accepted for a number in a round. */
  ghost predicate OneEach(votes: set<Vote>) {
    forall x, y | x in votes && y in votes && x.rnd == y.rnd && x.seqno == y.seqno :: x == y
  }

  ghost predicate SlotsHold(votes: set<Vote>, slots: map<int, SlotState>) {
    && (forall x | x in votes :: x.seqno in slots)
    && forall s | s in slots :: HoldsVote(votes, s, slots[s])
  }

  ghost predicate AcceptorInv(first: int, node: NodeState) {
    RoundHighest(first, node.crnd, node.votes) && OneEach(node.votes) && SlotsHold(node.votes, node.slots)
  }

  /** An ACCEPT is accepted exactly if its round is at least every round accepted before, and the number has no
      value in that round yet. */
  lemma AcceptsIff(first: int, node: NodeState, count: nat, n: int, s: int)
    requires AcceptorInv(first, node)
    ensures Accepts(node, count, n, s) <==>
            && n >= first && (forall x | x in node.votes :: n >= x.rnd)
            && forall v :: Vote(n, s, v) !in node.votes
  {
    if s in node.slots {
      assert HoldsVote(node.votes, s, node.slots[s]);
    }
  }

  lemma SlotsHoldMore(votes: set<Vote>, slots: map<int, SlotState>, n: int, s: int, v: Bytes, slot: SlotState)
    requires SlotsHold(votes, slots) && forall x | x in votes :: x.rnd <= n
    requires slot.vrnd == Some(n) && slot.vval == Some(v)
    ensures SlotsHold(votes + {Vote(n, s, v)}, slots[s := slot])
  {
    var (votes', slots') := (votes + {Vote(n, s, v)}, slots[s := slot]);
    forall t | t in slots' ensures HoldsVote(votes', t, slots'[t]) {
      assert t in slots && t != s ==> HoldsVote(votes, t, slots[t]);
    }
  }

  lemma StoreKeeps(first: int, node: NodeState, count: nat, n: int, s: int, v: Bytes)
    requires AcceptorInv(first, node) && Accepts(node, count, n, s)
    ensures AcceptorInv(first, Store(node, count, n, s, v))
  {
    AcceptsIff(first, node, count, n, s);
    assert Vote(n, s, v) in Store(node, count, n, s, v).votes;
    SlotsHoldMore(node.votes, node.slots, n, s, v, SlotAt(node, count, s).(vrnd := Some(n), vval := Some(v)));
  }

  lemma SlotsKeep(first: int, node: NodeState, node': NodeState, s: int, slot: SlotState)
    requires AcceptorInv(first, node) && node'.slots == node.slots[s := slot]
    requires node'.crnd == node.crnd && node'.votes == node.votes && HoldsVote(node.votes, s, slot)
    ensures AcceptorInv(first, node')
  {
  }

  lemma SlotAtHolds(first: int, node: NodeState, count: nat, s: int)
    requires AcceptorInv(first, node)
    ensures HoldsVote(node.votes, s, SlotAt(node, count, s))
  {
  }

  lemma LearnKeeps(first: int, node: NodeState, count: nat, src: Mac, n: int, s: int, ready: nat)
    requires AcceptorInv(first, node)
    ensures AcceptorInv(first, OnLearn(node, count, src, n, s, ready))
  {
    LearnHeeded(node, count, src, n, s, ready);
    SlotAtHolds(first, node, count, s);
    SlotsKeep(first, node, OnLearn(node, count, src, n, s, ready), s, Heeded(SlotAt(node, count, s), src, n));
  }

  lemma AcceptKeeps(first: int, node: NodeState, count: nat, me: Mac, n: int, s: int, v: Bytes, ready: nat)
    requires AcceptorInv(first, node) && IsU32(n) && IsU32(s)
    ensures AcceptorInv(first, OnAccept(node, count, me, n, s, v, ready).node)
  {
    if Accepts(node, count, n, s) {
      StoreKeeps(first, node, count, n, s, v);
      LearnKeeps(first, Store(node, count, n, s, v), count, me, n, s, ready);
    } else {
      SlotAtHolds(first, node, count, s);
      SlotsKeep(first, node, PutSlot(node, s, SlotAt(node, count, s)), s, SlotAt(node, count, s));
    }
  }

  /** The slot after an ACCEPT: with the value and the switch's own LEARN if it is accepted. */
  function Answered(slot: SlotState, me: Mac, n: int, v: Bytes, accepted: bool): SlotState {
    if accepted then Heeded(slot.(vrnd := Some(n), vval := Some(v)), me, n) else slot
  }

  /** An accepted ACCEPT is remembered and answered, and the switch hears its own LEARN; any other one only leaves
      its slot behind. No other slot changes. */
  lemma AcceptAnswered(node: NodeState, count: nat, me: Mac, n: int, s: int, v: Bytes, ready: nat)
    requires IsU32(n) && IsU32(s)
    ensures var (eff, accepted) := (OnAccept(node, count, me, n, s, v, ready), Accepts(node, count, n, s));
            && eff.casts == (if accepted then [LearnFrame(n, s)] else [])
            && eff.node.votes == (if accepted then node.votes + {Vote(n, s, v)} else node.votes)
            && eff.node.slots == node.slots[s := Answered(SlotAt(node, count, s), me, n, v, accepted)]
  {
    if Accepts(node, count, n, s) {
      var stored := Store(node, count, n, s, v);
      LearnHeeded(stored, count, me, n, s, ready);
      assert stored.slots[s := Heeded(stored.slots[s], me, n)] == node.slots[s := Heeded(stored.slots[s], me, n)];
    }
  }

  lemma StepKeeps(first: int, node: NodeState, count: nat, me: Mac, e: NodeEvent)
    requires AcceptorInv(first, node) && !e.Sweep?
    ensures AcceptorInv(first, NodeNext(node, count, me, e).node)
  {
    match e
    case Tick(ready) => PumpSlots(node, node.crnd, ready);
    case Recv(src, frame, ready) =>
      match Decode(frame)
      case Accepting(n, s, v) => AcceptKeeps(first, node, count, me, n, s, v, ready);
      case Learning(n, s) => LearnKeeps(first, node, count, src, n, s, ready);
      case Ignored =>
  }

  /** After any frames, rounds and passes, as long as nothing is collected. (Collected slots forget: see
      `Collection.SendsAlikeIff`.) */
  lemma {:induction false} AlwaysAcceptor(first: int, count: nat, me: Mac, events: seq<NodeEvent>)
    ensures AcceptorInv(first, Run(count, me, InitNode(first), events, false))
  {
    if events != [] {
      var before, e := events[..|events| - 1], events[|events| - 1];
      AlwaysAcceptor(first, count, me, before);
      if !e.Sweep? {
        StepKeeps(first, Run(count, me, InitNode(first), before, false), count, me, e);
      }
    }
  }
}
