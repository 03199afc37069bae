/**
 One switch under a single leader: what its own steps keep, as long as ACCEPTs and LEARNs carry the
 leader's numbering and the leader's LEARN for a number never overtakes its ACCEPT.
 */
module SteadyNode {
  import opened Addresses
  import opened Wrappers
  import opened Quorums
  import opened Sets
  import opened PaxosMessage
  import opened SlotQueue

  /** S1 is the leader: its `crnd` starts at 1 and `next_round` adds the number of nodes. */
  const LEADER: Mac := 1

  function LeaderRound(count: nat): int {
    1 + count
  }

  /** What the leader numbered: entry `s` is the client packet with number `s`, or None when the
      handler raised after taking the number. */
  type Issued = seq<Option<Bytes>>

  predicate IssuedAs(issued: Issued, s: int, v: Option<Bytes>) {
    0 <= s < |issued| && issued[s].Some? && issued[s] == v
  }

  // ---- The slots of a switch ----

  /** `taken` are the numbers whose ACCEPT this switch has received. */
  ghost predicate SlotInv(count: nat, me: Mac, issued: Issued, taken: set<int>, s: int, slot: SlotState) {
    && slot.nodeCount == count
    && slot.learns <= Ids(count)
    && (slot.hrnd == 0 || slot.hrnd == LeaderRound(count))
    && (slot.hrnd == 0 ==> slot.learns == {})
    && (slot.vrnd.None? ==> slot.vval.None?)
    && (slot.vrnd.Some? ==> slot.vrnd.value == LeaderRound(count) && s in taken && IssuedAs(issued, s, slot.vval))
    && (me in slot.learns ==> slot.vrnd.Some?)
    && (slot.learns != {} && (me == LEADER || LEADER in slot.learns) ==> s in taken)
  }

  ghost predicate NodeInv(count: nat, me: Mac, issued: Issued, taken: set<int>, node: NodeState) {
    && QueueInv(node)
    && (forall s | s in node.slots :: SlotInv(count, me, issued, taken, s, node.slots[s]))
    && (forall s | s in taken :: 0 <= s < |issued| && (s < node.cseq || (s in node.slots && node.slots[s].vrnd.Some?)))
    && (forall x | x in node.processed :: x.0 == LeaderRound(count))
    && (forall s: int | 0 <= s < node.cseq :: IssuedAs(issued, s, node.delivered[s].1))
    && node.crnd <= LeaderRound(count)
    && (taken != {} ==> node.crnd == LeaderRound(count))
  }

  /** With at most four switches, a majority of learns at another switch includes the leader's or its own. */
  lemma QuorumMeetsLeaderOrSelf(count: nat, me: Mac, learns: set<Mac>)
    requires count <= 4 && learns <= Ids(count) && |learns| >= Majority(count) && me in Ids(count) && me != LEADER
    ensures LEADER in learns || me in learns
  {
    IdsSize(count);
    var others := Ids(count) - {me} - {LEADER};
    assert |others| == count - 2;
    if LEADER !in learns && me !in learns {
      SubsetSize(learns, others);
    }
  }

  /** A learned slot at the head of the queue holds the leader's value. */
  lemma HeadHoldsValue(count: nat, me: Mac, issued: Issued, taken: set<int>, node: NodeState)
    requires count <= 4 && me in Ids(count) && NodeInv(count, me, issued, taken, node) && Deliverable(node)
    ensures node.cseq in taken && IssuedAs(issued, node.cseq, node.slots[node.cseq].vval)
  {
    var slot := node.slots[node.cseq];
    assert SlotInv(count, me, issued, taken, node.cseq, slot);
    if me != LEADER {
      QuorumMeetsLeaderOrSelf(count, me, slot.learns);
    }
  }

  // ---- Steps ----

  /** What may happen at a switch: ACCEPTs repeat what the leader numbered, LEARNs come from the other
      switches, and a LEARN from the leader, or at the leader, follows the ACCEPT of its number. */
  ghost predicate Expected(count: nat, me: Mac, issued: Issued, taken: set<int>, e: NodeEvent) {
    match e
    case Tick(_) => true
    case Sweep => true
    case Recv(src, frame, _) =>
      match Decode(frame)
      case Accepting(n, s, v) => n == LeaderRound(count) && IssuedAs(issued, s, Some(v))
      case Learning(n, s) =>
        && n == LeaderRound(count) && src in Ids(count) && src != me
        && (src == LEADER || me == LEADER ==> s in taken)
      case Ignored => true
  }

  function TakenAfter(taken: set<int>, e: NodeEvent): set<int> {
    if e.Recv? && Decode(e.frame).Accepting? then taken + {Decode(e.frame).seqno} else taken
  }

  lemma {:induction false} PumpSteady(count: nat, me: Mac, issued: Issued, taken: set<int>, node: NodeState, n: int,
      ready: nat)
    requires count <= 4 && me in Ids(count) && NodeInv(count, me, issued, taken, node)
    requires n == LeaderRound(count) || n == node.crnd
    ensures NodeInv(count, me, issued, taken, Pump(node, n, ready))
    decreases ready
  {
    if Deliverable(node) && ready > 0 {
      HeadHoldsValue(count, me, issued, taken, node);
      PumpKeepsQueue(node, n, 1);
      var one := DeliverOne(node, n);
      assert Pump(node, n, 1) == one;
      PumpSteady(count, me, issued, taken, one, n, ready - 1);
    }
  }

  /** Replacing one slot by one that fits keeps the rest. */
  lemma SlotReplaced(count: nat, me: Mac, issued: Issued, taken: set<int>, node: NodeState, s: int, slot: SlotState)
    requires NodeInv(count, me, issued, taken, node) && SlotInv(count, me, issued, taken, s, slot)
    requires s in node.slots && node.slots[s].vrnd.Some? ==> slot.vrnd.Some?
    ensures NodeInv(count, me, issued, taken, PutSlot(node, s, slot))
  {
    SameQueue(node, PutSlot(node, s, slot));
  }

  lemma LearnSteady(count: nat, me: Mac, issued: Issued, taken: set<int>, node: NodeState, src: Mac, s: int, ready: nat)
    requires count <= 4 && me in Ids(count) && NodeInv(count, me, issued, taken, node)
    requires src in Ids(count) && (src == LEADER || me == LEADER ==> s in taken)
    requires src == me ==> s in node.slots && node.slots[s].vrnd.Some?
    ensures NodeInv(count, me, issued, taken, OnLearn(node, count, src, LeaderRound(count), s, ready))
  {
    var n := LeaderRound(count);
    var slot := SlotAt(node, count, s);
    assert SlotInv(count, me, issued, taken, s, slot);
    SlotReplaced(count, me, issued, taken, node, s, slot);
    if !Learned(slot) && n >= slot.hrnd && !(n == slot.hrnd && src in slot.learns) {
      SlotReplaced(count, me, issued, taken, node, s, CountLearn(slot, src, n));
      PumpSteady(count, me, issued, taken, PutSlot(node, s, CountLearn(slot, src, n)), n, ready);
    }
  }

  lemma StoreSteady(count: nat, me: Mac, issued: Issued, taken: set<int>, node: NodeState, s: int, v: Bytes)
    requires me in Ids(count) && NodeInv(count, me, issued, taken, node) && IssuedAs(issued, s, Some(v))
    ensures NodeInv(count, me, issued, taken + {s}, Store(node, count, LeaderRound(count), s, v))
  {
    var n := LeaderRound(count);
    var node' := Store(node, count, n, s, v);
    SameQueue(node, node');
    forall k | k in node'.slots ensures SlotInv(count, me, issued, taken + {s}, k, node'.slots[k]) {
      if k in node.slots {
        assert SlotInv(count, me, issued, taken, k, node.slots[k]);
      }
    }
  }

  /** A second ACCEPT for a slot that holds the value changes nothing; a late one for a number that was
      collected is stored again, which is harmless. */
  lemma AcceptSteady(count: nat, me: Mac, issued: Issued, taken: set<int>, node: NodeState, s: int, v: Bytes,
      ready: nat)
    requires count <= 4 && me in Ids(count) && NodeInv(count, me, issued, taken, node)
    requires IssuedAs(issued, s, Some(v)) && IsU32(LeaderRound(count)) && IsU32(s)
    ensures NodeInv(count, me, issued, taken + {s}, OnAccept(node, count, me, LeaderRound(count), s, v, ready).node)
  {
    var n := LeaderRound(count);
    StoreSteady(count, me, issued, taken, node, s, v);
    if Accepts(node, count, n, s) {
      LearnSteady(count, me, issued, taken + {s}, Store(node, count, n, s, v), me, s, ready);
    } else {
      assert SlotInv(count, me, issued, taken, s, node.slots[s]);
      assert taken + {s} == taken;
      SlotReplaced(count, me, issued, taken, node, s, node.slots[s]);
    }
  }

  lemma StepSteady(count: nat, me: Mac, issued: Issued, taken: set<int>, node: NodeState, e: NodeEvent)
    requires count <= 4 && me in Ids(count) && NodeInv(count, me, issued, taken, node)
    requires Expected(count, me, issued, taken, e)
    ensures NodeInv(count, me, issued, TakenAfter(taken, e), NodeNext(node, count, me, e).node)
  {
    match e
    case Tick(ready) => PumpSteady(count, me, issued, taken, node, node.crnd, ready);
    case Sweep =>
      QueueExact(node, count, me, e);
      NothingUndeliveredLost(node, node.crnd);
    case Recv(src, frame, ready) =>
      match Decode(frame)
      case Accepting(n, s, v) => AcceptSteady(count, me, issued, taken, node, s, v, ready);
      case Learning(n, s) => LearnSteady(count, me, issued, taken, node, src, s, ready);
      case Ignored =>
  }

  /** A collection leaves no slot that was delivered. */
  lemma CollectedSlotsGone(count: nat, me: Mac, issued: Issued, taken: set<int>, node: NodeState, s: int)
    requires NodeInv(count, me, issued, taken, node) && taken != {} && 0 <= s < node.cseq
    ensures s !in Collect(node, node.crnd).slots
  {
    assert IsProcessed(node, s);
  }
}
