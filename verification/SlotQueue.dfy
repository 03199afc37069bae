/**
 What one Paxos switch does in the steady phase: slots, vote counting, in-order delivery and the
 collector. `NodeState` and the functions over it are the specification that the classes in
 module PaxosController are proved against.

 `ready` is how many times in a row `process_message` finds the host addresses known before it
 first does not: a queue pass delivers at most that many packets and is then postponed.
 */
module SlotQueue {
  import opened Addresses
  import opened Wrappers
  import opened Quorums
  import opened PaxosMessage

  datatype SlotState = SlotState(
    vrnd: Option<int>,
    vval: Option<Bytes>,
    learns: set<Mac>,
    hrnd: int,
    nodeCount: nat)

  /** A remembered acceptance: the switch accepted `val` for `seqno` in round `rnd`. */
  datatype Vote = Vote(rnd: int, seqno: int, val: Bytes)

  /** `delivered` is what was handed to the hosts, in order; `votes` is history only. */
  datatype NodeState = NodeState(
    crnd: int,
    slots: map<int, SlotState>,
    cseq: nat,
    processed: set<(int, int)>,
    delivered: seq<(int, Option<Bytes>)>,
    votes: set<Vote>)

  datatype Frame = Frame(etype: int, payload: Bytes)

  /** A handler's effect. Every frame in `casts` goes to each of the other Paxos switches. */
  datatype Effect = Effect(node: NodeState, casts: seq<Frame>)

  predicate Learned(slot: SlotState) {
    |slot.learns| >= Majority(slot.nodeCount)
  }

  function NewSlot(count: nat): SlotState {
    SlotState(None, None, {}, 0, count)
  }

  /** The slot `get_slot` returns. */
  function SlotAt(node: NodeState, count: nat, seqno: int): SlotState {
    if seqno in node.slots then node.slots[seqno] else NewSlot(count)
  }

  function PutSlot(node: NodeState, seqno: int, slot: SlotState): NodeState {
    node.(slots := node.slots[seqno := slot])
  }

  /** The queue stands at a slot it could deliver. */
  predicate Deliverable(node: NodeState) {
    node.cseq in node.slots && Learned(node.slots[node.cseq])
  }

  /** One delivery in round `n`. */
  function DeliverOne(node: NodeState, n: int): NodeState
    requires Deliverable(node)
  {
    node.(cseq := node.cseq + 1,
          processed := node.processed + {(n, node.cseq)},
          delivered := node.delivered + [(node.cseq as int, node.slots[node.cseq].vval)])
  }

  /** `process_queue` */
  function Pump(node: NodeState, n: int, ready: nat): NodeState
    decreases ready
  {
    if Deliverable(node) && ready > 0 then Pump(DeliverOne(node, n), n, ready - 1) else node
  }

  /** `garbage_collect` for round `n` */
  function Collect(node: NodeState, n: int): NodeState {
    node.(slots := map s | s in node.slots && (n, s) !in node.processed :: node.slots[s])
  }

  /** The slot after a LEARN in a round that is not below its `hrnd`. */
  function CountLearn(slot: SlotState, src: Mac, n: int): SlotState
    requires n >= slot.hrnd
  {
    var slot := if n > slot.hrnd then slot.(hrnd := n, learns := {}) else slot;
    slot.(learns := slot.learns + {src})
  }

  /** Even a LEARN that is ignored leaves the slot it asked for. */
  function OnLearn(node: NodeState, count: nat, src: Mac, n: int, seqno: int, ready: nat): NodeState {
    var slot := SlotAt(node, count, seqno);
    if Learned(slot) || n < slot.hrnd || (n == slot.hrnd && src in slot.learns) then
      PutSlot(node, seqno, slot)
    else
      Pump(PutSlot(node, seqno, CountLearn(slot, src, n)), n, ready)
  }

  /** Whether an ACCEPT is accepted. */
  predicate Accepts(node: NodeState, count: nat, n: int, seqno: int) {
    n >= node.crnd && SlotAt(node, count, seqno).vrnd != Some(n)
  }

  /** The node with the value stored, before anything is sent. */
  function Store(node: NodeState, count: nat, n: int, seqno: int, v: Bytes): NodeState {
    PutSlot(node, seqno, SlotAt(node, count, seqno).(vrnd := Some(n), vval := Some(v)))
      .(crnd := n, votes := node.votes + {Vote(n, seqno, v)})
  }

  function AcceptFrame(n: int, seqno: int, v: Bytes): Frame
    requires IsU32(n) && IsU32(seqno)
  {
    Frame(ACCEPT, PackAccept(n, seqno, v).value)
  }

  function LearnFrame(n: int, seqno: int): Frame
    requires IsU32(n) && IsU32(seqno)
  {
    Frame(LEARN, PackLearn(n, seqno).value)
  }

  /** The LEARN to ourselves comes last and is a plain call. */
  function OnAccept(node: NodeState, count: nat, me: Mac, n: int, seqno: int, v: Bytes, ready: nat): Effect
    requires IsU32(n) && IsU32(seqno)
  {
    if Accepts(node, count, n, seqno) then
      Effect(OnLearn(Store(node, count, n, seqno, v), count, me, n, seqno, ready), [LearnFrame(n, seqno)])
    else
      Effect(PutSlot(node, seqno, SlotAt(node, count, seqno)), [])
  }

  /** What a frame says to a switch that is not leading; PREPARE, PROMISE and TRUST are unimplemented. */
  datatype Content = Accepting(n: int, seqno: int, v: Bytes) | Learning(n: int, seqno: int) | Ignored

  function Decode(frame: Frame): (c: Content)
    ensures c.Accepting? || c.Learning? ==> IsU32(c.n) && IsU32(c.seqno)
  {
    if frame.etype == ACCEPT then
      match UnpackAccept(frame.payload)
      case None => Ignored
      case Some((n, s, v)) => Accepting(n, s, v)
    else if frame.etype == LEARN then
      match UnpackLearn(frame.payload)
      case None => Ignored
      case Some((n, s)) => Learning(n, s)
    else
      Ignored
  }

  /** Frames carry what was packed into them. */
  lemma DecodeFrame(n: int, seqno: int, v: Bytes)
    requires IsU32(n) && IsU32(seqno)
    ensures Decode(AcceptFrame(n, seqno, v)) == Accepting(n, seqno, v)
    ensures Decode(LearnFrame(n, seqno)) == Learning(n, seqno)
  {
    AcceptRoundTrip(n, seqno, v, AcceptFrame(n, seqno, v).payload);
    LearnRoundTrip(n, seqno, LearnFrame(n, seqno).payload);
  }

  /** Their type and their bytes. */
  lemma FrameBytes(n: int, seqno: int, v: Bytes)
    requires IsU32(n) && IsU32(seqno)
    ensures var f := AcceptFrame(n, seqno, v);
            && f.etype == 0x7A01 && |f.payload| == 8 + |v| && f.payload[8..] == v
            && BigEndian(f.payload[0..4]) == n && BigEndian(f.payload[4..8]) == seqno
    ensures var f := LearnFrame(n, seqno);
            && f.etype == 0x7A02 && |f.payload| == 8
            && BigEndian(f.payload[0..4]) == n && BigEndian(f.payload[4..8]) == seqno
  {
    AcceptBytes(n, seqno, v, AcceptFrame(n, seqno, v).payload);
    LearnBytes(n, seqno, LearnFrame(n, seqno).payload);
  }

  /** What happens at one switch: a frame comes in, the background thread pumps, or it collects. */
  datatype NodeEvent = Recv(src: Mac, frame: Frame, ready: nat) | Tick(ready: nat) | Sweep

  function NodeNext(node: NodeState, count: nat, me: Mac, e: NodeEvent): Effect {
    match e
    case Recv(src, frame, ready) =>
      (match Decode(frame)
       case Accepting(n, seqno, v) => OnAccept(node, count, me, n, seqno, v, ready)
       case Learning(n, seqno) => Effect(OnLearn(node, count, src, n, seqno, ready), [])
       case Ignored => Effect(node, []))
    case Tick(ready) => Effect(Pump(node, node.crnd, ready), [])
    case Sweep => Effect(Collect(node, node.crnd), [])
  }

  function InitNode(crnd: int): NodeState {
    NodeState(crnd, map[], 0, {}, [], {})
  }

  // ---- The queue ----

  /** Exactly-once bookkeeping: what is processed, and what was delivered, is each number below `cseq`, once. */
  ghost predicate QueueInv(node: NodeState) {
    && (forall x | x in node.processed :: 0 <= x.1 < node.cseq)
    && (forall s | 0 <= s < node.cseq :: IsProcessed(node, s))
    && |node.delivered| == node.cseq
    && (forall s | 0 <= s < node.cseq :: node.delivered[s].0 == s)
  }

  ghost predicate IsProcessed(node: NodeState, seqno: int) {
    exists n :: (n, seqno) in node.processed
  }

  /** What a queue pass does: it delivers a stretch of learned slots in order, at most `ready` of them,
      and stops short of that only at a gap. */
  ghost predicate Pumped(node: NodeState, n: int, ready: nat, node': NodeState) {
    && node'.crnd == node.crnd && node'.slots == node.slots && node'.votes == node.votes
    && node.cseq <= node'.cseq <= node.cseq + ready
    && (node'.cseq < node.cseq + ready ==> !Deliverable(node'))
    && (forall s: int | node.cseq <= s < node'.cseq :: s in node.slots && Learned(node.slots[s]))
    && |node.delivered| == node.cseq && |node'.delivered| == node'.cseq
    && (forall s: int | 0 <= s < node.cseq :: node'.delivered[s] == node.delivered[s])
    && (forall s: int | node.cseq <= s < node'.cseq :: s in node.slots && node'.delivered[s] == (s, node.slots[s].vval))
    && (forall x | x in node.processed :: x in node'.processed)
    && (forall x | x in node'.processed :: x in node.processed || (x.0 == n && node.cseq <= x.1 < node'.cseq))
    && (forall s: int | node.cseq <= s < node'.cseq :: (n, s) in node'.processed)
  }

  lemma {:induction false} PumpDelivers(node: NodeState, n: int, ready: nat)
    requires |node.delivered| == node.cseq
    ensures Pumped(node, n, ready, Pump(node, n, ready))
    decreases ready
  {
    if Deliverable(node) && ready > 0 {
      PumpDelivers(DeliverOne(node, n), n, ready - 1);
    }
  }

  lemma PumpKeepsQueue(node: NodeState, n: int, ready: nat)
    requires QueueInv(node)
    ensures QueueInv(Pump(node, n, ready))
  {
    PumpDelivers(node, n, ready);
    var node' := Pump(node, n, ready);
    forall s | 0 <= s < node'.cseq ensures IsProcessed(node', s) {
      if s < node.cseq {
        assert IsProcessed(node, s);
        var m :| (m, s) in node.processed;
        assert (m, s) in node'.processed;
      } else {
        assert (n, s) in node'.processed;
      }
    }
  }

  /** For any frames, rounds, queue passes, postponements and collections in any order, every number
      below `cseq`, and no other, is processed and was delivered, once and in its place. */
  lemma QueueExact(node: NodeState, count: nat, me: Mac, e: NodeEvent)
    requires QueueInv(node)
    ensures QueueInv(NodeNext(node, count, me, e).node)
  {
    match e
    case Tick(ready) => PumpKeepsQueue(node, node.crnd, ready);
    case Sweep =>
      var node' := Collect(node, node.crnd);
      forall s | 0 <= s < node'.cseq ensures IsProcessed(node', s) {
        assert IsProcessed(node, s);
      }
    case Recv(src, frame, ready) =>
      match Decode(frame)
      case Accepting(n, seqno, v) => AcceptKeepsQueue(node, count, me, n, seqno, v, ready);
      case Learning(n, seqno) => LearnKeepsQueue(node, count, src, n, seqno, ready);
      case Ignored =>
  }

  lemma SameQueue(node: NodeState, node': NodeState)
    requires QueueInv(node)
    requires node'.processed == node.processed && node'.cseq == node.cseq && node'.delivered == node.delivered
    ensures QueueInv(node')
  {
    forall s | 0 <= s < node'.cseq ensures IsProcessed(node', s) {
      assert IsProcessed(node, s);
    }
  }

  lemma LearnKeepsQueue(node: NodeState, count: nat, src: Mac, n: int, seqno: int, ready: nat)
    requires QueueInv(node)
    ensures QueueInv(OnLearn(node, count, src, n, seqno, ready))
  {
    var slot := SlotAt(node, count, seqno);
    if Learned(slot) || n < slot.hrnd || (n == slot.hrnd && src in slot.learns) {
      SameQueue(node, PutSlot(node, seqno, slot));
    } else {
      SameQueue(node, PutSlot(node, seqno, CountLearn(slot, src, n)));
      PumpKeepsQueue(PutSlot(node, seqno, CountLearn(slot, src, n)), n, ready);
    }
  }

  lemma AcceptKeepsQueue(node: NodeState, count: nat, me: Mac, n: int, seqno: int, v: Bytes, ready: nat)
    requires QueueInv(node) && IsU32(n) && IsU32(seqno)
    ensures QueueInv(OnAccept(node, count, me, n, seqno, v, ready).node)
  {
    SameQueue(node, PutSlot(node, seqno, SlotAt(node, count, seqno)));
    SameQueue(node, Store(node, count, n, seqno, v));
    LearnKeepsQueue(Store(node, count, n, seqno, v), count, me, n, seqno, ready);
  }

  /** A pass that is postponed at once changes nothing; a collection removes processed slots only, so
      nothing undelivered is lost; a delivery never meets a number that is processed already. */
  lemma NothingUndeliveredLost(node: NodeState, n: int)
    requires QueueInv(node)
    ensures Pump(node, n, 0) == node
    ensures Deliverable(node) ==> !IsProcessed(node, node.cseq)
    ensures var node' := Collect(node, n);
            && (forall s: int | s in node.slots && s >= node.cseq :: s in node'.slots &&
                 node'.slots[s] == node.slots[s])
            && (forall s: int | s in node.slots && s !in node'.slots :: 0 <= s < node.cseq && node.delivered[s].0 == s)
  {
  }
}
