/**
 The two threads of one switch, interleaved at the queue mutex: the one that handles frames lets go of the
 mutex after it got its slot and takes it again for the queue pass; the pump thread may run in between, and
 may even collect the slot that is being worked on.
 */
module Interleaving {
  import opened Addresses
  import opened Wrappers
  import opened Quorums
  import opened PaxosMessage
  import opened SlotQueue
  import opened SteadyNode
  import opened Collection

  /** The slot object a handler holds: still the one in the table, or collected meanwhile. */
  datatype Held = InTable | Collected(slot: SlotState)

  /** Where the thread that handles frames is: waiting, in `on_accept` or `on_learn` with its slot in hand,
      about to call `on_learn` on itself, or about to process the queue. */
  datatype Handler =
    | Idle
    | InAccept(n: int, s: int, v: Bytes, held: Held)
    | CallingSelf(n: int, s: int)
    | InLearn(src: Mac, n: int, s: int, held: Held)
    | Processing(n: int)

  datatype Threads = Threads(node: NodeState, at: Handler)

  /** The pump thread reads the round before it waits for the mutex, so it may bring any round it ever saw. */
  datatype ThreadEvent =
    | Receive(src: Mac, frame: Frame)
    | Continue(ready: nat)
    | Background(n: int, ready: nat)
    | Evict(n: int)

  function Got(node: NodeState, count: nat, s: int): NodeState {
    PutSlot(node, s, SlotAt(node, count, s))
  }

  function SlotOf(node: NodeState, count: nat, s: int, held: Held): SlotState {
    match held
    case InTable => SlotAt(node, count, s)
    case Collected(slot) => slot
  }

  /** Writing to the slot in hand shows in the table only if it is still there. */
  function Written(node: NodeState, s: int, held: Held, slot: SlotState): NodeState {
    if held.InTable? then PutSlot(node, s, slot) else node
  }

  /** What a collection does to the slot in hand. */
  function AfterEvict(held: Held, node: NodeState, count: nat, n: int, s: int): Held {
    if held.InTable? && s !in Collect(node, n).slots then Collected(SlotAt(node, count, s)) else held
  }

  predicate Enabled(t: Threads, e: ThreadEvent) {
    match e
    case Receive(_, _) => t.at.Idle?
    case Continue(_) => !t.at.Idle?
    case Background(_, _) => true
    case Evict(_) => true
  }

  /** `on_accept` between getting its slot and the LEARN to itself. */
  function AcceptStep(node: NodeState, count: nat, n: int, s: int, v: Bytes, held: Held): Threads {
    var slot := SlotOf(node, count, s, held);
    if n >= node.crnd && slot.vrnd != Some(n) then
      Threads(Written(node, s, held, slot.(vrnd := Some(n), vval := Some(v)))
                .(crnd := n, votes := node.votes + {Vote(n, s, v)}), CallingSelf(n, s))
    else
      Threads(node, Idle)
  }

  /** `on_learn` between getting its slot and the queue. */
  function LearnStep(node: NodeState, count: nat, src: Mac, n: int, s: int, held: Held): Threads {
    var slot := SlotOf(node, count, s, held);
    if Learned(slot) || n < slot.hrnd || (n == slot.hrnd && src in slot.learns) then
      Threads(node, Idle)
    else
      Threads(Written(node, s, held, CountLearn(slot, src, n)), Processing(n))
  }

  function Next(t: Threads, count: nat, me: Mac, e: ThreadEvent): Threads {
    match e
    case Receive(src, frame) =>
      (match Decode(frame)
       case Accepting(n, s, v) => Threads(Got(t.node, count, s), InAccept(n, s, v, InTable))
       case Learning(n, s) => Threads(Got(t.node, count, s), InLearn(src, n, s, InTable))
       case Ignored => t)
    case Continue(ready) =>
      (match t.at
       case Idle => t
       case InAccept(n, s, v, held) => AcceptStep(t.node, count, n, s, v, held)
       case CallingSelf(n, s) => Threads(Got(t.node, count, s), InLearn(me, n, s, InTable))
       case InLearn(src, n, s, held) => LearnStep(t.node, count, src, n, s, held)
       case Processing(n) => Threads(Pump(t.node, n, ready), Idle))
    case Background(n, ready) => t.(node := Pump(t.node, n, ready))
    case Evict(n) =>
      var at := match t.at
                case InAccept(m, s, v, held) => InAccept(m, s, v, AfterEvict(held, t.node, count, n, s))
                case InLearn(src, m, s, held) => InLearn(src, m, s, AfterEvict(held, t.node, count, n, s))
                case _ => t.at;
      Threads(Collect(t.node, n), at)
  }

  /** An ACCEPT counts as taken once its handler is through with the slot. */
  function TakenBy(taken: set<int>, t: Threads, e: ThreadEvent): set<int> {
    if e.Continue? && t.at.InAccept? then taken + {t.at.s} else taken
  }

  /** And a LEARN, ours included, as heard. */
  function HeardBy(heard: set<(Mac, int)>, t: Threads, e: ThreadEvent): set<(Mac, int)> {
    if e.Continue? && t.at.InLearn? then heard + {(t.at.src, t.at.s)} else heard
  }

  // ---- Uninterrupted handlers ----

  /** The handler's steps up to its end, with nothing in between. */
  function LearnAlone(node: NodeState, count: nat, src: Mac, n: int, s: int, ready: nat): NodeState {
    var t := LearnStep(Got(node, count, s), count, src, n, s, InTable);
    if t.at.Processing? then Pump(t.node, n, ready) else t.node
  }

  function AcceptAlone(node: NodeState, count: nat, me: Mac, n: int, s: int, v: Bytes, ready: nat): NodeState {
    var t := AcceptStep(Got(node, count, s), count, n, s, v, InTable);
    if t.at.CallingSelf? then LearnAlone(t.node, count, me, n, s, ready) else t.node
  }

  lemma GotSlot(node: NodeState, count: nat, s: int)
    ensures SlotAt(Got(node, count, s), count, s) == SlotAt(node, count, s)
    ensures forall slot :: PutSlot(Got(node, count, s), s, slot) == PutSlot(node, s, slot)
  {
    forall slot ensures PutSlot(Got(node, count, s), s, slot) == PutSlot(node, s, slot) {
      assert Got(node, count, s).slots[s := slot] == node.slots[s := slot];
    }
  }

  /** Handlers that are not interrupted do what module SlotQueue says of whole handlers. */
  lemma Uninterrupted(node: NodeState, count: nat, me: Mac, src: Mac, n: int, s: int, v: Bytes, ready: nat)
    requires IsU32(n) && IsU32(s)
    ensures LearnAlone(node, count, src, n, s, ready) == OnLearn(node, count, src, n, s, ready)
    ensures AcceptAlone(node, count, me, n, s, v, ready) == OnAccept(node, count, me, n, s, v, ready).node
  {
    GotSlot(node, count, s);
    GotSlot(Store(node, count, n, s, v), count, s);
  }

  // ---- What every step keeps ----

  /** `a` is the switch as if it neither delivered nor collected; `b` agrees with it on everything it has not
      delivered yet, and delivered what `a` holds. What `b` keeps of delivered slots does not matter. */
  ghost predicate Alike(count: nat, a: NodeState, b: NodeState) {
    && a.crnd == b.crnd && QueueInv(b)
    && (forall s: int | s >= b.cseq :: (s in a.slots <==> s in b.slots) && (s in a.slots ==> a.slots[s] == b.slots[s]))
    && (forall s: int | 0 <= s < b.cseq :: Kept(count, a, b, s))
  }

  /** A slot that was collected from under its handler had been delivered. */
  predicate HeldFine(b: NodeState, s: int, held: Held) {
    s >= 0 && (held.Collected? ==> s < b.cseq) && (held.InTable? ==> s in b.slots)
  }

  ghost predicate HandlerFine(count: nat, me: Mac, issued: Issued, taken: set<int>, a: NodeState, b: NodeState,
      at: Handler) {
    match at
    case Idle => true
    case InAccept(n, s, v, held) =>
      n == LeaderRound(count) && IssuedAs(issued, s, Some(v)) && s in a.slots && HeldFine(b, s, held)
    case CallingSelf(n, s) => n == LeaderRound(count) && s >= 0 && s in a.slots && a.slots[s].vrnd.Some?
    case InLearn(src, n, s, held) =>
      && n == LeaderRound(count) && src in Ids(count) && (src == LEADER || me == LEADER ==> s in taken)
      && s in a.slots && (src == me ==> a.slots[s].vrnd.Some?) && HeldFine(b, s, held)
    case Processing(n) => n == LeaderRound(count)
  }

  ghost predicate ThreadsInv(count: nat, me: Mac, issued: Issued, taken: set<int>, a: NodeState, t: Threads) {
    && NodeInv(count, me, issued, taken, a) && a.cseq == 0
    && Alike(count, a, t.node)
    && HandlerFine(count, me, issued, taken, a, t.node, t.at)
  }

  /** A learned slot holds the leader's value, delivered or not. */
  lemma LearnedHoldsValue(count: nat, me: Mac, issued: Issued, taken: set<int>, a: NodeState, s: int)
    requires count <= 4 && me in Ids(count) && NodeInv(count, me, issued, taken, a) && a.cseq == 0
    requires s in a.slots && Learned(a.slots[s])
    ensures a.slots[s].vrnd == Some(LeaderRound(count)) && IssuedAs(issued, s, a.slots[s].vval)
  {
    var slot := a.slots[s];
    assert SlotInv(count, me, issued, taken, s, slot);
    if me != LEADER {
      QuorumMeetsLeaderOrSelf(count, me, slot.learns);
    }
  }

  /** A queue pass, whichever thread makes it and whatever round it is for. */
  lemma {:induction false} PassAlike(count: nat, me: Mac, issued: Issued, taken: set<int>, a: NodeState, b: NodeState,
                                     n: int, ready: nat)
    requires count <= 4 && me in Ids(count) && NodeInv(count, me, issued, taken, a) && a.cseq == 0 && Alike(count, a, b)
    ensures Alike(count, a, Pump(b, n, ready)) && Pump(b, n, ready).cseq >= b.cseq && Pump(b, n, ready).slots == b.slots
    decreases ready
  {
    if Deliverable(b) && ready > 0 {
      var one := DeliverOne(b, n);
      PumpKeepsQueue(b, n, 1);
      assert Pump(b, n, 1) == one;
      LearnedHoldsValue(count, me, issued, taken, a, b.cseq);
      forall s: int | 0 <= s < one.cseq ensures Kept(count, a, one, s) {
        assert s < b.cseq ==> Kept(count, a, b, s);
      }
      PassAlike(count, me, issued, taken, a, one, n, ready - 1);
    }
  }

  /** The same slot written ahead of the queue in both, or any slot written behind it in `b` alone. */
  lemma WriteAlike(count: nat, a: NodeState, b: NodeState, s: int, slot: SlotState)
    requires Alike(count, a, b) && s >= 0
    ensures s >= b.cseq ==> Alike(count, PutSlot(a, s, slot), PutSlot(b, s, slot))
    ensures s < b.cseq ==> Alike(count, a, PutSlot(b, s, slot))
  {
    SameQueue(b, PutSlot(b, s, slot));
    forall k: int | 0 <= k < b.cseq
      ensures Kept(count, a, PutSlot(b, s, slot), k)
      ensures s >= b.cseq ==> Kept(count, PutSlot(a, s, slot), PutSlot(b, s, slot), k)
    {
      assert Kept(count, a, b, k);
    }
  }

  /** Asking for a slot, in both. */
  lemma GotAlike(count: nat, me: Mac, issued: Issued, taken: set<int>, a: NodeState, b: NodeState, s: int)
    requires NodeInv(count, me, issued, taken, a) && a.cseq == 0 && Alike(count, a, b) && s >= 0
    ensures NodeInv(count, me, issued, taken, Got(a, count, s)) && Alike(count, Got(a, count, s), Got(b, count, s))
    ensures s in a.slots ==> Got(a, count, s) == a
  {
    var slot := SlotAt(a, count, s);
    assert SlotInv(count, me, issued, taken, s, slot);
    SlotReplaced(count, me, issued, taken, a, s, slot);
    WriteAlike(count, a, b, s, SlotAt(b, count, s));
    if s in a.slots {
      assert a.slots[s := a.slots[s]] == a.slots;
    }
    if s < b.cseq {
      assert Kept(count, a, b, s);
    }
  }

  lemma EvictAlike(count: nat, a: NodeState, b: NodeState, n: int)
    requires Alike(count, a, b)
    ensures Alike(count, a, Collect(b, n))
    ensures forall s | s in b.slots && s !in Collect(b, n).slots :: s < b.cseq
  {
    forall s | 0 <= s < b.cseq ensures IsProcessed(Collect(b, n), s) && Kept(count, a, Collect(b, n), s) {
      assert IsProcessed(b, s) && Kept(count, a, b, s);
    }
  }

  lemma AlikeSame(count: nat, a: NodeState, b: NodeState, a': NodeState, b': NodeState)
    requires Alike(count, a, b) && a'.slots == a.slots && b'.slots == b.slots && a'.crnd == b'.crnd
    requires b'.cseq == b.cseq && b'.processed == b.processed && b'.delivered == b.delivered
    ensures Alike(count, a', b')
  {
    SameQueue(b, b');
    forall s: int | 0 <= s < b'.cseq ensures Kept(count, a', b', s) {
      assert Kept(count, a, b, s);
    }
  }

  // ---- The steps ----

  /** What the same step does to `a`, when the queue stands at `cseq`. */
  function AloneAccept(count: nat, a: NodeState, cseq: nat, s: int, v: Bytes): NodeState {
    if s >= cseq && SlotAt(a, count, s).vrnd != Some(LeaderRound(count)) then
      Store(a, count, LeaderRound(count), s, v)
    else
      a
  }

  function AloneLearn(count: nat, a: NodeState, cseq: nat, src: Mac, s: int): NodeState {
    var n, slot := LeaderRound(count), SlotAt(a, count, s);
    if s < cseq || Learned(slot) || n < slot.hrnd || (n == slot.hrnd && src in slot.learns) then
      a
    else
      PutSlot(a, s, CountLearn(slot, src, n))
  }

  function Alone(count: nat, a: NodeState, t: Threads, e: ThreadEvent): NodeState {
    match e
    case Receive(_, frame) =>
      (match Decode(frame)
       case Accepting(_, s, _) => Got(a, count, s)
       case Learning(_, s) => Got(a, count, s)
       case Ignored => a)
    case Continue(_) =>
      (match t.at
       case InAccept(_, s, v, _) => AloneAccept(count, a, t.node.cseq, s, v)
       case InLearn(src, _, s, _) => AloneLearn(count, a, t.node.cseq, src, s)
       case _ => a)
    case _ => a
  }

  /** An ACCEPT of a number that was delivered: whatever the handler writes is behind the queue. */
  lemma LateAccept(count: nat, me: Mac, issued: Issued, taken: set<int>, a: NodeState, b: NodeState,
                   s: int, v: Bytes, held: Held)
    requires me in Ids(count) && 0 <= s < b.cseq
    requires ThreadsInv(count, me, issued, taken, a, Threads(b, InAccept(LeaderRound(count), s, v, held)))
    ensures s in taken && ThreadsInv(count, me, issued, taken, a, AcceptStep(b, count, LeaderRound(count), s, v, held))
  {
    var n := LeaderRound(count);
    var slot := SlotOf(b, count, s, held).(vrnd := Some(n), vval := Some(v));
    assert Kept(count, a, b, s) && SlotInv(count, me, issued, taken, s, a.slots[s]);
    WriteAlike(count, a, b, s, slot);
    AlikeSame(count, a, Written(b, s, held, slot), a, Written(b, s, held, slot).(crnd := n,
        votes := b.votes + {Vote(n, s, v)}));
  }

  /** An ACCEPT of a number still ahead: the slot is in the table. */
  lemma FirstAccept(count: nat, me: Mac, issued: Issued, taken: set<int>, a: NodeState, b: NodeState,
                    s: int, v: Bytes, held: Held)
    requires me in Ids(count) && s >= b.cseq
    requires ThreadsInv(count, me, issued, taken, a, Threads(b, InAccept(LeaderRound(count), s, v, held)))
    ensures ThreadsInv(count, me, issued, taken + {s}, AloneAccept(count, a, b.cseq, s, v),
                       AcceptStep(b, count, LeaderRound(count), s, v, held))
  {
    var n := LeaderRound(count);
    var slot := SlotAt(b, count, s);
    assert SlotInv(count, me, issued, taken, s, a.slots[s]);
    if slot.vrnd != Some(n) {
      StoreSteady(count, me, issued, taken, a, s, v);
      var slot' := slot.(vrnd := Some(n), vval := Some(v));
      WriteAlike(count, a, b, s, slot');
      AlikeSame(count, PutSlot(a, s, slot'), PutSlot(b, s, slot'), Store(a, count, n, s, v),
                PutSlot(b, s, slot').(crnd := n, votes := b.votes + {Vote(n, s, v)}));
    } else {
      assert taken + {s} == taken;
    }
  }

  lemma LearnStepSteady(count: nat, me: Mac, issued: Issued, taken: set<int>, a: NodeState, b: NodeState,
                        src: Mac, s: int, held: Held)
    requires me in Ids(count)
    requires ThreadsInv(count, me, issued, taken, a, Threads(b, InLearn(src, LeaderRound(count), s, held)))
    ensures ThreadsInv(count, me, issued, taken, AloneLearn(count, a, b.cseq, src, s),
                       LearnStep(b, count, src, LeaderRound(count), s, held))
  {
    var n := LeaderRound(count);
    var slot := SlotOf(b, count, s, held);
    if !(Learned(slot) || n < slot.hrnd || (n == slot.hrnd && src in slot.learns)) {
      WriteAlike(count, a, b, s, CountLearn(slot, src, n));
      if s >= b.cseq {
        assert SlotInv(count, me, issued, taken, s, a.slots[s]);
        SlotReplaced(count, me, issued, taken, a, s, CountLearn(slot, src, n));
      }
    }
  }

  lemma CallSteady(count: nat, me: Mac, issued: Issued, taken: set<int>, a: NodeState, b: NodeState, s: int)
    requires me in Ids(count) && ThreadsInv(count, me, issued, taken, a, Threads(b, CallingSelf(LeaderRound(count), s)))
    ensures ThreadsInv(count, me, issued, taken, a, Threads(Got(b, count, s), InLearn(me, LeaderRound(count), s,
            InTable)))
  {
    GotAlike(count, me, issued, taken, a, b, s);
    assert SlotInv(count, me, issued, taken, s, a.slots[s]);
  }

  lemma ReceiveSteady(count: nat, me: Mac, issued: Issued, taken: set<int>, a: NodeState, b: NodeState, src: Mac,
      frame: Frame)
    requires me in Ids(count) && ThreadsInv(count, me, issued, taken, a, Threads(b, Idle))
    requires Expected(count, me, issued, taken, Recv(src, frame, 0))
    ensures ThreadsInv(count, me, issued, taken, Alone(count, a, Threads(b, Idle), Receive(src, frame)),
                       Next(Threads(b, Idle), count, me, Receive(src, frame)))
  {
    match Decode(frame)
    case Accepting(n, s, v) => GotAlike(count, me, issued, taken, a, b, s);
    case Learning(n, s) => GotAlike(count, me, issued, taken, a, b, s);
    case Ignored =>
  }

  lemma EvictSteady(count: nat, me: Mac, issued: Issued, taken: set<int>, a: NodeState, t: Threads, n: int)
    requires ThreadsInv(count, me, issued, taken, a, t)
    ensures ThreadsInv(count, me, issued, taken, a, Next(t, count, me, Evict(n)))
  {
    EvictAlike(count, a, t.node, n);
  }

  /** What may happen: frames as module SteadyNode expects them, and anything of the threads' own. */
  ghost predicate Steps(count: nat, me: Mac, issued: Issued, taken: set<int>, t: Threads, e: ThreadEvent) {
    Enabled(t, e) && (e.Receive? ==> Expected(count, me, issued, taken, Recv(e.src, e.frame, 0)))
  }

  lemma StepSteady(count: nat, me: Mac, issued: Issued, taken: set<int>, a: NodeState, t: Threads, e: ThreadEvent)
    requires count <= 4 && me in Ids(count) && ThreadsInv(count, me, issued, taken, a, t) &&
             Steps(count, me, issued, taken, t, e)
    ensures ThreadsInv(count, me, issued, TakenBy(taken, t, e), Alone(count, a, t, e), Next(t, count, me, e))
  {
    match e
    case Receive(src, frame) => ReceiveSteady(count, me, issued, taken, a, t.node, src, frame);
    case Background(n, ready) => PassAlike(count, me, issued, taken, a, t.node, n, ready);
    case Evict(n) => EvictSteady(count, me, issued, taken, a, t, n);
    case Continue(ready) =>
      match t.at
      case InAccept(n, s, v, held) =>
        if s < t.node.cseq {
          LateAccept(count, me, issued, taken, a, t.node, s, v, held);
          assert taken + {s} == taken;
        } else {
          FirstAccept(count, me, issued, taken, a, t.node, s, v, held);
        }
      case CallingSelf(n, s) => CallSteady(count, me, issued, taken, a, t.node, s);
      case InLearn(src, n, s, held) => LearnStepSteady(count, me, issued, taken, a, t.node, src, s, held);
      case Processing(n) => PassAlike(count, me, issued, taken, a, t.node, n, ready);
  }

  // ---- Runs ----

  ghost predicate StepsAt(count: nat, me: Mac, issued: Issued, run: seq<Threads>, taken: seq<set<int>>,
                          events: seq<ThreadEvent>, i: nat)
    requires |run| == |taken| == |events| + 1 && i < |events|
  {
    && Steps(count, me, issued, taken[i], run[i], events[i])
    && run[i + 1] == Next(run[i], count, me, events[i])
    && taken[i + 1] == TakenBy(taken[i], run[i], events[i])
  }

  /** A run of the two threads of one switch, from the moment it has joined. */
  ghost predicate IsRun(count: nat, me: Mac, issued: Issued, run: seq<Threads>, taken: seq<set<int>>,
      events: seq<ThreadEvent>) {
    && |run| == |taken| == |events| + 1
    && (exists crnd :: crnd <= LeaderRound(count) && run[0] == Threads(InitNode(crnd), Idle)) && taken[0] == {}
    && forall i | 0 <= i < |events| :: StepsAt(count, me, issued, run, taken, events, i)
  }

  lemma {:induction false} RunSteady(count: nat, me: Mac, issued: Issued, run: seq<Threads>, taken: seq<set<int>>,
                                     events: seq<ThreadEvent>, i: nat) returns (a: NodeState)
    requires count <= 4 && me in Ids(count) && IsRun(count, me, issued, run, taken, events) && i < |run|
    ensures ThreadsInv(count, me, issued, taken[i], a, run[i])
  {
    if i == 0 {
      a := run[0].node;
    } else {
      a := RunSteady(count, me, issued, run, taken, events, i - 1);
      assert StepsAt(count, me, issued, run, taken, events, i - 1);
      StepSteady(count, me, issued, taken[i - 1], a, run[i - 1], events[i - 1]);
      a := Alone(count, a, run[i - 1], events[i - 1]);
    }
  }

  /** However the two threads interleave between their holds of the mutex, the switch delivers what the leader
      issued, in order, without a gap, a repetition or a missing value. */
  lemma InterleavedInOrder(count: nat, me: Mac, issued: Issued, run: seq<Threads>, taken: seq<set<int>>,
                           events: seq<ThreadEvent>, i: nat, k: nat)
    requires count <= 4 && me in Ids(count) && IsRun(count, me, issued, run, taken, events) && i < |run|
    ensures QueueInv(run[i].node)
    ensures k < |run[i].node.delivered| ==>
              k < |issued| && issued[k].Some? && run[i].node.delivered[k] == (k as int, issued[k])
  {
    var a := RunSteady(count, me, issued, run, taken, events, i);
    if k < |run[i].node.delivered| {
      assert Kept(count, a, run[i].node, k);
      LearnedHoldsValue(count, me, issued, taken[i], a, k);
    }
  }

  // ---- What a collection finds ----

  /** The round a step makes a queue pass for, if it makes one. */
  function PassRound(t: Threads, e: ThreadEvent): Option<int> {
    match e
    case Background(n, _) => Some(n)
    case Continue(_) => if t.at.Processing? then Some(t.at.n) else None
    case _ => None
  }

  /** Step `i` is the pass that delivered number `s`, and it was for round `n`. */
  ghost predicate DeliveredFor(run: seq<Threads>, events: seq<ThreadEvent>, i: nat, s: int, n: int)
    requires i < |events| && |run| == |events| + 1
  {
    PassRound(run[i], events[i]) == Some(n) && run[i].node.cseq <= s < run[i + 1].node.cseq
  }

  lemma StepProcesses(count: nat, me: Mac, t: Threads, e: ThreadEvent, n: int, s: int)
    requires QueueInv(t.node)
    ensures var t' := Next(t, count, me, e);
            (n, s) in t'.node.processed <==>
            (n, s) in t.node.processed || (PassRound(t, e) == Some(n) && t.node.cseq <= s < t'.node.cseq)
  {
    match e
    case Background(m, ready) => PumpDelivers(t.node, m, ready);
    case Continue(ready) =>
      if t.at.Processing? {
        PumpDelivers(t.node, t.at.n, ready);
      }
    case _ =>
  }

  lemma {:induction false} ProcessedFor(count: nat, me: Mac, issued: Issued, run: seq<Threads>, taken: seq<set<int>>,
                                        events: seq<ThreadEvent>, k: nat, n: int, s: int)
    requires count <= 4 && me in Ids(count) && IsRun(count, me, issued, run, taken, events) && k < |run|
    ensures (n, s) in run[k].node.processed <==> exists i: nat | i < k :: DeliveredFor(run, events, i, s, n)
  {
    if k > 0 {
      ProcessedFor(count, me, issued, run, taken, events, k - 1, n, s);
      var a := RunSteady(count, me, issued, run, taken, events, k - 1);
      assert StepsAt(count, me, issued, run, taken, events, k - 1);
      StepProcesses(count, me, run[k - 1], events[k - 1], n, s);
      assert DeliveredFor(run, events, k - 1, s, n) <==>
             PassRound(run[k - 1], events[k - 1]) == Some(n) && run[k - 1].node.cseq <= s < run[k].node.cseq;
    }
  }

  /** A collection for a round takes exactly the slots that a pass for the same round delivered. */
  lemma CollectedIff(count: nat, me: Mac, issued: Issued, run: seq<Threads>, taken: seq<set<int>>,
                     events: seq<ThreadEvent>, k: nat, n: int, s: int)
    requires count <= 4 && me in Ids(count) && IsRun(count, me, issued, run, taken, events) && k < |run|
    requires s in run[k].node.slots
    ensures s !in Next(run[k], count, me, Evict(n)).node.slots <==>
            exists i: nat | i < k :: DeliveredFor(run, events, i, s, n)
  {
    ProcessedFor(count, me, issued, run, taken, events, k, n, s);
  }

  lemma RunLonger(count: nat, me: Mac, issued: Issued, run: seq<Threads>, taken: seq<set<int>>,
                  events: seq<ThreadEvent>, e: ThreadEvent)
    requires IsRun(count, me, issued, run, taken, events)
    requires Steps(count, me, issued, taken[|events|], run[|events|], e)
    ensures var (t, k) := (run[|events|], taken[|events|]);
            IsRun(count, me, issued, run + [Next(t, count, me, e)], taken + [TakenBy(k, t, e)], events + [e])
  {
    var (t, k) := (run[|events|], taken[|events|]);
    var (run', taken', events') := (run + [Next(t, count, me, e)], taken + [TakenBy(k, t, e)], events + [e]);
    forall i | 0 <= i < |events'| ensures StepsAt(count, me, issued, run', taken', events', i) {
      if i < |events| {
        assert StepsAt(count, me, issued, run, taken, events, i);
        assert run'[i] == run[i] && run'[i + 1] == run[i + 1] && events'[i] == events[i];
        assert taken'[i] == taken[i] && taken'[i + 1] == taken[i + 1];
      }
    }
  }

  /** A slot with a value, and the LEARNs it has. */
  function Voted(n: int, v: Bytes, learns: set<Mac>): SlotState {
    SlotState(Some(n), Some(v), learns, if learns == {} then 0 else n, 3)
  }

  /** Switch 2 of three, which accepted number 0 and counted those LEARNs for it. */
  function Heard(v: Bytes, learns: set<Mac>): NodeState {
    NodeState(4, map[0 := Voted(4, v, learns)], 0, {}, [], {Vote(4, 0, v)})
  }

  /** The first ACCEPT, up to the LEARN the switch hands to itself. */
  lemma AcceptTaken(v: Bytes)
    ensures var (t, got) := (Threads(InitNode(2), Idle), PutSlot(InitNode(2), 0, NewSlot(3)));
            && Next(t, 3, 2, Receive(LEADER, AcceptFrame(4, 0, v))) == Threads(got, InAccept(4, 0, v, InTable))
            && Next(Threads(got, InAccept(4, 0, v, InTable)), 3, 2, Continue(0))
               == Threads(Heard(v, {}), CallingSelf(4, 0))
            && Next(Threads(Heard(v, {}), CallingSelf(4, 0)), 3, 2, Continue(0))
               == Threads(Heard(v, {}), InLearn(2, 4, 0, InTable))
  {
    DecodeFrame(4, 0, v);
    var got := PutSlot(InitNode(2), 0, NewSlot(3));
    assert got.slots[0 := Voted(4, v, {})] == Heard(v, {}).slots;
    assert Heard(v, {}).slots[0 := Voted(4, v, {})] == Heard(v, {}).slots;
  }

  /** A LEARN of somebody new for the slot. */
  lemma LearnTaken(v: Bytes, learns: set<Mac>, src: Mac)
    requires src !in learns && |learns| < 2
    ensures Next(Threads(Heard(v, learns), InLearn(src, 4, 0, InTable)), 3, 2, Continue(0))
            == Threads(Heard(v, learns + {src}), Processing(4))
  {
    assert CountLearn(Voted(4, v, learns), src, 4) == Voted(4, v, learns + {src});
    assert Heard(v, learns).slots[0 := Voted(4, v, learns + {src})] == Heard(v, learns + {src}).slots;
  }

  lemma LearnArrives(v: Bytes)
    ensures Next(Threads(Heard(v, {2}), Processing(4)), 3, 2, Continue(0)) == Threads(Heard(v, {2}), Idle)
    ensures Next(Threads(Heard(v, {2}), Idle), 3, 2, Receive(LEADER, LearnFrame(4, 0)))
            == Threads(Heard(v, {2}), InLearn(LEADER, 4, 0, InTable))
  {
    DecodeFrame(4, 0, v);
    assert Heard(v, {2}).slots[0 := Voted(4, v, {2})] == Heard(v, {2}).slots;
  }

  /** The pump thread gets in before the handler, with the round the switch had before the ACCEPT. */
  lemma StalePass(v: Bytes)
    ensures var node := Heard(v, {2} + {LEADER});
            && Deliverable(node)
            && Next(Threads(node, Processing(4)), 3, 2, Background(2, 1))
               == Threads(DeliverOne(node, 2), Processing(4))
  {
    var node := Heard(v, {2} + {LEADER});
    assert |{2} + {LEADER}| == 2;
    assert Pump(DeliverOne(node, 2), 2, 0) == DeliverOne(node, 2);
  }

  /** Some run of switch 2 of three ends in `t`, with the numbers in `k` taken. */
  ghost predicate Reaches(issued: Issued, t: Threads, k: set<int>) {
    exists run, taken, events ::
      IsRun(3, 2, issued, run, taken, events) && run[|events|] == t && taken[|events|] == k
  }

  lemma ReachesOn(issued: Issued, t: Threads, k: set<int>, e: ThreadEvent, t': Threads)
    requires Reaches(issued, t, k) && Steps(3, 2, issued, k, t, e) && Next(t, 3, 2, e) == t'
    ensures Reaches(issued, t', TakenBy(k, t, e))
  {
    var run, taken, events :|
      IsRun(3, 2, issued, run, taken, events) && run[|events|] == t && taken[|events|] == k;
    RunLonger(3, 2, issued, run, taken, events, e);
    var (run', taken', events') := (run + [t'], taken + [TakenBy(k, t, e)], events + [e]);
    assert run'[|events'|] == t' && taken'[|events'|] == TakenBy(k, t, e);
  }

  lemma BeginReached(issued: Issued)
    ensures Reaches(issued, Threads(InitNode(2), Idle), {})
  {
    var t := Threads(InitNode(2), Idle);
    var events: seq<ThreadEvent> := [];
    assert IsRun(3, 2, issued, [t], [{}], events) && [t][|events|] == t;
  }

  lemma AcceptReached(v: Bytes)
    ensures Reaches([Some(v)], Threads(Heard(v, {}), CallingSelf(4, 0)), {0})
  {
    var issued, t := [Some(v)], Threads(InitNode(2), Idle);
    var t' := Threads(PutSlot(InitNode(2), 0, NewSlot(3)), InAccept(4, 0, v, InTable));
    BeginReached(issued);
    DecodeFrame(4, 0, v);
    AcceptTaken(v);
    ReachesOn(issued, t, {}, Receive(LEADER, AcceptFrame(4, 0, v)), t');
    ReachesOn(issued, t', {}, Continue(0), Threads(Heard(v, {}), CallingSelf(4, 0)));
  }

  lemma OwnLearnReached(v: Bytes)
    ensures Reaches([Some(v)], Threads(Heard(v, {2}), Processing(4)), {0})
  {
    var issued, t := [Some(v)], Threads(Heard(v, {}), CallingSelf(4, 0));
    var t' := Threads(Heard(v, {}), InLearn(2, 4, 0, InTable));
    AcceptReached(v);
    AcceptTaken(v);
    LearnTaken(v, {}, 2);
    assert {} + {2} == {2};
    ReachesOn(issued, t, {0}, Continue(0), t');
    ReachesOn(issued, t', {0}, Continue(0), Threads(Heard(v, {2}), Processing(4)));
  }

  lemma LearnReached(v: Bytes)
    ensures Reaches([Some(v)], Threads(Heard(v, {2}), InLearn(LEADER, 4, 0, InTable)), {0})
  {
    var issued, t, t' := [Some(v)], Threads(Heard(v, {2}), Processing(4)), Threads(Heard(v, {2}), Idle);
    OwnLearnReached(v);
    LearnArrives(v);
    DecodeFrame(4, 0, v);
    ReachesOn(issued, t, {0}, Continue(0), t');
    ReachesOn(issued, t', {0}, Receive(LEADER, LearnFrame(4, 0)),
              Threads(Heard(v, {2}), InLearn(LEADER, 4, 0, InTable)));
  }

  /** A slot that was delivered for an outdated round stays in the table, however often collections for the
      current one come by. */
  lemma StaleRound(v: Bytes) returns (t: Threads)
    ensures Reaches([Some(v)], t, {0})
    ensures t.node.delivered == [(0, Some(v))] && t.node.crnd == LeaderRound(3)
    ensures 0 in Next(t, 3, 2, Evict(LeaderRound(3))).node.slots
  {
    var issued, node := [Some(v)], Heard(v, {2} + {LEADER});
    LearnReached(v);
    LearnTaken(v, {2}, LEADER);
    StalePass(v);
    ReachesOn(issued, Threads(Heard(v, {2}), InLearn(LEADER, 4, 0, InTable)), {0}, Continue(0),
              Threads(node, Processing(4)));
    t := Threads(DeliverOne(node, 2), Processing(4));
    ReachesOn(issued, Threads(node, Processing(4)), {0}, Background(2, 1), t);
  }
}
