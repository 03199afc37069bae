/** Running the same schedule of one switch with and without the garbage collector. */
module Collection {
  import opened Addresses
  import opened Wrappers
  import opened Quorums
  import opened PaxosMessage
  import opened SlotQueue
  import opened SteadyNode

  /** The switch after a schedule; without `sweeping`, collections are left out. */
  function Run(count: nat, me: Mac, node: NodeState, events: seq<NodeEvent>, sweeping: bool): NodeState {
    if events == [] then
      node
    else
      var e := events[|events| - 1];
      var before := Run(count, me, node, events[..|events| - 1], sweeping);
      if e.Sweep? && !sweeping then before else NodeNext(before, count, me, e).node
  }

  function TakenIn(events: seq<NodeEvent>): set<int> {
    if events == [] then {} else TakenAfter(TakenIn(events[..|events| - 1]), events[|events| - 1])
  }

  /** Every event is one a switch may meet at that point. */
  ghost predicate Steady(count: nat, me: Mac, issued: Issued, events: seq<NodeEvent>) {
    forall i | 0 <= i < |events| :: ExpectedAt(count, me, issued, events, i)
  }

  ghost predicate ExpectedAt(count: nat, me: Mac, issued: Issued, events: seq<NodeEvent>, i: nat)
    requires i < |events|
  {
    Expected(count, me, issued, TakenIn(events[..i]), events[i])
  }

  lemma SteadyBefore(count: nat, me: Mac, issued: Issued, events: seq<NodeEvent>)
    requires Steady(count, me, issued, events) && events != []
    ensures Steady(count, me, issued, events[..|events| - 1])
    ensures Expected(count, me, issued, TakenIn(events[..|events| - 1]), events[|events| - 1])
  {
    var before := events[..|events| - 1];
    assert ExpectedAt(count, me, issued, events, |events| - 1);
    forall i | 0 <= i < |before| ensures ExpectedAt(count, me, issued, before, i) {
      assert before[..i] == events[..i];
      assert ExpectedAt(count, me, issued, events, i);
    }
  }

  lemma SteadyMore(count: nat, me: Mac, issued: Issued, events: seq<NodeEvent>, e: NodeEvent)
    requires Steady(count, me, issued, events) && Expected(count, me, issued, TakenIn(events), e)
    ensures Steady(count, me, issued, events + [e])
  {
    var more := events + [e];
    forall i | 0 <= i < |more| ensures ExpectedAt(count, me, issued, more, i) {
      assert more[..i] == events[..i];
      if i < |events| {
        assert ExpectedAt(count, me, issued, events, i);
      } else {
        assert events[..i] == events;
      }
    }
  }

  /** `b` collects and `a` does not. They differ only below the point `b` has delivered to, where `a`
      still holds every slot, learned, with the value `b` delivered. */
  ghost predicate SameAhead(count: nat, a: NodeState, b: NodeState) {
    && a.crnd == b.crnd && a.cseq <= b.cseq && |a.delivered| == a.cseq && |b.delivered| == b.cseq
    && (forall s: int | s >= b.cseq :: (s in a.slots <==> s in b.slots) && (s in a.slots ==> a.slots[s] == b.slots[s]))
    && (forall s: int | 0 <= s < b.cseq :: Kept(count, a, b, s))
    && (forall s: int | 0 <= s < a.cseq :: a.delivered[s] == b.delivered[s])
  }

  ghost predicate Kept(count: nat, a: NodeState, b: NodeState, s: int)
    requires 0 <= s < |b.delivered|
  {
    && s in a.slots && Learned(a.slots[s])
    && a.slots[s].vrnd == Some(LeaderRound(count)) && b.delivered[s] == (s, a.slots[s].vval)
  }

  /** Queue passes of the two, the collecting one possibly going further, keep them alike. */
  lemma PumpAlike(count: nat, me: Mac, issued: Issued, taken: set<int>, a: NodeState, b: NodeState,
                  n: int, ra: nat, rb: nat)
    requires SameAhead(count, a, b) && ra <= rb
    requires NodeInv(count, me, issued, taken, b) && NodeInv(count, me, issued, taken, Pump(b, n, rb))
    ensures SameAhead(count, Pump(a, n, ra), Pump(b, n, rb))
  {
    var a', b' := Pump(a, n, ra), Pump(b, n, rb);
    PumpDelivers(a, n, ra);
    PumpDelivers(b, n, rb);
    if a'.cseq > b'.cseq {
      assert Learned(a.slots[b'.cseq]) && a.slots[b'.cseq] == b.slots[b'.cseq];
      assert Deliverable(b');
      assert false;
    }
    forall s: int | 0 <= s < b'.cseq ensures Kept(count, a', b', s) {
      if s < b.cseq {
        assert Kept(count, a, b, s);
      } else {
        assert IssuedAs(issued, s, b'.delivered[s].1);
        assert SlotInv(count, me, issued, taken, s, b.slots[s]);
      }
    }
    forall s: int | 0 <= s < a'.cseq ensures a'.delivered[s] == b'.delivered[s] {
      if s >= a.cseq {
        assert Kept(count, a', b', s);
      }
    }
  }

  /** Writing the same slot ahead of both, or any slot the collecting switch is past in `b` alone. */
  lemma PutAlike(count: nat, a: NodeState, b: NodeState, s: int, slot: SlotState)
    requires SameAhead(count, a, b) && s >= 0
    ensures s >= b.cseq ==> SameAhead(count, PutSlot(a, s, slot), PutSlot(b, s, slot))
    ensures s < b.cseq ==> SameAhead(count, a, PutSlot(b, s, slot))
  {
    if s >= b.cseq {
      var a', b' := PutSlot(a, s, slot), PutSlot(b, s, slot);
      forall k: int | 0 <= k < b.cseq ensures Kept(count, a', b', k) {
        assert Kept(count, a, b, k);
      }
    } else {
      forall k: int | 0 <= k < b.cseq ensures Kept(count, a, PutSlot(b, s, slot), k) {
        assert Kept(count, a, b, k);
      }
    }
  }

  /** A slot that is kept is left alone by LEARNs. */
  lemma KeptLearnIgnored(count: nat, a: NodeState, b: NodeState, src: Mac, n: int, s: int, ready: nat)
    requires 0 <= s < |b.delivered| && Kept(count, a, b, s)
    ensures OnLearn(a, count, src, n, s, ready) == a
  {
    assert a.slots[s := a.slots[s]] == a.slots;
  }

  /** Counting the LEARN, and the pass that follows, keep the collecting switch steady. */
  lemma CountedSteady(count: nat, me: Mac, issued: Issued, taken: set<int>, b: NodeState, src: Mac, s: int, ready: nat)
    requires count <= 4 && me in Ids(count) && s >= 0 && NodeInv(count, me, issued, taken, b)
    requires src in Ids(count) && (src == LEADER || me == LEADER ==> s in taken)
    requires src == me ==> s in b.slots && b.slots[s].vrnd.Some?
    requires var (n, slot) := (LeaderRound(count), SlotAt(b, count, s));
             !Learned(slot) && n >= slot.hrnd && !(n == slot.hrnd && src in slot.learns)
    ensures var u := PutSlot(b, s, CountLearn(SlotAt(b, count, s), src, LeaderRound(count)));
            && NodeInv(count, me, issued, taken, u)
            && NodeInv(count, me, issued, taken, Pump(u, LeaderRound(count), ready))
  {
    var slot := SlotAt(b, count, s);
    LearnSteady(count, me, issued, taken, b, src, s, ready);
    assert SlotInv(count, me, issued, taken, s, slot);
    SlotReplaced(count, me, issued, taken, b, s, CountLearn(slot, src, LeaderRound(count)));
  }

  lemma LearnAlike(count: nat, me: Mac, issued: Issued, taken: set<int>, a: NodeState, b: NodeState,
                   src: Mac, s: int, ready: nat)
    requires count <= 4 && me in Ids(count) && s >= 0 && SameAhead(count, a, b)
    requires NodeInv(count, me, issued, taken, b)
    requires src in Ids(count) && (src == LEADER || me == LEADER ==> s in taken)
    requires src == me ==> s in b.slots && b.slots[s].vrnd.Some?
    ensures SameAhead(count, OnLearn(a, count, src, LeaderRound(count), s, ready),
                             OnLearn(b, count, src, LeaderRound(count), s, ready))
  {
    var n, slot := LeaderRound(count), SlotAt(b, count, s);
    if s < b.cseq {
      KeptLearnIgnored(count, a, b, src, n, s, ready);
    }
    if Learned(slot) || n < slot.hrnd || (n == slot.hrnd && src in slot.learns) {
      PutAlike(count, a, b, s, slot);
    } else {
      var slot' := CountLearn(slot, src, n);
      PutAlike(count, a, b, s, slot');
      CountedSteady(count, me, issued, taken, b, src, s, ready);
      PumpAlike(count, me, issued, taken, if s < b.cseq then a else PutSlot(a, s, slot'), PutSlot(b, s, slot'),
                n, if s < b.cseq then 0 else ready, ready);
    }
  }

  lemma StoreAlike(count: nat, a: NodeState, b: NodeState, s: int, v: Bytes)
    requires SameAhead(count, a, b) && s >= 0
    ensures var n := LeaderRound(count);
            && (s >= b.cseq ==> SameAhead(count, Store(a, count, n, s, v), Store(b, count, n, s, v)))
            && (s < b.cseq && a.crnd == n ==> SameAhead(count, a, Store(b, count, n, s, v)))
  {
    var n := LeaderRound(count);
    var slot := SlotAt(b, count, s).(vrnd := Some(n), vval := Some(v));
    PutAlike(count, a, b, s, slot);
    var b' := Store(b, count, n, s, v);
    forall k: int | 0 <= k < b.cseq
      ensures Kept(count, a, b', k)
      ensures s >= b.cseq ==> Kept(count, Store(a, count, n, s, v), b', k)
    {
      assert Kept(count, a, b, k);
    }
  }

  lemma AcceptAlike(count: nat, me: Mac, issued: Issued, taken: set<int>, a: NodeState, b: NodeState,
                    s: int, v: Bytes, ready: nat)
    requires count <= 4 && me in Ids(count) && SameAhead(count, a, b)
    requires NodeInv(count, me, issued, taken, a) && NodeInv(count, me, issued, taken, b)
    requires IssuedAs(issued, s, Some(v)) && IsU32(LeaderRound(count)) && IsU32(s)
    ensures SameAhead(count, OnAccept(a, count, me, LeaderRound(count), s, v, ready).node,
                             OnAccept(b, count, me, LeaderRound(count), s, v, ready).node)
  {
    var n := LeaderRound(count);
    StoreAlike(count, a, b, s, v);
    PutAlike(count, a, b, s, SlotAt(b, count, s));
    if s < b.cseq {
      assert Kept(count, a, b, s);
      assert SlotInv(count, me, issued, taken, s, a.slots[s]);
      assert a.slots[s := a.slots[s]] == a.slots;
      assert OnAccept(a, count, me, n, s, v, ready).node == a;
      if Accepts(b, count, n, s) {
        StoreSteady(count, me, issued, taken, b, s, v);
        var b' := Store(b, count, n, s, v);
        LearnAlike(count, me, issued, taken + {s}, a, b', me, s, ready);
        KeptLearnIgnored(count, a, b', me, n, s, ready);
      }
    } else if Accepts(b, count, n, s) {
      StoreSteady(count, me, issued, taken, b, s, v);
      LearnAlike(count, me, issued, taken + {s}, Store(a, count, n, s, v), Store(b, count, n, s, v), me, s, ready);
    }
  }

  lemma SweepAlike(count: nat, a: NodeState, b: NodeState)
    requires SameAhead(count, a, b) && QueueInv(b)
    ensures SameAhead(count, a, Collect(b, b.crnd))
  {
    forall s: int | 0 <= s < b.cseq ensures Kept(count, a, Collect(b, b.crnd), s) {
      assert Kept(count, a, b, s);
    }
  }

  lemma StepAlike(count: nat, me: Mac, issued: Issued, taken: set<int>, a: NodeState, b: NodeState, e: NodeEvent)
    requires count <= 4 && me in Ids(count) && SameAhead(count, a, b)
    requires NodeInv(count, me, issued, taken, a) && NodeInv(count, me, issued, taken, b)
    requires Expected(count, me, issued, taken, e)
    ensures SameAhead(count, if e.Sweep? then a else NodeNext(a, count, me, e).node, NodeNext(b, count, me, e).node)
  {
    match e
    case Tick(ready) =>
      PumpSteady(count, me, issued, taken, b, b.crnd, ready);
      PumpAlike(count, me, issued, taken, a, b, b.crnd, ready, ready);
    case Sweep => SweepAlike(count, a, b);
    case Recv(src, frame, ready) =>
      match Decode(frame)
      case Accepting(n, s, v) => AcceptAlike(count, me, issued, taken, a, b, s, v, ready);
      case Learning(n, s) => LearnAlike(count, me, issued, taken, a, b, src, s, ready);
      case Ignored =>
  }

  lemma {:induction false} RunsAlike(count: nat, me: Mac, issued: Issued, node: NodeState, events: seq<NodeEvent>)
    requires count <= 4 && me in Ids(count) && Steady(count, me, issued, events)
    requires NodeInv(count, me, issued, {}, node) && node.cseq == 0
    ensures var a, b := Run(count, me, node, events, false), Run(count, me, node, events, true);
            && NodeInv(count, me, issued, TakenIn(events), a)
            && NodeInv(count, me, issued, TakenIn(events), b)
            && SameAhead(count, a, b)
  {
    if events != [] {
      var before, e := events[..|events| - 1], events[|events| - 1];
      SteadyBefore(count, me, issued, events);
      RunsAlike(count, me, issued, node, before);
      var a, b := Run(count, me, node, before, false), Run(count, me, node, before, true);
      StepSteady(count, me, issued, TakenIn(before), a, e);
      StepSteady(count, me, issued, TakenIn(before), b, e);
      StepAlike(count, me, issued, TakenIn(before), a, b, e);
    }
  }

  /** Collection is invisible: on one schedule, what is delivered with it extends what is delivered
      without it, and the two are equal whenever the switch that does not collect was not postponed. */
  lemma CollectionInvisible(count: nat, me: Mac, issued: Issued, node: NodeState, events: seq<NodeEvent>)
    requires count <= 4 && me in Ids(count) && Steady(count, me, issued, events)
    requires NodeInv(count, me, issued, {}, node) && node.cseq == 0
    ensures var a, b := Run(count, me, node, events, false), Run(count, me, node, events, true);
            a.delivered <= b.delivered && (!Deliverable(a) ==> a.delivered == b.delivered)
  {
    RunsAlike(count, me, issued, node, events);
    var a, b := Run(count, me, node, events, false), Run(count, me, node, events, true);
    if a.cseq < b.cseq {
      assert Kept(count, a, b, a.cseq);
    }
  }

  /** An ACCEPT of a number that was delivered, whose value the collector has dropped. */
  predicate AcceptsAgain(b: NodeState, e: NodeEvent) {
    e.Recv? && Decode(e.frame).Accepting? &&
    var s := Decode(e.frame).seqno;
    s < b.cseq && (s !in b.slots || b.slots[s].vrnd.None?)
  }

  /** What a switch sends does not depend on collection either, except exactly then: it answers once more. */
  lemma SendsAlikeIff(count: nat, me: Mac, issued: Issued, taken: set<int>, a: NodeState, b: NodeState, e: NodeEvent)
    requires NodeInv(count, me, issued, taken, a) && NodeInv(count, me, issued, taken, b) && SameAhead(count, a, b)
    requires Expected(count, me, issued, taken, e)
    ensures NodeNext(a, count, me, e).casts == NodeNext(b, count, me, e).casts <==> !AcceptsAgain(b, e)
    ensures AcceptsAgain(b, e) ==>
              && NodeNext(a, count, me, e).casts == []
              && NodeNext(b, count, me, e).casts == [LearnFrame(LeaderRound(count), Decode(e.frame).seqno)]
              && Decode(e.frame).seqno in taken
  {
    if e.Recv? && Decode(e.frame).Accepting? {
      var s := Decode(e.frame).seqno;
      assert s in a.slots ==> SlotInv(count, me, issued, taken, s, a.slots[s]);
      assert s in b.slots ==> SlotInv(count, me, issued, taken, s, b.slots[s]);
      assert s < b.cseq ==> Kept(count, a, b, s);
    }
  }

  // ---- The queue, over whole schedules ----

  /** After any schedule of frames, passes, postponements and collections, whatever the frames say and with or
      without collecting, the queue's books are right: processed and delivered are exactly the numbers below
      `cseq`, once each and in order. */
  lemma {:induction false} QueueAlwaysExact(count: nat, me: Mac, crnd: int, events: seq<NodeEvent>, sweeping: bool)
    ensures QueueInv(Run(count, me, InitNode(crnd), events, sweeping))
    decreases |events|
  {
    if events != [] {
      var before, e := events[..|events| - 1], events[|events| - 1];
      QueueAlwaysExact(count, me, crnd, before, sweeping);
      QueueExact(Run(count, me, InitNode(crnd), before, sweeping), count, me, e);
    }
  }
}
