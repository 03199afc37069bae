/**
 The switch controller's objects, updated in place: `Slot`, `Slots` and the controller itself.
 Each method is proved against the functions of module SlotQueue.
 */
module PaxosController {
  import opened Addresses
  import opened Wrappers
  import opened Sets
  import opened PaxosMessage
  import opened SlotQueue

  class Slot {
    var vrnd: Option<int>
    var vval: Option<Bytes>
    var learns: set<Mac>
    var hrnd: int
    var nodeCount: nat

    function State(): SlotState
      reads this
    {
      SlotState(vrnd, vval, learns, hrnd, nodeCount)
    }

    constructor (vrnd: Option<int>, vval: Option<Bytes>, nodeCount: nat)
      ensures State() == SlotState(vrnd, vval, {}, 0, nodeCount)
    {
      this.vrnd, this.vval, this.nodeCount := vrnd, vval, nodeCount;
      learns, hrnd := {}, 0;
    }

    method ResetLearns()
      modifies this
      ensures State() == old(State()).(learns := {})
    {
      learns := {};
    }

    method UpdateLearns(src: Mac)
      modifies this
      ensures State() == old(State()).(learns := old(learns) + {src})
    {
      learns := learns + {src};
    }

    /** The part of `on_learn` between the round test and the queue: a LEARN of a later round starts the
        count again, a second one from the same switch does not count. */
    method Count(src: Mac, n: int) returns (counted: bool)
      requires n >= hrnd
      modifies this
      ensures counted <==> !(n == old(hrnd) && src in old(learns))
      ensures State() == if counted then CountLearn(old(State()), src, n) else old(State())
    {
      if n > hrnd {
        hrnd := n;
        ResetLearns();
      }
      counted := src !in learns;
      if counted {
        UpdateLearns(src);
      }
    }

    /** `learned`: enough unique LEARNs for a majority. */
    method IsLearned() returns (learned: bool)
      ensures learned == Learned(State())
    {
      var votes := |learns|;
      var requiredLearns := 1 + nodeCount / 2;
      learned := votes >= requiredLearns;
    }
  }

  class Slots {
    var slots: map<int, Slot>
    var nodeCount: nat
    var cseq: nat
    var processed: set<(int, int)>

    /** Different numbers have different slot objects. */
    ghost predicate Valid()
      reads this
    {
      forall s, t | s in slots && t in slots && s != t :: slots[s] != slots[t]
    }

    ghost function View(): map<int, SlotState>
      reads this, slots.Values
    {
      map s | s in slots :: slots[s].State()
    }

    constructor (nodeCount: nat)
      ensures Valid() && slots == map[] && this.nodeCount == nodeCount && cseq == 0 && processed == {}
    {
      slots, this.nodeCount, cseq, processed := map[], nodeCount, 0, {};
    }

    method GetSlot(seqno: int) returns (slot: Slot)
      requires Valid()
      modifies this`slots
      ensures Valid() && seqno in slots && slots[seqno] == slot
      ensures fresh(slots.Values - old(slots.Values))
      ensures View() == old(View())[seqno := if seqno in old(slots) then old(View())[seqno] else NewSlot(nodeCount)]
    {
      if seqno !in slots {
        var created := new Slot(None, None, nodeCount);
        slots := slots[seqno := created];
      }
      slot := slots[seqno];
    }

    /** The loop goes over the table's keys: they are numbers and have no `node_count` to set. */
    method UpdateNodeCount(count: nat) returns (raised: bool)
      requires Valid()
      modifies this`nodeCount
      ensures Valid() && nodeCount == count && View() == old(View())
      ensures raised <==> slots != map[]
    {
      nodeCount := count;
      raised := false;
      var todo := slots.Keys;
      while todo != {} && !raised
        invariant nodeCount == count && todo <= slots.Keys && (raised <==> todo != slots.Keys)
        decreases todo
      {
        HasMember(todo);
        var key :| key in todo;
        todo := todo - {key};
        raised := true;
      }
      assert slots == map[] <==> slots.Keys == {};
    }

    method GarbageCollect(n: int)
      requires Valid()
      modifies this`slots
      ensures Valid() && slots.Keys <= old(slots.Keys) && forall s | s in slots :: slots[s] == old(slots[s])
      ensures View() == map s | s in old(View()) && (n, s) !in processed :: old(View())[s]
    {
      var todo := slots.Keys;
      while todo != {}
        invariant Valid() && todo <= slots.Keys <= old(slots.Keys)
        invariant forall s | s in slots :: slots[s] == old(slots[s])
        invariant forall s | s in old(slots) :: s in slots <==> s in todo || (n, s) !in processed
        decreases todo
      {
        HasMember(todo);
        var s :| s in todo;
        todo := todo - {s};
        if (n, s) in processed {
          slots := slots - {s};
        }
      }
      ghost var kept := map s | s in old(View()) && (n, s) !in processed :: old(View())[s];
      assert forall s | s in old(slots) :: s in kept <==> s in slots;
      assert forall s | s in slots :: slots[s].State() == kept[s];
      assert View().Keys == kept.Keys;
    }
  }

  /** One frame to every destination, in order. */
  function SendEach(dsts: seq<Mac>, frame: Frame): (out: seq<(Mac, Frame)>)
    ensures |out| == |dsts| && forall i | 0 <= i < |dsts| :: out[i] == (dsts[i], frame)
  {
    seq(|dsts|, i requires 0 <= i < |dsts| => (dsts[i], frame))
  }

  predicate IsLeast(m: Mac, s: set<Mac>) {
    m in s && forall x | x in s :: m <= x
  }

  lemma {:induction false} LeastExists(s: set<Mac>)
    requires s != {}
    ensures exists m :: IsLeast(m, s)
    decreases s
  {
    HasMember(s);
    var m :| m in s;
    var rest := s - {m};
    var least := m;
    if rest != {} {
      LeastExists(rest);
      var k :| IsLeast(k, rest);
      least := if k < m then k else m;
    }
    forall x | x in s ensures least <= x {
      assert x == m || x in rest;
    }
    assert IsLeast(least, s);
  }

  /** `sorted(list(s))` */
  ghost function Sorted(s: set<Mac>): seq<Mac> {
    if s == {} then
      []
    else
      LeastExists(s);
      var m :| IsLeast(m, s);
      [m] + Sorted(s - {m})
  }

  /** The least first, then the rest. */
  lemma SortedFirst(s: set<Mac>) returns (m: Mac)
    requires s != {}
    ensures IsLeast(m, s) && Sorted(s) == [m] + Sorted(s - {m})
  {
    LeastExists(s);
    m := Sorted(s)[0];
  }

  lemma {:induction false} SortedHas(s: set<Mac>)
    ensures |Sorted(s)| == |s| && (forall m :: m in Sorted(s) <==> m in s)
    decreases s
  {
    if s != {} {
      var m := SortedFirst(s);
      SortedHas(s - {m});
      forall x ensures x in Sorted(s) <==> x in s {
        assert x in Sorted(s) <==> x == m || x in Sorted(s - {m});
      }
    }
  }

  lemma {:induction false} SortedMembers(s: set<Mac>)
    ensures |Sorted(s)| == |s| && (forall m :: m in Sorted(s) <==> m in s)
    ensures forall i, j | 0 <= i < j < |Sorted(s)| :: Sorted(s)[i] < Sorted(s)[j]
    decreases s
  {
    SortedHas(s);
    if s != {} {
      var m := SortedFirst(s);
      var rest := Sorted(s - {m});
      SortedMembers(s - {m});
      forall i, j | 0 <= i < j < |Sorted(s)| ensures Sorted(s)[i] < Sorted(s)[j] {
        assert rest[j - 1] in s - {m};
      }
    }
  }

  /** Every frame of `casts` to every destination. */
  function SendCasts(dsts: seq<Mac>, casts: seq<Frame>): seq<(Mac, Frame)> {
    if casts == [] then [] else SendEach(dsts, casts[0]) + SendCasts(dsts, casts[1..])
  }

  lemma CastsSplit(dsts: seq<Mac>, frame: Frame, casts: seq<Frame>, sent: seq<(Mac, Frame)>)
    ensures sent + SendCasts(dsts, [frame] + casts) == sent + SendEach(dsts, frame) + SendCasts(dsts, casts)
  {
    assert ([frame] + casts)[1..] == casts;
  }

  /** `sorted(list(s))`, by repeatedly taking the least. */
  method SortMacs(s: set<Mac>) returns (v: seq<Mac>)
    ensures v == Sorted(s)
  {
    v := [];
    var rest := s;
    while rest != {}
      invariant v + Sorted(rest) == Sorted(s)
      decreases rest
    {
      LeastExists(rest);
      var m :| IsLeast(m, rest);
      LeastUnique(rest);
      assert Sorted(rest) == [m] + Sorted(rest - {m});
      v := v + [m];
      rest := rest - {m};
    }
  }

  lemma LeastUnique(s: set<Mac>)
    ensures forall a, b | IsLeast(a, s) && IsLeast(b, s) :: a == b
  {
  }

  class Controller {
    const mac: Mac
    const leads: bool
    var N: set<Mac>
    var crnd: int
    var slots: Slots
    var seqno: Option<int>
    var outbox: seq<(Mac, Frame)>
    var delivered: seq<(int, Option<Bytes>)>
    ghost var votes: set<Vote>
    /** How many CLIENT packets the leader has numbered. */
    ghost var taken: nat

    ghost function State(): NodeState
      reads this, slots, slots.slots.Values
    {
      NodeState(crnd, slots.View(), slots.cseq, slots.processed, delivered, votes)
    }

    ghost predicate Valid()
      reads this, slots, slots.slots.Values
    {
      && mac in N && slots.Valid() && slots.nodeCount == |N| && QueueInv(State())
      && seqno == if taken == 0 then None else Some(taken - 1)
    }

    /** The other switches, in the order messages go out; our own turn comes last. */
    ghost function Others(): seq<Mac>
      reads this
    {
      Sorted(N - {mac})
    }

    /** The state once the network has been joined; `crnd` is the switch's id. */
    constructor (mac: Mac, leads: bool, crnd: int, N: set<Mac>)
      requires mac in N
      ensures Valid() && fresh(slots) && State() == InitNode(crnd)
      ensures this.mac == mac && this.leads == leads && this.N == N && outbox == [] && taken == 0
    {
      this.mac, this.leads, this.N, this.crnd, seqno, outbox := mac, leads, N, crnd, None, [];
      delivered, votes, taken := [], {}, 0;
      slots := new Slots(|N|);
    }

    /** `next_round`, once the network has been joined: the leader's round goes up by the number of switches. */
    method StartRound()
      requires Valid()
      modifies this`crnd
      ensures Valid() && State() == old(State()).(crnd := if leads then old(crnd) + |N| else old(crnd))
    {
      if leads {
        crnd := crnd + |N|;
      }
      SameQueue(old(State()), State());
    }

    /** What `process_queue` does with one slot the generator yields, and the generator after it. */
    method DeliverHead(n: int)
      requires Valid() && Deliverable(State())
      modifies this`delivered, slots`cseq, slots`processed
      ensures Valid() && State() == DeliverOne(old(State()), n)
    {
      PumpKeepsQueue(State(), n, 1);
      assert (n, slots.cseq) !in slots.processed;
      delivered := delivered + [(slots.cseq as int, slots.slots[slots.cseq].vval)];
      slots.processed := slots.processed + {(n, slots.cseq)};
      slots.cseq := slots.cseq + 1;
      assert State() == DeliverOne(old(State()), n) == Pump(old(State()), n, 1);
    }

    /** `process_queue`, with the generator `queue` it draws from; the whole pass holds the queue mutex. */
    method ProcessQueue(n: int, ready: nat)
      requires Valid()
      modifies this`delivered, slots`cseq, slots`processed
      ensures Valid() && State() == Pump(old(State()), n, ready)
    {
      var left := ready;
      while slots.cseq in slots.slots
        invariant Valid()
        invariant Pump(State(), n, left) == Pump(old(State()), n, ready)
        decreases left
      {
        assert (n, slots.cseq) !in slots.processed;
        var learned := slots.slots[slots.cseq].IsLearned();
        if !learned {
          return;
        }
        assert (n, slots.cseq) !in slots.processed;
        if left == 0 {
          return;
        }
        DeliverHead(n);
        left := left - 1;
      }
    }

    /** `self.state.slots.get_slot(seqno)` */
    method SlotFor(s: int) returns (slot: Slot)
      requires Valid()
      modifies slots`slots
      ensures Valid() && s in slots.slots && slots.slots[s] == slot
      ensures fresh(slots.slots.Values - old(slots.slots.Values))
      ensures State() == PutSlot(old(State()), s, SlotAt(old(State()), |N|, s))
    {
      slot := slots.GetSlot(s);
      assert slots.View() == old(slots.View())[s := SlotAt(old(State()), |N|, s)];
      SameQueue(old(State()), State());
    }

    /** Counts a LEARN in the slot of number `s`. */
    method CountAt(s: int, slot: Slot, src: Mac, n: int) returns (counted: bool)
      requires Valid() && s in slots.slots && slots.slots[s] == slot && n >= slot.hrnd
      modifies slot
      ensures Valid()
      ensures counted <==> !(n == old(slot.hrnd) && src in old(slot.learns))
      ensures State() == if counted then PutSlot(old(State()), s, CountLearn(old(slot.State()), src,
              n)) else old(State())
    {
      counted := slot.Count(src, n);
      assert forall t | t in slots.slots && t != s :: slots.slots[t].State() == old(slots.slots[t].State());
      assert slots.View() == old(slots.View())[s := slot.State()];
      assert !counted ==> slots.View() == old(slots.View());
      SameQueue(old(State()), State());
    }

    /** `on_learn` once its slot is there. */
    method LearnInSlot(s: int, slot: Slot, src: Mac, n: int, ready: nat)
      requires Valid() && s in slots.slots && slots.slots[s] == slot
      modifies this`delivered, slots`cseq, slots`processed, slot
      ensures Valid() && State() == OnLearn(old(State()), |N|, src, n, s, ready)
    {
      assert slot.State() == SlotAt(State(), |N|, s);
      assert PutSlot(State(), s, slot.State()) == State() by {
        assert slots.View()[s := slot.State()] == slots.View();
      }
      var learned := slot.IsLearned();
      if learned || n < slot.hrnd {
        return;
      }
      var counted := CountAt(s, slot, src, n);
      if counted {
        ProcessQueue(n, ready);
      }
    }

    method HandleLearn(src: Mac, payload: Bytes, ready: nat)
      requires Valid()
      modifies this`delivered, slots, slots.slots.Values
      ensures Valid() && fresh(slots.slots.Values - old(slots.slots.Values))
      ensures State() == match UnpackLearn(payload)
                         case None => old(State())
                         case Some((n, s)) => OnLearn(old(State()), |N|, src, n, s, ready)
    {
      var content := UnpackLearn(payload);
      if content.Some? {
        var (n, s) := content.value;
        var slot := SlotFor(s);
        LearnAfterPut(old(State()), |N|, src, n, s, ready);
        LearnInSlot(s, slot, src, n, ready);
      }
    }

    /** `ordered_nodes(self.mac)`: the others in order, ourselves last. */
    method OrderedNodes() returns (v: seq<Mac>)
      requires mac in N
      ensures v == Others() + [mac]
    {
      v := SortMacs(N - {mac});
      v := v + [mac];
    }

    /** The network part of a round of sends; `connection.send` is an append to `outbox`. */
    method SendToOthers(frame: Frame)
      requires mac in N
      modifies this`outbox
      ensures outbox == old(outbox) + SendEach(Others(), frame)
    {
      var v := OrderedNodes();
      for i := 0 to |v| - 1
        invariant outbox == old(outbox) + SendEach(v[..i], frame)
      {
        assert SendEach(v[..i + 1], frame) == SendEach(v[..i], frame) + [(v[i], frame)];
        outbox := outbox + [(v[i], frame)];
      }
      assert v[..|v| - 1] == Others();
    }

    /** Stores an accepted value in the slot of number `s`. */
    method StoreAt(s: int, slot: Slot, n: int, v: Bytes)
      requires Valid() && s in slots.slots && slots.slots[s] == slot
      modifies this`crnd, this`votes, slot
      ensures Valid()
      ensures State() == PutSlot(old(State()), s, old(slot.State()).(vrnd := Some(n), vval := Some(v)))
                           .(crnd := n, votes := old(votes) + {Vote(n, s, v)})
    {
      crnd := n;
      slot.vrnd := Some(n);
      slot.vval := Some(v);
      votes := votes + {Vote(n, s, v)};
      assert forall t | t in slots.slots && t != s :: slots.slots[t].State() == old(slots.slots[t].State());
      assert slots.View() == old(slots.View())[s := slot.State()];
      SameQueue(old(State()), State());
    }

    /** LEARN to the others, then to ourselves as a plain call. */
    method Announce(n: int, s: int, ready: nat)
      requires Valid() && IsU32(n) && IsU32(s)
      modifies this`outbox, this`delivered, slots, slots.slots.Values
      ensures Valid() && fresh(slots.slots.Values - old(slots.slots.Values))
      ensures State() == OnLearn(old(State()), |N|, mac, n, s, ready)
      ensures outbox == old(outbox) + SendCasts(Others(), [LearnFrame(n, s)])
    {
      SendToOthers(LearnFrame(n, s));
      assert SendCasts(Others(), [LearnFrame(n, s)]) == SendEach(Others(), LearnFrame(n, s));
      LearnRoundTrip(n, s, LearnFrame(n, s).payload);
      HandleLearn(mac, LearnFrame(n, s).payload, ready);
    }

    /** `on_accept` once its slot is there. */
    method AcceptInSlot(s: int, slot: Slot, n: int, v: Bytes, ready: nat)
      requires Valid() && s in slots.slots && slots.slots[s] == slot && IsU32(n) && IsU32(s)
      modifies this, slots, slots.slots.Values
      ensures Valid() && N == old(N) && slots == old(slots) && (seqno, taken) == old((seqno, taken))
      ensures fresh(slots.slots.Values - old(slots.slots.Values))
      ensures var eff := OnAccept(old(State()), |N|, mac, n, s, v, ready);
              State() == eff.node && outbox == old(outbox) + SendCasts(Others(), eff.casts)
    {
      assert slot.State() == SlotAt(State(), |N|, s);
      if n >= crnd && slot.vrnd != Some(n) {
        StoreAt(s, slot, n, v);
        assert State() == Store(old(State()), |N|, n, s, v);
        Announce(n, s, ready);
      } else {
        assert slots.View()[s := slot.State()] == slots.View();
      }
    }

    method HandleAccept(payload: Bytes, ready: nat)
      requires Valid()
      modifies this, slots, slots.slots.Values
      ensures Valid() && N == old(N) && slots == old(slots) && (seqno, taken) == old((seqno, taken))
      ensures fresh(slots.slots.Values - old(slots.slots.Values))
      ensures var eff := match UnpackAccept(payload)
                         case None => Effect(old(State()), [])
                         case Some((n, s, v)) => OnAccept(old(State()), |N|, mac, n, s, v, ready);
              State() == eff.node && outbox == old(outbox) + SendCasts(Others(), eff.casts)
    {
      var content := UnpackAccept(payload);
      if content.Some? {
        var (n, s, v) := content.value;
        var slot := SlotFor(s);
        AcceptAfterPut(old(State()), |N|, mac, n, s, v, ready);
        AcceptInSlot(s, slot, n, v, ready);
      }
    }

    /** `dispatch_paxos`, for a switch that has joined; CLIENT frames go to `HandleClient`. */
    method HandleFrame(src: Mac, frame: Frame, ready: nat)
      requires Valid()
      modifies this, slots, slots.slots.Values
      ensures Valid() && N == old(N) && slots == old(slots) && (seqno, taken) == old((seqno, taken))
      ensures fresh(slots.slots.Values - old(slots.slots.Values))
      ensures var eff := NodeNext(old(State()), |N|, mac, Recv(src, frame, ready));
              State() == eff.node && outbox == old(outbox) + SendCasts(Others(), eff.casts)
    {
      if frame.etype == ACCEPT {
        HandleAccept(frame.payload, ready);
      } else if frame.etype == LEARN {
        HandleLearn(src, frame.payload, ready);
      }
    }

    /** `process_queue(self.state.crnd)` in the pump thread. */
    method PumpQueue(ready: nat)
      requires Valid()
      modifies this`delivered, slots`cseq, slots`processed
      ensures Valid() && State() == NodeNext(old(State()), |N|, mac, Tick(ready)).node
    {
      ProcessQueue(crnd, ready);
    }

    /** `garbage_collect(self.state.crnd)` in the pump thread. */
    method CollectGarbage()
      requires Valid()
      modifies slots`slots
      ensures Valid() && State() == NodeNext(old(State()), |N|, mac, Sweep).node
    {
      slots.GarbageCollect(crnd);
      assert State().slots == Collect(old(State()), crnd).slots;
      SameQueue(old(State()), State());
    }

    /** Our own ACCEPT does not pass through the network. */
    method AcceptOwn(n: int, k: int, v: Bytes, ready: nat)
      requires Valid() && IsU32(n) && IsU32(k)
      modifies this, slots, slots.slots.Values
      ensures Valid() && N == old(N) && slots == old(slots) && (seqno, taken) == old((seqno, taken))
      ensures fresh(slots.slots.Values - old(slots.slots.Values))
      ensures var eff := OnAccept(old(State()), |N|, mac, n, k, v, ready);
              State() == eff.node && outbox == old(outbox) + SendCasts(Others(), eff.casts)
    {
      AcceptRoundTrip(n, k, v, AcceptFrame(n, k, v).payload);
      HandleAccept(AcceptFrame(n, k, v).payload, ready);
    }

    /** ACCEPT to the others, then to ourselves as a plain call. */
    method Propose(n: int, k: int, v: Bytes, ready: nat)
      requires Valid() && IsU32(n) && IsU32(k)
      modifies this, slots, slots.slots.Values
      ensures Valid() && N == old(N) && slots == old(slots) && (seqno, taken) == old((seqno, taken))
      ensures fresh(slots.slots.Values - old(slots.slots.Values))
      ensures var eff := OnAccept(old(State()), |N|, mac, n, k, v, ready);
              State() == eff.node && outbox == old(outbox) + SendCasts(Others(), [AcceptFrame(n, k, v)] + eff.casts)
    {
      var accept := AcceptFrame(n, k, v);
      ghost var dsts, sent := Others(), outbox;
      ghost var casts := OnAccept(State(), |N|, mac, n, k, v, ready).casts;
      SendToOthers(accept);
      AcceptOwn(n, k, v, ready);
      CastsSplit(dsts, accept, casts, sent);
    }

    /** `Leader.next_seqno` */
    method NextSeqno() returns (k: int)
      requires Valid()
      modifies this`seqno, this`taken
      ensures Valid() && State() == old(State()) && k == old(taken) && taken == old(taken) + 1
    {
      if seqno.None? {
        seqno := Some(0);
      } else {
        seqno := Some(seqno.value + 1);
      }
      k := seqno.value;
      taken := taken + 1;
    }

    /** A CLIENT payload. The number is taken first; a payload without its header, or a number or round
        that does not fit its field, raises after that. */
    method HandleClient(payload: Bytes, ready: nat)
      requires Valid()
      modifies this, slots, slots.slots.Values
      ensures Valid() && N == old(N) && slots == old(slots)
      ensures fresh(slots.slots.Values - old(slots.slots.Values))
      ensures taken == if leads then old(taken) + 1 else old(taken)
      ensures var n, k, v := old(crnd), old(taken), UnpackClient(payload);
              if leads && v.Some? && IsU32(n) && IsU32(k) then
                var eff := OnAccept(old(State()), |N|, mac, n, k, v.value, ready);
                && State() == eff.node
                && outbox == old(outbox) + SendCasts(Others(), [AcceptFrame(n, k, v.value)] + eff.casts)
              else
                State() == old(State()) && outbox == old(outbox)
    {
      if leads {
        var n := crnd;
        var k := NextSeqno();
        var v := UnpackClient(payload);
        if v.Some? && IsU32(n) && IsU32(k) {
          Propose(n, k, v.value, ready);
        }
      }
    }
  }

  /** Asking for the slot first makes no difference to what a LEARN does. */
  lemma LearnAfterPut(node: NodeState, count: nat, src: Mac, n: int, s: int, ready: nat)
    ensures OnLearn(PutSlot(node, s, SlotAt(node, count, s)), count, src, n, s, ready) == OnLearn(node, count, src,
            n, s, ready)
  {
    var slot := SlotAt(node, count, s);
    assert PutSlot(PutSlot(node, s, slot), s, slot) == PutSlot(node, s, slot);
    if n >= slot.hrnd {
      assert PutSlot(PutSlot(node, s, slot), s, CountLearn(slot, src, n)) == PutSlot(node, s, CountLearn(slot, src, n));
    }
  }

  /** Nor to what an ACCEPT does. */
  lemma AcceptAfterPut(node: NodeState, count: nat, me: Mac, n: int, s: int, v: Bytes, ready: nat)
    requires IsU32(n) && IsU32(s)
    ensures OnAccept(PutSlot(node, s, SlotAt(node, count, s)), count, me, n, s, v, ready) ==
            OnAccept(node, count, me, n, s, v, ready)
  {
    var slot := SlotAt(node, count, s);
    var put := PutSlot(node, s, slot);
    assert put.slots[s := slot] == put.slots;
    var stored := slot.(vrnd := Some(n), vval := Some(v));
    assert PutSlot(put, s, stored) == PutSlot(node, s, stored);
  }
}
