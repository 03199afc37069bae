/**
 The controller objects of module PaxosController play the switches of module SwitchSystem: what an object does to
 its fields is the system's step at its switch, and what it sends is what the step puts on the wires.
 */
module SwitchObjects {
  import opened Addresses
  import opened PaxosController
  import opened PaxosMessage
  import opened Quorums
  import opened SlotQueue
  import opened SteadyNode
  import opened SwitchSystem

  // ---- What goes to whom ----

  /** The frames for switch `to`, in the order they are sent. */
  function FramesFor(sent: seq<(Mac, Frame)>, to: Mac): seq<Frame> {
    if sent == [] then
      []
    else
      FramesFor(sent[..|sent| - 1], to) + if sent[|sent| - 1].0 == to then [sent[|sent| - 1].1] else []
  }

  lemma {:induction false} FramesForBoth(a: seq<(Mac, Frame)>, b: seq<(Mac, Frame)>, to: Mac)
    ensures FramesFor(a + b, to) == FramesFor(a, to) + FramesFor(b, to)
  {
    if b == [] {
      assert a + b == a;
    } else {
      FramesForBoth(a, b[..|b| - 1], to);
      assert (a + b)[..|a + b| - 1] == a + b[..|b| - 1];
    }
  }

  ghost predicate Distinct(dsts: seq<Mac>) {
    forall i, j | 0 <= i < j < |dsts| :: dsts[i] != dsts[j]
  }

  lemma {:induction false} FramesForEach(dsts: seq<Mac>, frame: Frame, to: Mac)
    requires Distinct(dsts)
    ensures FramesFor(SendEach(dsts, frame), to) == if to in dsts then [frame] else []
  {
    if dsts != [] {
      var before := dsts[..|dsts| - 1];
      FramesForEach(before, frame, to);
      assert SendEach(dsts, frame)[..|dsts| - 1] == SendEach(before, frame);
      assert to in dsts <==> to in before || to == dsts[|dsts| - 1];
    }
  }

  lemma FramesForFirst(dsts: seq<Mac>, casts: seq<Frame>, to: Mac)
    requires Distinct(dsts) && casts != []
    ensures FramesFor(SendCasts(dsts, casts), to)
            == (if to in dsts then [casts[0]] else []) + FramesFor(SendCasts(dsts, casts[1..]), to)
  {
    FramesForEach(dsts, casts[0], to);
    FramesForBoth(SendEach(dsts, casts[0]), SendCasts(dsts, casts[1..]), to);
  }

  /** Every one of `dsts` gets all frames in order, and nobody else anything. */
  lemma {:induction false} FramesForCasts(dsts: seq<Mac>, casts: seq<Frame>, to: Mac)
    requires Distinct(dsts)
    ensures FramesFor(SendCasts(dsts, casts), to) == if to in dsts then casts else []
  {
    if casts != [] {
      FramesForFirst(dsts, casts, to);
      FramesForCasts(dsts, casts[1..], to);
      assert casts == [casts[0]] + casts[1..];
    }
  }

  /** `sent` by `from` brings every other switch exactly `casts`. */
  ghost predicate Brings(count: nat, from: Mac, sent: seq<(Mac, Frame)>, casts: seq<Frame>) {
    forall to :: FramesFor(sent, to) == if to in Ids(count) && to != from then casts else []
  }

  lemma CastsBring(count: nat, from: Mac, casts: seq<Frame>)
    ensures Brings(count, from, SendCasts(Sorted(Ids(count) - {from}), casts), casts)
  {
    SortedMembers(Ids(count) - {from});
    forall to ensures FramesFor(SendCasts(Sorted(Ids(count) - {from}), casts), to)
                      == if to in Ids(count) && to != from then casts else [] {
      FramesForCasts(Sorted(Ids(count) - {from}), casts, to);
    }
  }

  // ---- Objects and switches ----

  /** The object is switch `c.mac` of the system; the leader's has numbered what the system has. */
  ghost predicate Plays(count: nat, c: Controller, s: System)
    reads c, c.slots, c.slots.slots.Values
  {
    && c.Valid() && c.N == Ids(count) && (c.leads <==> c.mac == LEADER)
    && c.mac in s.switches && s.switches[c.mac].node == c.State()
    && (c.leads ==> c.taken == |s.issued|)
  }

  /** The wires of `s'` hold what those of `s` did and what `from` sent. */
  ghost predicate WiresGrow(count: nat, from: Mac, s: System, s': System, sent: seq<(Mac, Frame)>) {
    if from == LEADER then
      && s'.network == s.network && s.stream <= s'.stream
      && Brings(count, from, sent, s'.stream[|s.stream|..])
    else
      && s'.stream == s.stream
      && s'.network == s.network + set to, f | to in Ids(count) && f in FramesFor(sent, to) :: Sent(from, to, f)
  }

  lemma ActWires(count: nat, s: System, at: Mac, e: NodeEvent)
    requires at in s.switches
    ensures var casts := NodeNext(s.switches[at].node, count, at, e).casts;
            WiresGrow(count, at, s, Act(count, s, at, e), SendCasts(Sorted(Ids(count) - {at}), casts))
  {
    var casts := NodeNext(s.switches[at].node, count, at, e).casts;
    var sent := SendCasts(Sorted(Ids(count) - {at}), casts);
    CastsBring(count, at, casts);
    assert Unicasts(count, at, casts)
           == set to, f | to in Ids(count) && f in FramesFor(sent, to) :: Sent(at, to, f);
  }

  /** The objects that joining leaves behind, once the leader has started its round, play the system's first state. */
  method Boot(count: nat, j: Mac) returns (c: Controller)
    requires j in Ids(count)
    ensures fresh(c) && c.mac == j && c.outbox == [] && Plays(count, c, Init(count))
  {
    IdsSize(count);
    c := new Controller(j, j == LEADER, j, Ids(count));
    c.StartRound();
  }

  /** What happens at another switch does not concern the object. */
  lemma ElsewhereSame(count: nat, c: Controller, s: System, e: Event)
    requires Plays(count, c, s) && Enabled(count, s, e)
    requires match e
             case Client(_, _) => c.mac != LEADER
             case FromLeader(to, _, _) => c.mac != to
             case FromPeer(m, _) => c.mac != m.to
             case Background(at, _) => c.mac != at
             case Evict(at) => c.mac != at
    ensures Plays(count, c, Next(count, s, e))
  {
  }

  /** A frame that reaches the object is the system's step at its switch, numbering aside. */
  method Receive(count: nat, c: Controller, ghost s: System, src: Mac, frame: Frame, ready: nat)
    returns (ghost sent: seq<(Mac, Frame)>)
    requires Plays(count, c, s)
    modifies c, c.slots, c.slots.slots.Values
    ensures c.slots == old(c.slots) && fresh(c.slots.slots.Values - old(c.slots.slots.Values))
    ensures Plays(count, c, Act(count, s, c.mac, Recv(src, frame, ready)))
    ensures c.outbox == old(c.outbox) + sent
    ensures WiresGrow(count, c.mac, s, Act(count, s, c.mac, Recv(src, frame, ready)), sent)
  {
    IdsSize(count);
    ActWires(count, s, c.mac, Recv(src, frame, ready));
    sent := SendCasts(Sorted(Ids(count) - {c.mac}), NodeNext(c.State(), count, c.mac, Recv(src, frame, ready)).casts);
    c.HandleFrame(src, frame, ready);
  }

  /** So is a pass in the background, and a collection. */
  method Pump(count: nat, c: Controller, ghost s: System, ready: nat)
    requires Plays(count, c, s)
    modifies c`delivered, c.slots`cseq, c.slots`processed
    ensures Plays(count, c, Next(count, s, Background(c.mac, ready)))
  {
    IdsSize(count);
    c.PumpQueue(ready);
  }

  method Collect(count: nat, c: Controller, ghost s: System)
    requires Plays(count, c, s)
    modifies c.slots`slots
    ensures Plays(count, c, Next(count, s, Evict(c.mac)))
  {
    IdsSize(count);
    c.CollectGarbage();
  }

  /** What the leader sends for a client packet that got number `k`. */
  function ClientCasts(node: NodeState, count: nat, k: nat, v: Bytes, ready: nat): seq<Frame>
    requires IsU32(node.crnd) && IsU32(k)
  {
    [AcceptFrame(node.crnd, k, v)] + OnAccept(node, count, LEADER, node.crnd, k, v, ready).casts
  }

  lemma ClientStream(count: nat, s: System, payload: Bytes, ready: nat)
    requires LEADER in s.switches && NextEntry(s, payload).Some?
    ensures var node := s.switches[LEADER].node;
            var casts := ClientCasts(node, count, |s.issued|, NextEntry(s, payload).value, ready);
            var s' := Next(count, s, Client(payload, ready));
            s'.stream == s.stream + casts && s'.network == s.network
  {
    DecodeFrame(s.switches[LEADER].node.crnd, |s.issued|, NextEntry(s, payload).value);
  }

  lemma ClientWires(count: nat, s: System, payload: Bytes, ready: nat)
    requires LEADER in s.switches && NextEntry(s, payload).Some?
    ensures var node := s.switches[LEADER].node;
            var casts := ClientCasts(node, count, |s.issued|, NextEntry(s, payload).value, ready);
            WiresGrow(count, LEADER, s, Next(count, s, Client(payload, ready)),
              SendCasts(Sorted(Ids(count) - {LEADER}), casts))
  {
    var casts := ClientCasts(s.switches[LEADER].node, count, |s.issued|, NextEntry(s, payload).value, ready);
    CastsBring(count, LEADER, casts);
    ClientStream(count, s, payload, ready);
    assert (s.stream + casts)[|s.stream|..] == casts;
  }

  /** A client packet that reaches the leader's object is the system's step: it takes the number the system takes,
      the first one 0, whether or not a packet comes of it; at any other switch nothing happens. */
  method TakeClient(count: nat, c: Controller, ghost s: System, payload: Bytes, ready: nat)
    returns (ghost sent: seq<(Mac, Frame)>)
    requires Plays(count, c, s)
    modifies c, c.slots, c.slots.slots.Values
    ensures c.slots == old(c.slots) && fresh(c.slots.slots.Values - old(c.slots.slots.Values))
    ensures c.outbox == old(c.outbox) + sent
    ensures var s' := if c.leads then Next(count, s, Client(payload, ready)) else s;
            Plays(count, c, s') && WiresGrow(count, c.mac, s, s', sent)
  {
    IdsSize(count);
    sent := [];
    if c.leads {
      ghost var entry := NextEntry(s, payload);
      if entry.Some? {
        ClientWires(count, s, payload, ready);
        DecodeFrame(c.crnd, c.taken, entry.value);
        sent := SendCasts(Sorted(Ids(count) - {LEADER}), ClientCasts(c.State(), count, c.taken, entry.value, ready));
      }
    }
    c.HandleClient(payload, ready);
  }
}
