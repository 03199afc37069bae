/** From the leader's numbering to the frames that leave a switch's host ports. */
module EndToEnd {
  import opened Addresses
  import opened HostDelivery
  import opened LearningSwitch
  import opened PaxosMessage
  import opened Quorums
  import opened Sets
  import opened SlotQueue
  import opened SwitchSystem
  import opened TotalOrder
  import opened Wrappers
  import FlowCache
  import Joining
  import PaxosController

  // ---- One pass, with the hosts ----

  /** What was sent for one value after the other. */
  function Flat(outs: seq<seq<Delivery>>): seq<Delivery> {
    if outs == [] then [] else Flat(outs[..|outs| - 1]) + outs[|outs| - 1]
  }

  lemma FlatMore(outs: seq<seq<Delivery>>, out: seq<Delivery>)
    ensures Flat(outs + [out]) == Flat(outs) + out
  {
    assert (outs + [out])[..|outs|] == outs;
  }

  lemma {:induction false} FlatBoth(outs: seq<seq<Delivery>>, more: seq<seq<Delivery>>)
    ensures Flat(outs + more) == Flat(outs) + Flat(more)
  {
    if more == [] {
      assert outs + more == outs;
    } else {
      var before, out := more[..|more| - 1], more[|more| - 1];
      FlatBoth(outs, before);
      FlatMore(outs + before, out);
      FlatMore(before, out);
      assert outs + more == (outs + before) + [out] && more == before + [out];
    }
  }

  /** With all addresses known, every known host got the value once. */
  ghost predicate Served(v: View, out: seq<Delivery>, value: Option<Bytes>) {
    AddressesKnown(v) && OnePerHost(v, KnownHosts(v), out, value)
  }

  /** Each entry of the log was served, when the switch saw what `views` says. */
  ghost predicate AllServed(views: seq<View>, outs: seq<seq<Delivery>>, log: seq<(int, Option<Bytes>)>) {
    |views| == |outs| == |log| && forall k | 0 <= k < |log| :: Served(views[k], outs[k], log[k].1)
  }

  lemma ServedMore(views: seq<View>, outs: seq<seq<Delivery>>, log: seq<(int, Option<Bytes>)>, v: View,
                   out: seq<Delivery>, entry: (int, Option<Bytes>))
    requires AllServed(views, outs, log) && Served(v, out, entry.1)
    ensures AllServed(views + [v], outs + [out], log + [entry])
  {
  }

  /** One more delivery, at the end of a pass. */
  lemma {:induction false} PumpOneMore(node: NodeState, n: int, ready: nat)
    requires Deliverable(Pump(node, n, ready))
    ensures Pump(node, n, ready + 1) == DeliverOne(Pump(node, n, ready), n)
    decreases ready
  {
    if Deliverable(node) && ready > 0 {
      PumpOneMore(DeliverOne(node, n), n, ready - 1);
    }
  }

  /** What a pass comes to at the head of the queue: nothing to deliver, all hosts known and ours, or not. */
  ghost function Outcomes(v: View, node: NodeState): Outcome {
    if !Deliverable(node) then Processed
    else if !AddressesKnown(v) then Postponed
    else if PaxosAmongHosts(v) then Raised
    else Processed
  }

  /** Where and why a pass stops. */
  ghost predicate Stopped(v: View, node: NodeState, outcome: Outcome, rest: seq<Delivery>) {
    && outcome == Outcomes(v, node) && (outcome == Processed ==> !Deliverable(node))
    && (outcome == Raised ==> Interrupted(v, rest, node.slots[node.cseq].vval))
  }

  /** `now` and `rest` were sent after `sent0`, and `now` was noted after `outs0`. */
  ghost predicate Extended(outs0: seq<seq<Delivery>>, sent0: seq<Delivery>, now: seq<seq<Delivery>>,
                           rest: seq<Delivery>, outs: seq<seq<Delivery>>, sent: seq<Delivery>) {
    outs == outs0 + now && sent == sent0 + Flat(now) + rest
  }

  lemma ExtendedMore(outs0: seq<seq<Delivery>>, sent0: seq<Delivery>, now: seq<seq<Delivery>>,
                     outs: seq<seq<Delivery>>, sent: seq<Delivery>, out: seq<Delivery>)
    requires Extended(outs0, sent0, now, [], outs, sent)
    ensures Extended(outs0, sent0, now + [out], [], outs + [out], sent + out)
    ensures Extended(outs0, sent0, now, out, outs, sent + out)
  {
    FlatMore(now, out);
  }

  /** The slots a pass can still come to. */
  ghost function Ahead(node: NodeState): set<int> {
    set s | s in node.slots && s >= node.cseq
  }

  lemma AheadLess(node: NodeState, n: int)
    requires Deliverable(node)
    ensures Ahead(DeliverOne(node, n)) < Ahead(node)
  {
    assert node.cseq in Ahead(node);
  }

  /** The controller and its hosts; `views` and `outs` are history: what was seen and sent for each delivery. */
  class PaxosSwitch {
    const controller: PaxosController.Controller
    const deliverer: Deliverer
    ghost var views: seq<View>
    ghost var outs: seq<seq<Delivery>>

    ghost predicate Valid()
      reads this, controller, controller.slots, controller.slots.slots.Values
    {
      controller.Valid() && AllServed(views, outs, controller.delivered)
    }

    constructor (controller: PaxosController.Controller, deliverer: Deliverer)
      requires controller.Valid() && controller.delivered == []
      ensures Valid() && this.controller == controller && this.deliverer == deliverer && outs == []
    {
      this.controller, this.deliverer, views, outs := controller, deliverer, [], [];
    }

    /** The bookkeeping for a value that every known host got. */
    method Note(n: int, ghost node: NodeState, ghost v: View, ghost out: seq<Delivery>)
      requires Valid() && controller.State() == node && Deliverable(node) && Served(v, out, node.slots[node.cseq].vval)
      modifies this, controller`delivered, controller.slots`cseq, controller.slots`processed
      ensures Valid() && controller.State() == DeliverOne(node, n) && outs == old(outs) + [out]
    {
      ServedMore(views, outs, node.delivered, v, out, (node.cseq as int, node.slots[node.cseq].vval));
      controller.DeliverHead(n);
      views, outs := views + [v], outs + [out];
    }

    /** `process_message` for the head of the queue and, if it returns True, the bookkeeping after it. */
    method ServeHead(n: int, ghost node: NodeState, ghost v: View) returns (outcome: Outcome, ghost out: seq<Delivery>)
      requires Valid() && controller.State() == node && deliverer.Seen() == v && Deliverable(node)
      modifies this, controller`delivered, controller.slots`cseq, controller.slots`processed, deliverer`sent
      ensures Valid() && deliverer.Seen() == v && deliverer.sent == old(deliverer.sent) + out
      ensures outcome == Outcomes(v, node) && (outcome == Postponed ==> out == [])
      ensures outcome == Raised ==> Interrupted(v, out, node.slots[node.cseq].vval)
      ensures controller.State() == if outcome == Processed then DeliverOne(node, n) else node
      ensures outs == if outcome == Processed then old(outs) + [out] else old(outs)
    {
      outcome, out := deliverer.ProcessMessage(controller.slots.slots[controller.slots.cseq].vval);
      assert controller.State() == node;
      if outcome == Processed {
        Note(n, node, v, out);
      }
    }

    /** The next number the queue yields, if it yields one, and what becomes of it. */
    method Turn(n: int, ghost node: NodeState, ghost v: View)
      returns (outcome: Outcome, more: bool, ghost out: seq<Delivery>)
      requires Valid() && controller.State() == node && deliverer.Seen() == v
      modifies this, controller`delivered, controller.slots`cseq, controller.slots`processed, deliverer`sent
      ensures Valid() && deliverer.Seen() == v && deliverer.sent == old(deliverer.sent) + out
      ensures outcome == Outcomes(v, node) && (more <==> Deliverable(node) && outcome == Processed)
      ensures !more && outcome != Raised ==> out == []
      ensures outcome == Raised ==> Interrupted(v, out, node.slots[node.cseq].vval)
      ensures controller.State() == if more then DeliverOne(node, n) else node
      ensures outs == if more then old(outs) + [out] else old(outs)
    {
      outcome, more, out := Processed, false, [];
      if controller.slots.cseq in controller.slots.slots {
        var learned := controller.slots.slots[controller.slots.cseq].IsLearned();
        if learned {
          outcome, out := ServeHead(n, node, v);
          more := outcome == Processed;
        }
      }
    }

    /** `process_queue`: what stops it is a head that cannot be delivered yet, or what `process_message` did. */
    method ProcessQueue(n: int, ghost node: NodeState, ghost v: View)
      returns (outcome: Outcome, ghost ready: nat, ghost now: seq<seq<Delivery>>, ghost rest: seq<Delivery>)
      requires Valid() && controller.State() == node && deliverer.Seen() == v
      modifies this, controller`delivered, controller.slots`cseq, controller.slots`processed, deliverer`sent
      ensures Valid() && deliverer.Seen() == v && controller.State() == Pump(node, n, ready)
      ensures outs == old(outs) + now && deliverer.sent == old(deliverer.sent) + Flat(now) + rest
      ensures outcome == Outcomes(v, node) && (outcome != Raised ==> rest == [])
      ensures if outcome == Processed then !Deliverable(controller.State()) else ready == 0
      ensures outcome == Raised ==> Interrupted(v, rest, node.slots[node.cseq].vval)
      ensures outcome != Raised && old(deliverer.sent) == Flat(old(outs)) ==> deliverer.sent == Flat(outs)
    {
      outcome, ready, now, rest := Processed, 0, [], [];
      ghost var reached, outs0, sent0 := node, outs, deliverer.sent;
      var more := true;
      while more
        invariant Valid() && controller.State() == reached && deliverer.Seen() == v && reached == Pump(node, n, ready)
        invariant Extended(outs0, sent0, now, rest, outs, deliverer.sent)
        invariant outcome != Raised ==> rest == []
        invariant if more then outcome == Processed else Stopped(v, reached, outcome, rest)
        invariant ready > 0 ==> AddressesKnown(v) && !PaxosAmongHosts(v)
        decreases Ahead(reached), more
      {
        ghost var out, outs1, sent1 := [], outs, deliverer.sent;
        outcome, more, out := Turn(n, reached, v);
        ExtendedMore(outs0, sent0, now, outs1, sent1, out);
        if more {
          PumpOneMore(node, n, ready);
          AheadLess(reached, n);
          ready, now, reached := ready + 1, now + [out], DeliverOne(reached, n);
        } else {
          rest := out;
        }
      }
      FlatBoth(outs0, now);
    }
  }

  // ---- What a host port gets ----

  /** The values of the frames that left through port `p`, in order. */
  function FramesAt(sent: seq<Delivery>, p: Port): seq<Option<Bytes>> {
    if sent == [] then
      []
    else
      FramesAt(sent[..|sent| - 1], p) + if sent[|sent| - 1].port == p then [sent[|sent| - 1].value] else []
  }

  lemma {:induction false} FramesBoth(a: seq<Delivery>, b: seq<Delivery>, p: Port)
    ensures FramesAt(a + b, p) == FramesAt(a, p) + FramesAt(b, p)
    decreases |b|
  {
    if b == [] {
      assert a + b == a;
    } else {
      FramesBoth(a, b[..|b| - 1], p);
      assert (a + b)[..|a + b| - 1] == a + b[..|b| - 1];
    }
  }

  lemma {:induction false} FramesCounted(sent: seq<Delivery>, p: Port, value: Option<Bytes>)
    requires forall d | d in sent :: d.value == value
    ensures |FramesAt(sent, p)| == SentTo(sent, p) && forall x | x in FramesAt(sent, p) :: x == value
  {
    if sent != [] {
      FramesCounted(sent[..|sent| - 1], p, value);
    }
  }

  lemma OneFrame(v: View, ports: set<Port>, out: seq<Delivery>, value: Option<Bytes>, p: Port)
    requires OnePerHost(v, ports, out, value)
    ensures FramesAt(out, p) == if p in ports then [value] else []
  {
    FramesCounted(out, p, value);
    if p in ports {
      assert FramesAt(out, p)[0] in FramesAt(out, p);
    }
  }

  function Values(log: seq<(int, Option<Bytes>)>): seq<Option<Bytes>> {
    seq(|log|, k requires 0 <= k < |log| => log[k].1)
  }

  lemma FlatFirst(outs: seq<seq<Delivery>>, k: nat)
    requires 0 < k <= |outs|
    ensures Flat(outs[..k]) == Flat(outs[..k - 1]) + outs[k - 1]
  {
    FlatMore(outs[..k - 1], outs[k - 1]);
    assert outs[..k] == outs[..k - 1] + [outs[k - 1]];
  }

  /** Delivery `k` sent one frame with its value through port `p`, or none. */
  ghost predicate GotAt(outs: seq<seq<Delivery>>, values: seq<Option<Bytes>>, p: Port, ours: bool, k: nat)
    requires k < |outs| == |values|
  {
    FramesAt(outs[k], p) == if ours then [values[k]] else []
  }

  lemma FramesSum(a: seq<Delivery>, b: seq<Delivery>, p: Port, x: seq<Option<Bytes>>, y: seq<Option<Bytes>>)
    requires FramesAt(a, p) == x && FramesAt(b, p) == y
    ensures FramesAt(a + b, p) == x + y
  {
    FramesBoth(a, b, p);
  }

  lemma FramesOn(outs: seq<seq<Delivery>>, values: seq<Option<Bytes>>, p: Port, ours: bool, k: nat)
    requires k < |outs| == |values| && GotAt(outs, values, p, ours, k)
    requires FramesAt(Flat(outs[..k]), p) == if ours then values[..k] else []
    ensures FramesAt(Flat(outs[..k + 1]), p) == if ours then values[..k + 1] else []
  {
    FlatFirst(outs, k + 1);
    FramesSum(Flat(outs[..k]), outs[k], p, if ours then values[..k] else [], if ours then [values[k]] else []);
    assert values[..k + 1] == values[..k] + [values[k]];
  }

  lemma {:induction false} FramesOfFirst(outs: seq<seq<Delivery>>, values: seq<Option<Bytes>>, p: Port, ours: bool,
                                         k: nat)
    requires k <= |outs| == |values| && forall h | 0 <= h < |outs| :: GotAt(outs, values, p, ours, h)
    ensures FramesAt(Flat(outs[..k]), p) == if ours then values[..k] else []
  {
    if k > 0 {
      FramesOfFirst(outs, values, p, ours, k - 1);
      FramesOn(outs, values, p, ours, k - 1);
    }
  }

  ghost predicate IsHostIn(views: seq<View>, p: Port, ours: bool) {
    forall k | 0 <= k < |views| :: p in KnownHosts(views[k]) <==> ours
  }

  /** A port that was a known host's throughout got every value of the log once, in order; one that never was got
      nothing. */
  lemma PortFrames(views: seq<View>, outs: seq<seq<Delivery>>, log: seq<(int, Option<Bytes>)>, p: Port, ours: bool)
    requires AllServed(views, outs, log) && IsHostIn(views, p, ours)
    ensures FramesAt(Flat(outs), p) == if ours then Values(log) else []
  {
    forall k | 0 <= k < |outs| ensures GotAt(outs, Values(log), p, ours, k) {
      assert Served(views[k], outs[k], log[k].1);
      OneFrame(views[k], KnownHosts(views[k]), outs[k], log[k].1, p);
    }
    FramesOfFirst(outs, Values(log), p, ours, |outs|);
    assert outs[..|outs|] == outs && Values(log)[..|outs|] == Values(log);
  }

  /** The client port, if known, does not look like a host's, and the ports are as expected. */
  ghost predicate Proper(v: View) {
    WiredAsExpected(v) && (v.wanPort.Some? ==> HostAt(v, v.wanPort.value).None?)
  }

  /** `p` was a host port, or was not, at every delivery, and the client port was no host's. */
  ghost predicate ProperIn(views: seq<View>, p: Port, ours: bool) {
    forall k | 0 <= k < |views| :: Proper(views[k]) && (p in HostPorts(views[k]) <==> ours)
  }

  lemma ProperHosts(views: seq<View>, outs: seq<seq<Delivery>>, log: seq<(int, Option<Bytes>)>, p: Port, ours: bool)
    requires AllServed(views, outs, log) && ProperIn(views, p, ours)
    ensures IsHostIn(views, p, ours)
  {
    forall k | 0 <= k < |views| ensures p in KnownHosts(views[k]) <==> ours {
      assert Served(views[k], outs[k], log[k].1) && Proper(views[k]);
      KnownMeansAllHosts(views[k]);
    }
  }

  lemma LogValues(count: nat, run: seq<System>, events: seq<Event>, i: nat, j: Mac)
    requires 1 <= count <= 4 && IsRun(count, run, events) && i < |run| && j in Ids(count) && j in run[i].switches
    ensures Values(Log(run[i], j)) <= Values(Proposals(run[i].issued))
    ensures forall k | 0 <= k < |Log(run[i], j)| :: Values(Log(run[i], j))[k].Some?
  {
    var log, all := Log(run[i], j), Proposals(run[i].issued);
    LogIsPrefix(count, run, events, i, j);
    assert Values(log) == Values(all)[..|log|];
    forall k | 0 <= k < |log| ensures Values(log)[k].Some? {
      assert log[k] == all[k] && run[i].issued[k].Some?;
    }
  }

  /** From end to end: at every point of every run, at every switch, what left through a host port is exactly the
      values the switch has delivered, each once and in order, and so a prefix of what the leader numbered, without
      a hole; and nothing left through any other port. `outs` is what `ProcessQueue` sent for the log. */
  lemma HostsFollowLeader(count: nat, run: seq<System>, events: seq<Event>, i: nat, j: Mac, views: seq<View>,
                          outs: seq<seq<Delivery>>, p: Port, ours: bool)
    requires 1 <= count <= 4 && IsRun(count, run, events) && i < |run| && j in Ids(count) && j in run[i].switches
    requires AllServed(views, outs, Log(run[i], j)) && ProperIn(views, p, ours)
    ensures var frames := FramesAt(Flat(outs), p);
            if ours then
              && |frames| == |Log(run[i], j)| && frames <= Values(Proposals(run[i].issued))
              && forall k | 0 <= k < |frames| :: frames[k].Some?
            else
              frames == []
  {
    ProperHosts(views, outs, Log(run[i], j), p, ours);
    PortFrames(views, outs, Log(run[i], j), p, ours);
    LogValues(count, run, events, i, j);
  }

  /** Whatever the learning switch did before, a value that is delivered goes to addresses that belong together:
      each host's own, out of the port the host is behind. */
  lemma RightAddresses(homes: FlowCache.Homes, ips: map<Mac, Ip>, run: seq<LearningSwitch.Switch>,
                       events: seq<FlowCache.Event>, i: nat, v: View, out: seq<Delivery>, value: Option<Bytes>,
                       d: Delivery)
    requires FlowCache.IsRun(homes, run, events) && FlowCache.CacheInv(homes, run[0]) && run[0].ctrl.macip == map[]
    requires FlowCache.TrueSources(ips, events) && i < |run|
    requires v.macports == run[i].ctrl.macports && v.macip == run[i].ctrl.macip
    requires OnePerHost(v, KnownHosts(v), out, value) && d in out
    ensures d.mac in homes && homes[d.mac] == d.port && d.mac in ips && ips[d.mac] == d.ip && d.value == value
    ensures d.mac in FlowCache.IpSenders(run[0].ctrl.learnIps, events[..i])
  {
    FlowCache.AlwaysHome(homes, run, events, i);
    FlowCache.IpsLearned(homes, ips, run, events, i);
    HostAddresses(v, d.port, d.mac, d.ip);
  }

  // ---- The assertion cannot fail ----

  /** The learning switch has a Paxos switch's address, if at all, on a port of Paxos switches. */
  ghost predicate PaxosInPlace(v: View) {
    forall a | a in v.paxosPorts && a in v.macports :: v.macports[a] in v.paxosPorts.Values
  }

  lemma NeverRaised(v: View)
    requires PaxosInPlace(v)
    ensures !PaxosAmongHosts(v)
  {
    forall p | p in KnownHosts(v) ensures HostAt(v, p).value.0 !in v.paxosPorts {
      HasMember(MacsOn(v.macports, p));
      assert HostAt(v, p).value.0 in MacsOn(v.macports, p);
    }
  }

  /** It has what the JOINs taught it, and what it has learned since. */
  ghost predicate SeenFrom(st: Joining.JoinState, v: View) {
    && v.paxosPorts == st.ports
    && forall a | a in st.macports :: a in v.macports && v.macports[a] == st.macports[a]
  }

  lemma SeenInPlace(count: nat, j: Mac, st: Joining.JoinState, v: View)
    requires Joining.MemberFine(count, j, st) && SeenFrom(st, v)
    ensures PaxosInPlace(v)
  {
    forall a | a in v.paxosPorts && a in v.macports ensures v.macports[a] in v.paxosPorts.Values {
      assert a in st.ports && st.macports[a] == st.ports[a];
    }
  }

  /** In every run of the joining exchange, whatever ports JOINs came from: the learning switch keeps the port it
      learned first, so no Paxos switch is ever among the hosts and `process_message` never raises. */
  lemma JoinedNeverRaises(count: nat, run: seq<Joining.System>, events: seq<Joining.Event>, i: nat, j: Mac, v: View)
    requires count < BROADCAST && Joining.IsRun(count, run, events) && i < |run| && j in Ids(count)
    requires j in run[i].nodes && SeenFrom(run[i].nodes[j], v)
    ensures !PaxosAmongHosts(v)
    ensures forall node :: Outcomes(v, node) != Raised
  {
    Joining.RunInv(count, run, events, i);
    SeenInPlace(count, j, run[i].nodes[j], v);
    NeverRaised(v);
  }
}
