/**
 Why the switches' delivery order rests on their number: with five or more, a majority of LEARNs can
 miss both the leader and the switch itself, and a slot is delivered before its ACCEPT arrives.
 */
module SwitchLimits {
  import opened Addresses
  import opened Wrappers
  import opened Quorums
  import opened PaxosMessage
  import opened SlotQueue
  import opened SteadyNode
  import opened SwitchSystem
  import opened TotalOrder

  ghost predicate Reachable(count: nat, s: System) {
    exists run, events :: IsRun(count, run, events) && s == run[|run| - 1]
  }

  /** The switch an event happens at. */
  function At(e: Event): Mac {
    match e
    case Client(_, _) => LEADER
    case FromLeader(to, _, _) => to
    case FromPeer(m, _) => m.to
    case Background(at, _) => at
    case Evict(at) => at
  }

  predicate Spares(events: seq<Event>, j: Mac) {
    forall i | 0 <= i < |events| :: At(events[i]) != j
  }

  /** The same by runs in which nothing happens at switch `j`. */
  ghost predicate ReachableWithout(count: nat, j: Mac, s: System) {
    exists run, events :: IsRun(count, run, events) && s == run[|run| - 1] && Spares(events, j)
  }

  /** In every reachable state every switch has delivered a prefix of the leader's log, values only. */
  ghost predicate DeliversInOrder(count: nat) {
    forall s, j | Reachable(count, s) && j in s.switches ::
      Log(s, j) <= Proposals(s.issued) && |Log(s, j)| <= FirstHole(s.issued)
  }

  lemma ReachInit(count: nat, j: Mac)
    ensures ReachableWithout(count, j, Init(count))
  {
    assert IsRun(count, [Init(count)], []) && Spares([], j);
  }

  lemma RunLonger(count: nat, run: seq<System>, events: seq<Event>, e: Event, s: System)
    requires IsRun(count, run, events) && Steps(count, run[|run| - 1], e, s)
    ensures IsRun(count, run + [s], events + [e])
  {
    var (run', events') := (run + [s], events + [e]);
    forall i | 0 <= i < |events'| ensures StepsAt(count, run', events', i) {
      if i < |events| {
        assert StepsAt(count, run, events, i);
        assert run'[i] == run[i] && run'[i + 1] == run[i + 1] && events'[i] == events[i];
      }
    }
  }

  lemma ReachStep(count: nat, s: System, e: Event)
    requires Reachable(count, s) && Enabled(count, s, e)
    ensures Reachable(count, Next(count, s, e))
  {
    var run, events :| IsRun(count, run, events) && s == run[|run| - 1];
    RunLonger(count, run, events, e, Next(count, s, e));
  }

  lemma ReachElsewhere(count: nat, j: Mac, s: System, e: Event)
    requires ReachableWithout(count, j, s) && Enabled(count, s, e) && At(e) != j
    ensures ReachableWithout(count, j, Next(count, s, e))
  {
    var run, events :| IsRun(count, run, events) && s == run[|run| - 1] && Spares(events, j);
    RunLonger(count, run, events, e, Next(count, s, e));
    assert Spares(events + [e], j);
  }

  // ---- The run: switch 2 misses the leader while 3, 4, ... do not ----

  const VICTIM: Mac := 2

  /** The leader numbered one empty packet; switch 2 has heard nothing and `k` others told it they accepted. */
  ghost predicate Answered(count: nat, s: System, k: nat)
    requires IsU32(LeaderRound(count))
  {
    && s.switches.Keys == Ids(count) && s.read.Keys == Ids(count)
    && s.issued == [Some([])]
    && s.stream == [AcceptFrame(LeaderRound(count), 0, []), LearnFrame(LeaderRound(count), 0)]
    && (forall j | j in s.switches && j != LEADER && !(3 <= j <= k + 2) ::
          s.switches[j].node == InitNode(j) && s.read[j] == 0)
    && (forall j | 3 <= j <= k + 2 :: Sent(j, VICTIM, LearnFrame(LeaderRound(count), 0)) in s.network)
  }

  /** The first ACCEPT at a fresh switch is answered. */
  lemma FreshAccepts(count: nat, j: Mac)
    requires IsU32(LeaderRound(count)) && 1 <= j <= LeaderRound(count)
    ensures var e := Recv(LEADER, AcceptFrame(LeaderRound(count), 0, []), 0);
            NodeNext(InitNode(j), count, j, e).casts == [LearnFrame(LeaderRound(count), 0)]
  {
    DecodeFrame(LeaderRound(count), 0, []);
  }

  lemma FreshLeader(count: nat)
    requires IsU32(LeaderRound(count))
    ensures var e := Recv(LEADER, AcceptFrame(LeaderRound(count), 0, []), 0);
            NodeNext(InitNode(LeaderRound(count)), count, LEADER, e).casts == [LearnFrame(LeaderRound(count), 0)]
  {
    DecodeFrame(LeaderRound(count), 0, []);
  }

  lemma UnicastSent(count: nat, from: Mac, frame: Frame, to: Mac)
    requires to in Ids(count) && to != from
    ensures Sent(from, to, frame) in Unicasts(count, from, [frame])
  {
    assert frame in [frame];
  }

  /** The first packet, an empty one, is numbered, sent out and accepted by the leader. */
  lemma FirstPacket(count: nat, payload: Bytes)
    requires count >= 2 && IsU32(LeaderRound(count)) && payload == PackClient([])
    ensures Enabled(count, Init(count), Client(payload, 0))
    ensures Answered(count, Next(count, Init(count), Client(payload, 0)), 0)
  {
    ClientRoundTrip([], payload);
    FreshLeader(count);
  }

  lemma PacketNumbered(count: nat) returns (s: System)
    requires count >= 2 && IsU32(LeaderRound(count))
    ensures ReachableWithout(count, VICTIM, s) && Answered(count, s, 0)
  {
    var s0 := Init(count);
    var payload := PackClient([]);
    ReachInit(count, VICTIM);
    assert Enabled(count, s0, Client(payload, 0));
    ReachElsewhere(count, VICTIM, s0, Client(payload, 0));
    s := Next(count, s0, Client(payload, 0));
    FirstPacket(count, payload);
  }

  /** Switch `j` alone moved, and told everyone it accepted. */
  ghost predicate ToldOthers(count: nat, t: System, j: Mac, s: System)
    requires IsU32(LeaderRound(count))
  {
    && s.switches.Keys == t.switches.Keys && s.read.Keys == t.read.Keys
    && s.issued == t.issued && s.stream == t.stream
    && (forall i | i in t.switches && i != j :: i in s.switches && s.switches[i] == t.switches[i])
    && (forall i | i in t.read && i != j :: i in s.read && s.read[i] == t.read[i])
    && s.network == t.network + Unicasts(count, j, [LearnFrame(LeaderRound(count), 0)])
  }

  /** A fresh switch reads the ACCEPT. */
  lemma FreshReads(count: nat, t: System, j: Mac)
    requires IsU32(LeaderRound(count)) && j in Ids(count) && j != LEADER && j in t.switches &&
             t.switches[j].node == InitNode(j)
    requires j in t.read && t.read[j] == 0 && |t.stream| > 0 && t.stream[0] == AcceptFrame(LeaderRound(count), 0, [])
    ensures Enabled(count, t, FromLeader(j, 0, 0))
    ensures ToldOthers(count, t, j, Next(count, t, FromLeader(j, 0, 0)))
  {
    FreshAccepts(count, j);
  }

  lemma AnsweredMore(count: nat, t: System, s: System, k: nat)
    requires IsU32(LeaderRound(count)) && k >= 1 && k + 2 <= count
    requires Answered(count, t, k - 1) && ToldOthers(count, t, k + 2, s)
    ensures Answered(count, s, k)
  {
    assert IsId(count, k + 2) && IsId(count, VICTIM);
    UnicastSent(count, k + 2, LearnFrame(LeaderRound(count), 0), VICTIM);
  }

  lemma OneMoreAccepts(count: nat, t: System, k: nat) returns (s: System)
    requires IsU32(LeaderRound(count)) && k >= 1 && k + 2 <= count
    requires ReachableWithout(count, VICTIM, t) && Answered(count, t, k - 1)
    ensures ReachableWithout(count, VICTIM, s) && Answered(count, s, k)
  {
    assert IsId(count, k + 2);
    FreshReads(count, t, k + 2);
    ReachElsewhere(count, VICTIM, t, FromLeader(k + 2, 0, 0));
    s := Next(count, t, FromLeader(k + 2, 0, 0));
    AnsweredMore(count, t, s, k);
  }

  lemma {:induction false} OthersAccept(count: nat, k: nat) returns (s: System)
    requires IsU32(LeaderRound(count)) && count >= 2 && k + 2 <= count
    ensures ReachableWithout(count, VICTIM, s) && Answered(count, s, k)
  {
    if k == 0 {
      s := PacketNumbered(count);
    } else {
      var t := OthersAccept(count, k - 1);
      s := OneMoreAccepts(count, t, k);
    }
  }

  /** Switch 2 after these switches' LEARNs for number 0, and no ACCEPT. */
  function Overtaken(count: nat, learns: set<Mac>): NodeState {
    if learns == {} then
      InitNode(VICTIM)
    else
      PutSlot(InitNode(VICTIM), 0, SlotState(None, None, learns, LeaderRound(count), count))
  }

  lemma LearnCounted(count: nat, learns: set<Mac>, src: Mac)
    requires src !in learns && |learns| < Majority(count)
    ensures var before := Overtaken(count, learns);
            var slot := SlotAt(before, count, 0);
            && !Learned(slot) && LeaderRound(count) >= slot.hrnd && src !in slot.learns
            && PutSlot(before, 0, CountLearn(slot, src, LeaderRound(count))) == Overtaken(count, learns + {src})
  {
  }

  /** What these LEARNs come to at switch 2: a majority of them delivers a slot that has no value. */
  ghost predicate Overtook(count: nat, node: NodeState, learns: set<Mac>) {
    && (|learns| < Majority(count) ==> node == Overtaken(count, learns))
    && (|learns| == Majority(count) ==> node.delivered == [(0, None)])
  }

  lemma LearnOvertakes(count: nat, learns: set<Mac>, src: Mac)
    requires src !in learns && |learns| < Majority(count)
    ensures Overtook(count, OnLearn(Overtaken(count, learns), count, src, LeaderRound(count), 0, 1), learns + {src})
  {
    LearnCounted(count, learns, src);
    PumpDelivers(Overtaken(count, learns + {src}), LeaderRound(count), 1);
  }

  /** The LEARNs of the first `k` of the others to switch 2 are on their way. */
  ghost predicate LearnsSent(count: nat, s: System, k: nat)
    requires IsU32(LeaderRound(count))
  {
    forall j | 3 <= j <= k + 2 :: Sent(j, VICTIM, LearnFrame(LeaderRound(count), 0)) in s.network
  }

  /** A LEARN is answered with nothing. */
  lemma LearnArrives(count: nat, t: System, m: Sent)
    requires Enabled(count, t, FromPeer(m, 1)) && Decode(m.frame).Learning?
    ensures var (u, c) := (Next(count, t, FromPeer(m, 1)), Decode(m.frame));
            && u.network == t.network && u.switches.Keys == t.switches.Keys
            && u.switches[m.to].node == OnLearn(t.switches[m.to].node, count, m.from, c.n, c.seqno, 1)
  {
    assert Unicasts(count, m.to, []) == {};
  }

  lemma VictimHears(count: nat, t: System, learns: set<Mac>, k: nat, sent: nat)
    requires IsU32(LeaderRound(count)) && LearnsSent(count, t, sent) && VICTIM in t.switches
    requires 1 <= k <= sent && t.switches[VICTIM].node == Overtaken(count, learns)
    ensures var e := FromPeer(Sent(k + 2, VICTIM, LearnFrame(LeaderRound(count), 0)), 1);
            && Enabled(count, t, e)
            && Next(count, t, e).switches.Keys == t.switches.Keys
            && Next(count, t, e).switches[VICTIM].node
                 == OnLearn(Overtaken(count, learns), count, k + 2, LeaderRound(count), 0, 1)
            && LearnsSent(count, Next(count, t, e), sent)
  {
    DecodeFrame(LeaderRound(count), 0, []);
    LearnArrives(count, t, Sent(k + 2, VICTIM, LearnFrame(LeaderRound(count), 0)));
  }

  lemma ReachableToo(count: nat, j: Mac, s: System)
    requires ReachableWithout(count, j, s)
    ensures Reachable(count, s)
  {
  }

  /** Switch 2 has what these LEARNs come to, and can hear all it needs. */
  ghost predicate Hears(count: nat, s: System, learns: set<Mac>)
    requires IsU32(LeaderRound(count))
  {
    && Reachable(count, s) && LearnsSent(count, s, Majority(count)) && VICTIM in s.switches
    && Overtook(count, s.switches[VICTIM].node, learns)
  }

  lemma OneMoreHeard(count: nat, t: System, learns: set<Mac>, k: nat) returns (s: System)
    requires IsU32(LeaderRound(count)) && 1 <= k <= Majority(count) && Hears(count, t, learns)
    requires k + 2 !in learns && |learns| < Majority(count)
    ensures Hears(count, s, learns + {k + 2})
  {
    var e := FromPeer(Sent(k + 2, VICTIM, LearnFrame(LeaderRound(count), 0)), 1);
    VictimHears(count, t, learns, k, Majority(count));
    ReachStep(count, t, e);
    LearnOvertakes(count, learns, k + 2);
    s := Next(count, t, e);
  }

  lemma {:induction false} OthersHeard(count: nat, k: nat) returns (s: System, learns: set<Mac>)
    requires IsU32(LeaderRound(count)) && count >= 2 && k <= Majority(count) <= count - 2
    ensures Hears(count, s, learns) && |learns| == k && forall m | m in learns :: m <= k + 2
  {
    if k == 0 {
      s := OthersAccept(count, Majority(count));
      learns := {};
      ReachableToo(count, VICTIM, s);
      assert IsId(count, VICTIM);
    } else {
      s, learns := OthersHeard(count, k - 1);
      s := OneMoreHeard(count, s, learns, k);
      learns := learns + {k + 2};
    }
  }

  /** Delivery follows the leader's log in every run exactly when there are at most four switches. */
  lemma InOrderIff(count: nat)
    requires 1 <= count && IsU32(LeaderRound(count))
    ensures DeliversInOrder(count) <==> count <= 4
  {
    if count <= 4 {
      forall s, j | Reachable(count, s) && j in s.switches
        ensures Log(s, j) <= Proposals(s.issued) && |Log(s, j)| <= FirstHole(s.issued)
      {
        var run, events :| IsRun(count, run, events) && s == run[|run| - 1];
        KeysStay(count, run, events, |run| - 1);
        LogIsPrefix(count, run, events, |run| - 1, j);
      }
    } else {
      var s, learns := OthersHeard(count, Majority(count));
      assert Log(s, VICTIM)[0] == (0, None);
      assert !(Log(s, VICTIM) <= Proposals(s.issued) && |Log(s, VICTIM)| <= FirstHole(s.issued));
    }
  }

  lemma {:induction false} KeysStay(count: nat, run: seq<System>, events: seq<Event>, i: nat)
    requires IsRun(count, run, events) && i < |run|
    ensures run[i].switches.Keys == Ids(count)
  {
    if i > 0 {
      KeysStay(count, run, events, i - 1);
      assert StepsAt(count, run, events, i - 1);
    }
  }
}
