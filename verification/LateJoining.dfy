/**
 Why everybody has to join before the first packet. A switch that has not joined drops what it gets, and nothing
 repeats the leader's frames: with three or more switches one that joins late may deliver a slot without a value.
 */
module LateJoining {
  import opened Addresses
  import opened Wrappers
  import opened Quorums
  import opened Sets
  import opened PaxosMessage
  import opened SlotQueue
  import opened SteadyNode
  import opened SwitchSystem
  import opened SwitchLimits
  import opened TotalOrder

  /** The switches of module SwitchSystem, and which of them have joined. */
  datatype Network = Network(system: System, joined: set<Mac>)

  /** A switch joins; one that has not yet drops the next frame of the leader's; or what could happen before
      happens at a switch that has. Dropped frames between the others are frames that are never delivered. */
  datatype Step = Joins(j: Mac) | Drops(j: Mac) | Happens(e: Event)

  predicate Possible(count: nat, x: Network, e: Step) {
    match e
    case Joins(_) => true
    case Drops(j) =>
      j !in x.joined && j != LEADER && j in x.system.read && x.system.read[j] < |x.system.stream|
    case Happens(e) => At(e) in x.joined && Enabled(count, x.system, e)
  }

  function After(count: nat, x: Network, e: Step): Network
    requires Possible(count, x, e)
  {
    match e
    case Joins(j) => x.(joined := x.joined + {j})
    case Drops(j) => x.(system := x.system.(read := x.system.read[j := x.system.read[j] + 1]))
    case Happens(e) => x.(system := Next(count, x.system, e))
  }

  ghost predicate Steps(count: nat, x: Network, e: Step, x': Network) {
    Possible(count, x, e) && x' == After(count, x, e)
  }

  ghost predicate StepsAt(count: nat, run: seq<Network>, steps: seq<Step>, i: nat)
    requires |run| == |steps| + 1 && i < |steps|
  {
    Steps(count, run[i], steps[i], run[i + 1])
  }

  ghost predicate IsLateRun(count: nat, run: seq<Network>, steps: seq<Step>) {
    && |run| == |steps| + 1
    && run[0] == Network(Init(count), {})
    && forall i | 0 <= i < |steps| :: StepsAt(count, run, steps, i)
  }

  ghost predicate LateReachable(count: nat, x: Network) {
    exists run, steps :: IsLateRun(count, run, steps) && x == run[|steps|]
  }

  /** In every reachable state every switch has delivered a prefix of the leader's log, values only. */
  ghost predicate LateInOrder(count: nat) {
    forall x, j | LateReachable(count, x) && j in x.system.switches ::
      Log(x.system, j) <= Proposals(x.system.issued) && |Log(x.system, j)| <= FirstHole(x.system.issued)
  }

  // ---- Everybody joins first ----

  /** No client packet before everybody has joined. */
  ghost predicate JoinFirst(count: nat, run: seq<Network>, steps: seq<Step>)
    requires |run| == |steps| + 1
  {
    forall i | 0 <= i < |steps| && steps[i].Happens? && steps[i].e.Client? :: Ids(count) <= run[i].joined
  }

  /** Either everybody has joined or nothing was ever sent. */
  ghost predicate QuietBefore(count: nat, x: Network) {
    && x.system.read.Keys == Ids(count)
    && (Ids(count) <= x.joined || (x.system.stream == [] && x.system.network == {}))
  }

  /** The pump thread sends nothing. */
  lemma PumpSilent(count: nat, s: System, e: Event)
    requires Enabled(count, s, e) && (e.Background? || e.Evict?)
    ensures Next(count, s, e).stream == s.stream && Next(count, s, e).network == s.network
  {
    assert Unicasts(count, At(e), []) == {} && s.stream + [] == s.stream;
  }

  lemma ReadKeys(count: nat, s: System, e: Event)
    requires Enabled(count, s, e)
    ensures Next(count, s, e).read.Keys == s.read.Keys
  {
  }

  lemma QuietKept(count: nat, x: Network, e: Step, x': Network)
    requires QuietBefore(count, x) && Steps(count, x, e, x')
    requires e.Happens? && e.e.Client? ==> Ids(count) <= x.joined
    ensures QuietBefore(count, x')
    ensures x'.system == x.system || (e.Happens? && x'.system == Next(count, x.system, e.e))
  {
    if e.Happens? {
      ReadKeys(count, x.system, e.e);
      if e.e.Background? || e.e.Evict? {
        PumpSilent(count, x.system, e.e);
      }
    }
  }

  /** With everybody joined before the first packet, nothing is dropped and joining makes no difference. */
  lemma {:induction false} JoinedFirst(count: nat, run: seq<Network>, steps: seq<Step>, i: nat)
    requires IsLateRun(count, run, steps) && JoinFirst(count, run, steps) && i < |run|
    ensures QuietBefore(count, run[i]) && Reachable(count, run[i].system)
  {
    if i == 0 {
      ReachInit(count, 0);
      ReachableToo(count, 0, Init(count));
    } else {
      JoinedFirst(count, run, steps, i - 1);
      assert StepsAt(count, run, steps, i - 1);
      QuietKept(count, run[i - 1], steps[i - 1], run[i]);
      if run[i].system != run[i - 1].system {
        ReachStep(count, run[i - 1].system, steps[i - 1].e);
      }
    }
  }

  // ---- A late switch among three or more ----

  lemma SameStep(count: nat, run: seq<Network>, steps: seq<Step>, run': seq<Network>, steps': seq<Step>, i: nat)
    requires |run| == |steps| + 1 && |run'| == |steps'| + 1 && i < |steps| && i < |steps'|
    requires run[i] == run'[i] && run[i + 1] == run'[i + 1] && steps[i] == steps'[i]
    requires StepsAt(count, run, steps, i)
    ensures StepsAt(count, run', steps', i)
  {
  }

  lemma LateLonger(count: nat, run: seq<Network>, steps: seq<Step>, e: Step, x: Network)
    requires IsLateRun(count, run, steps) && Steps(count, run[|steps|], e, x)
    ensures IsLateRun(count, run + [x], steps + [e])
  {
    var (run', steps') := (run + [x], steps + [e]);
    forall i | 0 <= i < |steps'| ensures StepsAt(count, run', steps', i) {
      if i < |steps| {
        assert StepsAt(count, run, steps, i);
        SameStep(count, run, steps, run', steps', i);
      }
    }
  }

  lemma LateOn(count: nat, x: Network, e: Step, x': Network)
    requires LateReachable(count, x) && Steps(count, x, e, x')
    ensures LateReachable(count, x')
  {
    var run, steps :| IsLateRun(count, run, steps) && x == run[|steps|];
    LateLonger(count, run, steps, e, x');
    assert (run + [x'])[|steps + [e]|] == x';
  }

  lemma {:induction false} JoinAll(count: nat, who: set<Mac>)
    ensures LateReachable(count, Network(Init(count), who))
    decreases who
  {
    HasMember(who);
    if who == {} {
      var steps: seq<Step> := [];
      var run := [Network(Init(count), {})];
      assert IsLateRun(count, run, steps) && run[|steps|] == Network(Init(count), who);
    } else {
      var j :| j in who;
      JoinAll(count, who - {j});
      assert (who - {j}) + {j} == who;
      LateOn(count, Network(Init(count), who - {j}), Joins(j), Network(Init(count), who));
    }
  }

  lemma EventAt(count: nat, run: seq<System>, events: seq<Event>, i: nat)
    requires IsRun(count, run, events) && i < |events|
    ensures At(events[i]) in Ids(count)
  {
    KeysStay(count, run, events, i);
    assert SwitchSystem.StepsAt(count, run, events, i);
  }

  /** What is reachable without switch `j` is reachable while it has not joined. */
  lemma {:induction false} LiftRun(count: nat, j: Mac, run: seq<System>, events: seq<Event>, i: nat)
    requires IsRun(count, run, events) && Spares(events, j) && i < |run|
    ensures LateReachable(count, Network(run[i], Ids(count) - {j}))
  {
    var others := Ids(count) - {j};
    if i == 0 {
      JoinAll(count, others);
    } else {
      LiftRun(count, j, run, events, i - 1);
      assert SwitchSystem.StepsAt(count, run, events, i - 1);
      EventAt(count, run, events, i - 1);
      LateOn(count, Network(run[i - 1], others), Happens(events[i - 1]), Network(run[i], others));
    }
  }

  /** Switch 2 missed the ACCEPT, has joined, and `k` others told it that they accepted. */
  ghost predicate Missed(count: nat, x: Network, k: nat)
    requires IsU32(LeaderRound(count))
  {
    && LateReachable(count, x) && x.joined == Ids(count) && VICTIM in x.system.switches
    && LearnsSent(count, x.system, k)
  }

  /** It drops the ACCEPT and joins. */
  lemma Misses(count: nat, k: nat) returns (x: Network)
    requires IsU32(LeaderRound(count)) && count >= 2 && k + 2 <= count
    ensures Missed(count, x, k) && x.system.switches[VICTIM].node == InitNode(VICTIM)
    ensures x.system.read.Keys == Ids(count) && x.system.read[VICTIM] == 1
    ensures x.system.stream == [AcceptFrame(LeaderRound(count), 0, []), LearnFrame(LeaderRound(count), 0)]
  {
    var s := OthersAccept(count, k);
    var run, events :| IsRun(count, run, events) && s == run[|run| - 1] && Spares(events, VICTIM);
    LiftRun(count, VICTIM, run, events, |run| - 1);
    assert IsId(count, VICTIM);
    var others := Ids(count) - {VICTIM};
    var t := s.(read := s.read[VICTIM := 1]);
    LateOn(count, Network(s, others), Drops(VICTIM), Network(t, others));
    assert others + {VICTIM} == Ids(count);
    x := Network(t, Ids(count));
    LateOn(count, Network(t, others), Joins(VICTIM), x);
  }

  /** The leader's LEARN is all it gets from the leader. */
  lemma LeaderHeard(count: nat, k: nat) returns (x: Network)
    requires IsU32(LeaderRound(count)) && count >= 3 && k + 2 <= count
    ensures Missed(count, x, k) && Overtook(count, x.system.switches[VICTIM].node, {LEADER})
  {
    var y := Misses(count, k);
    var e := FromLeader(VICTIM, 1, 1);
    DecodeFrame(LeaderRound(count), 0, []);
    LearnOvertakes(count, {}, LEADER);
    assert {} + {LEADER} == {LEADER};
    x := Network(Next(count, y.system, e), Ids(count));
    assert IsId(count, VICTIM);
    LateOn(count, y, Happens(e), x);
    assert Unicasts(count, VICTIM, []) == {};
  }

  lemma OneMoreHears(count: nat, x: Network, learns: set<Mac>, k: nat, sent: nat) returns (y: Network)
    requires IsU32(LeaderRound(count)) && Missed(count, x, sent) && 1 <= k <= sent && count >= 2
    requires x.system.switches[VICTIM].node == Overtaken(count, learns)
    ensures Missed(count, y, sent)
    ensures y.system.switches[VICTIM].node
            == OnLearn(Overtaken(count, learns), count, k + 2, LeaderRound(count), 0, 1)
  {
    var e := FromPeer(Sent(k + 2, VICTIM, LearnFrame(LeaderRound(count), 0)), 1);
    VictimHears(count, x.system, learns, k, sent);
    assert IsId(count, VICTIM);
    y := Network(Next(count, x.system, e), Ids(count));
    LateOn(count, x, Happens(e), y);
  }

  /** The leader and `k` of the others. */
  ghost predicate LeaderAnd(learns: set<Mac>, k: nat) {
    |learns| == k + 1 && forall m | m in learns :: m <= k + 2
  }

  lemma HearsOneMore(count: nat, y: Network, learns: set<Mac>, k: nat) returns (x: Network)
    requires IsU32(LeaderRound(count)) && count >= 3 && 1 <= k < Majority(count) && LeaderAnd(learns, k - 1)
    requires Missed(count, y, Majority(count) - 1) && Overtook(count, y.system.switches[VICTIM].node, learns)
    ensures Missed(count, x, Majority(count) - 1)
    ensures LeaderAnd(learns + {k + 2}, k) && Overtook(count, x.system.switches[VICTIM].node, learns + {k + 2})
  {
    x := OneMoreHears(count, y, learns, k, Majority(count) - 1);
    LearnOvertakes(count, learns, k + 2);
  }

  /** With the leader's and `k` others' LEARNs it has a majority before it has the value. */
  lemma {:induction false} LateVictim(count: nat, k: nat) returns (x: Network, learns: set<Mac>)
    requires IsU32(LeaderRound(count)) && count >= 3 && k < Majority(count)
    ensures Missed(count, x, Majority(count) - 1) && LeaderAnd(learns, k)
    ensures Overtook(count, x.system.switches[VICTIM].node, learns)
  {
    if k == 0 {
      x := LeaderHeard(count, Majority(count) - 1);
      learns := {LEADER};
    } else {
      x, learns := LateVictim(count, k - 1);
      x := HearsOneMore(count, x, learns, k);
      learns := learns + {k + 2};
    }
  }

  // ---- A late switch among at most two ----

  /** The slot holds what the leader numbered, if anything, and does so once the switch itself accepted. */
  ghost predicate SlotTrue(count: nat, me: Mac, issued: Issued, s: int, slot: SlotState) {
    && slot.nodeCount == count && slot.learns <= Ids(count)
    && (slot.vrnd.Some? ==> IssuedAs(issued, s, slot.vval))
    && (me in slot.learns ==> slot.vrnd.Some?)
  }

  ghost predicate NodeTrue(count: nat, me: Mac, issued: Issued, node: NodeState) {
    && QueueInv(node)
    && (forall s | s in node.slots :: SlotTrue(count, me, issued, s, node.slots[s]))
    && (forall s: int | 0 <= s < node.cseq :: IssuedAs(issued, s, node.delivered[s].1))
  }

  /** ACCEPTs repeat what the leader numbered; LEARNs come from the other switch. */
  ghost predicate Honest(count: nat, me: Mac, issued: Issued, e: NodeEvent) {
    e.Recv? ==>
      match Decode(e.frame)
      case Accepting(_, s, v) => IssuedAs(issued, s, Some(v))
      case Learning(_, _) => e.src in Ids(count) && e.src != me
      case Ignored => true
  }

  /** A majority of two is both. */
  lemma HeadTrue(count: nat, me: Mac, issued: Issued, node: NodeState)
    requires count <= 2 && me in Ids(count) && NodeTrue(count, me, issued, node) && Deliverable(node)
    ensures IssuedAs(issued, node.cseq, node.slots[node.cseq].vval)
  {
    var slot := node.slots[node.cseq];
    assert SlotTrue(count, me, issued, node.cseq, slot);
    IdsSize(count);
    assert Ids(count) == slot.learns + (Ids(count) - slot.learns);
  }

  lemma {:induction false} PumpTrue(count: nat, me: Mac, issued: Issued, node: NodeState, n: int, ready: nat)
    requires count <= 2 && me in Ids(count) && NodeTrue(count, me, issued, node)
    ensures NodeTrue(count, me, issued, Pump(node, n, ready))
    decreases ready
  {
    if Deliverable(node) && ready > 0 {
      HeadTrue(count, me, issued, node);
      PumpKeepsQueue(node, n, 1);
      assert Pump(node, n, 1) == DeliverOne(node, n);
      PumpTrue(count, me, issued, DeliverOne(node, n), n, ready - 1);
    }
  }

  lemma PutTrue(count: nat, me: Mac, issued: Issued, node: NodeState, s: int, slot: SlotState)
    requires NodeTrue(count, me, issued, node) && SlotTrue(count, me, issued, s, slot)
    ensures NodeTrue(count, me, issued, PutSlot(node, s, slot))
  {
    SameQueue(node, PutSlot(node, s, slot));
  }

  lemma LearnTrue(count: nat, me: Mac, issued: Issued, node: NodeState, src: Mac, n: int, s: int, ready: nat)
    requires count <= 2 && me in Ids(count) && NodeTrue(count, me, issued, node) && src in Ids(count)
    requires src == me ==> s in node.slots && node.slots[s].vrnd.Some?
    ensures NodeTrue(count, me, issued, OnLearn(node, count, src, n, s, ready))
  {
    var slot := SlotAt(node, count, s);
    assert s in node.slots ==> SlotTrue(count, me, issued, s, slot);
    if Learned(slot) || n < slot.hrnd || (n == slot.hrnd && src in slot.learns) {
      PutTrue(count, me, issued, node, s, slot);
    } else {
      PutTrue(count, me, issued, node, s, CountLearn(slot, src, n));
      PumpTrue(count, me, issued, PutSlot(node, s, CountLearn(slot, src, n)), n, ready);
    }
  }

  lemma AcceptTrue(count: nat, me: Mac, issued: Issued, node: NodeState, n: int, s: int, v: Bytes, ready: nat)
    requires count <= 2 && me in Ids(count) && NodeTrue(count, me, issued, node) && IssuedAs(issued, s, Some(v))
    requires IsU32(n) && IsU32(s)
    ensures NodeTrue(count, me, issued, OnAccept(node, count, me, n, s, v, ready).node)
  {
    var slot := SlotAt(node, count, s);
    assert s in node.slots ==> SlotTrue(count, me, issued, s, slot);
    PutTrue(count, me, issued, node, s, slot);
    if Accepts(node, count, n, s) {
      PutTrue(count, me, issued, node, s, slot.(vrnd := Some(n), vval := Some(v)));
      SameQueue(node, Store(node, count, n, s, v));
      LearnTrue(count, me, issued, Store(node, count, n, s, v), me, n, s, ready);
    }
  }

  lemma NodeStaysTrue(count: nat, me: Mac, issued: Issued, node: NodeState, e: NodeEvent)
    requires count <= 2 && me in Ids(count) && NodeTrue(count, me, issued, node) && Honest(count, me, issued, e)
    ensures NodeTrue(count, me, issued, NodeNext(node, count, me, e).node)
  {
    match e
    case Tick(ready) => PumpTrue(count, me, issued, node, node.crnd, ready);
    case Sweep =>
      QueueExact(node, count, me, e);
      NothingUndeliveredLost(node, node.crnd);
    case Recv(src, frame, ready) =>
      match Decode(frame)
      case Accepting(n, s, v) => AcceptTrue(count, me, issued, node, n, s, v, ready);
      case Learning(n, s) => LearnTrue(count, me, issued, node, src, n, s, ready);
      case Ignored =>
  }

  /** A switch sends LEARNs only. */
  lemma SendsLearns(node: NodeState, count: nat, me: Mac, e: NodeEvent)
    ensures forall f | f in NodeNext(node, count, me, e).casts :: Decode(f).Learning?
  {
    if e.Recv? && Decode(e.frame).Accepting? {
      DecodeFrame(Decode(e.frame).n, Decode(e.frame).seqno, []);
    }
  }

  ghost predicate NodesTrue(count: nat, sws: map<Mac, Switch>, issued: Issued) {
    forall j | j in sws :: NodeTrue(count, j, issued, sws[j].node)
  }

  ghost predicate FrameTrue(issued: Issued, frame: Frame) {
    Decode(frame).Accepting? ==> IssuedAs(issued, Decode(frame).seqno, Some(Decode(frame).v))
  }

  ghost predicate StreamTrue(issued: Issued, stream: seq<Frame>) {
    forall i | 0 <= i < |stream| :: FrameTrue(issued, stream[i])
  }

  ghost predicate PeerTrue(count: nat, m: Sent) {
    m.from in Ids(count) && m.from != m.to && Decode(m.frame).Learning?
  }

  ghost predicate NetworkTrue(count: nat, network: set<Sent>) {
    forall m | m in network :: PeerTrue(count, m)
  }

  ghost predicate SystemTrue(count: nat, s: System) {
    && s.switches.Keys == Ids(count) && LEADER in s.switches
    && NodesTrue(count, s.switches, s.issued) && StreamTrue(s.issued, s.stream) && NetworkTrue(count, s.network)
  }

  lemma ActTrue(count: nat, s: System, at: Mac, e: NodeEvent)
    requires count <= 2 && SystemTrue(count, s) && at in s.switches && Honest(count, at, s.issued, e)
    ensures SystemTrue(count, Act(count, s, at, e))
  {
    var s' := Act(count, s, at, e);
    var casts := NodeNext(s.switches[at].node, count, at, e).casts;
    SendsLearns(s.switches[at].node, count, at, e);
    NodeStaysTrue(count, at, s.issued, s.switches[at].node, e);
    if at == LEADER {
      forall i | 0 <= i < |s'.stream| ensures FrameTrue(s.issued, s'.stream[i]) {
        assert i < |s.stream| ==> FrameTrue(s.issued, s.stream[i]);
        assert i >= |s.stream| ==> s'.stream[i] in casts;
      }
    } else {
      forall m | m in s'.network ensures PeerTrue(count, m) {
        assert m in s.network ==> PeerTrue(count, m);
      }
    }
  }

  lemma IssuedTrue(count: nat, s: System, entry: Option<Bytes>)
    requires SystemTrue(count, s)
    ensures SystemTrue(count, s.(issued := s.issued + [entry]))
  {
    forall i | 0 <= i < |s.stream| ensures FrameTrue(s.issued + [entry], s.stream[i]) {
      assert FrameTrue(s.issued, s.stream[i]);
    }
    forall j | j in s.switches ensures NodeTrue(count, j, s.issued + [entry], s.switches[j].node) {
      NodeIssued(count, j, s.issued, s.switches[j].node, entry);
    }
  }

  lemma NodeIssued(count: nat, me: Mac, issued: Issued, node: NodeState, entry: Option<Bytes>)
    requires NodeTrue(count, me, issued, node)
    ensures NodeTrue(count, me, issued + [entry], node)
  {
    forall s | s in node.slots ensures SlotTrue(count, me, issued + [entry], s, node.slots[s]) {
      assert SlotTrue(count, me, issued, s, node.slots[s]);
    }
  }

  lemma ClientTrue(count: nat, s: System, payload: Bytes, ready: nat)
    requires count <= 2 && SystemTrue(count, s)
    ensures SystemTrue(count, Next(count, s, Client(payload, ready)))
  {
    var entry := NextEntry(s, payload);
    IssuedTrue(count, s, entry);
    if entry.Some? {
      var k, n := |s.issued|, s.switches[LEADER].node.crnd;
      var accept := AcceptFrame(n, k, entry.value);
      var t := s.(issued := s.issued + [entry], stream := s.stream + [accept]);
      DecodeFrame(n, k, entry.value);
      forall i | 0 <= i < |t.stream| ensures FrameTrue(t.issued, t.stream[i]) {
        assert i < |s.stream| ==> FrameTrue(t.issued, s.stream[i]);
      }
      ActTrue(count, t, LEADER, Recv(LEADER, accept, ready));
    }
  }

  lemma EventTrue(count: nat, s: System, e: Event)
    requires count <= 2 && SystemTrue(count, s) && Enabled(count, s, e)
    ensures SystemTrue(count, Next(count, s, e))
  {
    match e
    case Client(payload, ready) => ClientTrue(count, s, payload, ready);
    case FromLeader(to, i, ready) =>
      assert FrameTrue(s.issued, s.stream[i]);
      ActTrue(count, s.(read := s.read[to := if i == s.read[to] then i + 1 else s.read[to]]), to,
              Recv(LEADER, s.stream[i], ready));
    case FromPeer(m, ready) =>
      assert PeerTrue(count, m);
      ActTrue(count, s.(got := s.got + {m}), m.to, Recv(m.from, m.frame, ready));
    case Background(at, ready) => ActTrue(count, s, at, Tick(ready));
    case Evict(at) => ActTrue(count, s, at, Sweep);
  }

  lemma StepTrue(count: nat, x: Network, e: Step, x': Network)
    requires count <= 2 && SystemTrue(count, x.system) && Steps(count, x, e, x')
    ensures SystemTrue(count, x'.system)
  {
    if e.Happens? {
      EventTrue(count, x.system, e.e);
    }
  }

  lemma TrueOn(count: nat, run: seq<Network>, steps: seq<Step>, i: nat)
    requires count <= 2 && IsLateRun(count, run, steps) && i < |steps| && SystemTrue(count, run[i].system)
    ensures SystemTrue(count, run[i + 1].system)
  {
    assert StepsAt(count, run, steps, i);
    StepTrue(count, run[i], steps[i], run[i + 1]);
  }

  lemma {:induction false} LateRunTrue(count: nat, run: seq<Network>, steps: seq<Step>, i: nat)
    requires 1 <= count <= 2 && IsLateRun(count, run, steps) && i < |run|
    ensures SystemTrue(count, run[i].system)
  {
    if i > 0 {
      LateRunTrue(count, run, steps, i - 1);
      TrueOn(count, run, steps, i - 1);
    }
  }

  // ---- The limit ----

  /** When switches may join late, delivery follows the leader's log in every run exactly if there are at most two
      of them. */
  lemma LateInOrderIff(count: nat)
    requires 1 <= count && IsU32(LeaderRound(count))
    ensures LateInOrder(count) <==> count <= 2
  {
    if count <= 2 {
      forall x, j | LateReachable(count, x) && j in x.system.switches
        ensures Log(x.system, j) <= Proposals(x.system.issued)
        ensures |Log(x.system, j)| <= FirstHole(x.system.issued)
      {
        var run, steps :| IsLateRun(count, run, steps) && x == run[|steps|];
        LateRunTrue(count, run, steps, |steps|);
        DeliveredAsIssued(x.system.issued, x.system.switches[j].node);
      }
    } else {
      var x, learns := LateVictim(count, Majority(count) - 1);
      assert Log(x.system, VICTIM)[0] == (0, None);
      assert !(Log(x.system, VICTIM) <= Proposals(x.system.issued)
               && |Log(x.system, VICTIM)| <= FirstHole(x.system.issued));
    }
  }

  /** With everybody joined before the first packet it is four, as in module SwitchLimits. */
  lemma JoinedFirstInOrder(count: nat, run: seq<Network>, steps: seq<Step>, i: nat, j: Mac)
    requires 1 <= count <= 4 && IsLateRun(count, run, steps) && JoinFirst(count, run, steps) && i < |run|
    requires j in run[i].system.switches
    ensures Log(run[i].system, j) <= Proposals(run[i].system.issued)
    ensures |Log(run[i].system, j)| <= FirstHole(run[i].system.issued)
  {
    JoinedFirst(count, run, steps, i);
    InOrderIff(count);
  }
}
