/**
 All the Paxos switches together, once they have joined. Whatever the leader sends goes to every other
 switch in one stream, which each reads in order: nothing in it is lost or overtaken, but a part already
 read may be read again. Frames between other switches may be lost, repeated and reordered.
 */
module SwitchSystem {
  import opened Addresses
  import opened Wrappers
  import opened Quorums
  import opened PaxosMessage
  import opened SlotQueue
  import opened SteadyNode
  import opened Collection
  import opened NodeHistory

  /** A switch and, as history, everything that happened at it. */
  datatype Switch = Switch(node: NodeState, local: seq<NodeEvent>)

  datatype Sent = Sent(from: Mac, to: Mac, frame: Frame)

  /** `issued` is history too: the leader's `seqno` is the number of its entries less one.
      `got` are the frames of `network` that were delivered at least once. */
  datatype System = System(
    switches: map<Mac, Switch>,
    issued: Issued,
    stream: seq<Frame>,
    read: map<Mac, nat>,
    network: set<Sent>,
    got: set<Sent>)

  /** Clients hand CLIENT payloads to the leader; `Background` and `Evict` are the pump thread. */
  datatype Event =
    | Client(payload: Bytes, ready: nat)
    | FromLeader(to: Mac, i: nat, ready: nat)
    | FromPeer(m: Sent, ready: nat)
    | Background(at: Mac, ready: nat)
    | Evict(at: Mac)

  function InitialRound(count: nat, me: Mac): int {
    if me == LEADER then LeaderRound(count) else me
  }

  function Init(count: nat): System {
    System(map j | j in Ids(count) :: Switch(InitNode(InitialRound(count, j)), []),
           [], [], map j | j in Ids(count) :: 0, {}, {})
  }

  function Unicasts(count: nat, from: Mac, casts: seq<Frame>): set<Sent> {
    set k, f | k in Ids(count) && k != from && f in casts :: Sent(from, k, f)
  }

  /** `e` happens at switch `at`. */
  function Act(count: nat, s: System, at: Mac, e: NodeEvent): System
    requires at in s.switches
  {
    var eff := NodeNext(s.switches[at].node, count, at, e);
    var s' := s.(switches := s.switches[at := Switch(eff.node, s.switches[at].local + [e])]);
    if at == LEADER then
      s'.(stream := s.stream + eff.casts)
    else
      s'.(network := s.network + Unicasts(count, at, eff.casts))
  }

  /** The value under the next number. The number is taken before the payload is unpacked and the
      ACCEPT packed, so a payload or number that fails there leaves the number without a value. */
  function Entry(crnd: int, number: nat, payload: Bytes): Option<Bytes> {
    if IsU32(crnd) && IsU32(number) then UnpackClient(payload) else None
  }

  function NextEntry(s: System, payload: Bytes): Option<Bytes>
    requires LEADER in s.switches
  {
    Entry(s.switches[LEADER].node.crnd, |s.issued|, payload)
  }

  predicate Enabled(count: nat, s: System, e: Event) {
    match e
    case Client(_, _) => LEADER in s.switches
    case FromLeader(to, i, _) => to in s.switches && to != LEADER && to in s.read && i <= s.read[to] && i < |s.stream|
    case FromPeer(m, _) => m in s.network && m.to in s.switches
    case Background(at, _) => at in s.switches
    case Evict(at) => at in s.switches
  }

  function Next(count: nat, s: System, e: Event): System
    requires Enabled(count, s, e)
  {
    match e
    case Client(payload, ready) =>
      var entry := NextEntry(s, payload);
      var t := s.(issued := s.issued + [entry]);
      if entry.None? then
        t
      else
        var accept := AcceptFrame(s.switches[LEADER].node.crnd, |s.issued|, entry.value);
        Act(count, t.(stream := s.stream + [accept]), LEADER, Recv(LEADER, accept, ready))
    case FromLeader(to, i, ready) =>
      Act(count, s.(read := s.read[to := if i == s.read[to] then i + 1 else s.read[to]]), to,
          Recv(LEADER, s.stream[i], ready))
    case FromPeer(m, ready) => Act(count, s.(got := s.got + {m}), m.to, Recv(m.from, m.frame, ready))
    case Background(at, ready) => Act(count, s, at, Tick(ready))
    case Evict(at) => Act(count, s, at, Sweep)
  }

  ghost predicate Steps(count: nat, s: System, e: Event, s': System) {
    Enabled(count, s, e) && s' == Next(count, s, e)
  }

  ghost predicate StepsAt(count: nat, run: seq<System>, events: seq<Event>, i: nat)
    requires |run| == |events| + 1 && i < |events|
  {
    Steps(count, run[i], events[i], run[i + 1])
  }

  ghost predicate IsRun(count: nat, run: seq<System>, events: seq<Event>) {
    && |run| == |events| + 1
    && run[0] == Init(count)
    && forall i | 0 <= i < |events| :: StepsAt(count, run, events, i)
  }

  // ---- One switch and its history ----

  /** The switch is where its history takes it, and the history is one module SteadyNode is about. */
  ghost predicate SwitchInv(count: nat, me: Mac, issued: Issued, sw: Switch) {
    && Steady(count, me, issued, sw.local)
    && sw.node == Run(count, me, InitNode(InitialRound(count, me)), sw.local, true)
  }

  /** What modules SteadyNode and NodeHistory say about a switch that took and heard this. */
  ghost predicate FactsOf(count: nat, me: Mac, issued: Issued, taken: set<int>, heard: set<(Mac, int)>,
                          node: NodeState) {
    && NodeInv(count, me, issued, taken, node)
    && VotesInv(count, issued, taken, node)
    && HeardInv(node, heard)
    && (forall k | k in taken :: (me, k) in heard)
    && node.crnd >= InitialRound(count, me)
  }

  ghost predicate SwitchFacts(count: nat, me: Mac, issued: Issued, sw: Switch) {
    FactsOf(count, me, issued, TakenIn(sw.local), HeardIn(me, sw.local), sw.node)
  }

  lemma FactsOn(count: nat, me: Mac, issued: Issued, taken: set<int>, heard: set<(Mac, int)>, node: NodeState,
                e: NodeEvent)
    requires count <= 4 && me in Ids(count) && FactsOf(count, me, issued, taken, heard, node)
    requires Expected(count, me, issued, taken, e)
    ensures FactsOf(count, me, issued, TakenAfter(taken, e), HeardAfter(me, heard, e),
                    NodeNext(node, count, me, e).node)
  {
    StepSteady(count, me, issued, taken, node, e);
    VotesStep(count, me, issued, taken, node, e);
    HeardStep(count, me, issued, taken, node, heard, e);
    RoundGrows(node, count, me, e);
  }

  lemma {:induction false} HistoryFacts(count: nat, me: Mac, issued: Issued, sw: Switch)
    requires count <= 4 && me in Ids(count) && SwitchInv(count, me, issued, sw)
    ensures SwitchFacts(count, me, issued, sw)
    decreases |sw.local|
  {
    if sw.local != [] {
      var before, e := sw.local[..|sw.local| - 1], sw.local[|sw.local| - 1];
      var node := Run(count, me, InitNode(InitialRound(count, me)), before, true);
      SteadyBefore(count, me, issued, sw.local);
      HistoryFacts(count, me, issued, Switch(node, before));
      FactsOn(count, me, issued, TakenIn(before), HeardIn(me, before), node, e);
    }
  }

  lemma HistoryMore(count: nat, me: Mac, local: seq<NodeEvent>, e: NodeEvent)
    ensures TakenIn(local + [e]) == TakenAfter(TakenIn(local), e)
    ensures HeardIn(me, local + [e]) == HeardAfter(me, HeardIn(me, local), e)
    ensures var node := InitNode(InitialRound(count, me));
            Run(count, me, node, local + [e], true) == NodeNext(Run(count, me, node, local, true), count, me, e).node
  {
    var more := local + [e];
    assert more[..|more| - 1] == local;
  }

  lemma SwitchStep(count: nat, me: Mac, issued: Issued, sw: Switch, e: NodeEvent)
    requires SwitchInv(count, me, issued, sw) && Expected(count, me, issued, TakenIn(sw.local), e)
    ensures SwitchInv(count, me, issued, Switch(NodeNext(sw.node, count, me, e).node, sw.local + [e]))
    ensures TakenIn(sw.local + [e]) == TakenAfter(TakenIn(sw.local), e)
    ensures HeardIn(me, sw.local + [e]) == HeardAfter(me, HeardIn(me, sw.local), e)
  {
    SteadyMore(count, me, issued, sw.local, e);
    HistoryMore(count, me, sw.local, e);
  }

  lemma SwitchIssue(count: nat, me: Mac, issued: Issued, sw: Switch, entry: Option<Bytes>)
    requires SwitchInv(count, me, issued, sw)
    ensures SwitchInv(count, me, issued + [entry], sw)
  {
    forall i | 0 <= i < |sw.local| ensures ExpectedAt(count, me, issued + [entry], sw.local, i) {
      assert ExpectedAt(count, me, issued, sw.local, i);
    }
  }
}
