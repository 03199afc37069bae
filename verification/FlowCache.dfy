/** The flow table as a cache in front of the MAC table: what packets can tell the difference. */
module FlowCache {
  import opened Addresses
  import opened LearningSwitch
  import opened Wrappers

  /** The port behind which each sender is. */
  type Homes = map<Mac, Port>

  // ---- What every step keeps ----

  /** The broadcast rule, or a flow between two senders to the port the second is behind. */
  predicate GoodFlow(homes: Homes, m: Match, port: Port) {
    if m.src.None? then
      m.dst == BROADCAST && port == OFPP_ALL
    else
      m.src.value in homes && m.dst in homes && port == homes[m.dst]
  }

  ghost predicate FlowsGood(homes: Homes, flows: Flows) {
    forall m | m in flows :: GoodFlow(homes, m, flows[m])
  }

  ghost predicate KnowsHomes(homes: Homes, macports: map<Mac, Port>) {
    forall a | a in macports :: a in homes && macports[a] == homes[a]
  }

  ghost predicate CacheInv(homes: Homes, sw: Switch) {
    FlowsGood(homes, sw.flows) && KnowsHomes(homes, sw.ctrl.macports)
  }

  /** Every flow for one sender is between addresses the controller has learned. */
  ghost predicate FlowsLearned(sw: Switch) {
    forall m | m in sw.flows && m.src.Some? :: m.src.value in sw.ctrl.macports && m.dst in sw.ctrl.macports
  }

  /** The table after the controller handled a packet: flows both ways if it knows the destination. */
  function Installed(c: Controller, flows: Flows, packet: Packet, port: Port): Flows {
    var c := Learn(c, packet, port);
    if packet.dst in c.macports && c.addFlows then
      flows[Match(Some(packet.src), packet.dst) := c.macports[packet.dst]]
           [Match(Some(packet.dst), packet.src) := c.macports[packet.src]]
    else
      flows
  }

  lemma PacketInInstalls(sw: Switch, packet: Packet, port: Port)
    ensures Apply(sw.flows, HandlePacketIn(sw.ctrl, packet, port).1) == Installed(sw.ctrl, sw.flows, packet, port)
  {
    var (c, messages) := HandlePacketIn(sw.ctrl, packet, port);
    if |messages| == 3 {
      var there := sw.flows[Match(Some(packet.src), packet.dst) := c.macports[packet.dst]];
      var back := there[Match(Some(packet.dst), packet.src) := c.macports[packet.src]];
      assert messages[1..][1..] == [PacketOut(packet, c.macports[packet.dst])];
      assert Apply(sw.flows, messages) == Apply(there, messages[1..]) == Apply(back, messages[1..][1..]) == back;
    } else {
      assert messages[1..] == [];
      assert Apply(sw.flows, messages) == Apply(sw.flows, messages[1..]);
    }
  }

  /** Once the controller has handled a packet between two addresses it knows, neither direction bothers it
      again until a flow times out. */
  lemma FlowsSpareController(sw: Switch, packet: Packet, port: Port, later: Packet)
    requires sw.ctrl.addFlows && Answers(sw, packet, None) && packet.dst in Learn(sw.ctrl, packet, port).macports
    requires (later.src, later.dst) == (packet.src, packet.dst) || (later.src, later.dst) == (packet.dst, packet.src)
    ensures var sw' := Receive(sw, packet, port, None).0;
            && later.dst in sw'.ctrl.macports
            && Answers(sw', later, Some(Match(Some(later.src), later.dst))) && !Answers(sw', later, None)
            && sw'.flows[Match(Some(later.src), later.dst)] == sw'.ctrl.macports[later.dst]
  {
    PacketInInstalls(sw, packet, port);
  }

  /** A packet is flooded or sent to its destination's port, whichever flows happen to be there. */
  lemma ReceiveKeeps(homes: Homes, sw: Switch, packet: Packet, port: Port, hit: Option<Match>)
    requires CacheInv(homes, sw) && Answers(sw, packet, hit) && packet.src in homes && homes[packet.src] == port
    ensures var (sw', out) := Receive(sw, packet, port, hit);
            && CacheInv(homes, sw')
            && (sw'.ctrl.macports == sw.ctrl.macports || sw'.ctrl.macports == sw.ctrl.macports[packet.src := port])
            && (out == OFPP_ALL || (packet.dst in homes && out == homes[packet.dst]))
            && (packet.dst in sw.ctrl.macports && packet.dst != BROADCAST ==> out == homes[packet.dst])
  {
    match hit
    case Some(m) => assert GoodFlow(homes, m, sw.flows[m]);
    case None => PacketInInstalls(sw, packet, port);
  }

  /** As long as flows are between learned addresses, whoever sends anything but a broadcast is learned. */
  lemma ReceiveLearns(homes: Homes, sw: Switch, packet: Packet, port: Port, hit: Option<Match>)
    requires CacheInv(homes, sw) && FlowsLearned(sw) && Answers(sw, packet, hit)
    ensures var (sw', out) := Receive(sw, packet, port, hit);
            && FlowsLearned(sw')
            && (packet.dst != BROADCAST || hit.None? ==> packet.src in sw'.ctrl.macports)
            && (out == OFPP_ALL || packet.dst in sw'.ctrl.macports)
  {
    match hit
    case Some(m) => assert GoodFlow(homes, m, sw.flows[m]);
    case None => PacketInInstalls(sw, packet, port);
  }

  // ---- Runs ----

  /** A disconnection's deletion may be lost. A controller that starts anew finds the flows that are there and
      may or may not clear them. */
  datatype Event =
    | Arrive(packet: Packet, port: Port, hit: Option<Match>)
    | Timeout(m: Match)
    | Disconnect(heard: bool)
    | Restart(addFlows: bool, ips: bool, clear: bool)

  predicate Enabled(homes: Homes, sw: Switch, e: Event) {
    e.Arrive? ==> e.packet.src in homes && homes[e.packet.src] == e.port && Answers(sw, e.packet, e.hit)
  }

  function Next(homes: Homes, sw: Switch, e: Event): Switch
    requires Enabled(homes, sw, e)
  {
    match e
    case Arrive(packet, port, hit) => Receive(sw, packet, port, hit).0
    case Timeout(m) => Expire(sw, m)
    case Disconnect(heard) => Down(sw, heard)
    case Restart(addFlows, ips, clear) => Start(addFlows, ips, clear, sw.flows)
  }

  /** Where the packet is sent. */
  function Out(homes: Homes, sw: Switch, e: Event): Port
    requires e.Arrive? && Enabled(homes, sw, e)
  {
    Receive(sw, e.packet, e.port, e.hit).1
  }

  ghost predicate Steps(homes: Homes, sw: Switch, e: Event, sw': Switch) {
    Enabled(homes, sw, e) && sw' == Next(homes, sw, e)
  }

  ghost predicate IsRun(homes: Homes, run: seq<Switch>, events: seq<Event>) {
    && |run| == |events| + 1
    && forall i | 0 <= i < |events| :: Steps(homes, run[i], events[i], run[i + 1])
  }

  lemma StartFlows(addFlows: bool, ips: bool, clear: bool, stale: Flows)
    ensures var kept := if clear then map[] else stale;
            Start(addFlows, ips, clear, stale).flows
              == if addFlows then kept[Match(None, BROADCAST) := OFPP_ALL] else kept
  {
    var kept: Flows := if clear then map[] else stale;
    var add := if addFlows then [AddFlow(Match(None, BROADCAST), OFPP_ALL)] else [];
    var messages := StartUp(addFlows, clear);
    if clear {
      assert messages[1..] == add;
      assert Apply(stale, messages) == Apply(kept, add);
    } else {
      assert messages == add;
    }
    if addFlows {
      assert add[1..] == [];
      assert Apply(kept, add) == Apply(kept[Match(None, BROADCAST) := OFPP_ALL], add[1..]);
    }
  }

  /** A controller that clears the table, or finds flows that are good, starts well. */
  lemma StartsGood(homes: Homes, addFlows: bool, ips: bool, clear: bool, stale: Flows)
    requires clear || FlowsGood(homes, stale)
    ensures CacheInv(homes, Start(addFlows, ips, clear, stale))
    ensures clear ==> FlowsLearned(Start(addFlows, ips, clear, stale))
  {
    StartFlows(addFlows, ips, clear, stale);
  }

  /** Losing a deletion or keeping flows over a restart does no harm. */
  lemma StepKeeps(homes: Homes, sw: Switch, e: Event)
    requires CacheInv(homes, sw) && Enabled(homes, sw, e)
    ensures CacheInv(homes, Next(homes, sw, e))
  {
    match e
    case Arrive(packet, port, hit) => ReceiveKeeps(homes, sw, packet, port, hit);
    case Timeout(m) =>
    case Disconnect(heard) =>
    case Restart(addFlows, ips, clear) => StartsGood(homes, addFlows, ips, clear, sw.flows);
  }

  /** From a cleared table, or one with good flows in it, every packet of every run is flooded or goes to the
      port its destination is behind, whatever deletions are lost and whatever restarted controllers keep. */
  lemma {:induction false} AlwaysHome(homes: Homes, run: seq<Switch>, events: seq<Event>, i: nat)
    requires IsRun(homes, run, events) && CacheInv(homes, run[0]) && i < |run|
    ensures CacheInv(homes, run[i])
    ensures i < |events| && events[i].Arrive? ==>
              && Enabled(homes, run[i], events[i])
              && HomeOrFlood(homes, events[i].packet, Out(homes, run[i], events[i]))
    decreases i
  {
    if i > 0 {
      AlwaysHome(homes, run, events, i - 1);
      assert Steps(homes, run[i - 1], events[i - 1], run[i]);
      StepKeeps(homes, run[i - 1], events[i - 1]);
    }
    if i < |events| && events[i].Arrive? {
      assert Steps(homes, run[i], events[i], run[i + 1]);
      ReceiveKeeps(homes, run[i], events[i].packet, events[i].port, events[i].hit);
    }
  }

  predicate HomeOrFlood(homes: Homes, packet: Packet, out: Port) {
    out == OFPP_ALL || (packet.dst in homes && out == homes[packet.dst])
  }

  /** The first IP address learned for an Ethernet address stays, disconnections included, as long as the
      controller does. */
  lemma {:induction false} IpsStay(homes: Homes, run: seq<Switch>, events: seq<Event>, i: nat, k: nat, a: Mac)
    requires IsRun(homes, run, events) && i <= k < |run| && a in run[i].ctrl.macip
    requires forall j | i <= j < k :: !events[j].Restart?
    ensures a in run[k].ctrl.macip && run[k].ctrl.macip[a] == run[i].ctrl.macip[a]
    decreases k
  {
    if i < k {
      IpsStay(homes, run, events, i, k - 1, a);
      assert Steps(homes, run[k - 1], events[k - 1], run[k]);
    }
  }

  // ---- Hosts that move ----

  function HomeNow(e: Event): Homes {
    if e.Arrive? then map[e.packet.src := e.port] else map[]
  }

  /** Each packet may come in on any port. */
  ghost predicate IsMovingRun(run: seq<Switch>, events: seq<Event>) {
    && |run| == |events| + 1
    && forall i | 0 <= i < |events| :: Steps(HomeNow(events[i]), run[i], events[i], run[i + 1])
  }

  /** A sender whose packet reaches the controller is learned on the port it came in on, unless it was learned
      before; a port once learned stays until the connection goes down or a controller starts anew, whatever ports
      the sender's later packets come in on. */
  lemma {:induction false} PortsStay(run: seq<Switch>, events: seq<Event>, i: nat, k: nat)
    requires IsMovingRun(run, events) && i < k < |run| && events[i].Arrive? && events[i].hit.None?
    requires forall j | i < j < k :: !events[j].Restart? && !events[j].Disconnect?
    ensures var (a, before, after) := (events[i].packet.src, run[i].ctrl.macports, run[k].ctrl.macports);
            a in after && after[a] == if a in before then before[a] else events[i].port
    decreases k
  {
    if i + 1 == k {
      assert Steps(HomeNow(events[i]), run[i], events[i], run[k]);
    } else {
      PortsStay(run, events, i, k - 1);
      assert Steps(HomeNow(events[k - 1]), run[k - 1], events[k - 1], run[k]);
    }
  }

  // ---- The broadcast rule ----

  const BROADCAST_RULE := Match(None, BROADCAST)

  predicate KeepsRule(e: Event) {
    match e
    case Arrive(_, _, _) => true
    case Timeout(m) => m != BROADCAST_RULE
    case Disconnect(heard) => !heard
    case Restart(addFlows, _, _) => addFlows
  }

  lemma RuleStays(homes: Homes, sw: Switch, e: Event)
    requires Enabled(homes, sw, e) && KeepsRule(e) && BROADCAST_RULE in sw.flows && sw.flows[BROADCAST_RULE] == OFPP_ALL
    ensures var sw' := Next(homes, sw, e); BROADCAST_RULE in sw'.flows && sw'.flows[BROADCAST_RULE] == OFPP_ALL
  {
    match e
    case Arrive(packet, port, hit) => PacketInInstalls(sw, packet, port);
    case Timeout(m) =>
    case Disconnect(heard) =>
    case Restart(addFlows, ips, clear) => StartFlows(addFlows, ips, clear, sw.flows);
  }

  /** A controller that uses flows sees no broadcast from its start on, until the rule times out, is deleted, or a
      controller without flows takes over. */
  lemma {:induction false} BroadcastsSpared(homes: Homes, run: seq<Switch>, events: seq<Event>, ips: bool,
                                            clear: bool, stale: Flows, i: nat)
    requires IsRun(homes, run, events) && run[0] == Start(true, ips, clear, stale) && i < |run|
    requires forall j | 0 <= j < i :: KeepsRule(events[j])
    ensures BROADCAST_RULE in run[i].flows && run[i].flows[BROADCAST_RULE] == OFPP_ALL
    ensures i < |events| && events[i].Arrive? && events[i].packet.dst == BROADCAST ==> events[i].hit.Some?
    decreases i
  {
    if i == 0 {
      StartFlows(true, ips, clear, stale);
    } else {
      BroadcastsSpared(homes, run, events, ips, clear, stale, i - 1);
      assert Steps(homes, run[i - 1], events[i - 1], run[i]);
      RuleStays(homes, run[i - 1], events[i - 1]);
    }
    if i < |events| && events[i].Arrive? && events[i].packet.dst == BROADCAST {
      assert Steps(homes, run[i], events[i], run[i + 1]);
      assert Matches(BROADCAST_RULE, events[i].packet);
    }
  }

  // ---- IP addresses ----

  /** Every packet with an IP header carries its sender's address. */
  ghost predicate TrueSources(ips: map<Mac, Ip>, events: seq<Event>) {
    forall i | 0 <= i < |events| && events[i].Arrive? && events[i].packet.ip.Some? ::
      events[i].packet.src in ips && events[i].packet.ip.value == ips[events[i].packet.src]
  }

  ghost predicate KnowsIps(ips: map<Mac, Ip>, macip: map<Mac, Ip>) {
    forall a | a in macip :: a in ips && macip[a] == ips[a]
  }

  /** Whether the controller at the end of the events learns IP addresses, if the first one did as `ips` says. */
  function LearnsIps(ips: bool, events: seq<Event>): bool {
    if events == [] then
      ips
    else if events[|events| - 1].Restart? then
      events[|events| - 1].ips
    else
      LearnsIps(ips, events[..|events| - 1])
  }

  /** Whose IP addresses a controller was shown, one event later: packets that a flow answered do not reach it. */
  function IpSendersAfter(known: set<Mac>, learns: bool, e: Event): set<Mac> {
    match e
    case Arrive(packet, _, hit) => known + if hit.None? && packet.ip.Some? && learns then {packet.src} else {}
    case Restart(_, _, _) => {}
    case _ => known
  }

  /** Whose IP addresses that controller was shown. */
  function IpSenders(ips: bool, events: seq<Event>): set<Mac> {
    if events == [] then
      {}
    else
      var before := events[..|events| - 1];
      IpSendersAfter(IpSenders(ips, before), LearnsIps(ips, before), events[|events| - 1])
  }

  lemma StepLearnsIps(homes: Homes, sw: Switch, e: Event)
    requires Enabled(homes, sw, e)
    ensures var c := Next(homes, sw, e).ctrl;
            && c.macip.Keys == IpSendersAfter(sw.ctrl.macip.Keys, sw.ctrl.learnIps, e)
            && c.learnIps == if e.Restart? then e.ips else sw.ctrl.learnIps
  {
  }

  lemma StepKnowsIps(homes: Homes, ips: map<Mac, Ip>, sw: Switch, e: Event)
    requires Enabled(homes, sw, e) && KnowsIps(ips, sw.ctrl.macip)
    requires e.Arrive? && e.packet.ip.Some? ==> e.packet.src in ips && e.packet.ip.value == ips[e.packet.src]
    ensures KnowsIps(ips, Next(homes, sw, e).ctrl.macip)
  {
  }

  /** The IP addresses a controller knows are those of the senders whose packets with an IP header reached it,
      and of nobody else; each is the sender's own. */
  lemma {:induction false} IpsLearned(homes: Homes, ips: map<Mac, Ip>, run: seq<Switch>, events: seq<Event>, i: nat)
    requires IsRun(homes, run, events) && run[0].ctrl.macip == map[] && TrueSources(ips, events) && i < |run|
    ensures KnowsIps(ips, run[i].ctrl.macip)
    ensures run[i].ctrl.macip.Keys == IpSenders(run[0].ctrl.learnIps, events[..i])
    ensures run[i].ctrl.learnIps == LearnsIps(run[0].ctrl.learnIps, events[..i])
    decreases i
  {
    if i > 0 {
      IpsLearned(homes, ips, run, events, i - 1);
      assert Steps(homes, run[i - 1], events[i - 1], run[i]);
      StepLearnsIps(homes, run[i - 1], events[i - 1]);
      StepKnowsIps(homes, ips, run[i - 1], events[i - 1]);
      assert events[..i][..i - 1] == events[..i - 1];
    }
  }

  // ---- With and without flows ----

  /** The run of a switch whose controllers start on an empty flow table and whose deletions get through. */
  ghost predicate IsCachedRun(homes: Homes, run: seq<Switch>, events: seq<Event>) {
    && IsRun(homes, run, events)
    && (exists addFlows, ips, stale :: run[0] == Start(addFlows, ips, true, stale))
    && forall i | 0 <= i < |events| :: Clears(events[i])
  }

  predicate Clears(e: Event) {
    (e.Disconnect? ==> e.heard) && (e.Restart? ==> e.clear)
  }

  /** The same packets, disconnections and restarts at a switch without flows. */
  function Flowless(events: seq<Event>): (plain: seq<Event>)
    ensures |plain| == |events|
    ensures forall i | 0 <= i < |events| :: plain[i] == WithoutFlow(events[i])
  {
    seq(|events|, i requires 0 <= i < |events| => WithoutFlow(events[i]))
  }

  function WithoutFlow(e: Event): Event {
    if e.Arrive? then e.(hit := None) else if e.Restart? then e.(addFlows := false) else e
  }

  ghost predicate IsFlowlessRun(homes: Homes, run: seq<Switch>, events: seq<Event>) {
    && IsRun(homes, run, events)
    && (exists ips :: run[0] == Start(false, ips, true, map[]))
    && forall i | 0 <= i < |events| :: events[i].Restart? ==> !events[i].addFlows
  }

  /** Everyone who sent a packet since the MAC table was last emptied. */
  function Senders(events: seq<Event>): set<Mac> {
    if events == [] then
      {}
    else
      match events[|events| - 1]
      case Arrive(packet, _, _) => Senders(events[..|events| - 1]) + {packet.src}
      case Timeout(_) => Senders(events[..|events| - 1])
      case _ => {}
  }

  /** Everyone who sent a packet that was not a broadcast. */
  function UnicastSenders(events: seq<Event>): set<Mac> {
    if events == [] then
      {}
    else
      match events[|events| - 1]
      case Arrive(packet, _, _) =>
        UnicastSenders(events[..|events| - 1]) + (if packet.dst == BROADCAST then {} else {packet.src})
      case Timeout(_) => UnicastSenders(events[..|events| - 1])
      case _ => {}
  }

  lemma StepLearns(homes: Homes, sw: Switch, e: Event)
    requires CacheInv(homes, sw) && FlowsLearned(sw) && Enabled(homes, sw, e) && Clears(e)
    ensures FlowsLearned(Next(homes, sw, e))
  {
    match e
    case Arrive(packet, port, hit) => ReceiveLearns(homes, sw, packet, port, hit);
    case Timeout(m) =>
    case Disconnect(heard) =>
    case Restart(addFlows, ips, clear) => StartsGood(homes, addFlows, ips, clear, sw.flows);
  }

  /** Flows exist between learned addresses only; everyone who sent anything but broadcasts has been learned,
      and nobody who sent nothing. */
  lemma {:induction false} CachedRunInv(homes: Homes, run: seq<Switch>, events: seq<Event>, i: nat)
    requires IsCachedRun(homes, run, events) && i < |run|
    ensures CacheInv(homes, run[i]) && FlowsLearned(run[i])
    ensures UnicastSenders(events[..i]) <= run[i].ctrl.macports.Keys <= Senders(events[..i])
  {
    if i == 0 {
      var addFlows, ips, stale :| run[0] == Start(addFlows, ips, true, stale);
      StartsGood(homes, addFlows, ips, true, stale);
    } else {
      var sw, e := run[i - 1], events[i - 1];
      CachedRunInv(homes, run, events, i - 1);
      assert Steps(homes, sw, e, run[i]) && Clears(e);
      StepKeeps(homes, sw, e);
      StepLearns(homes, sw, e);
      assert events[..i][..i - 1] == events[..i - 1];
      if e.Arrive? {
        ReceiveKeeps(homes, sw, e.packet, e.port, e.hit);
        ReceiveLearns(homes, sw, e.packet, e.port, e.hit);
      }
    }
  }

  lemma PlainReceive(sw: Switch, packet: Packet, port: Port)
    requires sw.flows == map[] && !sw.ctrl.addFlows
    ensures var (sw', out) := Receive(sw, packet, port, None);
            && sw'.flows == map[] && !sw'.ctrl.addFlows
            && sw'.ctrl.macports == LearnPort(sw.ctrl, packet.src, port).macports
            && out == if packet.dst in sw'.ctrl.macports then sw'.ctrl.macports[packet.dst] else OFPP_ALL
  {
    PacketInInstalls(sw, packet, port);
  }

  /** Without flows every sender is learned, broadcasts or not. */
  lemma {:induction false} FlowlessRunInv(homes: Homes, run: seq<Switch>, events: seq<Event>, i: nat)
    requires IsFlowlessRun(homes, run, events) && i < |run|
    ensures run[i].flows == map[] && !run[i].ctrl.addFlows && KnowsHomes(homes, run[i].ctrl.macports)
    ensures run[i].ctrl.macports.Keys == Senders(events[..i])
  {
    if i == 0 {
      var ips :| run[0] == Start(false, ips, true, map[]);
      StartFlows(false, ips, true, map[]);
    } else {
      var sw, e := run[i - 1], events[i - 1];
      FlowlessRunInv(homes, run, events, i - 1);
      assert Steps(homes, sw, e, run[i]);
      assert events[..i][..i - 1] == events[..i - 1];
      if e.Arrive? {
        assert e.hit.None?;
        PlainReceive(sw, e.packet, e.port);
      } else if e.Restart? {
        StartFlows(false, e.ips, e.clear, sw.flows);
      }
    }
  }

  lemma {:induction false} SendersAlike(events: seq<Event>, i: nat)
    requires i <= |events|
    ensures Senders(Flowless(events)[..i]) == Senders(events[..i])
  {
    if i > 0 {
      SendersAlike(events, i - 1);
      assert events[..i][..i - 1] == events[..i - 1];
      assert Flowless(events)[..i][..i - 1] == Flowless(events)[..i - 1];
    }
  }

  /** For any packets, timeouts, disconnections and restarts, and however the switch picks between flows: with
      flows each packet goes to the port it goes to without them, or is flooded, and the MAC table is part of
      the one without flows. A packet to somebody who sent more than broadcasts goes to the same port. */
  lemma CacheRefines(homes: Homes, events: seq<Event>, cached: seq<Switch>, plain: seq<Switch>, i: nat)
    requires IsCachedRun(homes, cached, events) && IsFlowlessRun(homes, plain, Flowless(events)) && i < |cached|
    ensures cached[i].ctrl.macports.Keys <= plain[i].ctrl.macports.Keys
    ensures forall a | a in cached[i].ctrl.macports :: cached[i].ctrl.macports[a] == plain[i].ctrl.macports[a]
    ensures i < |events| && events[i].Arrive? ==>
              && Enabled(homes, cached[i], events[i]) && Enabled(homes, plain[i], Flowless(events)[i])
              && var (out, plainly) := (Out(homes, cached[i], events[i]), Out(homes, plain[i], Flowless(events)[i]));
              && (out == plainly || out == OFPP_ALL)
              && (events[i].packet.dst in UnicastSenders(events[..i]) && events[i].packet.dst != BROADCAST ==>
                    events[i].packet.dst in homes && out == plainly == homes[events[i].packet.dst])
  {
    CachedRunInv(homes, cached, events, i);
    FlowlessRunInv(homes, plain, Flowless(events), i);
    SendersAlike(events, i);
    if i < |events| && events[i].Arrive? {
      var e := events[i];
      assert Steps(homes, cached[i], e, cached[i + 1]);
      assert Steps(homes, plain[i], Flowless(events)[i], plain[i + 1]);
      ReceiveKeeps(homes, cached[i], e.packet, e.port, e.hit);
      ReceiveLearns(homes, cached[i], e.packet, e.port, e.hit);
    }
  }

  // ---- Flows from elsewhere ----

  /** Some sender's packets can match the flow. */
  predicate Triggered(homes: Homes, m: Match, a: Mac) {
    a in homes && (m.src.None? || m.src.value == a)
  }

  /** If anybody's packets can match the flow, it floods them or sends them where its destination is. */
  ghost predicate RightFlow(homes: Homes, m: Match, port: Port) {
    (exists a :: Triggered(homes, m, a)) ==> port == OFPP_ALL || (m.dst in homes && port == homes[m.dst])
  }

  ghost predicate FlowsRight(homes: Homes, flows: Flows) {
    forall m | m in flows :: RightFlow(homes, m, flows[m])
  }

  lemma ArriveRight(homes: Homes, sw: Switch, packet: Packet, hit: Option<Match>)
    requires FlowsRight(homes, sw.flows) && KnowsHomes(homes, sw.ctrl.macports)
    requires packet.src in homes && Answers(sw, packet, hit)
    ensures var (sw', out) := Receive(sw, packet, homes[packet.src], hit);
            FlowsRight(homes, sw'.flows) && KnowsHomes(homes, sw'.ctrl.macports) && HomeOrFlood(homes, packet, out)
  {
    if hit.Some? {
      assert Triggered(homes, hit.value, packet.src) && RightFlow(homes, hit.value, sw.flows[hit.value]);
    } else {
      PacketInInstalls(sw, packet, homes[packet.src]);
    }
  }

  lemma StepRight(homes: Homes, sw: Switch, e: Event)
    requires FlowsRight(homes, sw.flows) && KnowsHomes(homes, sw.ctrl.macports) && Enabled(homes, sw, e)
    ensures FlowsRight(homes, Next(homes, sw, e).flows) && KnowsHomes(homes, Next(homes, sw, e).ctrl.macports)
    ensures e.Arrive? ==> HomeOrFlood(homes, e.packet, Out(homes, sw, e))
  {
    match e
    case Arrive(packet, port, hit) => ArriveRight(homes, sw, packet, hit);
    case Timeout(m) =>
    case Disconnect(heard) =>
    case Restart(addFlows, ips, clear) => StartFlows(addFlows, ips, clear, sw.flows);
  }

  ghost predicate CorrectAt(homes: Homes, run: seq<Switch>, events: seq<Event>, i: nat)
    requires IsRun(homes, run, events) && i < |events|
  {
    assert Steps(homes, run[i], events[i], run[i + 1]);
    events[i].Arrive? ==> HomeOrFlood(homes, events[i].packet, Out(homes, run[i], events[i]))
  }

  /** Whatever happens from here, every packet is flooded or goes where its destination is. */
  ghost predicate AlwaysCorrect(homes: Homes, sw: Switch) {
    forall run, events, i: nat | IsRun(homes, run, events) && run[0] == sw && i < |events| ::
      CorrectAt(homes, run, events, i)
  }

  lemma {:induction false} StaysRight(homes: Homes, run: seq<Switch>, events: seq<Event>, i: nat)
    requires IsRun(homes, run, events) && i < |run|
    requires FlowsRight(homes, run[0].flows) && KnowsHomes(homes, run[0].ctrl.macports)
    ensures FlowsRight(homes, run[i].flows) && KnowsHomes(homes, run[i].ctrl.macports)
  {
    if i > 0 {
      StaysRight(homes, run, events, i - 1);
      assert Steps(homes, run[i - 1], events[i - 1], run[i]);
      StepRight(homes, run[i - 1], events[i - 1]);
    }
  }

  /** Whatever flows are found - of a controller that was not told to clear them, or left by a lost deletion -
      packets go right for ever, over further losses and restarts too, exactly if every one of these flows
      that somebody's packets can match floods or points to where its destination is. */
  lemma AlwaysCorrectIff(homes: Homes, sw: Switch)
    requires KnowsHomes(homes, sw.ctrl.macports)
    ensures AlwaysCorrect(homes, sw) <==> FlowsRight(homes, sw.flows)
  {
    if FlowsRight(homes, sw.flows) {
      forall run, events, i: nat | IsRun(homes, run, events) && run[0] == sw && i < |events|
        ensures CorrectAt(homes, run, events, i)
      {
        StaysRight(homes, run, events, i);
        assert Steps(homes, run[i], events[i], run[i + 1]);
        StepRight(homes, run[i], events[i]);
      }
    } else {
      var m :| m in sw.flows && !RightFlow(homes, m, sw.flows[m]);
      var a :| Triggered(homes, m, a);
      var packet := Packet(a, m.dst, None);
      var e := Arrive(packet, homes[a], Some(m));
      var run := [sw, Next(homes, sw, e)];
      assert Steps(homes, sw, e, run[1]);
      assert IsRun(homes, run, [e]);
      assert !CorrectAt(homes, run, [e], 0);
    }
  }

  // ---- Flows that outlive the MAC table ----

  /** No packet that can arrive next goes to a port it would not go to without flows. */
  ghost predicate NextRefines(homes: Homes, sw: Switch, plain: Switch)
    requires plain.flows == map[]
  {
    forall packet: Packet, hit | packet.src in homes && Answers(sw, packet, hit) ::
      var out := Receive(sw, packet, homes[packet.src], hit).1;
      out == Receive(plain, packet, homes[packet.src], None).1 || out == OFPP_ALL
  }

  /** Where a controller without flows sends a packet of `a`. */
  function PlainPort(homes: Homes, macports: map<Mac, Port>, a: Mac, dst: Mac): Port
    requires a in homes
  {
    if dst in macports then macports[dst] else if dst == a then homes[a] else OFPP_ALL
  }

  lemma ReceiveOut(homes: Homes, sw: Switch, packet: Packet, hit: Option<Match>)
    requires packet.src in homes && KnowsHomes(homes, sw.ctrl.macports) && Answers(sw, packet, hit)
    ensures Receive(sw, packet, homes[packet.src], hit).1 ==
            if hit.Some? then sw.flows[hit.value] else PlainPort(homes, sw.ctrl.macports, packet.src, packet.dst)
  {
  }

  /** A flow that somebody's packets can match floods, or sends them where they would go without flows. */
  ghost predicate FlowRefines(homes: Homes, macports: map<Mac, Port>, m: Match, port: Port) {
    forall a | Triggered(homes, m, a) :: port == OFPP_ALL || port == PlainPort(homes, macports, a, m.dst)
  }

  lemma FlowFollowed(homes: Homes, sw: Switch, plain: Switch, m: Match, a: Mac)
    requires KnowsHomes(homes, sw.ctrl.macports) && KnowsHomes(homes, plain.ctrl.macports) && plain.flows == map[]
    requires NextRefines(homes, sw, plain) && m in sw.flows && Triggered(homes, m, a)
    ensures sw.flows[m] == OFPP_ALL || sw.flows[m] == PlainPort(homes, plain.ctrl.macports, a, m.dst)
  {
    var packet := Packet(a, m.dst, None);
    assert Answers(sw, packet, Some(m));
    ReceiveOut(homes, sw, packet, Some(m));
    ReceiveOut(homes, plain, packet, None);
  }

  /** Packets cannot tell the difference, except by being flooded, exactly if all flows are like that. */
  lemma NextRefinesIff(homes: Homes, sw: Switch, plain: Switch)
    requires KnowsHomes(homes, sw.ctrl.macports) && KnowsHomes(homes, plain.ctrl.macports) && plain.flows == map[]
    requires sw.ctrl.macports.Keys <= plain.ctrl.macports.Keys
    ensures NextRefines(homes, sw, plain) <==>
            forall m | m in sw.flows :: FlowRefines(homes, plain.ctrl.macports, m, sw.flows[m])
  {
    if NextRefines(homes, sw, plain) {
      forall m, a | m in sw.flows && Triggered(homes, m, a)
        ensures sw.flows[m] == OFPP_ALL || sw.flows[m] == PlainPort(homes, plain.ctrl.macports, a, m.dst)
      {
        FlowFollowed(homes, sw, plain, m, a);
      }
    } else {
      var packet: Packet, hit :| packet.src in homes && Answers(sw, packet, hit)
        && !(var out := Receive(sw, packet, homes[packet.src], hit).1;
             out == Receive(plain, packet, homes[packet.src], None).1 || out == OFPP_ALL);
      ReceiveOut(homes, sw, packet, hit);
      ReceiveOut(homes, plain, packet, None);
      assert Triggered(homes, hit.value, packet.src);
      assert !FlowRefines(homes, plain.ctrl.macports, hit.value, sw.flows[hit.value]);
    }
  }

  // ---- And in all that follows ----

  /** `sw` has flows that packets cannot tell from none, except by being flooded, and knows no more than `plain`,
      which has none and makes none. */
  ghost predicate Refining(homes: Homes, sw: Switch, plain: Switch) {
    && KnowsHomes(homes, sw.ctrl.macports) && KnowsHomes(homes, plain.ctrl.macports)
    && plain.flows == map[] && !plain.ctrl.addFlows && sw.ctrl.macports.Keys <= plain.ctrl.macports.Keys
    && forall m | m in sw.flows :: FlowRefines(homes, plain.ctrl.macports, m, sw.flows[m])
  }

  /** What the flowless controller learns changes nothing for flows that refine it. */
  lemma RefinesOn(homes: Homes, macports: map<Mac, Port>, b: Mac, m: Match, port: Port)
    requires FlowRefines(homes, macports, m, port) && b in homes && KnowsHomes(homes, macports)
    ensures FlowRefines(homes, macports[b := homes[b]], m, port)
  {
    forall a | Triggered(homes, m, a)
      ensures port == OFPP_ALL || port == PlainPort(homes, macports[b := homes[b]], a, m.dst)
    {
      assert port == OFPP_ALL || port == PlainPort(homes, macports, a, m.dst);
    }
  }

  /** A flow that is there, or that the packet sets up. */
  lemma FlowRefinesOn(homes: Homes, sw: Switch, plain: Switch, packet: Packet, hit: Option<Match>, m: Match)
    requires Refining(homes, sw, plain) && packet.src in homes && Answers(sw, packet, hit)
    requires m in Receive(sw, packet, homes[packet.src], hit).0.flows
    ensures var port := homes[packet.src];
            var (sw', plain') := (Receive(sw, packet, port, hit).0, Receive(plain, packet, port, None).0);
            FlowRefines(homes, plain'.ctrl.macports, m, sw'.flows[m])
  {
    var port := homes[packet.src];
    var (sw', plain') := (Receive(sw, packet, port, hit).0, Receive(plain, packet, port, None).0);
    PlainReceive(plain, packet, port);
    PacketInInstalls(sw, packet, port);
    assert plain'.ctrl.macports == plain.ctrl.macports[packet.src := port];
    if m in sw.flows && sw'.flows[m] == sw.flows[m] {
      assert FlowRefines(homes, plain.ctrl.macports, m, sw.flows[m]);
      RefinesOn(homes, plain.ctrl.macports, packet.src, m, sw.flows[m]);
    } else {
      assert m.dst in plain'.ctrl.macports && sw'.flows[m] == plain'.ctrl.macports[m.dst];
    }
  }

  lemma OutRefines(homes: Homes, sw: Switch, plain: Switch, packet: Packet, hit: Option<Match>)
    requires Refining(homes, sw, plain) && packet.src in homes && Answers(sw, packet, hit)
    ensures var (port, out) := (homes[packet.src], Receive(sw, packet, homes[packet.src], hit).1);
            out == Receive(plain, packet, port, None).1 || out == OFPP_ALL
  {
    ReceiveOut(homes, sw, packet, hit);
    ReceiveOut(homes, plain, packet, None);
    if hit.Some? {
      assert Triggered(homes, hit.value, packet.src);
      assert FlowRefines(homes, plain.ctrl.macports, hit.value, sw.flows[hit.value]);
    }
  }

  lemma LearnsSender(sw: Switch, packet: Packet, port: Port, hit: Option<Match>)
    requires Answers(sw, packet, hit)
    ensures var macports' := Receive(sw, packet, port, hit).0.ctrl.macports;
            macports' == sw.ctrl.macports || macports' == sw.ctrl.macports[packet.src := port]
  {
  }

  lemma ArriveRefines(homes: Homes, sw: Switch, plain: Switch, packet: Packet, hit: Option<Match>)
    requires Refining(homes, sw, plain) && packet.src in homes && Answers(sw, packet, hit)
    ensures var port := homes[packet.src];
            Refining(homes, Receive(sw, packet, port, hit).0, Receive(plain, packet, port, None).0)
  {
    var port := homes[packet.src];
    var (sw', plain') := (Receive(sw, packet, port, hit).0, Receive(plain, packet, port, None).0);
    PlainReceive(plain, packet, port);
    LearnsSender(sw, packet, port, hit);
    forall m | m in sw'.flows ensures FlowRefines(homes, plain'.ctrl.macports, m, sw'.flows[m]) {
      FlowRefinesOn(homes, sw, plain, packet, hit, m);
    }
  }

  lemma StepRefines(homes: Homes, sw: Switch, plain: Switch, e: Event)
    requires Refining(homes, sw, plain) && Enabled(homes, sw, e) && Clears(e)
    ensures Enabled(homes, plain, WithoutFlow(e))
    ensures Refining(homes, Next(homes, sw, e), Next(homes, plain, WithoutFlow(e)))
    ensures e.Arrive? ==> var out := Out(homes, sw, e); out == Out(homes, plain, WithoutFlow(e)) || out == OFPP_ALL
  {
    match e
    case Arrive(packet, port, hit) =>
      OutRefines(homes, sw, plain, packet, hit);
      ArriveRefines(homes, sw, plain, packet, hit);
    case Timeout(m) =>
    case Disconnect(heard) =>
    case Restart(addFlows, ips, clear) =>
      StartFlows(addFlows, ips, clear, sw.flows);
      StartFlows(false, ips, clear, plain.flows);
  }

  /** The two see the same packets, disconnections that get through, and restarts that clear. */
  ghost predicate RunsTogether(homes: Homes, cached: seq<Switch>, plain: seq<Switch>, events: seq<Event>) {
    && IsRun(homes, cached, events) && IsRun(homes, plain, Flowless(events))
    && forall i | 0 <= i < |events| :: Clears(events[i])
  }

  ghost predicate RefinesAt(homes: Homes, cached: seq<Switch>, plain: seq<Switch>, events: seq<Event>, i: nat)
    requires RunsTogether(homes, cached, plain, events) && i < |events|
  {
    assert Steps(homes, cached[i], events[i], cached[i + 1]);
    assert Steps(homes, plain[i], Flowless(events)[i], plain[i + 1]);
    events[i].Arrive? ==>
      var out := Out(homes, cached[i], events[i]);
      out == Out(homes, plain[i], Flowless(events)[i]) || out == OFPP_ALL
  }

  ghost predicate AlwaysRefines(homes: Homes, sw: Switch, plain: Switch) {
    forall cached, without, events, i: nat |
      RunsTogether(homes, cached, without, events) && cached[0] == sw && without[0] == plain && i < |events| ::
      RefinesAt(homes, cached, without, events, i)
  }

  lemma {:induction false} StaysRefining(homes: Homes, cached: seq<Switch>, plain: seq<Switch>, events: seq<Event>,
                                         i: nat)
    requires RunsTogether(homes, cached, plain, events) && Refining(homes, cached[0], plain[0]) && i < |cached|
    ensures Refining(homes, cached[i], plain[i])
  {
    if i > 0 {
      StaysRefining(homes, cached, plain, events, i - 1);
      assert Steps(homes, cached[i - 1], events[i - 1], cached[i]) && Clears(events[i - 1]);
      assert Steps(homes, plain[i - 1], Flowless(events)[i - 1], plain[i]);
      StepRefines(homes, cached[i - 1], plain[i - 1], events[i - 1]);
    }
  }

  /** Over every continuation whose deletions get through, no packet can tell the flows a switch has from none,
      except by being flooded, exactly if none can in the next step. */
  lemma AlwaysRefinesIff(homes: Homes, sw: Switch, plain: Switch)
    requires KnowsHomes(homes, sw.ctrl.macports) && KnowsHomes(homes, plain.ctrl.macports)
    requires plain.flows == map[] && !plain.ctrl.addFlows && sw.ctrl.macports.Keys <= plain.ctrl.macports.Keys
    ensures AlwaysRefines(homes, sw, plain) <==>
            forall m | m in sw.flows :: FlowRefines(homes, plain.ctrl.macports, m, sw.flows[m])
  {
    if forall m | m in sw.flows :: FlowRefines(homes, plain.ctrl.macports, m, sw.flows[m]) {
      forall cached, without, events, i: nat |
        RunsTogether(homes, cached, without, events) && cached[0] == sw && without[0] == plain && i < |events|
        ensures RefinesAt(homes, cached, without, events, i)
      {
        StaysRefining(homes, cached, without, events, i);
        assert Steps(homes, cached[i], events[i], cached[i + 1]) && Clears(events[i]);
        StepRefines(homes, cached[i], without[i], events[i]);
      }
    } else {
      NextRefinesIff(homes, sw, plain);
      var packet: Packet, hit :| packet.src in homes && Answers(sw, packet, hit)
        && !(var out := Receive(sw, packet, homes[packet.src], hit).1;
             out == Receive(plain, packet, homes[packet.src], None).1 || out == OFPP_ALL);
      NotAlways(homes, sw, plain, Arrive(packet, homes[packet.src], hit));
    }
  }

  lemma NotAlways(homes: Homes, sw: Switch, plain: Switch, e: Event)
    requires e.Arrive? && Enabled(homes, sw, e) && plain.flows == map[]
    requires Out(homes, sw, e) != Receive(plain, e.packet, e.port, None).1 && Out(homes, sw, e) != OFPP_ALL
    ensures !AlwaysRefines(homes, sw, plain)
  {
    var cached, without := [sw, Next(homes, sw, e)], [plain, Next(homes, plain, WithoutFlow(e))];
    assert Steps(homes, sw, e, cached[1]) && Steps(homes, plain, Flowless([e])[0], without[1]);
    assert RunsTogether(homes, cached, without, [e]);
    assert !RefinesAt(homes, cached, without, [e], 0);
  }

  /** Whoever sends anything but a broadcast next is learned. */
  ghost predicate NobodyHidden(homes: Homes, sw: Switch) {
    forall packet: Packet, hit | packet.src in homes && packet.dst != BROADCAST && Answers(sw, packet, hit) ::
      packet.src in Receive(sw, packet, homes[packet.src], hit).0.ctrl.macports
  }

  /** Exactly if every flow that can match such packets is for senders who are learned already. */
  lemma NobodyHiddenIff(homes: Homes, sw: Switch)
    ensures NobodyHidden(homes, sw) <==>
            forall m, a | m in sw.flows && m.dst != BROADCAST && Triggered(homes, m, a) :: a in sw.ctrl.macports
  {
    if NobodyHidden(homes, sw) {
      forall m, a | m in sw.flows && m.dst != BROADCAST && Triggered(homes, m, a) ensures a in sw.ctrl.macports {
        assert Answers(sw, Packet(a, m.dst, None), Some(m));
      }
    } else {
      var packet: Packet, hit :| packet.src in homes && packet.dst != BROADCAST && Answers(sw, packet, hit)
        && packet.src !in Receive(sw, packet, homes[packet.src], hit).0.ctrl.macports;
      assert Triggered(homes, hit.value, packet.src);
    }
  }

  /** Two hosts talk, then the connection goes down and the deletion is lost: packets still go right, but one
      goes to a port it would not go to without flows, and its sender stays unlearned. */
  lemma LostDeletion(homes: Homes, a: Mac, b: Mac, plain: Switch) returns (run: seq<Switch>, events: seq<Event>)
    requires a in homes && b in homes && a != b && a != BROADCAST && b != BROADCAST && homes[b] != OFPP_ALL
    requires plain.flows == map[] && plain.ctrl.macports == map[]
    ensures IsRun(homes, run, events) && run[0] == Start(true, false, true, map[])
    ensures events == [Arrive(Packet(a, b, None), homes[a], None), Arrive(Packet(b, a, None), homes[b], None),
                       Disconnect(false)]
    ensures run[3].ctrl.macports == map[] && AlwaysCorrect(homes, run[3])
    ensures !NextRefines(homes, run[3], plain) && !NobodyHidden(homes, run[3])
  {
    var (there, back) := (Packet(a, b, None), Packet(b, a, None));
    var sw0 := Start(true, false, true, map[]);
    StartFlows(true, false, true, map[]);
    StartsGood(homes, true, false, true, map[]);
    PacketInInstalls(sw0, there, homes[a]);
    var sw1 := Next(homes, sw0, Arrive(there, homes[a], None));
    PacketInInstalls(sw1, back, homes[b]);
    var sw2 := Next(homes, sw1, Arrive(back, homes[b], None));
    var sw3 := Next(homes, sw2, Disconnect(false));
    run := [sw0, sw1, sw2, sw3];
    events := [Arrive(there, homes[a], None), Arrive(back, homes[b], None), Disconnect(false)];
    assert Steps(homes, sw0, events[0], sw1) && Steps(homes, sw1, events[1], sw2) && Steps(homes, sw2, events[2], sw3);
    var m := Match(Some(a), b);
    assert m in sw3.flows && sw3.flows[m] == homes[b] && Triggered(homes, m, a);
    AlwaysHome(homes, run, events, 3);
    GoodIsRight(homes, sw3.flows);
    AlwaysCorrectIff(homes, sw3);
    NextRefinesIff(homes, sw3, plain);
    NobodyHiddenIff(homes, sw3);
    assert !FlowRefines(homes, plain.ctrl.macports, m, sw3.flows[m]);
  }

  lemma GoodIsRight(homes: Homes, flows: Flows)
    requires FlowsGood(homes, flows)
    ensures FlowsRight(homes, flows)
  {
    forall m | m in flows ensures RightFlow(homes, m, flows[m]) {
      assert GoodFlow(homes, m, flows[m]);
    }
  }
}
