/**
 The learning switch: the controller's MAC table, and in front of it the switch's flow table, which
 answers what it can without the controller. The functions are the specification; class
 `BaselineController` is the controller updated in place, proved against them.
 */
module LearningSwitch {
  import opened Wrappers
  import opened Addresses
  import opened Sets

  type Port = int
  type Ip = int

  /** OpenFlow 1.0's virtual port for every port but the one a packet came in on. */
  const OFPP_ALL: Port := 0xfffc

  /** `ip` is the source address of the IPv4 header, if there is one. */
  datatype Packet = Packet(src: Mac, dst: Mac, ip: Option<Ip>)

  /** A flow's match: any source, or one. */
  datatype Match = Match(src: Option<Mac>, dst: Mac)

  /** What a controller sends to its switch. */
  datatype Message = AddFlow(m: Match, port: Port) | DeleteFlows | PacketOut(packet: Packet, port: Port)

  datatype Controller = Controller(addFlows: bool, learnIps: bool, macports: map<Mac, Port>, macip: map<Mac, Ip>)

  function LearnPort(c: Controller, mac: Mac, port: Port): Controller {
    if mac in c.macports then c else c.(macports := c.macports[mac := port])
  }

  function LearnIp(c: Controller, mac: Mac, ip: Ip): Controller {
    if mac in c.macip then c else c.(macip := c.macip[mac := ip])
  }

  /** What the controller knows once it has seen the packet. */
  function Learn(c: Controller, packet: Packet, port: Port): (c': Controller)
    ensures packet.src in c'.macports && c'.addFlows == c.addFlows
  {
    var c := LearnPort(c, packet.src, port);
    if c.learnIps && packet.ip.Some? then LearnIp(c, packet.src, packet.ip.value) else c
  }

  /** `_handle_PacketIn` */
  function HandlePacketIn(c: Controller, packet: Packet, port: Port): (r: (Controller, seq<Message>))
    ensures |r.1| > 0 && r.1[|r.1| - 1].PacketOut? && r.1[|r.1| - 1].packet == packet
  {
    var c := Learn(c, packet, port);
    if packet.dst !in c.macports then
      (c, [PacketOut(packet, OFPP_ALL)])
    else if !c.addFlows then
      (c, [PacketOut(packet, c.macports[packet.dst])])
    else
      (c, [AddFlow(Match(Some(packet.src), packet.dst), c.macports[packet.dst]),
           AddFlow(Match(Some(packet.dst), packet.src), c.macports[packet.src]),
           PacketOut(packet, c.macports[packet.dst])])
  }

  // ---- The switch ----

  type Flows = map<Match, Port>

  /** A flow with the match of an old one replaces it. */
  function Apply(flows: Flows, messages: seq<Message>): Flows
    decreases |messages|
  {
    if messages == [] then
      flows
    else
      match messages[0]
      case AddFlow(m, port) => Apply(flows[m := port], messages[1..])
      case DeleteFlows => Apply(map[], messages[1..])
      case PacketOut(_, _) => Apply(flows, messages[1..])
  }

  datatype Switch = Switch(ctrl: Controller, flows: Flows)

  /** What the constructor sends. */
  function StartUp(addFlows: bool, clear: bool): seq<Message> {
    (if clear then [DeleteFlows] else []) +
    (if addFlows then [AddFlow(Match(None, BROADCAST), OFPP_ALL)] else [])
  }

  /** A switch found with flows `stale`, and its new controller. */
  function Start(addFlows: bool, learnIps: bool, clear: bool, stale: Flows): Switch {
    Switch(Controller(addFlows, learnIps, map[], map[]), Apply(stale, StartUp(addFlows, clear)))
  }

  predicate Matches(m: Match, packet: Packet) {
    m.dst == packet.dst && (m.src.None? || m.src.value == packet.src)
  }

  /** Flow `hit` may answer the packet; or none does and the controller has to. All flows have the same
      priority, so a packet that two of them match may be answered by either. */
  predicate Answers(sw: Switch, packet: Packet, hit: Option<Match>) {
    match hit
    case Some(m) => m in sw.flows && Matches(m, packet)
    case None => forall m | m in sw.flows :: !Matches(m, packet)
  }

  /** The switch after the packet, and the port the packet is sent to. */
  function Receive(sw: Switch, packet: Packet, port: Port, hit: Option<Match>): (Switch, Port)
    requires Answers(sw, packet, hit)
  {
    match hit
    case Some(m) => (sw, sw.flows[m])
    case None =>
      var (c, messages) := HandlePacketIn(sw.ctrl, packet, port);
      (Switch(c, Apply(sw.flows, messages)), messages[|messages| - 1].port)
  }

  /** A flow times out. */
  function Expire(sw: Switch, m: Match): Switch {
    sw.(flows := sw.flows - {m})
  }

  /** `connectionDown`; what is sent then may not get through. */
  function Down(sw: Switch, heard: bool): Switch {
    Switch(sw.ctrl.(macports := map[]), if heard then Apply(sw.flows, [DeleteFlows]) else sw.flows)
  }

  // ---- The controller object ----

  ghost function MacsOn(macports: map<Mac, Port>, port: Port): set<Mac> {
    set m | m in macports && macports[m] == port
  }

  /** Looking at one more address. */
  lemma MacsOnWithout(macports: map<Mac, Port>, port: Port, rest: set<Mac>, m: Mac)
    requires m in rest && rest <= macports.Keys
    ensures MacsOn(macports, port) - (rest - {m})
            == (MacsOn(macports, port) - rest) + if macports[m] == port then {m} else {}
    ensures m !in MacsOn(macports, port) - rest
  {
  }

  class BaselineController {
    const addFlows: bool
    const learnIps: bool
    var macports: map<Mac, Port>
    var macip: map<Mac, Ip>
    var sent: seq<Message>

    function State(): Controller
      reads this
    {
      Controller(addFlows, learnIps, macports, macip)
    }

    constructor (addFlows: bool, learnIps: bool, clear: bool)
      ensures State() == Controller(addFlows, learnIps, map[], map[])
      ensures sent == StartUp(addFlows, clear)
    {
      this.addFlows, this.learnIps, macports, macip := addFlows, learnIps, map[], map[];
      sent := [];
      new;
      if clear {
        ClearFlowTable();
      }
      if addFlows {
        AddForwardFlow(None, BROADCAST, OFPP_ALL);
      }
    }

    method ClearFlowTable()
      modifies this`sent
      ensures sent == old(sent) + [DeleteFlows]
    {
      sent := sent + [DeleteFlows];
    }

    method ClearMacPorts()
      modifies this`macports
      ensures macports == map[]
    {
      macports := map[];
    }

    method ConnectionDown()
      modifies this`macports, this`sent
      ensures State() == old(State()).(macports := map[]) && sent == old(sent) + [DeleteFlows]
    {
      ClearMacPorts();
      ClearFlowTable();
    }

    method AddForwardFlow(src: Option<Mac>, dst: Mac, port: Port)
      modifies this`sent
      ensures sent == old(sent) + [AddFlow(Match(src, dst), port)]
    {
      sent := sent + [AddFlow(Match(src, dst), port)];
    }

    method Forward(packet: Packet, port: Port)
      modifies this`sent
      ensures sent == old(sent) + [PacketOut(packet, port)]
    {
      sent := sent + [PacketOut(packet, port)];
    }

    method Broadcast(packet: Packet)
      modifies this`sent
      ensures sent == old(sent) + [PacketOut(packet, OFPP_ALL)]
    {
      Forward(packet, OFPP_ALL);
    }

    /** The first port stays: a MAC address that moves is not learned again. */
    method LearnPortOf(mac: Mac, port: Port)
      modifies this`macports
      ensures State() == LearnPort(old(State()), mac, port)
    {
      if mac !in macports {
        macports := macports[mac := port];
      }
    }

    method LearnIpOf(mac: Mac, ip: Ip)
      modifies this`macip
      ensures State() == LearnIp(old(State()), mac, ip)
    {
      if mac !in macip {
        macip := macip[mac := ip];
      }
    }

    method PacketIn(packet: Packet, port: Port)
      modifies this
      ensures var (c, messages) := HandlePacketIn(old(State()), packet, port);
              State() == c && sent == old(sent) + messages
    {
      LearnPortOf(packet.src, port);
      if learnIps {
        if packet.ip.Some? {
          LearnIpOf(packet.src, packet.ip.value);
        }
      }
      if packet.dst !in macports {
        Broadcast(packet);
      } else if !addFlows {
        Forward(packet, macports[packet.dst]);
      } else {
        AddForwardFlow(Some(packet.src), packet.dst, macports[packet.dst]);
        AddForwardFlow(Some(packet.dst), packet.src, macports[packet.src]);
        Forward(packet, macports[packet.dst]);
      }
    }

    /** The addresses learned on `port`, each once, in the dictionary's order; nothing if there are none. */
    method PortToMac(port: Port) returns (macs: seq<Mac>)
      ensures forall m :: m in macs <==> m in MacsOn(macports, port)
      ensures |macs| == |MacsOn(macports, port)|
    {
      macs := [];
      var rest := macports.Keys;
      ghost var seen: set<Mac> := {};
      while rest != {}
        invariant rest <= macports.Keys && seen == MacsOn(macports, port) - rest
        invariant (forall m :: m in macs <==> m in seen) && |macs| == |seen|
        decreases rest
      {
        HasMember(rest);
        var m :| m in rest;
        MacsOnWithout(macports, port, rest, m);
        rest := rest - {m};
        if macports[m] == port {
          macs := macs + [m];
          seen := seen + {m};
        }
      }
      assert MacsOn(macports, port) - rest == MacsOn(macports, port);
    }

    method MacToIp(mac: Mac) returns (ip: Option<Ip>)
      ensures ip == if mac in macip then Some(macip[mac]) else None
    {
      ip := if mac in macip then Some(macip[mac]) else None;
    }
  }
}
