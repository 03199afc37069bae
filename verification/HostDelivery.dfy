/** Handing a value that reached consensus to the switch's own hosts, as soon as all of them are known. */
module HostDelivery {
  import opened Addresses
  import opened LearningSwitch
  import opened PaxosMessage
  import opened Sets
  import opened Wrappers

  /** What the decision depends on: the switch's ports, where other Paxos switches and the clients are, and
      which addresses the learning switch has seen. */
  datatype View = View(
    ports: set<Port>,
    paxosPorts: map<Mac, Port>,
    wanPort: Option<Port>,
    macports: map<Mac, Port>,
    macip: map<Mac, Ip>)

  /** Ports above this are the switch's own interface. */
  const HIGHEST_PORT: Port := 65000

  /** The one address learned on a port that is not ruled out, if its IP address is known as well. */
  ghost function HostAt(v: View, p: Port): Option<(Mac, Ip)> {
    if p in v.paxosPorts.Values || p > HIGHEST_PORT || |MacsOn(v.macports, p)| != 1 then
      None
    else
      HasMember(MacsOn(v.macports, p));
      var m :| m in MacsOn(v.macports, p);
      if m in v.macip then Some((m, v.macip[m])) else None
  }

  ghost function KnownHosts(v: View): set<Port> {
    set p | p in v.ports && HostAt(v, p).Some?
  }

  /** All ports, less those of Paxos switches, of clients, and of the switch itself. */
  function ExpectedHosts(v: View): int {
    |v.ports| - |v.paxosPorts.Values| - (if v.wanPort.Some? then 1 else 0) - 1
  }

  ghost predicate AddressesKnown(v: View) {
    |KnownHosts(v)| == ExpectedHosts(v)
  }

  // ---- The object ----

  /** The packet `value`, readdressed to a host and sent out of its port. */
  datatype Delivery = Delivery(mac: Mac, ip: Ip, port: Port, value: Option<Bytes>)

  /** How many packets went out of port `p`. */
  function SentTo(sent: seq<Delivery>, p: Port): nat {
    if sent == [] then
      0
    else
      SentTo(sent[..|sent| - 1], p) + if sent[|sent| - 1].port == p then 1 else 0
  }

  lemma SentOne(sent: seq<Delivery>, d: Delivery, p: Port)
    ensures SentTo(sent + [d], p) == SentTo(sent, p) + if d.port == p then 1 else 0
  {
    assert (sent + [d])[..|sent|] == sent;
  }

  /** One packet for each host on `ports`, to its address, and nothing else. */
  ghost predicate OnePerHost(v: View, ports: set<Port>, out: seq<Delivery>, value: Option<Bytes>) {
    && (forall d | d in out :: d.value == value && HostAt(v, d.port) == Some((d.mac, d.ip)))
    && (forall p :: SentTo(out, p) == if p in ports then 1 else 0)
  }

  lemma OneMoreHost(v: View, ports: set<Port>, out: seq<Delivery>, value: Option<Bytes>, d: Delivery)
    requires OnePerHost(v, ports, out, value) && d.port !in ports
    requires d.value == value && HostAt(v, d.port) == Some((d.mac, d.ip))
    ensures OnePerHost(v, ports + {d.port}, out + [d], value)
  {
    forall p ensures SentTo(out + [d], p) == if p in ports + {d.port} then 1 else 0 {
      SentOne(out, d, p);
    }
  }

  function PortsOf(out: seq<Delivery>): set<Port> {
    set d | d in out :: d.port
  }

  lemma {:induction false} SentIffPort(out: seq<Delivery>, p: Port)
    ensures SentTo(out, p) > 0 <==> p in PortsOf(out)
  {
    if out != [] {
      var before, d := out[..|out| - 1], out[|out| - 1];
      SentIffPort(before, p);
      assert out == before + [d];
      assert d in out && forall x | x in before :: x in out;
    }
  }

  lemma {:induction false} SentMore(out: seq<Delivery>, i: nat, p: Port)
    requires i <= |out|
    ensures SentTo(out[..i], p) <= SentTo(out, p)
    ensures i < |out| && out[i].port == p ==> SentTo(out[..i], p) < SentTo(out, p)
    decreases |out|
  {
    if i < |out| {
      var before := out[..|out| - 1];
      SentMore(before, i, p);
      assert before[..i] == out[..i];
    } else {
      assert out[..i] == out;
    }
  }

  /** What was sent before delivery `i` went to hosts of their own, `out[i]`'s not among them. */
  lemma SentBefore(v: View, ports: set<Port>, out: seq<Delivery>, value: Option<Bytes>, i: nat)
    requires OnePerHost(v, ports, out, value) && i < |out|
    ensures OnePerHost(v, PortsOf(out[..i]), out[..i], value) && PortsOf(out[..i]) <= ports
    ensures out[i].port in ports - PortsOf(out[..i])
  {
    var before := out[..i];
    forall p ensures SentTo(before, p) == if p in PortsOf(before) then 1 else 0 {
      SentIffPort(before, p);
      SentMore(out, i, p);
    }
    forall p | p in PortsOf(before) ensures p in ports {
      SentIffPort(before, p);
      SentMore(out, i, p);
    }
    SentMore(out, i, out[i].port);
    SentIffPort(before, out[i].port);
    assert out[i] in out;
  }

  lemma OneMember(s: set<Mac>, a: Mac, b: Mac)
    requires |s| == 1 && a in s && b in s
    ensures a == b
  {
    SubsetSize({a, b}, s);
  }

  /** `mac` is learned on port `p`, and nothing else is. */
  predicate OnlyOn(macports: map<Mac, Port>, p: Port, mac: Mac) {
    mac in macports && macports[mac] == p && forall a | a in macports && macports[a] == p :: a == mac
  }

  lemma OnlyOnIff(macports: map<Mac, Port>, p: Port, mac: Mac)
    ensures OnlyOn(macports, p, mac) <==> |MacsOn(macports, p)| == 1 && mac in MacsOn(macports, p)
  {
    var macs := MacsOn(macports, p);
    if OnlyOn(macports, p, mac) {
      forall a ensures a in macs <==> a in {mac} {
      }
      assert macs == {mac};
    }
    if |macs| == 1 && mac in macs {
      forall a | a in macports && macports[a] == p ensures a == mac {
        assert a in macs;
        OneMember(macs, a, mac);
      }
    }
  }

  /** A host is the one address learned on a port that may have hosts, and its IP address is the one learned for
      that address. */
  lemma HostAddresses(v: View, p: Port, mac: Mac, ip: Ip)
    ensures HostAt(v, p) == Some((mac, ip)) <==>
            && p !in v.paxosPorts.Values && p <= HIGHEST_PORT
            && OnlyOn(v.macports, p, mac) && mac in v.macip && ip == v.macip[mac]
  {
    var macs := MacsOn(v.macports, p);
    OnlyOnIff(v.macports, p, mac);
    if |macs| == 1 {
      HasMember(macs);
      forall a, b | a in macs && b in macs ensures a == b {
        OneMember(macs, a, b);
      }
    }
  }

  /** Some hosts were served, each once, before one turned up that has a Paxos switch's address. */
  ghost predicate Interrupted(v: View, out: seq<Delivery>, value: Option<Bytes>) {
    && PortsOf(out) <= KnownHosts(v) && OnePerHost(v, PortsOf(out), out, value)
    && (forall d | d in out :: d.mac !in v.paxosPorts)
    && exists p | p in KnownHosts(v) - PortsOf(out) :: HostAt(v, p).value.0 in v.paxosPorts
  }

  /** A Paxos switch's address is the one address on some port that counts as a host's. */
  ghost predicate PaxosAmongHosts(v: View) {
    exists p | p in KnownHosts(v) :: HostAt(v, p).value.0 in v.paxosPorts
  }

  lemma NoPaxosServed(v: View, out: seq<Delivery>, value: Option<Bytes>)
    requires OnePerHost(v, KnownHosts(v), out, value) && forall d | d in out :: d.mac !in v.paxosPorts
    ensures !PaxosAmongHosts(v)
  {
    forall p | p in KnownHosts(v) ensures HostAt(v, p).value.0 !in v.paxosPorts {
      SentIffPort(out, p);
    }
  }

  /** Looking at one more port. */
  lemma OneMoreKnown(v: View, todo: set<Port>, p: Port)
    requires p in todo && todo <= v.ports
    ensures |KnownHosts(v) - (todo - {p})| == |KnownHosts(v) - todo| + if HostAt(v, p).Some? then 1 else 0
  {
    if HostAt(v, p).Some? {
      assert KnownHosts(v) - (todo - {p}) == (KnownHosts(v) - todo) + {p};
    } else {
      assert KnownHosts(v) - (todo - {p}) == KnownHosts(v) - todo;
    }
  }

  /** `process_message` returned True, returned False, or found a Paxos switch among the hosts. */
  datatype Outcome = Processed | Postponed | Raised

  class Deliverer {
    const ports: set<Port>
    const learning: BaselineController
    var paxosPorts: map<Mac, Port>
    var wanPort: Option<Port>
    var sent: seq<Delivery>

    ghost function Seen(): View
      reads this, learning
    {
      View(ports, paxosPorts, wanPort, learning.macports, learning.macip)
    }

    constructor (ports: set<Port>, learning: BaselineController)
      ensures this.ports == ports && this.learning == learning && paxosPorts == map[] && wanPort.None? && sent == []
    {
      this.ports, this.learning, paxosPorts, wanPort, sent := ports, learning, map[], None, [];
    }

    /** The tests both loops make of a port. */
    method HostBehind(p: Port) returns (host: Option<(Mac, Ip)>)
      ensures host == HostAt(Seen(), p)
    {
      if p in paxosPorts.Values || p > HIGHEST_PORT {
        return None;
      }
      var macs := learning.PortToMac(p);
      if |macs| != 1 {
        return None;
      }
      var mac := macs[0];
      assert mac in MacsOn(learning.macports, p);
      forall m | m in MacsOn(learning.macports, p) ensures m == mac {
        OneMember(MacsOn(learning.macports, p), m, mac);
      }
      var ip := learning.MacToIp(mac);
      host := if ip.None? then None else Some((mac, ip.value));
    }

    /** The loop of `host_addresses_known`. */
    method CountHosts() returns (count: nat)
      ensures count == |KnownHosts(Seen())|
    {
      count := 0;
      var todo := ports;
      ghost var v := Seen();
      while todo != {}
        invariant todo <= ports && count == |KnownHosts(v) - todo|
        decreases todo
      {
        HasMember(todo);
        var port :| port in todo;
        OneMoreKnown(v, todo, port);
        todo := todo - {port};
        var host := HostBehind(port);
        if host.Some? {
          count := count + 1;
        }
      }
      assert KnownHosts(v) - todo == KnownHosts(v);
    }

    method HostAddressesKnown() returns (known: bool)
      ensures known == AddressesKnown(Seen())
    {
      var count := CountHosts();
      var wanPorts := if wanPort.Some? then 1 else 0;
      var expected := |ports| - |paxosPorts.Values| - wanPorts - 1;
      known := count == expected;
    }

    /** `hosts`, each with the packet it is going to get. */
    method Hosts(value: Option<Bytes>) returns (out: seq<Delivery>)
      ensures OnePerHost(Seen(), KnownHosts(Seen()), out, value)
    {
      out := [];
      var todo := ports;
      ghost var found: set<Port> := {};
      while todo != {}
        invariant todo <= ports && found == KnownHosts(Seen()) - todo
        invariant OnePerHost(Seen(), found, out, value)
        decreases todo
      {
        HasMember(todo);
        var port :| port in todo;
        todo := todo - {port};
        var host := HostBehind(port);
        if host.Some? {
          var (mac, ip) := host.value;
          OneMoreHost(Seen(), found, out, value, Delivery(mac, ip, port, value));
          out := out + [Delivery(mac, ip, port, value)];
          found := found + {port};
        }
      }
      assert KnownHosts(Seen()) - todo == KnownHosts(Seen());
    }

    method ProcessMessage(value: Option<Bytes>) returns (outcome: Outcome, ghost out: seq<Delivery>)
      modifies this`sent
      ensures sent == old(sent) + out
      ensures outcome == Postponed <==> !AddressesKnown(Seen())
      ensures outcome == Postponed ==> out == []
      ensures outcome == Processed ==> OnePerHost(Seen(), KnownHosts(Seen()), out, value)
      ensures outcome == Raised ==> Interrupted(Seen(), out, value)
      ensures outcome == Raised <==> AddressesKnown(Seen()) && PaxosAmongHosts(Seen())
    {
      outcome, out := Processed, [];
      var known := HostAddressesKnown();
      if !known {
        outcome := Postponed;
        return;
      }
      var hosts := Hosts(value);
      for i := 0 to |hosts|
        invariant out == hosts[..i] && sent == old(sent) + out
        invariant forall d | d in out :: d.mac !in paxosPorts
      {
        if hosts[i].mac in paxosPorts {
          outcome := Raised;
          SentBefore(Seen(), KnownHosts(Seen()), hosts, value, i);
          assert hosts[i] in hosts;
          return;
        }
        sent := sent + [hosts[i]];
        out := out + [hosts[i]];
      }
      assert hosts[..|hosts|] == hosts;
      NoPaxosServed(Seen(), out, value);
    }
  }

  // ---- Which ports are hosts ----

  /** The ports as they are: one interface of the switch itself, and Paxos switches and clients on real,
      different ports. */
  ghost predicate WiredAsExpected(v: View) {
    && (exists own :: OwnInterface(v, own))
    && (forall p | p in v.paxosPorts.Values :: p in v.ports && p <= HIGHEST_PORT)
    && (v.wanPort.Some? ==>
          v.wanPort.value in v.ports && v.wanPort.value <= HIGHEST_PORT && v.wanPort.value !in v.paxosPorts.Values)
  }

  ghost predicate OwnInterface(v: View, own: Port) {
    own in v.ports && own > HIGHEST_PORT && forall p | p in v.ports && p > HIGHEST_PORT :: p == own
  }

  /** The ports that lead to hosts. */
  ghost function HostPorts(v: View): set<Port> {
    set p | p in v.ports && p <= HIGHEST_PORT && p !in v.paxosPorts.Values && v.wanPort != Some(p)
  }

  lemma PartsOfPorts(v: View, own: Port, wan: set<Port>)
    requires WiredAsExpected(v) && OwnInterface(v, own)
    requires wan == if v.wanPort.Some? then {v.wanPort.value} else {}
    ensures v.ports == HostPorts(v) + v.paxosPorts.Values + wan + {own}
    ensures HostPorts(v) !! v.paxosPorts.Values !! wan !! {own}
  {
    forall p ensures p in v.ports <==> p in HostPorts(v) + v.paxosPorts.Values + wan + {own} {
      assert p in v.paxosPorts.Values ==> p in v.ports;
      assert p in v.ports && p > HIGHEST_PORT ==> p == own;
    }
    assert own !in v.paxosPorts.Values;
  }

  lemma HostPortsCounted(v: View)
    requires WiredAsExpected(v)
    ensures |HostPorts(v)| == ExpectedHosts(v)
  {
    var own :| OwnInterface(v, own);
    var wan := if v.wanPort.Some? then {v.wanPort.value} else {};
    PartsOfPorts(v, own, wan);
    FourParts(v.ports, HostPorts(v), v.paxosPorts.Values, wan, {own});
  }

  lemma SameSize<T>(a: set<T>, b: set<T>)
    requires a <= b && |a| == |b|
    ensures a == b
  {
    assert b == a + (b - a);
  }

  /** The code does not rule out the client port itself, so the count can be right for the wrong ports: when
      all hosts are taken to be known, the ports served are exactly the hosts' if and only if the client port
      does not look like a host; if it does, the clients get the packet and one host port gets none. */
  lemma KnownMeansAllHosts(v: View)
    requires WiredAsExpected(v) && AddressesKnown(v)
    ensures KnownHosts(v) == HostPorts(v) <==> (v.wanPort.Some? ==> HostAt(v, v.wanPort.value).None?)
    ensures KnownHosts(v) != HostPorts(v) ==>
              v.wanPort.Some? && v.wanPort.value in KnownHosts(v) && |HostPorts(v) - KnownHosts(v)| == 1
  {
    HostPortsCounted(v);
    if v.wanPort.Some? && HostAt(v, v.wanPort.value).Some? {
      var wan := v.wanPort.value;
      assert wan in KnownHosts(v) && wan !in HostPorts(v);
      var served := KnownHosts(v) - {wan};
      assert served <= HostPorts(v);
      assert HostPorts(v) - KnownHosts(v) == HostPorts(v) - served;
      assert HostPorts(v) == served + (HostPorts(v) - served);
    } else {
      forall p | p in KnownHosts(v) ensures p in HostPorts(v) {
      }
      SameSize(KnownHosts(v), HostPorts(v));
    }
  }

  /** And then a packet goes to every host port exactly once, and to no other port. */
  lemma EveryHostOnce(v: View, out: seq<Delivery>, value: Option<Bytes>)
    requires WiredAsExpected(v) && AddressesKnown(v) && OnePerHost(v, KnownHosts(v), out, value)
    ensures (forall p :: SentTo(out, p) == if p in HostPorts(v) then 1 else 0) <==>
            (v.wanPort.Some? ==> HostAt(v, v.wanPort.value).None?)
  {
    KnownMeansAllHosts(v);
    if forall p :: SentTo(out, p) == if p in HostPorts(v) then 1 else 0 {
      forall p ensures p in KnownHosts(v) <==> p in HostPorts(v) {
        assert SentTo(out, p) == if p in HostPorts(v) then 1 else 0;
      }
      assert KnownHosts(v) == HostPorts(v);
    }
  }

  /** It happens: one client has been heard on its port, no host on the only host port. The clients get the
      packet, the host does not. */
  lemma ClientTakenForHost() returns (v: View)
    ensures WiredAsExpected(v) && AddressesKnown(v)
    ensures v.wanPort == Some(2) && KnownHosts(v) == {2} && HostPorts(v) == {3}
  {
    v := View({1, 2, 3, 65534}, map[10 := 1], Some(2), map[10 := 1, 20 := 2], map[20 := 7]);
    assert OwnInterface(v, 65534);
    assert v.paxosPorts[10] == 1 && v.paxosPorts.Values == {1};
    assert MacsOn(v.macports, 2) == {20} && MacsOn(v.macports, 3) == {};
    assert HostAt(v, 2).Some? && HostAt(v, 3).None?;
    assert KnownHosts(v) == {2};
    assert HostPorts(v) == {3};
  }
}
