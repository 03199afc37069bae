/** Learning switches, with or without flows, on an acyclic topology with hosts that stay where they are. */
module TreeForwarding {
  import opened Addresses
  import opened FlowCache
  import opened LearningSwitch
  import opened Sets
  import opened Tree
  import opened Wrappers

  /** Packet number `id`, about to enter switch `at` through `port`. */
  datatype Copy = Copy(id: nat, at: Dpid, port: Port)

  /** `packets` are those hosts have sent, `flying` is on the wires between switches, `got` is what hosts
      received; `visited` is history: which packets which switches have handled. */
  datatype Network = Network(
    switches: map<Dpid, Switch>,
    packets: seq<Packet>,
    flying: multiset<Copy>,
    got: multiset<(nat, Mac)>,
    visited: set<(nat, Dpid)>)

  datatype Event =
    | Send(packet: Packet)
    | Handle(copy: Copy, hit: Option<Match>)
    | FlowTimeout(u: Dpid, m: Match)
    | GoesDown(u: Dpid, heard: bool)
    | RestartsAt(u: Dpid, addFlows: bool, ips: bool, clear: bool)

  /** Switches may differ in whether they use flows, record IP addresses and start by clearing their table; one
      that does not clear it may find flows that point the right way. */
  ghost predicate IsInit(t: Topology, s: Network)
    requires Valid(t)
  {
    && s.switches.Keys == t.switches
    && (forall u | u in s.switches :: StartsAt(t, u, s.switches[u]))
    && s.packets == [] && s.flying == multiset{} && s.got == multiset{} && s.visited == {}
  }

  ghost predicate StartsAt(t: Topology, u: Dpid, sw: Switch)
    requires Valid(t) && u in t.switches
  {
    exists addFlows, ips, clear, stale ::
      sw == Start(addFlows, ips, clear, stale) && (clear || FlowsGood(HomesAt(t, u), stale))
  }

  /** The ports at switch `u` on the way to each host. */
  ghost function HomesAt(t: Topology, u: Dpid): Homes
    requires Valid(t) && u in t.switches
  {
    map h | h in t.home :: Toward(t, u, h)
  }

  /** Where a packet that came in on `ingress` leaves: never the way it came, whether sent to all ports or
      to that one (OpenFlow Switch Specification 1.0.0, section 3.3). */
  function OutPorts(t: Topology, u: Dpid, ingress: Port, out: Port): set<Port> {
    set w | w in t.wires && w.0 == u && w.1 != ingress && (out == OFPP_ALL || w.1 == out) :: w.1
  }

  function ToSwitches(t: Topology, id: nat, u: Dpid, ports: set<Port>): set<Copy> {
    set p | p in ports && (u, p) in t.wires && t.wires[(u, p)].Peer? ::
        Copy(id, t.wires[(u, p)].dpid, t.wires[(u, p)].port)
  }

  function ToHosts(t: Topology, id: nat, u: Dpid, ports: set<Port>): set<(nat, Mac)> {
    set p | p in ports && (u, p) in t.wires && t.wires[(u, p)].Host? :: (id, t.wires[(u, p)].mac)
  }

  predicate Enabled(t: Topology, s: Network, e: Event) {
    match e
    case Send(packet) => packet.src in t.home
    case Handle(c, hit) =>
      c in s.flying && c.id < |s.packets| && c.at in s.switches && Answers(s.switches[c.at], s.packets[c.id], hit)
    case FlowTimeout(u, _) => u in s.switches
    case GoesDown(u, _) => u in s.switches
    case RestartsAt(u, _, _, _) => u in s.switches
  }

  function Next(t: Topology, s: Network, e: Event): Network
    requires Enabled(t, s, e)
  {
    match e
    case Send(packet) =>
      var (u, p) := t.home[packet.src];
      s.(packets := s.packets + [packet], flying := s.flying + multiset{Copy(|s.packets|, u, p)})
    case Handle(c, hit) =>
      var (sw, out) := Receive(s.switches[c.at], s.packets[c.id], c.port, hit);
      var ports := OutPorts(t, c.at, c.port, out);
      Network(s.switches[c.at := sw], s.packets,
              s.flying - multiset{c} + multiset(ToSwitches(t, c.id, c.at, ports)),
              s.got + multiset(ToHosts(t, c.id, c.at, ports)),
              s.visited + {(c.id, c.at)})
    case FlowTimeout(u, m) => s.(switches := s.switches[u := Expire(s.switches[u], m)])
    case GoesDown(u, heard) => s.(switches := s.switches[u := Down(s.switches[u], heard)])
    case RestartsAt(u, addFlows, ips, clear) =>
      s.(switches := s.switches[u := Start(addFlows, ips, clear, s.switches[u].flows)])
  }

  ghost predicate Steps(t: Topology, s: Network, e: Event, s': Network) {
    Enabled(t, s, e) && s' == Next(t, s, e)
  }

  ghost predicate StepsAt(t: Topology, run: seq<Network>, events: seq<Event>, i: nat)
    requires |run| == |events| + 1 && i < |events|
  {
    Steps(t, run[i], events[i], run[i + 1])
  }

  ghost predicate IsRun(t: Topology, run: seq<Network>, events: seq<Event>)
    requires Valid(t)
  {
    && |run| == |events| + 1
    && IsInit(t, run[0])
    && forall i | 0 <= i < |events| :: StepsAt(t, run, events, i)
  }

  // ---- What every step keeps ----

  ghost predicate SwitchesFine(t: Topology, switches: map<Dpid, Switch>)
    requires Valid(t)
  {
    switches.Keys == t.switches && forall u | u in switches :: CacheInv(HomesAt(t, u), switches[u])
  }

  /** The packet was at the previous switch on the way from its sender. */
  ghost predicate Came(t: Topology, packets: seq<Packet>, visited: set<(nat, Dpid)>, id: nat, u: Dpid)
    requires Valid(t) && id < |packets| && packets[id].src in t.home && u in t.switches
  {
    var x := t.home[packets[id].src].0;
    u == x || (id, NextHop(t, u, x)) in visited
  }

  ghost predicate CopyFine(t: Topology, packets: seq<Packet>, visited: set<(nat, Dpid)>, c: Copy)
    requires Valid(t)
  {
    && c.id < |packets| && packets[c.id].src in t.home && c.at in t.switches
    && c.port == Toward(t, c.at, packets[c.id].src)
    && (c.id, c.at) !in visited
    && Came(t, packets, visited, c.id, c.at)
  }

  ghost predicate VisitFine(t: Topology, packets: seq<Packet>, visited: set<(nat, Dpid)>, x: (nat, Dpid))
    requires Valid(t)
  {
    x.0 < |packets| && packets[x.0].src in t.home && x.1 in t.switches && Came(t, packets, visited, x.0, x.1)
  }

  /** No copy exists twice, and copies travel away from their sender. */
  ghost predicate TrafficFine(t: Topology, packets: seq<Packet>, flying: multiset<Copy>, visited: set<(nat, Dpid)>)
    requires Valid(t)
  {
    && (forall k | 0 <= k < |packets| :: packets[k].src in t.home)
    && (forall c | c in flying :: flying[c] == 1 && CopyFine(t, packets, visited, c))
    && (forall x | x in visited :: VisitFine(t, packets, visited, x))
  }

  /** A host receives a packet at most once, never its own, and only from its own switch. */
  ghost predicate GotFine(t: Topology, packets: seq<Packet>, got: multiset<(nat, Mac)>, visited: set<(nat, Dpid)>) {
    forall x | x in got ::
      got[x] == 1 && x.0 < |packets| && x.1 in t.home && x.1 != packets[x.0].src && (x.0, t.home[x.1].0) in visited
  }

  /** Host `h` is to receive the packet: it is for `h`, or for no host in particular. */
  ghost predicate Wanted(t: Topology, packet: Packet, h: Mac) {
    h in t.home && h != packet.src && (packet.dst == h || packet.dst !in t.home)
  }

  /** A copy of packet `k` is where going on to `h` is not going back. */
  ghost predicate OnTheWay(t: Topology, flying: multiset<Copy>, k: nat, h: Mac)
    requires Valid(t) && h in t.home
  {
    exists c | c in flying :: c.id == k && c.at in t.switches && Toward(t, c.at, h) != c.port
  }

  ghost predicate Arriving(t: Topology, flying: multiset<Copy>, got: multiset<(nat, Mac)>, visited: set<(nat, Dpid)>,
                           k: nat, h: Mac)
    requires Valid(t) && h in t.home
  {
    if (k, t.home[h].0) in visited then got[(k, h)] == 1 else OnTheWay(t, flying, k, h)
  }

  ghost predicate AllArriving(t: Topology, s: Network)
    requires Valid(t)
  {
    forall k: nat, h | k < |s.packets| && h in t.home && Wanted(t, s.packets[k], h) ::
      Arriving(t, s.flying, s.got, s.visited, k, h)
  }

  ghost predicate Inv(t: Topology, s: Network) {
    && Valid(t)
    && SwitchesFine(t, s.switches)
    && TrafficFine(t, s.packets, s.flying, s.visited)
    && GotFine(t, s.packets, s.got, s.visited)
    && AllArriving(t, s)
  }

  // ---- A switch handles a copy ----

  lemma SwitchReplaced(t: Topology, switches: map<Dpid, Switch>, u: Dpid, sw: Switch)
    requires Valid(t) && SwitchesFine(t, switches) && u in t.switches && CacheInv(HomesAt(t, u), sw)
    ensures SwitchesFine(t, switches[u := sw])
  {
  }

  /** The packet is flooded or goes on toward its destination. */
  lemma HandledFine(t: Topology, sw: Switch, packet: Packet, c: Copy, hit: Option<Match>)
    requires Valid(t) && c.at in t.switches && CacheInv(HomesAt(t, c.at), sw) && Answers(sw, packet, hit)
    requires packet.src in t.home && c.port == Toward(t, c.at, packet.src)
    ensures var (sw', out) := Receive(sw, packet, c.port, hit);
            && CacheInv(HomesAt(t, c.at), sw')
            && (out == OFPP_ALL || (packet.dst in t.home && out == Toward(t, c.at, packet.dst)))
  {
    var homes := HomesAt(t, c.at);
    assert packet.src in homes && homes[packet.src] == c.port;
    ReceiveKeeps(homes, sw, packet, c.port, hit);
  }

  /** What leaves switch `c.at` for other switches is new there. */
  lemma NewCopyFine(t: Topology, packets: seq<Packet>, flying: multiset<Copy>, visited: set<(nat, Dpid)>,
                    c: Copy, out: Port, d: Copy)
    requires Valid(t) && TrafficFine(t, packets, flying, visited) && c in flying
    requires d in ToSwitches(t, c.id, c.at, OutPorts(t, c.at, c.port, out))
    ensures CopyFine(t, packets, visited + {(c.id, c.at)}, d) && d !in flying
  {
    var src := packets[c.id].src;
    assert CopyFine(t, packets, visited, c);
    var p :| p in OutPorts(t, c.at, c.port, out) && (c.at, p) in t.wires && t.wires[(c.at, p)].Peer?
      && d == Copy(c.id, t.wires[(c.at, p)].dpid, t.wires[(c.at, p)].port);
    AwayComesBack(t, c.at, p, src);
    assert !Came(t, packets, visited, c.id, d.at);
    assert (c.id, d.at) in visited ==> VisitFine(t, packets, visited, (c.id, d.at));
  }

  lemma TrafficKept(t: Topology, packets: seq<Packet>, flying: multiset<Copy>, visited: set<(nat, Dpid)>, c: Copy,
      out: Port)
    requires Valid(t) && TrafficFine(t, packets, flying, visited) && c in flying
    ensures var ports := OutPorts(t, c.at, c.port, out);
            TrafficFine(t, packets, flying - multiset{c} + multiset(ToSwitches(t, c.id, c.at, ports)),
                        visited + {(c.id, c.at)})
  {
    var more := ToSwitches(t, c.id, c.at, OutPorts(t, c.at, c.port, out));
    var flying' := flying - multiset{c} + multiset(more);
    var visited' := visited + {(c.id, c.at)};
    assert CopyFine(t, packets, visited, c);
    forall d | d in flying' ensures flying'[d] == 1 && CopyFine(t, packets, visited', d) {
      if d in more {
        NewCopyFine(t, packets, flying, visited, c, out, d);
      } else {
        assert d in flying && d != c && CopyFine(t, packets, visited, d);
      }
    }
    forall x | x in visited' ensures VisitFine(t, packets, visited', x) {
      assert x in visited ==> VisitFine(t, packets, visited, x);
    }
  }

  lemma GotKept(t: Topology, packets: seq<Packet>, flying: multiset<Copy>, got: multiset<(nat, Mac)>,
                visited: set<(nat, Dpid)>, c: Copy, out: Port)
    requires Valid(t) && TrafficFine(t, packets, flying, visited) && GotFine(t, packets, got, visited) && c in flying
    ensures var ports := OutPorts(t, c.at, c.port, out);
            GotFine(t, packets, got + multiset(ToHosts(t, c.id, c.at, ports)), visited + {(c.id, c.at)})
  {
    var more := ToHosts(t, c.id, c.at, OutPorts(t, c.at, c.port, out));
    assert CopyFine(t, packets, visited, c);
    forall x | x in more
      ensures x !in got && x.0 == c.id && x.1 in t.home && x.1 != packets[c.id].src && t.home[x.1].0 == c.at
    {
      var p :| p in OutPorts(t, c.at, c.port, out) && (c.at, p) in t.wires && t.wires[(c.at, p)].Host?
        && x == (c.id, t.wires[(c.at, p)].mac);
      assert EndFine(t, c.at, p, t.wires[(c.at, p)]);
    }
  }

  /** The home switch of a host that wants the packet hands it over. */
  lemma HandedOver(t: Topology, packets: seq<Packet>, c: Copy, out: Port, h: Mac)
    requires Valid(t) && c.id < |packets| && packets[c.id].src in t.home && Wanted(t, packets[c.id], h)
    requires c.at == t.home[h].0 && c.at in t.switches && c.port == Toward(t, c.at, packets[c.id].src)
    requires out == OFPP_ALL || (packets[c.id].dst in t.home && out == Toward(t, c.at, packets[c.id].dst))
    ensures (c.id, h) in ToHosts(t, c.id, c.at, OutPorts(t, c.at, c.port, out))
  {
    var p := t.home[h].1;
    OwnPort(t, h, packets[c.id].src);
    assert t.home[h] in t.wires && t.wires[(c.at, p)] == Host(h);
    assert (c.at, p).1 in OutPorts(t, c.at, c.port, out);
  }

  /** Any other switch on the way passes it on, along the way. */
  lemma PassedOn(t: Topology, packets: seq<Packet>, c: Copy, out: Port, h: Mac) returns (d: Copy)
    requires Valid(t) && c.id < |packets| && packets[c.id].src in t.home && Wanted(t, packets[c.id], h)
    requires c.at != t.home[h].0 && c.at in t.switches && c.port != Toward(t, c.at, h)
    requires out == OFPP_ALL || (packets[c.id].dst in t.home && out == Toward(t, c.at, packets[c.id].dst))
    ensures d in ToSwitches(t, c.id, c.at, OutPorts(t, c.at, c.port, out))
    ensures d.id == c.id && d.at in t.switches && Toward(t, d.at, h) != d.port
  {
    var p := Toward(t, c.at, h);
    OnwardNotBack(t, c.at, h);
    assert (c.at, p).1 in OutPorts(t, c.at, c.port, out);
    d := Copy(c.id, t.wires[(c.at, p)].dpid, t.wires[(c.at, p)].port);
  }

  /** A way that does not begin at the copy stays; one that does goes on. */
  lemma WayKept(t: Topology, packets: seq<Packet>, flying: multiset<Copy>, c: Copy, out: Port, k: nat, h: Mac)
    requires Valid(t) && k < |packets| && packets[k].src in t.home && Wanted(t, packets[k], h)
    requires OnTheWay(t, flying, k, h) && (k, t.home[h].0) != (c.id, c.at)
    requires c.id == k && out != OFPP_ALL ==>
               packets[k].dst in t.home && c.at in t.switches && out == Toward(t, c.at, packets[k].dst)
    ensures OnTheWay(t, flying - multiset{c} + multiset(ToSwitches(t, c.id, c.at, OutPorts(t, c.at, c.port, out))),
            k, h)
  {
    var flying' := flying - multiset{c} + multiset(ToSwitches(t, c.id, c.at, OutPorts(t, c.at, c.port, out)));
    var b :| b in flying && b.id == k && b.at in t.switches && Toward(t, b.at, h) != b.port;
    if b == c {
      var d := PassedOn(t, packets, c, out, h);
      assert d in flying';
    } else {
      assert b in flying';
    }
  }

  lemma ArrivingKept(t: Topology, packets: seq<Packet>, flying: multiset<Copy>, got: multiset<(nat, Mac)>,
                     visited: set<(nat, Dpid)>, c: Copy, out: Port, k: nat, h: Mac)
    requires Valid(t) && GotFine(t, packets, got, visited)
    requires k < |packets| && packets[k].src in t.home && Wanted(t, packets[k], h)
    requires Arriving(t, flying, got, visited, k, h) && CopyFine(t, packets, visited, c)
    requires out == OFPP_ALL || (packets[c.id].dst in t.home && out == Toward(t, c.at, packets[c.id].dst))
    requires var ports := OutPorts(t, c.at, c.port, out);
             GotFine(t, packets, got + multiset(ToHosts(t, c.id, c.at, ports)), visited + {(c.id, c.at)})
    ensures var ports := OutPorts(t, c.at, c.port, out);
            Arriving(t, flying - multiset{c} + multiset(ToSwitches(t, c.id, c.at, ports)),
                     got + multiset(ToHosts(t, c.id, c.at, ports)), visited + {(c.id, c.at)}, k, h)
  {
    var got' := got + multiset(ToHosts(t, c.id, c.at, OutPorts(t, c.at, c.port, out)));
    if (k, t.home[h].0) in visited {
      assert (k, h) in got';
    } else if (k, t.home[h].0) == (c.id, c.at) {
      HandedOver(t, packets, c, out, h);
      assert (k, h) in got';
    } else {
      WayKept(t, packets, flying, c, out, k, h);
    }
  }

  lemma HandleKeeps(t: Topology, s: Network, c: Copy, hit: Option<Match>)
    requires Inv(t, s) && Enabled(t, s, Handle(c, hit))
    ensures Inv(t, Next(t, s, Handle(c, hit)))
  {
    var s' := Next(t, s, Handle(c, hit));
    var (sw', out) := Receive(s.switches[c.at], s.packets[c.id], c.port, hit);
    assert CopyFine(t, s.packets, s.visited, c);
    HandledFine(t, s.switches[c.at], s.packets[c.id], c, hit);
    SwitchReplaced(t, s.switches, c.at, sw');
    TrafficKept(t, s.packets, s.flying, s.visited, c, out);
    GotKept(t, s.packets, s.flying, s.got, s.visited, c, out);
    forall k: nat, h | k < |s'.packets| && h in t.home && Wanted(t, s'.packets[k], h)
      ensures Arriving(t, s'.flying, s'.got, s'.visited, k, h)
    {
      ArrivingKept(t, s.packets, s.flying, s.got, s.visited, c, out, k, h);
    }
  }

  // ---- A host sends ----

  lemma SendTraffic(t: Topology, packets: seq<Packet>, flying: multiset<Copy>, visited: set<(nat, Dpid)>,
      packet: Packet)
    requires Valid(t) && TrafficFine(t, packets, flying, visited) && packet.src in t.home
    ensures var (u, p) := t.home[packet.src];
            TrafficFine(t, packets + [packet], flying + multiset{Copy(|packets|, u, p)}, visited)
  {
    var packets' := packets + [packet];
    var (u, p) := t.home[packet.src];
    var c := Copy(|packets|, u, p);
    assert t.home[packet.src] in t.wires;
    assert c in flying ==> CopyFine(t, packets, visited, c);
    forall d | d in flying ensures CopyFine(t, packets', visited, d) {
      assert CopyFine(t, packets, visited, d);
    }
    assert (|packets|, u) in visited ==> VisitFine(t, packets, visited, (|packets|, u));
    forall x | x in visited ensures VisitFine(t, packets', visited, x) {
      assert VisitFine(t, packets, visited, x);
    }
  }

  lemma WayLonger(t: Topology, flying: multiset<Copy>, c: Copy, k: nat, h: Mac)
    requires Valid(t) && h in t.home && OnTheWay(t, flying, k, h)
    ensures OnTheWay(t, flying + multiset{c}, k, h)
  {
    var b :| b in flying && b.id == k && b.at in t.switches && Toward(t, b.at, h) != b.port;
    assert b in flying + multiset{c};
  }

  lemma WayBegins(t: Topology, flying: multiset<Copy>, src: Mac, k: nat, h: Mac)
    requires Valid(t) && src in t.home && h in t.home && h != src
    ensures var (u, p) := t.home[src]; OnTheWay(t, flying + multiset{Copy(k, u, p)}, k, h)
  {
    var (u, p) := t.home[src];
    OwnPort(t, src, h);
    assert Copy(k, u, p) in flying + multiset{Copy(k, u, p)};
  }

  lemma SendArriving(t: Topology, s: Network, packet: Packet, k: nat, h: Mac)
    requires Valid(t) && TrafficFine(t, s.packets, s.flying, s.visited) && AllArriving(t, s) && packet.src in t.home
    requires k <= |s.packets| && h in t.home && Wanted(t, (s.packets + [packet])[k], h)
    ensures var (u, p) := t.home[packet.src];
            Arriving(t, s.flying + multiset{Copy(|s.packets|, u, p)}, s.got, s.visited, k, h)
  {
    var (u, p) := t.home[packet.src];
    if k < |s.packets| {
      assert Arriving(t, s.flying, s.got, s.visited, k, h);
      if (k, t.home[h].0) !in s.visited {
        WayLonger(t, s.flying, Copy(|s.packets|, u, p), k, h);
      }
    } else {
      assert (k, t.home[h].0) in s.visited ==> VisitFine(t, s.packets, s.visited, (k, t.home[h].0));
      WayBegins(t, s.flying, packet.src, k, h);
    }
  }

  lemma SendAllArriving(t: Topology, s: Network, packet: Packet)
    requires Inv(t, s) && packet.src in t.home
    ensures var s' := Next(t, s, Send(packet));
            forall k: nat, h | k < |s'.packets| && h in t.home && Wanted(t, s'.packets[k], h) ::
              Arriving(t, s'.flying, s'.got, s'.visited, k, h)
  {
    var s' := Next(t, s, Send(packet));
    forall k: nat, h | k < |s'.packets| && h in t.home && Wanted(t, s'.packets[k], h)
      ensures Arriving(t, s'.flying, s'.got, s'.visited, k, h)
    {
      SendArriving(t, s, packet, k, h);
    }
  }

  lemma SendKeeps(t: Topology, s: Network, packet: Packet)
    requires Inv(t, s) && packet.src in t.home
    ensures Inv(t, Next(t, s, Send(packet)))
  {
    var s' := Next(t, s, Send(packet));
    SendTraffic(t, s.packets, s.flying, s.visited, packet);
    SendAllArriving(t, s, packet);
    assert forall x | x in s.got :: s'.packets[x.0] == s.packets[x.0];
  }

  lemma StepInv(t: Topology, s: Network, e: Event)
    requires Inv(t, s) && Enabled(t, s, e)
    ensures Inv(t, Next(t, s, e))
  {
    match e
    case Send(packet) => SendKeeps(t, s, packet);
    case Handle(c, hit) => HandleKeeps(t, s, c, hit);
    case FlowTimeout(u, m) =>
    case GoesDown(u, heard) =>
    case RestartsAt(u, addFlows, ips, clear) =>
      StartsGood(HomesAt(t, u), addFlows, ips, clear, s.switches[u].flows);
      SwitchReplaced(t, s.switches, u, Start(addFlows, ips, clear, s.switches[u].flows));
  }

  lemma InitInv(t: Topology, s: Network)
    requires Valid(t) && IsInit(t, s)
    ensures Inv(t, s)
  {
    forall u | u in s.switches ensures CacheInv(HomesAt(t, u), s.switches[u]) {
      assert StartsAt(t, u, s.switches[u]);
      var addFlows, ips, clear, stale :|
        s.switches[u] == Start(addFlows, ips, clear, stale) && (clear || FlowsGood(HomesAt(t, u), stale));
      StartsGood(HomesAt(t, u), addFlows, ips, clear, stale);
    }
  }

  lemma {:induction false} RunInv(t: Topology, run: seq<Network>, events: seq<Event>, i: nat)
    requires Valid(t) && IsRun(t, run, events) && i < |run|
    ensures Inv(t, run[i])
  {
    if i == 0 {
      InitInv(t, run[0]);
    } else {
      RunInv(t, run, events, i - 1);
      assert StepsAt(t, run, events, i - 1);
      StepInv(t, run[i - 1], events[i - 1]);
    }
  }

  // ---- What runs guarantee ----

  lemma CacheTheWay(t: Topology, u: Dpid, sw: Switch)
    requires Valid(t) && u in t.switches && CacheInv(HomesAt(t, u), sw)
    ensures forall h | h in sw.ctrl.macports :: h in t.home && sw.ctrl.macports[h] == Toward(t, u, h)
    ensures forall m | m in sw.flows && m.src.Some? ::
              m.src.value in t.home && m.dst in t.home && sw.flows[m] == Toward(t, u, m.dst)
    ensures forall m | m in sw.flows && m.src.None? :: m.dst == BROADCAST && sw.flows[m] == OFPP_ALL
  {
    var homes, macports := HomesAt(t, u), sw.ctrl.macports;
    forall h | h in macports ensures h in t.home && macports[h] == Toward(t, u, h) {
      assert h in homes && macports[h] == homes[h];
    }
    forall m | m in sw.flows && m.src.Some?
      ensures m.src.value in t.home && m.dst in t.home && sw.flows[m] == Toward(t, u, m.dst)
    {
      var a := m.src.value;
      assert GoodFlow(homes, m, sw.flows[m]);
      assert a in homes && m.dst in homes && homes[m.dst] == Toward(t, u, m.dst);
    }
  }

  /** Whatever a switch has learned, and every flow it uses for one host, points along the way to that host. */
  lemma LearnedTheWay(t: Topology, run: seq<Network>, events: seq<Event>, i: nat, u: Dpid)
    requires Valid(t) && IsRun(t, run, events) && i < |run| && u in t.switches
    ensures u in run[i].switches
    ensures var sw := run[i].switches[u];
            && (forall h | h in sw.ctrl.macports :: h in t.home && sw.ctrl.macports[h] == Toward(t, u, h))
            && (forall m | m in sw.flows && m.src.Some? ::
                  m.src.value in t.home && m.dst in t.home && sw.flows[m] == Toward(t, u, m.dst))
            && (forall m | m in sw.flows && m.src.None? :: m.dst == BROADCAST && sw.flows[m] == OFPP_ALL)
  {
    RunInv(t, run, events, i);
    CacheTheWay(t, u, run[i].switches[u]);
  }

  /** How often switches have handled packet `k`. */
  function Hops(events: seq<Event>, k: nat): nat {
    if events == [] then
      0
    else
      var e := events[|events| - 1];
      Hops(events[..|events| - 1], k) + if e.Handle? && e.copy.id == k then 1 else 0
  }

  ghost function VisitedBy(s: Network, k: nat): set<Dpid> {
    set x | x in s.visited && x.0 == k :: x.1
  }

  lemma VisitedMore(s: Network, s': Network, k: nat, u: Dpid, j: nat)
    requires s'.visited == s.visited + {(k, u)} && (k, u) !in s.visited
    ensures |VisitedBy(s', j)| == |VisitedBy(s, j)| + if j == k then 1 else 0
  {
    forall v | v in VisitedBy(s, j) ensures v in VisitedBy(s', j) {
      assert (j, v) in s'.visited;
    }
    if j == k {
      assert (k, u) in s'.visited;
      assert VisitedBy(s', j) == VisitedBy(s, j) + {u};
      InsertSize(VisitedBy(s, j), u);
    } else {
      assert VisitedBy(s', j) == VisitedBy(s, j);
    }
  }

  lemma VisitedStep(t: Topology, s: Network, e: Event, s': Network, k: nat)
    requires Valid(t) && TrafficFine(t, s.packets, s.flying, s.visited) && Steps(t, s, e, s')
    ensures |VisitedBy(s', k)| == |VisitedBy(s, k)| + if e.Handle? && e.copy.id == k then 1 else 0
  {
    if e.Handle? {
      assert CopyFine(t, s.packets, s.visited, e.copy);
      VisitedMore(s, s', e.copy.id, e.copy.at, k);
    }
  }

  lemma HopsStep(events: seq<Event>, i: nat, k: nat)
    requires 0 < i <= |events|
    ensures Hops(events[..i], k) ==
            Hops(events[..i - 1], k) + if events[i - 1].Handle? && events[i - 1].copy.id == k then 1 else 0
  {
    assert events[..i][..i - 1] == events[..i - 1];
  }

  lemma RunVisits(t: Topology, run: seq<Network>, events: seq<Event>, i: nat, k: nat)
    requires Valid(t) && IsRun(t, run, events) && 0 < i < |run|
    ensures |VisitedBy(run[i], k)| ==
            |VisitedBy(run[i - 1], k)| + if events[i - 1].Handle? && events[i - 1].copy.id == k then 1 else 0
  {
    RunInv(t, run, events, i - 1);
    assert StepsAt(t, run, events, i - 1);
    VisitedStep(t, run[i - 1], events[i - 1], run[i], k);
  }

  lemma {:induction false} HopsVisited(t: Topology, run: seq<Network>, events: seq<Event>, i: nat, k: nat)
    requires Valid(t) && IsRun(t, run, events) && i < |run|
    ensures Hops(events[..i], k) == |VisitedBy(run[i], k)|
  {
    if i == 0 {
      assert VisitedBy(run[0], k) == {};
    } else {
      HopsVisited(t, run, events, i - 1, k);
      HopsStep(events, i, k);
      RunVisits(t, run, events, i, k);
    }
  }

  /** A packet is handled at most once at each switch, so it stops after finitely many hops. */
  lemma FinitelyManyHops(t: Topology, run: seq<Network>, events: seq<Event>, i: nat, k: nat)
    requires Valid(t) && IsRun(t, run, events) && i < |run|
    ensures Hops(events[..i], k) <= |t.switches|
  {
    HopsVisited(t, run, events, i, k);
    RunInv(t, run, events, i);
    forall u | u in VisitedBy(run[i], k) ensures u in t.switches {
      assert VisitFine(t, run[i].packets, run[i].visited, (k, u));
    }
    SubsetSize(VisitedBy(run[i], k), t.switches);
  }

  lemma SomethingAnswers(sw: Switch, packet: Packet) returns (hit: Option<Match>)
    ensures Answers(sw, packet, hit)
  {
    if m :| m in sw.flows && Matches(m, packet) {
      hit := Some(m);
    } else {
      hit := None;
    }
  }

  /** As long as a copy is on a wire, its switch can handle it. */
  lemma NothingGetsStuck(t: Topology, run: seq<Network>, events: seq<Event>, i: nat, c: Copy)
    returns (hit: Option<Match>)
    requires Valid(t) && IsRun(t, run, events) && i < |run| && c in run[i].flying
    ensures Enabled(t, run[i], Handle(c, hit))
  {
    RunInv(t, run, events, i);
    assert CopyFine(t, run[i].packets, run[i].visited, c);
    hit := SomethingAnswers(run[i].switches[c.at], run[i].packets[c.id]);
  }

  /** Once nothing is on the wires: a packet for a host has reached it exactly once; a broadcast, or a packet
      for an address nobody has, has reached every host but its sender exactly once; no host has received
      anything twice, or its own. */
  lemma DeliveredOnce(t: Topology, run: seq<Network>, events: seq<Event>, i: nat, k: nat, h: Mac)
    requires Valid(t) && IsRun(t, run, events) && i < |run| && k < |run[i].packets| && h in t.home
    ensures run[i].got[(k, h)] <= 1
    ensures h == run[i].packets[k].src ==> run[i].got[(k, h)] == 0
    ensures run[i].flying == multiset{} && Wanted(t, run[i].packets[k], h) ==> run[i].got[(k, h)] == 1
  {
    RunInv(t, run, events, i);
    if Wanted(t, run[i].packets[k], h) {
      assert Arriving(t, run[i].flying, run[i].got, run[i].visited, k, h);
    }
  }
}
