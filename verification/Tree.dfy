/** An acyclic topology of switches and hosts, and the one way from a switch to a host. */
module Tree {
  import opened Addresses
  import opened LearningSwitch

  type Dpid = int

  /** What a switch port is wired to. */
  datatype End = Host(mac: Mac) | Peer(dpid: Dpid, port: Port)

  /** Every switch but one has a switch above it, `up`, nearer to the top by `rank`; `uplink` are the
      ports at the lower and the upper end of that wire. There are no other wires between switches. */
  datatype Topology = Topology(
    switches: set<Dpid>,
    up: map<Dpid, Dpid>,
    rank: map<Dpid, nat>,
    uplink: map<Dpid, (Port, Port)>,
    home: map<Mac, (Dpid, Port)>,
    wires: map<(Dpid, Port), End>)

  ghost predicate IsTree(t: Topology) {
    && t.rank.Keys == t.switches && t.up.Keys <= t.switches && t.uplink.Keys == t.up.Keys
    && (forall u | u in t.up :: t.up[u] in t.switches && t.rank[t.up[u]] < t.rank[u])
    && (forall u, v | u in t.switches - t.up.Keys && v in t.switches - t.up.Keys :: u == v)
  }

  /** The wire between a switch and the one above it, seen from below or from above. */
  predicate Uplink(t: Topology, u: Dpid, p: Port, v: Dpid, q: Port) {
    u in t.up && t.up[u] == v && u in t.uplink && t.uplink[u] == (p, q)
  }

  ghost predicate EndFine(t: Topology, u: Dpid, p: Port, end: End) {
    match end
    case Host(h) => h in t.home && t.home[h] == (u, p)
    case Peer(v, q) => Uplink(t, u, p, v, q) || Uplink(t, v, q, u, p)
  }

  ghost predicate EndsFine(t: Topology) {
    forall w | w in t.wires :: w.0 in t.switches && w.1 != OFPP_ALL && EndFine(t, w.0, w.1, t.wires[w])
  }

  ghost predicate HostsWired(t: Topology) {
    forall h | h in t.home :: t.home[h] in t.wires && t.wires[t.home[h]] == Host(h)
  }

  ghost predicate UplinksWired(t: Topology) {
    forall u | u in t.up ::
      && u in t.uplink
      && (u, t.uplink[u].0) in t.wires && t.wires[(u, t.uplink[u].0)] == Peer(t.up[u], t.uplink[u].1)
      && (t.up[u], t.uplink[u].1) in t.wires && t.wires[(t.up[u], t.uplink[u].1)] == Peer(u, t.uplink[u].0)
  }

  ghost predicate IsWired(t: Topology) {
    EndsFine(t) && HostsWired(t) && UplinksWired(t)
  }

  /** No host has the broadcast address. */
  ghost predicate Valid(t: Topology) {
    IsTree(t) && IsWired(t) && BROADCAST !in t.home
  }

  // ---- Switches ----

  /** `x` is `u` or below it. */
  predicate Under(t: Topology, u: Dpid, x: Dpid)
    requires IsTree(t) && x in t.switches
    decreases t.rank[x]
  {
    x == u || (x in t.up && Under(t, u, t.up[x]))
  }

  lemma {:induction false} UnderRank(t: Topology, u: Dpid, x: Dpid)
    requires IsTree(t) && u in t.switches && x in t.switches && Under(t, u, x)
    ensures t.rank[u] <= t.rank[x]
    decreases t.rank[x]
  {
    if x != u {
      UnderRank(t, u, t.up[x]);
    }
  }

  lemma {:induction false} AllUnderTop(t: Topology, u: Dpid, x: Dpid)
    requires IsTree(t) && u in t.switches && u !in t.up && x in t.switches
    ensures Under(t, u, x)
    decreases t.rank[x]
  {
    if x in t.up {
      AllUnderTop(t, u, t.up[x]);
    } else {
      assert x in t.switches - t.up.Keys && u in t.switches - t.up.Keys;
    }
  }

  /** The switch right below `u` that `x` is at or under. */
  function Below(t: Topology, u: Dpid, x: Dpid): (c: Dpid)
    requires IsTree(t) && x in t.switches && x != u && Under(t, u, x)
    ensures c in t.up && t.up[c] == u && Under(t, c, x)
    decreases t.rank[x]
  {
    if t.up[x] == u then x else Below(t, u, t.up[x])
  }

  lemma {:induction false} BelowUnique(t: Topology, c: Dpid, x: Dpid)
    requires IsTree(t) && c in t.up && x in t.switches && Under(t, c, x)
    ensures x != t.up[c] && Under(t, t.up[c], x) && Below(t, t.up[c], x) == c
    decreases t.rank[x]
  {
    UnderRank(t, c, x);
    if x == c {
      assert Under(t, t.up[c], t.up[c]);
    } else {
      BelowUnique(t, c, t.up[x]);
    }
  }

  ghost predicate Adjacent(t: Topology, u: Dpid, v: Dpid) {
    (u in t.up && t.up[u] == v) || (v in t.up && t.up[v] == u)
  }

  /** The neighbour of `u` on the way to switch `x`. */
  ghost function NextHop(t: Topology, u: Dpid, x: Dpid): (v: Dpid)
    requires IsTree(t) && u in t.switches && x in t.switches && u != x
    ensures v in t.switches && Adjacent(t, u, v) && (Under(t, u, x) || u in t.up)
  {
    if Under(t, u, x) then
      Below(t, u, x)
    else
      assert u in t.up by {
        if u !in t.up {
          AllUnderTop(t, u, x);
        }
      }
      t.up[u]
  }

  /** Every neighbour but the next hop sends back through here. */
  lemma OthersComeBack(t: Topology, u: Dpid, v: Dpid, x: Dpid)
    requires IsTree(t) && u in t.switches && v in t.switches && x in t.switches && Adjacent(t, u, v)
    requires u == x || v != NextHop(t, u, x)
    ensures v != x && NextHop(t, v, x) == u
  {
    if u in t.up && t.up[u] == v {
      assert Under(t, u, x);
      BelowUnique(t, u, x);
    } else if Under(t, v, x) {
      BelowUnique(t, v, x);
    }
  }

  /** The next hop goes on, never back. */
  lemma NeverBack(t: Topology, u: Dpid, x: Dpid)
    requires IsTree(t) && u in t.switches && x in t.switches && u != x
    ensures var v := NextHop(t, u, x); v == x || NextHop(t, v, x) != u
  {
    var v := NextHop(t, u, x);
    if v != x {
      var w := NextHop(t, v, x);
      if Under(t, u, x) {
        assert t.up[v] == u && t.up[w] == v;
      } else if !Under(t, v, x) {
        assert t.up[u] == v && t.up[v] == w;
      }
    }
  }

  /** A walk along wires that never turns straight back. */
  ghost predicate IsWalk(t: Topology, walk: seq<Dpid>) {
    && (forall i | 0 <= i < |walk| :: walk[i] in t.switches)
    && (forall i | 0 < i < |walk| :: Adjacent(t, walk[i - 1], walk[i]))
    && (forall i | 1 < i < |walk| :: walk[i] != walk[i - 2])
  }

  lemma {:induction false} StrayWalk(t: Topology, walk: seq<Dpid>, x: Dpid, i: nat)
    requires IsTree(t) && IsWalk(t, walk) && x in t.switches && 1 <= i < |walk|
    requires walk[0] == x || walk[1] != NextHop(t, walk[0], x)
    ensures walk[i] != x && NextHop(t, walk[i], x) == walk[i - 1]
  {
    assert Adjacent(t, walk[i - 1], walk[i]);
    if i > 1 {
      StrayWalk(t, walk, x, i - 1);
      assert walk[i] != walk[i - 2];
    }
    OthersComeBack(t, walk[i - 1], walk[i], x);
  }

  /** There is one way: a walk that ever gets to `x` starts with the next hop, and one that leaves `x` never
      gets back to it. */
  lemma OneWay(t: Topology, walk: seq<Dpid>, x: Dpid)
    requires IsTree(t) && IsWalk(t, walk) && |walk| > 1 && walk[|walk| - 1] == x
    ensures walk[0] != x && walk[1] == NextHop(t, walk[0], x)
  {
    if walk[0] == x || walk[1] != NextHop(t, walk[0], x) {
      StrayWalk(t, walk, x, |walk| - 1);
    }
  }

  // ---- Ports ----

  /** The port of `u` on the wire to its neighbour `v`. */
  function PortTo(t: Topology, u: Dpid, v: Dpid): Port
    requires t.uplink.Keys == t.up.Keys && ((u in t.up && t.up[u] == v) || (v in t.up && t.up[v] == u))
  {
    if u in t.up && t.up[u] == v then t.uplink[u].0 else t.uplink[v].1
  }

  /** The port of `u` on the way to host `h`. */
  ghost function Toward(t: Topology, u: Dpid, h: Mac): (p: Port)
    requires Valid(t) && u in t.switches && h in t.home
    ensures (u, p) in t.wires && p != OFPP_ALL
  {
    if t.home[h].0 == u then t.home[h].1 else PortTo(t, u, NextHop(t, u, t.home[h].0))
  }

  lemma WireEnds(t: Topology, u: Dpid, p: Port)
    requires Valid(t) && (u, p) in t.wires && t.wires[(u, p)].Peer?
    ensures var v := t.wires[(u, p)].dpid;
            && u in t.switches && v in t.switches && u != v && Adjacent(t, u, v)
            && p == PortTo(t, u, v) && t.wires[(u, p)].port == PortTo(t, v, u)
  {
    assert EndFine(t, u, p, t.wires[(u, p)]);
  }

  /** A wire that does not lead to `h` leads to a switch that has `h` behind that wire. */
  lemma AwayComesBack(t: Topology, u: Dpid, p: Port, h: Mac)
    requires Valid(t) && (u, p) in t.wires && t.wires[(u, p)].Peer? && h in t.home
    requires u in t.switches && p != Toward(t, u, h)
    ensures var Peer(v, q) := t.wires[(u, p)];
            && v in t.switches && u != v
            && v != t.home[h].0 && NextHop(t, v, t.home[h].0) == u
            && q == Toward(t, v, h)
  {
    WireEnds(t, u, p);
    OthersComeBack(t, u, t.wires[(u, p)].dpid, t.home[h].0);
  }

  /** The way to `h` does not turn back. */
  lemma OnwardNotBack(t: Topology, u: Dpid, h: Mac)
    requires Valid(t) && u in t.switches && h in t.home && t.home[h].0 != u
    ensures t.wires[(u, Toward(t, u, h))].Peer?
    ensures var Peer(v, q) := t.wires[(u, Toward(t, u, h))]; v in t.switches && q != Toward(t, v, h)
  {
    var x := t.home[h].0;
    var v := NextHop(t, u, x);
    NeverBack(t, u, x);
    var q := PortTo(t, v, u);
    assert t.wires[(u, Toward(t, u, h))] == Peer(v, q) && t.wires[(v, q)] == Peer(u, PortTo(t, u, v));
    if v == x {
      assert t.wires[(v, Toward(t, v, h))] == Host(h);
    } else {
      var u' := NextHop(t, v, x);
      assert t.wires[(v, Toward(t, v, h))] == Peer(u', PortTo(t, u', v));
    }
  }

  /** A host's own port leads to nobody else. */
  lemma OwnPort(t: Topology, h: Mac, other: Mac)
    requires Valid(t) && h in t.home && other in t.home && h != other
    ensures t.home[h].0 in t.switches && Toward(t, t.home[h].0, other) != t.home[h].1 == Toward(t, t.home[h].0, h)
  {
    var u := t.home[h].0;
    assert t.home[h] in t.wires && t.wires[t.home[h]] == Host(h) && t.home[other] in t.wires;
    if t.home[other].0 == u {
      assert t.wires[(u, Toward(t, u, other))] == Host(other);
    } else {
      var v := NextHop(t, u, t.home[other].0);
      assert t.wires[(u, PortTo(t, u, v))].Peer?;
    }
  }

  // ---- The network of the repository ----

  /** S1 - S2 - S3 in a row; of each switch's hosts, the first. */
  function SmallTopology(): Topology {
    Topology({1, 2, 3}, map[2 := 1, 3 := 2], map[1 := 0, 2 := 1, 3 := 2], map[2 := (4, 4), 3 := (4, 5)],
             map[1 := (1, 1), 4 := (2, 1), 7 := (3, 1)],
             map[(1, 1) := Host(1), (2, 1) := Host(4), (3, 1) := Host(7),
                 (1, 4) := Peer(2, 4), (2, 4) := Peer(1, 4), (2, 5) := Peer(3, 4), (3, 4) := Peer(2, 5)])
  }

  lemma SmallTopologyIsTree()
    ensures IsTree(SmallTopology())
  {
  }

  lemma SmallTopologyEnds()
    ensures EndsFine(SmallTopology())
  {
    var t := SmallTopology();
    assert EndFine(t, 1, 1, Host(1)) && EndFine(t, 2, 1, Host(4)) && EndFine(t, 3, 1, Host(7));
    assert Uplink(t, 2, 4, 1, 4) && Uplink(t, 3, 4, 2, 5);
    assert t.wires[(1, 4)] == Peer(2, 4) && t.wires[(2, 4)] == Peer(1, 4);
    assert t.wires[(2, 5)] == Peer(3, 4) && t.wires[(3, 4)] == Peer(2, 5);
  }

  lemma SmallTopologyHosts()
    ensures HostsWired(SmallTopology())
  {
  }

  lemma SmallTopologyUplinks()
    ensures UplinksWired(SmallTopology())
  {
  }

  /** It is such a topology. */
  lemma SmallTopologyValid()
    ensures Valid(SmallTopology())
  {
    SmallTopologyIsTree();
    SmallTopologyEnds();
    SmallTopologyHosts();
    SmallTopologyUplinks();
  }
}
