/**
 The single-decree nodes running together. Messages are kept once sent and may be delivered any
 number of times, in any order, or never: loss, reordering and duplication are all covered.
 */
module PaxosSystem {
  import opened Wrappers
  import opened Quorums
  import opened PaxosNode

  /** `inputs` remembers every value a TRUST-VALUE brought in. */
  datatype System = System(
    nodes: map<Id, NodeState>,
    prepares: set<Prepare>,
    promises: set<Promise>,
    accepts: set<Accept>,
    learns: set<Learn>,
    inputs: set<Value>)

  /** TRUST messages come from outside; `cval` is the choice `OnPromise` leaves open. */
  datatype Event =
    | TrustValue(node: Id, c: Id, value: Value)
    | Trust(node: Id, c: Id)
    | DeliverPrepare(prepare: Prepare)
    | DeliverPromise(promise: Promise, cval: Option<Value>)
    | DeliverAccept(accept: Accept)
    | DeliverLearn(learn: Learn)

  function Init(n: nat): System {
    System(map i | i in Ids(n) :: INITIAL, {}, {}, {}, {}, {})
  }

  /** The node the event happens at. */
  function Target(e: Event): Id {
    match e
    case TrustValue(node, _, _) => node
    case Trust(node, _) => node
    case DeliverPrepare(m) => m.to
    case DeliverPromise(m, _) => m.to
    case DeliverAccept(m) => m.to
    case DeliverLearn(m) => m.to
  }

  predicate Enabled(n: nat, s: System, e: Event)
    requires n >= 1
  {
    && Target(e) in s.nodes
    && match e
       case TrustValue(_, _, _) => true
       case Trust(_, _) => true
       case DeliverPrepare(m) => m in s.prepares
       case DeliverAccept(m) => m in s.accepts
       case DeliverLearn(m) => m in s.learns
       case DeliverPromise(m, cval) =>
         var node := s.nodes[m.to];
         && m in s.promises
         && (Fires(n, node, m.from, m.rnd, m.vrnd, m.vval) ==>
               Proposes(node.mv + {Entry(m.vrnd, m.vval, m.from)}, node.v, cval))
  }

  function Next(n: nat, s: System, e: Event): System
    requires n >= 1 && Target(e) in s.nodes
  {
    var id := Target(e);
    var node := s.nodes[id];
    match e
    case TrustValue(_, c, value) =>
      var eff := OnTrustValue(id, n, node, c, value);
      s.(nodes := s.nodes[id := eff.node], prepares := s.prepares + eff.out, inputs := s.inputs + {value})
    case Trust(_, c) =>
      var eff := OnTrust(id, n, node, c);
      s.(nodes := s.nodes[id := eff.node], prepares := s.prepares + eff.out)
    case DeliverPrepare(m) =>
      var eff := OnPrepare(id, node, m.from, m.crnd);
      s.(nodes := s.nodes[id := eff.node], promises := s.promises + eff.out)
    case DeliverPromise(m, cval) =>
      var eff := OnPromise(id, n, node, m.from, m.rnd, m.vrnd, m.vval, cval);
      s.(nodes := s.nodes[id := eff.node], accepts := s.accepts + eff.out)
    case DeliverAccept(m) =>
      var eff := OnAccept(id, n, node, m.crnd, m.cval);
      s.(nodes := s.nodes[id := eff.node], learns := s.learns + eff.out)
    case DeliverLearn(m) =>
      s.(nodes := s.nodes[id := OnLearn(node, m.rnd, m.vval)])
  }

  /** TRUST-VALUE reaches the node it names, as the driver sends it. */
  predicate Addressed(e: Event) {
    e.TrustValue? ==> e.c == e.node
  }

  ghost predicate Step(n: nat, s: System, e: Event, s': System)
    requires n >= 1
  {
    Enabled(n, s, e) && s' == Next(n, s, e)
  }

  /** States, and the event between each and the next; if `strict`, every TRUST-VALUE names its recipient. */
  ghost predicate IsPath(n: nat, strict: bool, path: seq<System>, events: seq<Event>)
    requires n >= 1
  {
    |path| == |events| + 1 && forall i | 0 <= i < |events| :: PathStep(n, strict, path, events, i)
  }

  ghost predicate PathStep(n: nat, strict: bool, path: seq<System>, events: seq<Event>, i: nat)
    requires n >= 1 && |path| == |events| + 1 && i < |events|
  {
    Step(n, path[i], events[i], path[i + 1]) && (strict ==> Addressed(events[i]))
  }

  ghost predicate IsAddressedRun(n: nat, run: seq<System>, events: seq<Event>)
    requires n >= 1
  {
    IsPath(n, true, run, events) && run[0] == Init(n)
  }

  // ---- What a state shows about votes and choices ----

  /** Acceptor `a` has voted for `w` in round `r`: it announced so to itself. */
  predicate Voted(s: System, a: Id, r: Round, w: Option<Value>) {
    Learn(a, a, r, w) in s.learns
  }

  ghost function Voters(n: nat, s: System, r: Round, w: Option<Value>): set<Id> {
    set a | a in Ids(n) && Voted(s, a, r, w)
  }

  /** At least `q` acceptors voted for `w` in round `r`. */
  ghost predicate Chosen(n: nat, q: nat, s: System, r: Round, w: Option<Value>) {
    |Voters(n, s, r, w)| >= q
  }

  ghost predicate AcceptSent(s: System, r: Round, w: Option<Value>) {
    exists from, to :: Accept(from, to, r, w) in s.accepts
  }
}
