/**
 One node of the single-decree protocol. Every node is proposer, acceptor and learner.

 `NodeState` and the handler functions are the specification: they say what each handler does to
 the fields and which messages it sends. Class `Node` is the in-place node, proved against them.
 The protocol theorems (modules PaxosInvariant and PaxosAgreement) are about the functions.
 */
module PaxosNode {
  import opened Wrappers
  import opened Quorums

  /** What consensus is about. Only equality is used: see `Proposes` for the order of `sorted`. */
  type Value(==, !new)

  type Id = int
  type Round = int

  /** A member of `mv`: the vote an acceptor reported with its promise. */
  datatype Entry = Entry(vrnd: Option<Round>, vval: Option<Value>, acceptor: Id)

  datatype NodeState = NodeState(
    rnd: Round,
    vrnd: Option<Round>,
    vval: Option<Value>,
    crnd: Option<Round>,
    mv: set<Entry>,
    v: Option<Value>,
    values: map<Round, Option<Value>>)

  datatype Prepare = Prepare(from: Id, to: Id, crnd: Round)
  datatype Promise = Promise(from: Id, to: Id, rnd: Round, vrnd: Option<Round>, vval: Option<Value>)
  datatype Accept = Accept(from: Id, to: Id, crnd: Round, cval: Option<Value>)
  datatype Learn = Learn(from: Id, to: Id, rnd: Round, vval: Option<Value>)

  /** A handler's effect: the node afterwards and the messages it sends. */
  datatype Effect<Message> = Effect(node: NodeState, out: set<Message>)

  const INITIAL := NodeState(0, None, None, None, {}, None, map[])

  function PrepareAll(id: Id, n: nat, r: Round): (out: set<Prepare>)
    ensures forall m :: m in out <==> m.from == id && 1 <= m.to <= n && m.crnd == r
  {
    set k | k in Ids(n) :: Prepare(id, k, r)
  }

  function AcceptAll(id: Id, n: nat, r: Round, cval: Option<Value>): (out: set<Accept>)
    ensures forall m :: m in out <==> m.from == id && 1 <= m.to <= n && m.crnd == r && m.cval == cval
  {
    set k | k in Ids(n) :: Accept(id, k, r, cval)
  }

  function LearnAll(id: Id, n: nat, r: Round, vval: Option<Value>): (out: set<Learn>)
    ensures forall m :: m in out <==> m.from == id && 1 <= m.to <= n && m.rnd == r && m.vval == vval
  {
    set k | k in Ids(n) :: Learn(id, k, r, vval)
  }

  function NextRound(id: Id, n: nat, crnd: Option<Round>): Round {
    match crnd
    case None => id
    case Some(c) => c + n
  }

  function OnTrust(id: Id, n: nat, s: NodeState, c: Id): Effect<Prepare> {
    if c == id then
      var r := NextRound(id, n, s.crnd);
      Effect(s.(crnd := Some(r), mv := {}), PrepareAll(id, n, r))
    else
      Effect(s, {})
  }

  function OnTrustValue(id: Id, n: nat, s: NodeState, c: Id, value: Value): Effect<Prepare> {
    OnTrust(id, n, s.(v := Some(value)), c)
  }

  function OnPrepare(id: Id, s: NodeState, sender: Id, crnd: Round): Effect<Promise> {
    if crnd > s.rnd then
      Effect(s.(rnd := crnd), {Promise(id, sender, crnd, s.vrnd, s.vval)})
    else
      Effect(s, {})
  }

  /** `None` sorts below every number. */
  predicate RoundAtMost(a: Option<Round>, b: Option<Round>) {
    a.None? || (b.Some? && a.value <= b.value)
  }

  predicate NoPromisesWithValue(mv: set<Entry>) {
    forall e | e in mv :: e.vrnd.None?
  }

  /** `e` can be the last member of `sorted(mv)`: tuples are ordered by `vrnd` first. How ties on
      `vrnd` fall depends on an order of values and addresses that is left open here. */
  predicate CanSortLast(mv: set<Entry>, e: Entry) {
    e in mv && forall f | f in mv :: RoundAtMost(f.vrnd, e.vrnd)
  }

  /** `cval` is a value that a proposer holding promises `mv` and payload `v` may put forward. */
  predicate Proposes(mv: set<Entry>, v: Option<Value>, cval: Option<Value>) {
    if NoPromisesWithValue(mv) then
      cval == v
    else
      exists e | e in mv :: CanSortLast(mv, e) && e.vval == cval
  }

  /** Whether this promise makes `enough_promises()` true, so that ACCEPTs go out. */
  predicate Fires(n: nat, s: NodeState, sender: Id, rnd: Round, vrnd: Option<Round>, vval: Option<Value>)
    requires n >= 1
  {
    s.crnd == Some(rnd) && |s.mv + {Entry(vrnd, vval, sender)}| == PromiseQuorum(n)
  }

  /** `cval` is the proposal picked if the handler fires. */
  function OnPromise(id: Id, n: nat, s: NodeState, sender: Id, rnd: Round, vrnd: Option<Round>,
                     vval: Option<Value>, cval: Option<Value>): Effect<Accept>
    requires n >= 1
  {
    if s.crnd == Some(rnd) then
      Effect(s.(mv := s.mv + {Entry(vrnd, vval, sender)}),
             if Fires(n, s, sender, rnd, vrnd, vval) then AcceptAll(id, n, rnd, cval) else {})
    else
      Effect(s, {})
  }

  function OnAccept(id: Id, n: nat, s: NodeState, crnd: Round, vval: Option<Value>): Effect<Learn> {
    if crnd >= s.rnd && s.vrnd != Some(crnd) then
      Effect(s.(rnd := crnd, vrnd := Some(crnd), vval := vval), LearnAll(id, n, crnd, vval))
    else
      Effect(s, {})
  }

  function OnLearn(s: NodeState, rnd: Round, vval: Option<Value>): NodeState {
    if rnd in s.values then s else s.(values := s.values[rnd := vval])
  }

  /** The node object. Methods return what they send; `n` is the number of known nodes. */
  class Node {
    const id: Id
    const n: nat
    var rnd: Round
    var vrnd: Option<Round>
    var vval: Option<Value>
    var crnd: Option<Round>
    var mv: set<Entry>
    var v: Option<Value>
    var values: map<Round, Option<Value>>

    function State(): NodeState
      reads this
    {
      NodeState(rnd, vrnd, vval, crnd, mv, v, values)
    }

    constructor (id: Id, n: nat)
      ensures this.id == id && this.n == n && State() == INITIAL
    {
      this.id, this.n := id, n;
      rnd, vrnd, vval, crnd, mv, v, values := 0, None, None, None, {}, None, map[];
    }

    method SetValue(value: Value)
      modifies this
      ensures State() == old(State()).(v := Some(value))
    {
      v := Some(value);
    }

    method PickNext()
      modifies this
      ensures State() == old(State()).(crnd := Some(NextRound(id, n, old(crnd))))
    {
      if crnd.None? {
        crnd := Some(id);
      } else {
        crnd := Some(crnd.value + n);
      }
    }

    method HandleTrust(c: Id) returns (out: set<Prepare>)
      modifies this
      ensures Effect(State(), out) == OnTrust(id, n, old(State()), c)
    {
      out := {};
      if c == id {
        PickNext();
        mv := {};
        var r := crnd.value;
        for k := 1 to n + 1
          invariant out == PrepareAll(id, k - 1, r)
        {
          out := out + {Prepare(id, k, r)};
        }
      }
    }

    method HandleTrustValue(c: Id, value: Value) returns (out: set<Prepare>)
      modifies this
      ensures Effect(State(), out) == OnTrustValue(id, n, old(State()), c, value)
    {
      SetValue(value);
      out := HandleTrust(c);
    }

    method HandlePrepare(sender: Id, crnd: Round) returns (out: set<Promise>)
      modifies this
      ensures Effect(State(), out) == OnPrepare(id, old(State()), sender, crnd)
    {
      out := {};
      if crnd > rnd {
        rnd := crnd;
        out := {Promise(id, sender, rnd, vrnd, vval)};
      }
    }

    /** `sorted(mv)[-1]`, found by one pass over the set. */
    method PickLargest(entries: set<Entry>) returns (cval: Option<Value>)
      requires entries != {}
      ensures exists e | e in entries :: CanSortLast(entries, e) && e.vval == cval
    {
      var last :| last in entries;
      var rest := entries - {last};
      while rest != {}
        invariant rest <= entries && last in entries - rest
        invariant CanSortLast(entries - rest, last)
        decreases rest
      {
        var e :| e in rest;
        rest := rest - {e};
        if RoundAtMost(last.vrnd, e.vrnd) {
          last := e;
        }
      }
      assert entries - rest == entries;
      cval := last.vval;
    }

    /** The loop that sends ACCEPT to every node. */
    method SendAccepts(rnd: Round, cval: Option<Value>) returns (out: set<Accept>)
      ensures out == AcceptAll(id, n, rnd, cval)
    {
      out := {};
      for k := 1 to n + 1
        invariant out == AcceptAll(id, k - 1, rnd, cval)
      {
        out := out + {Accept(id, k, rnd, cval)};
      }
    }

    method HandlePromise(sender: Id, rnd: Round, vrnd: Option<Round>, vval: Option<Value>)
      returns (out: set<Accept>, cval: Option<Value>)
      requires n >= 1
      modifies this
      ensures Effect(State(), out) == OnPromise(id, n, old(State()), sender, rnd, vrnd, vval, cval)
      ensures Fires(n, old(State()), sender, rnd, vrnd, vval) ==> Proposes(mv, v, cval)
    {
      out, cval := {}, None;
      if crnd == Some(rnd) {
        mv := mv + {Entry(vrnd, vval, sender)};
        if |mv| == PromiseQuorum(n) {
          if NoPromisesWithValue(mv) {
            cval := v;
          } else {
            cval := PickLargest(mv);
          }
          out := SendAccepts(rnd, cval);
        }
      }
    }

    method HandleAccept(crnd: Round, vval: Option<Value>) returns (out: set<Learn>)
      modifies this
      ensures Effect(State(), out) == OnAccept(id, n, old(State()), crnd, vval)
    {
      out := {};
      if crnd >= rnd && vrnd != Some(crnd) {
        rnd := crnd;
        vrnd := Some(crnd);
        this.vval := vval;
        for k := 1 to n + 1
          invariant out == LearnAll(id, k - 1, crnd, vval)
        {
          out := out + {Learn(id, k, crnd, vval)};
        }
      }
    }

    method HandleLearn(rnd: Round, vval: Option<Value>)
      modifies this
      ensures State() == OnLearn(old(State()), rnd, vval)
    {
      if rnd !in values {
        values := values[rnd := vval];
      }
    }
  }
}
