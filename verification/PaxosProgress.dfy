/**
 The single-decree protocol never gets stuck: whatever has happened, some continuation chooses a value.
 (Nothing forces that continuation: competing proposers can always prevent it.)
 */
module PaxosProgress {
  import opened Wrappers
  import opened Quorums
  import opened Sets
  import opened PaxosNode
  import opened PaxosSystem
  import opened PaxosInvariant

  /** Steps lead from `s` to `t`; if `strict`, every TRUST-VALUE among them names its recipient. */
  ghost predicate Leads(n: nat, strict: bool, s: System, t: System)
    requires n >= 1
  {
    exists path, events :: IsPath(n, strict, path, events) && path[0] == s && path[|path| - 1] == t
  }

  lemma LeadsNowhere(n: nat, strict: bool, s: System)
    requires n >= 1
    ensures Leads(n, strict, s, s)
  {
    assert IsPath(n, strict, [s], []);
  }

  lemma PathLonger(n: nat, strict: bool, path: seq<System>, events: seq<Event>, e: Event, u: System)
    requires n >= 1 && IsPath(n, strict, path, events) && Step(n, path[|path| - 1], e, u) && (strict ==> Addressed(e))
    ensures IsPath(n, strict, path + [u], events + [e])
  {
    var (path', events') := (path + [u], events + [e]);
    forall i | 0 <= i < |events'| ensures PathStep(n, strict, path', events', i) {
      if i < |events| {
        assert PathStep(n, strict, path, events, i);
        assert path'[i] == path[i] && path'[i + 1] == path[i + 1] && events'[i] == events[i];
      }
    }
  }

  lemma LeadsOn(n: nat, strict: bool, s: System, t: System, e: Event)
    requires n >= 1 && Leads(n, strict, s, t) && Enabled(n, t, e) && (strict ==> Addressed(e))
    ensures Leads(n, strict, s, Next(n, t, e))
  {
    var path, events :| IsPath(n, strict, path, events) && path[0] == s && path[|path| - 1] == t;
    var u := Next(n, t, e);
    PathLonger(n, strict, path, events, e, u);
    assert (path + [u])[|path|] == u;
  }

  // ---- A proposer gets ahead of every promise ----

  /** `u` is `t` but for the round `p` has started, which is above `bound`. */
  ghost predicate Ahead(n: nat, t: System, u: System, p: Id, bound: int)
    requires n >= 1 && p in t.nodes
  {
    && p in u.nodes && u.nodes[p].crnd.Some? && u.nodes[p].crnd.value > bound
    && u.nodes == t.nodes[p := t.nodes[p].(crnd := u.nodes[p].crnd, mv := {})]
    && PrepareAll(p, n, u.nodes[p].crnd.value) <= u.prepares && t.learns <= u.learns
  }

  lemma OneTrust(n: nat, t: System, p: Id)
    requires n >= 1 && p in t.nodes
    ensures var r := NextRound(p, n, t.nodes[p].crnd);
            && Enabled(n, t, Trust(p, p))
            && Ahead(n, t, Next(n, t, Trust(p, p)), p, r - 1)
            && Next(n, t, Trust(p, p)).nodes[p].crnd == Some(r)
  {
  }

  lemma {:induction false} GetAhead(n: nat, strict: bool, s: System, t: System, p: Id, bound: int) returns (u: System)
    requires n >= 1 && Leads(n, strict, s, t) && p in t.nodes && p >= 1
    ensures Leads(n, strict, s, u) && Ahead(n, t, u, p, bound)
    decreases bound - if t.nodes[p].crnd.None? then 0 else t.nodes[p].crnd.value
  {
    OneTrust(n, t, p);
    LeadsOn(n, strict, s, t, Trust(p, p));
    u := Next(n, t, Trust(p, p));
    if NextRound(p, n, t.nodes[p].crnd) <= bound {
      u := GetAhead(n, strict, s, u, p, bound);
    }
  }

  // ---- Everyone promises ----

  /** The entry that a promise of acceptor `j` would carry. */
  function Report(t: System, j: Id): Entry {
    if j in t.nodes then Entry(t.nodes[j].vrnd, t.nodes[j].vval, j) else Entry(None, None, j)
  }

  /** `u` is `t` after acceptors `1 .. k` promised round `r` to `p`, each reporting its last vote. */
  ghost predicate PromisedUpTo(t: System, u: System, p: Id, r: Round, k: nat) {
    && u.nodes.Keys == t.nodes.Keys && t.prepares <= u.prepares && t.learns <= u.learns
    && (forall j | j in t.nodes :: j in u.nodes &&
         u.nodes[j] == if 1 <= j <= k then t.nodes[j].(rnd := r) else t.nodes[j])
    && (forall j | 1 <= j <= k :: Reported(u, p, r, Report(t, j)))
  }

  lemma OneMorePromise(n: nat, t: System, u: System, p: Id, r: Round, k: nat)
    requires n >= 1 && k >= 1 && k in t.nodes && t.nodes[k].rnd < r && Prepare(p, k, r) in t.prepares
    requires PromisedUpTo(t, u, p, r, k - 1)
    ensures var e := DeliverPrepare(Prepare(p, k, r)); Enabled(n, u, e) && PromisedUpTo(t, Next(n, u, e), p, r, k)
  {
  }

  lemma {:induction false} EveryonePromises(n: nat, strict: bool, s: System, t: System, p: Id, r: Round, k: nat)
    returns (u: System)
    requires n >= 1 && Leads(n, strict, s, t) && t.nodes.Keys == Ids(n) && k <= n && PrepareAll(p, n, r) <= t.prepares
    requires forall j | j in t.nodes :: t.nodes[j].rnd < r
    ensures Leads(n, strict, s, u) && PromisedUpTo(t, u, p, r, k)
  {
    if k == 0 {
      u := t;
    } else {
      var v := EveryonePromises(n, strict, s, t, p, r, k - 1);
      assert IsId(n, k) && Prepare(p, k, r) in PrepareAll(p, n, r);
      OneMorePromise(n, t, v, p, r, k);
      LeadsOn(n, strict, s, v, DeliverPrepare(Prepare(p, k, r)));
      u := Next(n, v, DeliverPrepare(Prepare(p, k, r)));
    }
  }

  // ---- The proposer collects a quorum ----

  /** What acceptors `lo+1 .. lo+k` reported. */
  function Reports(t: System, lo: nat, k: nat): set<Entry> {
    set j | lo < j <= lo + k :: Report(t, j)
  }

  lemma ReportsAre(t: System, lo: nat, k: nat, x: Entry)
    ensures x in Reports(t, lo, k) <==> lo < x.acceptor <= lo + k && x == Report(t, x.acceptor)
  {
  }

  lemma ReportsSplit(t: System, lo: nat, k: nat)
    requires k >= 1
    ensures Reports(t, lo, k) == Reports(t, lo, k - 1) + {Report(t, lo + k)}
  {
    forall x ensures x in Reports(t, lo, k) <==> x in Reports(t, lo, k - 1) + {Report(t, lo + k)} {
      ReportsAre(t, lo, k, x);
      ReportsAre(t, lo, k - 1, x);
    }
  }

  lemma {:induction false} ReportsSize(t: System, lo: nat, k: nat)
    ensures |Reports(t, lo, k)| == k
  {
    if k == 0 {
      assert Reports(t, lo, 0) == {};
    } else {
      ReportsSize(t, lo, k - 1);
      ReportsSplit(t, lo, k);
      ReportsAre(t, lo, k - 1, Report(t, lo + k));
    }
  }

  lemma {:induction false} LastExists(mv: set<Entry>)
    requires mv != {}
    ensures exists e | e in mv :: CanSortLast(mv, e)
    decreases mv
  {
    var x :| x in mv;
    var rest := mv - {x};
    if rest == {} {
      assert mv == {x} && CanSortLast(mv, x);
    } else {
      LastExists(rest);
      var y :| y in rest && CanSortLast(rest, y);
      assert CanSortLast(mv, if RoundAtMost(y.vrnd, x.vrnd) then x else y);
    }
  }

  /** There is always something to propose. */
  lemma SomethingToPropose(mv: set<Entry>, v: Option<Value>) returns (w: Option<Value>)
    ensures Proposes(mv, v, w)
  {
    if NoPromisesWithValue(mv) {
      w := v;
    } else {
      LastExists(mv);
      var e :| e in mv && CanSortLast(mv, e);
      w := e.vval;
    }
  }

  /** `u` is `t` but for the promises `p` has recorded. */
  ghost predicate OnlyRecorded(t: System, u: System, p: Id, mv: set<Entry>) {
    && p in t.nodes && u.nodes.Keys == t.nodes.Keys && t.promises <= u.promises && t.learns <= u.learns
    && u.nodes[p] == t.nodes[p].(mv := mv)
    && forall j | j in t.nodes && j != p :: u.nodes[j] == t.nodes[j]
  }

  /** `u` is `t` after `p` recorded the promises of acceptors `lo+1 .. lo+k` to its round. */
  ghost predicate CollectedUpTo(n: nat, t: System, u: System, p: Id, lo: nat, k: nat) {
    OnlyRecorded(t, u, p, Reports(t, lo, k))
  }

  lemma PromiseRecorded(n: nat, u: System, p: Id, r: Round, x: Entry, w: Option<Value>)
    requires n >= 1 && p in u.nodes && u.nodes[p].crnd == Some(r)
    requires Reported(u, p, r, x)
    requires Proposes(u.nodes[p].mv + {x}, u.nodes[p].v, w)
    ensures var e := DeliverPromise(Promise(x.acceptor, p, r, x.vrnd, x.vval), w);
            && Enabled(n, u, e)
            && Next(n, u, e).nodes == u.nodes[p := u.nodes[p].(mv := u.nodes[p].mv + {x})]
            && Next(n, u, e).promises == u.promises && Next(n, u, e).learns == u.learns
            && u.accepts <= Next(n, u, e).accepts
            && (|u.nodes[p].mv + {x}| == PromiseQuorum(n) ==> AcceptAll(p, n, r, w) <= Next(n, u, e).accepts)
  {
    assert Entry(x.vrnd, x.vval, x.acceptor) == x;
  }

  lemma RecordPromise(n: nat, strict: bool, s: System, v: System, p: Id, r: Round, x: Entry, mv: set<Entry>,
                      w: Option<Value>)
    returns (u: System)
    requires n >= 1 && Leads(n, strict, s, v) && p in v.nodes && v.nodes[p].crnd == Some(r)
    requires Reported(v, p, r, x)
    requires v.nodes[p].mv + {x} == mv && Proposes(mv, v.nodes[p].v, w)
    ensures Leads(n, strict, s, u) && OnlyRecorded(v, u, p, mv) && u.learns == v.learns
    ensures |mv| == PromiseQuorum(n) ==> AcceptAll(p, n, r, w) <= u.accepts
  {
    var e := DeliverPromise(Promise(x.acceptor, p, r, x.vrnd, x.vval), w);
    PromiseRecorded(n, v, p, r, x, w);
    LeadsOn(n, strict, s, v, e);
    u := Next(n, v, e);
  }

  lemma OneMoreReport(n: nat, t: System, v: System, p: Id, lo: nat, k: nat)
    requires k >= 1 && CollectedUpTo(n, t, v, p, lo, k - 1)
    ensures v.nodes[p].mv + {Report(t, lo + k)} == Reports(t, lo, k)
  {
    ReportsSplit(t, lo, k);
    assert v.nodes[p].mv == Reports(t, lo, k - 1);
  }

  /** The promise of acceptor `lo+k` after those of `lo+1 .. lo+k-1`. */
  lemma RecordNext(n: nat, strict: bool, s: System, t: System, v: System, p: Id, r: Round, lo: nat, k: nat,
                   w: Option<Value>)
    returns (u: System)
    requires n >= 1 && k >= 1 && Leads(n, strict, s, v) && CollectedUpTo(n, t, v, p, lo, k - 1)
    requires t.nodes[p].crnd == Some(r) && Proposes(Reports(t, lo, k), t.nodes[p].v, w)
    requires Reported(t, p, r, Report(t, lo + k))
    ensures Leads(n, strict, s, u) && CollectedUpTo(n, t, u, p, lo, k)
    ensures k == PromiseQuorum(n) ==> AcceptAll(p, n, r, w) <= u.accepts
  {
    OneMoreReport(n, t, v, p, lo, k);
    ReportsSize(t, lo, k);
    u := RecordPromise(n, strict, s, v, p, r, Report(t, lo + k), Reports(t, lo, k), w);
  }

  lemma {:induction false} CollectSome(n: nat, strict: bool, s: System, t: System, p: Id, r: Round, lo: nat, k: nat)
    returns (u: System)
    requires n >= 1 && Leads(n, strict, s, t) && p in t.nodes && k < PromiseQuorum(n)
    requires forall j | lo < j <= lo + k :: Reported(t, p, r, Report(t, j))
    requires t.nodes[p].crnd == Some(r) && t.nodes[p].mv == {}
    ensures Leads(n, strict, s, u) && CollectedUpTo(n, t, u, p, lo, k)
  {
    if k == 0 {
      u := t;
      ReportsSize(t, lo, 0);
    } else {
      var v := CollectSome(n, strict, s, t, p, r, lo, k - 1);
      var w := SomethingToPropose(Reports(t, lo, k), t.nodes[p].v);
      u := RecordNext(n, strict, s, t, v, p, r, lo, k, w);
    }
  }

  /** The promise that completes the quorum sends the ACCEPTs, for any value the quorum allows. */
  lemma CollectQuorum(n: nat, strict: bool, s: System, t: System, p: Id, r: Round, lo: nat, w: Option<Value>)
    returns (u: System)
    requires n >= 1 && Leads(n, strict, s, t) && p in t.nodes
    requires forall j | lo < j <= lo + PromiseQuorum(n) :: Reported(t, p, r, Report(t, j))
    requires t.nodes[p].crnd == Some(r) && t.nodes[p].mv == {}
    requires Proposes(Reports(t, lo, PromiseQuorum(n)), t.nodes[p].v, w)
    ensures Leads(n, strict, s, u) && CollectedUpTo(n, t, u, p, lo, PromiseQuorum(n)) &&
            AcceptAll(p, n, r, w) <= u.accepts
  {
    var k := PromiseQuorum(n);
    var v := CollectSome(n, strict, s, t, p, r, lo, k - 1);
    u := RecordNext(n, strict, s, t, v, p, r, lo, k, w);
  }

  // ---- Everyone votes ----

  /** Node `j` after acceptors `1 .. k` voted for `w` in round `r`. */
  function AfterVotes(node: NodeState, j: Id, r: Round, w: Option<Value>, k: nat): NodeState {
    if 1 <= j <= k then node.(rnd := r, vrnd := Some(r), vval := w) else node
  }

  /** `s` is `s0` after those votes. */
  ghost predicate VotedUpTo(s0: System, s: System, r: Round, w: Option<Value>, k: nat) {
    && s.nodes.Keys == s0.nodes.Keys
    && s.prepares == s0.prepares && s.accepts == s0.accepts && s.promises == s0.promises && s0.learns <= s.learns
    && (forall j | j in s.nodes :: s.nodes[j] == AfterVotes(s0.nodes[j], j, r, w, k))
    && (forall j | 1 <= j <= k :: Voted(s, j, r, w))
  }

  lemma OneVote(n: nat, s0: System, t: System, p: Id, r: Round, w: Option<Value>, k: nat)
    requires n >= 1 && 1 <= k <= n && s0.nodes.Keys == Ids(n) && VotedUpTo(s0, t, r, w, k - 1)
    requires AcceptAll(p, n, r, w) <= s0.accepts
    requires s0.nodes[k].rnd <= r && s0.nodes[k].vrnd != Some(r)
    ensures var e := DeliverAccept(Accept(p, k, r, w));
            Enabled(n, t, e) && VotedUpTo(s0, Next(n, t, e), r, w, k)
  {
    var s := Next(n, t, DeliverAccept(Accept(p, k, r, w)));
    assert t.nodes[k] == AfterVotes(s0.nodes[k], k, r, w, k - 1);
    forall j | j in s.nodes ensures s.nodes[j] == AfterVotes(s0.nodes[j], j, r, w, k) {
      assert t.nodes[j] == AfterVotes(s0.nodes[j], j, r, w, k - 1);
    }
    forall j | 1 <= j <= k ensures Voted(s, j, r, w) {
      assert j < k ==> Voted(t, j, r, w);
    }
  }

  lemma VotesChoose(n: nat, s0: System, s: System, r: Round, w: Option<Value>, q: nat)
    requires q <= n && VotedUpTo(s0, s, r, w, q)
    ensures Chosen(n, q, s, r, w)
  {
    IdsSize(q);
    SubsetSize(Ids(q), Voters(n, s, r, w));
  }

  lemma {:induction false} EveryoneVotes(n: nat, strict: bool, s: System, t: System, p: Id, r: Round,
      w: Option<Value>, k: nat)
    returns (u: System)
    requires n >= 1 && k <= n && Leads(n, strict, s, t) && t.nodes.Keys == Ids(n)
    requires AcceptAll(p, n, r, w) <= t.accepts
    requires forall j | j in t.nodes :: t.nodes[j].rnd <= r && t.nodes[j].vrnd != Some(r)
    ensures Leads(n, strict, s, u) && VotedUpTo(t, u, r, w, k)
  {
    if k == 0 {
      u := t;
    } else {
      var v := EveryoneVotes(n, strict, s, t, p, r, w, k - 1);
      var e := DeliverAccept(Accept(p, k, r, w));
      assert IsId(n, k);
      OneVote(n, t, v, p, r, w, k);
      LeadsOn(n, strict, s, v, e);
      u := Next(n, v, e);
    }
  }

  // ---- A whole round ----

  /** Nobody is past `bound`, or has voted above its own round. */
  ghost predicate Upto(s: System, bound: int) {
    forall j | j in s.nodes :: s.nodes[j].rnd <= bound && RoundAtMost(s.nodes[j].vrnd, Some(s.nodes[j].rnd))
  }

  /** `t` is `s` after a round `r` of `p`: everyone promised, `lo+1 .. lo+f` made up its quorum, and `1 .. q`
      voted for `w`. */
  ghost predicate RoundRun(n: nat, s: System, t: System, p: Id, r: Round, lo: nat, w: Option<Value>, q: nat)
    requires n >= 1
  {
    && t.nodes.Keys == s.nodes.Keys && s.learns <= t.learns && p in t.nodes
    && (forall j | j in t.nodes :: NodeAfter(s.nodes[j], t.nodes[j], r, w, j <= q))
    && t.nodes[p].crnd == Some(r) && t.nodes[p].mv == Reports(s, lo, PromiseQuorum(n))
    && (forall j | lo < j <= lo + PromiseQuorum(n) :: Reported(t, p, r, Report(s, j)))
  }

  predicate NodeAfter(x: NodeState, x': NodeState, r: Round, w: Option<Value>, voted: bool) {
    && x'.rnd == r && x'.v == x.v
    && x'.vrnd == (if voted then Some(r) else x.vrnd) && x'.vval == (if voted then w else x.vval)
  }

  lemma ReportsAlike(s: System, t: System, lo: nat, k: nat)
    requires forall j | lo < j <= lo + k :: Report(s, j) == Report(t, j)
    ensures Reports(s, lo, k) == Reports(t, lo, k)
  {
  }

  /** `b` is `s` after everyone promised round `r` to `p`. */
  ghost predicate Ready(n: nat, s: System, b: System, p: Id, r: Round) {
    && b.nodes.Keys == s.nodes.Keys == Ids(n) && s.learns <= b.learns
    && p in b.nodes && b.nodes[p].crnd == Some(r) && b.nodes[p].mv == {}
    && (forall j | j in b.nodes :: NodeAfter(s.nodes[j], b.nodes[j], r, None, false))
    && (forall j | 1 <= j <= n :: Reported(b, p, r, Report(s, j)))
  }

  lemma ReadyAfterPromises(n: nat, s: System, a: System, b: System, p: Id, r: Round)
    requires n >= 1 && s.nodes.Keys == Ids(n) && p in s.nodes && Ahead(n, s, a, p, r - 1) && a.nodes[p].crnd == Some(r)
    requires PromisedUpTo(a, b, p, r, n)
    ensures Ready(n, s, b, p, r)
  {
    forall j | j in b.nodes ensures NodeAfter(s.nodes[j], b.nodes[j], r, None, false) {
      assert IsId(n, j) && j in a.nodes;
    }
    forall j | 1 <= j <= n ensures Reported(b, p, r, Report(s, j)) {
      assert Reported(b, p, r, Report(a, j)) && Report(a, j) == Report(s, j);
    }
  }

  lemma StartRound(n: nat, strict: bool, s0: System, s: System, p: Id, bound: int) returns (b: System, r: Round)
    requires n >= 1 && Leads(n, strict, s0, s) && s.nodes.Keys == Ids(n) && p in s.nodes && Upto(s, bound)
    ensures Leads(n, strict, s0, b) && r > bound && Ready(n, s, b, p, r)
  {
    assert IsId(n, p);
    var a := GetAhead(n, strict, s0, s, p, bound);
    r := a.nodes[p].crnd.value;
    b := EveryonePromises(n, strict, s0, a, p, r, n);
    ReadyAfterPromises(n, s, a, b, p, r);
  }

  lemma ReadyReports(n: nat, s: System, b: System, p: Id, r: Round, lo: nat, k: nat)
    requires Ready(n, s, b, p, r) && lo + k <= n
    ensures Reports(b, lo, k) == Reports(s, lo, k)
    ensures forall j | lo < j <= lo + k :: Reported(b, p, r, Report(b, j))
  {
    forall j | lo < j <= lo + k ensures Report(s, j) == Report(b, j) && Reported(b, p, r, Report(b, j)) {
      assert IsId(n, j) && NodeAfter(s.nodes[j], b.nodes[j], r, None, false);
      assert Reported(b, p, r, Report(s, j));
    }
    ReportsAlike(b, s, lo, k);
  }

  lemma NodesAfterVotes(n: nat, s: System, b: System, c: System, t: System, p: Id, r: Round, lo: nat,
      w: Option<Value>, q: nat)
    requires n >= 1 && lo + PromiseQuorum(n) <= n && Ready(n, s, b, p, r)
    requires CollectedUpTo(n, b, c, p, lo, PromiseQuorum(n)) && VotedUpTo(c, t, r, w, q)
    ensures t.nodes.Keys == s.nodes.Keys && forall j | j in t.nodes :: NodeAfter(s.nodes[j], t.nodes[j], r, w, j <= q)
    ensures t.nodes[p].crnd == Some(r) && t.nodes[p].mv == Reports(b, lo, PromiseQuorum(n))
  {
    forall j | j in t.nodes ensures NodeAfter(s.nodes[j], t.nodes[j], r, w, j <= q) {
      assert t.nodes[j] == AfterVotes(c.nodes[j], j, r, w, q) && IsId(n, j);
      assert NodeAfter(s.nodes[j], b.nodes[j], r, None, false);
    }
  }

  lemma EveryonesFresh(n: nat, s: System, b: System, c: System, p: Id, r: Round, lo: nat, bound: int)
    requires n >= 1 && lo + PromiseQuorum(n) <= n && Ready(n, s, b, p, r) && Upto(s, bound) && bound < r
    requires CollectedUpTo(n, b, c, p, lo, PromiseQuorum(n))
    ensures c.nodes.Keys == Ids(n) && forall j | j in c.nodes :: c.nodes[j].rnd <= r && c.nodes[j].vrnd != Some(r)
  {
    forall j | j in c.nodes ensures c.nodes[j].rnd <= r && c.nodes[j].vrnd != Some(r) {
      assert NodeAfter(s.nodes[j], b.nodes[j], r, None, false);
    }
  }

  lemma RoundPromises(n: nat, s: System, b: System, c: System, t: System, p: Id, r: Round, lo: nat, w: Option<Value>,
      q: nat)
    requires n >= 1 && lo + PromiseQuorum(n) <= n && Ready(n, s, b, p, r)
    requires CollectedUpTo(n, b, c, p, lo, PromiseQuorum(n)) && VotedUpTo(c, t, r, w, q)
    ensures s.learns <= t.learns
    ensures forall j | lo < j <= lo + PromiseQuorum(n) :: Reported(t, p, r, Report(s, j))
  {
  }

  /** Any node can run a round above everyone's, with any quorum, for any value that quorum allows. */
  lemma NewRound(n: nat, strict: bool, s0: System, s: System, p: Id, bound: int, lo: nat, w: Option<Value>, q: nat)
    returns (t: System, r: Round)
    requires n >= 1 && Leads(n, strict, s0, s) && s.nodes.Keys == Ids(n) && p in s.nodes && Upto(s, bound)
    requires lo + PromiseQuorum(n) <= n && q <= n
    requires Proposes(Reports(s, lo, PromiseQuorum(n)), s.nodes[p].v, w)
    ensures Leads(n, strict, s0, t) && r > bound && RoundRun(n, s, t, p, r, lo, w, q) && Chosen(n, q, t, r, w)
  {
    var b;
    b, r := StartRound(n, strict, s0, s, p, bound);
    ReadyReports(n, s, b, p, r, lo, PromiseQuorum(n));
    assert NodeAfter(s.nodes[p], b.nodes[p], r, None, false);
    var c := CollectQuorum(n, strict, s0, b, p, r, lo, w);
    EveryonesFresh(n, s, b, c, p, r, lo, bound);
    t := EveryoneVotes(n, strict, s0, c, p, r, w, q);
    NodesAfterVotes(n, s, b, c, t, p, r, lo, w, q);
    VotesChoose(n, c, t, r, w, q);
    RoundPromises(n, s, b, c, t, p, r, lo, w, q);
  }

  // ---- A choice is always possible ----

  lemma {:induction false} HighestRound(nodes: map<Id, NodeState>, ids: set<Id>) returns (bound: int)
    requires ids <= nodes.Keys
    ensures forall j | j in ids :: nodes[j].rnd <= bound
    decreases ids
  {
    bound := 0;
    HasMember(ids);
    if ids != {} {
      var j :| j in ids;
      bound := HighestRound(nodes, ids - {j});
      if nodes[j].rnd > bound {
        bound := nodes[j].rnd;
      }
    }
  }

  lemma SomeBound(n: nat, s: System) returns (bound: int)
    requires n >= 1 && Inv(n, s)
    ensures s.nodes.Keys == Ids(n) && Upto(s, bound)
  {
    bound := HighestRound(s.nodes, s.nodes.Keys);
    assert forall j | j in s.nodes :: LastVoteRecorded(s, j);
  }

  /** Node 1 decides. */
  lemma Decide(n: nat, s: System, bound: int) returns (t: System, r: Round, w: Option<Value>)
    requires n >= 1 && s.nodes.Keys == Ids(n) && Upto(s, bound)
    ensures Leads(n, true, s, t) && Chosen(n, n, t, r, w)
  {
    assert forall j | 1 <= j <= n :: IsId(n, j);
    LeadsNowhere(n, true, s);
    w := SomethingToPropose(Reports(s, 0, PromiseQuorum(n)), s.nodes[1].v);
    t, r := NewRound(n, true, s, s, 1, bound, 0, w, n);
  }
}
