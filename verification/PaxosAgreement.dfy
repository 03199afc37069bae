/** What runs of the single-decree protocol guarantee. */
module PaxosAgreement {
  import opened Wrappers
  import opened Quorums
  import opened Sets
  import opened PaxosNode
  import opened PaxosSystem
  import opened PaxosInvariant

  // ---- What later states keep ----

  /** Nothing sent is lost and acceptors only move up. */
  ghost predicate Follows(s: System, s': System) {
    && s.nodes.Keys == s'.nodes.Keys
    && s.accepts <= s'.accepts && s.learns <= s'.learns
    && forall a | a in s.nodes :: AcceptorAdvances(s.nodes[a], s'.nodes[a])
  }

  /** `rnd` never decreases; a vote is replaced only by one of a higher round. */
  ghost predicate AcceptorAdvances(x: NodeState, x': NodeState) {
    && x.rnd <= x'.rnd
    && RoundAtMost(x.vrnd, x'.vrnd)
    && (x.vrnd == x'.vrnd ==> x.vval == x'.vval)
  }

  lemma TargetAdvances(n: nat, s: System, e: Event, s': System)
    requires n >= 1 && WellFormed(n, s) && VotesRecorded(n, s) && Step(n, s, e, s')
    ensures s.accepts <= s'.accepts && s.learns <= s'.learns
    ensures AcceptorAdvances(s.nodes[Target(e)], s'.nodes[Target(e)])
  {
    assert LastVoteRecorded(s, Target(e));
  }

  lemma StepFollows(n: nat, s: System, e: Event, s': System)
    requires n >= 1 && WellFormed(n, s) && VotesRecorded(n, s) && Step(n, s, e, s')
    ensures Follows(s, s')
  {
    NodesAfter(n, s, e, s');
    TargetAdvances(n, s, e, s');
  }

  lemma FollowsTransitive(s: System, t: System, u: System)
    requires Follows(s, t) && Follows(t, u)
    ensures Follows(s, u)
  {
    forall a | a in s.nodes ensures AcceptorAdvances(s.nodes[a], u.nodes[a]) {
      assert AcceptorAdvances(s.nodes[a], t.nodes[a]) && AcceptorAdvances(t.nodes[a], u.nodes[a]);
    }
  }

  lemma NextFollows(n: nat, run: seq<System>, events: seq<Event>, i: nat)
    requires n >= 1 && IsAddressedRun(n, run, events) && i < |events|
    ensures Follows(run[i], run[i + 1])
  {
    RunInv(n, run, events, i);
    assert PathStep(n, true, run, events, i);
    StepFollows(n, run[i], events[i], run[i + 1]);
  }

  /** Over any stretch of a run an acceptor's `rnd` and voted round never go down, and a vote for a
      round it has voted in is never changed. */
  lemma {:induction false} AcceptorsAdvance(n: nat, run: seq<System>, events: seq<Event>, i: nat, j: nat)
    requires n >= 1 && IsAddressedRun(n, run, events) && i <= j < |run|
    ensures Follows(run[i], run[j])
    decreases j
  {
    if i < j {
      AcceptorsAdvance(n, run, events, i, j - 1);
      NextFollows(n, run, events, j - 1);
      FollowsTransitive(run[i], run[j - 1], run[j]);
    }
  }

  /** A vote cast in a step is at or above everything its caster promised before. */
  lemma NoVoteBelowPromise(n: nat, run: seq<System>, events: seq<Event>, i: nat, m: Promise, r: Round, w: Option<Value>)
    requires n >= 1 && IsAddressedRun(n, run, events) && i < |events|
    requires m in run[i].promises
    requires !Voted(run[i], m.from, r, w) && Voted(run[i + 1], m.from, r, w)
    ensures r >= m.rnd
  {
    RunInv(n, run, events, i);
    assert PathStep(n, true, run, events, i);
    VotesAfter(n, run[i], events[i], run[i + 1]);
  }

  // ---- Agreement ----

  /** Once `q` acceptors voted for `w` in round `r`, every ACCEPT of round `r` or above carries `w`. */
  lemma ChosenFixesProposals(n: nat, q: nat, s: System, r: Round, w: Option<Value>, m: Accept)
    requires n >= 1 && Inv(n, s) && PromiseQuorum(n) + q > n
    requires Chosen(n, q, s, r, w) && m in s.accepts && m.crnd >= r
    ensures m.cval == w
  {
    IdsSize(n);
    if m.crnd == r {
      SubsetSize(Voters(n, s, r, w), Ids(n));
      Overlap(Ids(n), Voters(n, s, r, w), Ids(n));
      var a :| a in Voters(n, s, r, w);
      VoteOnAccept(n, s, a, r, w);
    } else {
      assert SafeAt(n, s, m.crnd, m.cval);
      Overlap(Ids(n), Voters(n, s, r, w), Blockers(n, s, r, m.cval));
      var a :| a in Voters(n, s, r, w) * Blockers(n, s, r, m.cval);
      assert VotedOnly(s, a, r, m.cval);
    }
  }

  lemma ChosenStays(n: nat, q: nat, s: System, s': System, r: Round, w: Option<Value>)
    requires Follows(s, s') && Chosen(n, q, s, r, w)
    ensures Chosen(n, q, s', r, w)
  {
    SubsetSize(Voters(n, s, r, w), Voters(n, s', r, w));
  }

  /** Condition P2b over a whole run, at whatever times the choice and the ACCEPT are observed. */
  lemma ProposalsAfterChoice(n: nat, q: nat, run: seq<System>, events: seq<Event>,
                             i: nat, j: nat, r: Round, w: Option<Value>, m: Accept)
    requires n >= 1 && IsAddressedRun(n, run, events) && i < |run| && j < |run|
    requires PromiseQuorum(n) + q > n
    requires Chosen(n, q, run[i], r, w) && m in run[j].accepts && m.crnd >= r
    ensures m.cval == w
  {
    var k := |run| - 1;
    AcceptorsAdvance(n, run, events, i, k);
    AcceptorsAdvance(n, run, events, j, k);
    ChosenStays(n, q, run[i], run[k], r, w);
    RunInv(n, run, events, k);
    ChosenFixesProposals(n, q, run[k], r, w, m);
  }

  lemma ChoiceHasVoter(n: nat, q: nat, s: System, r: Round, w: Option<Value>) returns (a: Id)
    requires n >= 1 && q >= 1 && Inv(n, s) && Chosen(n, q, s, r, w)
    ensures Voted(s, a, r, w) && Accept(Owner(n, r), a, r, w) in s.accepts
  {
    a :| a in Voters(n, s, r, w);
    VoteOnAccept(n, s, a, r, w);
  }

  /** No two different values are ever chosen by `q` votes, whenever `q` votes meet every promise quorum. */
  lemma AgreementOverRun(n: nat, q: nat, run: seq<System>, events: seq<Event>,
                         i: nat, j: nat, r: Round, w: Option<Value>, r': Round, w': Option<Value>)
    requires n >= 1 && IsAddressedRun(n, run, events) && i < |run| && j < |run|
    requires PromiseQuorum(n) + q > n
    requires Chosen(n, q, run[i], r, w) && Chosen(n, q, run[j], r', w')
    ensures w == w'
  {
    RunInv(n, run, events, i);
    RunInv(n, run, events, j);
    var a := ChoiceHasVoter(n, q, run[i], r, w);
    var a' := ChoiceHasVoter(n, q, run[j], r', w');
    if r <= r' {
      ProposalsAfterChoice(n, q, run, events, i, j, r, w, Accept(Owner(n, r'), a', r', w'));
    } else {
      ProposalsAfterChoice(n, q, run, events, j, i, r', w', Accept(Owner(n, r), a, r, w));
    }
  }

  /** With a choice being a majority of votes, every number of nodes agrees. */
  lemma MajorityAgreement(n: nat, run: seq<System>, events: seq<Event>,
                          i: nat, j: nat, r: Round, w: Option<Value>, r': Round, w': Option<Value>)
    requires n >= 1 && IsAddressedRun(n, run, events) && i < |run| && j < |run|
    requires Chosen(n, Majority(n), run[i], r, w) && Chosen(n, Majority(n), run[j], r', w')
    ensures w == w'
  {
    AgreementOverRun(n, Majority(n), run, events, i, j, r, w, r', w');
  }

  // ---- Learners ----

  lemma LearnedOnAccept(n: nat, s: System, p: Id, r: Round)
    requires n >= 1 && Inv(n, s) && p in s.nodes && r in s.nodes[p].values
    ensures AcceptSent(s, r, s.nodes[p].values[r])
  {
    var w := s.nodes[p].values[r];
    var a :| Learn(a, p, r, w) in s.learns;
    assert VoteBacked(n, s, Learn(a, p, r, w));
  }

  /** Two nodes that hold an entry for a round hold the same one; once a value is chosen, entries for
      its round and above are that value; an entry is None or a value some TRUST-VALUE supplied. */
  lemma LearnedConsistent(n: nat, run: seq<System>, events: seq<Event>, i: nat)
    requires n >= 1 && IsAddressedRun(n, run, events) && i < |run|
    ensures var s := run[i];
            && (forall p, p', r | p in s.nodes && p' in s.nodes && r in s.nodes[p].values && r in s.nodes[p'].values ::
                  s.nodes[p].values[r] == s.nodes[p'].values[r])
            && (forall p, r, q: nat, b, w | p in s.nodes && r in s.nodes[p].values
                  && Chosen(n, q, s, b, w) && PromiseQuorum(n) + q > n && b <= r :: s.nodes[p].values[r] == w)
            && (forall p, r | p in s.nodes && r in s.nodes[p].values :: Supplied(s, s.nodes[p].values[r]))
  {
    var s := run[i];
    RunInv(n, run, events, i);
    forall p, r | p in s.nodes && r in s.nodes[p].values
      ensures AcceptSent(s, r, s.nodes[p].values[r])
    {
      LearnedOnAccept(n, s, p, r);
    }
    forall p, r, q: nat, b, w | p in s.nodes && r in s.nodes[p].values
      && Chosen(n, q, s, b, w) && PromiseQuorum(n) + q > n && b <= r
      ensures s.nodes[p].values[r] == w
    {
      var from, to :| Accept(from, to, r, s.nodes[p].values[r]) in s.accepts;
      ChosenFixesProposals(n, q, s, b, w, Accept(from, to, r, s.nodes[p].values[r]));
    }
  }

  /** A chosen value is None or a value some TRUST-VALUE supplied. */
  lemma ChosenSupplied(n: nat, q: nat, run: seq<System>, events: seq<Event>, i: nat, r: Round, w: Option<Value>)
    requires n >= 1 && q >= 1 && IsAddressedRun(n, run, events) && i < |run|
    requires Chosen(n, q, run[i], r, w)
    ensures Supplied(run[i], w)
  {
    RunInv(n, run, events, i);
    var a := ChoiceHasVoter(n, q, run[i], r, w);
  }

  // ---- Rounds ----

  /** A TRUST that node `p` acts on. */
  predicate Trusts(e: Event, p: Id) {
    (e.Trust? || e.TrustValue?) && e.node == p && e.c == p
  }

  function TrustCount(events: seq<Event>, p: Id): nat {
    if events == [] then
      0
    else
      TrustCount(events[..|events| - 1], p) + if Trusts(events[|events| - 1], p) then 1 else 0
  }

  /** The round of a node after `k` of them. */
  function RoundAfter(n: nat, p: Id, k: nat): Option<Round> {
    if k == 0 then None else Some(p + (k - 1) * n)
  }

  lemma OneMoreRound(n: nat, p: Id, k: nat)
    ensures RoundAfter(n, p, k + 1) == Some(NextRound(p, n, RoundAfter(n, p, k)))
  {
  }

  lemma StepTrusts(n: nat, s: System, e: Event, s': System, p: Id)
    requires n >= 1 && Step(n, s, e, s') && p in s.nodes
    ensures p in s'.nodes
    ensures s'.nodes[p].crnd == if Trusts(e, p) then Some(NextRound(p, n, s.nodes[p].crnd)) else s.nodes[p].crnd
  {
  }

  /** The `k`-th TRUST a node acts on starts round `id + (k - 1) * n`, whatever else happens in between. */
  lemma {:induction false} TrustedRound(n: nat, run: seq<System>, events: seq<Event>, i: nat, p: Id)
    requires n >= 1 && IsPath(n, false, run, events) && run[0] == Init(n) && i < |run| && p in Ids(n)
    ensures p in run[i].nodes && run[i].nodes[p].crnd == RoundAfter(n, p, TrustCount(events[..i], p))
  {
    if i > 0 {
      TrustedRound(n, run, events, i - 1, p);
      assert PathStep(n, false, run, events, i - 1);
      StepTrusts(n, run[i - 1], events[i - 1], run[i], p);
      OneMoreRound(n, p, TrustCount(events[..i - 1], p));
      assert events[..i][..i - 1] == events[..i - 1];
    }
  }

  /** Node `id` uses the rounds `id + k*n`, and no other node can use one of them. */
  lemma {:induction false} RoundsNeverCollide(n: nat, id: Id, k: nat)
    requires n >= 1 && id in Ids(n)
    ensures Owner(n, id + k * n) == id
  {
    if k > 0 {
      RoundsNeverCollide(n, id, k - 1);
      assert id + k * n == id + (k - 1) * n + n;
    }
  }

  lemma AtLeastOne(d: int, n: nat)
    requires d >= 1
    ensures d * n >= n
  {
    assert d * n == n + (d - 1) * n;
  }

  lemma Remainder(n: nat, quotient: int, rest: nat)
    requires rest < n
    ensures (quotient * n + rest) % n == rest
  {
    var x := quotient * n + rest;
    var d := x / n - quotient;
    assert d * n == rest - x % n;
    if d >= 1 {
      AtLeastOne(d, n);
    } else if d <= -1 {
      AtLeastOne(-d, n);
    }
  }

  /** Taking a round modulo `n` gives the node's id back exactly if that is not `n`, which comes out as 0. */
  lemma RoundModulo(n: nat, id: Id, k: nat)
    requires n >= 1 && id in Ids(n)
    ensures (id + k * n) % n == if id == n then 0 else id
    ensures (id + k * n) % n == id <==> id != n
  {
    if id == n {
      assert id + k * n == (k + 1) * n + 0;
      Remainder(n, k + 1, 0);
    } else {
      Remainder(n, k, id);
    }
  }

  /** All ACCEPTs of one round come from its owner and carry one value, repeated promises included. */
  lemma OneValueOneOwner(n: nat, run: seq<System>, events: seq<Event>, i: nat, j: nat, m: Accept, m': Accept)
    requires n >= 1 && IsAddressedRun(n, run, events) && i < |run| && j < |run|
    requires m in run[i].accepts && m' in run[j].accepts && m.crnd == m'.crnd
    ensures m.from == m'.from == Owner(n, m.crnd) && m.cval == m'.cval
  {
    var k := |run| - 1;
    AcceptorsAdvance(n, run, events, i, k);
    AcceptorsAdvance(n, run, events, j, k);
    RunInv(n, run, events, k);
    assert Started(n, run[k], m.from, m.crnd) && Started(n, run[k], m'.from, m'.crnd);
  }
}
