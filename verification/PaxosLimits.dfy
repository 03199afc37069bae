/**
 What agreement of the single-decree protocol depends on: how many votes make a choice, and whether every
 TRUST-VALUE names the node it reaches. Both with and without that, the number of votes is exact.
 */
module PaxosLimits {
  import opened Wrappers
  import opened Quorums
  import opened Sets
  import opened PaxosNode
  import opened PaxosSystem
  import opened PaxosInvariant
  import opened PaxosAgreement
  import opened PaxosProgress
  import opened PaxosUnanimity

  /** No state that steps lead to shows two different values with `q` votes each; if `strict`, every
      TRUST-VALUE on the way names its recipient. */
  ghost predicate Agreement(n: nat, strict: bool, q: nat)
    requires n >= 1
  {
    forall s, r, w, r', w' | Leads(n, strict, Init(n), s) && Chosen(n, q, s, r, w) && Chosen(n, q, s, r', w') :: w == w'
  }

  // ---- How many votes make a choice ----

  /** `t` is `s` after `p` got payload `x`, and maybe started a round. */
  ghost predicate PayloadSet(s: System, t: System, p: Id, x: Value) {
    && t.nodes.Keys == s.nodes.Keys && t.learns == s.learns && t.promises == s.promises
    && (forall j | j in s.nodes :: j in t.nodes && t.nodes[j].rnd == s.nodes[j].rnd && Report(t, j) == Report(s, j))
    && p in t.nodes && t.nodes[p].v == Some(x)
  }

  /** A TRUST-VALUE sets the payload; it starts a round only at the node it names. */
  lemma TrustValueSets(n: nat, strict: bool, s: System, p: Id, c: Id, x: Value) returns (t: System)
    requires n >= 1 && Leads(n, strict, Init(n), s) && p in s.nodes && (strict ==> c == p)
    ensures Leads(n, strict, Init(n), t) && PayloadSet(s, t, p, x)
    ensures c != p ==> t.nodes == s.nodes[p := s.nodes[p].(v := Some(x))]
  {
    LeadsOn(n, strict, Init(n), s, TrustValue(p, c, x));
    t := Next(n, s, TrustValue(p, c, x));
  }

  lemma PayloadKeeps(n: nat, s: System, u: System, p: Id, x: Value, bound: int, lo: nat)
    requires n >= 1 && PayloadSet(s, u, p, x) && Upto(s, bound)
    requires forall j | lo < j <= lo + PromiseQuorum(n) :: j in s.nodes && s.nodes[j].vrnd.None?
    ensures Upto(u, bound)
    ensures NoPromisesWithValue(Reports(u, lo, PromiseQuorum(n)))
  {
    forall j | j in u.nodes ensures u.nodes[j].rnd <= bound && RoundAtMost(u.nodes[j].vrnd, Some(u.nodes[j].rnd)) {
      assert Report(u, j) == Report(s, j);
    }
    forall y | y in Reports(u, lo, PromiseQuorum(n)) ensures y.vrnd.None? {
      ReportsAre(u, lo, PromiseQuorum(n), y);
      assert y == Report(u, y.acceptor) == Report(s, y.acceptor);
    }
  }

  /** Node `p` proposes `x` on a quorum that has not voted, and `1 .. q` vote for it. */
  lemma OwnRound(n: nat, strict: bool, s: System, p: Id, bound: int, x: Value, lo: nat, q: nat)
    returns (u: System, t: System, r: Round)
    requires n >= 1 && Leads(n, strict, Init(n), s) && s.nodes.Keys == Ids(n) && p in s.nodes && Upto(s, bound)
    requires lo + PromiseQuorum(n) <= n && q <= n
    requires forall j | lo < j <= lo + PromiseQuorum(n) :: j in s.nodes && s.nodes[j].vrnd.None?
    ensures Leads(n, strict, Init(n), t) && r > bound && Chosen(n, q, t, r, Some(x))
    ensures PayloadSet(s, u, p, x) && Upto(u, bound)
    ensures RoundRun(n, u, t, p, r, lo, Some(x), q) && NoPromisesWithValue(Reports(u, lo, PromiseQuorum(n)))
  {
    u := TrustValueSets(n, strict, s, p, p, x);
    PayloadKeeps(n, s, u, p, x, bound, lo);
    t, r := NewRound(n, strict, Init(n), u, p, bound, lo, Some(x), q);
  }

  lemma RoundUpto(n: nat, s: System, t: System, p: Id, r: Round, lo: nat, w: Option<Value>, q: nat, bound: int)
    requires n >= 1
    requires RoundRun(n, s, t, p, r, lo, w, q) && Upto(s, bound) && bound < r
    ensures Upto(t, r)
  {
    forall j | j in t.nodes ensures t.nodes[j].rnd <= r && RoundAtMost(t.nodes[j].vrnd, Some(t.nodes[j].rnd)) {
      assert NodeAfter(s.nodes[j], t.nodes[j], r, w, j <= q);
    }
  }

  lemma Beginning(n: nat)
    requires n >= 1
    ensures Leads(n, true, Init(n), Init(n)) && Leads(n, false, Init(n), Init(n))
    ensures Init(n).nodes.Keys == Ids(n) && Upto(Init(n), 0)
    ensures forall j | 1 <= j <= n :: j in Init(n).nodes && Init(n).nodes[j].vrnd.None?
  {
    LeadsNowhere(n, true, Init(n));
    LeadsNowhere(n, false, Init(n));
    assert forall j | 1 <= j <= n :: IsId(n, j);
  }

  lemma ChosenLater(n: nat, q: nat, s: System, t: System, r: Round, w: Option<Value>)
    requires s.learns <= t.learns && Chosen(n, q, s, r, w)
    ensures Chosen(n, q, t, r, w)
  {
    SubsetSize(Voters(n, s, r, w), Voters(n, t, r, w));
  }

  /** Those who did not vote in the first round of all have not voted. */
  lemma StillUnvoted(n: nat, s: System, t: System, p: Id, r: Round, lo: nat, x: Value, q: nat)
    requires n >= 1
    requires RoundRun(n, s, t, p, r, lo, Some(x), q) && PayloadSet(Init(n), s, p, x)
    ensures forall j | q < j <= n :: j in t.nodes && t.nodes[j].vrnd.None?
  {
    forall j | q < j <= n ensures j in t.nodes && t.nodes[j].vrnd.None? {
      assert IsId(n, j) && Report(s, j) == Report(Init(n), j);
      assert NodeAfter(s.nodes[j], t.nodes[j], r, Some(x), j <= q);
    }
  }

  /** Two rounds, a promise quorum and `q` voters apart from it: two different values are chosen. */
  lemma TwoChoices(n: nat, q: nat, a: Value, b: Value) returns (s: System, r: Round, r': Round)
    requires n >= 1 && q >= 1 && PromiseQuorum(n) + q <= n
    ensures Leads(n, true, Init(n), s) && Chosen(n, q, s, r, Some(a)) && Chosen(n, q, s, r', Some(b))
  {
    Beginning(n);
    var u, t;
    u, t, r := OwnRound(n, true, Init(n), 1, 0, a, 0, q);
    RoundUpto(n, u, t, 1, r, 0, Some(a), q, 0);
    StillUnvoted(n, u, t, 1, r, 0, a, q);
    u, s, r' := OwnRound(n, true, t, 2, r, b, q, q);
    ChosenLater(n, q, t, s, r, Some(a));
  }

  /** Choices by `q` votes agree exactly when `q` votes and a promise quorum cannot miss each other. */
  lemma AgreementIff(n: nat, q: nat, a: Value, b: Value)
    requires n >= 1 && 1 <= q <= n && a != b
    ensures Agreement(n, true, q) <==> PromiseQuorum(n) + q > n
  {
    if PromiseQuorum(n) + q > n {
      forall s, r, w, r', w' | Leads(n, true, Init(n), s) && Chosen(n, q, s, r, w) && Chosen(n, q, s, r', w')
        ensures w == w'
      {
        var run, events :| IsPath(n, true, run, events) && run[0] == Init(n) && run[|run| - 1] == s;
        AgreementOverRun(n, q, run, events, |run| - 1, |run| - 1, r, w, r', w');
      }
    } else {
      var s, r, r' := TwoChoices(n, q, a, b);
    }
  }

  /** The code's own threshold agrees with itself for odd numbers of nodes only; a majority always does. */
  lemma AgreementNeedsOddNodes(n: nat, a: Value, b: Value)
    requires n >= 1 && a != b
    ensures Agreement(n, true, PromiseQuorum(n)) <==> n % 2 == 1
    ensures Agreement(n, true, Majority(n))
  {
    AgreementIff(n, PromiseQuorum(n), a, b);
    AgreementIff(n, Majority(n), a, b);
  }

  // ---- A TRUST-VALUE that names another node ----

  /** No promise that could be delivered next makes a round carry two values. */
  ghost predicate PromisesKeepOneValue(n: nat, s: System)
    requires n >= 1
  {
    forall e: Event | e.DeliverPromise? && Enabled(n, s, e) :: OneValuePerRound(Next(n, s, e))
  }

  /** `p` sent ACCEPTs for its current round on exactly a quorum of promises, none with a vote. */
  ghost predicate ProposedOwnValue(n: nat, s: System, p: Id)
    requires n >= 1 && p in s.nodes
  {
    var node := s.nodes[p];
    && node.crnd.Some? && |node.mv| == PromiseQuorum(n) && NoPromisesWithValue(node.mv)
    && exists w :: AcceptSent(s, node.crnd.value, w)
  }

  lemma OwnProposalSent(n: nat, s: System, p: Id, w: Option<Value>)
    requires n >= 1 && WellFormed(n, s) && RoundsOwned(n, s) && RoundsSettled(n, s)
    requires p in s.nodes && ProposedOwnValue(n, s, p)
    requires AcceptSent(s, s.nodes[p].crnd.value, w)
    ensures w == s.nodes[p].v
  {
    var from, to :| Accept(from, to, s.nodes[p].crnd.value, w) in s.accepts;
    var m := Accept(from, to, s.nodes[p].crnd.value, w);
    assert Started(n, s, from, m.crnd) && Started(n, s, p, m.crnd) && Settled(n, s, m);
  }

  lemma RefireChangesValue(n: nat, s: System, p: Id, c: Id, value: Value)
    requires n >= 1 && WellFormed(n, s) && RoundsOwned(n, s) && CollectedPromises(n, s) && RoundsSettled(n, s)
    requires p in s.nodes && c != p
    requires ProposedOwnValue(n, s, p) && s.nodes[p].v != Some(value)
    ensures !PromisesKeepOneValue(n, Next(n, s, TrustValue(p, c, value)))
  {
    var s' := Next(n, s, TrustValue(p, c, value));
    var node := s.nodes[p];
    var r := node.crnd.value;
    var x :| x in node.mv;
    assert Collected(s, p, x) && node.mv + {x} == node.mv;
    PromiseRecorded(n, s', p, r, x, Some(value));
    var e := DeliverPromise(Promise(x.acceptor, p, r, x.vrnd, x.vval), Some(value));
    var w :| AcceptSent(s, r, w);
    OwnProposalSent(n, s, p, w);
    TwoValues(Next(n, s', e), p, r, w, Some(value));
  }

  lemma TwoValues(s: System, p: Id, r: Round, w: Option<Value>, w': Option<Value>)
    requires w != w' && AcceptSent(s, r, w) && Accept(p, p, r, w') in s.accepts
    ensures !OneValuePerRound(s)
  {
    var from, to :| Accept(from, to, r, w) in s.accepts;
    assert Accept(from, to, r, w).cval != Accept(p, p, r, w').cval;
  }

  /** A TRUST-VALUE leaves one value per round under every repeated promise exactly when it names its
      recipient, or the recipient is not waiting on a proposal of its own, or the value is the same. */
  lemma MisaddressedTrustValue(n: nat, s: System, p: Id, c: Id, value: Value)
    requires n >= 1 && Inv(n, s) && p in s.nodes
    ensures PromisesKeepOneValue(n, Next(n, s, TrustValue(p, c, value))) <==>
            c == p || !ProposedOwnValue(n, s, p) || s.nodes[p].v == Some(value)
  {
    var e := TrustValue(p, c, value);
    var s' := Next(n, s, e);
    if c != p && ProposedOwnValue(n, s, p) && s.nodes[p].v != Some(value) {
      RefireChangesValue(n, s, p, c, value);
    } else {
      RoundsKept(n, s, e, s');
      VotesKept(n, s, e, s');
      PromisesKept(n, s, e, s');
      CollectedKept(n, s, e, s');
      if c == p {
        SettledKept(n, s, e, s');
      } else {
        SettledDespiteValue(n, s, p, c, value);
      }
      forall e': Event | e'.DeliverPromise? && Enabled(n, s', e') ensures OneValuePerRound(Next(n, s', e')) {
        OneValueKept(n, s', e', Next(n, s', e'));
      }
    }
  }

  lemma SettledDespiteValue(n: nat, s: System, p: Id, c: Id, value: Value)
    requires n >= 1 && Inv(n, s) && p in s.nodes && c != p
    requires !ProposedOwnValue(n, s, p) || s.nodes[p].v == Some(value)
    ensures var s' := Next(n, s, TrustValue(p, c, value)); WellFormed(n, s') && RoundsSettled(n, s')
  {
    var s' := Next(n, s, TrustValue(p, c, value));
    forall m | m in s'.accepts ensures Settled(n, s', m) {
      assert m in s.accepts && Settled(n, s, m);
      assert Accept(m.from, m.to, m.crnd, m.cval) == m;
      assert AcceptSent(s, m.crnd, m.cval);
    }
  }

  // ---- and what it can lead to ----

  /** A repeated promise proposes the new payload in the round that proposed the old one. */
  lemma Refire(n: nat, u: System, t: System, r: Round, a: Value, q: nat, b: Value) returns (s: System)
    requires n >= 1 && Leads(n, false, Init(n), t)
    requires RoundRun(n, u, t, 1, r, 0, Some(a), q) && NoPromisesWithValue(Reports(u, 0, PromiseQuorum(n)))
    ensures Leads(n, false, Init(n), s) && AcceptAll(1, n, r, Some(b)) <= s.accepts && s.learns == t.learns
    ensures s.nodes.Keys == t.nodes.Keys && forall j | j in t.nodes && j != 1 :: s.nodes[j] == t.nodes[j]
    ensures 1 in t.nodes && s.nodes[1] == t.nodes[1].(v := Some(b))
  {
    var mv, x := t.nodes[1].mv, Report(u, 1);
    assert mv == Reports(u, 0, PromiseQuorum(n));
    ReportsAre(u, 0, PromiseQuorum(n), x);
    ReportsSize(u, 0, PromiseQuorum(n));
    assert x in mv && mv + {x} == mv;
    var v := TrustValueSets(n, false, t, 1, 2, b);
    s := RecordPromise(n, false, Init(n), v, 1, r, x, mv, Some(b));
  }

  /** Acceptor `j`, which promised the round but missed its first ACCEPT, votes for the second. */
  lemma LateVote(n: nat, s: System, r: Round, j: Id, b: Value) returns (t: System)
    requires n >= 1 && Leads(n, false, Init(n), s) && j in s.nodes && 1 <= j <= n &&
             AcceptAll(1, n, r, Some(b)) <= s.accepts
    requires s.nodes[j].rnd == r && s.nodes[j].vrnd.None?
    ensures Leads(n, false, Init(n), t) && s.learns <= t.learns
    ensures t.nodes == s.nodes[j := s.nodes[j].(vrnd := Some(r), vval := Some(b))]
  {
    var e := DeliverAccept(Accept(1, j, r, Some(b)));
    LeadsOn(n, false, Init(n), s, e);
    t := Next(n, s, e);
  }

  /** A quorum with a vote for `b` in the highest round may propose `b`, whatever else was voted there. */
  lemma TieAllows(n: nat, s: System, r: Round, lo: nat, k: nat, j: Id, b: Value, v: Option<Value>)
    requires Upto(s, r) && (forall i | lo < i <= lo + k :: i in s.nodes) && lo < j <= lo + k
    requires s.nodes[j].vrnd == Some(r) && s.nodes[j].vval == Some(b)
    ensures Proposes(Reports(s, lo, k), v, Some(b))
  {
    var mv, x := Reports(s, lo, k), Report(s, j);
    ReportsAre(s, lo, k, x);
    forall y | y in mv ensures RoundAtMost(y.vrnd, x.vrnd) {
      ReportsAre(s, lo, k, y);
    }
    assert CanSortLast(mv, x);
  }

  /** The first round of all: node 1 has `q` acceptors vote for `a`; acceptor `n` promised but did not vote. */
  lemma FirstRound(n: nat, q: nat, a: Value) returns (u: System, t: System, r: Round)
    requires n >= 1 && q < n
    ensures Leads(n, false, Init(n), t) && Upto(t, r) && Chosen(n, q, t, r, Some(a))
    ensures t.nodes.Keys == Ids(n) && n in t.nodes && t.nodes[n].rnd == r && t.nodes[n].vrnd.None?
    ensures RoundRun(n, u, t, 1, r, 0, Some(a), q) && NoPromisesWithValue(Reports(u, 0, PromiseQuorum(n)))
  {
    Beginning(n);
    u, t, r := OwnRound(n, false, Init(n), 1, 0, a, 0, q);
    RoundUpto(n, u, t, 1, r, 0, Some(a), q, 0);
    StillUnvoted(n, u, t, 1, r, 0, a, q);
    assert IsId(n, n) && NodeAfter(u.nodes[n], t.nodes[n], r, Some(a), n <= q);
  }

  /** `q` acceptors vote for `a` and one more for `b`, in one round. */
  lemma SplitRound(n: nat, q: nat, a: Value, b: Value) returns (w: System, r: Round)
    requires n >= 1 && q < n
    ensures Leads(n, false, Init(n), w) && w.nodes.Keys == Ids(n) && Upto(w, r) && n in w.nodes
    ensures w.nodes[n].vrnd == Some(r) && w.nodes[n].vval == Some(b) && Chosen(n, q, w, r, Some(a))
  {
    var u, t;
    u, t, r := FirstRound(n, q, a);
    var v := Refire(n, u, t, r, a, q, b);
    w := LateVote(n, v, r, n, b);
    ChosenLater(n, q, t, w, r, Some(a));
  }

  /** One misaddressed TRUST-VALUE is enough for choices of `q` votes to differ, unless that is all of them. */
  lemma MisaddressedDisagreement(n: nat, q: nat, a: Value, b: Value)
    requires n >= 2 && q < n && a != b
    ensures !Agreement(n, false, q)
  {
    var f := PromiseQuorum(n);
    var w, r := SplitRound(n, q, a, b);
    assert forall j | n - f < j <= n :: IsId(n, j);
    assert IsId(n, 2);
    TieAllows(n, w, r, n - f, f, n, b, w.nodes[2].v);
    var s, r' := NewRound(n, false, Init(n), w, 2, r, n - f, Some(b), n);
    ChosenLater(n, q, w, s, r, Some(a));
    assert Chosen(n, q, s, r', Some(b));
  }

  /** When a TRUST-VALUE may reach a node it does not name, choices by `q` votes agree exactly when they are
      unanimous. */
  lemma LooseAgreementIff(n: nat, q: nat, a: Value, b: Value)
    requires 1 <= q <= n && a != b
    ensures Agreement(n, false, q) <==> q == n
  {
    if q == n {
      forall s, r, w, r', w' | Leads(n, false, Init(n), s) && Chosen(n, q, s, r, w) && Chosen(n, q, s, r', w')
        ensures w == w'
      {
        UnanimousAgrees(n, s, r, w, r', w');
      }
    } else {
      MisaddressedDisagreement(n, q, a, b);
    }
  }

  /** So a majority agrees with up to two nodes only, and the code's own threshold with one. */
  lemma LooseMajorities(n: nat, a: Value, b: Value)
    requires n >= 1 && a != b
    ensures Agreement(n, false, Majority(n)) <==> n <= 2
    ensures Agreement(n, false, PromiseQuorum(n)) <==> n == 1
  {
    if n > 1 {
      LooseAgreementIff(n, Majority(n), a, b);
    } else {
      LooseAgreementIff(1, 1, a, b);
    }
    LooseAgreementIff(n, PromiseQuorum(n), a, b);
  }
}
