/**
 What the single-decree protocol still guarantees when a TRUST-VALUE may reach a node it does not name: a
 round may then carry two values, but unanimous choices agree.
 */
module PaxosUnanimity {
  import opened Wrappers
  import opened Quorums
  import opened Sets
  import opened PaxosNode
  import opened PaxosSystem
  import opened PaxosInvariant
  import opened PaxosProgress

  /** An acceptor votes for one value in a round. */
  ghost predicate VotesOnce(s: System) {
    forall a, r, w, w' | Voted(s, a, r, w) && Voted(s, a, r, w') :: w == w'
  }

  /** Some acceptor is past round `r` without having voted there for anything but `w`. */
  ghost predicate HasBlocker(n: nat, s: System, r: Round, w: Option<Value>)
    requires n >= 1 && WellFormed(n, s)
  {
    exists a :: a in Blockers(n, s, r, w)
  }

  /** No other value is chosen by all below the round of an ACCEPT. */
  ghost predicate ProposalsBlocked(n: nat, s: System)
    requires n >= 1 && WellFormed(n, s)
  {
    forall m, r | m in s.accepts && r < m.crnd :: HasBlocker(n, s, r, m.cval)
  }

  /** The part of the invariant that does not need TRUST-VALUEs to name their recipient. */
  ghost predicate LooseInv(n: nat, s: System)
    requires n >= 1
  {
    && WellFormed(n, s)
    && RoundsOwned(n, s)
    && VotesRecorded(n, s)
    && PromisesTruthful(n, s)
    && PromisesUnique(s)
    && CollectedPromises(n, s)
    && VotesOnce(s)
    && ProposalsBlocked(n, s)
  }

  lemma NewVoteFirst(n: nat, s: System, e: Event, s': System, a: Id, r: Round, w: Option<Value>, w': Option<Value>)
    requires n >= 1 && WellFormed(n, s) && VotesRecorded(n, s) && Step(n, s, e, s')
    requires Voted(s', a, r, w) && !Voted(s, a, r, w)
    ensures !Voted(s, a, r, w') && e.DeliverAccept? && w == e.accept.cval
  {
    VotesAfter(n, s, e, s');
    assert Learn(a, a, r, w) in s'.learns - s.learns;
    assert Voted(s, a, r, w') ==> VoteBacked(n, s, Learn(a, a, r, w'));
  }

  lemma VotesOnceKept(n: nat, s: System, e: Event, s': System)
    requires n >= 1 && WellFormed(n, s) && VotesRecorded(n, s) && VotesOnce(s) && Step(n, s, e, s')
    ensures VotesOnce(s')
  {
    forall a, r, w, w' | Voted(s', a, r, w) && Voted(s', a, r, w') ensures w == w' {
      if !Voted(s, a, r, w) {
        NewVoteFirst(n, s, e, s', a, r, w, w');
      }
      if !Voted(s, a, r, w') {
        NewVoteFirst(n, s, e, s', a, r, w', w);
      }
    }
  }

  /** Whoever promised `b` and reported no vote above `r`, and none at `r` for another value, blocks. */
  lemma ReporterBlocks(n: nat, s: System, p: Id, b: Round, x: Entry, r: Round, w: Option<Value>)
    requires n >= 1 && WellFormed(n, s) && PromisesTruthful(n, s) && VotesOnce(s)
    requires Reported(s, p, b, x) && r < b
    requires x.vrnd.Some? ==> x.vrnd.value <= r
    requires x.vrnd == Some(r) ==> x.vval == w
    ensures HasBlocker(n, s, r, w)
  {
    var m := Promise(x.acceptor, p, b, x.vrnd, x.vval);
    assert m in s.promises && Truthful(s, m);
    forall u | Voted(s, x.acceptor, r, u) ensures u == w {
    }
    assert VotedOnly(s, x.acceptor, r, w);
    assert x.acceptor in Blockers(n, s, r, w);
  }

  lemma NewProposalBlocked(n: nat, s: System, p: Id, b: Round, mv: set<Entry>, v: Option<Value>, c: Option<Value>,
      r: Round)
    requires n >= 1 && WellFormed(n, s) && VotesRecorded(n, s) && PromisesTruthful(n, s) && VotesOnce(s)
    requires ProposalsBlocked(n, s) && mv != {} && r < b
    requires forall x | x in mv :: Reported(s, p, b, x)
    requires Proposes(mv, v, c)
    ensures HasBlocker(n, s, r, c)
  {
    if NoPromisesWithValue(mv) {
      var x :| x in mv;
      ReporterBlocks(n, s, p, b, x, r, c);
    } else {
      var x :| x in mv && CanSortLast(mv, x) && x.vval == c;
      ReportedVoteOnAccept(n, s, p, b, x);
      if r >= x.vrnd.value {
        ReporterBlocks(n, s, p, b, x, r, c);
      }
    }
  }

  lemma BlockersKept(n: nat, s: System, e: Event, s': System)
    requires n >= 1 && WellFormed(n, s) && VotesRecorded(n, s) && PromisesTruthful(n, s) && CollectedPromises(n, s)
    requires VotesOnce(s) && ProposalsBlocked(n, s) && Step(n, s, e, s') && WellFormed(n, s')
    ensures ProposalsBlocked(n, s')
  {
    forall m, r | m in s'.accepts && r < m.crnd ensures HasBlocker(n, s', r, m.cval) {
      if m !in s.accepts {
        NewAccept(n, s, e, m);
        var mv := s.nodes[m.from].mv + {Brought(e.promise)};
        forall x | x in mv ensures Reported(s, m.from, m.crnd, x) {
          assert x in s.nodes[m.from].mv ==> Collected(s, m.from, x);
        }
        NewProposalBlocked(n, s, m.from, m.crnd, mv, s.nodes[m.from].v, m.cval, r);
      }
      assert HasBlocker(n, s, r, m.cval);
      BlockersStay(n, s, e, s', r, m.cval);
      var a :| a in Blockers(n, s, r, m.cval);
      assert a in Blockers(n, s', r, m.cval);
    }
  }

  lemma StepLoose(n: nat, s: System, e: Event, s': System)
    requires n >= 1 && LooseInv(n, s) && Step(n, s, e, s')
    ensures LooseInv(n, s')
  {
    RoundsKept(n, s, e, s');
    VotesKept(n, s, e, s');
    PromisesKept(n, s, e, s');
    CollectedKept(n, s, e, s');
    VotesOnceKept(n, s, e, s');
    BlockersKept(n, s, e, s');
  }

  lemma {:induction false} PathLoose(n: nat, path: seq<System>, events: seq<Event>, i: nat)
    requires n >= 1 && IsPath(n, false, path, events) && path[0] == Init(n) && i < |path|
    ensures LooseInv(n, path[i])
  {
    if i > 0 {
      PathLoose(n, path, events, i - 1);
      assert PathStep(n, false, path, events, i - 1);
      StepLoose(n, path[i - 1], events[i - 1], path[i]);
    }
  }

  lemma AllVoted(n: nat, s: System, r: Round, w: Option<Value>)
    requires Chosen(n, n, s, r, w)
    ensures forall a | a in Ids(n) :: Voted(s, a, r, w)
  {
    IdsSize(n);
    var voters := Voters(n, s, r, w);
    SubsetSize(voters, Ids(n));
    assert Ids(n) == voters + (Ids(n) - voters);
  }

  /** What all voted for every later ACCEPT carries. */
  lemma LaterSame(n: nat, s: System, r: Round, w: Option<Value>, m: Accept)
    requires n >= 1 && WellFormed(n, s) && ProposalsBlocked(n, s) && m in s.accepts && r < m.crnd
    requires forall a | a in Ids(n) :: Voted(s, a, r, w)
    ensures m.cval == w
  {
    assert HasBlocker(n, s, r, m.cval);
    var a :| a in Blockers(n, s, r, m.cval);
    assert VotedOnly(s, a, r, m.cval) && Voted(s, a, r, w);
  }

  /** A choice by all leaves no room for another one, now or in a later round. */
  lemma UnanimousFirst(n: nat, s: System, r: Round, w: Option<Value>, r': Round, w': Option<Value>)
    requires n >= 1 && LooseInv(n, s) && Chosen(n, n, s, r, w) && Chosen(n, n, s, r', w') && r <= r'
    ensures w == w'
  {
    AllVoted(n, s, r, w);
    AllVoted(n, s, r', w');
    assert IsId(n, 1) && Voted(s, 1, r, w) && Voted(s, 1, r', w');
    if r < r' {
      VoteOnAccept(n, s, 1, r', w');
      LaterSame(n, s, r, w, Accept(Owner(n, r'), 1, r', w'));
    }
  }

  lemma UnanimousAgrees(n: nat, s: System, r: Round, w: Option<Value>, r': Round, w': Option<Value>)
    requires n >= 1 && Leads(n, false, Init(n), s) && Chosen(n, n, s, r, w) && Chosen(n, n, s, r', w')
    ensures w == w'
  {
    var path, events :| IsPath(n, false, path, events) && path[0] == Init(n) && path[|path| - 1] == s;
    PathLoose(n, path, events, |path| - 1);
    if r <= r' {
      UnanimousFirst(n, s, r, w, r', w');
    } else {
      UnanimousFirst(n, s, r', w', r, w);
    }
  }
}
