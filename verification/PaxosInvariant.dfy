/** What every step of the single-decree protocol keeps, for any number of nodes. */
module PaxosInvariant {
  import opened Wrappers
  import opened Quorums
  import opened Sets
  import opened PaxosNode
  import opened PaxosSystem

  /** The one node whose `crnd` can ever be `r`: rounds of node `id` are `id`, `id + n`, ... */
  function Owner(n: nat, r: Round): Id
    requires n >= 1
    decreases r
  {
    if r <= n then r else Owner(n, r - n)
  }

  ghost predicate WellFormed(n: nat, s: System) {
    && s.nodes.Keys == Ids(n)
    && (forall m | m in s.prepares :: m.from in s.nodes && m.to in s.nodes)
    && (forall m | m in s.promises :: m.from in s.nodes && m.to in s.nodes)
    && (forall m | m in s.accepts :: m.from in s.nodes && m.to in s.nodes)
    && (forall m | m in s.learns :: m.from in s.nodes && m.to in s.nodes)
  }

  /** Node `p` has started round `r`. */
  ghost predicate Started(n: nat, s: System, p: Id, r: Round)
    requires n >= 1 && p in s.nodes
  {
    r >= 1 && Owner(n, r) == p && s.nodes[p].crnd.Some? && r <= s.nodes[p].crnd.value
  }

  ghost predicate RoundsOwned(n: nat, s: System)
    requires n >= 1 && WellFormed(n, s)
  {
    && (forall p | p in s.nodes && s.nodes[p].crnd.Some? :: Started(n, s, p, s.nodes[p].crnd.value))
    && (forall m | m in s.prepares :: Started(n, s, m.from, m.crnd))
    && (forall m | m in s.promises :: Started(n, s, m.to, m.rnd))
    && (forall m | m in s.accepts :: Started(n, s, m.from, m.crnd))
  }

  /** `vrnd` and `vval` are a vote the acceptor announced, at or below its `rnd`. */
  ghost predicate LastVoteRecorded(s: System, a: Id)
    requires a in s.nodes
  {
    var node := s.nodes[a];
    && node.rnd >= 0
    && (node.vrnd.None? ==> node.vval.None?)
    && (node.vrnd.Some? ==> node.vrnd.value <= node.rnd && Voted(s, a, node.vrnd.value, node.vval))
  }

  /** An announced vote is not above its caster's last one and answers an ACCEPT. */
  ghost predicate VoteBacked(n: nat, s: System, m: Learn)
    requires n >= 1 && m.from in s.nodes
  {
    && Voted(s, m.from, m.rnd, m.vval)
    && s.nodes[m.from].vrnd.Some? && 1 <= m.rnd <= s.nodes[m.from].vrnd.value
    && Accept(Owner(n, m.rnd), m.from, m.rnd, m.vval) in s.accepts
  }

  ghost predicate VotesRecorded(n: nat, s: System)
    requires n >= 1 && WellFormed(n, s)
  {
    && (forall a | a in s.nodes :: LastVoteRecorded(s, a))
    && (forall m | m in s.learns :: VoteBacked(n, s, m))
  }

  /** The promise reports the last vote its sender cast, and ever will cast, below the round. */
  ghost predicate Truthful(s: System, m: Promise) {
    match m.vrnd
    case None => m.vval.None? && forall j, w | j < m.rnd :: !Voted(s, m.from, j, w)
    case Some(k) => k < m.rnd && Voted(s, m.from, k, m.vval) && forall j, w | k < j < m.rnd :: !Voted(s, m.from, j, w)
  }

  ghost predicate PromisesTruthful(n: nat, s: System)
    requires n >= 1 && WellFormed(n, s)
  {
    forall m | m in s.promises :: m.rnd <= s.nodes[m.from].rnd && Truthful(s, m)
  }

  /** An acceptor promises a round at most once. */
  ghost predicate PromisesUnique(s: System) {
    forall m, m' | m in s.promises && m' in s.promises && m.from == m'.from && m.rnd == m'.rnd :: m == m'
  }

  /** `x` came to `p` with a promise for round `b`. */
  ghost predicate Reported(s: System, p: Id, b: Round, x: Entry) {
    Promise(x.acceptor, p, b, x.vrnd, x.vval) in s.promises
  }

  ghost predicate Collected(s: System, p: Id, x: Entry)
    requires p in s.nodes
  {
    s.nodes[p].crnd.Some? && Reported(s, p, s.nodes[p].crnd.value, x)
  }

  ghost predicate CollectedPromises(n: nat, s: System)
    requires n >= 1 && WellFormed(n, s)
  {
    forall p, x | p in s.nodes && x in s.nodes[p].mv :: Collected(s, p, x)
  }

  /** Should the round of ACCEPT `m` still be running at its sender, the promise quorum is complete,
      and no repeated promise can make the sender propose anything else. */
  ghost predicate Settled(n: nat, s: System, m: Accept)
    requires n >= 1 && m.from in s.nodes
  {
    var node := s.nodes[m.from];
    node.crnd == Some(m.crnd) ==>
      && |node.mv| >= PromiseQuorum(n)
      && (|node.mv| == PromiseQuorum(n) ==> Proposes(node.mv, node.v, m.cval))
  }

  ghost predicate RoundsSettled(n: nat, s: System)
    requires n >= 1 && WellFormed(n, s)
  {
    forall m | m in s.accepts :: Settled(n, s, m)
  }

  ghost predicate OneValuePerRound(s: System) {
    forall m, m' | m in s.accepts && m' in s.accepts && m.crnd == m'.crnd :: m.cval == m'.cval
  }

  /** Acceptors past round `r` that did not vote there for anything but `w`. */
  ghost function Blockers(n: nat, s: System, r: Round, w: Option<Value>): set<Id>
    requires n >= 1 && WellFormed(n, s)
  {
    set a | a in Ids(n) && s.nodes[a].rnd > r && VotedOnly(s, a, r, w)
  }

  ghost predicate VotedOnly(s: System, a: Id, r: Round, w: Option<Value>) {
    forall u :: Voted(s, a, r, u) ==> u == w
  }

  /** No other value was, or still can be, chosen below round `b`. */
  ghost predicate SafeAt(n: nat, s: System, b: Round, w: Option<Value>)
    requires n >= 1 && WellFormed(n, s)
  {
    forall r | r < b :: |Blockers(n, s, r, w)| >= PromiseQuorum(n)
  }

  ghost predicate ProposalsSafe(n: nat, s: System)
    requires n >= 1 && WellFormed(n, s)
  {
    forall m | m in s.accepts :: SafeAt(n, s, m.crnd, m.cval)
  }

  ghost predicate LearnedFromVoter(n: nat, s: System)
    requires n >= 1 && WellFormed(n, s)
  {
    forall p, r | p in s.nodes && r in s.nodes[p].values ::
      exists a :: Learn(a, p, r, s.nodes[p].values[r]) in s.learns
  }

  /** `w` is None or was supplied by a TRUST-VALUE. */
  ghost predicate Supplied(s: System, w: Option<Value>) {
    w.Some? ==> w.value in s.inputs
  }

  ghost predicate ProposalsSupplied(n: nat, s: System)
    requires n >= 1 && WellFormed(n, s)
  {
    && (forall p | p in s.nodes :: Supplied(s, s.nodes[p].v))
    && (forall m | m in s.accepts :: Supplied(s, m.cval))
  }

  ghost predicate Inv(n: nat, s: System)
    requires n >= 1
  {
    && WellFormed(n, s)
    && RoundsOwned(n, s)
    && VotesRecorded(n, s)
    && PromisesTruthful(n, s)
    && PromisesUnique(s)
    && CollectedPromises(n, s)
    && RoundsSettled(n, s)
    && OneValuePerRound(s)
    && ProposalsSafe(n, s)
    && LearnedFromVoter(n, s)
    && ProposalsSupplied(n, s)
  }

  lemma InitInv(n: nat)
    requires n >= 1
    ensures Inv(n, Init(n))
  {
  }

  // ---- One step ----

  lemma NextRoundOwned(n: nat, id: Id, crnd: Option<Round>)
    requires n >= 1 && id in Ids(n)
    requires crnd.Some? ==> crnd.value >= 1 && Owner(n, crnd.value) == id
    ensures var r := NextRound(id, n, crnd); r >= 1 && Owner(n, r) == id && (crnd.Some? ==> r > crnd.value)
  {
  }

  // ---- One step keeps each part ----

  /** Only the target changes; its `crnd` stays or moves to its next round. */
  lemma NodesAfter(n: nat, s: System, e: Event, s': System)
    requires n >= 1 && Step(n, s, e, s')
    ensures s'.nodes.Keys == s.nodes.Keys
    ensures forall p | p in s.nodes && p != Target(e) :: s'.nodes[p] == s.nodes[p]
    ensures var (x, x') := (s.nodes[Target(e)], s'.nodes[Target(e)]);
            && (x'.crnd == x.crnd || x'.crnd == Some(NextRound(Target(e), n, x.crnd)))
            && x'.rnd >= x.rnd
  {
  }

  lemma StartedKept(n: nat, s: System, e: Event, s': System)
    requires n >= 1 && WellFormed(n, s) && RoundsOwned(n, s) && Step(n, s, e, s')
    ensures s'.nodes.Keys == s.nodes.Keys
    ensures forall p, r | p in s.nodes && Started(n, s, p, r) :: Started(n, s', p, r)
    ensures forall p | p in s.nodes && s'.nodes[p].crnd.Some? :: Started(n, s', p, s'.nodes[p].crnd.value)
  {
    NodesAfter(n, s, e, s');
    NextRoundOwned(n, Target(e), s.nodes[Target(e)].crnd);
  }

  /** What a step sends is for its sender's round, or answers a PREPARE. */
  lemma PreparesAfter(n: nat, s: System, e: Event, s': System)
    requires n >= 1 && WellFormed(n, s) && Step(n, s, e, s')
    ensures forall m | m in s'.prepares - s.prepares ::
              m.from == Target(e) && m.to in s.nodes && s'.nodes[m.from].crnd == Some(m.crnd)
  {
  }

  lemma AcceptsAfter(n: nat, s: System, e: Event, s': System)
    requires n >= 1 && WellFormed(n, s) && Step(n, s, e, s')
    ensures forall m | m in s'.accepts - s.accepts ::
              m.from == Target(e) && m.to in s.nodes && s'.nodes[m.from].crnd == Some(m.crnd)
  {
  }

  lemma AnswersAfter(n: nat, s: System, e: Event, s': System)
    requires n >= 1 && WellFormed(n, s) && Step(n, s, e, s')
    ensures forall m | m in s'.promises - s.promises ::
              m.from == Target(e) && m.to in s.nodes && Prepare(m.to, m.from, m.rnd) in s.prepares
    ensures forall m | m in s'.learns - s.learns :: m.from == Target(e) && m.to in s.nodes
  {
  }

  lemma WellFormedKept(n: nat, s: System, e: Event, s': System)
    requires n >= 1 && WellFormed(n, s) && Step(n, s, e, s')
    ensures WellFormed(n, s')
  {
    NodesAfter(n, s, e, s');
    PreparesAfter(n, s, e, s');
    AcceptsAfter(n, s, e, s');
    AnswersAfter(n, s, e, s');
    assert forall m | m in s'.prepares :: m in s.prepares || m in s'.prepares - s.prepares;
    assert forall m | m in s'.promises :: m in s.promises || m in s'.promises - s.promises;
    assert forall m | m in s'.accepts :: m in s.accepts || m in s'.accepts - s.accepts;
    assert forall m | m in s'.learns :: m in s.learns || m in s'.learns - s.learns;
  }

  lemma RoundsKept(n: nat, s: System, e: Event, s': System)
    requires n >= 1 && WellFormed(n, s) && RoundsOwned(n, s) && Step(n, s, e, s')
    ensures WellFormed(n, s') && RoundsOwned(n, s')
  {
    WellFormedKept(n, s, e, s');
    StartedKept(n, s, e, s');
    PreparesAfter(n, s, e, s');
    AcceptsAfter(n, s, e, s');
    AnswersAfter(n, s, e, s');
    forall m | m in s'.promises ensures Started(n, s', m.to, m.rnd) {
      assert m in s.promises || Prepare(m.to, m.from, m.rnd) in s.prepares;
    }
    forall m | m in s'.prepares ensures Started(n, s', m.from, m.crnd) {
      assert m in s.prepares || m in s'.prepares - s.prepares;
    }
    forall m | m in s'.accepts ensures Started(n, s', m.from, m.crnd) {
      assert m in s.accepts || m in s'.accepts - s.accepts;
    }
  }

  /** A vote is cast on an ACCEPT, at or above every round its caster promised, above every round it voted in. */
  lemma VotesAfter(n: nat, s: System, e: Event, s': System)
    requires n >= 1 && WellFormed(n, s) && VotesRecorded(n, s) && Step(n, s, e, s')
    ensures s.learns <= s'.learns && s.accepts <= s'.accepts
    ensures forall a | a in s.nodes :: s'.nodes[a].rnd >= s.nodes[a].rnd
    ensures forall m | m in s'.learns - s.learns ::
              && m.from == Target(e) && 1 <= m.to <= n
              && e == DeliverAccept(e.accept) && m.rnd == e.accept.crnd && m.vval == e.accept.cval
              && m.rnd >= s.nodes[m.from].rnd
              && (s.nodes[m.from].vrnd.Some? ==> m.rnd > s.nodes[m.from].vrnd.value)
              && s'.nodes[m.from].vrnd == Some(m.rnd) && s'.nodes[m.from].vval == m.vval
              && Learn(m.from, m.from, m.rnd, m.vval) in s'.learns
  {
    assert LastVoteRecorded(s, Target(e));
  }

  /** And is remembered. */
  lemma LastVotesAfter(n: nat, s: System, e: Event, s': System)
    requires n >= 1 && WellFormed(n, s) && Step(n, s, e, s')
    ensures forall a | a in s.nodes && s'.nodes[a].vrnd != s.nodes[a].vrnd ::
              s'.nodes[a].vrnd.Some? && Voted(s', a, s'.nodes[a].vrnd.value, s'.nodes[a].vval)
              && s'.nodes[a].rnd == s'.nodes[a].vrnd.value
    ensures forall a | a in s.nodes && s'.nodes[a].vrnd == s.nodes[a].vrnd :: s'.nodes[a].vval == s.nodes[a].vval
  {
  }

  lemma LastVotesKept(n: nat, s: System, e: Event, s': System)
    requires n >= 1 && WellFormed(n, s) && VotesRecorded(n, s) && Step(n, s, e, s')
    ensures s'.nodes.Keys == s.nodes.Keys && forall a | a in s'.nodes :: LastVoteRecorded(s', a)
  {
    NodesAfter(n, s, e, s');
    VotesAfter(n, s, e, s');
    LastVotesAfter(n, s, e, s');
    forall a | a in s'.nodes ensures LastVoteRecorded(s', a) {
      assert LastVoteRecorded(s, a);
    }
  }

  lemma VotesKept(n: nat, s: System, e: Event, s': System)
    requires n >= 1 && WellFormed(n, s) && RoundsOwned(n, s) && VotesRecorded(n, s)
    requires Step(n, s, e, s') && WellFormed(n, s')
    ensures VotesRecorded(n, s')
  {
    LastVotesKept(n, s, e, s');
    VotesAfter(n, s, e, s');
    LastVotesAfter(n, s, e, s');
    forall m | m in s'.learns ensures VoteBacked(n, s', m) {
      if m in s.learns {
        assert VoteBacked(n, s, m);
      } else {
        var x := e.accept;
        assert x in s.accepts && Started(n, s, x.from, x.crnd);
        assert x == Accept(Owner(n, m.rnd), m.from, m.rnd, m.vval);
      }
    }
  }

  /** A promise goes out for a higher round than any before and reports the current vote. */
  lemma PromisesAfter(n: nat, s: System, e: Event, s': System)
    requires n >= 1 && WellFormed(n, s) && Step(n, s, e, s')
    ensures s.promises <= s'.promises
    ensures forall m | m in s'.promises - s.promises ::
              && m.from in s.nodes && m.rnd > s.nodes[m.from].rnd && m.rnd == s'.nodes[m.from].rnd
              && m.vrnd == s.nodes[m.from].vrnd && m.vval == s.nodes[m.from].vval
              && s'.learns == s.learns && s'.promises == s.promises + {m}
  {
  }

  lemma TruthfulStays(n: nat, s: System, e: Event, s': System, m: Promise)
    requires n >= 1 && WellFormed(n, s) && VotesRecorded(n, s) && Step(n, s, e, s')
    requires m.from in s.nodes && m.rnd <= s.nodes[m.from].rnd && Truthful(s, m)
    ensures Truthful(s', m)
  {
    VotesAfter(n, s, e, s');
    forall j, w | j < m.rnd && Voted(s', m.from, j, w) ensures Voted(s, m.from, j, w) {
    }
  }

  lemma TruthfulFromStart(n: nat, s: System, m: Promise)
    requires n >= 1 && WellFormed(n, s) && VotesRecorded(n, s)
    requires m.from in s.nodes && m.rnd > s.nodes[m.from].rnd
    requires m.vrnd == s.nodes[m.from].vrnd && m.vval == s.nodes[m.from].vval
    ensures Truthful(s, m)
  {
    assert LastVoteRecorded(s, m.from);
    forall j, w | Voted(s, m.from, j, w)
      ensures m.vrnd.Some? && j <= m.vrnd.value
    {
      assert VoteBacked(n, s, Learn(m.from, m.from, j, w));
    }
  }

  lemma PromisesKept(n: nat, s: System, e: Event, s': System)
    requires n >= 1 && WellFormed(n, s) && VotesRecorded(n, s) && PromisesTruthful(n, s) && PromisesUnique(s)
    requires Step(n, s, e, s') && WellFormed(n, s')
    ensures PromisesTruthful(n, s') && PromisesUnique(s')
  {
    NodesAfter(n, s, e, s');
    PromisesAfter(n, s, e, s');
    forall m | m in s'.promises
      ensures m.rnd <= s'.nodes[m.from].rnd && Truthful(s', m)
    {
      if m in s.promises {
        TruthfulStays(n, s, e, s', m);
      } else {
        TruthfulFromStart(n, s, m);
      }
    }
  }

  lemma CollectedKept(n: nat, s: System, e: Event, s': System)
    requires n >= 1 && WellFormed(n, s) && CollectedPromises(n, s) && Step(n, s, e, s') && WellFormed(n, s')
    ensures CollectedPromises(n, s')
  {
    NodesAfter(n, s, e, s');
    forall p, x | p in s'.nodes && x in s'.nodes[p].mv
      ensures Collected(s', p, x)
    {
      if x in s.nodes[p].mv {
        assert Collected(s, p, x);
      } else {
        assert e.DeliverPromise? && e.promise in s.promises;
        assert e.promise == Promise(x.acceptor, p, s'.nodes[p].crnd.value, x.vrnd, x.vval);
      }
    }
  }

  lemma SettledByPromise(n: nat, s: System, e: Event, s': System, m: Accept)
    requires n >= 1 && WellFormed(n, s) && Step(n, s, e, s') && WellFormed(n, s')
    requires e.DeliverPromise? && m in s'.accepts && (m in s.accepts ==> Settled(n, s, m))
    ensures Settled(n, s', m)
  {
    if m in s.accepts && m.from == Target(e) {
      var mv, x := s.nodes[m.from].mv, Entry(e.promise.vrnd, e.promise.vval, e.promise.from);
      InsertSize(mv, x);
      assert x in mv ==> mv + {x} == mv;
    }
  }

  lemma SettledKept(n: nat, s: System, e: Event, s': System)
    requires n >= 1 && WellFormed(n, s) && RoundsOwned(n, s) && RoundsSettled(n, s)
    requires Step(n, s, e, s') && WellFormed(n, s') && Addressed(e)
    ensures RoundsSettled(n, s')
  {
    forall m | m in s'.accepts ensures Settled(n, s', m) {
      if e.DeliverPromise? {
        SettledByPromise(n, s, e, s', m);
      } else {
        assert m in s.accepts && Settled(n, s, m) && Started(n, s, m.from, m.crnd);
      }
    }
  }

  lemma LearnedKept(n: nat, s: System, e: Event, s': System)
    requires n >= 1 && WellFormed(n, s) && LearnedFromVoter(n, s) && Step(n, s, e, s') && WellFormed(n, s')
    ensures LearnedFromVoter(n, s')
  {
    forall p, r | p in s'.nodes && r in s'.nodes[p].values
      ensures exists a :: Learn(a, p, r, s'.nodes[p].values[r]) in s'.learns
    {
      if r !in s.nodes[p].values {
        assert e.DeliverLearn? && e.learn == Learn(e.learn.from, p, r, s'.nodes[p].values[r]);
      }
    }
  }

  // ---- One value per round ----

  lemma VoteOnAccept(n: nat, s: System, a: Id, r: Round, w: Option<Value>)
    requires n >= 1 && WellFormed(n, s) && VotesRecorded(n, s) && Voted(s, a, r, w)
    ensures a in s.nodes && r >= 1 && Accept(Owner(n, r), a, r, w) in s.accepts
  {
    assert VoteBacked(n, s, Learn(a, a, r, w));
  }

  lemma ReportedVoteOnAccept(n: nat, s: System, p: Id, b: Round, x: Entry)
    requires n >= 1 && WellFormed(n, s) && VotesRecorded(n, s) && PromisesTruthful(n, s)
    requires Reported(s, p, b, x) && x.vrnd.Some?
    ensures x.acceptor in s.nodes && Voted(s, x.acceptor, x.vrnd.value, x.vval)
    ensures Accept(Owner(n, x.vrnd.value), x.acceptor, x.vrnd.value, x.vval) in s.accepts
  {
    assert Truthful(s, Promise(x.acceptor, p, b, x.vrnd, x.vval));
    VoteOnAccept(n, s, x.acceptor, x.vrnd.value, x.vval);
  }

  /** Two promises that report the same round report the same value, so the way `sorted` breaks ties
      cannot matter: what a set of promises lets its holder propose is a single value. */
  lemma ProposalDetermined(n: nat, s: System, p: Id, b: Round, mv: set<Entry>, v: Option<Value>,
                           c: Option<Value>, c': Option<Value>)
    requires n >= 1 && WellFormed(n, s) && VotesRecorded(n, s) && PromisesTruthful(n, s) && OneValuePerRound(s)
    requires forall x | x in mv :: Reported(s, p, b, x)
    requires Proposes(mv, v, c) && Proposes(mv, v, c')
    ensures c == c'
  {
    if !NoPromisesWithValue(mv) {
      var x :| x in mv && CanSortLast(mv, x) && x.vval == c;
      var x' :| x' in mv && CanSortLast(mv, x') && x'.vval == c';
      ReportedVoteOnAccept(n, s, p, b, x);
      ReportedVoteOnAccept(n, s, p, b, x');
    }
  }

  /** An ACCEPT goes out when a promise completes the quorum of its sender's round. */
  lemma NewAccept(n: nat, s: System, e: Event, m: Accept)
    requires n >= 1 && Enabled(n, s, e) && m in Next(n, s, e).accepts - s.accepts
    ensures e.DeliverPromise? && m.from == e.promise.to && m.from in s.nodes && s.nodes[m.from].crnd == Some(m.crnd)
    ensures Reported(s, m.from, m.crnd, Brought(e.promise))
    ensures var mv := s.nodes[m.from].mv + {Brought(e.promise)};
            |mv| == PromiseQuorum(n) && Proposes(mv, s.nodes[m.from].v, m.cval)
  {
    assert e.promise == Promise(e.promise.from, m.from, m.crnd, e.promise.vrnd, e.promise.vval);
  }

  function Brought(m: Promise): Entry {
    Entry(m.vrnd, m.vval, m.from)
  }

  lemma OneValueKept(n: nat, s: System, e: Event, s': System)
    requires n >= 1 && WellFormed(n, s) && RoundsOwned(n, s) && VotesRecorded(n, s) && PromisesTruthful(n, s)
    requires CollectedPromises(n, s) && RoundsSettled(n, s) && OneValuePerRound(s)
    requires Step(n, s, e, s')
    ensures OneValuePerRound(s')
  {
    forall m, m' | m in s'.accepts - s.accepts && m' in s.accepts && m.crnd == m'.crnd
      ensures m.cval == m'.cval
    {
      NewAccept(n, s, e, m);
      RefiredAlike(n, s, m.from, Brought(e.promise), m.cval, m');
    }
    forall m, m' | m in s'.accepts - s.accepts && m' in s'.accepts - s.accepts
      ensures m.cval == m'.cval
    {
      assert e.DeliverPromise? && m.cval == e.cval && m'.cval == e.cval;
    }
  }

  lemma RoundOwner(n: nat, s: System, p: Id, m: Accept)
    requires n >= 1 && WellFormed(n, s) && RoundsOwned(n, s)
    requires p in s.nodes && s.nodes[p].crnd == Some(m.crnd) && m in s.accepts
    ensures m.from == p
  {
    assert Started(n, s, p, m.crnd) && Started(n, s, m.from, m.crnd);
  }

  /** A round in which ACCEPTs went out proposes the same again if a repeated promise completes its quorum again. */
  lemma RefiredAlike(n: nat, s: System, p: Id, x: Entry, cval: Option<Value>, m': Accept)
    requires n >= 1 && WellFormed(n, s) && RoundsOwned(n, s) && VotesRecorded(n, s) && PromisesTruthful(n, s)
    requires CollectedPromises(n, s) && RoundsSettled(n, s) && OneValuePerRound(s)
    requires p in s.nodes && s.nodes[p].crnd == Some(m'.crnd) && m' in s.accepts
    requires |s.nodes[p].mv + {x}| == PromiseQuorum(n) && Proposes(s.nodes[p].mv + {x}, s.nodes[p].v, cval)
    ensures cval == m'.cval
  {
    var node := s.nodes[p];
    RoundOwner(n, s, p, m');
    assert Settled(n, s, m');
    NothingNew(node.mv, x);
    forall y | y in node.mv ensures Reported(s, p, m'.crnd, y) {
      assert Collected(s, p, y);
    }
    ProposalDetermined(n, s, p, m'.crnd, node.mv, node.v, cval, m'.cval);
  }

  // ---- Safe proposals ----

  function Acceptors(mv: set<Entry>): set<Id> {
    set x | x in mv :: x.acceptor
  }

  /** The promises for one round come from as many acceptors as there are promises. */
  lemma {:induction false} AcceptorsDistinct(s: System, p: Id, b: Round, mv: set<Entry>)
    requires PromisesUnique(s)
    requires forall x | x in mv :: Reported(s, p, b, x)
    ensures |Acceptors(mv)| == |mv|
    decreases mv
  {
    if x :| x in mv {
      var rest := mv - {x};
      AcceptorsDistinct(s, p, b, rest);
      forall y | y in rest ensures y.acceptor != x.acceptor {
        assert Reported(s, p, b, x) && Reported(s, p, b, y);
      }
      assert Acceptors(mv) == Acceptors(rest) + {x.acceptor};
      InsertSize(Acceptors(rest), x.acceptor);
    }
  }

  /** Whoever promised `b` and reported no vote above `r` for another value blocks other values at `r`. */
  lemma PromiserBlocks(n: nat, s: System, p: Id, b: Round, x: Entry, r: Round, w: Option<Value>)
    requires n >= 1 && WellFormed(n, s) && VotesRecorded(n, s) && PromisesTruthful(n, s) && OneValuePerRound(s)
    requires Reported(s, p, b, x) && r < b
    requires x.vrnd.Some? ==> x.vrnd.value <= r
    requires x.vrnd == Some(r) ==> x.vval == w
    ensures x.acceptor in Blockers(n, s, r, w)
  {
    var m := Promise(x.acceptor, p, b, x.vrnd, x.vval);
    assert m in s.promises && Truthful(s, m);
    forall u | Voted(s, x.acceptor, r, u) ensures u == w {
      VoteOnAccept(n, s, x.acceptor, r, u);
      if x.vrnd == Some(r) {
        VoteOnAccept(n, s, x.acceptor, r, x.vval);
      }
    }
  }

  lemma PromisersBlock(n: nat, s: System, p: Id, b: Round, mv: set<Entry>, r: Round, w: Option<Value>)
    requires n >= 1 && WellFormed(n, s) && VotesRecorded(n, s) && PromisesTruthful(n, s) && PromisesUnique(s)
    requires OneValuePerRound(s) && r < b && |mv| >= PromiseQuorum(n)
    requires forall x | x in mv :: Reported(s, p, b, x)
    requires forall x | x in mv && x.vrnd.Some? :: x.vrnd.value <= r
    requires forall x | x in mv && x.vrnd == Some(r) :: x.vval == w
    ensures |Blockers(n, s, r, w)| >= PromiseQuorum(n)
  {
    AcceptorsDistinct(s, p, b, mv);
    forall x | x in mv ensures x.acceptor in Blockers(n, s, r, w) {
      PromiserBlocks(n, s, p, b, x, r, w);
    }
    SubsetSize(Acceptors(mv), Blockers(n, s, r, w));
  }

  /** Condition P2c: a quorum of promises for `b` makes whatever it lets its holder propose safe at `b`. */
  lemma ProposalSafe(n: nat, s: System, p: Id, b: Round, mv: set<Entry>, v: Option<Value>, c: Option<Value>)
    requires n >= 1 && WellFormed(n, s) && VotesRecorded(n, s) && PromisesTruthful(n, s) && PromisesUnique(s)
    requires OneValuePerRound(s) && ProposalsSafe(n, s) && |mv| >= PromiseQuorum(n)
    requires forall x | x in mv :: Reported(s, p, b, x)
    requires Proposes(mv, v, c)
    ensures SafeAt(n, s, b, c)
  {
    forall r | r < b ensures |Blockers(n, s, r, c)| >= PromiseQuorum(n) {
      if NoPromisesWithValue(mv) {
        PromisersBlock(n, s, p, b, mv, r, c);
      } else {
        var x :| x in mv && CanSortLast(mv, x) && x.vval == c;
        ReportedVoteOnAccept(n, s, p, b, x);
        if r < x.vrnd.value {
          assert SafeAt(n, s, x.vrnd.value, c);
        } else {
          forall y | y in mv && y.vrnd == Some(r) ensures y.vval == c {
            assert RoundAtMost(y.vrnd, x.vrnd);
            ReportedVoteOnAccept(n, s, p, b, y);
          }
          PromisersBlock(n, s, p, b, mv, r, c);
        }
      }
    }
  }

  lemma BlockersStay(n: nat, s: System, e: Event, s': System, r: Round, w: Option<Value>)
    requires n >= 1 && WellFormed(n, s) && VotesRecorded(n, s) && Step(n, s, e, s') && WellFormed(n, s')
    ensures Blockers(n, s, r, w) <= Blockers(n, s', r, w)
  {
    VotesAfter(n, s, e, s');
    forall a | a in Blockers(n, s, r, w) ensures a in Blockers(n, s', r, w) {
      forall u | Voted(s', a, r, u) ensures u == w {
        assert Voted(s, a, r, u);
      }
    }
  }

  lemma SafeStays(n: nat, s: System, e: Event, s': System, b: Round, w: Option<Value>)
    requires n >= 1 && WellFormed(n, s) && VotesRecorded(n, s) && Step(n, s, e, s') && WellFormed(n, s')
    requires SafeAt(n, s, b, w)
    ensures SafeAt(n, s', b, w)
  {
    forall r | r < b ensures |Blockers(n, s', r, w)| >= PromiseQuorum(n) {
      BlockersStay(n, s, e, s', r, w);
      SubsetSize(Blockers(n, s, r, w), Blockers(n, s', r, w));
    }
  }

  lemma NewProposalSafe(n: nat, s: System, e: Event, m: Accept)
    requires n >= 1 && WellFormed(n, s) && VotesRecorded(n, s) && PromisesTruthful(n, s) && PromisesUnique(s)
    requires CollectedPromises(n, s) && OneValuePerRound(s) && ProposalsSafe(n, s)
    requires Enabled(n, s, e) && m in Next(n, s, e).accepts - s.accepts
    ensures SafeAt(n, s, m.crnd, m.cval)
  {
    NewAccept(n, s, e, m);
    var node, x := s.nodes[m.from], Brought(e.promise);
    forall y | y in node.mv + {x} ensures Reported(s, m.from, m.crnd, y) {
      assert y in node.mv ==> Collected(s, m.from, y);
    }
    ProposalSafe(n, s, m.from, m.crnd, node.mv + {x}, node.v, m.cval);
  }

  lemma SafeKept(n: nat, s: System, e: Event, s': System)
    requires n >= 1 && WellFormed(n, s) && VotesRecorded(n, s) && PromisesTruthful(n, s) && PromisesUnique(s)
    requires CollectedPromises(n, s) && OneValuePerRound(s) && ProposalsSafe(n, s)
    requires Step(n, s, e, s') && WellFormed(n, s')
    ensures ProposalsSafe(n, s')
  {
    forall m | m in s'.accepts ensures SafeAt(n, s', m.crnd, m.cval) {
      if m !in s.accepts {
        NewProposalSafe(n, s, e, m);
      }
      SafeStays(n, s, e, s', m.crnd, m.cval);
    }
  }

  // ---- Validity ----

  lemma PayloadsSupplied(n: nat, s: System, e: Event, s': System)
    requires n >= 1 && WellFormed(n, s) && (forall p | p in s.nodes :: Supplied(s, s.nodes[p].v)) && Step(n, s, e, s')
    ensures s.inputs <= s'.inputs && s'.nodes.Keys == s.nodes.Keys
    ensures forall p | p in s'.nodes :: Supplied(s', s'.nodes[p].v)
  {
    forall p | p in s'.nodes ensures Supplied(s', s'.nodes[p].v) {
      assert p in s.nodes && Supplied(s, s.nodes[p].v);
    }
  }

  lemma SuppliedKept(n: nat, s: System, e: Event, s': System)
    requires n >= 1 && WellFormed(n, s) && VotesRecorded(n, s) && PromisesTruthful(n, s)
    requires CollectedPromises(n, s) && ProposalsSupplied(n, s)
    requires Step(n, s, e, s') && WellFormed(n, s')
    ensures ProposalsSupplied(n, s')
  {
    PayloadsSupplied(n, s, e, s');
    forall m | m in s'.accepts ensures Supplied(s', m.cval) {
      if m in s.accepts {
        assert Supplied(s, m.cval);
      } else {
        NewProposalSupplied(n, s, e, m);
      }
    }
  }

  lemma NewProposalSupplied(n: nat, s: System, e: Event, m: Accept)
    requires n >= 1 && WellFormed(n, s) && VotesRecorded(n, s) && PromisesTruthful(n, s)
    requires CollectedPromises(n, s) && ProposalsSupplied(n, s)
    requires Enabled(n, s, e) && m in Next(n, s, e).accepts - s.accepts
    ensures Supplied(s, m.cval)
  {
    NewAccept(n, s, e, m);
    var node := s.nodes[m.from];
    var mv := node.mv + {Brought(e.promise)};
    if NoPromisesWithValue(mv) {
      assert Supplied(s, node.v);
    } else {
      var y :| y in mv && CanSortLast(mv, y) && y.vval == m.cval;
      assert y in node.mv ==> Collected(s, m.from, y);
      ReportedVoteOnAccept(n, s, m.from, m.crnd, y);
    }
  }

  // ---- The whole invariant ----

  lemma StepInv(n: nat, s: System, e: Event, s': System)
    requires n >= 1 && Inv(n, s) && Step(n, s, e, s') && Addressed(e)
    ensures Inv(n, s')
  {
    RoundsKept(n, s, e, s');
    VotesKept(n, s, e, s');
    PromisesKept(n, s, e, s');
    CollectedKept(n, s, e, s');
    SettledKept(n, s, e, s');
    OneValueKept(n, s, e, s');
    SafeKept(n, s, e, s');
    LearnedKept(n, s, e, s');
    SuppliedKept(n, s, e, s');
  }

  lemma {:induction false} RunInv(n: nat, run: seq<System>, events: seq<Event>, i: nat)
    requires n >= 1 && IsAddressedRun(n, run, events) && i < |run|
    ensures Inv(n, run[i])
  {
    if i == 0 {
      InitInv(n);
    } else {
      RunInv(n, run, events, i - 1);
      assert PathStep(n, true, run, events, i - 1);
      StepInv(n, run[i - 1], events[i - 1], run[i]);
    }
  }
}
