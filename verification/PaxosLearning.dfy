/** Learning in the single-decree protocol: who hears of a vote, what is kept of it, and that a value chosen by all
    can always reach all. */
module PaxosLearning {
  import opened Wrappers
  import opened Quorums
  import opened PaxosNode
  import opened PaxosSystem
  import opened PaxosInvariant
  import opened PaxosAgreement
  import opened PaxosProgress

  // ---- Every vote is told to everyone ----

  /** What is told to one node is told to every node. */
  ghost predicate EveryoneTold(n: nat, s: System) {
    forall m, k | m in s.learns && k in Ids(n) :: Learn(m.from, k, m.rnd, m.vval) in s.learns
  }

  lemma StepTells(n: nat, s: System, e: Event, s': System)
    requires n >= 1 && EveryoneTold(n, s) && Step(n, s, e, s')
    ensures EveryoneTold(n, s')
  {
    forall m, k | m in s'.learns && k in Ids(n) ensures Learn(m.from, k, m.rnd, m.vval) in s'.learns {
      assert IsId(n, k);
      if m in s.learns {
        assert Learn(m.from, k, m.rnd, m.vval) in s.learns;
      }
    }
  }

  /** In every run, addressed or not, an acceptor that voted has sent a LEARN of its vote to every node. */
  lemma {:induction false} VotersTell(n: nat, run: seq<System>, events: seq<Event>, i: nat)
    requires n >= 1 && IsPath(n, false, run, events) && run[0] == Init(n) && i < |run|
    ensures EveryoneTold(n, run[i])
    ensures forall a, r, w, k | Voted(run[i], a, r, w) && k in Ids(n) :: Learn(a, k, r, w) in run[i].learns
  {
    if i > 0 {
      VotersTell(n, run, events, i - 1);
      assert PathStep(n, false, run, events, i - 1);
      StepTells(n, run[i - 1], events[i - 1], run[i]);
    }
  }

  // ---- What a LEARN leaves behind ----

  /** A LEARN that arrives leaves an entry for its round: its own value, unless there was one before. */
  lemma LearnStored(n: nat, s: System, m: Learn, s': System)
    requires n >= 1 && Step(n, s, DeliverLearn(m), s')
    ensures m.to in s.nodes && m.to in s'.nodes && m.rnd in s'.nodes[m.to].values
    ensures m.rnd !in s.nodes[m.to].values ==> s'.nodes[m.to].values[m.rnd] == m.vval
    ensures forall r | r != m.rnd :: r in s'.nodes[m.to].values <==> r in s.nodes[m.to].values
    ensures s' == s.(nodes := s.nodes[m.to := s.nodes[m.to].(values := s'.nodes[m.to].values)])
  {
  }

  /** Over any stretch of any run an entry never goes away or changes. */
  lemma {:induction false} EntriesStay(n: nat, path: seq<System>, events: seq<Event>, i: nat, j: nat, p: Id, r: Round)
    requires n >= 1 && IsPath(n, false, path, events) && i <= j < |path|
    requires p in path[i].nodes && r in path[i].nodes[p].values
    ensures p in path[j].nodes && r in path[j].nodes[p].values
    ensures path[j].nodes[p].values[r] == path[i].nodes[p].values[r]
    decreases j
  {
    if i < j {
      EntriesStay(n, path, events, i, j - 1, p, r);
      assert PathStep(n, false, path, events, j - 1);
    }
  }

  /** So a node keeps, for each round, the first value it was sent there. */
  lemma FirstLearnKept(n: nat, run: seq<System>, events: seq<Event>, i: nat, j: nat, m: Learn)
    requires n >= 1 && IsPath(n, false, run, events) && i < j < |run| && events[i] == DeliverLearn(m)
    requires m.to in run[i].nodes && m.rnd !in run[i].nodes[m.to].values
    ensures m.to in run[j].nodes && m.rnd in run[j].nodes[m.to].values
    ensures run[j].nodes[m.to].values[m.rnd] == m.vval
  {
    assert PathStep(n, false, run, events, i);
    LearnStored(n, run[i], m, run[i + 1]);
    EntriesStay(n, run, events, i + 1, j, m.to, m.rnd);
  }

  // ---- Everyone can learn what was chosen ----

  ghost predicate LearnedBy(s: System, p: Id, r: Round, w: Option<Value>) {
    p in s.nodes && r in s.nodes[p].values && s.nodes[p].values[r] == w
  }

  ghost predicate LearnedByAll(n: nat, s: System, r: Round, w: Option<Value>) {
    forall p | p in Ids(n) :: LearnedBy(s, p, r, w)
  }

  /** Nobody holds anything but `w` for round `r`, and acceptor `a` has told everyone of its vote for it. */
  ghost predicate CanLearn(n: nat, s: System, a: Id, r: Round, w: Option<Value>) {
    && s.nodes.Keys == Ids(n)
    && (forall p | p in s.nodes && r in s.nodes[p].values :: s.nodes[p].values[r] == w)
    && (forall k | k in Ids(n) :: Learn(a, k, r, w) in s.learns)
  }

  lemma OneLearns(n: nat, strict: bool, s: System, t: System, a: Id, r: Round, w: Option<Value>, k: Id)
    requires n >= 1 && Leads(n, strict, s, t) && CanLearn(n, t, a, r, w) && k in Ids(n)
    ensures var u := Next(n, t, DeliverLearn(Learn(a, k, r, w)));
            && Leads(n, strict, s, u) && CanLearn(n, u, a, r, w) && u.learns == t.learns
            && LearnedBy(u, k, r, w) && forall p | LearnedBy(t, p, r, w) :: LearnedBy(u, p, r, w)
  {
    LeadsOn(n, strict, s, t, DeliverLearn(Learn(a, k, r, w)));
  }

  lemma {:induction false} SomeLearn(n: nat, strict: bool, s: System, t: System, a: Id, r: Round, w: Option<Value>,
                                     k: nat)
    returns (u: System)
    requires n >= 1 && k <= n && Leads(n, strict, s, t) && CanLearn(n, t, a, r, w)
    ensures Leads(n, strict, s, u) && CanLearn(n, u, a, r, w) && u.learns == t.learns
    ensures forall p | 1 <= p <= k :: LearnedBy(u, p, r, w)
  {
    u := t;
    if k > 0 {
      var v := SomeLearn(n, strict, s, t, a, r, w, k - 1);
      assert IsId(n, k);
      OneLearns(n, strict, s, v, a, r, w, k);
      u := Next(n, v, DeliverLearn(Learn(a, k, r, w)));
    }
  }

  lemma {:induction false} PathKeeps(n: nat, path: seq<System>, events: seq<Event>, i: nat)
    requires n >= 1 && IsPath(n, true, path, events) && Inv(n, path[0]) && EveryoneTold(n, path[0]) && i < |path|
    ensures Inv(n, path[i]) && EveryoneTold(n, path[i])
  {
    if i > 0 {
      PathKeeps(n, path, events, i - 1);
      assert PathStep(n, true, path, events, i - 1);
      StepInv(n, path[i - 1], events[i - 1], path[i]);
      StepTells(n, path[i - 1], events[i - 1], path[i]);
    }
  }

  lemma LedKeeps(n: nat, s: System, t: System)
    requires n >= 1 && Leads(n, true, s, t) && Inv(n, s) && EveryoneTold(n, s)
    ensures Inv(n, t) && EveryoneTold(n, t)
  {
    var path, events :| IsPath(n, true, path, events) && path[0] == s && path[|path| - 1] == t;
    PathKeeps(n, path, events, |path| - 1);
  }

  /** As a round has one value, only what was chosen there can be learned for it. */
  lemma OnlyChosenLearned(n: nat, s: System, r: Round, w: Option<Value>, a: Id)
    requires n >= 1 && Inv(n, s) && Accept(Owner(n, r), a, r, w) in s.accepts
    ensures forall p | p in s.nodes && r in s.nodes[p].values :: s.nodes[p].values[r] == w
  {
    forall p | p in s.nodes && r in s.nodes[p].values ensures s.nodes[p].values[r] == w {
      LearnedOnAccept(n, s, p, r);
    }
  }

  lemma ChosenCanBeLearned(n: nat, q: nat, s: System, r: Round, w: Option<Value>) returns (a: Id)
    requires n >= 1 && q >= 1 && Inv(n, s) && EveryoneTold(n, s) && Chosen(n, q, s, r, w)
    ensures CanLearn(n, s, a, r, w)
  {
    a := ChoiceHasVoter(n, q, s, r, w);
    OnlyChosenLearned(n, s, r, w, a);
  }

  lemma EveryoneLearns(n: nat, q: nat, strict: bool, s: System, t: System, a: Id, r: Round, w: Option<Value>)
    returns (u: System)
    requires n >= 1 && Leads(n, strict, s, t) && CanLearn(n, t, a, r, w) && Chosen(n, q, t, r, w)
    ensures Leads(n, strict, s, u) && Chosen(n, q, u, r, w) && LearnedByAll(n, u, r, w)
  {
    u := SomeLearn(n, strict, s, t, a, r, w, n);
    assert Voters(n, u, r, w) == Voters(n, t, r, w);
    forall p | p in Ids(n) ensures LearnedBy(u, p, r, w) {
      assert IsId(n, p);
    }
  }

  /** Whatever has been chosen, by however many votes, can still reach every node. */
  lemma ChosenReachesAll(n: nat, q: nat, s: System, t: System, r: Round, w: Option<Value>) returns (u: System)
    requires n >= 1 && q >= 1 && Inv(n, t) && EveryoneTold(n, t) && Leads(n, true, s, t) && Chosen(n, q, t, r, w)
    ensures Leads(n, true, s, u) && Chosen(n, q, u, r, w) && LearnedByAll(n, u, r, w)
  {
    var a := ChosenCanBeLearned(n, q, t, r, w);
    u := EveryoneLearns(n, q, true, s, t, a, r, w);
  }

  lemma RunKeeps(n: nat, run: seq<System>, events: seq<Event>, i: nat)
    requires n >= 1 && IsAddressedRun(n, run, events) && i < |run|
    ensures Inv(n, run[i]) && EveryoneTold(n, run[i])
  {
    InitInv(n);
    PathKeeps(n, run, events, i);
  }

  /** From every point of every run at which some value is chosen, every node can still get to hold it. */
  lemma ChosenAlwaysLearnable(n: nat, q: nat, run: seq<System>, events: seq<Event>, i: nat, r: Round,
                              w: Option<Value>)
    requires n >= 1 && q >= 1 && IsAddressedRun(n, run, events) && i < |run| && Chosen(n, q, run[i], r, w)
    ensures exists t :: Leads(n, true, run[i], t) && LearnedByAll(n, t, r, w)
  {
    RunKeeps(n, run, events, i);
    LeadsNowhere(n, true, run[i]);
    var u := ChosenReachesAll(n, q, run[i], run[i], r, w);
  }

  lemma ChoiceAndLearning(n: nat, s: System) returns (u: System, r: Round, w: Option<Value>)
    requires n >= 1 && Inv(n, s) && EveryoneTold(n, s)
    ensures Leads(n, true, s, u) && Chosen(n, n, u, r, w) && LearnedByAll(n, u, r, w)
  {
    var bound := SomeBound(n, s);
    var t;
    t, r, w := Decide(n, s, bound);
    LedKeeps(n, s, t);
    u := ChosenReachesAll(n, n, s, t, r, w);
  }

  /** From every point of every run some continuation makes a choice: all acceptors vote for one value, and every
      node holds it for that round. */
  lemma ChoiceAlwaysPossible(n: nat, run: seq<System>, events: seq<Event>, i: nat)
    requires n >= 1 && IsAddressedRun(n, run, events) && i < |run|
    ensures exists t, r, w :: Leads(n, true, run[i], t) && Chosen(n, n, t, r, w) && LearnedByAll(n, t, r, w)
  {
    RunKeeps(n, run, events, i);
    var t, r, w := ChoiceAndLearning(n, run[i]);
  }
}
