/**
 Delivery never gets stuck: from whatever point of a run, reading what is in flight and one queue pass at
 each switch deliver everything that can ever be delivered of what was numbered.
 */
module SwitchProgress {
  import opened Addresses
  import opened Quorums
  import opened Sets
  import opened SlotQueue
  import opened SteadyNode
  import opened SwitchSystem
  import opened SwitchInvariant
  import opened TotalOrder

  /** Steps without new client packets lead from `s` to `t`. */
  ghost predicate Leads(count: nat, s: System, t: System) {
    exists path, events :: IsPath(count, path, events) && path[0] == s && path[|path| - 1] == t
  }

  ghost predicate IsPath(count: nat, path: seq<System>, events: seq<Event>) {
    |path| == |events| + 1 && forall i | 0 <= i < |events| :: PathStep(count, path, events, i)
  }

  ghost predicate PathStep(count: nat, path: seq<System>, events: seq<Event>, i: nat)
    requires |path| == |events| + 1 && i < |events|
  {
    !events[i].Client? && StepsAt(count, path, events, i)
  }

  lemma StepsOn(count: nat, s: System, e: Event, t: System)
    requires count <= 4 && Inv(count, s) && Steps(count, s, e, t) && !e.Client?
    ensures Inv(count, t) && t.issued == s.issued
  {
    StepsInv(count, s, e, t);
  }

  lemma PathStepOn(count: nat, path: seq<System>, events: seq<Event>, i: nat)
    requires count <= 4 && |path| == |events| + 1 && i < |events| && PathStep(count, path, events, i)
    requires Inv(count, path[i])
    ensures Inv(count, path[i + 1]) && path[i + 1].issued == path[i].issued
  {
    StepsOn(count, path[i], events[i], path[i + 1]);
  }

  lemma {:induction false} PathInv(count: nat, path: seq<System>, events: seq<Event>, i: nat)
    requires count <= 4 && IsPath(count, path, events) && Inv(count, path[0]) && i < |path|
    ensures Inv(count, path[i]) && path[i].issued == path[0].issued
  {
    if i > 0 {
      PathInv(count, path, events, i - 1);
      PathStepOn(count, path, events, i - 1);
    }
  }

  /** A way from a state of a run stays within what runs keep. */
  lemma Reached(count: nat, s: System, t: System)
    requires count <= 4 && Inv(count, s) && Leads(count, s, t)
    ensures Inv(count, t) && t.issued == s.issued
  {
    var path, events :| IsPath(count, path, events) && path[0] == s && path[|path| - 1] == t;
    PathInv(count, path, events, |path| - 1);
  }

  lemma LeadsNowhere(count: nat, s: System)
    ensures Leads(count, s, s)
  {
    assert IsPath(count, [s], []);
  }

  lemma PathLonger(count: nat, path: seq<System>, events: seq<Event>, e: Event, u: System)
    requires IsPath(count, path, events) && !e.Client? && Steps(count, path[|path| - 1], e, u)
    ensures IsPath(count, path + [u], events + [e])
  {
    var (path', events') := (path + [u], events + [e]);
    forall i | 0 <= i < |events'| ensures PathStep(count, path', events', i) {
      if i < |events| {
        assert PathStep(count, path, events, i);
        assert path'[i] == path[i] && path'[i + 1] == path[i + 1] && events'[i] == events[i];
      }
    }
  }

  lemma LeadsOn(count: nat, s: System, t: System, e: Event, u: System)
    requires Leads(count, s, t) && !e.Client? && Steps(count, t, e, u)
    ensures Leads(count, s, u)
  {
    var path, events :| IsPath(count, path, events) && path[0] == s && path[|path| - 1] == t;
    PathLonger(count, path, events, e, u);
    assert (path + [u])[|path|] == u;
  }

  // ---- Everyone reads the leader's stream ----

  lemma ReadNext(count: nat, t: System, j: Mac)
    requires j in t.switches && j != LEADER && j in t.read && t.read[j] < |t.stream|
    ensures var e := FromLeader(j, t.read[j], 0);
            && Enabled(count, t, e)
            && Next(count, t, e).stream == t.stream && Next(count, t, e).read == t.read[j := t.read[j] + 1]
            && Next(count, t, e).switches.Keys == t.switches.Keys
  {
  }

  lemma ReadOn(count: nat, s: System, t: System, j: Mac) returns (u: System)
    requires Leads(count, s, t) && j in t.switches && j != LEADER && j in t.read && t.read[j] < |t.stream|
    ensures Leads(count, s, u) && u.stream == t.stream && u.read == t.read[j := t.read[j] + 1] &&
            u.switches.Keys == t.switches.Keys
  {
    ReadNext(count, t, j);
    u := Next(count, t, FromLeader(j, t.read[j], 0));
    LeadsOn(count, s, t, FromLeader(j, t.read[j], 0), u);
  }

  lemma ReadBound(count: nat, s: System, t: System, j: Mac)
    requires count <= 4 && Inv(count, s) && Leads(count, s, t) && j in Ids(count) && j != LEADER
    ensures j in t.switches && j in t.read && t.read[j] <= |t.stream|
  {
    Reached(count, s, t);
    assert ReaderFine(t.switches, t.stream, j, t.read[j]);
  }

  lemma {:induction false} ReadStream(count: nat, s: System, t: System, j: Mac, left: nat) returns (u: System)
    requires Leads(count, s, t) && j in t.switches && j != LEADER && j in t.read
    requires left == |t.stream| - t.read[j]
    ensures Leads(count, s, u) && u.stream == t.stream && u.read == t.read[j := |u.stream|]
    decreases left
  {
    if left == 0 {
      u := t;
      assert t.read[j := t.read[j]] == t.read;
    } else {
      var v := ReadOn(count, s, t, j);
      u := ReadStream(count, s, v, j, left - 1);
    }
  }

  ghost predicate HaveRead(t: System, who: set<Mac>) {
    forall j | j in who && j != LEADER :: j in t.read && t.read[j] == |t.stream|
  }

  lemma {:induction false} ReadStreams(count: nat, s: System, t: System, who: set<Mac>) returns (u: System)
    requires count <= 4 && Inv(count, s) && Leads(count, s, t) && who <= Ids(count)
    ensures Leads(count, s, u) && u.stream == t.stream && HaveRead(u, who)
    decreases who
  {
    HasMember(who);
    if who == {} {
      u := t;
    } else {
      var j :| j in who;
      u := ReadStreams(count, s, t, who - {j});
      if j != LEADER {
        ReadBound(count, s, u, j);
        u := ReadStream(count, s, u, j, |u.stream| - u.read[j]);
      }
    }
  }

  // ---- Everything between the others arrives ----

  /** A LEARN is answered with nothing. */
  lemma LearnArrives(count: nat, t: System, m: Sent)
    requires Enabled(count, t, FromPeer(m, 0)) && Decode(m.frame).Learning?
    ensures var u := Next(count, t, FromPeer(m, 0));
            u.stream == t.stream && u.read == t.read && u.network == t.network && u.got == t.got + {m}
  {
    assert Unicasts(count, m.to, []) == {};
  }

  lemma ArriveOn(count: nat, s: System, t: System, m: Sent) returns (u: System)
    requires count <= 4 && Inv(count, s) && Leads(count, s, t) && m in t.network
    ensures Leads(count, s, u) && u.stream == t.stream && u.read == t.read && u.network == t.network &&
            u.got == t.got + {m}
  {
    Reached(count, s, t);
    PeerFits(count, t, m, 0);
    LearnArrives(count, t, m);
    u := Next(count, t, FromPeer(m, 0));
    LeadsOn(count, s, t, FromPeer(m, 0), u);
  }

  lemma {:induction false} LearnsArrive(count: nat, s: System, t: System, todo: set<Sent>) returns (u: System)
    requires count <= 4 && Inv(count, s) && Leads(count, s, t) && t.network == t.got + todo
    ensures Leads(count, s, u) && u.got == u.network && u.stream == t.stream && u.read == t.read
    decreases todo
  {
    if m :| m in todo {
      var v := ArriveOn(count, s, t, m);
      u := LearnsArrive(count, s, v, todo - {m});
    } else {
      u := t;
    }
  }

  // ---- Everyone passes through its queue ----

  /** Everything below the first number without a value was delivered. */
  ghost predicate Complete(t: System, j: Mac) {
    j in t.switches && Log(t, j) == Proposals(t.issued)[..FirstHole(t.issued)]
  }

  lemma PassEmpties(count: nat, t: System, j: Mac)
    requires count <= 4 && Inv(count, t) && j in t.switches
    ensures var node := t.switches[j].node; !Deliverable(Pump(node, node.crnd, |t.issued| + 1))
  {
    var node := t.switches[j].node;
    HistoryFacts(count, j, t.issued, t.switches[j]);
    PumpDelivers(node, node.crnd, |t.issued| + 1);
    PumpSteady(count, j, t.issued, Taken(t.switches, j), node, node.crnd, |t.issued| + 1);
    DeliveredAsIssued(t.issued, Pump(node, node.crnd, |t.issued| + 1));
  }

  lemma PassDelivers(count: nat, t: System, j: Mac)
    requires count <= 4 && Inv(count, t) && Quiescent(t) && j in t.switches
    ensures Enabled(count, t, Background(j, |t.issued| + 1))
    ensures var u := Next(count, t, Background(j, |t.issued| + 1));
            && u.issued == t.issued && u.stream == t.stream && u.read == t.read && u.network == t.network &&
                 u.got == t.got
            && Complete(u, j) && u.switches.Keys == t.switches.Keys
            && forall i | i in t.switches && i != j :: u.switches[i] == t.switches[i]
  {
    PassEmpties(count, t, j);
    DrainedToHole(count, t, j, |t.issued| + 1);
    assert Unicasts(count, j, []) == {};
  }

  lemma PassOn(count: nat, s: System, t: System, j: Mac) returns (u: System)
    requires count <= 4 && Inv(count, s) && Leads(count, s, t) && t.read.Keys == t.switches.Keys && Quiescent(t) &&
             j in t.switches
    ensures Leads(count, s, u) && u.read.Keys == u.switches.Keys && Quiescent(u) && Complete(u, j) &&
            u.switches.Keys == t.switches.Keys && u.issued == t.issued
    ensures forall i | i in t.switches && i != j :: u.switches[i] == t.switches[i]
  {
    Reached(count, s, t);
    PassDelivers(count, t, j);
    u := Next(count, t, Background(j, |t.issued| + 1));
    LeadsOn(count, s, t, Background(j, |t.issued| + 1), u);
  }

  lemma StaysComplete(s: System, t: System, j: Mac)
    requires Complete(s, j) && t.issued == s.issued && j in t.switches && t.switches[j] == s.switches[j]
    ensures Complete(t, j)
  {
  }

  lemma OthersStayComplete(s: System, t: System, who: set<Mac>, j: Mac)
    requires j in t.switches && t.switches.Keys == s.switches.Keys && t.issued == s.issued && Complete(t, j)
    requires (forall i | i in who - {j} :: Complete(s, i)) && forall i | i in s.switches && i != j ::
               t.switches[i] == s.switches[i]
    ensures forall i | i in who :: Complete(t, i)
  {
    forall i | i in who ensures Complete(t, i) {
      if i != j {
        StaysComplete(s, t, i);
      }
    }
  }

  lemma {:induction false} PassEverywhere(count: nat, s: System, t: System, who: set<Mac>) returns (u: System)
    requires count <= 4 && Inv(count, s) && Leads(count, s, t) && t.read.Keys == t.switches.Keys == Ids(count) &&
             Quiescent(t) && who <= Ids(count)
    ensures Leads(count, s, u) && u.read.Keys == u.switches.Keys == Ids(count) && Quiescent(u) &&
            forall j | j in who :: Complete(u, j)
    decreases who
  {
    HasMember(who);
    if who == {} {
      u := t;
    } else {
      var j :| j in who;
      var v := PassEverywhere(count, s, t, who - {j});
      u := PassOn(count, s, v, j);
      OthersStayComplete(v, u, who, j);
    }
  }

  /** From every point of every run some continuation, without new packets, brings every switch to deliver all
      the leader issued before the first number it left without a value. */
  lemma CompletionAlwaysPossible(count: nat, run: seq<System>, events: seq<Event>, i: nat) returns (t: System)
    requires 1 <= count <= 4 && IsRun(count, run, events) && i < |run|
    ensures Leads(count, run[i], t) && t.issued == run[i].issued
    ensures forall j | j in Ids(count) :: Complete(t, j)
  {
    var s := run[i];
    RunInv(count, run, events, i);
    LeadsNowhere(count, s);
    t := ReadStreams(count, s, s, Ids(count));
    Reached(count, s, t);
    assert t.got + t.network == t.network;
    t := LearnsArrive(count, s, t, t.network);
    Reached(count, s, t);
    t := PassEverywhere(count, s, t, Ids(count));
    Reached(count, s, t);
  }
}
