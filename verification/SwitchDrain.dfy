/**
 Why delivery ends: without new client packets only so many first deliveries are left, whatever else is repeated
 in between, and they run out exactly when everything that can be delivered was delivered everywhere.
 */
module SwitchDrain {
  import opened Addresses
  import opened Counting
  import opened Quorums
  import opened Sets
  import opened SlotQueue
  import opened SteadyNode
  import opened NodeHistory
  import opened SwitchSystem
  import opened SwitchInvariant
  import opened TotalOrder
  import opened SwitchProgress

  /** What a step does for the first time: a switch reads on in the stream, a frame between switches arrives, or
      the pump thread finds something to deliver. */
  predicate First(s: System, e: Event) {
    match e
    case Client(_, _) => false
    case FromLeader(to, i, _) => to in s.read && i == s.read[to]
    case FromPeer(m, _) => m !in s.got
    case Background(at, ready) => at in s.switches && Deliverable(s.switches[at].node) && ready > 0
    case Evict(_) => false
  }

  function Unread(s: System, j: Mac): nat {
    if j != LEADER && j in s.read && s.read[j] <= |s.stream| then |s.stream| - s.read[j] else 0
  }

  function Undelivered(s: System, j: Mac): nat {
    if j in s.switches && s.switches[j].node.cseq <= |s.issued| then |s.issued| - s.switches[j].node.cseq else 0
  }

  /** Each frame read may have the reader send one to each of the others. */
  function WorkAt(count: nat, s: System, j: Mac): nat {
    Times(count, Unread(s, j)) + Undelivered(s, j)
  }

  function Work(count: nat, s: System, k: nat): nat {
    if k == 0 then 0 else Work(count, s, k - 1) + WorkAt(count, s, k)
  }

  function Left(count: nat, s: System): nat {
    Work(count, s, count) + |s.network - s.got|
  }

  lemma {:induction false} WorkLess(count: nat, s: System, s': System, at: Mac, less: nat, k: nat)
    requires forall j | 1 <= j <= k && j != at :: WorkAt(count, s', j) <= WorkAt(count, s, j)
    requires WorkAt(count, s', at) + less <= WorkAt(count, s, at)
    ensures Work(count, s', k) + (if 1 <= at <= k then less else 0) <= Work(count, s, k)
  {
    if k > 0 {
      WorkLess(count, s, s', at, less, k - 1);
    }
  }

  // ---- One event ----

  /** Only switch `at` changed, and its queue did not go back. */
  ghost predicate Moved(count: nat, s: System, t: System, at: Mac) {
    && t.issued == s.issued && t.stream == s.stream && t.read == s.read && t.got == s.got
    && at in Ids(count) && at in s.switches && t.switches.Keys == s.switches.Keys
    && (forall j | j in s.switches && j != at :: t.switches[j] == s.switches[j])
    && s.switches[at].node.cseq <= t.switches[at].node.cseq <= |s.issued|
  }

  lemma ActMoves(count: nat, s: System, at: Mac, e: NodeEvent)
    requires count <= 4 && Inv(count, s) && at in s.switches && Fitting(count, s.switches, s.issued, at, e)
    requires at == LEADER ==> !(e.Recv? && Decode(e.frame).Accepting?)
    ensures Moved(count, s, Act(count, s, at, e), at)
  {
    var s' := Act(count, s, at, e);
    ActKeeps(count, s, at, e);
    HistoryFacts(count, at, s.issued, s.switches[at]);
    DeliveredLearned(count, at, s.issued, Taken(s.switches, at), s.switches[at].node, e);
    HistoryFacts(count, at, s'.issued, s'.switches[at]);
    DeliveredAsIssued(s'.issued, s'.switches[at].node);
  }

  /** What was sent once and is sent again is in the network already. */
  lemma SentAgain(count: nat, s: System, at: Mac, e: NodeEvent)
    requires count <= 4 && Inv(count, s) && at in s.switches
    requires Expected(count, at, s.issued, Taken(s.switches, at), e)
    requires e.Recv? && Decode(e.frame).Accepting? ==> at != LEADER && Decode(e.frame).seqno in Taken(s.switches, at)
    ensures Act(count, s, at, e).network == s.network
  {
    var casts := NodeNext(s.switches[at].node, count, at, e).casts;
    HistoryFacts(count, at, s.issued, s.switches[at]);
    CastsStep(count, at, s.issued, Taken(s.switches, at), s.switches[at].node, e);
    forall m | m in Unicasts(count, at, casts) ensures m in s.network {
      assert Told(count, s.network, at, Decode(e.frame).seqno, m.to);
    }
  }

  /** A frame to each of the other switches. */
  lemma UnicastsFew(count: nat, from: Mac, frame: Frame)
    requires from in Ids(count)
    ensures |Unicasts(count, from, [frame])| <= count - 1
  {
    IdsSize(count);
    OnePerSwitch(Ids(count) - {from}, from, frame);
    assert Unicasts(count, from, [frame]) == set k | k in Ids(count) - {from} :: Sent(from, k, frame);
  }

  lemma {:induction false} OnePerSwitch(who: set<Mac>, from: Mac, frame: Frame)
    ensures |set k | k in who :: Sent(from, k, frame)| <= |who|
    decreases who
  {
    HasMember(who);
    if who != {} {
      var j :| j in who;
      OnePerSwitch(who - {j}, from, frame);
      var rest := set k | k in who - {j} :: Sent(from, k, frame);
      assert (set k | k in who :: Sent(from, k, frame)) == rest + {Sent(from, j, frame)};
    }
  }

  lemma FewMore(a: set<Sent>, b: set<Sent>, got: set<Sent>)
    ensures |(a + b) - got| <= |a - got| + |b|
  {
    SubsetSize((a + b) - got, (a - got) + b);
    assert |(a - got) + b| <= |a - got| + |b|;
  }

  ghost predicate SentFew(count: nat, s: System, t: System) {
    |t.network - s.got| <= |s.network - s.got| + count - 1
  }

  lemma SendsFew(count: nat, s: System, at: Mac, e: NodeEvent)
    requires count <= 4 && Inv(count, s) && at in s.switches && at != LEADER
    requires Expected(count, at, s.issued, Taken(s.switches, at), e)
    ensures SentFew(count, s, Act(count, s, at, e))
  {
    var casts := NodeNext(s.switches[at].node, count, at, e).casts;
    HistoryFacts(count, at, s.issued, s.switches[at]);
    CastsStep(count, at, s.issued, Taken(s.switches, at), s.switches[at].node, e);
    FewMore(s.network, Unicasts(count, at, casts), s.got);
    if casts == [] {
      assert Unicasts(count, at, casts) == {};
    } else {
      UnicastsFew(count, at, casts[0]);
    }
  }

  // ---- What the event does to what is left ----

  /** Nobody reads on and nothing is sent. */
  lemma QuietLeft(count: nat, s: System, t: System, at: Mac)
    requires Moved(count, s, t, at) && t.network == s.network
    ensures Left(count, t) <= Left(count, s)
    ensures t.switches[at].node.cseq > s.switches[at].node.cseq ==> Left(count, t) < Left(count, s)
  {
    WorkLess(count, s, t, at, t.switches[at].node.cseq - s.switches[at].node.cseq, count);
  }

  lemma ReadLeft(count: nat, s: System, t: System, at: Mac)
    requires Moved(count, s, t, at) && SentFew(count, s, t)
    requires at != LEADER && at in s.read && s.read[at] < |s.stream|
    ensures Left(count, t.(read := s.read[at := s.read[at] + 1])) < Left(count, s)
  {
    WorkLess(count, s, t.(read := s.read[at := s.read[at] + 1]), at, count, count);
  }

  lemma GotLeft(count: nat, s: System, t: System, m: Sent)
    requires Moved(count, s, t, m.to) && m in s.network && t.network == s.network
    ensures Left(count, t.(got := s.got + {m})) <= Left(count, s)
    ensures m !in s.got ==> Left(count, t.(got := s.got + {m})) < Left(count, s)
  {
    WorkLess(count, s, t.(got := s.got + {m}), m.to, 0, count);
    if m !in s.got {
      assert s.network - s.got == (s.network - (s.got + {m})) + {m};
    } else {
      assert s.got + {m} == s.got;
    }
  }

  /** `e` brings the next frame of the stream. */
  lemma ReadingLowers(count: nat, s: System, to: Mac, e: NodeEvent)
    requires count <= 4 && Inv(count, s) && to in s.switches && to != LEADER && s.read[to] < |s.stream|
    requires Fitting(count, s.switches, s.issued, to, e)
    ensures Left(count, Act(count, s, to, e).(read := s.read[to := s.read[to] + 1])) < Left(count, s)
  {
    ActMoves(count, s, to, e);
    SendsFew(count, s, to, e);
    ReadLeft(count, s, Act(count, s, to, e), to);
  }

  /** `e` brings a frame that was read before. */
  lemma RereadingKeeps(count: nat, s: System, to: Mac, e: NodeEvent)
    requires count <= 4 && Inv(count, s) && to in s.switches && to != LEADER && e.Recv?
    requires Fitting(count, s.switches, s.issued, to, e) && HasRead(s.switches, to, e.frame)
    ensures Left(count, Act(count, s, to, e)) <= Left(count, s)
  {
    ActMoves(count, s, to, e);
    SentAgain(count, s, to, e);
    QuietLeft(count, s, Act(count, s, to, e), to);
  }

  lemma ReadsOn(count: nat, s: System, to: Mac, i: nat, ready: nat)
    requires count <= 4 && Inv(count, s) && Enabled(count, s, FromLeader(to, i, ready)) && i == s.read[to]
    ensures var t := Act(count, s, to, Recv(LEADER, s.stream[i], ready));
            Left(count, t.(read := s.read[to := s.read[to] + 1])) < Left(count, s)
  {
    StreamFits(count, s, to, i, ready);
    ReadingLowers(count, s, to, Recv(LEADER, s.stream[i], ready));
  }

  lemma ReadsAgain(count: nat, s: System, to: Mac, i: nat, ready: nat)
    requires count <= 4 && Inv(count, s) && Enabled(count, s, FromLeader(to, i, ready)) && i < s.read[to]
    ensures Left(count, Act(count, s, to, Recv(LEADER, s.stream[i], ready))) <= Left(count, s)
  {
    StreamFits(count, s, to, i, ready);
    assert ReaderFine(s.switches, s.stream, to, s.read[to]) && HasRead(s.switches, to, s.stream[i]);
    RereadingKeeps(count, s, to, Recv(LEADER, s.stream[i], ready));
  }

  lemma NextRead(count: nat, s: System, to: Mac, i: nat, ready: nat)
    requires Enabled(count, s, FromLeader(to, i, ready))
    ensures var t := Act(count, s, to, Recv(LEADER, s.stream[i], ready));
            Next(count, s, FromLeader(to, i, ready)) ==
            if i == s.read[to] then t.(read := s.read[to := s.read[to] + 1]) else t
  {
    FromLeaderActs(count, s, to, i, ready);
    assert s.read[to := s.read[to]] == s.read;
  }

  lemma FromLeaderLowers(count: nat, s: System, to: Mac, i: nat, ready: nat, s': System)
    requires count <= 4 && Inv(count, s) && Steps(count, s, FromLeader(to, i, ready), s')
    ensures Left(count, s') <= Left(count, s) && (i == s.read[to] ==> Left(count, s') < Left(count, s))
  {
    NextRead(count, s, to, i, ready);
    if i == s.read[to] {
      ReadsOn(count, s, to, i, ready);
    } else {
      ReadsAgain(count, s, to, i, ready);
    }
  }

  lemma ArrivalLowers(count: nat, s: System, m: Sent, ready: nat)
    requires count <= 4 && Inv(count, s) && m in s.network && m.to in s.switches
    ensures var left' := Left(count, Act(count, s, m.to, Recv(m.from, m.frame, ready)).(got := s.got + {m}));
            left' <= Left(count, s) && (m !in s.got ==> left' < Left(count, s))
  {
    var e := Recv(m.from, m.frame, ready);
    PeerFits(count, s, m, ready);
    ActMoves(count, s, m.to, e);
    SentAgain(count, s, m.to, e);
    GotLeft(count, s, Act(count, s, m.to, e), m);
  }

  lemma PumpAdvances(node: NodeState, ready: nat)
    requires |node.delivered| == node.cseq && Deliverable(node) && ready > 0
    ensures Pump(node, node.crnd, ready).cseq > node.cseq
  {
    PumpDelivers(node, node.crnd, ready);
  }

  /** And so does the pass at switch `at`. */
  lemma PassAdvances(count: nat, s: System, at: Mac, ready: nat)
    requires at in s.switches && First(s, Background(at, ready))
    requires |s.switches[at].node.delivered| == s.switches[at].node.cseq
    ensures Act(count, s, at, Tick(ready)).switches[at].node.cseq > s.switches[at].node.cseq
  {
    PumpAdvances(s.switches[at].node, ready);
  }

  lemma LogCounted(count: nat, s: System, at: Mac)
    requires count <= 4 && Inv(count, s) && at in s.switches
    ensures |s.switches[at].node.delivered| == s.switches[at].node.cseq
  {
    HistoryFacts(count, at, s.issued, s.switches[at]);
  }

  lemma PassQuiet(count: nat, s: System, at: Mac, ready: nat)
    requires count <= 4 && Inv(count, s) && at in s.switches
    ensures var t := Act(count, s, at, Tick(ready)); Moved(count, s, t, at) && t.network == s.network
  {
    ActMoves(count, s, at, Tick(ready));
    SentAgain(count, s, at, Tick(ready));
  }

  lemma PassLowers(count: nat, s: System, at: Mac, ready: nat)
    requires count <= 4 && Inv(count, s) && at in s.switches
    ensures var left' := Left(count, Act(count, s, at, Tick(ready)));
            left' <= Left(count, s) && (First(s, Background(at, ready)) ==> left' < Left(count, s))
  {
    PassQuiet(count, s, at, ready);
    QuietLeft(count, s, Act(count, s, at, Tick(ready)), at);
    if First(s, Background(at, ready)) {
      LogCounted(count, s, at);
      PassAdvances(count, s, at, ready);
    }
  }

  lemma EvictKeeps(count: nat, s: System, at: Mac)
    requires count <= 4 && Inv(count, s) && at in s.switches
    ensures Left(count, Act(count, s, at, Sweep)) <= Left(count, s)
  {
    ActMoves(count, s, at, Sweep);
    SentAgain(count, s, at, Sweep);
    QuietLeft(count, s, Act(count, s, at, Sweep), at);
  }

  lemma FromPeerLowers(count: nat, s: System, m: Sent, ready: nat)
    requires count <= 4 && Inv(count, s) && Enabled(count, s, FromPeer(m, ready))
    ensures var left' := Left(count, Next(count, s, FromPeer(m, ready)));
            left' <= Left(count, s) && (m !in s.got ==> left' < Left(count, s))
  {
    ArrivalLowers(count, s, m, ready);
    assert Next(count, s, FromPeer(m, ready)) ==
           Act(count, s, m.to, Recv(m.from, m.frame, ready)).(got := s.got + {m});
  }

  /** Nothing but a client packet adds to what is left, and each first delivery takes something away. */
  lemma StepLowers(count: nat, s: System, e: Event, s': System)
    requires count <= 4 && Inv(count, s) && Steps(count, s, e, s') && !e.Client?
    ensures Left(count, s') <= Left(count, s) && (First(s, e) ==> Left(count, s') < Left(count, s))
  {
    match e
    case FromLeader(to, i, ready) => FromLeaderLowers(count, s, to, i, ready, s');
    case FromPeer(m, ready) => FromPeerLowers(count, s, m, ready);
    case Background(at, ready) => PassLowers(count, s, at, ready);
    case Evict(at) => EvictKeeps(count, s, at);
  }

  // ---- When nothing is left ----

  ghost predicate FirstLeft(count: nat, s: System) {
    exists e :: Enabled(count, s, e) && First(s, e)
  }

  ghost predicate AllComplete(count: nat, s: System) {
    s.read.Keys == s.switches.Keys && Quiescent(s) && forall j | j in Ids(count) :: Complete(s, j)
  }

  /** A switch with nothing deliverable at the head of its queue has delivered all it can. */
  lemma StoppedComplete(count: nat, s: System, j: Mac)
    requires 1 <= count <= 4 && Inv(count, s) && Quiescent(s) && j in s.switches
    ensures Deliverable(s.switches[j].node) <==> !Complete(s, j)
  {
    var node := s.switches[j].node;
    HistoryFacts(count, j, s.issued, s.switches[j]);
    if Deliverable(node) {
      HeadHoldsValue(count, j, s.issued, Taken(s.switches, j), node);
      DeliveredAsIssued(s.issued, node);
      assert Complete(s, j) ==> node.cseq == FirstHole(s.issued);
    } else {
      DrainedToHole(count, s, j, 0);
    }
  }

  lemma FlightLeft(count: nat, s: System)
    requires 1 <= count <= 4 && Inv(count, s) && !Quiescent(s)
    ensures FirstLeft(count, s)
  {
    if j :| j in s.switches && j != LEADER && s.read[j] != |s.stream| {
      assert ReaderFine(s.switches, s.stream, j, s.read[j]);
      var e := FromLeader(j, s.read[j], 0);
      assert Enabled(count, s, e) && First(s, e);
    } else {
      var m :| m in s.network && m !in s.got;
      assert PeerFrame(count, s.switches, m);
      var e := FromPeer(m, 0);
      assert Enabled(count, s, e) && First(s, e);
    }
  }

  /** First deliveries run out exactly when nothing is in flight and every switch has delivered all that the
      leader issued before the first number it left without a value. */
  lemma NothingLeftIff(count: nat, s: System)
    requires 1 <= count <= 4 && Inv(count, s)
    ensures !FirstLeft(count, s) <==> AllComplete(count, s)
  {
    if !Quiescent(s) {
      FlightLeft(count, s);
    } else {
      forall j | j in Ids(count) ensures Deliverable(s.switches[j].node) <==> !Complete(s, j) {
        StoppedComplete(count, s, j);
      }
      if j :| j in Ids(count) && !Complete(s, j) {
        var e := Background(j, 1);
        assert Enabled(count, s, e) && First(s, e);
      }
    }
  }

  // ---- Runs ----

  /** Whether event `i` does something for the first time. */
  function Gain(path: seq<System>, events: seq<Event>, i: nat): nat
    requires |path| == |events| + 1 && i < |events|
  {
    if First(path[i], events[i]) then 1 else 0
  }

  /** How many of the first `i` events do. */
  function Firsts(path: seq<System>, events: seq<Event>, i: nat): nat
    requires |path| == |events| + 1 && i <= |events|
  {
    if i == 0 then 0 else Firsts(path, events, i - 1) + Gain(path, events, i - 1)
  }

  /** Event `i` adds nothing to what is left, and takes something away if it is a first delivery. */
  ghost predicate Lowers(count: nat, path: seq<System>, events: seq<Event>, i: nat)
    requires |path| == |events| + 1 && i < |events|
  {
    Left(count, path[i + 1]) + Gain(path, events, i) <= Left(count, path[i])
  }

  lemma PathLowers(count: nat, path: seq<System>, events: seq<Event>, i: nat)
    requires count <= 4 && IsPath(count, path, events) && Inv(count, path[0]) && i < |events|
    ensures Lowers(count, path, events, i)
  {
    PathInv(count, path, events, i);
    assert PathStep(count, path, events, i);
    StepLowers(count, path[i], events[i], path[i + 1]);
  }

  lemma AllLower(count: nat, path: seq<System>, events: seq<Event>)
    requires count <= 4 && IsPath(count, path, events) && Inv(count, path[0])
    ensures forall i | 0 <= i < |events| :: Lowers(count, path, events, i)
  {
    forall i | 0 <= i < |events| ensures Lowers(count, path, events, i) {
      PathLowers(count, path, events, i);
    }
  }

  lemma {:induction false} FirstsBounded(count: nat, path: seq<System>, events: seq<Event>, i: nat)
    requires |path| == |events| + 1 && i <= |events|
    requires forall k | 0 <= k < |events| :: Lowers(count, path, events, k)
    ensures Firsts(path, events, i) + Left(count, path[i]) <= Left(count, path[0])
  {
    if i > 0 {
      FirstsBounded(count, path, events, i - 1);
      assert Lowers(count, path, events, i - 1);
    }
  }

  /** Without new client packets every continuation of every run makes at most so many first deliveries, in
      whatever order and with whatever repetitions; and it has more to make exactly as long as some frame is in
      flight or some switch has not delivered what it can. So keeping on making them completes every switch. */
  lemma CompletionInevitable(count: nat, run: seq<System>, events: seq<Event>, i: nat, path: seq<System>,
                             more: seq<Event>)
    requires 1 <= count <= 4 && IsRun(count, run, events) && i < |run|
    requires IsPath(count, path, more) && path[0] == run[i]
    ensures Firsts(path, more, |more|) <= Left(count, run[i])
    ensures Firsts(path, more, |more|) == Left(count, run[i]) ==> AllComplete(count, path[|more|])
    ensures !FirstLeft(count, path[|more|]) <==> AllComplete(count, path[|more|])
  {
    RunInv(count, run, events, i);
    AllLower(count, path, more);
    FirstsBounded(count, path, more, |more|);
    PathInv(count, path, more, |more|);
    NothingLeftIff(count, path[|more|]);
    if e :| Enabled(count, path[|more|], e) && First(path[|more|], e) {
      StepLowers(count, path[|more|], e, Next(count, path[|more|], e));
    }
  }
}
