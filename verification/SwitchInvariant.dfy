/** What every step of the switches keeps, for up to four of them. */
module SwitchInvariant {
  import opened Addresses
  import opened Wrappers
  import opened Quorums
  import opened Sets
  import opened PaxosMessage
  import opened SlotQueue
  import opened SteadyNode
  import opened Collection
  import opened NodeHistory
  import opened SwitchSystem

  type Switches = map<Mac, Switch>

  /** The numbers whose ACCEPT reached switch `j`. */
  function Taken(sws: Switches, j: Mac): set<int>
    requires j in sws
  {
    TakenIn(sws[j].local)
  }

  /** The LEARNs, with their senders, that reached switch `j`. */
  function Heard(sws: Switches, j: Mac): set<(Mac, int)>
    requires j in sws
  {
    HeardIn(j, sws[j].local)
  }

  ghost predicate SwitchesFine(count: nat, sws: Switches, issued: Issued) {
    forall j | j in sws :: SwitchInv(count, j, issued, sws[j])
  }

  /** The leader takes what it numbers at once. */
  ghost predicate LeaderTook(sws: Switches, issued: Issued)
    requires LEADER in sws
  {
    forall k | 0 <= k < |issued| && issued[k].Some? :: k in Taken(sws, LEADER)
  }

  /** The leader's stream: ACCEPTs for what was numbered, each LEARN right behind its ACCEPT. */
  ghost predicate StreamFrame(count: nat, issued: Issued, stream: seq<Frame>, i: nat)
    requires i < |stream|
  {
    match Decode(stream[i])
    case Accepting(n, k, v) => n == LeaderRound(count) && IssuedAs(issued, k, Some(v))
    case Learning(n, k) =>
      n == LeaderRound(count) && i > 0 && Decode(stream[i - 1]).Accepting? && Decode(stream[i - 1]).seqno == k
    case Ignored => false
  }

  /** Number `k` is in the stream, and its LEARN too. */
  ghost predicate InStream(count: nat, issued: Issued, stream: seq<Frame>, k: int)
    requires 0 <= k < |issued| && issued[k].Some?
  {
    && IsU32(LeaderRound(count)) && IsU32(k)
    && AcceptFrame(LeaderRound(count), k, issued[k].value) in stream
    && LearnFrame(LeaderRound(count), k) in stream
  }

  ghost predicate StreamFine(count: nat, issued: Issued, stream: seq<Frame>) {
    && (forall i: nat | i < |stream| :: StreamFrame(count, issued, stream, i))
    && (forall k: int | 0 <= k < |issued| && issued[k].Some? :: InStream(count, issued, stream, k))
  }

  /** A frame from the leader has had its effect at switch `j`. */
  ghost predicate HasRead(sws: Switches, j: Mac, frame: Frame)
    requires j in sws
  {
    match Decode(frame)
    case Accepting(_, k, _) => k in Taken(sws, j)
    case Learning(_, k) => (LEADER, k) in Heard(sws, j)
    case Ignored => true
  }

  ghost predicate ReaderFine(sws: Switches, stream: seq<Frame>, j: Mac, upTo: nat)
    requires j in sws
  {
    upTo <= |stream| && forall i: nat | i < upTo :: HasRead(sws, j, stream[i])
  }

  ghost predicate ReadersFine(sws: Switches, stream: seq<Frame>, read: map<Mac, nat>)
    requires read.Keys == sws.Keys
  {
    forall j | j in sws && j != LEADER :: ReaderFine(sws, stream, j, read[j])
  }

  /** A frame between switches is a LEARN of a number its sender accepted. */
  ghost predicate PeerFrame(count: nat, sws: Switches, m: Sent) {
    && m.from in sws && m.to in sws && m.from != m.to && m.from != LEADER
    && Decode(m.frame).Learning? && Decode(m.frame).n == LeaderRound(count)
    && Decode(m.frame).seqno in Taken(sws, m.from)
  }

  /** `k` told `j` that it accepted `x`. */
  ghost predicate Told(count: nat, network: set<Sent>, k: Mac, x: int, j: Mac) {
    IsU32(LeaderRound(count)) && IsU32(x) && Sent(k, j, LearnFrame(LeaderRound(count), x)) in network
  }

  ghost predicate NetworkFine(count: nat, sws: Switches, network: set<Sent>) {
    && (forall m | m in network :: PeerFrame(count, sws, m))
    && (forall k, x, j | k in sws && k != LEADER && x in Taken(sws, k) && j in sws && j != k ::
         Told(count, network, k, x, j))
  }

  /** A delivered frame was heard. */
  ghost predicate GotFine(sws: Switches, network: set<Sent>, got: set<Sent>) {
    forall m | m in got :: m in network && m.to in sws && Decode(m.frame).Learning? &&
        (m.from, Decode(m.frame).seqno) in Heard(sws, m.to)
  }

  /** A counted LEARN comes from a switch that accepted. */
  ghost predicate HeardTrue(sws: Switches, x: (Mac, int)) {
    x.0 in sws && x.1 in Taken(sws, x.0)
  }

  ghost predicate HeardFine(sws: Switches) {
    forall j, x | j in sws && x in Heard(sws, j) :: HeardTrue(sws, x)
  }

  /** The switches that accepted number `k`. */
  ghost function Acceptors(sws: Switches, k: int): set<Mac> {
    set j | j in sws && k in Taken(sws, j)
  }

  ghost predicate Backed(count: nat, sws: Switches, k: int) {
    |Acceptors(sws, k)| >= Majority(count)
  }

  ghost predicate DeliveredBacked(count: nat, sws: Switches) {
    forall j, k: int | j in sws && 0 <= k < sws[j].node.cseq :: Backed(count, sws, k)
  }

  ghost predicate WellFormed(count: nat, s: System) {
    s.switches.Keys == Ids(count) && s.read.Keys == Ids(count) && LEADER in s.switches
  }

  ghost predicate Inv(count: nat, s: System) {
    && WellFormed(count, s)
    && SwitchesFine(count, s.switches, s.issued)
    && LeaderTook(s.switches, s.issued)
    && StreamFine(count, s.issued, s.stream)
    && ReadersFine(s.switches, s.stream, s.read)
    && NetworkFine(count, s.switches, s.network)
    && GotFine(s.switches, s.network, s.got)
    && HeardFine(s.switches)
    && DeliveredBacked(count, s.switches)
  }

  lemma InitInv(count: nat)
    requires 1 <= count
    ensures Inv(count, Init(count))
  {
  }

  // ---- One event at one switch ----

  /** The event is one its switch may meet, and a LEARN it brings is true. */
  ghost predicate Fitting(count: nat, sws: Switches, issued: Issued, at: Mac, e: NodeEvent)
    requires at in sws
  {
    && Expected(count, at, issued, Taken(sws, at), e)
    && (e.Recv? && Decode(e.frame).Learning? ==> HeardTrue(sws, (e.src, Decode(e.frame).seqno)))
  }

  /** Histories only grow, at the switch of the event. */
  ghost predicate Grown(count: nat, sws: Switches, sws': Switches, at: Mac, e: NodeEvent)
    requires at in sws
  {
    && sws'.Keys == sws.Keys
    && (forall j | j in sws && j != at :: sws'[j] == sws[j])
    && sws'[at].node == NodeNext(sws[at].node, count, at, e).node
    && Taken(sws', at) == TakenAfter(Taken(sws, at), e)
    && Heard(sws', at) == HeardAfter(at, Heard(sws, at), e)
  }

  lemma SwitchMoved(count: nat, sws: Switches, issued: Issued, at: Mac, sw: Switch)
    requires SwitchesFine(count, sws, issued) && SwitchInv(count, at, issued, sw)
    ensures SwitchesFine(count, sws[at := sw], issued)
  {
    var sws' := sws[at := sw];
    forall j | j in sws' ensures SwitchInv(count, j, issued, sws'[j]) {
      assert j != at ==> SwitchInv(count, j, issued, sws[j]);
    }
  }

  lemma SwitchGrows(count: nat, sws: Switches, issued: Issued, at: Mac, e: NodeEvent)
    requires at in sws && SwitchInv(count, at, issued, sws[at]) && Expected(count, at, issued, Taken(sws, at), e)
    ensures var sw := Switch(NodeNext(sws[at].node, count, at, e).node, sws[at].local + [e]);
            SwitchInv(count, at, issued, sw) && Grown(count, sws, sws[at := sw], at, e)
  {
    SwitchStep(count, at, issued, sws[at], e);
  }

  lemma ActGrows(count: nat, s: System, at: Mac, e: NodeEvent)
    requires at in s.switches && SwitchesFine(count, s.switches, s.issued)
    requires Expected(count, at, s.issued, Taken(s.switches, at), e)
    ensures var s' := Act(count, s, at, e);
            SwitchesFine(count, s'.switches, s.issued) && Grown(count, s.switches, s'.switches, at, e)
  {
    var sw := Switch(NodeNext(s.switches[at].node, count, at, e).node, s.switches[at].local + [e]);
    SwitchGrows(count, s.switches, s.issued, at, e);
    SwitchMoved(count, s.switches, s.issued, at, sw);
    assert Act(count, s, at, e).switches == s.switches[at := sw];
  }

  lemma HeardKept(count: nat, sws: Switches, sws': Switches, issued: Issued, at: Mac, e: NodeEvent)
    requires HeardFine(sws) && at in sws && Fitting(count, sws, issued, at, e) && Grown(count, sws, sws', at, e)
    ensures HeardFine(sws')
  {
    forall j, x | j in sws' && x in Heard(sws', j) ensures HeardTrue(sws', x) {
      assert x in Heard(sws, j) ==> HeardTrue(sws, x);
    }
  }

  lemma LearnedBacked(count: nat, sws: Switches, issued: Issued, at: Mac, k: int)
    requires at in sws && HeardFine(sws) && SwitchFacts(count, at, issued, sws[at])
    requires k in sws[at].node.slots && Learned(sws[at].node.slots[k])
    ensures Backed(count, sws, k)
  {
    var slot := sws[at].node.slots[k];
    assert SlotInv(count, at, issued, Taken(sws, at), k, slot);
    forall x | x in slot.learns ensures x in Acceptors(sws, k) {
      assert (x, k) in Heard(sws, at);
      assert HeardTrue(sws, (x, k));
    }
    SubsetSize(slot.learns, Acceptors(sws, k));
  }

  lemma NewlyBacked(count: nat, sws: Switches, sws': Switches, issued: Issued, at: Mac, e: NodeEvent, k: int)
    requires count <= 4 && at in sws && at in Ids(count) && Grown(count, sws, sws', at, e) && HeardFine(sws')
    requires SwitchInv(count, at, issued, sws[at]) && SwitchInv(count, at, issued, sws'[at])
    requires Expected(count, at, issued, Taken(sws, at), e)
    requires sws[at].node.cseq <= k < sws'[at].node.cseq
    ensures Backed(count, sws', k)
  {
    HistoryFacts(count, at, issued, sws[at]);
    HistoryFacts(count, at, issued, sws'[at]);
    DeliveredLearned(count, at, issued, Taken(sws, at), sws[at].node, e);
    LearnedBacked(count, sws', issued, at, k);
  }

  lemma BackedKept(count: nat, sws: Switches, sws': Switches, issued: Issued, at: Mac, e: NodeEvent)
    requires count <= 4 && at in sws && at in Ids(count) && Grown(count, sws, sws', at, e) && HeardFine(sws')
    requires SwitchInv(count, at, issued, sws[at]) && SwitchInv(count, at, issued, sws'[at])
    requires Expected(count, at, issued, Taken(sws, at), e) && DeliveredBacked(count, sws)
    ensures DeliveredBacked(count, sws')
  {
    forall j, k: int | j in sws' && 0 <= k < sws'[j].node.cseq ensures Backed(count, sws', k) {
      if k < sws[j].node.cseq {
        assert Backed(count, sws, k);
        SubsetSize(Acceptors(sws, k), Acceptors(sws', k));
      } else {
        NewlyBacked(count, sws, sws', issued, at, e, k);
      }
    }
  }

  lemma ReadersKept(count: nat, sws: Switches, sws': Switches, stream: seq<Frame>, read: map<Mac, nat>, at: Mac,
      e: NodeEvent)
    requires at in sws && Grown(count, sws, sws', at, e) && read.Keys == sws.Keys && ReadersFine(sws, stream, read)
    ensures ReadersFine(sws', stream, read)
  {
    forall j | j in sws' && j != LEADER ensures ReaderFine(sws', stream, j, read[j]) {
      assert ReaderFine(sws, stream, j, read[j]);
      forall i: nat | i < read[j] ensures HasRead(sws', j, stream[i]) {
        assert HasRead(sws, j, stream[i]);
      }
    }
  }

  /** The frames of a switch that is not leading, after it acted. */
  lemma FramesFollowTaken(count: nat, sws: Switches, sws': Switches, network: set<Sent>, at: Mac, e: NodeEvent,
      casts: seq<Frame>)
    requires at in sws && at != LEADER && sws.Keys == Ids(count) && Grown(count, sws, sws', at, e)
    requires casts != [] ==> e.Recv? && Decode(e.frame).Accepting? && IsU32(LeaderRound(count))
                             && casts == [LearnFrame(LeaderRound(count), Decode(e.frame).seqno)]
    requires forall m | m in network :: PeerFrame(count, sws, m)
    ensures forall m | m in network + Unicasts(count, at, casts) :: PeerFrame(count, sws', m)
  {
    forall m | m in network + Unicasts(count, at, casts) ensures PeerFrame(count, sws', m) {
      if m in network {
        assert PeerFrame(count, sws, m);
      } else {
        assert m.frame in casts;
        DecodeFrame(LeaderRound(count), Decode(e.frame).seqno, []);
      }
    }
  }

  /** Everyone is told what it newly took. */
  lemma TakenIsTold(count: nat, sws: Switches, sws': Switches, network: set<Sent>, at: Mac, e: NodeEvent,
      casts: seq<Frame>)
    requires at in sws && at != LEADER && sws.Keys == Ids(count) && Grown(count, sws, sws', at, e)
    requires e.Recv? && Decode(e.frame).Accepting? && Decode(e.frame).seqno !in Taken(sws, at) ==>
               IsU32(LeaderRound(count)) && casts == [LearnFrame(LeaderRound(count), Decode(e.frame).seqno)]
    requires NetworkFine(count, sws, network)
    ensures forall k, x, j | k in sws' && k != LEADER && x in Taken(sws', k) && j in sws' && j != k ::
              Told(count, network + Unicasts(count, at, casts), k, x, j)
  {
    forall k, x, j | k in sws' && k != LEADER && x in Taken(sws', k) && j in sws' && j != k
      ensures Told(count, network + Unicasts(count, at, casts), k, x, j)
    {
      if x in Taken(sws, k) {
        assert Told(count, network, k, x, j);
      } else {
        assert k == at && casts[0] in casts;
      }
    }
  }

  lemma NetworkKept(count: nat, s: System, at: Mac, e: NodeEvent)
    requires count <= 4 && at in s.switches && s.switches.Keys == Ids(count)
    requires SwitchInv(count, at, s.issued, s.switches[at])
    requires Expected(count, at, s.issued, Taken(s.switches, at), e)
    requires Grown(count, s.switches, Act(count, s, at, e).switches, at, e)
    requires NetworkFine(count, s.switches, s.network)
    ensures NetworkFine(count, Act(count, s, at, e).switches, Act(count, s, at, e).network)
  {
    var s' := Act(count, s, at, e);
    var casts := NodeNext(s.switches[at].node, count, at, e).casts;
    HistoryFacts(count, at, s.issued, s.switches[at]);
    CastsStep(count, at, s.issued, Taken(s.switches, at), s.switches[at].node, e);
    if at == LEADER {
      forall m | m in s'.network ensures PeerFrame(count, s'.switches, m) {
        assert PeerFrame(count, s.switches, m);
      }
      forall k, x, j | k in s'.switches && k != LEADER && x in Taken(s'.switches, k) && j in s'.switches && j != k
        ensures Told(count, s'.network, k, x, j)
      {
        assert Told(count, s.network, k, x, j);
      }
    } else {
      FramesFollowTaken(count, s.switches, s'.switches, s.network, at, e, casts);
      TakenIsTold(count, s.switches, s'.switches, s.network, at, e, casts);
    }
  }

  lemma ActKeeps(count: nat, s: System, at: Mac, e: NodeEvent)
    requires count <= 4 && Inv(count, s) && at in s.switches && Fitting(count, s.switches, s.issued, at, e)
    requires at == LEADER ==> !(e.Recv? && Decode(e.frame).Accepting?)
    ensures Inv(count, Act(count, s, at, e))
    ensures Grown(count, s.switches, Act(count, s, at, e).switches, at, e)
    ensures Act(count, s, at, e).stream == s.stream
  {
    var s' := Act(count, s, at, e);
    ActGrows(count, s, at, e);
    HeardKept(count, s.switches, s'.switches, s.issued, at, e);
    BackedKept(count, s.switches, s'.switches, s.issued, at, e);
    NetworkKept(count, s, at, e);
    assert s'.stream == s.stream;
    ReadersKept(count, s.switches, s'.switches, s.stream, s.read, at, e);
    GotKept(count, s.switches, s'.switches, s.network, s'.network, s.got, at, e);
  }

  // ---- The events of the system ----

  lemma TakenIssued(count: nat, s: System, j: Mac, k: int)
    requires count <= 4 && Inv(count, s) && j in s.switches && k in Taken(s.switches, j)
    ensures 0 <= k < |s.issued| && s.issued[k].Some? && k in Taken(s.switches, LEADER)
  {
    HistoryFacts(count, j, s.issued, s.switches[j]);
    assert HasVoted(count, s.issued, s.switches[j].node, k);
  }

  lemma StreamFits(count: nat, s: System, to: Mac, i: nat, ready: nat)
    requires count <= 4 && Inv(count, s) && Enabled(count, s, FromLeader(to, i, ready))
    ensures Fitting(count, s.switches, s.issued, to, Recv(LEADER, s.stream[i], ready))
  {
    assert StreamFrame(count, s.issued, s.stream, i);
    if Decode(s.stream[i]).Learning? {
      assert ReaderFine(s.switches, s.stream, to, s.read[to]);
      assert HasRead(s.switches, to, s.stream[i - 1]) && StreamFrame(count, s.issued, s.stream, i - 1);
      TakenIssued(count, s, to, Decode(s.stream[i]).seqno);
    }
  }

  lemma ReaderMore(sws: Switches, stream: seq<Frame>, j: Mac, upTo: nat, i: nat)
    requires j in sws && ReaderFine(sws, stream, j, upTo) && i <= upTo && i < |stream| && HasRead(sws, j, stream[i])
    ensures ReaderFine(sws, stream, j, if i == upTo then i + 1 else upTo)
  {
  }

  lemma ReadersMore(sws: Switches, stream: seq<Frame>, read: map<Mac, nat>, to: Mac, i: nat)
    requires read.Keys == sws.Keys && ReadersFine(sws, stream, read)
    requires to in sws && to != LEADER && i <= read[to] && i < |stream| && HasRead(sws, to, stream[i])
    ensures ReadersFine(sws, stream, read[to := if i == read[to] then i + 1 else read[to]])
  {
    var read' := read[to := if i == read[to] then i + 1 else read[to]];
    forall j | j in sws && j != LEADER ensures ReaderFine(sws, stream, j, read'[j]) {
      assert ReaderFine(sws, stream, j, read[j]);
      if j == to {
        ReaderMore(sws, stream, to, read[to], i);
      }
    }
  }

  /** Recording a frame of the stream as read. */
  lemma ReadMore(count: nat, s: System, to: Mac, i: nat)
    requires Inv(count, s) && to in s.switches && to != LEADER && i <= s.read[to] && i < |s.stream|
    requires HasRead(s.switches, to, s.stream[i])
    ensures Inv(count, s.(read := s.read[to := if i == s.read[to] then i + 1 else s.read[to]]))
  {
    ReadersMore(s.switches, s.stream, s.read, to, i);
  }

  lemma FromLeaderActs(count: nat, s: System, to: Mac, i: nat, ready: nat)
    requires Enabled(count, s, FromLeader(to, i, ready))
    ensures var t := Act(count, s, to, Recv(LEADER, s.stream[i], ready));
            Next(count, s, FromLeader(to, i,
                ready)) == t.(read := s.read[to := if i == s.read[to] then i + 1 else s.read[to]])
  {
  }

  lemma FromLeaderKeeps(count: nat, s: System, to: Mac, i: nat, ready: nat)
    requires count <= 4 && Inv(count, s) && Enabled(count, s, FromLeader(to, i, ready))
    ensures Inv(count, Next(count, s, FromLeader(to, i, ready)))
  {
    var e := Recv(LEADER, s.stream[i], ready);
    StreamFits(count, s, to, i, ready);
    ActKeeps(count, s, to, e);
    ReadMore(count, Act(count, s, to, e), to, i);
    FromLeaderActs(count, s, to, i, ready);
  }

  lemma PeerFits(count: nat, s: System, m: Sent, ready: nat)
    requires count <= 4 && Inv(count, s) && m in s.network
    ensures m.to in s.switches && Fitting(count, s.switches, s.issued, m.to, Recv(m.from, m.frame, ready))
    ensures Decode(m.frame).Learning?
  {
    assert PeerFrame(count, s.switches, m);
    TakenIssued(count, s, m.from, Decode(m.frame).seqno);
  }

  /** Recording a frame as delivered. */
  lemma GotMore(count: nat, s: System, m: Sent)
    requires Inv(count, s) && m in s.network && m.to in s.switches
    requires Decode(m.frame).Learning? && (m.from, Decode(m.frame).seqno) in Heard(s.switches, m.to)
    ensures Inv(count, s.(got := s.got + {m}))
  {
  }

  lemma FromPeerKeeps(count: nat, s: System, m: Sent, ready: nat)
    requires count <= 4 && Inv(count, s) && m in s.network
    ensures Enabled(count, s, FromPeer(m, ready)) && Inv(count, Next(count, s, FromPeer(m, ready)))
  {
    var e := Recv(m.from, m.frame, ready);
    PeerFits(count, s, m, ready);
    ActKeeps(count, s, m.to, e);
    GotMore(count, Act(count, s, m.to, e), m);
  }

  // ---- A client packet ----

  /** Numbering one more packet leaves what is known about the earlier ones. */
  lemma NumberedMore(count: nat, s: System, entry: Option<Bytes>)
    requires SwitchesFine(count, s.switches, s.issued)
    requires StreamFine(count, s.issued, s.stream)
    ensures SwitchesFine(count, s.switches, s.issued + [entry])
    ensures forall i: nat | i < |s.stream| :: StreamFrame(count, s.issued + [entry], s.stream, i)
    ensures forall k: int | 0 <= k < |s.issued| && s.issued[k].Some? :: InStream(count, s.issued + [entry], s.stream, k)
  {
    forall j | j in s.switches ensures SwitchInv(count, j, s.issued + [entry], s.switches[j]) {
      SwitchIssue(count, j, s.issued, s.switches[j], entry);
    }
    forall i: nat | i < |s.stream| ensures StreamFrame(count, s.issued + [entry], s.stream, i) {
      assert StreamFrame(count, s.issued, s.stream, i);
    }
    forall k: int | 0 <= k < |s.issued| && s.issued[k].Some? ensures InStream(count, s.issued + [entry], s.stream, k) {
      assert InStream(count, s.issued, s.stream, k);
    }
  }

  lemma LeaderReady(count: nat, s: System)
    requires count <= 4 && Inv(count, s)
    ensures s.switches[LEADER].node.crnd == LeaderRound(count)
    ensures |s.issued| !in Taken(s.switches, LEADER)
  {
    HistoryFacts(count, LEADER, s.issued, s.switches[LEADER]);
  }

  lemma StreamLonger(count: nat, issued: Issued, stream: seq<Frame>, v: Bytes)
    requires IsU32(LeaderRound(count)) && IsU32(|issued|)
    requires var more := issued + [Some(v)];
             && (forall i: nat | i < |stream| :: StreamFrame(count, more, stream, i))
             && (forall k: int | 0 <= k < |issued| && more[k].Some? :: InStream(count, more, stream, k))
    ensures var n, k := LeaderRound(count), |issued|;
            StreamFine(count, issued + [Some(v)], stream + [AcceptFrame(n, k, v)] + [LearnFrame(n, k)])
  {
    var n, x := LeaderRound(count), |issued|;
    var more, longer := issued + [Some(v)], stream + [AcceptFrame(n, x, v)] + [LearnFrame(n, x)];
    DecodeFrame(n, x, v);
    forall i: nat | i < |longer| ensures StreamFrame(count, more, longer, i) {
      if i < |stream| {
        assert StreamFrame(count, more, stream, i);
      }
    }
    forall k: int | 0 <= k < |more| && more[k].Some? ensures InStream(count, more, longer, k) {
      if k < |issued| {
        assert InStream(count, more, stream, k);
      } else {
        assert longer[|stream|] == AcceptFrame(n, x, v) && longer[|stream| + 1] == LearnFrame(n, x);
      }
    }
  }

  lemma ReadersLonger(sws: Switches, stream: seq<Frame>, longer: seq<Frame>, read: map<Mac, nat>)
    requires read.Keys == sws.Keys && ReadersFine(sws, stream, read) && stream <= longer
    ensures ReadersFine(sws, longer, read)
  {
    forall j | j in sws && j != LEADER ensures ReaderFine(sws, longer, j, read[j]) {
      assert ReaderFine(sws, stream, j, read[j]);
      forall i: nat | i < read[j] ensures HasRead(sws, j, longer[i]) {
        assert HasRead(sws, j, stream[i]);
      }
    }
  }

  /** The leader just before it acts on its own ACCEPT for `v`, and that event. */
  function Numbered(s: System, n: int, v: Bytes): System
    requires IsU32(n) && IsU32(|s.issued|)
  {
    s.(issued := s.issued + [Some(v)], stream := s.stream + [AcceptFrame(n, |s.issued|, v)])
  }

  lemma ClientFits(count: nat, s: System, v: Bytes, ready: nat)
    requires count <= 4 && Inv(count, s) && IsU32(LeaderRound(count)) && IsU32(|s.issued|)
    ensures var e := Recv(LEADER, AcceptFrame(LeaderRound(count), |s.issued|, v), ready);
            && Decode(e.frame) == Accepting(LeaderRound(count), |s.issued|, v)
            && Fitting(count, s.switches, s.issued + [Some(v)], LEADER, e)
            && NodeNext(s.switches[LEADER].node, count, LEADER, e).casts == [LearnFrame(LeaderRound(count), |s.issued|)]
  {
    var e := Recv(LEADER, AcceptFrame(LeaderRound(count), |s.issued|, v), ready);
    DecodeFrame(LeaderRound(count), |s.issued|, v);
    NumberedMore(count, s, Some(v));
    LeaderReady(count, s);
    HistoryFacts(count, LEADER, s.issued + [Some(v)], s.switches[LEADER]);
    CastsStep(count, LEADER, s.issued + [Some(v)], Taken(s.switches, LEADER), s.switches[LEADER].node, e);
  }

  lemma ClientSwitches(count: nat, s: System, v: Bytes, ready: nat)
    requires count <= 4 && Inv(count, s) && IsU32(LeaderRound(count)) && IsU32(|s.issued|)
    ensures var e := Recv(LEADER, AcceptFrame(LeaderRound(count), |s.issued|, v), ready);
            var t := Numbered(s, LeaderRound(count), v);
            var s' := Act(count, t, LEADER, e);
            && SwitchesFine(count, s'.switches, t.issued) && Grown(count, s.switches, s'.switches, LEADER, e)
            && HeardFine(s'.switches) && DeliveredBacked(count, s'.switches)
            && NetworkFine(count, s'.switches, s'.network)
  {
    var e := Recv(LEADER, AcceptFrame(LeaderRound(count), |s.issued|, v), ready);
    var t := Numbered(s, LeaderRound(count), v);
    var sws' := Act(count, t, LEADER, e).switches;
    ClientFits(count, s, v, ready);
    NumberedMore(count, s, Some(v));
    ActGrows(count, t, LEADER, e);
    HeardKept(count, s.switches, sws', t.issued, LEADER, e);
    BackedKept(count, s.switches, sws', t.issued, LEADER, e);
    NetworkKept(count, t, LEADER, e);
  }

  lemma ClientStream(count: nat, s: System, v: Bytes, ready: nat)
    requires count <= 4 && Inv(count, s) && IsU32(LeaderRound(count)) && IsU32(|s.issued|)
    ensures var (n, k) := (LeaderRound(count), |s.issued|);
            var e := Recv(LEADER, AcceptFrame(n, k, v), ready);
            var s' := Act(count, Numbered(s, n, v), LEADER, e);
            && s'.stream == s.stream + [AcceptFrame(n, k, v)] + [LearnFrame(n, k)]
            && StreamFine(count, s.issued + [Some(v)], s'.stream)
  {
    ClientFits(count, s, v, ready);
    NumberedMore(count, s, Some(v));
    StreamLonger(count, s.issued, s.stream, v);
  }

  lemma LeaderTookMore(count: nat, sws: Switches, sws': Switches, issued: Issued, e: NodeEvent, v: Bytes)
    requires LEADER in sws && Grown(count, sws, sws', LEADER, e) && LeaderTook(sws, issued)
    requires e.Recv? && Decode(e.frame).Accepting? && Decode(e.frame).seqno == |issued|
    ensures LeaderTook(sws', issued + [Some(v)])
  {
    forall k | 0 <= k < |issued + [Some(v)]| && (issued + [Some(v)])[k].Some? ensures k in Taken(sws', LEADER) {
      assert k < |issued| ==> k in Taken(sws, LEADER);
    }
  }

  lemma GotKept(count: nat, sws: Switches, sws': Switches, network: set<Sent>, network': set<Sent>, got: set<Sent>,
                at: Mac, e: NodeEvent)
    requires at in sws && Grown(count, sws, sws', at, e) && GotFine(sws, network, got) && network <= network'
    ensures GotFine(sws', network', got)
  {
  }

  lemma ClientAssembled(count: nat, s: System, s': System, e: NodeEvent, v: Bytes)
    requires WellFormed(count, s) && LeaderTook(s.switches, s.issued)
    requires ReadersFine(s.switches, s.stream, s.read) && GotFine(s.switches, s.network, s.got)
    requires Grown(count, s.switches, s'.switches, LEADER, e)
    requires s'.issued == s.issued + [Some(v)] && s'.read == s.read && s'.got == s.got
    requires e.Recv? && Decode(e.frame).Accepting? && Decode(e.frame).seqno == |s.issued|
    requires s.network <= s'.network && s.stream <= s'.stream
    ensures WellFormed(count, s') && LeaderTook(s'.switches, s'.issued)
    ensures ReadersFine(s'.switches, s'.stream, s'.read) && GotFine(s'.switches, s'.network, s'.got)
  {
    ReadersLonger(s.switches, s.stream, s'.stream, s.read);
    ReadersKept(count, s.switches, s'.switches, s'.stream, s.read, LEADER, e);
    LeaderTookMore(count, s.switches, s'.switches, s.issued, e, v);
    GotKept(count, s.switches, s'.switches, s.network, s'.network, s.got, LEADER, e);
  }

  lemma ClientAct(count: nat, s: System, v: Bytes, ready: nat)
    requires count <= 4 && Inv(count, s) && IsU32(LeaderRound(count)) && IsU32(|s.issued|)
    ensures var e := Recv(LEADER, AcceptFrame(LeaderRound(count), |s.issued|, v), ready);
            Inv(count, Act(count, Numbered(s, LeaderRound(count), v), LEADER, e))
  {
    var e := Recv(LEADER, AcceptFrame(LeaderRound(count), |s.issued|, v), ready);
    var s' := Act(count, Numbered(s, LeaderRound(count), v), LEADER, e);
    DecodeFrame(LeaderRound(count), |s.issued|, v);
    ClientSwitches(count, s, v, ready);
    ClientStream(count, s, v, ready);
    ClientAssembled(count, s, s', e, v);
  }

  lemma ClientKeeps(count: nat, s: System, payload: Bytes, ready: nat)
    requires count <= 4 && Inv(count, s)
    ensures Inv(count, Next(count, s, Client(payload, ready)))
  {
    LeaderReady(count, s);
    var entry := NextEntry(s, payload);
    if entry.None? {
      NumberedMore(count, s, None);
    } else {
      ClientAct(count, s, entry.value, ready);
    }
  }

  lemma StepInv(count: nat, s: System, e: Event)
    requires count <= 4 && Inv(count, s) && Enabled(count, s, e)
    ensures Inv(count, Next(count, s, e))
  {
    match e
    case Client(payload, ready) => ClientKeeps(count, s, payload, ready);
    case FromLeader(to, i, ready) => FromLeaderKeeps(count, s, to, i, ready);
    case FromPeer(m, ready) => FromPeerKeeps(count, s, m, ready);
    case Background(at, ready) => ActKeeps(count, s, at, Tick(ready));
    case Evict(at) => ActKeeps(count, s, at, Sweep);
  }

  lemma StepsInv(count: nat, s: System, e: Event, s': System)
    requires count <= 4 && Inv(count, s) && Steps(count, s, e, s')
    ensures Inv(count, s')
  {
    StepInv(count, s, e);
  }

  lemma {:induction false} RunInv(count: nat, run: seq<System>, events: seq<Event>, i: nat)
    requires 1 <= count <= 4 && IsRun(count, run, events) && i < |run|
    ensures Inv(count, run[i])
  {
    if i == 0 {
      InitInv(count);
    } else {
      RunInv(count, run, events, i - 1);
      assert StepsAt(count, run, events, i - 1);
      StepsInv(count, run[i - 1], events[i - 1], run[i]);
    }
  }
}
