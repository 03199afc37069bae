/**
 All the Paxos switches together again, each taken apart at its queue mutex: at any moment any of them may be in
 the middle of a handler, with its pump thread running in between.
 */
module InterleavedSystem {
  import opened Addresses
  import opened Wrappers
  import opened Quorums
  import opened PaxosMessage
  import opened SlotQueue
  import opened SteadyNode
  import opened Collection
  import Interleaving
  import SwitchSystem
  import TotalOrder

  type Threads = Interleaving.Threads
  type ThreadEvent = Interleaving.ThreadEvent
  type Sent = SwitchSystem.Sent

  /** A switch and, as history, the numbers whose ACCEPT it is through with, the LEARNs it is through with, and
      every step of its threads. */
  datatype Place = Place(threads: Threads, taken: set<int>, heard: set<(Mac, int)>, local: seq<ThreadEvent>)

  type Places = map<Mac, Place>

  /** `got` are the frames of `network` that were delivered at least once. */
  datatype System = System(
    places: Places,
    issued: Issued,
    stream: seq<Frame>,
    read: map<Mac, nat>,
    network: set<Sent>,
    got: set<Sent>)

  /** The first three start a handler; `Local` is a handler going on, a queue pass or a collection. */
  datatype Event =
    | Client(payload: Bytes)
    | FromLeader(to: Mac, i: nat)
    | FromPeer(m: Sent)
    | Local(at: Mac, e: ThreadEvent)

  function InitPlace(count: nat, me: Mac): Place {
    Place(Interleaving.Threads(InitNode(SwitchSystem.InitialRound(count, me)), Interleaving.Idle), {}, {}, [])
  }

  function Init(count: nat): System {
    System(map j | j in Ids(count) :: InitPlace(count, j), [], [], map j | j in Ids(count) :: 0, {}, {})
  }

  /** What the next step of a handler sends: the LEARNs for what it accepts. */
  function Sends(count: nat, t: Threads, e: ThreadEvent): seq<Frame> {
    if e.Continue? && t.at.InAccept?
       && Interleaving.AcceptStep(t.node, count, t.at.n, t.at.s, t.at.v, t.at.held).at.CallingSelf? then
      match PackLearn(t.at.n, t.at.s)
      case Some(payload) => [Frame(LEARN, payload)]
      case None => []
    else
      []
  }

  function Moved(count: nat, me: Mac, p: Place, e: ThreadEvent): Place {
    Place(Interleaving.Next(p.threads, count, me, e), Interleaving.TakenBy(p.taken, p.threads, e),
          Interleaving.HeardBy(p.heard, p.threads, e), p.local + [e])
  }

  /** `e` happens at switch `at`. */
  function Act(count: nat, s: System, at: Mac, e: ThreadEvent): System
    requires at in s.places
  {
    var casts := Sends(count, s.places[at].threads, e);
    var s' := s.(places := s.places[at := Moved(count, at, s.places[at], e)]);
    if at == LEADER then
      s'.(stream := s.stream + casts)
    else
      s'.(network := s.network + SwitchSystem.Unicasts(count, at, casts))
  }

  predicate IdleAt(s: System, j: Mac) {
    j in s.places && s.places[j].threads.at.Idle?
  }

  predicate Enabled(count: nat, s: System, e: Event) {
    match e
    case Client(_) => IdleAt(s, LEADER)
    case FromLeader(to, i) => to != LEADER && IdleAt(s, to) && to in s.read && i <= s.read[to] && i < |s.stream|
    case FromPeer(m) => m in s.network && IdleAt(s, m.to)
    case Local(at, e) => at in s.places && !e.Receive? && Interleaving.Enabled(s.places[at].threads, e)
  }

  function Next(count: nat, s: System, e: Event): System
    requires Enabled(count, s, e)
  {
    match e
    case Client(payload) =>
      var crnd := s.places[LEADER].threads.node.crnd;
      var entry := SwitchSystem.Entry(crnd, |s.issued|, payload);
      var t := s.(issued := s.issued + [entry]);
      if entry.None? then
        t
      else
        var accept := AcceptFrame(crnd, |s.issued|, entry.value);
        Act(count, t.(stream := s.stream + [accept]), LEADER, Interleaving.Receive(LEADER, accept))
    case FromLeader(to, i) =>
      Act(count, s.(read := s.read[to := if i == s.read[to] then i + 1 else s.read[to]]), to,
          Interleaving.Receive(LEADER, s.stream[i]))
    case FromPeer(m) => Act(count, s.(got := s.got + {m}), m.to, Interleaving.Receive(m.from, m.frame))
    case Local(at, e) => Act(count, s, at, e)
  }

  ghost predicate Steps(count: nat, s: System, e: Event, s': System) {
    Enabled(count, s, e) && s' == Next(count, s, e)
  }

  ghost predicate StepsAt(count: nat, run: seq<System>, events: seq<Event>, i: nat)
    requires |run| == |events| + 1 && i < |events|
  {
    Steps(count, run[i], events[i], run[i + 1])
  }

  ghost predicate IsRun(count: nat, run: seq<System>, events: seq<Event>) {
    && |run| == |events| + 1
    && run[0] == Init(count)
    && forall i | 0 <= i < |events| :: StepsAt(count, run, events, i)
  }

  // ---- What every step keeps ----

  /** Where a history takes a switch. */
  function After(count: nat, me: Mac, local: seq<ThreadEvent>): Place {
    if local == [] then InitPlace(count, me)
    else Moved(count, me, After(count, me, local[..|local| - 1]), local[|local| - 1])
  }

  ghost predicate StepFits(count: nat, me: Mac, issued: Issued, local: seq<ThreadEvent>, i: nat)
    requires i < |local|
  {
    var p := After(count, me, local[..i]);
    Interleaving.Steps(count, me, issued, p.taken, p.threads, local[i])
  }

  /** The switch is where its history takes it, and the history is one module Interleaving is about. */
  ghost predicate PlaceFine(count: nat, me: Mac, issued: Issued, p: Place) {
    p == After(count, me, p.local) && forall i | 0 <= i < |p.local| :: StepFits(count, me, issued, p.local, i)
  }

  ghost predicate PlacesFine(count: nat, places: Places, issued: Issued) {
    forall j | j in places :: PlaceFine(count, j, issued, places[j])
  }

  /** The switch is through with the ACCEPT of `k`, or at it. */
  predicate Has(p: Place, k: int) {
    k in p.taken || (p.threads.at.InAccept? && p.threads.at.s == k)
  }

  ghost predicate LeaderTook(p: Place, issued: Issued) {
    forall k | 0 <= k < |issued| && issued[k].Some? :: Has(p, k)
  }

  predicate IsAccept(frame: Frame, k: int) {
    Decode(frame).Accepting? && Decode(frame).seqno == k
  }

  /** The ACCEPT of `k` is among the first `i` frames. */
  ghost predicate AcceptIn(stream: seq<Frame>, i: nat, k: int)
    requires i <= |stream|
  {
    exists h: nat :: h < i && IsAccept(stream[h], k)
  }

  /** The leader sends out the ACCEPT it is working on before it gets its slot. */
  ghost predicate LeaderSent(p: Place, stream: seq<Frame>) {
    p.threads.at.InAccept? ==> AcceptIn(stream, |stream|, p.threads.at.s)
  }

  ghost predicate LeaderReady(count: nat, p: Place, issued: Issued, stream: seq<Frame>) {
    p.threads.node.crnd == LeaderRound(count) && LeaderTook(p, issued) && LeaderSent(p, stream)
  }

  ghost predicate StreamFrame(count: nat, issued: Issued, stream: seq<Frame>, i: nat)
    requires i < |stream|
  {
    match Decode(stream[i])
    case Accepting(n, k, v) => n == LeaderRound(count) && IssuedAs(issued, k, Some(v))
    case Learning(n, k) => n == LeaderRound(count) && AcceptIn(stream, i, k)
    case Ignored => false
  }

  ghost predicate StreamFine(count: nat, issued: Issued, stream: seq<Frame>) {
    forall i: nat | i < |stream| :: StreamFrame(count, issued, stream, i)
  }

  predicate HasRead(p: Place, frame: Frame) {
    Decode(frame).Accepting? ==> Has(p, Decode(frame).seqno)
  }

  ghost predicate ReaderFine(p: Place, stream: seq<Frame>, upTo: nat) {
    upTo <= |stream| && forall i: nat | i < upTo :: HasRead(p, stream[i])
  }

  ghost predicate ReadersFine(places: Places, stream: seq<Frame>, read: map<Mac, nat>)
    requires read.Keys == places.Keys
  {
    forall j | j in places && j != LEADER :: ReaderFine(places[j], stream, read[j])
  }

  /** Switches other than the leader send LEARNs for what was issued. */
  ghost predicate PeerFrame(count: nat, issued: Issued, m: Sent) {
    && m.from in Ids(count) && m.from != m.to && m.from != LEADER
    && Decode(m.frame).Learning? && Decode(m.frame).n == LeaderRound(count)
    && 0 <= Decode(m.frame).seqno < |issued| && issued[Decode(m.frame).seqno].Some?
  }

  ghost predicate NetworkFine(count: nat, issued: Issued, network: set<Sent>) {
    forall m | m in network :: PeerFrame(count, issued, m)
  }

  ghost predicate WellFormed(count: nat, s: System) {
    s.places.Keys == Ids(count) && s.read.Keys == Ids(count) && LEADER in s.places
  }

  ghost predicate Inv(count: nat, s: System) {
    && WellFormed(count, s)
    && PlacesFine(count, s.places, s.issued)
    && LeaderReady(count, s.places[LEADER], s.issued, s.stream)
    && StreamFine(count, s.issued, s.stream)
    && ReadersFine(s.places, s.stream, s.read)
    && NetworkFine(count, s.issued, s.network)
  }

  lemma InitInv(count: nat)
    requires 1 <= count
    ensures Inv(count, Init(count))
  {
  }

  // ---- One step at one switch ----

  lemma PlaceMoves(count: nat, me: Mac, issued: Issued, p: Place, e: ThreadEvent)
    requires PlaceFine(count, me, issued, p) && Interleaving.Steps(count, me, issued, p.taken, p.threads, e)
    ensures PlaceFine(count, me, issued, Moved(count, me, p, e))
  {
    var more := p.local + [e];
    assert more[..|more| - 1] == p.local;
    forall i | 0 <= i < |more| ensures StepFits(count, me, issued, more, i) {
      assert more[..i] == p.local[..i];
      assert i == |p.local| || StepFits(count, me, issued, p.local, i);
    }
  }

  /** What module Interleaving says about such a switch. */
  lemma {:induction false} PlaceSteady(count: nat, me: Mac, issued: Issued, p: Place) returns (a: NodeState)
    requires 1 <= count <= 4 && me in Ids(count) && PlaceFine(count, me, issued, p)
    ensures Interleaving.ThreadsInv(count, me, issued, p.taken, a, p.threads)
    decreases |p.local|
  {
    if p.local == [] {
      a := p.threads.node;
    } else {
      var last := |p.local| - 1;
      var before := After(count, me, p.local[..last]);
      BeforeFine(count, me, issued, p);
      a := PlaceSteady(count, me, issued, before);
      assert StepFits(count, me, issued, p.local, last);
      Interleaving.StepSteady(count, me, issued, before.taken, a, before.threads, p.local[last]);
      a := Interleaving.Alone(count, a, before.threads, p.local[last]);
    }
  }

  lemma MovedLocal(count: nat, me: Mac, p: Place, e: ThreadEvent)
    ensures Moved(count, me, p, e).local == p.local + [e]
  {
  }

  lemma {:induction false} AfterLocal(count: nat, me: Mac, local: seq<ThreadEvent>)
    ensures After(count, me, local).local == local
    decreases |local|
  {
    if local != [] {
      var before, e := local[..|local| - 1], local[|local| - 1];
      AfterLocal(count, me, before);
      MovedLocal(count, me, After(count, me, before), e);
      assert before + [e] == local;
    }
  }

  lemma BeforeFine(count: nat, me: Mac, issued: Issued, p: Place)
    requires PlaceFine(count, me, issued, p) && p.local != []
    ensures PlaceFine(count, me, issued, After(count, me, p.local[..|p.local| - 1]))
    ensures After(count, me, p.local[..|p.local| - 1]).local == p.local[..|p.local| - 1]
  {
    var before := p.local[..|p.local| - 1];
    AfterLocal(count, me, before);
    forall i | 0 <= i < |before| ensures StepFits(count, me, issued, before, i) {
      assert before[..i] == p.local[..i];
      assert StepFits(count, me, issued, p.local, i);
    }
  }

  /** What a handler works on stays in hand until it is taken. */
  lemma HasStays(count: nat, me: Mac, p: Place, e: ThreadEvent, k: int)
    requires Has(p, k) && Interleaving.Enabled(p.threads, e)
    ensures Has(Moved(count, me, p, e), k)
  {
  }

  lemma RoundKept(count: nat, me: Mac, issued: Issued, p: Place, e: ThreadEvent)
    requires 1 <= count <= 4 && me in Ids(count)
    requires PlaceFine(count, me, issued, p) && p.threads.node.crnd == LeaderRound(count)
    ensures Moved(count, me, p, e).threads.node.crnd == LeaderRound(count)
  {
    var node := p.threads.node;
    var a := PlaceSteady(count, me, issued, p);
    match e
    case Background(n, ready) => PumpDelivers(node, n, ready);
    case Continue(ready) =>
      if p.threads.at.Processing? {
        PumpDelivers(node, p.threads.at.n, ready);
      }
    case _ =>
  }

  /** A handler sends LEARNs only for the number it is accepting. */
  lemma SendsLearn(count: nat, me: Mac, issued: Issued, p: Place, e: ThreadEvent, frame: Frame)
    requires 1 <= count <= 4 && me in Ids(count)
    requires PlaceFine(count, me, issued, p) && frame in Sends(count, p.threads, e)
    ensures p.threads.at.InAccept? && Decode(frame) == Learning(LeaderRound(count), p.threads.at.s)
    ensures 0 <= p.threads.at.s < |issued| && issued[p.threads.at.s].Some?
    ensures |Sends(count, p.threads, e)| == 1
  {
    var a := PlaceSteady(count, me, issued, p);
    DecodeFrame(LeaderRound(count), p.threads.at.s, []);
  }

  lemma TookStays(count: nat, p: Place, issued: Issued, e: ThreadEvent)
    requires LeaderTook(p, issued) && Interleaving.Enabled(p.threads, e)
    ensures LeaderTook(Moved(count, LEADER, p, e), issued)
  {
    forall k | 0 <= k < |issued| && issued[k].Some? ensures Has(Moved(count, LEADER, p, e), k) {
      HasStays(count, LEADER, p, e, k);
    }
  }

  lemma ReaderStays(count: nat, j: Mac, p: Place, e: ThreadEvent, stream: seq<Frame>, upTo: nat)
    requires ReaderFine(p, stream, upTo) && Interleaving.Enabled(p.threads, e)
    ensures ReaderFine(Moved(count, j, p, e), stream, upTo)
  {
    forall i: nat | i < upTo ensures HasRead(Moved(count, j, p, e), stream[i]) {
      assert HasRead(p, stream[i]);
      if Decode(stream[i]).Accepting? {
        HasStays(count, j, p, e, Decode(stream[i]).seqno);
      }
    }
  }

  lemma AcceptInLonger(stream: seq<Frame>, longer: seq<Frame>, i: nat, i': nat, k: int)
    requires stream <= longer && i <= |stream| && i <= i' <= |longer| && AcceptIn(stream, i, k)
    ensures AcceptIn(longer, i', k)
  {
    var h: nat :| h < i && IsAccept(stream[h], k);
    assert IsAccept(longer[h], k);
  }

  lemma StreamFrameLonger(count: nat, issued: Issued, more: Issued, stream: seq<Frame>, longer: seq<Frame>, i: nat)
    requires issued <= more && stream <= longer && i < |stream| && StreamFrame(count, issued, stream, i)
    ensures StreamFrame(count, more, longer, i)
  {
    if Decode(stream[i]).Learning? {
      AcceptInLonger(stream, longer, i, i, Decode(stream[i]).seqno);
    }
  }

  /** One more frame, fine in its place. */
  lemma StreamLonger(count: nat, issued: Issued, more: Issued, stream: seq<Frame>, frame: Frame)
    requires StreamFine(count, issued, stream) && issued <= more
    requires StreamFrame(count, more, stream + [frame], |stream|)
    ensures StreamFine(count, more, stream + [frame])
  {
    forall i: nat | i < |stream + [frame]| ensures StreamFrame(count, more, stream + [frame], i) {
      if i < |stream| {
        StreamFrameLonger(count, issued, more, stream, stream + [frame], i);
      }
    }
  }

  lemma ReadersLonger(places: Places, stream: seq<Frame>, longer: seq<Frame>, read: map<Mac, nat>)
    requires read.Keys == places.Keys && ReadersFine(places, stream, read) && stream <= longer
    ensures ReadersFine(places, longer, read)
  {
    forall j | j in places && j != LEADER ensures ReaderFine(places[j], longer, read[j]) {
      assert ReaderFine(places[j], stream, read[j]);
      forall i: nat | i < read[j] ensures HasRead(places[j], longer[i]) {
        assert HasRead(places[j], stream[i]);
      }
    }
  }

  // ---- A step of the leader ----

  /** What the leader sends keeps the stream in order. */
  lemma LeaderSends(count: nat, issued: Issued, p: Place, e: ThreadEvent, stream: seq<Frame>)
    requires 1 <= count <= 4
    requires PlaceFine(count, LEADER, issued, p) && StreamFine(count, issued, stream) && LeaderSent(p, stream)
    ensures StreamFine(count, issued, stream + Sends(count, p.threads, e))
  {
    var casts := Sends(count, p.threads, e);
    if casts == [] {
      assert stream + casts == stream;
    } else {
      SendsLearn(count, LEADER, issued, p, e, casts[0]);
      assert casts == [casts[0]];
      AcceptInLonger(stream, stream + casts, |stream|, |stream|, p.threads.at.s);
      StreamLonger(count, issued, issued, stream, casts[0]);
    }
  }

  /** The leader receives its own ACCEPTs only when it has sent them. */
  ghost predicate OwnSent(stream: seq<Frame>, at: Mac, e: ThreadEvent) {
    at == LEADER && e.Receive? && Decode(e.frame).Accepting? ==> AcceptIn(stream, |stream|, Decode(e.frame).seqno)
  }

  lemma SentStays(count: nat, p: Place, e: ThreadEvent, stream: seq<Frame>, longer: seq<Frame>)
    requires LeaderSent(p, stream) && Interleaving.Enabled(p.threads, e) && OwnSent(stream, LEADER, e)
    requires stream <= longer
    ensures LeaderSent(Moved(count, LEADER, p, e), longer)
  {
    var p' := Moved(count, LEADER, p, e);
    if p'.threads.at.InAccept? {
      AcceptInLonger(stream, longer, |stream|, |longer|, p'.threads.at.s);
    }
  }

  lemma PlacesKept(count: nat, places: Places, issued: Issued, at: Mac, e: ThreadEvent)
    requires 1 <= count <= 4 && places.Keys == Ids(count) && PlacesFine(count, places, issued) && at in places
    requires Interleaving.Steps(count, at, issued, places[at].taken, places[at].threads, e)
    ensures PlacesFine(count, places[at := Moved(count, at, places[at], e)], issued)
  {
    assert PlaceFine(count, at, issued, places[at]);
    PlaceMoves(count, at, issued, places[at], e);
  }

  lemma ReadersKept(count: nat, places: Places, stream: seq<Frame>, read: map<Mac, nat>, at: Mac, e: ThreadEvent)
    requires read.Keys == places.Keys && ReadersFine(places, stream, read) && at in places
    requires Interleaving.Enabled(places[at].threads, e)
    ensures ReadersFine(places[at := Moved(count, at, places[at], e)], stream, read)
  {
    if at != LEADER {
      assert ReaderFine(places[at], stream, read[at]);
      ReaderStays(count, at, places[at], e, stream, read[at]);
    }
    assert forall j | j in places && j != LEADER :: ReaderFine(places[j], stream, read[j]);
  }

  lemma LeaderActs(count: nat, s: System, e: ThreadEvent)
    requires 1 <= count <= 4 && Inv(count, s) && OwnSent(s.stream, LEADER, e)
    requires var p := s.places[LEADER]; Interleaving.Steps(count, LEADER, s.issued, p.taken, p.threads, e)
    ensures Inv(count, Act(count, s, LEADER, e))
  {
    var p := s.places[LEADER];
    var s' := Act(count, s, LEADER, e);
    assert PlaceFine(count, LEADER, s.issued, p);
    PlacesKept(count, s.places, s.issued, LEADER, e);
    RoundKept(count, LEADER, s.issued, p, e);
    TookStays(count, p, s.issued, e);
    LeaderSends(count, s.issued, p, e, s.stream);
    SentStays(count, p, e, s.stream, s'.stream);
    ReadersKept(count, s.places, s.stream, s.read, LEADER, e);
    ReadersLonger(s'.places, s.stream, s'.stream, s.read);
  }

  // ---- A step of another switch ----

  lemma PeerSends(count: nat, s: System, at: Mac, e: ThreadEvent)
    requires 1 <= count <= 4 && at in Ids(count)
    requires at != LEADER && at in s.places && PlaceFine(count, at, s.issued, s.places[at])
    requires NetworkFine(count, s.issued, s.network)
    ensures NetworkFine(count, s.issued, Act(count, s, at, e).network)
  {
    var casts := Sends(count, s.places[at].threads, e);
    forall m | m in SwitchSystem.Unicasts(count, at, casts) ensures PeerFrame(count, s.issued, m) {
      SendsLearn(count, at, s.issued, s.places[at], e, m.frame);
    }
  }

  lemma PeerPlaces(count: nat, s: System, at: Mac, e: ThreadEvent)
    requires 1 <= count <= 4 && Inv(count, s) && at in s.places && at != LEADER
    requires var p := s.places[at]; Interleaving.Steps(count, at, s.issued, p.taken, p.threads, e)
    ensures Inv(count, s.(places := s.places[at := Moved(count, at, s.places[at], e)]))
  {
    PlacesKept(count, s.places, s.issued, at, e);
    ReadersKept(count, s.places, s.stream, s.read, at, e);
  }

  lemma PeerActs(count: nat, s: System, at: Mac, e: ThreadEvent)
    requires 1 <= count <= 4 && Inv(count, s) && at in s.places && at != LEADER
    requires var p := s.places[at]; Interleaving.Steps(count, at, s.issued, p.taken, p.threads, e)
    ensures Inv(count, Act(count, s, at, e))
  {
    PeerPlaces(count, s, at, e);
    assert PlaceFine(count, at, s.issued, s.places[at]);
    PeerSends(count, s, at, e);
    MoreSent(count, s.(places := s.places[at := Moved(count, at, s.places[at], e)]), Act(count, s, at, e).network);
  }

  lemma MoreSent(count: nat, s: System, network: set<Sent>)
    requires Inv(count, s) && NetworkFine(count, s.issued, network)
    ensures Inv(count, s.(network := network))
  {
  }

  // ---- Every event ----

  /** What the leader's stream holds is what its reader expects. */
  lemma StreamFits(count: nat, s: System, to: Mac, i: nat)
    requires Inv(count, s) && Enabled(count, s, FromLeader(to, i))
    ensures Expected(count, to, s.issued, s.places[to].taken, Recv(LEADER, s.stream[i], 0))
  {
    assert StreamFrame(count, s.issued, s.stream, i);
    if Decode(s.stream[i]).Learning? {
      var k := Decode(s.stream[i]).seqno;
      assert ReaderFine(s.places[to], s.stream, s.read[to]);
      var h: nat :| h < i && IsAccept(s.stream[h], k);
      assert HasRead(s.places[to], s.stream[h]);
    }
  }

  lemma ReaderMore(p: Place, stream: seq<Frame>, upTo: nat, i: nat)
    requires ReaderFine(p, stream, upTo) && i <= upTo && i < |stream| && HasRead(p, stream[i])
    ensures ReaderFine(p, stream, if i == upTo then i + 1 else upTo)
  {
  }

  /** Recording a frame of the stream as read. */
  lemma ReadMore(count: nat, s: System, to: Mac, i: nat)
    requires Inv(count, s) && to in s.places && to != LEADER && i <= s.read[to] && i < |s.stream|
    requires HasRead(s.places[to], s.stream[i])
    ensures Inv(count, s.(read := s.read[to := if i == s.read[to] then i + 1 else s.read[to]]))
  {
    var read' := s.read[to := if i == s.read[to] then i + 1 else s.read[to]];
    forall j | j in s.places && j != LEADER ensures ReaderFine(s.places[j], s.stream, read'[j]) {
      assert ReaderFine(s.places[j], s.stream, s.read[j]);
      if j == to {
        ReaderMore(s.places[to], s.stream, s.read[to], i);
      }
    }
  }

  lemma FromLeaderActs(count: nat, s: System, to: Mac, i: nat)
    requires Enabled(count, s, FromLeader(to, i))
    ensures var t := Act(count, s, to, Interleaving.Receive(LEADER, s.stream[i]));
            && Next(count, s, FromLeader(to, i)) ==
               t.(read := s.read[to := if i == s.read[to] then i + 1 else s.read[to]])
            && t.read == s.read && t.stream == s.stream && to in t.places && HasRead(t.places[to], s.stream[i])
  {
  }

  lemma FromLeaderKeeps(count: nat, s: System, to: Mac, i: nat)
    requires 1 <= count <= 4 && Inv(count, s) && Enabled(count, s, FromLeader(to, i))
    ensures Inv(count, Next(count, s, FromLeader(to, i)))
  {
    var e := Interleaving.Receive(LEADER, s.stream[i]);
    StreamFits(count, s, to, i);
    PeerActs(count, s, to, e);
    FromLeaderActs(count, s, to, i);
    ReadMore(count, Act(count, s, to, e), to, i);
  }

  lemma PeerFits(count: nat, s: System, m: Sent)
    requires Inv(count, s) && Enabled(count, s, FromPeer(m))
    ensures Expected(count, m.to, s.issued, s.places[m.to].taken, Recv(m.from, m.frame, 0))
    ensures Decode(m.frame).Learning?
  {
    assert PeerFrame(count, s.issued, m);
    assert m.to == LEADER ==> Has(s.places[LEADER], Decode(m.frame).seqno);
  }

  lemma GotMore(count: nat, s: System, m: Sent)
    requires Inv(count, s)
    ensures Inv(count, s.(got := s.got + {m}))
  {
  }

  lemma ActKeeps(count: nat, s: System, at: Mac, e: ThreadEvent)
    requires 1 <= count <= 4 && Inv(count, s) && at in s.places && OwnSent(s.stream, at, e)
    requires var p := s.places[at]; Interleaving.Steps(count, at, s.issued, p.taken, p.threads, e)
    ensures Inv(count, Act(count, s, at, e))
  {
    if at == LEADER {
      LeaderActs(count, s, e);
    } else {
      PeerActs(count, s, at, e);
    }
  }

  // ---- A client packet ----

  lemma IssueFits(count: nat, me: Mac, issued: Issued, p: Place, entry: Option<Bytes>)
    requires PlaceFine(count, me, issued, p)
    ensures PlaceFine(count, me, issued + [entry], p)
  {
    forall i | 0 <= i < |p.local| ensures StepFits(count, me, issued + [entry], p.local, i) {
      assert StepFits(count, me, issued, p.local, i);
    }
  }

  lemma IssuePlaces(count: nat, places: Places, issued: Issued, entry: Option<Bytes>)
    requires PlacesFine(count, places, issued)
    ensures PlacesFine(count, places, issued + [entry])
  {
    forall j | j in places ensures PlaceFine(count, j, issued + [entry], places[j]) {
      IssueFits(count, j, issued, places[j], entry);
    }
  }

  lemma IssueNetwork(count: nat, issued: Issued, network: set<Sent>, entry: Option<Bytes>)
    requires NetworkFine(count, issued, network)
    ensures NetworkFine(count, issued + [entry], network)
  {
    forall m | m in network ensures PeerFrame(count, issued + [entry], m) {
      assert PeerFrame(count, issued, m);
    }
  }

  lemma IssueStream(count: nat, issued: Issued, stream: seq<Frame>, entry: Option<Bytes>)
    requires StreamFine(count, issued, stream)
    ensures StreamFine(count, issued + [entry], stream)
  {
    forall i: nat | i < |stream| ensures StreamFrame(count, issued + [entry], stream, i) {
      StreamFrameLonger(count, issued, issued + [entry], stream, stream, i);
    }
  }

  /** A number that is spent without a value. */
  lemma HoleKeeps(count: nat, s: System)
    requires 1 <= count <= 4 && Inv(count, s)
    ensures Inv(count, s.(issued := s.issued + [None]))
  {
    IssuePlaces(count, s.places, s.issued, None);
    IssueNetwork(count, s.issued, s.network, None);
    IssueStream(count, s.issued, s.stream, None);
  }

  /** A number with its value, and the ACCEPT that is sent for it. */
  function Numbered(s: System, n: int, v: Bytes): System
    requires IsU32(n) && IsU32(|s.issued|)
  {
    s.(issued := s.issued + [Some(v)], stream := s.stream + [AcceptFrame(n, |s.issued|, v)])
  }

  lemma NumberedFine(count: nat, s: System, v: Bytes)
    requires Inv(count, s) && IsU32(LeaderRound(count)) && IsU32(|s.issued|)
    ensures var t := Numbered(s, LeaderRound(count), v);
            && PlacesFine(count, t.places, t.issued) && NetworkFine(count, t.issued, t.network)
            && StreamFine(count, t.issued, t.stream) && ReadersFine(t.places, t.stream, t.read)
  {
    var accept := AcceptFrame(LeaderRound(count), |s.issued|, v);
    DecodeFrame(LeaderRound(count), |s.issued|, v);
    IssuePlaces(count, s.places, s.issued, Some(v));
    IssueNetwork(count, s.issued, s.network, Some(v));
    StreamLonger(count, s.issued, s.issued + [Some(v)], s.stream, accept);
    ReadersLonger(s.places, s.stream, s.stream + [accept], s.read);
  }

  /** The leader with its slot for the number in hand. */
  lemma LeaderTakes(count: nat, p: Place, issued: Issued, stream: seq<Frame>, v: Bytes)
    requires LeaderReady(count, p, issued, stream) && p.threads.at.Idle?
    requires IsU32(LeaderRound(count)) && IsU32(|issued|)
    ensures var accept := AcceptFrame(LeaderRound(count), |issued|, v);
            var e := Interleaving.Receive(LEADER, accept);
            && LeaderReady(count, Moved(count, LEADER, p, e), issued + [Some(v)], stream + [accept])
            && Interleaving.Steps(count, LEADER, issued + [Some(v)], p.taken, p.threads, e)
            && Sends(count, p.threads, e) == []
  {
    var accept := AcceptFrame(LeaderRound(count), |issued|, v);
    DecodeFrame(LeaderRound(count), |issued|, v);
    assert IsAccept((stream + [accept])[|stream|], |issued|);
    TookStays(count, p, issued, Interleaving.Receive(LEADER, accept));
  }

  lemma QuietAct(count: nat, s: System, e: ThreadEvent)
    requires LEADER in s.places && Sends(count, s.places[LEADER].threads, e) == []
    ensures Act(count, s, LEADER, e) == s.(places := s.places[LEADER := Moved(count, LEADER, s.places[LEADER], e)])
  {
    assert s.stream + [] == s.stream;
  }

  /** What remains to be checked when only the leader moved, without sending. */
  lemma LeaderMoved(count: nat, t: System, e: ThreadEvent)
    requires 1 <= count <= 4 && WellFormed(count, t)
    requires PlacesFine(count, t.places, t.issued) && NetworkFine(count, t.issued, t.network)
    requires StreamFine(count, t.issued, t.stream) && ReadersFine(t.places, t.stream, t.read)
    requires var p := t.places[LEADER];
             && Interleaving.Steps(count, LEADER, t.issued, p.taken, p.threads, e) && Sends(count, p.threads, e) == []
    requires LeaderReady(count, Moved(count, LEADER, t.places[LEADER], e), t.issued, t.stream)
    ensures Inv(count, Act(count, t, LEADER, e))
  {
    PlacesKept(count, t.places, t.issued, LEADER, e);
    ReadersKept(count, t.places, t.stream, t.read, LEADER, e);
    QuietAct(count, t, e);
  }

  /** The leader's own ACCEPT, when it is sent and the leader gets its slot. */
  lemma ClientActs(count: nat, s: System, v: Bytes)
    requires 1 <= count <= 4 && Inv(count, s) && IdleAt(s, LEADER) && IsU32(LeaderRound(count)) && IsU32(|s.issued|)
    ensures var accept := AcceptFrame(LeaderRound(count), |s.issued|, v);
            Inv(count, Act(count, Numbered(s, LeaderRound(count), v), LEADER, Interleaving.Receive(LEADER, accept)))
  {
    var e := Interleaving.Receive(LEADER, AcceptFrame(LeaderRound(count), |s.issued|, v));
    NumberedFine(count, s, v);
    LeaderTakes(count, s.places[LEADER], s.issued, s.stream, v);
    LeaderMoved(count, Numbered(s, LeaderRound(count), v), e);
  }

  lemma ClientKeeps(count: nat, s: System, payload: Bytes)
    requires 1 <= count <= 4 && Inv(count, s) && Enabled(count, s, Client(payload))
    ensures Inv(count, Next(count, s, Client(payload)))
  {
    var entry := SwitchSystem.Entry(s.places[LEADER].threads.node.crnd, |s.issued|, payload);
    if entry.None? {
      HoleKeeps(count, s);
    } else {
      ClientActs(count, s, entry.value);
    }
  }

  lemma StepInv(count: nat, s: System, e: Event)
    requires 1 <= count <= 4 && Inv(count, s) && Enabled(count, s, e)
    ensures Inv(count, Next(count, s, e))
  {
    match e
    case Client(payload) => ClientKeeps(count, s, payload);
    case FromLeader(to, i) => FromLeaderKeeps(count, s, to, i);
    case FromPeer(m) =>
      PeerFits(count, s, m);
      GotMore(count, s, m);
      ActKeeps(count, s.(got := s.got + {m}), m.to, Interleaving.Receive(m.from, m.frame));
    case Local(at, e) => ActKeeps(count, s, at, e);
  }

  lemma StepsInv(count: nat, s: System, e: Event, s': System)
    requires 1 <= count <= 4 && Inv(count, s) && Steps(count, s, e, s')
    ensures Inv(count, s')
  {
    StepInv(count, s, e);
  }

  lemma {:induction false} RunInv(count: nat, run: seq<System>, events: seq<Event>, i: nat)
    requires 1 <= count <= 4 && IsRun(count, run, events) && i <= |events|
    ensures Inv(count, run[i])
  {
    if i == 0 {
      InitInv(count);
    } else {
      RunInv(count, run, events, i - 1);
      assert StepsAt(count, run, events, i - 1);
      StepsInv(count, run[i - 1], events[i - 1], run[i]);
    }
  }

  // ---- One order of delivery ----

  function Log(s: System, j: Mac): seq<(int, Option<Bytes>)>
    requires j in s.places
  {
    s.places[j].threads.node.delivered
  }

  lemma DeliveredIssued(count: nat, j: Mac, issued: Issued, p: Place)
    requires 1 <= count <= 4 && j in Ids(count) && PlaceFine(count, j, issued, p)
    ensures var node := p.threads.node;
            node.cseq <= TotalOrder.FirstHole(issued) && node.delivered == TotalOrder.Proposals(issued)[..node.cseq]
  {
    var a := PlaceSteady(count, j, issued, p);
    var node := p.threads.node;
    forall k: int | 0 <= k < node.cseq ensures IssuedAs(issued, k, node.delivered[k].1) {
      assert Kept(count, a, node, k);
      Interleaving.LearnedHoldsValue(count, j, issued, p.taken, a, k);
    }
    TotalOrder.DeliveredAsIssued(issued, node);
  }

  /** Whatever any switch is in the middle of, at every point of every run every switch has delivered a prefix of
      the leader's log, and values only. */
  lemma LogIsPrefix(count: nat, run: seq<System>, events: seq<Event>, i: nat, j: Mac)
    requires 1 <= count <= 4 && IsRun(count, run, events) && i < |run| && j in Ids(count)
    ensures j in run[i].places && Log(run[i], j) <= TotalOrder.Proposals(run[i].issued)
    ensures |Log(run[i], j)| <= TotalOrder.FirstHole(run[i].issued)
  {
    RunInv(count, run, events, i);
    DeliveredIssued(count, j, run[i].issued, run[i].places[j]);
  }

  lemma {:induction false} ProposalsGrow(count: nat, run: seq<System>, events: seq<Event>, i: nat, k: nat)
    requires IsRun(count, run, events) && i <= k < |run|
    ensures TotalOrder.Proposals(run[i].issued) <= TotalOrder.Proposals(run[k].issued)
    decreases k
  {
    if i < k {
      ProposalsGrow(count, run, events, i, k - 1);
      assert StepsAt(count, run, events, k - 1);
    }
  }

  /** Any two logs of a run, of any switches at any times, agree as far as the shorter one goes. */
  lemma LogsAgree(count: nat, run: seq<System>, events: seq<Event>, i: nat, j: Mac, i': nat, j': Mac)
    requires 1 <= count <= 4 && IsRun(count, run, events) && i < |run| && i' < |run| && j in Ids(count) &&
             j' in Ids(count)
    ensures j in run[i].places && j' in run[i'].places
    ensures Log(run[i], j) <= Log(run[i'], j') || Log(run[i'], j') <= Log(run[i], j)
  {
    var last := |run| - 1;
    LogIsPrefix(count, run, events, i, j);
    LogIsPrefix(count, run, events, i', j');
    ProposalsGrow(count, run, events, i, last);
    ProposalsGrow(count, run, events, i', last);
  }
}
