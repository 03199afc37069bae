/** Consensus and completeness in the system of interleaved switches. */
module InterleavedOrder {
  import opened Addresses
  import opened Wrappers
  import opened Quorums
  import opened Sets
  import opened PaxosMessage
  import opened SlotQueue
  import opened SteadyNode
  import opened NodeHistory
  import opened Collection
  import opened InterleavedSystem
  import opened InterleavedHistory

  // ---- What every step keeps about LEARNs ----

  /** The LEARNs the switch is through with, or at. */
  function Claims(p: Place): set<(Mac, int)> {
    p.heard + if p.threads.at.InLearn? then {(p.threads.at.src, p.threads.at.s)} else {}
  }

  /** The switch that a LEARN names took the number. */
  ghost predicate Took(places: Places, x: (Mac, int)) {
    x.0 in places && x.1 in places[x.0].taken
  }

  ghost predicate ClaimsTrue(places: Places) {
    forall j, x | j in places && x in Claims(places[j]) :: Took(places, x)
  }

  /** A LEARN in the leader's stream is for a number it took. */
  ghost predicate FrameTaken(places: Places, frame: Frame) {
    Decode(frame).Learning? ==> Took(places, (LEADER, Decode(frame).seqno))
  }

  ghost predicate StreamTaken(places: Places, stream: seq<Frame>) {
    forall i | 0 <= i < |stream| :: FrameTaken(places, stream[i])
  }

  ghost predicate PeerTaken(places: Places, m: Sent) {
    m.to in places && Decode(m.frame).Learning? && Took(places, (m.from, Decode(m.frame).seqno))
  }

  ghost predicate NetworkTaken(places: Places, network: set<Sent>) {
    forall m | m in network :: PeerTaken(places, m)
  }

  ghost predicate LearnSent(count: nat, stream: seq<Frame>, k: int) {
    IsU32(LeaderRound(count)) && IsU32(k) && LearnFrame(LeaderRound(count), k) in stream
  }

  /** What the leader took it told everybody. */
  ghost predicate LeaderTold(count: nat, taken: set<int>, stream: seq<Frame>) {
    forall k | k in taken :: LearnSent(count, stream, k)
  }

  ghost predicate Told(count: nat, network: set<Sent>, j: Mac, k: int, i: Mac) {
    && IsU32(LeaderRound(count)) && IsU32(k)
    && SwitchSystem.Sent(j, i, LearnFrame(LeaderRound(count), k)) in network
  }

  /** And so did the others. */
  ghost predicate PeersTold(count: nat, places: Places, network: set<Sent>) {
    forall j, k, i | j in places && j != LEADER && k in places[j].taken && i in places && i != j ::
      Told(count, network, j, k, i)
  }

  ghost predicate AcceptSent(count: nat, stream: seq<Frame>, k: int, v: Bytes) {
    IsU32(LeaderRound(count)) && IsU32(k) && AcceptFrame(LeaderRound(count), k, v) in stream
  }

  ghost predicate AcceptsSent(count: nat, issued: Issued, stream: seq<Frame>) {
    forall k | 0 <= k < |issued| && issued[k].Some? :: AcceptSent(count, stream, k, issued[k].value)
  }

  /** A frame that was delivered has had its effect, or is having it. */
  ghost predicate GotHeard(places: Places, network: set<Sent>, m: Sent) {
    m in network && m.to in places && Decode(m.frame).Learning?
    && (m.from, Decode(m.frame).seqno) in Claims(places[m.to])
  }

  ghost predicate GotFine(places: Places, network: set<Sent>, got: set<Sent>) {
    forall m | m in got :: GotHeard(places, network, m)
  }

  ghost predicate HearsFrame(p: Place, frame: Frame) {
    Decode(frame).Learning? ==> (LEADER, Decode(frame).seqno) in Claims(p)
  }

  ghost predicate ReaderHears(p: Place, stream: seq<Frame>, upTo: nat) {
    forall i | 0 <= i < upTo && i < |stream| :: HearsFrame(p, stream[i])
  }

  ghost predicate ReadersHear(places: Places, stream: seq<Frame>, read: map<Mac, nat>) {
    forall j | j in places && j != LEADER && j in read :: ReaderHears(places[j], stream, read[j])
  }

  ghost predicate Ledger(count: nat, s: System) {
    && LEADER in s.places
    && ClaimsTrue(s.places) && StreamTaken(s.places, s.stream) && NetworkTaken(s.places, s.network)
    && LeaderTold(count, s.places[LEADER].taken, s.stream) && PeersTold(count, s.places, s.network)
    && AcceptsSent(count, s.issued, s.stream)
    && GotFine(s.places, s.network, s.got) && ReadersHear(s.places, s.stream, s.read)
  }

  lemma InitLedger(count: nat)
    requires 1 <= count
    ensures Ledger(count, Init(count))
  {
  }

  // ---- One step at one switch ----

  /** What a step newly claims. */
  function NewClaims(me: Mac, p: Place, e: ThreadEvent): set<(Mac, int)> {
    if e.Receive? && Decode(e.frame).Learning? then {(e.src, Decode(e.frame).seqno)}
    else if e.Continue? && p.threads.at.CallingSelf? then {(me, p.threads.at.s)}
    else {}
  }

  lemma ClaimsMoved(count: nat, me: Mac, p: Place, e: ThreadEvent)
    requires Interleaving.Enabled(p.threads, e)
    ensures Claims(Moved(count, me, p, e)) == Claims(p) + NewClaims(me, p, e)
    ensures p.taken <= Moved(count, me, p, e).taken
  {
  }

  /** Everybody's claims and numbers grow, at `at` by what the step adds. */
  ghost predicate Grown(places: Places, places': Places, at: Mac, claims: set<(Mac, int)>) {
    && places'.Keys == places.Keys && at in places
    && (forall j | j in places && j != at :: places'[j] == places[j])
    && Claims(places'[at]) == Claims(places[at]) + claims && places[at].taken <= places'[at].taken
  }

  lemma TookStays(places: Places, places': Places, at: Mac, claims: set<(Mac, int)>, x: (Mac, int))
    requires Grown(places, places', at, claims) && Took(places, x)
    ensures Took(places', x)
  {
    if x.0 == at {
      assert x.1 in places[at].taken;
    } else {
      assert places'[x.0] == places[x.0];
    }
  }

  lemma ClaimsKept(places: Places, places': Places, at: Mac, claims: set<(Mac, int)>)
    requires Grown(places, places', at, claims) && ClaimsTrue(places) && forall x | x in claims :: Took(places, x)
    ensures ClaimsTrue(places')
  {
    forall j, x | j in places' && x in Claims(places'[j]) ensures Took(places', x) {
      if j == at {
        assert x in Claims(places[at]) + claims;
      }
      TookStays(places, places', at, claims, x);
    }
  }

  lemma TakenKept(places: Places, places': Places, at: Mac, claims: set<(Mac, int)>, stream: seq<Frame>,
                  network: set<Sent>)
    requires Grown(places, places', at, claims) && StreamTaken(places, stream) && NetworkTaken(places, network)
    ensures StreamTaken(places', stream) && NetworkTaken(places', network)
  {
    forall i | 0 <= i < |stream| ensures FrameTaken(places', stream[i]) {
      assert FrameTaken(places, stream[i]);
    }
    forall m | m in network ensures PeerTaken(places', m) {
      assert PeerTaken(places, m);
    }
  }

  lemma HeardKept(places: Places, places': Places, at: Mac, claims: set<(Mac, int)>, stream: seq<Frame>,
                  read: map<Mac, nat>, network: set<Sent>, network': set<Sent>, got: set<Sent>)
    requires Grown(places, places', at, claims) && GotFine(places, network, got) && ReadersHear(places, stream, read)
    requires network <= network'
    ensures GotFine(places', network', got) && ReadersHear(places', stream, read)
  {
    forall m | m in got ensures GotHeard(places', network', m) {
      assert GotHeard(places, network, m);
    }
    forall j | j in places' && j != LEADER && j in read ensures ReaderHears(places'[j], stream, read[j]) {
      assert ReaderHears(places[j], stream, read[j]);
      forall i | 0 <= i < read[j] && i < |stream| ensures HearsFrame(places'[j], stream[i]) {
        assert HearsFrame(places[j], stream[i]);
      }
    }
  }

  /** What a step takes and sends. */
  lemma TakesAndSends(count: nat, me: Mac, issued: Issued, p: Place, e: ThreadEvent)
    requires 1 <= count <= 4 && me in Ids(count) && PlaceFine(count, me, issued, p)
    ensures if TakesOn(count, p.threads, e) then
              && IsU32(LeaderRound(count)) && IsU32(p.threads.at.s)
              && Sends(count, p.threads, e) == [LearnFrame(LeaderRound(count), p.threads.at.s)]
              && Moved(count, me, p, e).taken == p.taken + {p.threads.at.s}
            else
              Sends(count, p.threads, e) == [] && Moved(count, me, p, e).taken == p.taken
  {
    var a := PlaceFacts(count, me, issued, p);
    if e.Continue? && p.threads.at.InAccept? {
      NotAcceptedTaken(count, me, issued, p.taken, a, p.threads);
    }
  }

  /** A switch that calls itself took the number. */
  lemma CallsTaken(count: nat, me: Mac, issued: Issued, p: Place)
    requires 1 <= count <= 4 && me in Ids(count) && PlaceFine(count, me, issued, p) && p.threads.at.CallingSelf?
    ensures p.threads.at.s in p.taken
  {
    var a := PlaceFacts(count, me, issued, p);
    assert SlotInv(count, me, issued, p.taken, p.threads.at.s, a.slots[p.threads.at.s]);
  }

  // ---- What the step sends ----

  lemma LeaderTells(count: nat, places: Places, places': Places, claims: set<(Mac, int)>, stream: seq<Frame>,
                    casts: seq<Frame>, k: int)
    requires Grown(places, places', LEADER, claims)
    requires StreamTaken(places, stream) && LeaderTold(count, places[LEADER].taken, stream)
    requires IsU32(LeaderRound(count)) && IsU32(k) && casts == [LearnFrame(LeaderRound(count), k)]
    requires places'[LEADER].taken == places[LEADER].taken + {k}
    ensures StreamTaken(places', stream + casts) && LeaderTold(count, places'[LEADER].taken, stream + casts)
  {
    DecodeFrame(LeaderRound(count), k, []);
    forall i | 0 <= i < |stream + casts| ensures FrameTaken(places', (stream + casts)[i]) {
      if i < |stream| {
        assert FrameTaken(places, stream[i]);
      }
    }
    forall x | x in places'[LEADER].taken ensures LearnSent(count, stream + casts, x) {
      if x in places[LEADER].taken {
        assert LearnSent(count, stream, x);
      } else {
        assert (stream + casts)[|stream|] == casts[0];
      }
    }
  }

  lemma PeerTells(count: nat, places: Places, places': Places, at: Mac, claims: set<(Mac, int)>, network: set<Sent>,
                  casts: seq<Frame>, k: int)
    requires Grown(places, places', at, claims) && at != LEADER && places.Keys == Ids(count)
    requires NetworkTaken(places, network) && PeersTold(count, places, network)
    requires IsU32(LeaderRound(count)) && IsU32(k) && casts == [LearnFrame(LeaderRound(count), k)]
    requires places'[at].taken == places[at].taken + {k}
    ensures NetworkTaken(places', network + SwitchSystem.Unicasts(count, at, casts))
    ensures PeersTold(count, places', network + SwitchSystem.Unicasts(count, at, casts))
  {
    var network' := network + SwitchSystem.Unicasts(count, at, casts);
    DecodeFrame(LeaderRound(count), k, []);
    forall m | m in network' ensures PeerTaken(places', m) {
      if m in network {
        assert PeerTaken(places, m);
        TookStays(places, places', at, claims, (m.from, Decode(m.frame).seqno));
      }
    }
    forall j, x, i | j in places' && j != LEADER && x in places'[j].taken && i in places' && i != j
      ensures Told(count, network', j, x, i)
    {
      if x in places[j].taken {
        assert Told(count, network, j, x, i);
      } else {
        assert j == at && x == k && casts[0] in casts;
      }
    }
  }

  lemma SameTold(count: nat, places: Places, places': Places, at: Mac, claims: set<(Mac, int)>, network: set<Sent>)
    requires Grown(places, places', at, claims) && PeersTold(count, places, network)
    requires places'[at].taken == places[at].taken || at == LEADER
    ensures PeersTold(count, places', network)
  {
    forall j, x, i | j in places' && j != LEADER && x in places'[j].taken && i in places' && i != j
      ensures Told(count, network, j, x, i)
    {
      assert x in places[j].taken;
    }
  }

  lemma StreamOn(count: nat, issued: Issued, stream: seq<Frame>, casts: seq<Frame>)
    requires AcceptsSent(count, issued, stream)
    ensures AcceptsSent(count, issued, stream + casts)
  {
    forall k | 0 <= k < |issued| && issued[k].Some? ensures AcceptSent(count, stream + casts, k, issued[k].value) {
      assert AcceptSent(count, stream, k, issued[k].value);
    }
  }

  /** Longer streams say nothing new about what was read. */
  lemma ReadersLonger(places: Places, stream: seq<Frame>, casts: seq<Frame>, read: map<Mac, nat>)
    requires ReadersHear(places, stream, read)
    requires forall j | j in places && j != LEADER && j in read :: read[j] <= |stream|
    ensures ReadersHear(places, stream + casts, read)
  {
    forall j | j in places && j != LEADER && j in read ensures ReaderHears(places[j], stream + casts, read[j]) {
      assert ReaderHears(places[j], stream, read[j]);
      forall i | 0 <= i < read[j] && i < |stream + casts| ensures HearsFrame(places[j], (stream + casts)[i]) {
        assert HearsFrame(places[j], stream[i]);
      }
    }
  }

  ghost predicate ReadWithin(s: System) {
    s.read.Keys == s.places.Keys && forall j | j in s.places && j != LEADER :: s.read[j] <= |s.stream|
  }

  /** What the step claims is true. */
  ghost predicate Claimable(s: System, at: Mac, e: ThreadEvent)
    requires at in s.places
  {
    forall x | x in NewClaims(at, s.places[at], e) :: Took(s.places, x)
  }

  lemma PlacesGrow(count: nat, s: System, at: Mac, e: ThreadEvent)
    requires at in s.places && Interleaving.Enabled(s.places[at].threads, e)
    ensures Grown(s.places, Act(count, s, at, e).places, at, NewClaims(at, s.places[at], e))
  {
    ClaimsMoved(count, at, s.places[at], e);
  }

  lemma LeaderLedger(count: nat, s: System, e: ThreadEvent)
    requires 1 <= count <= 4 && Ledger(count, s) && s.places.Keys == Ids(count) && ReadWithin(s)
    requires PlaceFine(count, LEADER, s.issued, s.places[LEADER])
    requires Interleaving.Enabled(s.places[LEADER].threads, e) && Claimable(s, LEADER, e)
    ensures Ledger(count, Act(count, s, LEADER, e))
  {
    var s', claims := Act(count, s, LEADER, e), NewClaims(LEADER, s.places[LEADER], e);
    var p := s.places[LEADER];
    var casts := Sends(count, p.threads, e);
    PlacesGrow(count, s, LEADER, e);
    ClaimsKept(s.places, s'.places, LEADER, claims);
    TakenKept(s.places, s'.places, LEADER, claims, s.stream, s.network);
    HeardKept(s.places, s'.places, LEADER, claims, s.stream, s.read, s.network, s'.network, s.got);
    ReadersLonger(s'.places, s.stream, casts, s.read);
    StreamOn(count, s.issued, s.stream, casts);
    SameTold(count, s.places, s'.places, LEADER, claims, s.network);
    TakesAndSends(count, LEADER, s.issued, p, e);
    if TakesOn(count, p.threads, e) {
      LeaderTells(count, s.places, s'.places, claims, s.stream, casts, p.threads.at.s);
    } else {
      assert s.stream + casts == s.stream;
    }
  }

  lemma QuietNetwork(count: nat, places: Places, places': Places, at: Mac, claims: set<(Mac, int)>, stream: seq<Frame>,
                     network: set<Sent>, casts: seq<Frame>)
    requires Grown(places, places', at, claims) && places'[at].taken == places[at].taken && casts == []
    requires StreamTaken(places, stream) && NetworkTaken(places, network) && PeersTold(count, places, network)
    ensures var network' := network + SwitchSystem.Unicasts(count, at, casts);
            NetworkTaken(places', network') && PeersTold(count, places', network')
  {
    TakenKept(places, places', at, claims, stream, network);
    SameTold(count, places, places', at, claims, network);
    assert network + SwitchSystem.Unicasts(count, at, casts) == network;
  }

  lemma PeerNetwork(count: nat, s: System, at: Mac, e: ThreadEvent)
    requires 1 <= count <= 4 && s.places.Keys == Ids(count) && at in s.places && at != LEADER
    requires NetworkTaken(s.places, s.network) && PeersTold(count, s.places, s.network)
    requires StreamTaken(s.places, s.stream) && PlaceFine(count, at, s.issued, s.places[at])
    requires Interleaving.Enabled(s.places[at].threads, e)
    ensures var s' := Act(count, s, at, e);
            NetworkTaken(s'.places, s'.network) && PeersTold(count, s'.places, s'.network)
  {
    var s', claims := Act(count, s, at, e), NewClaims(at, s.places[at], e);
    var casts := Sends(count, s.places[at].threads, e);
    PlacesGrow(count, s, at, e);
    TakesAndSends(count, at, s.issued, s.places[at], e);
    if TakesOn(count, s.places[at].threads, e) {
      PeerTells(count, s.places, s'.places, at, claims, s.network, casts, s.places[at].threads.at.s);
    } else {
      QuietNetwork(count, s.places, s'.places, at, claims, s.stream, s.network, casts);
    }
  }

  lemma PeerLedger(count: nat, s: System, at: Mac, e: ThreadEvent)
    requires 1 <= count <= 4 && Ledger(count, s) && s.places.Keys == Ids(count) && at in s.places && at != LEADER
    requires PlaceFine(count, at, s.issued, s.places[at])
    requires Interleaving.Enabled(s.places[at].threads, e) && Claimable(s, at, e)
    ensures Ledger(count, Act(count, s, at, e))
  {
    var s', claims := Act(count, s, at, e), NewClaims(at, s.places[at], e);
    PeerNetwork(count, s, at, e);
    PlacesGrow(count, s, at, e);
    ClaimsKept(s.places, s'.places, at, claims);
    TakenKept(s.places, s'.places, at, claims, s.stream, s.network);
    HeardKept(s.places, s'.places, at, claims, s.stream, s.read, s.network, s'.network, s.got);
  }

  lemma ActLedger(count: nat, s: System, at: Mac, e: ThreadEvent)
    requires 1 <= count <= 4 && Ledger(count, s) && s.places.Keys == Ids(count) && ReadWithin(s) && at in s.places
    requires PlaceFine(count, at, s.issued, s.places[at])
    requires Interleaving.Enabled(s.places[at].threads, e) && Claimable(s, at, e)
    ensures Ledger(count, Act(count, s, at, e))
  {
    if at == LEADER {
      LeaderLedger(count, s, e);
    } else {
      PeerLedger(count, s, at, e);
    }
  }

  // ---- Every event ----

  lemma InvReads(count: nat, s: System)
    requires Inv(count, s)
    ensures s.places.Keys == Ids(count) && ReadWithin(s) && PlacesFine(count, s.places, s.issued)
  {
    forall j | j in s.places && j != LEADER ensures s.read[j] <= |s.stream| {
      assert ReaderFine(s.places[j], s.stream, s.read[j]);
    }
  }

  lemma HearsMore(p: Place, stream: seq<Frame>, upTo: nat, i: nat)
    requires ReaderHears(p, stream, upTo) && i <= upTo && i < |stream| && HearsFrame(p, stream[i])
    ensures ReaderHears(p, stream, if i == upTo then i + 1 else upTo)
  {
  }

  lemma ReadersHearMore(places: Places, stream: seq<Frame>, read: map<Mac, nat>, to: Mac, i: nat)
    requires ReadersHear(places, stream, read) && to in places && to in read && i <= read[to] && i < |stream|
    requires to != LEADER && HearsFrame(places[to], stream[i])
    ensures ReadersHear(places, stream, read[to := if i == read[to] then i + 1 else read[to]])
  {
    var read' := read[to := if i == read[to] then i + 1 else read[to]];
    forall j | j in places && j != LEADER && j in read' ensures ReaderHears(places[j], stream, read'[j]) {
      assert j != LEADER && j in read && ReaderHears(places[j], stream, read[j]);
      if j == to {
        HearsMore(places[to], stream, read[to], i);
      }
    }
  }

  /** Recording a frame of the stream as read. */
  lemma ReadLedger(count: nat, s: System, to: Mac, i: nat)
    requires Ledger(count, s) && to in s.places && to in s.read && i <= s.read[to] && i < |s.stream|
    requires to != LEADER
    requires HearsFrame(s.places[to], s.stream[i])
    ensures Ledger(count, s.(read := s.read[to := if i == s.read[to] then i + 1 else s.read[to]]))
  {
    ReadersHearMore(s.places, s.stream, s.read, to, i);
  }

  lemma FromLeaderLedger(count: nat, s: System, to: Mac, i: nat)
    requires 1 <= count <= 4 && Inv(count, s) && Ledger(count, s) && Enabled(count, s, FromLeader(to, i))
    ensures Ledger(count, Next(count, s, FromLeader(to, i)))
  {
    var e := Interleaving.Receive(LEADER, s.stream[i]);
    InvReads(count, s);
    assert FrameTaken(s.places, s.stream[i]) && PlaceFine(count, to, s.issued, s.places[to]);
    ActLedger(count, s, to, e);
    FromLeaderActs(count, s, to, i);
    ReadLedger(count, Act(count, s, to, e), to, i);
  }

  /** Recording a frame as delivered. */
  lemma GotLedger(count: nat, s: System, m: Sent)
    requires Ledger(count, s) && GotHeard(s.places, s.network, m)
    ensures Ledger(count, s.(got := s.got + {m}))
  {
  }

  lemma FromPeerActs(count: nat, s: System, m: Sent)
    requires Enabled(count, s, FromPeer(m)) && Decode(m.frame).Learning?
    ensures var t := Act(count, s, m.to, Interleaving.Receive(m.from, m.frame));
            Next(count, s, FromPeer(m)) == t.(got := s.got + {m}) && t.got == s.got
            && GotHeard(t.places, t.network, m)
  {
  }

  lemma FromPeerLedger(count: nat, s: System, m: Sent)
    requires 1 <= count <= 4 && Inv(count, s) && Ledger(count, s) && Enabled(count, s, FromPeer(m))
    ensures Ledger(count, Next(count, s, FromPeer(m)))
  {
    InvReads(count, s);
    assert PeerTaken(s.places, m) && PlaceFine(count, m.to, s.issued, s.places[m.to]);
    ActLedger(count, s, m.to, Interleaving.Receive(m.from, m.frame));
    FromPeerActs(count, s, m);
    GotLedger(count, Act(count, s, m.to, Interleaving.Receive(m.from, m.frame)), m);
  }

  lemma LocalLedger(count: nat, s: System, at: Mac, e: ThreadEvent)
    requires 1 <= count <= 4 && Inv(count, s) && Ledger(count, s) && Enabled(count, s, Local(at, e))
    ensures Ledger(count, Act(count, s, at, e))
  {
    InvReads(count, s);
    assert PlaceFine(count, at, s.issued, s.places[at]);
    if s.places[at].threads.at.CallingSelf? {
      CallsTaken(count, at, s.issued, s.places[at]);
    }
    ActLedger(count, s, at, e);
  }

  /** The packet is numbered and its ACCEPT sent. */
  lemma NumberedLedger(count: nat, s: System, v: Bytes)
    requires Ledger(count, s) && ReadWithin(s) && IsU32(LeaderRound(count)) && IsU32(|s.issued|)
    ensures Ledger(count, Numbered(s, LeaderRound(count), v))
  {
    var n, k := LeaderRound(count), |s.issued|;
    var accept := AcceptFrame(n, k, v);
    DecodeFrame(n, k, v);
    ReadersLonger(s.places, s.stream, [accept], s.read);
    StreamOn(count, s.issued, s.stream, [accept]);
    forall i | 0 <= i < |s.stream + [accept]| ensures FrameTaken(s.places, (s.stream + [accept])[i]) {
      assert i < |s.stream| ==> FrameTaken(s.places, s.stream[i]);
    }
    forall x | x in s.places[LEADER].taken ensures LearnSent(count, s.stream + [accept], x) {
      assert LearnSent(count, s.stream, x);
    }
    assert (s.stream + [accept])[|s.stream|] == accept;
  }

  lemma HoleLedger(count: nat, s: System)
    requires Ledger(count, s)
    ensures Ledger(count, s.(issued := s.issued + [None]))
  {
    var more := s.issued + [None];
    forall k | 0 <= k < |more| && more[k].Some? ensures AcceptSent(count, s.stream, k, more[k].value) {
      assert AcceptSent(count, s.stream, k, s.issued[k].value);
    }
  }

  lemma ClientLedger(count: nat, s: System, payload: Bytes)
    requires 1 <= count <= 4 && Inv(count, s) && Ledger(count, s) && Enabled(count, s, Client(payload))
    ensures Ledger(count, Next(count, s, Client(payload)))
  {
    var entry := SwitchSystem.Entry(s.places[LEADER].threads.node.crnd, |s.issued|, payload);
    InvReads(count, s);
    if entry.None? {
      HoleLedger(count, s);
    } else {
      ClientActsLedger(count, s, entry.value);
    }
  }

  lemma ClientActsLedger(count: nat, s: System, v: Bytes)
    requires 1 <= count <= 4 && Ledger(count, s) && s.places.Keys == Ids(count) && ReadWithin(s)
    requires PlacesFine(count, s.places, s.issued) && IdleAt(s, LEADER)
    requires IsU32(LeaderRound(count)) && IsU32(|s.issued|)
    ensures var accept := AcceptFrame(LeaderRound(count), |s.issued|, v);
            Ledger(count, Act(count, Numbered(s, LeaderRound(count), v), LEADER, Interleaving.Receive(LEADER, accept)))
  {
    NumberedLedger(count, s, v);
    IssuePlaces(count, s.places, s.issued, Some(v));
    DecodeFrame(LeaderRound(count), |s.issued|, v);
    var t := Numbered(s, LeaderRound(count), v);
    assert PlaceFine(count, LEADER, t.issued, t.places[LEADER]);
    ActLedger(count, t, LEADER, Interleaving.Receive(LEADER, AcceptFrame(LeaderRound(count), |s.issued|, v)));
  }

  lemma StepLedger(count: nat, s: System, e: Event, s': System)
    requires 1 <= count <= 4 && Inv(count, s) && Ledger(count, s) && Steps(count, s, e, s')
    ensures Ledger(count, s')
  {
    match e
    case Client(payload) => ClientLedger(count, s, payload);
    case FromLeader(to, i) => FromLeaderLedger(count, s, to, i);
    case FromPeer(m) => FromPeerLedger(count, s, m);
    case Local(at, e) => LocalLedger(count, s, at, e);
  }

  lemma LedgerOn(count: nat, run: seq<System>, events: seq<Event>, i: nat)
    requires 1 <= count <= 4 && IsRun(count, run, events) && i < |events| && Ledger(count, run[i])
    ensures Ledger(count, run[i + 1])
  {
    RunInv(count, run, events, i);
    assert StepsAt(count, run, events, i);
    StepLedger(count, run[i], events[i], run[i + 1]);
  }

  lemma {:induction false} RunLedger(count: nat, run: seq<System>, events: seq<Event>, i: nat)
    requires 1 <= count <= 4 && IsRun(count, run, events) && i < |run|
    ensures Ledger(count, run[i])
  {
    if i == 0 {
      InitLedger(count);
    } else {
      RunLedger(count, run, events, i - 1);
      LedgerOn(count, run, events, i - 1);
    }
  }

  // ---- Consensus ----

  /** The switches that accepted `v` for number `k` in the leader's round. */
  function Accepted(count: nat, s: System, k: int, v: Bytes): set<Mac> {
    set j | j in s.places && Vote(LeaderRound(count), k, v) in s.places[j].threads.node.votes
  }

  /** What a switch delivered has a majority of counted LEARNs in what it never collects. */
  lemma DeliveredNoted(count: nat, j: Mac, issued: Issued, p: Place, k: nat) returns (learns: set<Mac>)
    requires 1 <= count <= 4 && j in Ids(count) && PlaceFine(count, j, issued, p) && k < |p.threads.node.delivered|
    ensures |learns| >= Majority(count) && forall x | x in learns :: (x, k as int) in p.heard
  {
    var a := PlaceFacts(count, j, issued, p);
    assert Kept(count, a, p.threads.node, k);
    assert SlotInv(count, j, issued, p.taken, k, a.slots[k]);
    learns := a.slots[k].learns;
  }

  lemma TookVoted(count: nat, j: Mac, issued: Issued, p: Place, k: int)
    requires 1 <= count <= 4 && j in Ids(count) && PlaceFine(count, j, issued, p) && k in p.taken
    ensures HasVoted(count, issued, p.threads.node, k)
  {
    var a := PlaceFacts(count, j, issued, p);
  }

  /** Whatever a switch delivers was accepted by a majority of the switches, in the leader's round, although any of
      them may be in the middle of anything. */
  lemma DeliveryImpliesConsensus(count: nat, run: seq<System>, events: seq<Event>, i: nat, j: Mac, k: nat)
    requires 1 <= count <= 4 && IsRun(count, run, events) && i < |run| && j in Ids(count)
    requires j in run[i].places && k < |Log(run[i], j)|
    ensures Log(run[i], j)[k].1.Some?
    ensures |Accepted(count, run[i], k, Log(run[i], j)[k].1.value)| >= Majority(count)
  {
    var s := run[i];
    RunInv(count, run, events, i);
    RunLedger(count, run, events, i);
    DeliveredIssued(count, j, s.issued, s.places[j]);
    assert Log(s, j)[k] == TotalOrder.Proposals(s.issued)[k] == (k as int, s.issued[k]) && s.issued[k].Some?;
    var learns := DeliveredNoted(count, j, s.issued, s.places[j], k);
    Backed(count, s, j, learns, k);
  }

  lemma Backed(count: nat, s: System, j: Mac, learns: set<Mac>, k: int)
    requires 1 <= count <= 4 && s.places.Keys == Ids(count) && PlacesFine(count, s.places, s.issued)
    requires ClaimsTrue(s.places) && j in s.places && forall x | x in learns :: (x, k) in s.places[j].heard
    requires 0 <= k < |s.issued| && s.issued[k].Some?
    ensures |learns| <= |Accepted(count, s, k, s.issued[k].value)|
  {
    forall x | x in learns ensures x in Accepted(count, s, k, s.issued[k].value) {
      assert (x, k) in Claims(s.places[j]) && Took(s.places, (x, k));
      TookVoted(count, x, s.issued, s.places[x], k);
    }
    SubsetSize(learns, Accepted(count, s, k, s.issued[k].value));
  }

  // ---- Completeness ----

  /** Nothing is in flight and no handler is at work. */
  ghost predicate Quiescent(s: System)
    requires s.read.Keys == s.places.Keys
  {
    && (forall j | j in s.places :: IdleAt(s, j))
    && (forall j | j in s.places && j != LEADER :: s.read[j] == |s.stream|)
    && s.got == s.network
  }

  lemma EveryoneTook(count: nat, s: System, j: Mac, k: int)
    requires Inv(count, s) && Ledger(count, s) && Quiescent(s) && j in s.places
    requires 0 <= k < |s.issued| && s.issued[k].Some?
    ensures k in s.places[j].taken
  {
    if j == LEADER {
      assert Has(s.places[LEADER], k);
    } else {
      assert AcceptSent(count, s.stream, k, s.issued[k].value);
      DecodeFrame(LeaderRound(count), k, s.issued[k].value);
      var i: nat :| i < |s.stream| && s.stream[i] == AcceptFrame(LeaderRound(count), k, s.issued[k].value);
      assert ReaderFine(s.places[j], s.stream, s.read[j]) && HasRead(s.places[j], s.stream[i]);
    }
    assert IdleAt(s, j);
  }

  /** The leader told `j` about what it took. */
  lemma LeaderHeard(count: nat, s: System, j: Mac, k: int)
    requires Ledger(count, s) && s.read.Keys == s.places.Keys && Quiescent(s) && j in s.places && j != LEADER
    requires k in s.places[LEADER].taken
    ensures (LEADER, k) in s.places[j].heard
  {
    assert LearnSent(count, s.stream, k);
    DecodeFrame(LeaderRound(count), k, []);
    var i: nat :| i < |s.stream| && s.stream[i] == LearnFrame(LeaderRound(count), k);
    assert ReaderHears(s.places[j], s.stream, s.read[j]) && HearsFrame(s.places[j], s.stream[i]);
    assert IdleAt(s, j);
  }

  lemma PeerHeard(count: nat, s: System, j: Mac, x: Mac, k: int)
    requires Ledger(count, s) && s.read.Keys == s.places.Keys && Quiescent(s) && j in s.places && x in s.places
    requires x != j && x != LEADER && k in s.places[x].taken
    ensures (x, k) in s.places[j].heard
  {
    assert Told(count, s.network, x, k, j);
    DecodeFrame(LeaderRound(count), k, []);
    assert GotHeard(s.places, s.network, SwitchSystem.Sent(x, j, LearnFrame(LeaderRound(count), k)));
    assert IdleAt(s, j);
  }

  lemma SelfHeard(count: nat, me: Mac, issued: Issued, p: Place, k: int)
    requires 1 <= count <= 4 && me in Ids(count) && PlaceFine(count, me, issued, p)
    requires p.threads.at.Idle? && k in p.taken
    ensures (me, k) in p.heard
  {
    var a := PlaceFacts(count, me, issued, p);
  }

  lemma EveryoneHeard(count: nat, s: System, j: Mac, x: Mac, k: int)
    requires 1 <= count <= 4 && Inv(count, s) && Ledger(count, s) && Quiescent(s) && j in s.places && x in s.places
    requires 0 <= k < |s.issued| && s.issued[k].Some?
    ensures (x, k) in s.places[j].heard
  {
    EveryoneTook(count, s, x, k);
    if x == j {
      assert PlaceFine(count, j, s.issued, s.places[j]) && IdleAt(s, j);
      SelfHeard(count, j, s.issued, s.places[j], k);
    } else if x == LEADER {
      LeaderHeard(count, s, j, k);
    } else {
      PeerHeard(count, s, j, x, k);
    }
  }

  /** A switch that heard everybody has learned the slot, unless it was delivered. */
  lemma HeardLearned(count: nat, me: Mac, issued: Issued, p: Place, k: int)
    requires 1 <= count <= 4 && me in Ids(count) && PlaceFine(count, me, issued, p)
    requires forall x | x in Ids(count) :: (x, k) in p.heard
    requires k >= p.threads.node.cseq
    ensures k in p.threads.node.slots && Learned(p.threads.node.slots[k])
  {
    var a := PlaceFacts(count, me, issued, p);
    assert Noted(a, me, k);
    var slot := a.slots[k];
    assert SlotInv(count, me, issued, p.taken, k, slot);
    if !Learned(slot) {
      forall x | x in Ids(count) ensures x in slot.learns {
        assert Noted(a, x, k);
      }
      IdsSize(count);
      SubsetSize(Ids(count), slot.learns);
    }
  }

  /** A pass by the pump thread is one of the switch's steps. */
  lemma Passed(count: nat, me: Mac, issued: Issued, p: Place, n: int, ready: nat)
    requires 1 <= count <= 4 && me in Ids(count) && PlaceFine(count, me, issued, p)
    ensures PlaceFine(count, me, issued, Moved(count, me, p, Interleaving.Background(n, ready)))
    ensures QueueInv(p.threads.node)
  {
    PlaceMoves(count, me, issued, p, Interleaving.Background(n, ready));
    var a := PlaceFacts(count, me, issued, p);
  }

  lemma PassComplete(count: nat, s: System, j: Mac, n: int, ready: nat)
    requires 1 <= count <= 4 && Inv(count, s) && Ledger(count, s) && Quiescent(s) && j in s.places
    requires !Deliverable(Pump(s.places[j].threads.node, n, ready))
    ensures Pump(s.places[j].threads.node, n, ready).delivered
            == TotalOrder.Proposals(s.issued)[..TotalOrder.FirstHole(s.issued)]
  {
    var p := s.places[j];
    var node := Pump(p.threads.node, n, ready);
    assert PlaceFine(count, j, s.issued, p);
    Passed(count, j, s.issued, p, n, ready);
    PumpDelivers(p.threads.node, n, ready);
    DeliveredIssued(count, j, s.issued, Moved(count, j, p, Interleaving.Background(n, ready)));
    if node.cseq < TotalOrder.FirstHole(s.issued) {
      forall x | x in Ids(count) ensures (x, node.cseq as int) in p.heard {
        EveryoneHeard(count, s, j, x, node.cseq);
      }
      HeardLearned(count, j, s.issued, p, node.cseq);
    }
  }

  /** With nothing in flight and every handler through, a queue pass that is not postponed, for whatever round,
      leaves a switch having delivered exactly the numbers below the first hole: all the leader issued, if and only
      if no number was left without a value. */
  lemma CompleteAtQuiescence(count: nat, run: seq<System>, events: seq<Event>, i: nat, j: Mac, n: int, ready: nat)
    requires 1 <= count <= 4 && IsRun(count, run, events) && i < |run| && j in Ids(count)
    requires run[i].read.Keys == run[i].places.Keys && Quiescent(run[i]) && j in run[i].places
    requires !Deliverable(Pump(run[i].places[j].threads.node, n, ready))
    ensures var s, node := run[i], Pump(run[i].places[j].threads.node, n, ready);
            && node.delivered == TotalOrder.Proposals(s.issued)[..TotalOrder.FirstHole(s.issued)]
            && (node.delivered == TotalOrder.Proposals(s.issued) <==>
                forall k: int | 0 <= k < |s.issued| :: s.issued[k].Some?)
  {
    RunInv(count, run, events, i);
    RunLedger(count, run, events, i);
    PassComplete(count, run[i], j, n, ready);
    var all, h := TotalOrder.Proposals(run[i].issued), TotalOrder.FirstHole(run[i].issued);
    assert (forall k: int | 0 <= k < |run[i].issued| :: run[i].issued[k].Some?) <==> h == |run[i].issued|;
    assert all[..|run[i].issued|] == all;
  }
}
