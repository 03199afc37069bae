/**
 The frames of the joining exchange, and the objects that send and receive them: what `Joining.Member` does is the
 step of module Joining's system at its switch, and every frame it sends carries its own address.
 */
module JoiningObjects {
  import opened Addresses
  import opened Joining
  import opened LearningSwitch
  import opened PaxosMessage
  import opened Quorums
  import opened Wrappers

  // ---- Frames ----

  /** A JOIN from the switch with id `nId` that carries address `who`. */
  predicate Says(payload: Bytes, nId: int, who: Mac) {
    match UnpackJoin(payload)
    case None => false
    case Some((id, raw)) => id == nId && FromRaw(raw) == who
  }

  lemma PackedSays(nId: int, who: Mac)
    requires IsU32(nId) && IsMac(who)
    ensures PackJoin(nId, Raw(who)).Some? && Says(PackJoin(nId, Raw(who)).value, nId, who)
  {
    JoinRoundTrip(nId, Raw(who), PackJoin(nId, Raw(who)).value);
    RawRoundTrip(who);
  }

  /** One frame, with address `who` in it. */
  predicate OneFrame(frames: seq<JoinFrame>, nId: int, who: Mac, dst: Mac, port: Port) {
    |frames| == 1 && frames[0].dst == dst && frames[0].port == port && Says(frames[0].payload, nId, who)
  }

  /** What answers a JOIN: a request, or the switch's own first announcement, one broadcast on all ports; a new
      address, one frame to it, out of the port its JOIN came in on; an address that is known, nothing. Whatever is
      sent carries the address of the switch that sends it. */
  lemma Answers(nId: int, me: Mac, st: JoinState, who: Mac, event: Option<Arrival>)
    requires IsU32(nId) && IsMac(me)
    ensures var frames := Frames(nId, me, OnJoin(st, who, event).1);
            if who == BROADCAST || (who !in st.known && event.None?) then OneFrame(frames, nId, me, BROADCAST, OFPP_ALL)
            else if who in st.known then frames == []
            else OneFrame(frames, nId, me, who, event.value.port)
  {
    PackedSays(nId, me);
  }

  /** What it leaves behind: a new address becomes a member, its port and its sender's are noted, and the learning
      switch keeps the port it has; nobody else is touched. */
  lemma Remembers(st: JoinState, who: Mac, event: Option<Arrival>)
    ensures var st' := OnJoin(st, who, event).0;
            if who == BROADCAST || who in st.known then st' == st
            else
              && (forall k :: k in st'.known <==> k in st.known || k == who)
              && (event.None? ==> st'.ports == st.ports && st'.macports == st.macports)
              && (event.Some? ==> NotesPorts(st, st', who, event.value))
  {
  }

  predicate NotesPorts(st: JoinState, st': JoinState, who: Mac, event: Arrival) {
    && who in st'.ports && st'.ports[who] == event.port && event.src in st'.ports && st'.ports[event.src] == event.port
    && st'.ports.Keys == st.ports.Keys + {who, event.src}
    && (forall k | k in st.ports && k != who && k != event.src :: st'.ports[k] == st.ports[k])
    && st'.macports.Keys == st.macports.Keys + {who}
    && (forall k | k in st'.macports :: st'.macports[k] == if k in st.macports then st.macports[k] else event.port)
  }

  // ---- Objects and switches ----

  /** The object is switch `m.mac` of the system, and no slot has come up yet. */
  ghost predicate Plays(m: Member, s: System)
    reads m, m.slots
  {
    m.Valid() && m.slots.slots == map[] && m.mac in s.nodes && s.nodes[m.mac] == m.State()
  }

  /** The JOINs that frames from `from` turn into: a broadcast reaches all the others, a frame to one switch that
      one and those it passes. */
  function Mail(count: nat, from: Mac, frames: seq<JoinFrame>, overheard: set<Mac>): set<Envelope> {
    if frames == [] then
      {}
    else
      Mail(count, from, frames[..|frames| - 1], overheard) +
      (var dst := frames[|frames| - 1].dst;
       if dst == BROADCAST then ToAll(count, from) else ToSome(count, from, overheard + {dst}))
  }

  /** `frames` from `from` all carry its address and are what was added to the mail. */
  ghost predicate MailGrows(count: nat, from: Mac, nId: int, frames: seq<JoinFrame>, overheard: set<Mac>,
                            joins: multiset<Envelope>, joins': multiset<Envelope>) {
    && (forall f | f in frames :: Says(f.payload, nId, from))
    && joins' == joins + multiset(Mail(count, from, frames, overheard))
  }

  lemma AnswerMail(count: nat, nId: int, me: Mac, st: JoinState, who: Mac, event: Option<Arrival>,
                   overheard: set<Mac>, joins: multiset<Envelope>)
    requires IsU32(nId) && IsMac(me)
    ensures var reply := OnJoin(st, who, event).1;
            MailGrows(count, me, nId, Frames(nId, me, reply), overheard, joins,
              joins + multiset(Posted(count, me, reply, overheard)))
  {
    Answers(nId, me, st, who, event);
    var reply := OnJoin(st, who, event).1;
    var frames := Frames(nId, me, reply);
    if frames != [] {
      assert frames[..|frames| - 1] == [];
      assert Mail(count, me, [], overheard) == {};
    }
    assert Mail(count, me, frames, overheard) == Posted(count, me, reply, overheard);
  }

  /** The objects that are there when joining starts. */
  method Boot(count: nat, nId: int, j: Mac) returns (m: Member)
    requires IsU32(nId) && count < BROADCAST && j in Ids(count)
    ensures fresh(m) && m.mac == j && m.nId == nId && m.sent == [] && Plays(m, Init(count))
  {
    m := new Member(nId, j);
  }

  /** A switch that misses others announces itself; its thread goes on unless the network is complete. */
  method Announces(count: nat, m: Member, ghost s: System) returns (ghost frames: seq<JoinFrame>)
    requires Plays(m, s) && |m.N| < count
    modifies m`N, m`paxosPorts, m`macports, m`sent, m.slots`nodeCount
    ensures Plays(m, Next(count, s, Announce(m.mac))) && m.sent == old(m.sent) + frames
    ensures MailGrows(count, m.mac, m.nId, frames, {}, s.joins, Next(count, s, Announce(m.mac)).joins)
  {
    AnswerMail(count, m.nId, m.mac, m.State(), m.mac, None, {}, s.joins - multiset{});
    frames := Frames(m.nId, m.mac, OnJoin(m.State(), m.mac, None).1);
    var progress := m.JoinTurn(count);
    assert s.joins - multiset{} == s.joins;
  }

  /** A switch that waits too long asks all others to announce themselves. */
  method Asks(count: nat, m: Member, ghost s: System)
    requires Plays(m, s)
    modifies m`sent
    ensures Plays(m, Next(count, s, Ask(m.mac))) && |m.sent| == |old(m.sent)| + 1 && old(m.sent) <= m.sent
    ensures OneFrame(m.sent[|old(m.sent)|..], m.nId, BROADCAST, BROADCAST, OFPP_ALL)
    ensures Next(count, s, Ask(m.mac)).asks == s.asks + multiset(Ids(count) - {m.mac})
  {
    PackedSays(m.nId, BROADCAST);
    m.SendJoin(BROADCAST, OFPP_ALL, true);
  }

  /** The JOIN of switch `from` that reaches an object, whoever packed it, is the system's delivery. */
  method Receives(count: nat, m: Member, ghost s: System, id: int, from: Mac, port: Port, payload: Bytes,
                  ghost overheard: set<Mac>)
    returns (ghost frames: seq<JoinFrame>)
    requires Plays(m, s) && Envelope(m.mac, from) in s.joins && from != BROADCAST && Says(payload, id, from)
    modifies m`N, m`paxosPorts, m`macports, m`sent, m.slots`nodeCount
    ensures Plays(m, Next(count, s, DeliverJoin(Envelope(m.mac, from), port, overheard)))
    ensures m.sent == old(m.sent) + frames
    ensures MailGrows(count, m.mac, m.nId, frames, overheard, s.joins - multiset{Envelope(m.mac, from)},
              Next(count, s, DeliverJoin(Envelope(m.mac, from), port, overheard)).joins)
  {
    var event := Some(Arrival(from, port));
    AnswerMail(count, m.nId, m.mac, m.State(), from, event, overheard, s.joins - multiset{Envelope(m.mac, from)});
    frames := Frames(m.nId, m.mac, OnJoin(m.State(), from, event).1);
    var raised := m.HandleJoin(event, payload);
  }

  /** So is a request that reaches it, from whatever port. */
  method ReceivesRequest(count: nat, m: Member, ghost s: System, id: int, event: Option<Arrival>, payload: Bytes)
    returns (ghost frames: seq<JoinFrame>)
    requires Plays(m, s) && m.mac in s.asks && Says(payload, id, BROADCAST)
    modifies m`N, m`paxosPorts, m`macports, m`sent, m.slots`nodeCount
    ensures Plays(m, Next(count, s, DeliverAsk(m.mac))) && m.sent == old(m.sent) + frames
    ensures MailGrows(count, m.mac, m.nId, frames, {}, s.joins, Next(count, s, DeliverAsk(m.mac)).joins)
  {
    AnswerMail(count, m.nId, m.mac, m.State(), BROADCAST, event, {}, s.joins - multiset{});
    frames := Frames(m.nId, m.mac, OnJoin(m.State(), BROADCAST, event).1);
    var raised := m.HandleJoin(event, payload);
    assert s.joins - multiset{} == s.joins;
  }
}
