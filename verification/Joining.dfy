/**
 How the switches get to know each other. A switch announces itself with a JOIN to everyone and answers
 every JOIN from a switch that is new to it; somebody who missed one may ask all of them to announce
 themselves again.
 */
module Joining {
  import opened Addresses
  import opened Counting
  import opened LearningSwitch
  import PaxosController
  import opened PaxosMessage
  import opened Quorums
  import opened Sets
  import opened SlotQueue
  import opened Wrappers

  /** `known` is the set of switches, `ports` where their JOINs came from, `macports` the switch's MAC table. */
  datatype JoinState = JoinState(known: set<Mac>, ports: map<Mac, Port>, macports: map<Mac, Port>)

  /** The frame that brought a JOIN; there is none for the JOIN a switch hands to itself. */
  datatype Arrival = Arrival(src: Mac, port: Port)

  /** Whom the switch sends its own address to. */
  datatype Reply = Nobody | Everybody | Only(to: Mac, port: Port)

  /** The membership, and the ports the JOIN shows. */
  function Enter(st: JoinState, who: Mac, event: Option<Arrival>): JoinState {
    var st := st.(known := st.known + {who});
    if event.None? then
      st
    else
      st.(ports := st.ports[who := event.value.port][event.value.src := event.value.port])
  }

  /** And the MAC table. */
  function Note(st: JoinState, who: Mac, event: Option<Arrival>): JoinState {
    var st := Enter(st, who, event);
    if event.None? || who in st.macports then st else st.(macports := st.macports[who := event.value.port])
  }

  /** `on_join`; an embedded broadcast address asks for an announcement. */
  function OnJoin(st: JoinState, who: Mac, event: Option<Arrival>): (JoinState, Reply) {
    if who == BROADCAST then
      (st, Everybody)
    else if who in st.known then
      (st, Nobody)
    else
      (Note(st, who, event), if event.None? then Everybody else Only(who, event.value.port))
  }

  // ---- The object ----

  datatype JoinFrame = JoinFrame(dst: Mac, port: Port, payload: Bytes)

  /** What is sent for a reply: our own address. */
  function Frames(nId: int, me: Mac, reply: Reply): seq<JoinFrame>
    requires IsU32(nId) && IsMac(me)
  {
    match reply
    case Nobody => []
    case Everybody => [JoinFrame(BROADCAST, OFPP_ALL, PackJoin(nId, Raw(me)).value)]
    case Only(to, port) => [JoinFrame(to, port, PackJoin(nId, Raw(me)).value)]
  }

  datatype Progress = Joined | Waiting | SetupError | Died

  class Member {
    const nId: int
    const mac: Mac
    const slots: PaxosController.Slots
    var N: set<Mac>
    var paxosPorts: map<Mac, Port>
    var macports: map<Mac, Port>
    var sent: seq<JoinFrame>

    ghost predicate Valid()
      reads this, slots
    {
      IsU32(nId) && IsMac(mac) && mac != BROADCAST && slots.Valid() && slots.nodeCount == |N|
    }

    function State(): JoinState
      reads this
    {
      JoinState(N, paxosPorts, macports)
    }

    constructor (nId: int, mac: Mac)
      requires IsU32(nId) && IsMac(mac) && mac != BROADCAST
      ensures Valid() && this.nId == nId && this.mac == mac && State() == JoinState({}, map[], map[]) && sent == []
      ensures fresh(slots) && slots.slots == map[]
    {
      this.nId, this.mac, N, paxosPorts, macports, sent := nId, mac, {}, map[], map[], [];
      slots := new PaxosController.Slots(0);
    }

    method SendJoin(dst: Mac, port: Port, reannounce: bool)
      requires Valid()
      modifies this`sent
      ensures Valid()
      ensures sent == old(sent) + [JoinFrame(dst, port, PackJoin(nId,
              Raw(if reannounce then BROADCAST else mac)).value)]
    {
      var payload := if reannounce then PackJoin(nId, Raw(BROADCAST)) else PackJoin(nId, Raw(mac));
      sent := sent + [JoinFrame(dst, port, payload.value)];
    }

    /** `add_node`: raises once there is a slot, with the new count in place for slots to come. */
    method AddNode(who: Mac) returns (raised: bool)
      requires Valid()
      modifies this`N, slots`nodeCount
      ensures Valid() && N == old(N) + {who} && slots.View() == old(slots.View())
      ensures raised <==> slots.slots != map[]
    {
      N := N + {who};
      raised := slots.UpdateNodeCount(|N|);
    }

    /** Everything but the test for a new address and the answer. */
    method Admit(who: Mac, event: Option<Arrival>) returns (raised: bool)
      requires Valid()
      modifies this`N, this`paxosPorts, this`macports, slots`nodeCount
      ensures Valid() && slots.View() == old(slots.View()) && (raised <==> slots.slots != map[])
      ensures State() == if raised then Enter(old(State()), who, event) else Note(old(State()), who, event)
    {
      if event.Some? {
        paxosPorts := paxosPorts[who := event.value.port];
        paxosPorts := paxosPorts[event.value.src := event.value.port];
      }
      raised := AddNode(who);
      if !raised && event.Some? {
        if who !in macports {
          macports := macports[who := event.value.port];
        }
      }
    }

    /** A JOIN of a new address raises exactly if there is a slot. The address is then counted in, for slots to
        come but not for those there are, and its switch gets no answer, now or later. */
    method HandleJoin(event: Option<Arrival>, payload: Bytes) returns (raised: bool)
      requires Valid()
      modifies this`N, this`paxosPorts, this`macports, this`sent, slots`nodeCount
      ensures Valid() && slots.View() == old(slots.View())
      ensures match UnpackJoin(payload)
              case None => !raised && State() == old(State()) && sent == old(sent)
              case Some((_, raw)) =>
                var who := FromRaw(raw);
                && (raised <==> who != BROADCAST && who !in old(N) && slots.slots != map[])
                && if raised then
                     State() == Enter(old(State()), who, event) && sent == old(sent)
                   else
                     var (st, reply) := OnJoin(old(State()), who, event);
                     State() == st && sent == old(sent) + Frames(nId, mac, reply)
    {
      raised := false;
      var content := UnpackJoin(payload);
      if content.Some? {
        var who := FromRaw(content.value.1);
        if who == BROADCAST {
          SendJoin(BROADCAST, OFPP_ALL, false);
        } else if who !in N {
          raised := Admit(who, event);
          if !raised {
            if event.None? {
              SendJoin(BROADCAST, OFPP_ALL, false);
            } else {
              SendJoin(who, event.value.port, false);
            }
          }
        }
      }
    }

    /** One turn of `join_block`: a switch that still misses others announces itself, once. With a slot there,
        its first announcement kills the thread. */
    method JoinTurn(total: nat) returns (progress: Progress)
      requires Valid()
      modifies this`N, this`paxosPorts, this`macports, this`sent, slots`nodeCount
      ensures Valid() && slots.View() == old(slots.View())
      ensures progress == Died <==> |old(N)| < total && mac !in old(N) && slots.slots != map[]
      ensures if progress == Died then
                State() == Enter(old(State()), mac, None) && sent == old(sent)
              else if |old(N)| >= total then
                State() == old(State()) && sent == old(sent)
              else
                var (st, reply) := OnJoin(old(State()), mac, None);
                State() == st && sent == old(sent) + Frames(nId, mac, reply)
      ensures progress != Died ==>
                progress == if |old(N)| > total then SetupError else if |N| >= total then Joined else Waiting
    {
      var needed := total - |N|;
      if needed < 0 {
        return SetupError;
      }
      if needed == 0 {
        return Joined;
      }
      var payload := PackJoin(nId, Raw(mac)).value;
      JoinRoundTrip(nId, Raw(mac), payload);
      RawRoundTrip(mac);
      var raised := HandleJoin(None, payload);
      progress := if raised then Died else if |N| < total then Waiting else Joined;
    }
  }

  /** The frame of a JOIN says whose it is. */
  method JoinPayload(id: int, who: Mac) returns (payload: Bytes)
    requires IsU32(id) && IsMac(who)
    ensures UnpackJoin(payload).Some? && FromRaw(UnpackJoin(payload).value.1) == who
  {
    payload := PackJoin(id, Raw(who)).value;
    JoinRoundTrip(id, Raw(who), payload);
    RawRoundTrip(who);
  }

  /** A switch that has joined by itself, and was made to ask for slot `s` by some frame. */
  method JoinedWithSlot(nId: int, mac: Mac, s: int) returns (m: Member)
    requires IsU32(nId) && IsMac(mac) && mac != BROADCAST
    ensures fresh(m) && fresh(m.slots) && m.Valid() && m.nId == nId && m.mac == mac
    ensures m.State() == JoinState({mac}, map[], map[]) && m.sent == Frames(nId, mac, Everybody)
    ensures m.slots.View() == map[s := NewSlot(1)]
  {
    m := new Member(nId, mac);
    var progress := m.JoinTurn(1);
    assert {} + {mac} == {mac};
    assert m.N == {mac};
    var slot := m.slots.GetSlot(s);
  }

  /** It happens: somebody new announces itself to such a switch. The newcomer is a member, is not answered, and
      does not count for slot `s`; announcing itself again does not help. */
  method LateJoiner(nId: int, mac: Mac, s: int, id: int, who: Mac, port: Port) returns (m: Member)
    requires IsU32(nId) && IsMac(mac) && mac != BROADCAST && IsU32(id) && IsMac(who) && who != BROADCAST && who != mac
    ensures m.Valid() && m.mac == mac && m.N == {mac, who} && m.paxosPorts == map[who := port] && m.macports == map[]
    ensures m.sent == Frames(nId, mac, Everybody)
    ensures m.slots.View() == map[s := NewSlot(1)] && m.slots.nodeCount == 2
  {
    m := JoinedWithSlot(nId, mac, s);
    assert s in m.slots.View();
    var payload := JoinPayload(id, who);
    var raised := m.HandleJoin(Some(Arrival(who, port)), payload);
    assert m.N == {mac, who};
    raised := m.HandleJoin(Some(Arrival(who, port)), payload);
  }

  // ---- The exchange ----

  /** A JOIN with the sender's own address on its way to the controller of switch `to`. */
  datatype Envelope = Envelope(to: Mac, from: Mac)

  /** `asks` are the requests for an announcement that are on their way, by recipient. */
  datatype System = System(nodes: map<Mac, JoinState>, joins: multiset<Envelope>, asks: multiset<Mac>)

  /** `overheard` are the switches that a unicast JOIN passes; their controllers see it too. */
  datatype Event =
    | Announce(at: Mac)
    | Ask(asker: Mac)
    | DeliverJoin(m: Envelope, port: Port, overheard: set<Mac>)
    | DeliverAsk(to: Mac)

  function Init(count: nat): System {
    System(map j | j in Ids(count) :: JoinState({}, map[], map[]), multiset{}, multiset{})
  }

  function ToAll(count: nat, from: Mac): set<Envelope> {
    set j | j in Ids(count) && j != from :: Envelope(j, from)
  }

  function ToSome(count: nat, from: Mac, to: set<Mac>): set<Envelope> {
    set j | j in Ids(count) && j != from && j in to :: Envelope(j, from)
  }

  function Posted(count: nat, me: Mac, reply: Reply, overheard: set<Mac>): set<Envelope> {
    match reply
    case Nobody => {}
    case Everybody => ToAll(count, me)
    case Only(to, _) => ToSome(count, me, overheard + {to})
  }

  /** `s` after switch `at` handled a JOIN, which took `taken` off the wires. */
  function Answered(count: nat, s: System, at: Mac, who: Mac, event: Option<Arrival>, overheard: set<Mac>,
                    taken: multiset<Envelope>): System
    requires at in s.nodes
  {
    var (st, reply) := OnJoin(s.nodes[at], who, event);
    s.(nodes := s.nodes[at := st], joins := s.joins - taken + multiset(Posted(count, at, reply, overheard)))
  }

  predicate Enabled(s: System, e: Event) {
    match e
    case Announce(at) => at in s.nodes
    case Ask(_) => true
    case DeliverJoin(m, _, _) => m in s.joins && m.to in s.nodes
    case DeliverAsk(to) => to in s.asks && to in s.nodes
  }

  function Next(count: nat, s: System, e: Event): System
    requires Enabled(s, e)
  {
    match e
    case Announce(at) => Answered(count, s, at, at, None, {}, multiset{})
    case Ask(asker) => s.(asks := s.asks + multiset(Ids(count) - {asker}))
    case DeliverJoin(m, port, overheard) =>
      Answered(count, s, m.to, m.from, Some(Arrival(m.from, port)), overheard, multiset{m})
    case DeliverAsk(to) =>
      Answered(count, s.(asks := s.asks - multiset{to}), to, BROADCAST, Some(Arrival(BROADCAST, OFPP_ALL)), {},
          multiset{})
  }

  ghost predicate Steps(count: nat, s: System, e: Event, s': System) {
    Enabled(s, e) && s' == Next(count, s, e)
  }

  ghost predicate StepsAt(count: nat, run: seq<System>, events: seq<Event>, i: nat)
    requires |run| == |events| + 1 && i < |events|
  {
    Steps(count, run[i], events[i], run[i + 1])
  }

  ghost predicate IsRun(count: nat, run: seq<System>, events: seq<Event>) {
    && |run| == |events| + 1
    && run[0] == Init(count)
    && forall i | 0 <= i < |events| :: StepsAt(count, run, events, i)
  }

  // ---- What every step keeps ----

  /** A switch knows only switches, and where each of the others is; its two tables agree. */
  ghost predicate MemberFine(count: nat, me: Mac, st: JoinState) {
    && st.known <= Ids(count) && st.ports.Keys == st.macports.Keys == st.known - {me}
    && forall k | k in st.ports :: st.macports[k] == st.ports[k]
  }

  /** Once `i` has announced itself, `j` knows it or is about to. */
  ghost predicate Heard(s: System, i: Mac, j: Mac)
    requires i in s.nodes && j in s.nodes
  {
    i in s.nodes[i].known ==> i in s.nodes[j].known || Envelope(j, i) in s.joins
  }

  ghost predicate Inv(count: nat, s: System) {
    && s.nodes.Keys == Ids(count)
    && (forall j | j in s.nodes :: MemberFine(count, j, s.nodes[j]))
    && MailFine(count, s.joins)
    && (forall k | k in s.asks :: k in Ids(count))
    && AllHeard(s)
  }

  ghost predicate MailFine(count: nat, joins: multiset<Envelope>) {
    forall m | m in joins :: m.to in Ids(count) && m.from in Ids(count) && m.to != m.from
  }

  ghost predicate AllHeard(s: System) {
    forall i, j | i in s.nodes && j in s.nodes :: Heard(s, i, j)
  }

  /** `who` is a switch, ourselves exactly if no frame brought the JOIN, or asks for an announcement. */
  predicate Plausible(count: nat, me: Mac, who: Mac, event: Option<Arrival>) {
    who == BROADCAST || (who in Ids(count) && (event.None? <==> who == me) && (event.Some? ==> event.value.src == who))
  }

  lemma MemberKept(count: nat, me: Mac, st: JoinState, who: Mac, event: Option<Arrival>)
    requires MemberFine(count, me, st) && Plausible(count, me, who, event)
    ensures MemberFine(count, me, OnJoin(st, who, event).0)
  {
  }

  lemma HeardKept(count: nat, s: System, at: Mac, who: Mac, event: Option<Arrival>, overheard: set<Mac>,
                  taken: multiset<Envelope>, i: Mac, j: Mac)
    requires count < BROADCAST && s.nodes.Keys == Ids(count) && at in s.nodes && Plausible(count, at, who, event)
    requires taken == multiset{} || (who != BROADCAST && taken == multiset{Envelope(at, who)})
    requires i in s.nodes && j in s.nodes && Heard(s, i, j)
    ensures Heard(Answered(count, s, at, who, event, overheard, taken), i, j)
  {
    var s' := Answered(count, s, at, who, event, overheard, taken);
    if i in s'.nodes[i].known && j != i {
      if i in s.nodes[i].known {
        assert i in s.nodes[j].known || Envelope(j, i) in s.joins;
        assert Envelope(j, i) in s.joins && Envelope(j, i) !in taken ==> Envelope(j, i) in s'.joins;
      } else {
        assert Envelope(j, i) in ToAll(count, i);
      }
    }
  }

  lemma AllHeardKept(count: nat, s: System, at: Mac, who: Mac, event: Option<Arrival>, overheard: set<Mac>,
                     taken: multiset<Envelope>)
    requires count < BROADCAST && s.nodes.Keys == Ids(count) && at in s.nodes && Plausible(count, at, who, event)
    requires taken == multiset{} || (who != BROADCAST && taken == multiset{Envelope(at, who)})
    requires AllHeard(s)
    ensures AllHeard(Answered(count, s, at, who, event, overheard, taken))
  {
    var s' := Answered(count, s, at, who, event, overheard, taken);
    forall i, j | i in s'.nodes && j in s'.nodes ensures Heard(s', i, j) {
      assert Heard(s, i, j);
      HeardKept(count, s, at, who, event, overheard, taken, i, j);
    }
  }

  lemma MailKept(count: nat, joins: multiset<Envelope>, at: Mac, reply: Reply, overheard: set<Mac>,
      taken: multiset<Envelope>)
    requires at in Ids(count) && MailFine(count, joins)
    ensures MailFine(count, joins - taken + multiset(Posted(count, at, reply, overheard)))
  {
    var posted := Posted(count, at, reply, overheard);
    forall m | m in joins - taken + multiset(posted) ensures m.to in Ids(count) && m.from in Ids(count) &&
        m.to != m.from {
      assert m in joins || m in posted;
    }
  }

  lemma AnswerKeeps(count: nat, s: System, at: Mac, who: Mac, event: Option<Arrival>, overheard: set<Mac>,
                    taken: multiset<Envelope>)
    requires count < BROADCAST && Inv(count, s) && at in s.nodes && Plausible(count, at, who, event)
    requires taken == multiset{} || (who != BROADCAST && taken == multiset{Envelope(at, who)})
    ensures Inv(count, Answered(count, s, at, who, event, overheard, taken))
  {
    MemberKept(count, at, s.nodes[at], who, event);
    MailKept(count, s.joins, at, OnJoin(s.nodes[at], who, event).1, overheard, taken);
    AllHeardKept(count, s, at, who, event, overheard, taken);
  }

  lemma AsksReplaced(count: nat, s: System, asks: multiset<Mac>)
    requires Inv(count, s) && forall k | k in asks :: k in Ids(count)
    ensures Inv(count, s.(asks := asks))
  {
    var s' := s.(asks := asks);
    forall i, j | i in s'.nodes && j in s'.nodes ensures Heard(s', i, j) {
      assert Heard(s, i, j);
    }
  }

  lemma StepInv(count: nat, s: System, e: Event)
    requires count < BROADCAST && Inv(count, s) && Enabled(s, e)
    ensures Inv(count, Next(count, s, e))
  {
    match e
    case Announce(at) => AnswerKeeps(count, s, at, at, None, {}, multiset{});
    case Ask(asker) => AsksReplaced(count, s, s.asks + multiset(Ids(count) - {asker}));
    case DeliverJoin(m, port, overheard) =>
      AnswerKeeps(count, s, m.to, m.from, Some(Arrival(m.from, port)), overheard, multiset{m});
    case DeliverAsk(to) =>
      AsksReplaced(count, s, s.asks - multiset{to});
      AnswerKeeps(count, s.(asks := s.asks - multiset{to}), to, BROADCAST, Some(Arrival(BROADCAST, OFPP_ALL)), {},
          multiset{});
  }

  lemma StepsInv(count: nat, s: System, e: Event, s': System)
    requires count < BROADCAST && Inv(count, s) && Steps(count, s, e, s')
    ensures Inv(count, s')
  {
    StepInv(count, s, e);
  }

  lemma {:induction false} RunInv(count: nat, run: seq<System>, events: seq<Event>, i: nat)
    requires count < BROADCAST && IsRun(count, run, events) && i < |run|
    ensures Inv(count, run[i])
  {
    if i > 0 {
      RunInv(count, run, events, i - 1);
      assert StepsAt(count, run, events, i - 1);
      StepsInv(count, run[i - 1], events[i - 1], run[i]);
    }
  }

  // ---- The exchange ends ----

  function MissingAt(nodes: map<Mac, JoinState>, count: nat, j: Mac): nat {
    if j in nodes then |Ids(count) - nodes[j].known| else 0
  }

  /** How many memberships the switches `1 .. k` still miss, all together. */
  function Missing(nodes: map<Mac, JoinState>, count: nat, k: nat): nat {
    if k == 0 then 0 else Missing(nodes, count, k - 1) + MissingAt(nodes, count, k)
  }

  /** Every delivery lowers this: a request stands for the JOINs its arrival sets off, and so does a
      missing membership. */
  function Potential(s: System, count: nat): nat
  {
    Times(count, |s.asks| + Missing(s.nodes, count, count)) + |s.joins|
  }

  /** Nobody posts to itself. */
  lemma PostedSize(count: nat, me: Mac, reply: Reply, overheard: set<Mac>)
    requires me in Ids(count)
    ensures |Posted(count, me, reply, overheard)| <= count - 1
  {
    IdsSize(count);
    var others := Ids(count) - {me};
    var posted := Posted(count, me, reply, overheard);
    var to := set m | m in posted :: m.to;
    assert to <= others;
    SubsetSize(to, others);
    SameRecipients(posted, me);
  }

  lemma {:induction false} SameRecipients(posted: set<Envelope>, me: Mac)
    requires forall m | m in posted :: m.from == me
    ensures |posted| == |set m | m in posted :: m.to|
    decreases posted
  {
    var to := set m | m in posted :: m.to;
    if m :| m in posted {
      var rest := posted - {m};
      SameRecipients(rest, me);
      assert to == (set k | k in rest :: k.to) + {m.to};
      assert m.to !in (set k | k in rest :: k.to);
    }
  }

  lemma OneLess(count: nat, known: set<Mac>, who: Mac)
    requires who in Ids(count) && who !in known
    ensures |Ids(count) - (known + {who})| == |Ids(count) - known| - 1
  {
    assert Ids(count) - (known + {who}) == (Ids(count) - known) - {who};
  }

  lemma {:induction false} MissingLess(count: nat, nodes: map<Mac, JoinState>, at: Mac, who: Mac, st: JoinState, k: nat)
    requires at in nodes && who in Ids(count) && who !in nodes[at].known && st.known == nodes[at].known + {who}
    ensures Missing(nodes[at := st], count, k) == Missing(nodes, count, k) - if 1 <= at <= k then 1 else 0
  {
    if k > 0 {
      MissingLess(count, nodes, at, who, st, k - 1);
      OneLess(count, nodes[at].known, who);
    }
  }

  lemma {:induction false} AllMissing(count: nat, k: nat)
    requires k <= count
    ensures Missing(Init(count).nodes, count, k) == Times(count, k)
  {
    if k > 0 {
      AllMissing(count, k - 1);
      IdsSize(count);
      assert IsId(count, k) && Ids(count) - {} == Ids(count);
    }
  }

  /** What a JOIN, from the wires or from ourselves, does to the numbers. */
  lemma JoinCounts(count: nat, s: System, at: Mac, who: Mac, event: Option<Arrival>, overheard: set<Mac>,
                   taken: multiset<Envelope>)
    requires at in s.nodes && at in Ids(count) && who in Ids(count) && who != BROADCAST && taken <= s.joins
    ensures var s' := Answered(count, s, at, who, event, overheard, taken);
            && s'.asks == s.asks
            && if who in s.nodes[at].known then
                 s'.nodes == s.nodes && |s'.joins| == |s.joins| - |taken|
               else
                 Missing(s'.nodes, count, count) == Missing(s.nodes, count, count) - 1 &&
                     |s'.joins| <= |s.joins| - |taken| + count - 1
  {
    var s' := Answered(count, s, at, who, event, overheard, taken);
    var posted := Posted(count, at, OnJoin(s.nodes[at], who, event).1, overheard);
    PostedSize(count, at, OnJoin(s.nodes[at], who, event).1, overheard);
    assert |s'.joins| == |s.joins| - |taken| + |posted|;
    if who !in s.nodes[at].known {
      MissingLess(count, s.nodes, at, who, s'.nodes[at], count);
    } else {
      assert s'.nodes == s.nodes;
    }
  }

  lemma JoinLowers(count: nat, s: System, at: Mac, who: Mac, event: Option<Arrival>, overheard: set<Mac>,
                   taken: multiset<Envelope>)
    requires at in s.nodes && at in Ids(count) && who in Ids(count) && who != BROADCAST && taken <= s.joins
    ensures var s' := Answered(count, s, at, who, event, overheard, taken);
            Potential(s', count) + |taken| <= Potential(s, count)
  {
    var s' := Answered(count, s, at, who, event, overheard, taken);
    JoinCounts(count, s, at, who, event, overheard, taken);
  }

  lemma AnnounceLowers(count: nat, s: System, at: Mac)
    requires at in s.nodes && at in Ids(count) && at != BROADCAST
    ensures Potential(Next(count, s, Announce(at)), count) <= Potential(s, count)
  {
    JoinLowers(count, s, at, at, None, {}, multiset{});
  }

  lemma DeliverLowers(count: nat, s: System, m: Envelope, port: Port, overheard: set<Mac>)
    requires m in s.joins && m.to in s.nodes && m.to in Ids(count) && m.from in Ids(count) && m.from != BROADCAST
    ensures Potential(Next(count, s, DeliverJoin(m, port, overheard)), count) + 1 <= Potential(s, count)
  {
    JoinLowers(count, s, m.to, m.from, Some(Arrival(m.from, port)), overheard, multiset{m});
  }

  lemma AskCounts(count: nat, s: System, to: Mac)
    requires Enabled(s, DeliverAsk(to)) && to in Ids(count)
    ensures var s' := Next(count, s, DeliverAsk(to));
            && s'.nodes == s.nodes && |s'.asks| == |s.asks| - 1 && |s'.joins| <= |s.joins| + count - 1
  {
    var s' := Next(count, s, DeliverAsk(to));
    PostedSize(count, to, Everybody, {});
    assert |s'.joins| == |s.joins| + |Posted(count, to, Everybody, {})|;
  }

  lemma AskLowers(count: nat, s: System, to: Mac)
    requires Enabled(s, DeliverAsk(to)) && to in Ids(count)
    ensures var s' := Next(count, s, DeliverAsk(to));
            Potential(s', count) + 1 <= Potential(s, count)
  {
    var s' := Next(count, s, DeliverAsk(to));
    AskCounts(count, s, to);
  }

  lemma AsksMore(count: nat, asks: multiset<Mac>, asker: Mac)
    ensures |asks + multiset(Ids(count) - {asker})| <= |asks| + count
  {
    var others := Ids(count) - {asker};
    IdsSize(count);
    SubsetSize(others, Ids(count));
    assert |multiset(others)| == |others|;
  }

  lemma TimesRaised(count: nat, asks: nat, asks': nat, missing: nat)
    requires asks' <= asks + count
    ensures Times(count, asks' + missing) <= Times(count, asks + missing) + Times(count, count)
  {
    TimesMonotonic(count, asks' + missing, asks + missing + count);
    TimesSum(count, asks + missing, count);
  }

  lemma AskRaises(count: nat, s: System, asker: Mac)
    ensures var s' := Next(count, s, Ask(asker));
            Potential(s', count) <= Potential(s, count) + Times(count, count)
  {
    var s' := Next(count, s, Ask(asker));
    AsksMore(count, s.asks, asker);
    TimesRaised(count, |s.asks|, |s'.asks|, Missing(s.nodes, count, count));
  }

  /** Whether the event is a delivery. */
  function Delivered(e: Event): nat {
    if e.DeliverJoin? || e.DeliverAsk? then 1 else 0
  }

  function Deliveries(events: seq<Event>): nat {
    if events == [] then
      0
    else
      Deliveries(events[..|events| - 1]) + Delivered(events[|events| - 1])
  }

  function Asks(events: seq<Event>): nat {
    if events == [] then
      0
    else
      Asks(events[..|events| - 1]) + if events[|events| - 1].Ask? then 1 else 0
  }

  /** The part of the invariant that counting needs. */
  ghost predicate Sound(count: nat, s: System) {
    s.nodes.Keys == Ids(count) && MailFine(count, s.joins)
  }

  lemma EventLowers(count: nat, s: System, e: Event)
    requires count < BROADCAST && Sound(count, s) && Enabled(s, e)
    ensures Potential(Next(count, s, e), count) + Delivered(e)
            <= Potential(s, count) + if e.Ask? then Times(count, count) else 0
  {
    match e
    case Announce(at) => AnnounceLowers(count, s, at);
    case Ask(asker) => AskRaises(count, s, asker);
    case DeliverJoin(m, port, overheard) => DeliverLowers(count, s, m, port, overheard);
    case DeliverAsk(to) => AskLowers(count, s, to);
  }

  lemma StepLowers(count: nat, s: System, e: Event, s': System)
    requires count < BROADCAST && Sound(count, s) && Steps(count, s, e, s')
    ensures Potential(s', count) + Delivered(e)
            <= Potential(s, count) + if e.Ask? then Times(count, count) else 0
  {
    EventLowers(count, s, e);
  }

  /** How many deliveries there can be when announcements were asked for `asks` times. */
  function Bound(count: nat, asks: nat): nat {
    Times(Times(count, count), count + asks)
  }

  lemma InitPotential(count: nat)
    ensures Potential(Init(count), count) <= Bound(count, 0)
  {
    AllMissing(count, count);
    TimesIsProduct(count, count);
    TimesIsProduct(count, count * count);
    TimesIsProduct(count * count, count);
  }

  lemma CountsStep(events: seq<Event>, i: nat)
    requires 0 < i <= |events|
    ensures var e := events[i - 1];
            && Deliveries(events[..i]) == Deliveries(events[..i - 1]) + (Delivered(e))
            && Asks(events[..i]) == Asks(events[..i - 1]) + if e.Ask? then 1 else 0
  {
    assert events[..i][..i - 1] == events[..i - 1];
  }

  ghost predicate Bounded(count: nat, s: System, deliveries: nat, asks: nat) {
    deliveries + Potential(s, count) <= Bound(count, asks)
  }

  lemma BoundedMore(count: nat, potential: nat, potential': nat, deliveries: nat, asks: nat, delivered: nat,
      asked: bool)
    requires deliveries + potential <= Bound(count, asks)
    requires potential' + delivered <= potential + if asked then Times(count, count) else 0
    ensures deliveries + delivered + potential' <= Bound(count, asks + if asked then 1 else 0)
  {
  }

  lemma BoundedStep(count: nat, s: System, e: Event, s': System, deliveries: nat, asks: nat)
    requires count < BROADCAST && Sound(count, s) && Steps(count, s, e, s') && Bounded(count, s, deliveries, asks)
    ensures Bounded(count, s', deliveries + Delivered(e), asks + if e.Ask? then 1 else 0)
  {
    StepLowers(count, s, e, s');
    BoundedMore(count, Potential(s, count), Potential(s', count), deliveries, asks, Delivered(e), e.Ask?);
  }

  lemma RunSound(count: nat, run: seq<System>, events: seq<Event>, i: nat)
    requires count < BROADCAST && IsRun(count, run, events) && i < |run|
    ensures Sound(count, run[i])
  {
    RunInv(count, run, events, i);
  }

  lemma FirstBounded(count: nat, run: seq<System>, events: seq<Event>)
    requires IsRun(count, run, events)
    ensures Bounded(count, run[0], Deliveries(events[..0]), Asks(events[..0]))
  {
    InitPotential(count);
  }

  lemma BoundedOn(count: nat, run: seq<System>, events: seq<Event>, i: nat, deliveries: nat, asks: nat)
    requires count < BROADCAST && IsRun(count, run, events) && i < |events|
    requires Bounded(count, run[i], deliveries, asks)
    ensures Bounded(count, run[i + 1], deliveries + Delivered(events[i]), asks + if events[i].Ask? then 1 else 0)
  {
    RunSound(count, run, events, i);
    assert StepsAt(count, run, events, i);
    BoundedStep(count, run[i], events[i], run[i + 1], deliveries, asks);
  }

  lemma {:induction false} RunBounded(count: nat, run: seq<System>, events: seq<Event>, i: nat)
    requires count < BROADCAST && IsRun(count, run, events) && i < |run|
    ensures Bounded(count, run[i], Deliveries(events[..i]), Asks(events[..i]))
  {
    if i == 0 {
      FirstBounded(count, run, events);
    } else {
      RunBounded(count, run, events, i - 1);
      CountsStep(events, i);
      BoundedOn(count, run, events, i - 1, Deliveries(events[..i - 1]), Asks(events[..i - 1]));
    }
  }

  lemma BoundedMeans(count: nat, s: System, deliveries: nat, asks: nat)
    requires Bounded(count, s, deliveries, asks)
    ensures deliveries <= count * count * (count + asks)
  {
    TimesIsProduct(count, count);
    TimesIsProduct(count * count, count + asks);
  }

  /** The exchange ends: however JOINs and requests are ordered and overheard, no run delivers more of them
      than this, so only new requests can keep it going. */
  lemma DeliveriesBounded(count: nat, run: seq<System>, events: seq<Event>, i: nat)
    requires count < BROADCAST && IsRun(count, run, events) && i < |run|
    ensures Deliveries(events[..i]) <= count * count * (count + Asks(events[..i]))
  {
    RunBounded(count, run, events, i);
    BoundedMeans(count, run[i], Deliveries(events[..i]), Asks(events[..i]));
  }

  // ---- and leaves everybody knowing everybody ----

  lemma KnowsAll(count: nat, me: Mac, st: JoinState)
    requires MemberFine(count, me, st)
    ensures |st.known| <= count
    ensures |st.known| == count ==>
              st.known == Ids(count) && st.ports.Keys == Ids(count) - {me} && st.macports == st.ports
  {
    IdsSize(count);
    SubsetSize(st.known, Ids(count));
    if |st.known| == count {
      assert Ids(count) == st.known + (Ids(count) - st.known);
    }
  }

  /** Nobody ever knows more than all the switches, and whoever knows as many as there are knows them all and
      has a port for each of the others. */
  lemma JoinedKnowsAll(count: nat, run: seq<System>, events: seq<Event>, i: nat, j: Mac)
    requires count < BROADCAST && IsRun(count, run, events) && i < |run| && j in Ids(count)
    ensures j in run[i].nodes && |run[i].nodes[j].known| <= count
    ensures |run[i].nodes[j].known| == count ==>
              && run[i].nodes[j].known == Ids(count)
              && run[i].nodes[j].ports.Keys == Ids(count) - {j} && run[i].nodes[j].macports == run[i].nodes[j].ports
  {
    RunInv(count, run, events, i);
    KnowsAll(count, j, run[i].nodes[j]);
  }

  /** Once the wires are empty everybody knows everybody, exactly if everybody has announced itself. */
  lemma EverybodyKnown(count: nat, run: seq<System>, events: seq<Event>, i: nat)
    requires count < BROADCAST && IsRun(count, run, events) && i < |run| && run[i].joins == multiset{}
    ensures run[i].nodes.Keys == Ids(count)
    ensures (forall j | j in Ids(count) :: run[i].nodes[j].known == Ids(count)) <==>
            (forall j | j in Ids(count) :: j in run[i].nodes[j].known)
  {
    RunInv(count, run, events, i);
    var s := run[i];
    if forall j | j in Ids(count) :: j in s.nodes[j].known {
      forall j | j in Ids(count) ensures s.nodes[j].known == Ids(count) {
        assert MemberFine(count, j, s.nodes[j]);
        forall k | k in Ids(count) ensures k in s.nodes[j].known {
          assert Heard(s, k, j);
        }
      }
    }
  }

  lemma AnsweredSelf(count: nat, s: System, at: Mac, who: Mac, event: Option<Arrival>, overheard: set<Mac>,
                     taken: multiset<Envelope>, j: Mac)
    requires at in s.nodes && j in s.nodes && who != j
    ensures var s' := Answered(count, s, at, who, event, overheard, taken);
            j in s'.nodes && (j in s'.nodes[j].known <==> j in s.nodes[j].known)
  {
  }

  lemma AnnouncesSelf(count: nat, s: System, j: Mac)
    requires j in s.nodes && j != BROADCAST
    ensures var s' := Answered(count, s, j, j, None, {}, multiset{}); j in s'.nodes && j in s'.nodes[j].known
  {
  }

  lemma AnsweredElsewhere(count: nat, s: System, at: Mac, who: Mac, event: Option<Arrival>, overheard: set<Mac>,
                          taken: multiset<Envelope>, j: Mac)
    requires at in s.nodes && j in s.nodes && at != j
    ensures var s' := Answered(count, s, at, who, event, overheard, taken);
            j in s'.nodes && s'.nodes[j] == s.nodes[j]
  {
  }

  lemma AnnouncedNow(count: nat, s: System, e: Event, s': System, j: Mac)
    requires count < BROADCAST && Sound(count, s) && j in Ids(count) && Steps(count, s, e, s')
    ensures j in s'.nodes && (j in s'.nodes[j].known <==> j in s.nodes[j].known || e == Announce(j))
  {
    match e
    case Announce(at) =>
      if at == j {
        AnnouncesSelf(count, s, j);
      } else {
        AnsweredElsewhere(count, s, at, at, None, {}, multiset{}, j);
      }
    case Ask(asker) =>
    case DeliverJoin(m, port, overheard) =>
      if m.to == j {
        AnsweredSelf(count, s, m.to, m.from, Some(Arrival(m.from, port)), overheard, multiset{m}, j);
      } else {
        AnsweredElsewhere(count, s, m.to, m.from, Some(Arrival(m.from, port)), overheard, multiset{m}, j);
      }
    case DeliverAsk(to) =>
      AnsweredSelf(count, s.(asks := s.asks - multiset{to}), to, BROADCAST, Some(Arrival(BROADCAST, OFPP_ALL)), {},
                   multiset{}, j);
  }

  predicate HasAnnounced(events: seq<Event>, j: Mac) {
    exists k | 0 <= k < |events| :: events[k] == Announce(j)
  }

  lemma AnnouncedMore(events: seq<Event>, i: nat, j: Mac)
    requires 0 < i <= |events|
    ensures HasAnnounced(events[..i], j) <==> HasAnnounced(events[..i - 1], j) || events[i - 1] == Announce(j)
  {
    var before, now := events[..i - 1], events[..i];
    if k :| 0 <= k < |before| && before[k] == Announce(j) {
      assert now[k] == Announce(j);
    } else if events[i - 1] == Announce(j) {
      assert now[i - 1] == Announce(j);
    } else {
      assert forall k | 0 <= k < |now| :: now[k] == if k < i - 1 then before[k] else events[i - 1];
    }
  }

  lemma AnnouncedAt(count: nat, run: seq<System>, events: seq<Event>, i: nat, j: Mac)
    requires count < BROADCAST && IsRun(count, run, events) && 0 < i < |run| && j in Ids(count)
    ensures j in run[i - 1].nodes && j in run[i].nodes
    ensures j in run[i].nodes[j].known <==> j in run[i - 1].nodes[j].known || events[i - 1] == Announce(j)
  {
    RunSound(count, run, events, i - 1);
    assert StepsAt(count, run, events, i - 1);
    AnnouncedNow(count, run[i - 1], events[i - 1], run[i], j);
  }

  /** A switch starts to count itself in by announcing itself, and in no other way. */
  lemma {:induction false} AnnouncedItself(count: nat, run: seq<System>, events: seq<Event>, i: nat, j: Mac)
    requires count < BROADCAST && IsRun(count, run, events) && i < |run| && j in Ids(count)
    ensures j in run[i].nodes
    ensures j in run[i].nodes[j].known <==> HasAnnounced(events[..i], j)
  {
    if i > 0 {
      AnnouncedItself(count, run, events, i - 1, j);
      AnnouncedAt(count, run, events, i, j);
      AnnouncedMore(events, i, j);
    }
  }
}
