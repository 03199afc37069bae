/** What runs of up to four Paxos switches guarantee: one order of delivery everywhere. */
module TotalOrder {
  import opened Addresses
  import opened Wrappers
  import opened Quorums
  import opened Sets
  import opened PaxosMessage
  import opened SlotQueue
  import opened SteadyNode
  import opened Collection
  import opened NodeHistory
  import opened SwitchSystem
  import opened SwitchInvariant

  /** The leader's proposal log. */
  function Proposals(issued: Issued): seq<(int, Option<Bytes>)> {
    seq(|issued|, s requires 0 <= s < |issued| => (s, issued[s]))
  }

  /** The first number without a value, or the next number to be issued. */
  function FirstHole(issued: Issued): (h: nat)
    ensures h <= |issued| && (forall k: int | 0 <= k < h :: issued[k].Some?) && (h < |issued| ==> issued[h].None?)
  {
    if issued == [] then 0
    else
      var h := FirstHole(issued[..|issued| - 1]);
      if h == |issued| - 1 && issued[h].Some? then h + 1 else h
  }

  function Log(s: System, j: Mac): seq<(int, Option<Bytes>)>
    requires j in s.switches
  {
    s.switches[j].node.delivered
  }

  lemma DeliveredAsIssued(issued: Issued, node: NodeState)
    requires QueueInv(node) && forall k: int | 0 <= k < node.cseq :: IssuedAs(issued, k, node.delivered[k].1)
    ensures node.cseq <= FirstHole(issued) && node.delivered == Proposals(issued)[..node.cseq]
  {
    forall k: int | 0 <= k < node.cseq
      ensures k < |issued| && node.delivered[k] == (k, issued[k]) && issued[k].Some?
    {
      assert IssuedAs(issued, k, node.delivered[k].1);
    }
    if node.cseq > 0 {
      assert IssuedAs(issued, node.cseq - 1, node.delivered[node.cseq - 1].1);
    }
  }

  /** Every switch has delivered a prefix of the leader's log, and values only, at every point of a run. */
  lemma LogIsPrefix(count: nat, run: seq<System>, events: seq<Event>, i: nat, j: Mac)
    requires 1 <= count <= 4 && IsRun(count, run, events) && i < |run| && j in Ids(count)
    ensures j in run[i].switches && Log(run[i], j) <= Proposals(run[i].issued)
    ensures |Log(run[i], j)| <= FirstHole(run[i].issued)
  {
    RunInv(count, run, events, i);
    HistoryFacts(count, j, run[i].issued, run[i].switches[j]);
    var node := run[i].switches[j].node;
    DeliveredAsIssued(run[i].issued, node);
  }

  lemma {:induction false} IssuedGrows(count: nat, run: seq<System>, events: seq<Event>, i: nat, k: nat)
    requires IsRun(count, run, events) && i <= k < |run|
    ensures run[i].issued <= run[k].issued
    decreases k
  {
    if i < k {
      IssuedGrows(count, run, events, i, k - 1);
      assert StepsAt(count, run, events, k - 1);
    }
  }

  /** Any two logs of a run, of any switches at any times, agree as far as the shorter one goes. */
  lemma LogsAgree(count: nat, run: seq<System>, events: seq<Event>, i: nat, j: Mac, i': nat, j': Mac)
    requires 1 <= count <= 4 && IsRun(count, run, events) && i < |run| && i' < |run| && j in Ids(count) &&
             j' in Ids(count)
    ensures j in run[i].switches && j' in run[i'].switches
    ensures Log(run[i], j) <= Log(run[i'], j') || Log(run[i'], j') <= Log(run[i], j)
  {
    var last := |run| - 1;
    LogIsPrefix(count, run, events, i, j);
    LogIsPrefix(count, run, events, i', j');
    IssuedGrows(count, run, events, i, last);
    IssuedGrows(count, run, events, i', last);
    assert Proposals(run[i].issued) <= Proposals(run[last].issued);
    assert Proposals(run[i'].issued) <= Proposals(run[last].issued);
  }

  // ---- Consensus ----

  /** The switches that accepted `v` for number `k` in the leader's round. */
  function Accepted(count: nat, s: System, k: int, v: Bytes): set<Mac> {
    set j | j in s.switches && Vote(LeaderRound(count), k, v) in s.switches[j].node.votes
  }

  /** Whatever a switch delivers was accepted by a majority of the switches, in the leader's round. */
  lemma DeliveryImpliesConsensus(count: nat, run: seq<System>, events: seq<Event>, i: nat, j: Mac, k: nat)
    requires 1 <= count <= 4 && IsRun(count, run, events) && i < |run| && j in Ids(count)
    requires j in run[i].switches && k < |Log(run[i], j)|
    ensures Log(run[i], j)[k].1.Some?
    ensures |Accepted(count, run[i], k, Log(run[i], j)[k].1.value)| >= Majority(count)
  {
    var s := run[i];
    RunInv(count, run, events, i);
    LogIsPrefix(count, run, events, i, j);
    HistoryFacts(count, j, s.issued, s.switches[j]);
    assert Log(s, j)[k] == Proposals(s.issued)[k];
    assert Backed(count, s.switches, k);
    var v := Log(s, j)[k].1.value;
    forall x | x in Acceptors(s.switches, k) ensures x in Accepted(count, s, k, v) {
      HistoryFacts(count, x, s.issued, s.switches[x]);
      assert HasVoted(count, s.issued, s.switches[x].node, k);
    }
    SubsetSize(Acceptors(s.switches, k), Accepted(count, s, k, v));
  }

  // ---- Completeness ----

  /** Nothing is in flight. */
  ghost predicate Quiescent(s: System)
    requires s.read.Keys == s.switches.Keys
  {
    && (forall j | j in s.switches && j != LEADER :: s.read[j] == |s.stream|)
    && s.got == s.network
  }

  /** With nothing in flight every switch has heard every switch about every value that was issued. */
  lemma EveryoneHeard(count: nat, s: System, j: Mac, x: Mac, k: int)
    requires count <= 4 && Inv(count, s) && Quiescent(s) && j in s.switches && x in s.switches
    requires 0 <= k < |s.issued| && s.issued[k].Some?
    ensures (x, k) in Heard(s.switches, j)
  {
    EveryoneTook(count, s, j, k);
    EveryoneTook(count, s, x, k);
    HistoryFacts(count, j, s.issued, s.switches[j]);
    if x != j && x != LEADER {
      assert Told(count, s.network, x, k, j);
      DecodeFrame(LeaderRound(count), k, []);
      var m := Sent(x, j, LearnFrame(LeaderRound(count), k));
      assert m in s.got;
    } else if x != j {
      assert InStream(count, s.issued, s.stream, k);
      DecodeFrame(LeaderRound(count), k, []);
      var i: nat :| i < |s.stream| && s.stream[i] == LearnFrame(LeaderRound(count), k);
      assert ReaderFine(s.switches, s.stream, j, s.read[j]) && HasRead(s.switches, j, s.stream[i]);
    }
  }

  lemma EveryoneTook(count: nat, s: System, j: Mac, k: int)
    requires count <= 4 && Inv(count, s) && Quiescent(s) && j in s.switches
    requires 0 <= k < |s.issued| && s.issued[k].Some?
    ensures k in Taken(s.switches, j)
  {
    if j != LEADER {
      assert InStream(count, s.issued, s.stream, k);
      DecodeFrame(LeaderRound(count), k, s.issued[k].value);
      var i: nat :| i < |s.stream| && s.stream[i] == AcceptFrame(LeaderRound(count), k, s.issued[k].value);
      assert ReaderFine(s.switches, s.stream, j, s.read[j]) && HasRead(s.switches, j, s.stream[i]);
    }
  }

  lemma AllLearned(count: nat, s: System, j: Mac, k: int)
    requires 1 <= count <= 4 && Inv(count, s) && Quiescent(s) && j in s.switches
    requires 0 <= k < |s.issued| && s.issued[k].Some? && k >= s.switches[j].node.cseq
    ensures k in s.switches[j].node.slots && Learned(s.switches[j].node.slots[k])
  {
    var node := s.switches[j].node;
    HistoryFacts(count, j, s.issued, s.switches[j]);
    EveryoneHeard(count, s, j, j, k);
    assert Counted(node, j, k);
    var slot := node.slots[k];
    assert SlotInv(count, j, s.issued, Taken(s.switches, j), k, slot);
    forall x | x in Ids(count) && !Learned(slot) ensures x in slot.learns {
      EveryoneHeard(count, s, j, x, k);
      assert Counted(node, x, k);
    }
    IdsSize(count);
    if !Learned(slot) {
      SubsetSize(Ids(count), slot.learns);
    }
  }

  /** A pass delivers as the leader issued. */
  lemma PassAsIssued(count: nat, s: System, j: Mac, ready: nat)
    requires 1 <= count <= 4 && Inv(count, s) && j in s.switches
    ensures var node := s.switches[j].node;
            var node' := Pump(node, node.crnd, ready);
            && node'.slots == node.slots && node.cseq <= node'.cseq <= FirstHole(s.issued)
            && node'.delivered == Proposals(s.issued)[..node'.cseq]
  {
    var node := s.switches[j].node;
    HistoryFacts(count, j, s.issued, s.switches[j]);
    PumpDelivers(node, node.crnd, ready);
    PumpSteady(count, j, s.issued, Taken(s.switches, j), node, node.crnd, ready);
    DeliveredAsIssued(s.issued, Pump(node, node.crnd, ready));
  }

  lemma DrainedToHole(count: nat, s: System, j: Mac, ready: nat)
    requires 1 <= count <= 4 && Inv(count, s) && Quiescent(s) && j in s.switches
    requires var node := s.switches[j].node; !Deliverable(Pump(node, node.crnd, ready))
    ensures var node := s.switches[j].node;
            Pump(node, node.crnd, ready).delivered == Proposals(s.issued)[..FirstHole(s.issued)]
  {
    var node := s.switches[j].node;
    var node' := Pump(node, node.crnd, ready);
    PassAsIssued(count, s, j, ready);
    if node'.cseq < FirstHole(s.issued) {
      AllLearned(count, s, j, node'.cseq);
    }
  }

  /** With nothing in flight, a queue pass that is not postponed leaves a switch having delivered exactly
      the numbers below the first hole: all the leader issued, if and only if no number was left without
      a value. */
  lemma CompleteAtQuiescence(count: nat, run: seq<System>, events: seq<Event>, i: nat, j: Mac, ready: nat)
    requires 1 <= count <= 4 && IsRun(count, run, events) && i < |run| && j in Ids(count)
    requires run[i].read.Keys == run[i].switches.Keys && Quiescent(run[i]) && j in run[i].switches
    requires var node := run[i].switches[j].node; !Deliverable(Pump(node, node.crnd, ready))
    ensures var s, node := run[i], run[i].switches[j].node;
            var node' := Pump(node, node.crnd, ready);
            && node'.delivered == Proposals(s.issued)[..FirstHole(s.issued)]
            && (node'.delivered == Proposals(s.issued) <==> forall k: int | 0 <= k < |s.issued| :: s.issued[k].Some?)
  {
    RunInv(count, run, events, i);
    DrainedToHole(count, run[i], j, ready);
    var h := FirstHole(run[i].issued);
    assert (forall k: int | 0 <= k < |run[i].issued| :: run[i].issued[k].Some?) <==> h == |run[i].issued|;
    assert Proposals(run[i].issued)[..|run[i].issued|] == Proposals(run[i].issued);
  }

  /** A client packet gets a value exactly if its payload has the eight header bytes and the number fits
      in 32 bits; a frame that was wrapped as CLIENT is numbered as the bytes it was. Otherwise the number
      is spent all the same, and nothing from it on is ever delivered. */
  lemma ClientNumbered(count: nat, run: seq<System>, events: seq<Event>, i: nat, payload: Bytes, ready: nat)
    requires 1 <= count <= 4 && IsRun(count, run, events) && i < |events| && events[i] == Client(payload, ready)
    ensures var k := |run[i].issued|;
            && |run[i + 1].issued| == k + 1
            && (run[i + 1].issued[k].Some? <==> |payload| >= 8 && k <= UINT32_MAX)
            && (forall frame | payload == PackClient(frame) && k <= UINT32_MAX :: run[i + 1].issued[k] == Some(frame))
            && (run[i + 1].issued[k].None? ==>
                  forall m: nat, j | i < m < |run| && j in run[m].switches && j in Ids(count) :: |Log(run[m], j)| <= k)
  {
    var s, k := run[i], |run[i].issued|;
    RunInv(count, run, events, i);
    LeaderReady(count, s);
    assert StepsAt(count, run, events, i);
    forall frame | payload == PackClient(frame) ensures UnpackClient(payload) == Some(frame) {
      ClientRoundTrip(frame, payload);
    }
    forall m: nat, j | run[i + 1].issued[k].None? && i < m < |run| && j in run[m].switches && j in Ids(count)
      ensures |Log(run[m], j)| <= k
    {
      LogIsPrefix(count, run, events, m, j);
      IssuedGrows(count, run, events, i + 1, m);
      assert run[m].issued[k].None?;
    }
  }

  // ---- Collection ----

  /** Had a switch never collected, it would have delivered, on its own schedule, a prefix of what it
      delivered; and all of it, unless its queue was left postponed. */
  lemma CollectionInvisibleInRun(count: nat, run: seq<System>, events: seq<Event>, i: nat, j: Mac)
    requires 1 <= count <= 4 && IsRun(count, run, events) && i < |run| && j in Ids(count)
    ensures j in run[i].switches
    ensures var sw := run[i].switches[j];
            var kept := Run(count, j, InitNode(InitialRound(count, j)), sw.local, false);
            kept.delivered <= sw.node.delivered && (!Deliverable(kept) ==> kept.delivered == sw.node.delivered)
  {
    RunInv(count, run, events, i);
    assert SwitchInv(count, j, run[i].issued, run[i].switches[j]);
    CollectionInvisible(count, j, run[i].issued, InitNode(InitialRound(count, j)), run[i].switches[j].local);
  }
}
