/** What a switch's slots, votes and queue say about the messages it has received. */
module NodeHistory {
  import opened Addresses
  import opened Wrappers
  import opened Quorums
  import opened PaxosMessage
  import opened SlotQueue
  import opened SteadyNode

  // ---- Votes ----

  /** The switch has voted for exactly the numbers whose ACCEPT it received, for what the leader issued. */
  ghost predicate VotesInv(count: nat, issued: Issued, taken: set<int>, node: NodeState) {
    && (forall x | x in node.votes ::
          x.rnd == LeaderRound(count) && x.seqno in taken && IssuedAs(issued, x.seqno, Some(x.val)))
    && (forall s | s in taken :: HasVoted(count, issued, node, s))
  }

  ghost predicate HasVoted(count: nat, issued: Issued, node: NodeState, s: int) {
    0 <= s < |issued| && issued[s].Some? && Vote(LeaderRound(count), s, issued[s].value) in node.votes
  }

  lemma OnLearnKeepsVotes(node: NodeState, count: nat, src: Mac, n: int, s: int, ready: nat)
    requires |node.delivered| == node.cseq
    ensures OnLearn(node, count, src, n, s, ready).votes == node.votes
  {
    var slot := SlotAt(node, count, s);
    if n >= slot.hrnd {
      PumpDelivers(PutSlot(node, s, CountLearn(slot, src, n)), n, ready);
    }
  }

  lemma VotesMore(issued: Issued, count: nat, taken: set<int>, node: NodeState, node': NodeState, s: int, v: Bytes)
    requires VotesInv(count, issued, taken, node) && IssuedAs(issued, s, Some(v))
    requires node'.votes == node.votes + {Vote(LeaderRound(count), s, v)}
    ensures VotesInv(count, issued, taken + {s}, node')
  {
    forall k | k in taken + {s} ensures HasVoted(count, issued, node', k) {
      assert k in taken ==> HasVoted(count, issued, node, k);
    }
  }

  lemma VotesSame(issued: Issued, count: nat, taken: set<int>, node: NodeState, node': NodeState)
    requires VotesInv(count, issued, taken, node) && node'.votes == node.votes
    ensures VotesInv(count, issued, taken, node')
  {
    forall k | k in taken ensures HasVoted(count, issued, node', k) {
      assert HasVoted(count, issued, node, k);
    }
  }

  lemma VotesStep(count: nat, me: Mac, issued: Issued, taken: set<int>, node: NodeState, e: NodeEvent)
    requires NodeInv(count, me, issued, taken, node) && VotesInv(count, issued, taken, node)
    requires Expected(count, me, issued, taken, e)
    ensures VotesInv(count, issued, TakenAfter(taken, e), NodeNext(node, count, me, e).node)
  {
    var node' := NodeNext(node, count, me, e).node;
    match e
    case Tick(ready) =>
      PumpDelivers(node, node.crnd, ready);
      VotesSame(issued, count, taken, node, node');
    case Sweep => VotesSame(issued, count, taken, node, node');
    case Recv(src, frame, ready) =>
      match Decode(frame)
      case Accepting(n, s, v) =>
        if Accepts(node, count, n, s) {
          OnLearnKeepsVotes(Store(node, count, n, s, v), count, me, n, s, ready);
          VotesMore(issued, count, taken, node, node', s, v);
        } else {
          assert SlotInv(count, me, issued, taken, s, node.slots[s]);
          VotesSame(issued, count, taken, node, node');
          assert taken + {s} == taken;
        }
      case Learning(n, s) =>
        OnLearnKeepsVotes(node, count, src, n, s, ready);
        VotesSame(issued, count, taken, node, node');
      case Ignored =>
  }

  // ---- Whose LEARN was heard ----

  /** Whose LEARN for which number the event brings; accepting a number counts as hearing ourselves. */
  function HeardAfter(me: Mac, heard: set<(Mac, int)>, e: NodeEvent): set<(Mac, int)> {
    if !e.Recv? then
      heard
    else
      match Decode(e.frame)
      case Accepting(_, s, _) => heard + {(me, s)}
      case Learning(_, s) => heard + {(e.src, s)}
      case Ignored => heard
  }

  function HeardIn(me: Mac, events: seq<NodeEvent>): set<(Mac, int)> {
    if events == [] then {} else HeardAfter(me, HeardIn(me, events[..|events| - 1]), events[|events| - 1])
  }

  /** A LEARN that was heard is counted, unless its slot needed no more of them. */
  ghost predicate Counted(node: NodeState, k: Mac, s: int) {
    s < node.cseq || (s in node.slots && (k in node.slots[s].learns || Learned(node.slots[s])))
  }

  /** Only LEARNs that were heard are counted. */
  ghost predicate LearnsHeard(node: NodeState, heard: set<(Mac, int)>) {
    forall s, k | s in node.slots && k in node.slots[s].learns :: (k, s) in heard
  }

  ghost predicate HeardInv(node: NodeState, heard: set<(Mac, int)>) {
    && (forall x | x in heard :: Counted(node, x.0, x.1))
    && LearnsHeard(node, heard)
  }

  /** What was counted stays counted, as long as no slot is lost and no count goes down. */
  lemma CountedOn(node: NodeState, node': NodeState, heard: set<(Mac, int)>)
    requires forall x | x in heard :: Counted(node, x.0, x.1)
    requires node'.cseq >= node.cseq && forall s | s in node.slots :: s in node'.slots
    requires forall s | s in node.slots ::
               node.slots[s].learns <= node'.slots[s].learns && (Learned(node.slots[s]) ==> Learned(node'.slots[s]))
    ensures forall x | x in heard :: Counted(node', x.0, x.1)
  {
    forall x | x in heard ensures Counted(node', x.0, x.1) {
      assert Counted(node, x.0, x.1);
    }
  }

  /** The LEARN changes nothing but asks for the slot. */
  lemma LearnIgnored(count: nat, node: NodeState, heard: set<(Mac, int)>, src: Mac, s: int)
    requires HeardInv(node, heard)
    requires var slot := SlotAt(node, count, s); Learned(slot) || src in slot.learns
    ensures HeardInv(PutSlot(node, s, SlotAt(node, count, s)), heard + {(src, s)})
  {
    CountedOn(node, PutSlot(node, s, SlotAt(node, count, s)), heard);
  }

  /** It is counted, and a pass follows. */
  lemma LearnCounts(count: nat, node: NodeState, heard: set<(Mac, int)>, src: Mac, n: int, s: int, ready: nat)
    requires HeardInv(node, heard) && |node.delivered| == node.cseq
    requires var slot := SlotAt(node, count, s);
             !Learned(slot) && n >= slot.hrnd && (n > slot.hrnd ==> slot.learns == {})
    ensures var u := PutSlot(node, s, CountLearn(SlotAt(node, count, s), src, n));
            HeardInv(Pump(u, n, ready), heard + {(src, s)})
  {
    var u := PutSlot(node, s, CountLearn(SlotAt(node, count, s), src, n));
    PumpDelivers(u, n, ready);
    CountedOn(node, Pump(u, n, ready), heard);
  }

  lemma LearnHeard(count: nat, me: Mac, issued: Issued, taken: set<int>, node: NodeState, heard: set<(Mac, int)>,
                   src: Mac, s: int, ready: nat)
    requires NodeInv(count, me, issued, taken, node) && HeardInv(node, heard)
    ensures HeardInv(OnLearn(node, count, src, LeaderRound(count), s, ready), heard + {(src, s)})
  {
    var n, slot := LeaderRound(count), SlotAt(node, count, s);
    assert s in node.slots ==> SlotInv(count, me, issued, taken, s, slot);
    if Learned(slot) || (n == slot.hrnd && src in slot.learns) {
      LearnIgnored(count, node, heard, src, s);
    } else {
      LearnCounts(count, node, heard, src, n, s, ready);
    }
  }

  lemma AcceptHeard(count: nat, me: Mac, issued: Issued, taken: set<int>, node: NodeState, heard: set<(Mac, int)>,
                    s: int, v: Bytes, ready: nat)
    requires me in Ids(count) && NodeInv(count, me, issued, taken, node) && HeardInv(node, heard)
    requires forall k | k in taken :: (me, k) in heard
    requires IssuedAs(issued, s, Some(v)) && IsU32(LeaderRound(count)) && IsU32(s)
    ensures HeardInv(OnAccept(node, count, me, LeaderRound(count), s, v, ready).node, heard + {(me, s)})
  {
    var n := LeaderRound(count);
    var t := PutSlot(node, s, SlotAt(node, count, s));
    if Accepts(node, count, n, s) {
      var u := Store(node, count, n, s, v);
      StoreSteady(count, me, issued, taken, node, s, v);
      forall x | x in heard ensures Counted(u, x.0, x.1) {
        assert Counted(node, x.0, x.1);
      }
      LearnHeard(count, me, issued, taken + {s}, u, heard, me, s, ready);
    } else {
      assert SlotInv(count, me, issued, taken, s, node.slots[s]);
      assert heard + {(me, s)} == heard;
      forall x | x in heard ensures Counted(t, x.0, x.1) {
        assert Counted(node, x.0, x.1);
      }
    }
  }

  lemma HeardStep(count: nat, me: Mac, issued: Issued, taken: set<int>, node: NodeState, heard: set<(Mac, int)>,
      e: NodeEvent)
    requires me in Ids(count) && NodeInv(count, me, issued, taken, node) && HeardInv(node, heard)
    requires forall k | k in taken :: (me, k) in heard
    requires Expected(count, me, issued, taken, e)
    ensures HeardInv(NodeNext(node, count, me, e).node, HeardAfter(me, heard, e))
  {
    match e
    case Tick(ready) =>
      PumpDelivers(node, node.crnd, ready);
      forall x | x in heard ensures Counted(Pump(node, node.crnd, ready), x.0, x.1) {
        assert Counted(node, x.0, x.1);
      }
    case Sweep =>
      forall x | x in heard ensures Counted(Collect(node, node.crnd), x.0, x.1) {
        assert Counted(node, x.0, x.1);
      }
    case Recv(src, frame, ready) =>
      match Decode(frame)
      case Accepting(n, s, v) => AcceptHeard(count, me, issued, taken, node, heard, s, v, ready);
      case Learning(n, s) => LearnHeard(count, me, issued, taken, node, heard, src, s, ready);
      case Ignored =>
  }

  // ---- What is sent and delivered ----

  /** The first ACCEPT for a number is answered with a LEARN to everyone; nothing else is sent. */
  lemma CastsStep(count: nat, me: Mac, issued: Issued, taken: set<int>, node: NodeState, e: NodeEvent)
    requires NodeInv(count, me, issued, taken, node) && Expected(count, me, issued, taken, e)
    ensures var casts := NodeNext(node, count, me, e).casts;
            && (casts != [] ==> e.Recv? && Decode(e.frame).Accepting?
                                && casts == [LearnFrame(LeaderRound(count), Decode(e.frame).seqno)])
            && (e.Recv? && Decode(e.frame).Accepting? && Decode(e.frame).seqno !in taken ==> casts != [])
  {
    if e.Recv? && Decode(e.frame).Accepting? {
      var s := Decode(e.frame).seqno;
      assert s in node.slots ==> SlotInv(count, me, issued, taken, s, node.slots[s]);
    }
  }

  /** What a step delivers had a majority of counted LEARNs. */
  lemma DeliveredLearned(count: nat, me: Mac, issued: Issued, taken: set<int>, node: NodeState, e: NodeEvent)
    requires NodeInv(count, me, issued, taken, node) && Expected(count, me, issued, taken, e)
    ensures var node' := NodeNext(node, count, me, e).node;
            && node.cseq <= node'.cseq
            && forall s: int | node.cseq <= s < node'.cseq :: s in node'.slots && Learned(node'.slots[s])
  {
    match e
    case Tick(ready) => PumpDelivers(node, node.crnd, ready);
    case Sweep =>
    case Recv(src, frame, ready) =>
      match Decode(frame)
      case Accepting(n, s, v) =>
        if Accepts(node, count, n, s) {
          LearnDelivers(Store(node, count, n, s, v), count, me, n, s, ready);
        }
      case Learning(n, s) => LearnDelivers(node, count, src, n, s, ready);
      case Ignored =>
  }

  lemma LearnDelivers(node: NodeState, count: nat, src: Mac, n: int, s: int, ready: nat)
    requires |node.delivered| == node.cseq
    ensures var node' := OnLearn(node, count, src, n, s, ready);
            && node.cseq <= node'.cseq
            && forall k: int | node.cseq <= k < node'.cseq :: k in node'.slots && Learned(node'.slots[k])
  {
    var slot := SlotAt(node, count, s);
    if n >= slot.hrnd {
      PumpDelivers(PutSlot(node, s, CountLearn(slot, src, n)), n, ready);
    }
  }

  /** A switch's round never goes down. */
  lemma RoundGrows(node: NodeState, count: nat, me: Mac, e: NodeEvent)
    requires QueueInv(node)
    ensures NodeNext(node, count, me, e).node.crnd >= node.crnd
  {
    match e
    case Tick(ready) => PumpDelivers(node, node.crnd, ready);
    case Sweep =>
    case Recv(src, frame, ready) =>
      match Decode(frame)
      case Accepting(n, s, v) =>
        if Accepts(node, count, n, s) {
          LearnSameRound(Store(node, count, n, s, v), count, me, n, s, ready);
        }
      case Learning(n, s) => LearnSameRound(node, count, src, n, s, ready);
      case Ignored =>
  }

  lemma LearnSameRound(node: NodeState, count: nat, src: Mac, n: int, s: int, ready: nat)
    requires |node.delivered| == node.cseq
    ensures OnLearn(node, count, src, n, s, ready).crnd == node.crnd
  {
    var slot := SlotAt(node, count, s);
    if n >= slot.hrnd {
      PumpDelivers(PutSlot(node, s, CountLearn(slot, src, n)), n, ready);
    }
  }
}
