/** What an interleaved switch's slots and votes say about the messages it has received. */
module InterleavedHistory {
  import opened Addresses
  import opened Quorums
  import opened PaxosMessage
  import opened SlotQueue
  import opened SteadyNode
  import opened NodeHistory
  import opened Collection
  import opened Interleaving
  import opened InterleavedSystem

  /** A LEARN that was heard is counted in what the switch still has to deliver, or was not needed. */
  ghost predicate Noted(a: NodeState, k: Mac, s: int) {
    s in a.slots && (k in a.slots[s].learns || Learned(a.slots[s]))
  }

  ghost predicate LearnsNoted(a: NodeState, heard: set<(Mac, int)>) {
    && (forall x | x in heard :: Noted(a, x.0, x.1))
    && LearnsHeard(a, heard)
  }

  /** The switch has heard itself about what it took, or is about to. */
  predicate Tells(me: Mac, at: Handler, k: int) {
    (at.CallingSelf? && at.s == k) || (at.InLearn? && at.src == me && at.s == k)
  }

  ghost predicate HearsItself(me: Mac, taken: set<int>, heard: set<(Mac, int)>, at: Handler) {
    forall k | k in taken :: (me, k) in heard || Tells(me, at, k)
  }

  /** What a handler accepts came in a frame. */
  predicate FromFrame(at: Handler) {
    at.InAccept? ==> IsU32(at.n) && IsU32(at.s)
  }

  // ---- LEARNs ----

  lemma GotNoted(count: nat, a: NodeState, heard: set<(Mac, int)>, s: int)
    requires LearnsNoted(a, heard)
    ensures LearnsNoted(Got(a, count, s), heard)
  {
    forall x | x in heard ensures Noted(Got(a, count, s), x.0, x.1) {
      assert Noted(a, x.0, x.1);
    }
  }

  lemma AcceptNoted(count: nat, a: NodeState, heard: set<(Mac, int)>, cseq: nat, s: int, v: Bytes)
    requires LearnsNoted(a, heard) && s in a.slots
    ensures LearnsNoted(AloneAccept(count, a, cseq, s, v), heard)
  {
    forall x | x in heard ensures Noted(AloneAccept(count, a, cseq, s, v), x.0, x.1) {
      assert Noted(a, x.0, x.1);
    }
  }

  lemma LearnNoted(count: nat, me: Mac, issued: Issued, taken: set<int>, a: NodeState, b: NodeState,
                   heard: set<(Mac, int)>, src: Mac, s: int)
    requires NodeInv(count, me, issued, taken, a) && Alike(count, a, b) && LearnsNoted(a, heard)
    requires s in a.slots && s >= 0
    ensures LearnsNoted(AloneLearn(count, a, b.cseq, src, s), heard + {(src, s)})
  {
    var a' := AloneLearn(count, a, b.cseq, src, s);
    assert SlotInv(count, me, issued, taken, s, a.slots[s]);
    if s < b.cseq {
      assert Kept(count, a, b, s);
    }
    forall x | x in heard ensures Noted(a', x.0, x.1) {
      assert Noted(a, x.0, x.1);
    }
  }

  lemma NotedStep(count: nat, me: Mac, issued: Issued, taken: set<int>, a: NodeState,
                  heard: set<(Mac, int)>, t: Threads, e: ThreadEvent)
    requires ThreadsInv(count, me, issued, taken, a, t) && LearnsNoted(a, heard) && Interleaving.Enabled(t, e)
    ensures LearnsNoted(Alone(count, a, t, e), HeardBy(heard, t, e))
  {
    match e
    case Receive(_, frame) =>
      if Decode(frame).Accepting? || Decode(frame).Learning? {
        GotNoted(count, a, heard, Decode(frame).seqno);
      }
    case Continue(_) =>
      if t.at.InAccept? {
        AcceptNoted(count, a, heard, t.node.cseq, t.at.s, t.at.v);
      } else if t.at.InLearn? {
        LearnNoted(count, me, issued, taken, a, t.node, heard, t.at.src, t.at.s);
      }
    case _ =>
  }

  lemma SelfStep(count: nat, me: Mac, taken: set<int>, heard: set<(Mac, int)>, t: Threads, e: ThreadEvent)
    requires HearsItself(me, taken, heard, t.at) && Interleaving.Enabled(t, e)
    requires e.Continue? && t.at.InAccept? ==>
               t.at.s in taken || AcceptStep(t.node, count, t.at.n, t.at.s, t.at.v, t.at.held).at.CallingSelf?
    ensures HearsItself(me, TakenBy(taken, t, e), HeardBy(heard, t, e), Interleaving.Next(t, count, me, e).at)
  {
    var (taken', heard') := (TakenBy(taken, t, e), HeardBy(heard, t, e));
    forall k | k in taken'
      ensures (me, k) in heard' || Tells(me, Interleaving.Next(t, count, me, e).at, k)
    {
      assert k in taken ==> (me, k) in heard || Tells(me, t.at, k);
    }
  }

  // ---- Votes ----

  /** An ACCEPT that is not accepted was taken before. */
  lemma NotAcceptedTaken(count: nat, me: Mac, issued: Issued, taken: set<int>, a: NodeState, t: Threads)
    requires me in Ids(count) && ThreadsInv(count, me, issued, taken, a, t) && t.at.InAccept?
    ensures t.at.s in taken || AcceptStep(t.node, count, t.at.n, t.at.s, t.at.v, t.at.held).at.CallingSelf?
  {
    var s := t.at.s;
    assert SlotInv(count, me, issued, taken, s, a.slots[s]);
    if s < t.node.cseq {
      assert Kept(count, a, t.node, s);
    }
  }

  /** The votes stay, or the accepted number is voted for. */
  lemma VotesNow(count: nat, me: Mac, t: Threads, e: ThreadEvent)
    requires QueueInv(t.node) && Interleaving.Enabled(t, e)
    ensures var votes := Interleaving.Next(t, count, me, e).node.votes;
            votes == if TakesOn(count, t, e) then t.node.votes + {Vote(t.at.n, t.at.s, t.at.v)} else t.node.votes
  {
    match e
    case Background(n, ready) => PumpDelivers(t.node, n, ready);
    case Continue(ready) =>
      if t.at.Processing? {
        PumpDelivers(t.node, t.at.n, ready);
      }
    case _ =>
  }

  /** The step accepts a value. */
  predicate TakesOn(count: nat, t: Threads, e: ThreadEvent) {
    e.Continue? && t.at.InAccept? && AcceptStep(t.node, count, t.at.n, t.at.s, t.at.v, t.at.held).at.CallingSelf?
  }

  lemma VotesStep(count: nat, me: Mac, issued: Issued, taken: set<int>, a: NodeState, t: Threads, e: ThreadEvent)
    requires me in Ids(count) && ThreadsInv(count, me, issued, taken, a, t) && Interleaving.Enabled(t, e)
    requires VotesInv(count, issued, taken, t.node)
    ensures VotesInv(count, issued, TakenBy(taken, t, e), Interleaving.Next(t, count, me, e).node)
  {
    var node' := Interleaving.Next(t, count, me, e).node;
    VotesNow(count, me, t, e);
    if TakesOn(count, t, e) {
      VotesMore(issued, count, taken, t.node, node', t.at.s, t.at.v);
    } else {
      VotesSame(issued, count, taken, t.node, node');
      if e.Continue? && t.at.InAccept? {
        NotAcceptedTaken(count, me, issued, taken, a, t);
        assert taken + {t.at.s} == taken;
      }
    }
  }

  // ---- A switch and its history ----

  ghost predicate Facts(count: nat, me: Mac, issued: Issued, p: Place, a: NodeState) {
    && ThreadsInv(count, me, issued, p.taken, a, p.threads)
    && LearnsNoted(a, p.heard) && VotesInv(count, issued, p.taken, p.threads.node)
    && HearsItself(me, p.taken, p.heard, p.threads.at) && FromFrame(p.threads.at)
  }

  lemma StepFacts(count: nat, me: Mac, issued: Issued, p: Place, a: NodeState, e: ThreadEvent)
    requires count <= 4 && me in Ids(count) && Facts(count, me, issued, p, a)
    requires Interleaving.Steps(count, me, issued, p.taken, p.threads, e)
    ensures Facts(count, me, issued, Moved(count, me, p, e), Alone(count, a, p.threads, e))
  {
    Interleaving.StepSteady(count, me, issued, p.taken, a, p.threads, e);
    NotedStep(count, me, issued, p.taken, a, p.heard, p.threads, e);
    VotesStep(count, me, issued, p.taken, a, p.threads, e);
    if e.Continue? && p.threads.at.InAccept? {
      NotAcceptedTaken(count, me, issued, p.taken, a, p.threads);
    }
    SelfStep(count, me, p.taken, p.heard, p.threads, e);
    FrameStep(count, me, p.threads, e);
  }

  lemma FrameStep(count: nat, me: Mac, t: Threads, e: ThreadEvent)
    requires FromFrame(t.at) && Interleaving.Enabled(t, e)
    ensures FromFrame(Interleaving.Next(t, count, me, e).at)
  {
  }

  lemma {:induction false} PlaceFacts(count: nat, me: Mac, issued: Issued, p: Place) returns (a: NodeState)
    requires 1 <= count <= 4 && me in Ids(count) && PlaceFine(count, me, issued, p)
    ensures Facts(count, me, issued, p, a)
    decreases |p.local|
  {
    if p.local == [] {
      a := p.threads.node;
    } else {
      var last := |p.local| - 1;
      var before := After(count, me, p.local[..last]);
      BeforeFine(count, me, issued, p);
      a := PlaceFacts(count, me, issued, before);
      assert StepFits(count, me, issued, p.local, last);
      StepFacts(count, me, issued, before, a, p.local[last]);
      a := Alone(count, a, before.threads, p.local[last]);
    }
  }
}
