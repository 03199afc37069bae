/**
 The steps of module Interleaving on the controller's objects. A handler holds its slot object; once the object is
 collected, what the handler writes to it no longer shows in the table.
 */
module InterleavedObjects {
  import opened Addresses
  import opened Interleaving
  import opened PaxosController
  import opened PaxosMessage
  import opened SlotQueue
  import opened Wrappers

  /** `slot` is what the handler got for number `s`: still in the table, or taken out of it meanwhile. */
  ghost predicate Holds(c: Controller, s: int, slot: Slot, held: Held)
    reads c, c.slots, c.slots.slots.Values, slot
  {
    && c.Valid()
    && match held
       case InTable => s in c.slots.slots && c.slots.slots[s] == slot
       case Collected(state) => slot !in c.slots.slots.Values && slot.State() == state
  }

  /** `get_slot`, at the start of either handler. */
  method TakeSlot(c: Controller, s: int) returns (slot: Slot)
    requires c.Valid()
    modifies c.slots`slots
    ensures Holds(c, s, slot, InTable) && c.State() == Got(old(c.State()), |c.N|, s)
    ensures fresh(c.slots.slots.Values - old(c.slots.slots.Values))
  {
    slot := c.SlotFor(s);
  }

  lemma HeldSlot(c: Controller, s: int, slot: Slot, held: Held)
    requires Holds(c, s, slot, held)
    ensures SlotOf(c.State(), |c.N|, s, held) == slot.State()
  {
  }

  ghost predicate InHand(c: Controller, s: int, slot: Slot, held: Held)
    reads c, c.slots
  {
    if held.InTable? then s in c.slots.slots && c.slots.slots[s] == slot else slot !in c.slots.slots.Values
  }

  /** If no other slot object has changed since the table looked like `view`, what was written to the slot in hand
      shows in it exactly if it is still there. */
  lemma WriteShows(c: Controller, s: int, slot: Slot, held: Held, view: map<int, SlotState>)
    requires c.slots.Valid() && InHand(c, s, slot, held) && view.Keys == c.slots.slots.Keys
    requires forall t | t in c.slots.slots && c.slots.slots[t] != slot :: view[t] == c.slots.slots[t].State()
    ensures c.slots.View() == if held.InTable? then view[s := slot.State()] else view
  {
    assert forall t | t in c.slots.slots && (held.Collected? || t != s) :: c.slots.slots[t] != slot;
    var shown := if held.InTable? then view[s := slot.State()] else view;
    assert c.slots.View().Keys == shown.Keys;
    assert forall t | t in c.slots.slots :: c.slots.View()[t] == shown[t];
  }

  /** `on_accept` with its slot in hand, up to the LEARNs. */
  method AcceptHeld(c: Controller, s: int, slot: Slot, n: int, v: Bytes, ghost held: Held) returns (accepted: bool)
    requires Holds(c, s, slot, held)
    modifies c`crnd, c`votes, slot
    ensures c.Valid()
    ensures Threads(c.State(), if accepted then CallingSelf(n, s) else Idle)
            == AcceptStep(old(c.State()), |c.N|, n, s, v, held)
  {
    HeldSlot(c, s, slot, held);
    accepted := n >= c.crnd && slot.vrnd != Some(n);
    if accepted {
      c.crnd := n;
      c.votes := c.votes + {Vote(n, s, v)};
      slot.vrnd := Some(n);
      slot.vval := Some(v);
      WriteShows(c, s, slot, held, old(c.slots.View()));
      SameQueue(old(c.State()), c.State());
    }
  }

  /** A slot that is learned, past the round, or has heard from `src` in it, does not count the LEARN. */
  method CountHeld(slot: Slot, src: Mac, n: int) returns (counted: bool)
    modifies slot
    ensures var before := old(slot.State());
            && (counted <==> !(Learned(before) || n < before.hrnd || (n == before.hrnd && src in before.learns)))
            && slot.State() == if counted then CountLearn(before, src, n) else before
  {
    var learned := slot.IsLearned();
    if learned || n < slot.hrnd {
      return false;
    }
    counted := slot.Count(src, n);
  }

  /** `on_learn` with its slot in hand, up to the queue. */
  method LearnHeld(c: Controller, s: int, slot: Slot, src: Mac, n: int, ghost held: Held) returns (counted: bool)
    requires Holds(c, s, slot, held)
    modifies slot
    ensures c.Valid()
    ensures Threads(c.State(), if counted then Processing(n) else Idle)
            == LearnStep(old(c.State()), |c.N|, src, n, s, held)
  {
    HeldSlot(c, s, slot, held);
    counted := CountHeld(slot, src, n);
    WriteShows(c, s, slot, held, old(c.slots.View()));
    SameQueue(old(c.State()), c.State());
    assert !counted ==> c.slots.View() == old(c.slots.View());
  }

  /** `garbage_collect` meanwhile. */
  method EvictMeanwhile(c: Controller, s: int, slot: Slot, n: int, ghost held: Held)
    requires Holds(c, s, slot, held)
    modifies c.slots`slots
    ensures Holds(c, s, slot, AfterEvict(held, old(c.State()), |c.N|, n, s))
    ensures c.State() == Collect(old(c.State()), n)
  {
    c.slots.GarbageCollect(n);
    assert c.State().slots == Collect(old(c.State()), n).slots;
    SameQueue(old(c.State()), c.State());
    assert forall t | t in c.slots.slots && c.slots.slots[t] == slot :: t == s && held.InTable?;
    assert held.InTable? ==> old(c.slots.View())[s] == old(slot.State());
    assert s in c.slots.slots <==> s in Collect(old(c.State()), n).slots;
  }
}
