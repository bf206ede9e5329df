/**
 The locked regions of the thread registry, as loops over the fixed table of slots.
 Each is proved equal to the functions that the interleaving model steps with.
 */
module ThreadTable {
  import opened Options
  import opened Threads

  class Table {
    const slots: array<Slot>
    var nextId: nat
    var stopping: bool

    ghost function Registered(): Registry
      reads this, slots
    {
      Registry(slots[..], nextId, stopping)
    }

    constructor (capacity: nat)
      ensures fresh(slots) && Registered() == Initial(capacity).reg
    {
      var table := new Slot[capacity](i => FREE);
      slots := table;
      nextId, stopping := 1, false;
      new;
      assert slots[..] == seq(capacity, i => FREE);
    }

    /** Claims a slot for a new thread; none when shutting down, full, or out of IDs. */
    method ClaimSlot(a: nat) returns (r: Option<nat>)
      modifies this, slots
      ensures match Claim(old(Registered()), a)
        case None => r == None && Registered() == old(Registered())
        case Some((reg, i)) => r == Some(i) && Registered() == reg
    {
      if stopping {
        return None;
      }
      var slot := 0;
      while slot < slots.Length && slots[slot].inUse
        invariant 0 <= slot <= slots.Length
        invariant FirstFree(slots[..], 0) == FirstFree(slots[..], slot)
      {
        slot := slot + 1;
      }
      assert FirstFree(slots[..], slot) == slot;
      if slot == slots.Length || nextId == 0 {
        return None;
      }
      slots[slot] := FREE.(inUse := true, creating := true, id := nextId, owner := Some(a));
      nextId := (nextId + 1) % SIZE;
      r := Some(slot);
    }

    /** Claims the thread for joining, unless it is unknown, already claimed, or the caller itself. */
    method ClaimJoin(a: nat, caller: Option<nat>, id: nat) returns (r: Option<nat>)
      modifies slots
      ensures nextId == old(nextId) && stopping == old(stopping)
      ensures var i := LastJoinable(old(slots[..]), id, slots.Length);
        if i.None? || caller == i then r == None && slots[..] == old(slots[..])
        else
          && r == i
          && slots[..] == old(slots[..])[i.value := old(slots[..])[i.value].(joining := true, owner := Some(a))]
    {
      var runner: Option<nat> := None;
      for i := 0 to slots.Length
        invariant slots[..] == old(slots[..])
        invariant runner == LastJoinable(old(slots[..]), id, i)
      {
        if slots[i].inUse && slots[i].id == id && !slots[i].creating && !slots[i].joining {
          runner := Some(i);
        }
      }
      if runner.Some? && caller == runner {
        runner := None;
      }
      if runner.Some? {
        slots[runner.value] := slots[runner.value].(joining := true, owner := Some(a));
      }
      r := runner;
    }

    /** Counts the slots in use and picks one that nobody has claimed. */
    method PollTable() returns (remaining: nat, id: nat)
      ensures (remaining, id) == Poll(slots[..], slots.Length)
    {
      remaining, id := 0, 0;
      for i := 0 to slots.Length
        invariant (remaining, id) == Poll(slots[..], i)
      {
        if slots[i].inUse {
          remaining := remaining + 1;
          if !slots[i].creating && !slots[i].joining {
            id := slots[i].id;
          }
        }
      }
    }

    /** Refuses new threads from now on, and says whether any worker must be told. */
    method BeginShutdown() returns (notify: bool)
      modifies this
      ensures Registered() == old(Registered()).(stopping := true)
      ensures notify <==> Poll(slots[..], slots.Length).0 > 0
    {
      stopping := true;
      notify := false;
      for i := 0 to slots.Length
        invariant Registered() == old(Registered()).(stopping := true)
        invariant notify <==> exists j | 0 <= j < i :: slots[j].inUse
      {
        if slots[i].inUse {
          notify := true;
        }
      }
    }
  }
}
