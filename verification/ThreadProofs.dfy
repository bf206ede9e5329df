/**
 The invariant of the thread registry holds in every interleaving.
 */
module ThreadProofs {
  import opened Options
  import opened Threads

  // ---------------------------------------------------------------- one slot and one task change

  /** Only slot `i` and task `a` differ, and the slot was free, unclaimed, or claimed by `a`. */
  ghost predicate Local(s: State, t: State, a: nat, i: nat) {
    && i < |s.reg.slots| == |t.reg.slots|
    && (forall j | 0 <= j < |s.reg.slots| && j != i :: t.reg.slots[j] == s.reg.slots[j])
    && (forall b | b != a :: (b in t.tasks <==> b in s.tasks) && (b in s.tasks ==> t.tasks[b] == s.tasks[b]))
    && (s.reg.slots[i].owner == None || s.reg.slots[i].owner == Some(a))
    && (a in s.tasks && HasSlot(s.tasks[a].op) ==> s.tasks[a].op.slot == i)
  }

  /** IDs and replies already recorded stay. */
  ghost predicate Kept(s: State, t: State) {
    && (forall id | id in s.place :: id in t.place && t.place[id] == s.place[id])
    && (forall id | id in s.replied :: id in t.replied && t.replied[id] == s.replied[id])
  }

  lemma OtherSlot(s: State, t: State, a: nat, i: nat, j: nat)
    requires Control(s) && Local(s, t, a, i) && Kept(s, t) && j < |s.reg.slots| && j != i
    requires s.reg.slots[j].id !in s.replied ==> s.reg.slots[j].id !in t.replied
    ensures SlotOk(t, j) && forall k :: Held(t, j, k) == Held(s, j, k)
  {
    assert SlotOk(s, j);
  }

  lemma TaskSlot(s: State, b: nat)
    requires Control(s) && b in s.tasks
    ensures OpOk(s, b) && CallerOk(s, b)
    ensures At(s, b) ==> SlotOk(s, s.tasks[b].op.slot) && s.reg.slots[s.tasks[b].op.slot].owner == Some(b)
    ensures HasSlot(s.tasks[b].op) ==> At(s, b)
    ensures ForShutdown(s.tasks[b].op) ==> s.reg.stopping && s.tasks[b].caller.None?
  {
  }

  lemma OtherTask(s: State, t: State, a: nat, i: nat, b: nat)
    requires Control(s) && Local(s, t, a, i) && Kept(s, t) && b in s.tasks && b != a
    requires s.reg.slots[i].worker.Running? ==> t.reg.slots[i].worker.Running? || s.tasks[b].caller != Some(i)
    ensures OpOk(t, b) && CallerOk(t, b)
  {
    TaskSlot(s, b);
    hide Control, SlotOk;
    if HasSlot(s.tasks[b].op) {
      assert s.tasks[b].op.slot != i;
    }
  }

  /** What remains to be shown of a step that changes one slot and one task. */
  ghost predicate Changed(s: State, t: State, a: nat, i: nat)
    requires Local(s, t, a, i)
  {
    && SlotOk(t, i)
    && (a in t.tasks ==> OpOk(t, a) && CallerOk(t, a))
    && (s.reg.slots[i].worker.Running? ==>
          || t.reg.slots[i].worker.Running?
          || forall b | b in s.tasks :: s.tasks[b].caller != Some(i))
    && (t.reg.slots[i].inUse ==> s.reg.slots[i].inUse)
    && (a in t.tasks && ForShutdown(t.tasks[a].op) ==> t.reg.stopping && t.tasks[a].caller.None?)
    && t.reg.nextId == s.reg.nextId && t.reg.stopping == s.reg.stopping && t.place == s.place && t.drained == s.drained
    && (forall id | id in t.replied :: id in s.replied || (id == s.reg.slots[i].id && id in s.place))
  }

  lemma ChangedControl(s: State, t: State, a: nat, i: nat)
    requires Control(s) && Local(s, t, a, i) && Kept(s, t) && Changed(s, t, a, i)
    ensures Control(t)
  {
    hide SlotOk, OpOk, CallerOk, ForShutdown;
    forall j | 0 <= j < |t.reg.slots| ensures SlotOk(t, j) {
      if j != i {
        Distinct(s, i, j);
        OtherSlot(s, t, a, i, j);
      }
    }
    forall b | b in t.tasks ensures OpOk(t, b) && CallerOk(t, b) {
      if b != a {
        OtherTask(s, t, a, i, b);
      }
    }
  }

  /** Two slots never carry the same ID. */
  lemma Distinct(s: State, i: nat, j: nat)
    requires Control(s) && i < |s.reg.slots| && j < |s.reg.slots| && i != j
    ensures s.reg.slots[i].id == s.reg.slots[j].id ==> s.reg.slots[i].id == 0 && s.reg.slots[i].id !in s.place
  {
    assert SlotOk(s, i) && SlotOk(s, j);
  }

  lemma AcquireSlot(s: State, a: nat, got: bool)
    requires At(s, a) && OpOk(s, a) && SlotOk(s, s.tasks[a].op.slot) && DoAcquire(s, a, got).Some?
    ensures SlotOk(DoAcquire(s, a, got).value, s.tasks[a].op.slot)
  {
  }

  lemma AcquireOp(s: State, a: nat, got: bool)
    requires At(s, a) && OpOk(s, a) && DoAcquire(s, a, got).Some?
    ensures a in DoAcquire(s, a, got).value.tasks && OpOk(DoAcquire(s, a, got).value, a)
  {
  }

  lemma AcquireControl(s: State, a: nat, got: bool)
    requires Control(s) && DoAcquire(s, a, got).Some?
    ensures Control(DoAcquire(s, a, got).value)
  {
    hide Control, OpOk, SlotOk, KindAt, Local, Kept;
    var i := s.tasks[a].op.slot;
    TaskSlot(s, a);
    AcquireSlot(s, a, got);
    AcquireOp(s, a, got);
    AcquireLocal(s, a, got);
    ChangedControl(s, DoAcquire(s, a, got).value, a, i);
  }

  lemma AcquireLocal(s: State, a: nat, got: bool)
    requires Control(s) && DoAcquire(s, a, got).Some?
    ensures Local(s, DoAcquire(s, a, got).value, a, s.tasks[a].op.slot) && Kept(s, DoAcquire(s, a, got).value)
  {
    TaskSlot(s, a);
    hide Control, OpOk, SlotOk, KindAt;
  }

  lemma FailControl(s: State, a: nat)
    requires Control(s) && DoFail(s, a).Some?
    ensures Control(DoFail(s, a).value)
  {
    var i := s.tasks[a].op.slot;
    TaskSlot(s, a);
    hide Control;
    ChangedControl(s, DoFail(s, a).value, a, i);
  }

  lemma StartLocal(s: State, a: nat)
    requires Control(s) && DoStart(s, a).Some?
    ensures Local(s, DoStart(s, a).value, a, s.tasks[a].op.slot) && Kept(s, DoStart(s, a).value)
  {
    TaskSlot(s, a);
    hide Control, OpOk, SlotOk, KindAt;
  }

  lemma StartControl(s: State, a: nat)
    requires Control(s) && DoStart(s, a).Some?
    ensures Control(DoStart(s, a).value)
  {
    var i := s.tasks[a].op.slot;
    StartLocal(s, a);
    TaskSlot(s, a);
    hide Control, KindAt, Rank, Local, Kept;
    ChangedControl(s, DoStart(s, a).value, a, i);
  }

  lemma SetHandleLocal(s: State, a: nat)
    requires Control(s) && DoSetHandle(s, a).Some?
    ensures Local(s, DoSetHandle(s, a).value, a, s.tasks[a].op.slot) && Kept(s, DoSetHandle(s, a).value)
  {
    TaskSlot(s, a);
    hide Control, OpOk, SlotOk, KindAt;
  }

  lemma SetHandleControl(s: State, a: nat)
    requires Control(s) && DoSetHandle(s, a).Some?
    ensures Control(DoSetHandle(s, a).value)
  {
    var i := s.tasks[a].op.slot;
    SetHandleLocal(s, a);
    TaskSlot(s, a);
    hide Control, KindAt, Rank, Local, Kept;
    ChangedControl(s, DoSetHandle(s, a).value, a, i);
  }

  lemma PublishControl(s: State, a: nat)
    requires Control(s) && DoPublish(s, a).Some?
    ensures Control(DoPublish(s, a).value)
  {
    var i := s.tasks[a].op.slot;
    TaskSlot(s, a);
    hide Control;
    ChangedControl(s, DoPublish(s, a).value, a, i);
  }

  lemma WaitDoneLocal(s: State, a: nat)
    requires Control(s) && DoWaitDone(s, a).Some?
    ensures Local(s, DoWaitDone(s, a).value, a, s.tasks[a].op.slot) && Kept(s, DoWaitDone(s, a).value)
  {
    TaskSlot(s, a);
    hide Control, OpOk, SlotOk, KindAt;
  }

  lemma WaitDoneControl(s: State, a: nat)
    requires Control(s) && DoWaitDone(s, a).Some?
    ensures Control(DoWaitDone(s, a).value)
  {
    var i := s.tasks[a].op.slot;
    WaitDoneLocal(s, a);
    TaskSlot(s, a);
    hide Control, KindAt, Rank, Local, Kept;
    ChangedControl(s, DoWaitDone(s, a).value, a, i);
  }

  lemma WaitFailedLocal(s: State, a: nat)
    requires Control(s) && DoWaitFailed(s, a).Some?
    ensures Local(s, DoWaitFailed(s, a).value, a, s.tasks[a].op.slot) && Kept(s, DoWaitFailed(s, a).value)
  {
    TaskSlot(s, a);
    hide Control, OpOk, SlotOk, KindAt;
  }

  lemma WaitFailedControl(s: State, a: nat)
    requires Control(s) && DoWaitFailed(s, a).Some?
    ensures Control(DoWaitFailed(s, a).value)
  {
    var i := s.tasks[a].op.slot;
    WaitFailedLocal(s, a);
    TaskSlot(s, a);
    hide Control, KindAt, Rank, Local, Kept;
    ChangedControl(s, DoWaitFailed(s, a).value, a, i);
  }

  lemma UnclaimLocal(s: State, a: nat)
    requires Control(s) && DoUnclaim(s, a).Some?
    ensures Local(s, DoUnclaim(s, a).value, a, s.tasks[a].op.slot) && Kept(s, DoUnclaim(s, a).value)
  {
    TaskSlot(s, a);
    hide Control, OpOk, SlotOk, KindAt;
  }

  lemma UnclaimControl(s: State, a: nat)
    requires Control(s) && DoUnclaim(s, a).Some?
    ensures Control(DoUnclaim(s, a).value)
  {
    var i := s.tasks[a].op.slot;
    UnclaimLocal(s, a);
    TaskSlot(s, a);
    hide Control, KindAt, Rank, Local, Kept;
    ChangedControl(s, DoUnclaim(s, a).value, a, i);
  }

  lemma FreeLocal(s: State, a: nat)
    requires Control(s) && DoFree(s, a).Some?
    ensures Local(s, DoFree(s, a).value, a, s.tasks[a].op.slot) && Kept(s, DoFree(s, a).value)
  {
    TaskSlot(s, a);
    hide Control, OpOk, SlotOk, KindAt;
  }

  lemma FreeControl(s: State, a: nat)
    requires Control(s) && DoFree(s, a).Some?
    ensures Control(DoFree(s, a).value)
  {
    var i := s.tasks[a].op.slot;
    FreeLocal(s, a);
    TaskSlot(s, a);
    hide Control, KindAt, Rank, Local, Kept;
    ChangedControl(s, DoFree(s, a).value, a, i);
  }

  lemma ResetLocal(s: State, a: nat)
    requires Control(s) && DoReset(s, a).Some?
    ensures Local(s, DoReset(s, a).value, a, s.tasks[a].op.slot) && Kept(s, DoReset(s, a).value)
  {
    TaskSlot(s, a);
    hide Control, OpOk, SlotOk, KindAt;
  }

  lemma ResetControl(s: State, a: nat)
    requires Control(s) && DoReset(s, a).Some?
    ensures Control(DoReset(s, a).value)
  {
    var i := s.tasks[a].op.slot;
    ResetLocal(s, a);
    TaskSlot(s, a);
    hide Control, KindAt, Rank, Local, Kept;
    ChangedControl(s, DoReset(s, a).value, a, i);
  }

  lemma FreshId(s: State)
    requires Control(s) && s.reg.nextId != 0
    ensures s.reg.nextId !in s.place && s.reg.nextId !in s.replied
  {
  }

  lemma CreateControl(s: State, a: nat, caller: Option<nat>)
    requires Control(s) && DoCreate(s, a, caller).Some?
    ensures Control(DoCreate(s, a, caller).value)
  {
    var t := DoCreate(s, a, caller).value;
    var i := FirstFree(s.reg.slots, 0);
    FreshId(s);
    assert SlotOk(s, i);
    CreateOthers(s, a, caller);
    hide OpOk, CallerOk, SlotOk, ForShutdown;
    assert a in t.tasks && t.tasks[a].op == Creating(i, s.reg.nextId, 0);
    CreateOwn(s, a, caller);
    NextBelow(s.reg.nextId);
    assert s.reg.slots[i].inUse == false;
  }

  lemma NextBelow(n: nat)
    requires 0 < n < SIZE
    ensures var m := (n + 1) % SIZE; m < SIZE && (m == 0 || m == n + 1)
  {
  }

  lemma CreateOwn(s: State, a: nat, caller: Option<nat>)
    requires Control(s) && DoCreate(s, a, caller).Some?
    ensures var t := DoCreate(s, a, caller).value;
      var i := FirstFree(s.reg.slots, 0);
      i < |t.reg.slots| && a in t.tasks && SlotOk(t, i) && OpOk(t, a) && CallerOk(t, a) && !ForShutdown(t.tasks[a].op)
  {
    FreshId(s);
    assert SlotOk(s, FirstFree(s.reg.slots, 0));
  }

  lemma CreateOthers(s: State, a: nat, caller: Option<nat>)
    requires Control(s) && DoCreate(s, a, caller).Some?
    ensures var t := DoCreate(s, a, caller).value;
      var i := FirstFree(s.reg.slots, 0);
      && (forall j | 0 <= j < |t.reg.slots| && j != i :: SlotOk(t, j))
      && (forall b | b in s.tasks :: b in t.tasks && OpOk(t, b) && CallerOk(t, b))
  {
    var t := DoCreate(s, a, caller).value;
    var i := FirstFree(s.reg.slots, 0);
    FreshId(s);
    assert SlotOk(s, i);
    assert Local(s, t, a, i) && Kept(s, t);
    forall j | 0 <= j < |t.reg.slots| && j != i ensures SlotOk(t, j) {
      OtherSlot(s, t, a, i, j);
    }
    forall b | b in s.tasks ensures b in t.tasks && OpOk(t, b) && CallerOk(t, b) {
      OtherTask(s, t, a, i, b);
    }
  }

  lemma JoinControl(s: State, a: nat, caller: Option<nat>, id: nat)
    requires Control(s) && DoJoin(s, a, caller, id).Some?
    ensures Control(DoJoin(s, a, caller, id).value)
  {
    hide Control, Local, Kept, LastJoinable;
    var i := LastJoinable(s.reg.slots, id, |s.reg.slots|).value;
    SlotOf(s, i);
    JoinLocal(s, a, caller, id);
    ChangedControl(s, DoJoin(s, a, caller, id).value, a, i);
  }

  lemma JoinLocal(s: State, a: nat, caller: Option<nat>, id: nat)
    requires Control(s) && DoJoin(s, a, caller, id).Some?
    ensures var i := LastJoinable(s.reg.slots, id, |s.reg.slots|).value;
      Local(s, DoJoin(s, a, caller, id).value, a, i) && Kept(s, DoJoin(s, a, caller, id).value)
  {
    var i := LastJoinable(s.reg.slots, id, |s.reg.slots|).value;
    SlotOf(s, i);
    hide Control, LastJoinable;
  }

  lemma DrainJoinSome(s: State, a: nat)
    requires Control(s) && DoDrainJoin(s, a).Some?
    requires var r := LastJoinable(s.reg.slots, s.tasks[a].op.wanted, |s.reg.slots|); r.Some?
    ensures var t := DoDrainJoin(s, a).value;
      var i := LastJoinable(s.reg.slots, s.tasks[a].op.wanted, |s.reg.slots|).value;
      && Local(s, t, a, i) && Kept(s, t) && Changed(s, t, a, i) && SlotOk(s, i)
      && t.live == s.live && t.freed == s.freed && t.joins == s.joins
      && t.reg.slots[i].id == s.reg.slots[i].id && t.reg.slots[i].fields == s.reg.slots[i].fields
      && forall k :: Held(t, i, k) == Held(s, i, k)
  {
    var i := LastJoinable(s.reg.slots, s.tasks[a].op.wanted, |s.reg.slots|).value;
    TaskSlot(s, a);
    SlotOf(s, i);
    hide Control, LastJoinable;
  }

  lemma DrainJoinControl(s: State, a: nat)
    requires Control(s) && DoDrainJoin(s, a).Some?
    ensures Control(DoDrainJoin(s, a).value)
  {
    var t := DoDrainJoin(s, a).value;
    var r := LastJoinable(s.reg.slots, s.tasks[a].op.wanted, |s.reg.slots|);
    if r.Some? {
      DrainJoinSome(s, a);
      hide *;
      ChangedControl(s, t, a, r.value);
    } else {
      TaskSlot(s, a);
      TasksControl(s, t, a);
    }
  }

  lemma ExitTask(s: State, i: nat, reply: Option<string>, b: nat)
    requires Control(s) && DoExit(s, i, reply).Some? && b in s.tasks
    ensures OpOk(DoExit(s, i, reply).value, b) && CallerOk(DoExit(s, i, reply).value, b)
  {
    TaskSlot(s, b);
    assert SlotOk(s, i);
    hide Control;
  }

  lemma ExitSlot(s: State, i: nat, reply: Option<string>, j: nat)
    requires Control(s) && DoExit(s, i, reply).Some? && j < |s.reg.slots|
    ensures SlotOk(DoExit(s, i, reply).value, j)
  {
    assert SlotOk(s, i) && SlotOk(s, j);
    if i != j {
      Distinct2(s, i, j);
    }
    hide Control;
  }

  lemma Distinct2(s: State, i: nat, j: nat)
    requires Control(s) && i < |s.reg.slots| && j < |s.reg.slots| && i != j && s.reg.slots[i].inUse
    ensures s.reg.slots[i].id != s.reg.slots[j].id
  {
    assert SlotOk(s, i) && SlotOk(s, j);
  }

  lemma ExitControl(s: State, i: nat, reply: Option<string>)
    requires Control(s) && DoExit(s, i, reply).Some?
    ensures Control(DoExit(s, i, reply).value)
  {
    var t := DoExit(s, i, reply).value;
    assert SlotOk(s, i);
    forall j | 0 <= j < |t.reg.slots| ensures SlotOk(t, j) {
      ExitSlot(s, i, reply, j);
    }
    forall b | b in t.tasks ensures OpOk(t, b) && CallerOk(t, b) {
      ExitTask(s, i, reply, b);
    }
    hide OpOk, CallerOk, SlotOk, ForShutdown;
  }

  /** Steps that change one task without a slot, and nothing else but the stop flag. */
  lemma TasksControl(s: State, t: State, a: nat)
    requires Control(s) && t.place == s.place && t.replied == s.replied && t.reg.slots == s.reg.slots
      && t.reg.nextId == s.reg.nextId
    requires a in s.tasks ==> !HasSlot(s.tasks[a].op)
    requires forall b | b != a :: (b in t.tasks <==> b in s.tasks) && (b in s.tasks ==> t.tasks[b] == s.tasks[b])
    requires a in t.tasks ==> !HasSlot(t.tasks[a].op) && t.tasks[a].caller.None? && t.reg.stopping
    requires s.reg.stopping ==> t.reg.stopping
    requires t.drained ==> t.reg.stopping && forall i | 0 <= i < |s.reg.slots| :: !s.reg.slots[i].inUse
    ensures Control(t)
  {
    hide SlotOk, OpOk, CallerOk, ForShutdown;
    forall j | 0 <= j < |t.reg.slots| ensures SlotOk(t, j) {
      SameSlot(s, t, a, j);
    }
    forall b | b in t.tasks ensures OpOk(t, b) && CallerOk(t, b) {
      if b == a {
        NoSlotOk(t, a);
      } else {
        SameTask(s, t, b);
      }
    }
  }

  lemma SameSlot(s: State, t: State, a: nat, j: nat)
    requires j < |s.reg.slots| && SlotOk(s, j) && t.place == s.place && t.replied == s.replied
      && t.reg.slots == s.reg.slots
    requires a in s.tasks ==> !HasSlot(s.tasks[a].op)
    requires forall b | b != a && b in s.tasks :: b in t.tasks && t.tasks[b] == s.tasks[b]
    ensures SlotOk(t, j)
  {
  }

  lemma SameTask(s: State, t: State, b: nat)
    requires b in s.tasks && b in t.tasks && OpOk(s, b) && CallerOk(s, b) && t.tasks[b] == s.tasks[b]
    requires t.replied == s.replied && t.reg.slots == s.reg.slots
    ensures OpOk(t, b) && CallerOk(t, b)
  {
  }

  lemma NoSlotOk(t: State, a: nat)
    requires a in t.tasks && !HasSlot(t.tasks[a].op) && t.tasks[a].caller.None?
    ensures OpOk(t, a) && CallerOk(t, a)
  {
  }

  lemma ShutdownControl(s: State, a: nat)
    requires Control(s) && DoShutdown(s, a).Some?
    ensures Control(DoShutdown(s, a).value)
  {
    TasksControl(s, DoShutdown(s, a).value, a);
  }

  lemma PollSlotsControl(s: State, a: nat)
    requires Control(s) && DoPollSlots(s, a).Some?
    ensures Control(DoPollSlots(s, a).value)
  {
    TaskSlot(s, a);
    TasksControl(s, DoPollSlots(s, a).value, a);
  }

  /** IDs stay in their slots, apart from a free slot that gets a fresh one; no join ends. */
  ghost predicate IdsKept(s: State, t: State) {
    && Kept(s, t) && t.joins == s.joins && |t.reg.slots| == |s.reg.slots|
    && (forall j | 0 <= j < |s.reg.slots| ::
          || t.reg.slots[j].id == s.reg.slots[j].id
          || (t.reg.slots[j].id !in s.place && !s.reg.slots[j].inUse))
  }

  // ---------------------------------------------------------------- resources

  /** Nothing changes about what slots hold. */
  lemma OwnedSame(s: State, t: State)
    requires Owned(s) && |t.reg.slots| == |s.reg.slots| && t.place == s.place && t.live == s.live && t.freed == s.freed
    requires forall j | 0 <= j < |s.reg.slots| ::
      t.reg.slots[j].id == s.reg.slots[j].id && t.reg.slots[j].fields == s.reg.slots[j].fields
    requires forall j, k | 0 <= j < |s.reg.slots| :: Held(t, j, k) == Held(s, j, k)
    ensures Owned(t)
  {
    hide Held;
  }

  /** A step on one slot leaves what other slots hold. */
  lemma HeldElsewhere(s: State, t: State, a: nat, i: nat)
    requires Control(s) && Local(s, t, a, i)
    ensures forall j, k | 0 <= j < |s.reg.slots| && j != i :: Held(t, j, k) == Held(s, j, k)
  {
    forall j, k | 0 <= j < |s.reg.slots| && j != i ensures Held(t, j, k) == Held(s, j, k) {
      assert SlotOk(s, j);
    }
  }

  /** Steps on one slot that keep its ID, fields, and how far its deletion is. */
  lemma OwnedKept(s: State, t: State, a: nat, i: nat)
    requires Control(s) && Owned(s) && Local(s, t, a, i) && t.place == s.place && t.live == s.live && t.freed == s.freed
    requires t.reg.slots[i].id == s.reg.slots[i].id && t.reg.slots[i].fields == s.reg.slots[i].fields
    requires forall k :: Held(t, i, k) == Held(s, i, k)
    ensures Owned(t)
  {
    HeldElsewhere(s, t, a, i);
    hide Control, Held;
    OwnedSame(s, t);
  }

  lemma SlotOf(s: State, i: nat)
    requires Control(s) && i < |s.reg.slots|
    ensures SlotOk(s, i) && s.reg.slots[i].id < SIZE
  {
  }

  lemma FailOwned(s: State, a: nat)
    requires Control(s) && Owned(s) && DoFail(s, a).Some?
    ensures Owned(DoFail(s, a).value) && IdsKept(s, DoFail(s, a).value)
  {
    TaskSlot(s, a);
    hide Control, Owned;
    OwnedKept(s, DoFail(s, a).value, a, s.tasks[a].op.slot);
  }

  lemma StartOwned(s: State, a: nat)
    requires Control(s) && Owned(s) && DoStart(s, a).Some?
    ensures Owned(DoStart(s, a).value) && IdsKept(s, DoStart(s, a).value)
  {
    StartLocal(s, a);
    TaskSlot(s, a);
    hide Control, Owned, Local;
    OwnedKept(s, DoStart(s, a).value, a, s.tasks[a].op.slot);
  }

  lemma SetHandleOwned(s: State, a: nat)
    requires Control(s) && Owned(s) && DoSetHandle(s, a).Some?
    ensures Owned(DoSetHandle(s, a).value) && IdsKept(s, DoSetHandle(s, a).value)
  {
    SetHandleLocal(s, a);
    TaskSlot(s, a);
    hide Control, Owned, Local;
    OwnedKept(s, DoSetHandle(s, a).value, a, s.tasks[a].op.slot);
  }

  lemma PublishOwned(s: State, a: nat)
    requires Control(s) && Owned(s) && DoPublish(s, a).Some?
    ensures Owned(DoPublish(s, a).value) && IdsKept(s, DoPublish(s, a).value)
  {
    TaskSlot(s, a);
    hide Control, Owned;
    OwnedKept(s, DoPublish(s, a).value, a, s.tasks[a].op.slot);
  }

  lemma WaitDoneOwned(s: State, a: nat)
    requires Control(s) && Owned(s) && DoWaitDone(s, a).Some?
    ensures Owned(DoWaitDone(s, a).value) && IdsKept(s, DoWaitDone(s, a).value)
  {
    WaitDoneLocal(s, a);
    TaskSlot(s, a);
    hide Control, Owned, Local;
    OwnedKept(s, DoWaitDone(s, a).value, a, s.tasks[a].op.slot);
  }

  lemma WaitFailedOwned(s: State, a: nat)
    requires Control(s) && Owned(s) && DoWaitFailed(s, a).Some?
    ensures Owned(DoWaitFailed(s, a).value) && IdsKept(s, DoWaitFailed(s, a).value)
  {
    TaskSlot(s, a);
    hide Control, Owned;
    OwnedKept(s, DoWaitFailed(s, a).value, a, s.tasks[a].op.slot);
  }

  lemma UnclaimOwned(s: State, a: nat)
    requires Control(s) && Owned(s) && DoUnclaim(s, a).Some?
    ensures Owned(DoUnclaim(s, a).value) && IdsKept(s, DoUnclaim(s, a).value)
  {
    UnclaimLocal(s, a);
    TaskSlot(s, a);
    hide Control, Owned, Local;
    OwnedKept(s, DoUnclaim(s, a).value, a, s.tasks[a].op.slot);
  }

  lemma JoinOwned(s: State, a: nat, caller: Option<nat>, id: nat)
    requires Control(s) && Owned(s) && DoJoin(s, a, caller, id).Some?
    ensures Owned(DoJoin(s, a, caller, id).value) && IdsKept(s, DoJoin(s, a, caller, id).value)
  {
    var i := LastJoinable(s.reg.slots, id, |s.reg.slots|).value;
    SlotOf(s, i);
    hide Control, Owned;
    OwnedKept(s, DoJoin(s, a, caller, id).value, a, i);
  }

  lemma DrainJoinOwned(s: State, a: nat)
    requires Control(s) && Owned(s) && DoDrainJoin(s, a).Some?
    ensures Owned(DoDrainJoin(s, a).value) && IdsKept(s, DoDrainJoin(s, a).value)
  {
    var t := DoDrainJoin(s, a).value;
    var r := LastJoinable(s.reg.slots, s.tasks[a].op.wanted, |s.reg.slots|);
    if r.Some? {
      DrainJoinSome(s, a);
      hide Control, Owned, Held, SlotOk, Changed, LastJoinable, DoDrainJoin;
      OwnedKept(s, t, a, r.value);
    } else {
      hide Control, Owned;
      TasksOwned(s, t, a);
    }
  }

  lemma TasksOwned(s: State, t: State, a: nat)
    requires Control(s) && Owned(s) && t.place == s.place && t.live == s.live && t.freed == s.freed
      && t.reg.slots == s.reg.slots
    requires a in s.tasks ==> !HasSlot(s.tasks[a].op)
    requires forall b | b != a && b in s.tasks :: b in t.tasks && t.tasks[b] == s.tasks[b]
    ensures Owned(t)
  {
    forall j, k | 0 <= j < |s.reg.slots| ensures Held(t, j, k) == Held(s, j, k) {
      assert SlotOk(s, j);
    }
    hide Held, Control;
    OwnedSame(s, t);
  }

  lemma ShutdownOwned(s: State, a: nat)
    requires Control(s) && Owned(s) && DoShutdown(s, a).Some?
    ensures Owned(DoShutdown(s, a).value) && IdsKept(s, DoShutdown(s, a).value)
  {
    hide Control, Owned;
    TasksOwned(s, DoShutdown(s, a).value, a);
  }

  lemma PollSlotsOwned(s: State, a: nat)
    requires Control(s) && Owned(s) && DoPollSlots(s, a).Some?
    ensures Owned(DoPollSlots(s, a).value) && IdsKept(s, DoPollSlots(s, a).value)
  {
    hide Control, Owned;
    TasksOwned(s, DoPollSlots(s, a).value, a);
  }

  lemma ExitOwned(s: State, i: nat, reply: Option<string>)
    requires Control(s) && Owned(s) && DoExit(s, i, reply).Some?
    ensures Owned(DoExit(s, i, reply).value) && IdsKept(s, DoExit(s, i, reply).value)
  {
    SlotOf(s, i);
    hide Control, Owned;
    OwnedSame(s, DoExit(s, i, reply).value);
  }

  lemma CreateOwned(s: State, a: nat, caller: Option<nat>)
    requires Control(s) && Owned(s) && DoCreate(s, a, caller).Some?
    ensures Owned(DoCreate(s, a, caller).value) && IdsKept(s, DoCreate(s, a, caller).value)
  {
    var t := DoCreate(s, a, caller).value;
    var i := FirstFree(s.reg.slots, 0);
    FreshId(s);
    SlotOf(s, i);
    HeldElsewhere(s, t, a, i);
    assert forall k :: !Held(s, i, k) && !Held(t, i, k);
    PlaceFacts(s);
    hide Held, Control;
  }

  lemma PlaceFacts(s: State)
    requires Control(s)
    ensures forall id | id in s.place :: id > 0
    ensures forall j | 0 <= j < |s.reg.slots| && s.reg.slots[j].inUse ::
      s.reg.slots[j].id in s.place && s.place[s.reg.slots[j].id] == j
    ensures forall j, k | 0 <= j < |s.reg.slots| && Held(s, j, k) :: s.reg.slots[j].inUse && k in s.reg.slots[j].fields
  {
    forall j | 0 <= j < |s.reg.slots| && s.reg.slots[j].inUse
      ensures s.reg.slots[j].id in s.place && s.place[s.reg.slots[j].id] == j
    {
      SlotOf(s, j);
    }
  }

  lemma AcquireOwned(s: State, a: nat, got: bool)
    requires Control(s) && Owned(s) && DoAcquire(s, a, got).Some?
    ensures Owned(DoAcquire(s, a, got).value) && IdsKept(s, DoAcquire(s, a, got).value)
  {
    var t := DoAcquire(s, a, got).value;
    var i := s.tasks[a].op.slot;
    TaskSlot(s, a);
    hide Control, Owned, KindAt;
    if got {
      AcquireGot(s, a);
    } else {
      OwnedKept(s, t, a, i);
    }
  }

  lemma AcquireGot(s: State, a: nat)
    requires Control(s) && Owned(s) && DoAcquire(s, a, true).Some?
    ensures Owned(DoAcquire(s, a, true).value)
  {
    hide Held, Control, KindAt, OpOk, SlotOk, Local, Kept;
    var t := DoAcquire(s, a, true).value;
    TaskSlot(s, a);
    AcquireLocal(s, a, true);
    AcquireHeld(s, a);
    HeldElsewhere(s, t, a, s.tasks[a].op.slot);
    PlaceFacts(s);
  }

  lemma AcquireHeld(s: State, a: nat)
    requires Control(s) && DoAcquire(s, a, true).Some?
    ensures var t := DoAcquire(s, a, true).value;
      var i := s.tasks[a].op.slot;
      var k := KindAt(s.tasks[a].op.stage);
      k !in s.reg.slots[i].fields && i < |t.reg.slots| && forall l :: Held(t, i, l) == (Held(s, i, l) || l == k)
  {
    TaskSlot(s, a);
    hide Control;
  }

  lemma FreeOwned(s: State, a: nat)
    requires Control(s) && Owned(s) && DoFree(s, a).Some?
    ensures Owned(DoFree(s, a).value) && IdsKept(s, DoFree(s, a).value)
  {
    var t := DoFree(s, a).value;
    var i := s.tasks[a].op.slot;
    TaskSlot(s, a);
    FreeHeld(s, a);
    if KindAt(s.tasks[a].op.left - 1) in s.reg.slots[i].fields {
      HeldElsewhere(s, t, a, i);
      PlaceFacts(s);
      hide Held, Control, KindAt, OpOk, SlotOk;
    } else {
      hide Control, Owned;
      OwnedKept(s, t, a, i);
    }
  }

  lemma FreeHeld(s: State, a: nat)
    requires Control(s) && DoFree(s, a).Some?
    ensures var t := DoFree(s, a).value;
      var i := s.tasks[a].op.slot;
      var k := KindAt(s.tasks[a].op.left - 1);
      i < |t.reg.slots| && (k in s.reg.slots[i].fields ==> Held(s, i, k))
        && forall l :: Held(t, i, l) == (Held(s, i, l) && l != k)
  {
    TaskSlot(s, a);
    hide Control;
  }

  lemma ResetOwned(s: State, a: nat)
    requires Control(s) && Owned(s) && DoReset(s, a).Some?
    ensures Owned(DoReset(s, a).value)
  {
    var t := DoReset(s, a).value;
    var i := s.tasks[a].op.slot;
    TaskSlot(s, a);
    HeldElsewhere(s, t, a, i);
    PlaceFacts(s);
    assert forall l :: !Held(t, i, l) && !Held(s, i, l);
    hide Held, Control, OpOk, SlotOk;
  }

  // ---------------------------------------------------------------- joins

  lemma JoinsSame(s: State, t: State)
    requires JoinsOk(s) && IdsKept(s, t)
    ensures JoinsOk(t)
  {
  }

  lemma ResetJoins(s: State, a: nat)
    requires Control(s) && JoinsOk(s) && DoReset(s, a).Some?
    ensures JoinsOk(DoReset(s, a).value)
  {
    TaskSlot(s, a);
    PlaceFacts(s);
    hide Control;
  }

  /** Every step keeps the invariant. */
  lemma StepInv(s: State, st: Step)
    requires Inv(s) && Do(s, st).Some?
    ensures Inv(Do(s, st).value)
  {
    StepControl(s, st);
    StepOwned(s, st);
    StepJoins(s, st);
  }

  lemma StepControl(s: State, st: Step)
    requires Control(s) && Do(s, st).Some?
    ensures Control(Do(s, st).value)
  {
    hide *;
    DoForm(s, st);
    match st
    case Create(a, caller) => CreateControl(s, a, caller);
    case Acquire(a, got) => AcquireControl(s, a, got);
    case Fail(a) => FailControl(s, a);
    case Start(a) => StartControl(s, a);
    case SetHandle(a) => SetHandleControl(s, a);
    case Publish(a) => PublishControl(s, a);
    case Exit(i, reply) => ExitControl(s, i, reply);
    case Join(a, caller, id) => JoinControl(s, a, caller, id);
    case WaitDone(a) => WaitDoneControl(s, a);
    case WaitFailed(a) => WaitFailedControl(s, a);
    case Unclaim(a) => UnclaimControl(s, a);
    case Free(a) => FreeControl(s, a);
    case Reset(a) => ResetControl(s, a);
    case Shutdown(a) => ShutdownControl(s, a);
    case PollSlots(a) => PollSlotsControl(s, a);
    case DrainJoin(a) => DrainJoinControl(s, a);
  }

  lemma StepOwned(s: State, st: Step)
    requires Control(s) && Owned(s) && Do(s, st).Some?
    ensures Owned(Do(s, st).value) && (st.Reset? || IdsKept(s, Do(s, st).value))
  {
    hide *;
    DoForm(s, st);
    match st
    case Create(a, caller) => CreateOwned(s, a, caller);
    case Acquire(a, got) => AcquireOwned(s, a, got);
    case Fail(a) => FailOwned(s, a);
    case Start(a) => StartOwned(s, a);
    case SetHandle(a) => SetHandleOwned(s, a);
    case Publish(a) => PublishOwned(s, a);
    case Exit(i, reply) => ExitOwned(s, i, reply);
    case Join(a, caller, id) => JoinOwned(s, a, caller, id);
    case WaitDone(a) => WaitDoneOwned(s, a);
    case WaitFailed(a) => WaitFailedOwned(s, a);
    case Unclaim(a) => UnclaimOwned(s, a);
    case Free(a) => FreeOwned(s, a);
    case Reset(a) => ResetOwned(s, a);
    case Shutdown(a) => ShutdownOwned(s, a);
    case PollSlots(a) => PollSlotsOwned(s, a);
    case DrainJoin(a) => DrainJoinOwned(s, a);
  }

  lemma DoForm(s: State, st: Step)
    ensures match st
      case Create(a, caller) => Do(s, st) == DoCreate(s, a, caller)
      case Acquire(a, got) => Do(s, st) == DoAcquire(s, a, got)
      case Fail(a) => Do(s, st) == DoFail(s, a)
      case Start(a) => Do(s, st) == DoStart(s, a)
      case SetHandle(a) => Do(s, st) == DoSetHandle(s, a)
      case Publish(a) => Do(s, st) == DoPublish(s, a)
      case Exit(i, reply) => Do(s, st) == DoExit(s, i, reply)
      case Join(a, caller, id) => Do(s, st) == DoJoin(s, a, caller, id)
      case WaitDone(a) => Do(s, st) == DoWaitDone(s, a)
      case WaitFailed(a) => Do(s, st) == DoWaitFailed(s, a)
      case Unclaim(a) => Do(s, st) == DoUnclaim(s, a)
      case Free(a) => Do(s, st) == DoFree(s, a)
      case Reset(a) => Do(s, st) == DoReset(s, a)
      case Shutdown(a) => Do(s, st) == DoShutdown(s, a)
      case PollSlots(a) => Do(s, st) == DoPollSlots(s, a)
      case DrainJoin(a) => Do(s, st) == DoDrainJoin(s, a)
  {
    hide DoCreate, DoAcquire, DoFail, DoStart, DoSetHandle, DoPublish, DoExit, DoJoin, DoWaitDone, DoWaitFailed,
         DoUnclaim, DoFree, DoReset, DoShutdown, DoPollSlots, DoDrainJoin;
  }

  lemma StepJoins(s: State, st: Step)
    requires Control(s) && JoinsOk(s) && Do(s, st).Some? && (st.Reset? || IdsKept(s, Do(s, st).value))
    ensures JoinsOk(Do(s, st).value)
  {
    hide *;
    DoForm(s, st);
    if st.Reset? {
      ResetJoins(s, st.a);
    } else {
      JoinsSame(s, Do(s, st).value);
    }
  }
}
