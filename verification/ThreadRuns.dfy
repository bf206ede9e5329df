/**
 What every interleaving of creating, joining, exiting and shutting down guarantees.
 */
module ThreadRuns {
  import opened Options
  import opened Threads
  import opened ThreadProofs

  /** Takes the steps one after another; none when one of them is not enabled. */
  function Run(s: State, steps: seq<Step>): Option<State>
    decreases steps
  {
    if steps == [] then Some(s)
    else
      match Do(s, steps[0])
      case None => None
      case Some(t) => Run(t, steps[1..])
  }

  lemma InitialInv(slots: nat)
    ensures Inv(Initial(slots))
  {
  }

  lemma {:induction false} RunInv(s: State, steps: seq<Step>)
    requires Inv(s) && Run(s, steps).Some?
    ensures Inv(Run(s, steps).value)
    decreases steps
  {
    hide Inv, Do;
    if steps != [] {
      StepInv(s, steps[0]);
      RunInv(Do(s, steps[0]).value, steps[1..]);
    }
  }

  lemma InvParts(s: State)
    requires Inv(s)
    ensures Control(s) && Owned(s) && JoinsOk(s)
  {
    hide Control, Owned, JoinsOk;
  }

  /** The invariant's parts hold after any run from the start. */
  lemma RunFromInitial(slots: nat, steps: seq<Step>)
    requires Run(Initial(slots), steps).Some?
    ensures var t := Run(Initial(slots), steps).value;
      Inv(t) && Control(t) && Owned(t) && JoinsOk(t)
  {
    InitialInv(slots);
    RunInv(Initial(slots), steps);
    InvParts(Run(Initial(slots), steps).value);
    hide Control, Owned, JoinsOk, Run, Inv;
  }

  lemma {:induction false} RunSplit(s: State, first: seq<Step>, rest: seq<Step>)
    requires Run(s, first).Some?
    ensures Run(s, first + rest) == Run(Run(s, first).value, rest)
    decreases first
  {
    hide Do;
    if first == [] {
      assert first + rest == rest;
    } else {
      assert (first + rest)[1..] == first[1..] + rest;
      RunSplit(Do(s, first[0]).value, first[1..], rest);
    }
  }

  // ---------------------------------------------------------------- IDs

  lemma StepKeepsIds(s: State, st: Step)
    requires Inv(s) && Do(s, st).Some?
    ensures forall id | id in s.place :: id in Do(s, st).value.place && Do(s, st).value.place[id] == s.place[id]
  {
    hide *;
    InvParts(s);
    StepOwned(s, st);
    DoForm(s, st);
    if st.Reset? {
      ResetKeeps(s, st.a);
    } else {
      KeptIds(s, Do(s, st).value);
    }
  }

  lemma ResetKeeps(s: State, a: nat)
    requires DoReset(s, a).Some?
    ensures DoReset(s, a).value.place == s.place
  {
  }

  lemma KeptIds(s: State, t: State)
    requires IdsKept(s, t)
    ensures forall id | id in s.place :: id in t.place && t.place[id] == s.place[id]
  {
  }

  lemma {:induction false} RunKeepsIds(s: State, steps: seq<Step>)
    requires Inv(s) && Run(s, steps).Some?
    ensures forall id | id in s.place :: id in Run(s, steps).value.place && Run(s, steps).value.place[id] == s.place[id]
    decreases steps
  {
    hide Inv, Do;
    if steps != [] {
      StepKeepsIds(s, steps[0]);
      StepInv(s, steps[0]);
      RunKeepsIds(Do(s, steps[0]).value, steps[1..]);
    }
  }

  /** Two creations in a run never get the same ID, and a slot once given to an ID stays recorded as its slot. */
  lemma IdsNeverReissued(slots: nat, first: seq<Step>, a: nat, ca: Option<nat>, between: seq<Step>, b: nat,
      cb: Option<nat>)
    requires Run(Initial(slots), first + [Create(a, ca)] + between + [Create(b, cb)]).Some?
    ensures var s := Run(Initial(slots), first);
      var t := Run(Initial(slots), first + [Create(a, ca)] + between);
      s.Some? && t.Some? && s.value.reg.nextId != t.value.reg.nextId && 0 < s.value.reg.nextId && 0 < t.value.reg.nextId
  {
    hide *;
    var i := Initial(slots);
    var one, two := first + [Create(a, ca)], first + [Create(a, ca)] + between;
    RunPrefix(i, two, [Create(b, cb)]);
    RunPrefix(i, one, between);
    RunPrefix(i, first, [Create(a, ca)]);
    InitialInv(slots);
    RunInv(i, first);
    RunInv(i, one);
    RunInv(i, two);
    var s, u, t := Run(i, first).value, Run(i, one).value, Run(i, two).value;
    RunSplit(i, first, [Create(a, ca)]);
    RunSplit(i, one, between);
    RunSplit(i, two, [Create(b, cb)]);
    CreateIssues(s, a, ca);
    CreateIssues(t, b, cb);
    RunKeepsIds(u, between);
  }

  lemma CreateIssues(s: State, a: nat, caller: Option<nat>)
    requires Inv(s) && Run(s, [Create(a, caller)]).Some?
    ensures s.reg.nextId != 0 && s.reg.nextId !in s.place && s.reg.nextId in Run(s, [Create(a, caller)]).value.place
  {
    InvParts(s);
    CreateFirst(s, a, caller);
    FreshId(s);
  }

  lemma CreateFirst(s: State, a: nat, caller: Option<nat>)
    requires Run(s, [Create(a, caller)]).Some?
    ensures DoCreate(s, a, caller).Some? && Run(s, [Create(a, caller)]) == DoCreate(s, a, caller) && s.reg.nextId != 0
    ensures s.reg.nextId in DoCreate(s, a, caller).value.place
  {
    var steps := [Create(a, caller)];
    assert steps[1..] == [];
    DoForm(s, steps[0]);
    hide Do;
  }

  lemma {:induction false} RunPrefix(s: State, first: seq<Step>, rest: seq<Step>)
    requires Run(s, first + rest).Some?
    ensures Run(s, first).Some?
    decreases first
  {
    hide Do;
    if first != [] {
      assert (first + rest)[1..] == first[1..] + rest && (first + rest)[0] == first[0];
      RunPrefix(Do(s, first[0]).value, first[1..], rest);
    }
  }

  // ---------------------------------------------------------------- slots and joins

  /**
   From claim to release a slot belongs to one ID; it is released only after its worker was joined or never started.
   */
  lemma SlotBelongsToOneId(slots: nat, steps: seq<Step>, st: Step, i: nat)
    requires Run(Initial(slots), steps).Some? && Do(Run(Initial(slots), steps).value, st).Some?
    requires var s := Run(Initial(slots), steps).value; i < |s.reg.slots| && s.reg.slots[i].inUse
    ensures var s := Run(Initial(slots), steps).value;
      var t := Do(s, st).value;
      && i < |t.reg.slots|
      && (t.reg.slots[i].id == s.reg.slots[i].id
          || (st.Reset? && t.reg.slots[i] == FREE
              && (s.reg.slots[i].worker.Joined? || s.reg.slots[i].worker.NotStarted?)))
  {
    var s := Run(Initial(slots), steps).value;
    RunFromInitial(slots, steps);
    hide Run, Control, Owned, JoinsOk, Inv, Do;
    if st.Reset? {
      DoForm(s, st);
      ResetSlot(s, st.a, i);
    } else {
      StepOwned(s, st);
    }
  }

  lemma ResetSlot(s: State, a: nat, i: nat)
    requires Control(s) && DoReset(s, a).Some? && i < |s.reg.slots|
    ensures var t := DoReset(s, a).value;
      i < |t.reg.slots| &&
      (t.reg.slots[i] == s.reg.slots[i]
        || (t.reg.slots[i] == FREE && (s.reg.slots[i].worker.Joined? || s.reg.slots[i].worker.NotStarted?)))
  {
    TaskSlot(s, a);
    hide Control;
  }

  /** In every interleaving at most one join of an ID succeeds, and it returns what that worker left. */
  lemma JoinedOnce(slots: nat, steps: seq<Step>, j: nat, k: nat)
    requires Run(Initial(slots), steps).Some?
    requires j < k < |Run(Initial(slots), steps).value.joins|
    ensures var t := Run(Initial(slots), steps).value;
      && t.joins[j].0 != t.joins[k].0
      && t.joins[j].0 in t.replied && t.joins[j].1 == t.replied[t.joins[j].0]
      && t.joins[k].0 in t.replied && t.joins[k].1 == t.replied[t.joins[k].0]
  {
    RunFromInitial(slots, steps);
    hide Control, Owned, Run, Inv;
  }

  /** A task that waits has a handle to wait on, waits for a started worker, and never for the one it runs on. */
  lemma WaitsAreSound(slots: nat, steps: seq<Step>, a: nat)
    requires Run(Initial(slots), steps).Some?
    requires var t := Run(Initial(slots), steps).value; a in t.tasks && t.tasks[a].op.Waiting?
    ensures var t := Run(Initial(slots), steps).value;
      var op := t.tasks[a].op;
      && op.slot < |t.reg.slots| && t.reg.slots[op.slot].handle && t.reg.slots[op.slot].id == op.id
      && t.tasks[a].caller != Some(op.slot) && Started(t.reg.slots[op.slot])
  {
    RunFromInitial(slots, steps);
    TaskSlot(Run(Initial(slots), steps).value, a);
    hide Control, Owned, JoinsOk, Run, Inv;
  }

  // ---------------------------------------------------------------- resources

  /** A running worker's instance, stack and input are live. */
  lemma RunningWorkerKeepsResources(slots: nat, steps: seq<Step>, i: nat)
    requires Run(Initial(slots), steps).Some?
    requires var s := Run(Initial(slots), steps).value; i < |s.reg.slots| && s.reg.slots[i].worker.Running?
    ensures var s := Run(Initial(slots), steps).value;
      forall k | k in {Instance, Stack, Input} :: Resource(s.reg.slots[i].id, k) in s.live
  {
    var s := Run(Initial(slots), steps).value;
    RunFromInitial(slots, steps);
    SlotOf(s, i);
    var t := s.reg.slots[i];
    if t.owner.Some? {
      TaskSlot(s, t.owner.value);
    }
    hide Control, JoinsOk, Run, Inv;
    forall k | k in {Instance, Stack, Input} ensures Resource(t.id, k) in s.live {
      assert Held(s, i, k);
    }
  }

  predicate Known(s: State, r: Resource) { r in s.live || r in s.freed }

  lemma StepTracks(s: State, st: Step, r: Resource)
    requires Do(s, st).Some? && Known(s, r)
    ensures Known(Do(s, st).value, r)
  {
    DoForm(s, st);
    hide Do, FirstFree, LastJoinable, Threads.Poll, Claim, With, Put, Over, At, MayCall, KindAt, HasSlot;
  }

  lemma {:induction false} RunTracks(s: State, steps: seq<Step>, r: Resource)
    requires Run(s, steps).Some? && Known(s, r)
    ensures Known(Run(s, steps).value, r)
    decreases steps
  {
    hide Do, Known;
    if steps != [] {
      StepTracks(s, steps[0], r);
      RunTracks(Do(s, steps[0]).value, steps[1..], r);
    }
  }

  /** Once its slot is released, each resource the thread ever acquired has been released exactly once. */
  lemma ReleasedExactlyOnce(slots: nat, before: seq<Step>, after: seq<Step>, r: Resource)
    requires Run(Initial(slots), before + after).Some? && Run(Initial(slots), before).Some?
    requires r in Run(Initial(slots), before).value.live
    ensures var t := Run(Initial(slots), before + after).value;
      r.id in t.place && t.place[r.id] < |t.reg.slots| &&
      (t.reg.slots[t.place[r.id]].id != r.id ==> t.freed[r] == 1 && r !in t.live)
  {
    var i := Initial(slots);
    RunFromInitial(slots, before + after);
    RunSplit(i, before, after);
    RunTracks(Run(i, before).value, after, r);
    hide Run, Inv, Control, JoinsOk, Held;
  }

  // ---------------------------------------------------------------- shutdown

  lemma StepStaysDrained(s: State, st: Step)
    requires Do(s, st).Some? && s.drained
    ensures Do(s, st).value.drained
  {
    DoForm(s, st);
    hide Do, FirstFree, LastJoinable, Threads.Poll, Claim, With, Put, Over, At, MayCall, KindAt, HasSlot;
  }

  lemma {:induction false} StaysDrained(s: State, steps: seq<Step>)
    requires Run(s, steps).Some? && s.drained
    ensures Run(s, steps).value.drained
    decreases steps
  {
    hide Do;
    if steps != [] {
      StepStaysDrained(s, steps[0]);
      StaysDrained(Do(s, steps[0]).value, steps[1..]);
    }
  }

  /** After a shutdown returned, whatever was begun before or is begun later, no slot is in use and nothing is live. */
  lemma ShutdownIsFinal(slots: nat, before: seq<Step>, after: seq<Step>)
    requires Run(Initial(slots), before).Some? && Run(Initial(slots), before).value.drained
    requires Run(Run(Initial(slots), before).value, after).Some?
    ensures var t := Run(Run(Initial(slots), before).value, after).value;
      t.reg.stopping && t.live == {} && forall i | 0 <= i < |t.reg.slots| :: t.reg.slots[i] == FREE
  {
    var s := Run(Initial(slots), before).value;
    var t := Run(s, after).value;
    InitialInv(slots);
    RunInv(Initial(slots), before);
    RunInv(s, after);
    StaysDrained(s, after);
    InvParts(t);
    hide Run, JoinsOk;
    forall i | 0 <= i < |t.reg.slots| ensures t.reg.slots[i] == FREE {
      SlotOf(t, i);
    }
    LiveInUse(t);
  }

  lemma LiveInUse(s: State)
    requires Inv(s)
    ensures forall r | r in s.live ::
      r.id in s.place && s.place[r.id] < |s.reg.slots| && s.reg.slots[s.place[r.id]].inUse
  {
    hide Control, JoinsOk;
  }
}
