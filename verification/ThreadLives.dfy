/**
 What the steps of the thread registry get done: a thread's whole life from creation to join, and a shutdown that
 joins all finished workers.
 */
module ThreadLives {
  import opened Options
  import opened Threads
  import opened ThreadProofs
  import opened ThreadRuns

  // ---------------------------------------------------------------- looking for a slot

  /** A slot whose worker nobody is creating or joining. */
  predicate Unclaimed(t: Slot) { t.inUse && !t.creating && !t.joining }

  /** Slots in use. */
  function Used(slots: seq<Slot>): nat {
    if slots == [] then 0 else Used(slots[..|slots| - 1]) + if slots[|slots| - 1].inUse then 1 else 0
  }

  /**
   The drain loop's look counts the slots in use and picks the last unclaimed one; it picks nothing exactly when there
   is none.
   */
  lemma {:induction false} PollMeans(slots: seq<Slot>, n: nat)
    requires n <= |slots| && forall i | 0 <= i < n && slots[i].inUse :: slots[i].id > 0
    ensures var (remaining, id) := Poll(slots, n);
      && remaining == Used(slots[..n])
      && (id == 0 <==> forall i | 0 <= i < n :: !Unclaimed(slots[i]))
      && forall i | 0 <= i < n && Unclaimed(slots[i]) && (forall j | i < j < n :: !Unclaimed(slots[j])) ::
        id == slots[i].id
    decreases n
  {
    if n > 0 {
      PollMeans(slots, n - 1);
      assert slots[..n][..n - 1] == slots[..n - 1];
      if !Unclaimed(slots[n - 1]) {
        assert forall i | 0 <= i < n && Unclaimed(slots[i]) :: i < n - 1;
      }
    }
  }

  /** A look for an ID finds the last slot that can be joined as it. */
  lemma {:induction false} LastMeans(slots: seq<Slot>, id: nat, n: nat)
    requires n <= |slots|
    ensures var r := LastJoinable(slots, id, n);
      r.Some? ==> forall j | r.value < j < n :: !Joinable(slots[j], id)
    decreases n
  {
    if n > 0 && !Joinable(slots[n - 1], id) {
      LastMeans(slots, id, n - 1);
    }
  }

  lemma PositiveIds(s: State)
    requires Control(s)
    ensures forall i | 0 <= i < |s.reg.slots| && s.reg.slots[i].inUse :: s.reg.slots[i].id > 0
  {
    hide Control;
    forall i | 0 <= i < |s.reg.slots| && s.reg.slots[i].inUse ensures s.reg.slots[i].id > 0 {
      SlotOf(s, i);
    }
  }

  /**
   In every interleaving, a drain loop that looks while some slot is unclaimed selects the ID of one, and if it goes on
   at once it claims a slot of that ID and waits for its worker.
   */
  lemma DrainSelects(slots: nat, steps: seq<Step>, a: nat)
    requires Run(Initial(slots), steps).Some?
    requires var s := Run(Initial(slots), steps).value;
      && a in s.tasks && s.tasks[a].op.Draining?
      && exists i :: 0 <= i < |s.reg.slots| && Unclaimed(s.reg.slots[i])
    ensures var s := Run(Initial(slots), steps).value;
      var t := Do(s, PollSlots(a));
      && t.Some? && a in t.value.tasks && t.value.tasks[a].op.Selected? && t.value.reg == s.reg
      && var id := t.value.tasks[a].op.wanted;
      && (exists i :: 0 <= i < |s.reg.slots| && Joinable(s.reg.slots[i], id))
      && var u := Do(t.value, DrainJoin(a));
      && u.Some? && a in u.value.tasks && u.value.tasks[a].op.Waiting?
      && var op := u.value.tasks[a].op;
      && op.id == id && op.drain && op.slot < |s.reg.slots| && Joinable(s.reg.slots[op.slot], id)
      && u.value.reg == s.reg.(slots :=
         s.reg.slots[op.slot := s.reg.slots[op.slot].(joining := true, owner := Some(a))])
  {
    var s := Run(Initial(slots), steps).value;
    RunFromInitial(slots, steps);
    PositiveIds(s);
    var n := |s.reg.slots|;
    PollMeans(s.reg.slots, n);
    hide Run, Inv, Control, Owned, JoinsOk, Poll, LastJoinable;
    var i := LastUnclaimed(s.reg.slots, n);
    var id := s.reg.slots[i].id;
    assert Joinable(s.reg.slots[i], id);
    DrainLooks(s, a, id);
  }

  /**
   In every interleaving, a drain loop that finds slots in use, all of them claimed, looks again in the same state.
   */
  lemma DrainWaits(slots: nat, steps: seq<Step>, a: nat)
    requires Run(Initial(slots), steps).Some?
    requires var s := Run(Initial(slots), steps).value;
      && a in s.tasks && s.tasks[a].op.Draining?
      && (exists i :: 0 <= i < |s.reg.slots| && s.reg.slots[i].inUse)
      && forall i | 0 <= i < |s.reg.slots| :: !Unclaimed(s.reg.slots[i])
    ensures var s := Run(Initial(slots), steps).value; Do(s, PollSlots(a)) == Some(s)
  {
    var s := Run(Initial(slots), steps).value;
    RunFromInitial(slots, steps);
    PositiveIds(s);
    PollMeans(s.reg.slots, |s.reg.slots|);
    DoForm(s, PollSlots(a));
    hide Run, Inv, Control, Owned, JoinsOk, Poll, Do;
  }

  lemma {:induction false} LastUnclaimed(slots: seq<Slot>, n: nat) returns (i: nat)
    requires n <= |slots| && exists i :: 0 <= i < n && Unclaimed(slots[i])
    ensures i < n && Unclaimed(slots[i]) && forall j | i < j < n :: !Unclaimed(slots[j])
    decreases n
  {
    if Unclaimed(slots[n - 1]) {
      i := n - 1;
    } else {
      i := LastUnclaimed(slots, n - 1);
    }
  }

  /** Two steps of the drain loop, when the look gives an ID that can be joined. */
  lemma DrainLooks(s: State, a: nat, id: nat)
    requires a in s.tasks && s.tasks[a].op.Draining? && id != 0
    requires Poll(s.reg.slots, |s.reg.slots|).1 == id && Poll(s.reg.slots, |s.reg.slots|).0 != 0
    requires LastJoinable(s.reg.slots, id, |s.reg.slots|).Some?
    ensures var i := LastJoinable(s.reg.slots, id, |s.reg.slots|).value;
      var t := s.(tasks := s.tasks[a := s.tasks[a].(op := Selected(id))]);
      && Do(s, PollSlots(a)) == Some(t)
      && Do(t, DrainJoin(a)) == Some(Claimed(s, a, i, Waiting(i, id, true)))
  {
    hide Poll, LastJoinable;
    var i := LastJoinable(s.reg.slots, id, |s.reg.slots|).value;
    assert s.tasks[a := s.tasks[a].(op := Selected(id))][a := s.tasks[a].(op := Waiting(i, id, true))]
      == s.tasks[a := s.tasks[a].(op := Waiting(i, id, true))];
  }

  /** Task `a` has claimed slot `i` for joining. */
  function Claimed(s: State, a: nat, i: nat, op: Op): State
    requires i < |s.reg.slots| && a in s.tasks
  {
    s.(reg := With(s, i, s.reg.slots[i].(joining := true, owner := Some(a))), tasks := Put(s, a, op))
  }

  // ---------------------------------------------------------------- a task at work on one slot

  /** `b` with slot `i` and task `a` as given, and with these resources. */
  function Mid(b: State, a: nat, i: nat, t: Slot, k: Task, live: set<Resource>, freed: multiset<Resource>): State
    requires i < |b.reg.slots|
  {
    b.(reg := b.reg.(slots := b.reg.slots[i := t]), tasks := b.tasks[a := k], live := live, freed := freed)
  }

  /** A step of a task that changes nothing but its slot, itself and resources. */
  lemma MidAgain(b: State, a: nat, i: nat, t: Slot, k: Task, live: set<Resource>, freed: multiset<Resource>)
    requires i < |b.reg.slots|
    ensures var m := Mid(b, a, i, t, k, live, freed);
      && m.reg.slots[i] == t && |m.reg.slots| == |b.reg.slots| && a in m.tasks && m.tasks[a] == k
      && forall t', op, live', freed' ::
        m.(reg := With(m, i, t'), tasks := Put(m, a, op), live := live', freed := freed')
          == Mid(b, a, i, t', k.(op := op), live', freed')
  {
    var m := Mid(b, a, i, t, k, live, freed);
    forall t', op, live', freed'
      ensures m.(reg := With(m, i, t'), tasks := Put(m, a, op), live := live', freed := freed')
        == Mid(b, a, i, t', k.(op := op), live', freed')
    {
      assert b.reg.slots[i := t][i := t'] == b.reg.slots[i := t'];
      assert b.tasks[a := k][a := k.(op := op)] == b.tasks[a := k.(op := op)];
    }
  }

  lemma RunFirst(s: State, st: Step, rest: seq<Step>)
    requires Do(s, st).Some?
    ensures Run(s, [st] + rest) == Run(Do(s, st).value, rest)
  {
    hide Do;
    assert ([st] + rest)[1..] == rest;
  }

  lemma RunNone(s: State)
    ensures Run(s, []) == Some(s)
  {
  }

  // ---------------------------------------------------------------- acquiring and releasing

  function Acquires(a: nat, n: nat): seq<Step> { if n == 0 then [] else [Acquire(a, true)] + Acquires(a, n - 1) }

  function Frees(a: nat, n: nat): seq<Step> { if n == 0 then [] else [Free(a)] + Frees(a, n - 1) }

  /** The kinds of `m` stages from stage `n` on. */
  function KindsIn(n: nat, m: nat): set<Kind>
    requires n + m <= 4
    decreases m
  {
    if m == 0 then {} else {KindAt(n)} + KindsIn(n + 1, m - 1)
  }

  function OfKinds(id: nat, ks: set<Kind>): set<Resource> { set k | k in ks :: Resource(id, k) }

  lemma OfMore(id: nat, k: Kind, ks: set<Kind>)
    ensures OfKinds(id, {k} + ks) == {Resource(id, k)} + OfKinds(id, ks)
  {
  }

  lemma AcquireOne(b: State, a: nat, i: nat, t: Slot, c: Option<nat>, id: nat, n: nat,
      live: set<Resource>, freed: multiset<Resource>)
    requires i < |b.reg.slots| && n < 4
    ensures Do(Mid(b, a, i, t, Task(c, Creating(i, id, n)), live, freed), Acquire(a, true))
      == Some(Mid(b, a, i, t.(fields := t.fields + {KindAt(n)}), Task(c, Creating(i, id, n + 1)),
                  live + {Resource(id, KindAt(n))}, freed))
  {
    MidAgain(b, a, i, t, Task(c, Creating(i, id, n)), live, freed);
    DoForm(Mid(b, a, i, t, Task(c, Creating(i, id, n)), live, freed), Acquire(a, true));
    hide Do, Mid, KindAt;
  }

  lemma {:induction false} AcquireSome(b: State, a: nat, i: nat, t: Slot, c: Option<nat>, id: nat, n: nat, m: nat,
      live: set<Resource>, freed: multiset<Resource>)
    requires i < |b.reg.slots| && n + m <= 4
    ensures Run(Mid(b, a, i, t, Task(c, Creating(i, id, n)), live, freed), Acquires(a, m))
      == Some(Mid(b, a, i, t.(fields := t.fields + KindsIn(n, m)), Task(c, Creating(i, id, n + m)),
                  live + OfKinds(id, KindsIn(n, m)), freed))
    decreases m
  {
    hide Run, Do, Mid, OfKinds, KindAt;
    var s := Mid(b, a, i, t, Task(c, Creating(i, id, n)), live, freed);
    if m == 0 {
      RunNone(s);
      NoKinds(id);
      assert t.fields + {} == t.fields && live + {} == live;
    } else {
      var k, rest := KindAt(n), KindsIn(n + 1, m - 1);
      AcquireOne(b, a, i, t, c, id, n, live, freed);
      RunFirst(s, Acquire(a, true), Acquires(a, m - 1));
      AcquireSome(b, a, i, t.(fields := t.fields + {k}), c, id, n + 1, m - 1, live + {Resource(id, k)}, freed);
      OfMore(id, k, rest);
      assert t.fields + {k} + rest == t.fields + ({k} + rest);
      assert live + {Resource(id, k)} + OfKinds(id, rest) == live + ({Resource(id, k)} + OfKinds(id, rest));
    }
  }

  lemma NoKinds(id: nat)
    ensures OfKinds(id, {}) == {}
  {
  }

  /** What is live after the last `n` kinds among the fields are released, and what has been freed. */
  function Unlive(live: set<Resource>, id: nat, fields: set<Kind>, n: nat): set<Resource>
    requires n <= 4
    decreases n
  {
    if n == 0 then live
    else Unlive(if KindAt(n - 1) in fields then live - {Resource(id, KindAt(n - 1))} else live, id, fields, n - 1)
  }

  function Refreed(freed: multiset<Resource>, id: nat, fields: set<Kind>, n: nat): multiset<Resource>
    requires n <= 4
    decreases n
  {
    if n == 0 then freed
    else
      Refreed(if KindAt(n - 1) in fields then freed + multiset{Resource(id, KindAt(n - 1))}
        else freed, id, fields, n - 1)
  }

  lemma FreeOne(b: State, a: nat, i: nat, t: Slot, c: Option<nat>, op: Op, live: set<Resource>,
      freed: multiset<Resource>)
    requires i < |b.reg.slots| && op.Deleting? && op.slot == i && 0 < op.left <= 4
    ensures var k := KindAt(op.left - 1);
      Do(Mid(b, a, i, t, Task(c, op), live, freed), Free(a))
      == Some(Mid(b, a, i, t, Task(c, op.(left := op.left - 1)),
                  if k in t.fields then live - {Resource(op.id, k)} else live,
                  if k in t.fields then freed + multiset{Resource(op.id, k)} else freed))
  {
    var m := Mid(b, a, i, t, Task(c, op), live, freed);
    MidAgain(b, a, i, t, Task(c, op), live, freed);
    DoForm(m, Free(a));
    assert With(m, i, t) == m.reg by {
      assert m.reg.slots[i := t] == m.reg.slots;
    }
    hide Do, Mid, KindAt;
  }

  lemma {:induction false} FreeAll(b: State, a: nat, i: nat, t: Slot, c: Option<nat>, op: Op,
      live: set<Resource>, freed: multiset<Resource>)
    requires i < |b.reg.slots| && op.Deleting? && op.slot == i && op.left <= 4
    ensures Run(Mid(b, a, i, t, Task(c, op), live, freed), Frees(a, op.left))
      == Some(Mid(b, a, i, t, Task(c, op.(left := 0)), Unlive(live, op.id, t.fields, op.left),
                  Refreed(freed, op.id, t.fields, op.left)))
    decreases op.left
  {
    hide Run, Do, Mid, KindAt;
    var s := Mid(b, a, i, t, Task(c, op), live, freed);
    if op.left == 0 {
      RunNone(s);
      assert op.(left := 0) == op;
    } else {
      var k := KindAt(op.left - 1);
      FreeOne(b, a, i, t, c, op, live, freed);
      RunFirst(s, Free(a), Frees(a, op.left - 1));
      FreeAll(b, a, i, t, c, op.(left := op.left - 1), if k in t.fields then live - {Resource(op.id, k)} else live,
          if k in t.fields then freed + multiset{Resource(op.id, k)} else freed);
    }
  }

  /** A finished worker that task `a` waits for is joined, its resources are released and its slot is free again. */
  lemma JoinedAndFreed(b: State, a: nat, i: nat, t: Slot, c: Option<nat>, id: nat, drain: bool,
      live: set<Resource>, freed: multiset<Resource>)
    requires i < |b.reg.slots| && t.worker.Done? && a !in b.tasks
    ensures Run(Mid(b, a, i, t, Task(c, Waiting(i, id, drain)), live, freed), [WaitDone(a)] + Frees(a, 4) + [Reset(a)])
      == Some(b.(reg := b.reg.(slots := b.reg.slots[i := FREE]),
                 tasks := if drain then b.tasks[a := Task(c, Draining)] else b.tasks,
                 live := Unlive(live, id, t.fields, 4), freed := Refreed(freed, id, t.fields, 4),
                 joins := b.joins + [(id, t.reply)]))
  {
    hide *;
    var s := Mid(b, a, i, t, Task(c, Waiting(i, id, drain)), live, freed);
    var u, op := t.(worker := Joined, reply := None), Deleting(i, id, true, drain, 4, t.reply);
    var d := Mid(b, a, i, u, Task(c, op), live, freed);
    WaitOne(b, a, i, t, c, id, drain, live, freed);
    FreeAll(b, a, i, u, c, op, live, freed);
    var e := Run(d, Frees(a, 4)).value;
    ResetOne(b, a, i, u, c, op.(left := 0), Unlive(live, id, t.fields, 4), Refreed(freed, id, t.fields, 4));
    assert [WaitDone(a)] + Frees(a, 4) + [Reset(a)] == [WaitDone(a)] + (Frees(a, 4) + [Reset(a)]);
    RunFirst(s, WaitDone(a), Frees(a, 4) + [Reset(a)]);
    RunSplit(d, Frees(a, 4), [Reset(a)]);
    RunFirst(e, Reset(a), []);
    assert [Reset(a)] + [] == [Reset(a)];
    RunNone(Do(e, Reset(a)).value);
  }

  lemma WaitOne(b: State, a: nat, i: nat, t: Slot, c: Option<nat>, id: nat, drain: bool,
      live: set<Resource>, freed: multiset<Resource>)
    requires i < |b.reg.slots| && t.worker.Done?
    ensures Do(Mid(b, a, i, t, Task(c, Waiting(i, id, drain)), live, freed), WaitDone(a))
      == Some(Mid(b, a, i, t.(worker := Joined, reply := None), Task(c, Deleting(i, id, true, drain, 4, t.reply)),
                  live, freed))
  {
    MidAgain(b, a, i, t, Task(c, Waiting(i, id, drain)), live, freed);
    DoForm(Mid(b, a, i, t, Task(c, Waiting(i, id, drain)), live, freed), WaitDone(a));
    hide Do, Mid;
  }

  lemma ResetOne(b: State, a: nat, i: nat, t: Slot, c: Option<nat>, op: Op, live: set<Resource>,
      freed: multiset<Resource>)
    requires i < |b.reg.slots| && op.Deleting? && op.slot == i && op.left == 0 && a !in b.tasks
    ensures Do(Mid(b, a, i, t, Task(c, op), live, freed), Reset(a))
      == Some(b.(reg := b.reg.(slots := b.reg.slots[i := FREE]),
                 tasks := if op.drain then b.tasks[a := Task(c, Draining)] else b.tasks,
                 live := live, freed := freed, joins := if op.joined then b.joins + [(op.id, op.reply)] else b.joins))
  {
    var m := Mid(b, a, i, t, Task(c, op), live, freed);
    DoForm(m, Reset(a));
    assert b.reg.slots[i := t][i := FREE] == b.reg.slots[i := FREE];
    assert b.tasks[a := Task(c, op)][a := Task(c, Draining)] == b.tasks[a := Task(c, Draining)];
    assert b.tasks[a := Task(c, op)] - {a} == b.tasks;
    hide Do;
  }

  // ---------------------------------------------------------------- a thread's life

  const ALL_KINDS: set<Kind> := {Instance, Stack, Tls, Input}

  lemma AllKinds()
    ensures KindsIn(0, 4) == ALL_KINDS
  {
    assert KindsIn(4, 0) == {} && KindsIn(3, 1) == {Input} && KindsIn(2, 2) == {Tls, Input};
    assert KindsIn(1, 3) == {Stack, Tls, Input};
  }

  lemma {:induction false} UnliveIs(live: set<Resource>, id: nat, fields: set<Kind>, n: nat, r: Resource)
    requires n <= 4
    ensures r in Unlive(live, id, fields, n) <==> r in live && !(r.id == id && r.kind in fields && Rank(r.kind) < n)
    decreases n
  {
    if n > 0 {
      var k := KindAt(n - 1);
      assert Rank(r.kind) == n - 1 <==> r.kind == k;
      UnliveIs(if k in fields then live - {Resource(id, k)} else live, id, fields, n - 1, r);
    }
  }

  lemma {:induction false} RefreedIs(freed: multiset<Resource>, id: nat, fields: set<Kind>, n: nat, r: Resource)
    requires n <= 4
    ensures Refreed(freed, id, fields, n)[r]
      == freed[r] + if r.id == id && r.kind in fields && Rank(r.kind) < n then 1 else 0
    decreases n
  {
    if n > 0 {
      var k := KindAt(n - 1);
      assert Rank(r.kind) == n - 1 <==> r.kind == k;
      RefreedIs(if k in fields then freed + multiset{Resource(id, k)} else freed, id, fields, n - 1, r);
    }
  }

  lemma OfKindsIs(id: nat, fields: set<Kind>, r: Resource)
    ensures r in OfKinds(id, fields) <==> r.id == id && r.kind in fields
  {
    if r.id == id && r.kind in fields {
      assert r == Resource(id, r.kind);
    }
  }

  /** Everything a thread acquired is released, once, and nothing else. */
  lemma AllReleased(live: set<Resource>, freed: multiset<Resource>, id: nat, fields: set<Kind>)
    requires forall k :: Resource(id, k) !in live
    ensures Unlive(live + OfKinds(id, fields), id, fields, 4) == live
    ensures Refreed(freed, id, fields, 4) == freed + multiset(OfKinds(id, fields))
  {
    hide Unlive, Refreed, OfKinds;
    var l, f := live + OfKinds(id, fields), Refreed(freed, id, fields, 4);
    forall r: Resource ensures r in Unlive(l, id, fields, 4) <==> r in live {
      UnliveIs(l, id, fields, 4, r);
      OfKindsIs(id, fields, r);
      assert r.id == id ==> r == Resource(id, r.kind);
    }
    forall r: Resource ensures f[r] == (freed + multiset(OfKinds(id, fields)))[r] {
      RefreedIs(freed, id, fields, 4, r);
      OfKindsIs(id, fields, r);
    }
  }

  /** What a creation needs: nobody shuts down, IDs are left, a slot is free, and the caller may call. */
  ghost predicate MayCreate(s: State, a: nat, caller: Option<nat>) {
    && a !in s.tasks && MayCall(s, caller) && !s.reg.stopping && s.reg.nextId != 0
    && exists j :: 0 <= j < |s.reg.slots| && !s.reg.slots[j].inUse
  }

  /** The registry once the next ID is given to slot `i`. */
  function Issued(s: State, i: nat): State {
    s.(reg := s.reg.(nextId := (s.reg.nextId + 1) % SIZE), place := s.place[s.reg.nextId := i])
  }

  /** The slot of a running thread with all its resources. */
  function Up(id: nat): Slot { Slot(true, false, false, id, ALL_KINDS, true, Running, None, None) }

  /** The steps of a creation that gets everything it asks for. */
  function Creation(a: nat, caller: Option<nat>): seq<Step> {
    [Create(a, caller)] + (Acquires(a, 4) + [Start(a), SetHandle(a), Publish(a)])
  }

  lemma CreateOne(s: State, a: nat, c: Option<nat>)
    requires MayCreate(s, a, c)
    ensures var i := FirstFree(s.reg.slots, 0);
      var id := s.reg.nextId;
      && i < |s.reg.slots|
      && Do(s, Create(a, c)) == Some(Mid(Issued(s, i), a, i,
           Slot(true, true, false, id, {}, false, NotStarted, None, Some(a)), Task(c, Creating(i, id, 0)),
               s.live, s.freed))
  {
  }

  lemma StartThree(b: State, a: nat, i: nat, id: nat, c: Option<nat>, live: set<Resource>, freed: multiset<Resource>)
    requires i < |b.reg.slots| && a !in b.tasks
    ensures var t := Slot(true, true, false, id, ALL_KINDS, false, NotStarted, None, Some(a));
      Run(Mid(b, a, i, t, Task(c, Creating(i, id, 4)), live, freed), [Start(a), SetHandle(a), Publish(a)])
      == Some(b.(reg := b.reg.(slots := b.reg.slots[i := Up(id)]), live := live, freed := freed))
  {
    var t := Slot(true, true, false, id, ALL_KINDS, false, NotStarted, None, Some(a));
    var t1 := t.(worker := Running);
    var t2 := t1.(handle := true);
    var s0 := Mid(b, a, i, t, Task(c, Creating(i, id, 4)), live, freed);
    var s1 := Mid(b, a, i, t1, Task(c, Starting(i, id)), live, freed);
    var s2 := Mid(b, a, i, t2, Task(c, Publishing(i, id)), live, freed);
    MidAgain(b, a, i, t, Task(c, Creating(i, id, 4)), live, freed);
    MidAgain(b, a, i, t1, Task(c, Starting(i, id)), live, freed);
    MidAgain(b, a, i, t2, Task(c, Publishing(i, id)), live, freed);
    DoForm(s0, Start(a));
    DoForm(s1, SetHandle(a));
    DoForm(s2, Publish(a));
    var s3 := b.(reg := b.reg.(slots := b.reg.slots[i := Up(id)]), live := live, freed := freed);
    assert b.reg.slots[i := t2][i := Up(id)] == b.reg.slots[i := Up(id)];
    assert b.tasks[a := Task(c, Publishing(i, id))] - {a} == b.tasks;
    hide Run, Do;
    assert [Start(a), SetHandle(a), Publish(a)] == [Start(a)] + ([SetHandle(a)] + ([Publish(a)] + []));
    RunFirst(s0, Start(a), [SetHandle(a)] + ([Publish(a)] + []));
    RunFirst(s1, SetHandle(a), [Publish(a)] + []);
    RunFirst(s2, Publish(a), []);
    RunNone(s3);
  }

  /** A creation that gets its resources ends with a running thread in the first free slot, under the next ID. */
  lemma CreationRuns(s: State, a: nat, c: Option<nat>)
    requires MayCreate(s, a, c)
    ensures var i := FirstFree(s.reg.slots, 0);
      var id := s.reg.nextId;
      && i < |s.reg.slots|
      && Run(s, Creation(a, c)) == Some(Issued(s, i).(reg := Issued(s, i).reg.(slots := s.reg.slots[i := Up(id)]),
           live := s.live + OfKinds(id, ALL_KINDS)))
  {
    hide *;
    CreateOne(s, a, c);
    var i, id := FirstFree(s.reg.slots, 0), s.reg.nextId;
    var b := Issued(s, i);
    IssuedKeeps(s, i);
    NotYet(s, a, c);
    var t := Slot(true, true, false, id, {}, false, NotStarted, None, Some(a));
    var s1 := Mid(b, a, i, t, Task(c, Creating(i, id, 0)), s.live, s.freed);
    AcquireSome(b, a, i, t, c, id, 0, 4, s.live, s.freed);
    AllKinds();
    assert t.fields + KindsIn(0, 4) == KindsIn(0, 4);
    var tail := [Start(a), SetHandle(a), Publish(a)];
    StartThree(b, a, i, id, c, s.live + OfKinds(id, ALL_KINDS), s.freed);
    RunFirst(s, Create(a, c), Acquires(a, 4) + tail);
    RunSplit(s1, Acquires(a, 4), tail);
    CreationForm(a, c);
  }

  lemma CreationForm(a: nat, c: Option<nat>)
    ensures Creation(a, c) == [Create(a, c)] + (Acquires(a, 4) + [Start(a), SetHandle(a), Publish(a)])
  {
  }

  lemma NotYet(s: State, a: nat, c: Option<nat>)
    requires MayCreate(s, a, c)
    ensures a !in s.tasks && MayCall(s, c)
  {
  }

  lemma IssuedKeeps(s: State, i: nat)
    ensures Issued(s, i) == s.(reg := s.reg.(nextId := (s.reg.nextId + 1) % SIZE), place := s.place[s.reg.nextId := i])
  {
  }

  /** The worker returns, and somebody joins it. */
  function Ending(b: nat, c: Option<nat>, i: nat, id: nat, reply: Option<string>): seq<Step> {
    [Exit(i, reply)] + ([Join(b, c, id)] + ([WaitDone(b)] + Frees(b, 4) + [Reset(b)]))
  }

  lemma ExitOne(s: State, i: nat, reply: Option<string>)
    requires i < |s.reg.slots| && s.reg.slots[i].worker.Running?
    requires !exists a :: a in s.tasks && s.tasks[a].caller == Some(i)
    ensures var t := s.reg.slots[i];
      Do(s, Exit(i, reply)) ==
        Some(s.(reg := With(s, i, t.(worker := Done, reply := reply)), replied := s.replied[t.id := reply]))
  {
    DoForm(s, Exit(i, reply));
    hide Do;
  }

  lemma JoinOne(s: State, a: nat, c: Option<nat>, i: nat, id: nat)
    requires a !in s.tasks && MayCall(s, c) && c != Some(i) && LastJoinable(s.reg.slots, id, |s.reg.slots|) == Some(i)
    ensures Do(s, Join(a, c, id)) == Some(Mid(s, a, i, s.reg.slots[i].(joining := true, owner := Some(a)),
        Task(c, Waiting(i, id, false)), s.live, s.freed))
  {
    DoForm(s, Join(a, c, id));
    hide Do, LastJoinable;
  }

  /** Only slot `i` has this ID. */
  lemma OnlyJoinable(slots: seq<Slot>, i: nat, id: nat)
    requires i < |slots| && Joinable(slots[i], id) && forall j | 0 <= j < |slots| && j != i :: !Joinable(slots[j], id)
    ensures LastJoinable(slots, id, |slots|) == Some(i)
  {
  }

  /** A running worker that calls nobody returns and is joined: its reply is handed out, and all it had is released. */
  lemma EndingRuns(s: State, i: nat, b: nat, c: Option<nat>, reply: Option<string>)
    requires i < |s.reg.slots| && s.reg.slots[i].worker.Running?
      && (forall a | a in s.tasks :: s.tasks[a].caller != Some(i))
    requires b !in s.tasks && MayCall(s, c) && c != Some(i)
    requires forall j | 0 <= j < |s.reg.slots| :: Joinable(s.reg.slots[j], s.reg.slots[i].id) <==> j == i
    ensures var t := s.reg.slots[i];
      Run(s, Ending(b, c, i, t.id, reply)) ==
        Some(s.(reg := With(s, i, FREE), replied := s.replied[t.id := reply],
                live := Unlive(s.live, t.id, t.fields, 4), freed := Refreed(s.freed, t.id, t.fields, 4),
                joins := s.joins + [(t.id, reply)]))
  {
    var t := s.reg.slots[i];
    var u := t.(worker := Done, reply := reply);
    var s1 := s.(reg := With(s, i, u), replied := s.replied[t.id := reply]);
    hide Run, Do, Mid, LastJoinable, Frees, Unlive, Refreed;
    ExitOne(s, i, reply);
    OnlyJoinable(s1.reg.slots, i, t.id);
    JoinOne(s1, b, c, i, t.id);
    var w := u.(joining := true, owner := Some(b));
    var s2 := Mid(s1, b, i, w, Task(c, Waiting(i, t.id, false)), s.live, s.freed);
    JoinedAndFreed(s1, b, i, w, c, t.id, false, s.live, s.freed);
    var rest := [WaitDone(b)] + Frees(b, 4) + [Reset(b)];
    RunFirst(s, Exit(i, reply), [Join(b, c, t.id)] + rest);
    RunFirst(s1, Join(b, c, t.id), rest);
    assert s.reg.slots[i := u][i := FREE] == s.reg.slots[i := FREE];
  }

  /**
   A thread's whole life, from any state that an interleaving can reach: creating it, its return, and a join by
   anyone who may call leave the registry, the tasks and the live resources as they were, but for the ID used up;
   the join hands out the worker's reply, and each of the four resources is released once more.
   */
  lemma ThreadLifecycle(slots: nat, before: seq<Step>, a: nat, ca: Option<nat>, b: nat, cb: Option<nat>,
      reply: Option<string>)
    requires Run(Initial(slots), before).Some?
    requires var s := Run(Initial(slots), before).value; MayCreate(s, a, ca) && b !in s.tasks && MayCall(s, cb)
    ensures var s := Run(Initial(slots), before).value;
      var id, i := s.reg.nextId, FirstFree(s.reg.slots, 0);
      && Run(s, Creation(a, ca) + Ending(b, cb, i, id, reply)) ==
           Some(s.(reg := s.reg.(nextId := (id + 1) % SIZE), place := s.place[id := i],
                   replied := s.replied[id := reply], freed := s.freed + multiset(OfKinds(id, ALL_KINDS)),
                   joins := s.joins + [(id, reply)]))
  {
    hide *;
    var s := Run(Initial(slots), before).value;
    var id, i := s.reg.nextId, FirstFree(s.reg.slots, 0);
    RunFromInitial(slots, before);
    CreationRuns(s, a, ca);
    var t := Begun(s, i);
    BegunForm(s, i);
    BegunFacts(s, a, ca, cb);
    NotYet(s, a, ca);
    BegunOver(s, i);
    RunSplit(s, Creation(a, ca), Ending(b, cb, i, id, reply));
    EndingRuns(t, i, b, cb, reply);
    AllReleased(s.live, s.freed, id, ALL_KINDS);
  }

  /** The registry with the new thread running in slot `i`. */
  function Begun(s: State, i: nat): State
    requires i < |s.reg.slots|
  {
    Issued(s, i).(reg := Issued(s, i).reg.(slots := s.reg.slots[i := Up(s.reg.nextId)]),
                  live := s.live + OfKinds(s.reg.nextId, ALL_KINDS))
  }

  lemma BegunForm(s: State, i: nat)
    requires i < |s.reg.slots|
    ensures Begun(s, i) == Issued(s, i).(reg := Issued(s, i).reg.(slots := s.reg.slots[i := Up(s.reg.nextId)]),
                                         live := s.live + OfKinds(s.reg.nextId, ALL_KINDS))
  {
  }

  lemma BegunOver(s: State, i: nat)
    requires i < |s.reg.slots| && s.reg.slots[i] == FREE
    ensures With(Begun(s, i), i, FREE) == s.reg.(nextId := (s.reg.nextId + 1) % SIZE)
    ensures Begun(s, i).place == s.place[s.reg.nextId := i] && Begun(s, i).joins == s.joins
    ensures Begun(s, i).freed == s.freed && Begun(s, i).replied == s.replied && Begun(s, i).drained == s.drained
    ensures Begun(s, i).tasks == s.tasks && Begun(s, i).live == s.live + OfKinds(s.reg.nextId, ALL_KINDS)
  {
    assert s.reg.slots[i := Up(s.reg.nextId)][i := FREE] == s.reg.slots;
  }

  /** The new thread runs, it alone has the new ID, and nobody is called from it yet. */
  lemma BegunFacts(s: State, a: nat, ca: Option<nat>, cb: Option<nat>)
    requires Inv(s) && Control(s) && Owned(s) && MayCreate(s, a, ca) && MayCall(s, cb)
    ensures var i, id := FirstFree(s.reg.slots, 0), s.reg.nextId;
      && i < |s.reg.slots| && s.reg.slots[i] == FREE && (forall k :: Resource(id, k) !in s.live)
      && var t := Begun(s, i);
      && i < |t.reg.slots| && t.reg.slots[i] == Up(id) && Up(id).worker.Running? && Up(id).id == id
      && Up(id).fields == ALL_KINDS
      && (forall b | b in t.tasks :: t.tasks[b].caller != Some(i)) && MayCall(t, cb) && cb != Some(i)
      && (forall j | 0 <= j < |t.reg.slots| :: Joinable(t.reg.slots[j], id) <==> j == i)
  {
    var i, id := FirstFree(s.reg.slots, 0), s.reg.nextId;
    FreshFacts(s, i, id);
    hide Inv, Control, Owned, OfKinds;
  }

  /** The next ID is nobody's yet, and a free slot runs nothing. */
  lemma FreshFacts(s: State, i: nat, id: nat)
    requires Inv(s) && Control(s) && Owned(s) && id == s.reg.nextId != 0 && i < |s.reg.slots| && !s.reg.slots[i].inUse
    ensures s.reg.slots[i] == FREE && (forall k :: Resource(id, k) !in s.live)
    ensures forall j | 0 <= j < |s.reg.slots| :: !Joinable(s.reg.slots[j], id)
    ensures forall a | a in s.tasks :: s.tasks[a].caller != Some(i)
    ensures forall c | MayCall(s, c) :: c != Some(i)
  {
    FreshId(s);
    SlotOf(s, i);
    forall j | 0 <= j < |s.reg.slots| ensures !Joinable(s.reg.slots[j], id) {
      SlotOf(s, j);
    }
    forall a | a in s.tasks ensures s.tasks[a].caller != Some(i) {
      TaskSlot(s, a);
    }
    hide Control, Inv;
  }

  /** A creation is refused in no other state. */
  lemma CreateAllowed(s: State, a: nat, c: Option<nat>)
    ensures Do(s, Create(a, c)).Some? <==> MayCreate(s, a, c)
  {
    DoForm(s, Create(a, c));
    hide Do;
  }

  /**
   In every interleaving, a join is refused exactly when nobody can join that ID, or only the caller itself has it.
   */
  lemma JoinAllowed(slots: nat, before: seq<Step>, a: nat, c: Option<nat>, id: nat)
    requires Run(Initial(slots), before).Some?
    ensures var s := Run(Initial(slots), before).value;
      Do(s, Join(a, c, id)).Some? <==>
        && a !in s.tasks && MayCall(s, c)
        && exists i :: 0 <= i < |s.reg.slots| && Joinable(s.reg.slots[i], id) && c != Some(i)
  {
    var s := Run(Initial(slots), before).value;
    RunFromInitial(slots, before);
    DoForm(s, Join(a, c, id));
    hide Run, Inv, Control, Owned, JoinsOk, Do, LastJoinable;
    var r := LastJoinable(s.reg.slots, id, |s.reg.slots|);
    forall i | 0 <= i < |s.reg.slots| && Joinable(s.reg.slots[i], id) ensures r == Some(i) {
      SlotOf(s, i);
      SlotOf(s, r.value);
    }
  }

  // ---------------------------------------------------------------- what fails is undone

  /** The steps of a creation that gets `n` resources and then fails. */
  function FailedCreation(a: nat, caller: Option<nat>, n: nat): seq<Step> {
    [Create(a, caller)] + (Acquires(a, n) + ([Fail(a)] + (Frees(a, 4) + [Reset(a)])))
  }

  lemma FailedForm(a: nat, caller: Option<nat>, n: nat)
    ensures FailedCreation(a, caller, n)
      == [Create(a, caller)] + (Acquires(a, n) + ([Fail(a)] + (Frees(a, 4) + [Reset(a)])))
  {
  }

  lemma FailOne(b: State, a: nat, i: nat, t: Slot, c: Option<nat>, id: nat, n: nat,
      live: set<Resource>, freed: multiset<Resource>)
    requires i < |b.reg.slots|
    ensures Do(Mid(b, a, i, t, Task(c, Creating(i, id, n)), live, freed), Fail(a))
      == Some(Mid(b, a, i, t, Task(c, Deleting(i, id, false, false, 4, None)), live, freed))
  {
    var m := Mid(b, a, i, t, Task(c, Creating(i, id, n)), live, freed);
    MidAgain(b, a, i, t, Task(c, Creating(i, id, n)), live, freed);
    DoForm(m, Fail(a));
    assert With(m, i, t) == m.reg by {
      assert m.reg.slots[i := t] == m.reg.slots;
    }
    hide Do, Mid;
  }

  /**
   A creation that fails after any number of acquisitions leaves the registry, the tasks, the live resources and the
   joins as they were, but for the ID used up, and has released each thing it had acquired once.
   */
  lemma FailureUndone(slots: nat, before: seq<Step>, a: nat, c: Option<nat>, n: nat)
    requires Run(Initial(slots), before).Some? && MayCreate(Run(Initial(slots), before).value, a, c) && n <= 4
    ensures var s := Run(Initial(slots), before).value;
      Run(s, FailedCreation(a, c, n)) ==
        Some(Issued(s, FirstFree(s.reg.slots, 0)).(freed := s.freed + multiset(OfKinds(s.reg.nextId, KindsIn(0, n)))))
  {
    hide *;
    var s := Run(Initial(slots), before).value;
    RunFromInitial(slots, before);
    CreateOne(s, a, c);
    NotYet(s, a, c);
    BegunFacts(s, a, c, c);
    var i, id := FirstFree(s.reg.slots, 0), s.reg.nextId;
    var b, ks := Issued(s, i), KindsIn(0, n);
    IssuedKeeps(s, i);
    var t := Slot(true, true, false, id, {}, false, NotStarted, None, Some(a));
    var u, op := t.(fields := ks), Deleting(i, id, false, false, 4, None);
    var live := s.live + OfKinds(id, ks);
    var s1 := Mid(b, a, i, t, Task(c, Creating(i, id, 0)), s.live, s.freed);
    AcquireSome(b, a, i, t, c, id, 0, n, s.live, s.freed);
    assert t.fields + ks == ks;
    var s2 := Mid(b, a, i, u, Task(c, Creating(i, id, n)), live, s.freed);
    FailOne(b, a, i, u, c, id, n, live, s.freed);
    var s3 := Mid(b, a, i, u, Task(c, op), live, s.freed);
    FreeAll(b, a, i, u, c, op, live, s.freed);
    AllReleased(s.live, s.freed, id, ks);
    ResetOne(b, a, i, u, c, op.(left := 0), s.live, s.freed + multiset(OfKinds(id, ks)));
    var s4 := Mid(b, a, i, u, Task(c, op.(left := 0)), s.live, s.freed + multiset(OfKinds(id, ks)));
    FailedForm(a, c, n);
    RunFirst(s, Create(a, c), Acquires(a, n) + ([Fail(a)] + (Frees(a, 4) + [Reset(a)])));
    RunSplit(s1, Acquires(a, n), [Fail(a)] + (Frees(a, 4) + [Reset(a)]));
    RunFirst(s2, Fail(a), Frees(a, 4) + [Reset(a)]);
    RunSplit(s3, Frees(a, 4), [Reset(a)]);
    assert [Reset(a)] == [Reset(a)] + [];
    RunFirst(s4, Reset(a), []);
    RunNone(Do(s4, Reset(a)).value);
    assert s.reg.slots[i := FREE] == s.reg.slots;
  }

  /** A join whose wait fails leaves everything as it was, and so the thread joinable. */
  lemma FailedWaitUndone(slots: nat, before: seq<Step>, a: nat, c: Option<nat>, id: nat)
    requires Run(Initial(slots), before).Some? && Do(Run(Initial(slots), before).value, Join(a, c, id)).Some?
    ensures var s := Run(Initial(slots), before).value;
      Run(s, [Join(a, c, id)] + ([WaitFailed(a)] + [Unclaim(a)])) == Some(s)
  {
    var s := Run(Initial(slots), before).value;
    RunFromInitial(slots, before);
    DoForm(s, Join(a, c, id));
    var i := LastJoinable(s.reg.slots, id, |s.reg.slots|).value;
    SlotOf(s, i);
    hide Run, Do, Mid, LastJoinable, Inv, Control, Owned, JoinsOk;
    JoinOne(s, a, c, i, id);
    var t := s.reg.slots[i].(joining := true, owner := Some(a));
    UnclaimTwo(s, a, i, t, c, id);
    var s1 := Mid(s, a, i, t, Task(c, Waiting(i, id, false)), s.live, s.freed);
    var s2 := Mid(s, a, i, t, Task(c, Unclaiming(i, id, false)), s.live, s.freed);
    RunFirst(s, Join(a, c, id), [WaitFailed(a)] + [Unclaim(a)]);
    RunFirst(s1, WaitFailed(a), [Unclaim(a)]);
    assert [Unclaim(a)] == [Unclaim(a)] + [];
    RunFirst(s2, Unclaim(a), []);
    RunNone(s);
  }

  lemma UnclaimTwo(s: State, a: nat, i: nat, t: Slot, c: Option<nat>, id: nat)
    requires i < |s.reg.slots| && a !in s.tasks && !s.reg.slots[i].joining && s.reg.slots[i].owner == None
    requires t == s.reg.slots[i].(joining := true, owner := Some(a))
    ensures var s1 := Mid(s, a, i, t, Task(c, Waiting(i, id, false)), s.live, s.freed);
      var s2 := Mid(s, a, i, t, Task(c, Unclaiming(i, id, false)), s.live, s.freed);
      Do(s1, WaitFailed(a)) == Some(s2) && Do(s2, Unclaim(a)) == Some(s)
  {
    var s1 := Mid(s, a, i, t, Task(c, Waiting(i, id, false)), s.live, s.freed);
    var s2 := Mid(s, a, i, t, Task(c, Unclaiming(i, id, false)), s.live, s.freed);
    MidAgain(s, a, i, t, Task(c, Waiting(i, id, false)), s.live, s.freed);
    assert With(s1, i, t) == s1.reg by {
      assert s1.reg.slots[i := t] == s1.reg.slots;
    }
    DoForm(s1, WaitFailed(a));
    DoForm(s2, Unclaim(a));
    assert s.reg.slots[i := t][i := s.reg.slots[i]] == s.reg.slots;
    assert s.tasks[a := Task(c, Unclaiming(i, id, false))] - {a} == s.tasks;
    hide Do;
  }

  // ---------------------------------------------------------------- a whole shutdown

  /** Only the drain loop is at work, and every worker has returned. */
  ghost predicate AllDone(s: State, a: nat) {
    && s.tasks == map[a := Task(None, Draining)]
    && forall i | 0 <= i < |s.reg.slots| && s.reg.slots[i].inUse :: s.reg.slots[i].worker.Done?
  }

  lemma {:induction false} UsedLess(slots: seq<Slot>, i: nat)
    requires i < |slots| && slots[i].inUse
    ensures Used(slots[i := FREE]) == Used(slots) - 1
    decreases |slots|
  {
    var n := |slots| - 1;
    assert slots[i := FREE][..n] == if i < n then slots[..n][i := FREE] else slots[..n];
    if i < n {
      UsedLess(slots[..n], i);
    }
  }

  /** One round of the drain loop. */
  function Round(a: nat): seq<Step> {
    [PollSlots(a)] + ([DrainJoin(a)] + ([WaitDone(a)] + Frees(a, 4) + [Reset(a)]))
  }

  lemma RoundForm(a: nat)
    ensures Round(a) == [PollSlots(a)] + ([DrainJoin(a)] + ([WaitDone(a)] + Frees(a, 4) + [Reset(a)]))
  {
  }

  /** While a worker is left, a round joins one and frees its slot. */
  lemma RoundRuns(s: State, a: nat) returns (i: nat)
    requires Inv(s) && AllDone(s, a) && exists j :: 0 <= j < |s.reg.slots| && s.reg.slots[j].inUse
    ensures i < |s.reg.slots| && s.reg.slots[i].inUse && Run(s, Round(a)).Some?
    ensures var t := Run(s, Round(a)).value;
      && t.tasks == s.tasks && t.reg == s.reg.(slots := s.reg.slots[i := FREE])
      && t.joins == s.joins + [(s.reg.slots[i].id, s.reg.slots[i].reply)]
  {
    InvParts(s);
    AllUnclaimed(s, a);
    PositiveIds(s);
    var n := |s.reg.slots|;
    PollMeans(s.reg.slots, n);
    hide Inv, Control, Owned, JoinsOk, Poll, LastJoinable, Run, Frees, Unlive, Refreed, Mid;
    var l := LastUnclaimed(s.reg.slots, n);
    var id := s.reg.slots[l].id;
    assert Joinable(s.reg.slots[l], id);
    i := LastJoinable(s.reg.slots, id, n).value;
    DrainLooks(s, a, id);
    var b := s.(tasks := map[]);
    var t := s.reg.slots[i].(joining := true, owner := Some(a));
    var s1 := s.(tasks := s.tasks[a := s.tasks[a].(op := Selected(id))]);
    var s2 := Claimed(s, a, i, Waiting(i, id, true));
    ClaimedMid(s, a, i, id);
    JoinedAndFreed(b, a, i, t, None, id, true, s.live, s.freed);
    var rest := [WaitDone(a)] + Frees(a, 4) + [Reset(a)];
    RunFirst(s, PollSlots(a), [DrainJoin(a)] + rest);
    RunFirst(s1, DrainJoin(a), rest);
    RoundForm(a);
    assert b.tasks[a := Task(None, Draining)] == s.tasks;
  }

  lemma ClaimedMid(s: State, a: nat, i: nat, id: nat)
    requires i < |s.reg.slots| && s.tasks == map[a := Task(None, Draining)]
    ensures Claimed(s, a, i, Waiting(i, id, true)) == Mid(s.(tasks := map[]), a, i,
        s.reg.slots[i].(joining := true, owner := Some(a)), Task(None, Waiting(i, id, true)), s.live, s.freed)
  {
    assert s.tasks[a := Task(None, Waiting(i, id, true))] == map[a := Task(None, Waiting(i, id, true))];
  }

  /** With only the drain loop at work nobody claims a slot. */
  lemma AllUnclaimed(s: State, a: nat)
    requires Inv(s) && Control(s) && AllDone(s, a)
    ensures forall i | 0 <= i < |s.reg.slots| && s.reg.slots[i].inUse :: Unclaimed(s.reg.slots[i])
  {
    hide Inv, Control;
    forall i | 0 <= i < |s.reg.slots| && s.reg.slots[i].inUse ensures Unclaimed(s.reg.slots[i]) {
      SlotOf(s, i);
    }
  }

  lemma LastLook(s: State, a: nat)
    requires AllDone(s, a) && forall i | 0 <= i < |s.reg.slots| :: !s.reg.slots[i].inUse
    ensures Run(s, [PollSlots(a)]) == Some(s.(tasks := map[], drained := true))
  {
    assert s.tasks - {a} == map[];
    var t := s.(tasks := map[], drained := true);
    assert Do(s, PollSlots(a)) == Some(t);
    hide Do;
    RunFirst(s, PollSlots(a), []);
    assert [PollSlots(a)] + [] == [PollSlots(a)];
    RunNone(t);
  }

  lemma {:induction false} Drains(s: State, a: nat) returns (steps: seq<Step>)
    requires Inv(s) && AllDone(s, a)
    ensures Run(s, steps).Some?
    ensures var t := Run(s, steps).value; t.drained && t.tasks == map[] && |t.joins| == |s.joins| + Used(s.reg.slots)
    decreases Used(s.reg.slots)
  {
    if exists j :: 0 <= j < |s.reg.slots| && s.reg.slots[j].inUse {
      var i := RoundRuns(s, a);
      var t := Run(s, Round(a)).value;
      RunInv(s, Round(a));
      UsedLess(s.reg.slots, i);
      hide Inv, Run, Round;
      var more := Drains(t, a);
      RunSplit(s, Round(a), more);
      steps := Round(a) + more;
    } else {
      hide Inv, Run;
      LastLook(s, a);
      NoneUsed(s.reg.slots);
      steps := [PollSlots(a)];
    }
  }

  lemma {:induction false} NoneUsed(slots: seq<Slot>)
    requires forall i | 0 <= i < |slots| :: !slots[i].inUse
    ensures Used(slots) == 0
    decreases |slots|
  {
    if slots != [] {
      NoneUsed(slots[..|slots| - 1]);
    }
  }

  /**
   From any state that an interleaving can reach, a drain loop that is alone with workers that have returned can always
   go on until the shutdown is over, and it joins every one of them.
   */
  lemma ShutdownCompletes(slots: nat, before: seq<Step>, a: nat)
    requires Run(Initial(slots), before).Some? && AllDone(Run(Initial(slots), before).value, a)
    ensures var s := Run(Initial(slots), before).value;
      exists steps :: Run(s, steps).Some? && Run(s, steps).value.drained && Run(s, steps).value.tasks == map[]
        && |Run(s, steps).value.joins| == |s.joins| + Used(s.reg.slots)
  {
    RunFromInitial(slots, before);
    hide Inv, Control, Owned, JoinsOk, Run, AllDone;
    var steps := Drains(Run(Initial(slots), before).value, a);
  }
}
