/**
 Worker threads of a translated module: a registry of slots changed under a lock, and the unlocked work of
 creating, joining and deleting between the locked regions. Any number of tasks interleave step by step.
 */
module Threads {
  import opened Options

  const SIZE: nat := 0x1_0000_0000_0000_0000

  /** What a worker owns, in the order it is acquired; released in the opposite order. */
  datatype Kind = Instance | Stack | Tls | Input

  function Rank(k: Kind): nat {
    match k case Instance => 0 case Stack => 1 case Tls => 2 case Input => 3
  }

  function KindAt(n: nat): Kind
    requires n < 4
  {
    if n == 0 then Instance else if n == 1 then Stack else if n == 2 then Tls else Input
  }

  datatype Worker = NotStarted | Running | Done | Joined

  /** A slot; `owner` is the task that claimed it for creating or joining. */
  datatype Slot = Slot(inUse: bool, creating: bool, joining: bool, id: nat, fields: set<Kind>, handle: bool,
                       worker: Worker, reply: Option<string>, owner: Option<nat>)

  const FREE := Slot(false, false, false, 0, {}, false, NotStarted, None, None)

  datatype Registry = Registry(slots: seq<Slot>, nextId: nat, stopping: bool)

  /** The first slot at or after `i` that is not in use. */
  function FirstFree(slots: seq<Slot>, i: nat): (j: nat)
    requires i <= |slots|
    ensures i <= j <= |slots| && (j < |slots| ==> !slots[j].inUse)
    ensures forall k | i <= k < j :: slots[k].inUse
    decreases |slots| - i
  {
    if i == |slots| || !slots[i].inUse then i else FirstFree(slots, i + 1)
  }

  predicate Joinable(t: Slot, id: nat) { t.inUse && t.id == id && !t.creating && !t.joining }

  /** The last of the first `n` slots that can be joined as `id`. */
  function LastJoinable(slots: seq<Slot>, id: nat, n: nat): (r: Option<nat>)
    requires n <= |slots|
    ensures r.Some? ==> r.value < n && Joinable(slots[r.value], id)
    ensures r.None? ==> forall i | 0 <= i < n :: !Joinable(slots[i], id)
  {
    if n == 0 then None else if Joinable(slots[n - 1], id) then Some(n - 1) else LastJoinable(slots, id, n - 1)
  }

  /** How many slots are in use, and the ID of the last one that nobody has claimed (0: none). */
  function Poll(slots: seq<Slot>, n: nat): (r: (nat, nat))
    requires n <= |slots|
    ensures r.0 == 0 <==> forall i | 0 <= i < n :: !slots[i].inUse
  {
    if n == 0 then (0, 0)
    else
      var (remaining, id) := Poll(slots, n - 1);
      var t := slots[n - 1];
      if t.inUse then (remaining + 1, if !t.creating && !t.joining then t.id else id) else (remaining, id)
  }

  /** Claims the first free slot for a new thread. */
  function Claim(r: Registry, a: nat): Option<(Registry, nat)> {
    var i := FirstFree(r.slots, 0);
    if r.stopping || i == |r.slots| || r.nextId == 0 then None
    else
      var t := FREE.(inUse := true, creating := true, id := r.nextId, owner := Some(a));
      Some((Registry(r.slots[i := t], (r.nextId + 1) % SIZE, r.stopping), i))
  }

  /** Where a task stands. */
  datatype Op =
    | Creating(slot: nat, id: nat, stage: nat)
    | Starting(slot: nat, id: nat)
    | Publishing(slot: nat, id: nat)
    | Waiting(slot: nat, id: nat, drain: bool)
    | Unclaiming(slot: nat, id: nat, drain: bool)
    | Deleting(slot: nat, id: nat, joined: bool, drain: bool, left: nat, reply: Option<string>)
    | Draining
    | Selected(wanted: nat)

  /** A task, and the slot of the worker it runs on, if any. */
  datatype Task = Task(caller: Option<nat>, op: Op)

  datatype Resource = Resource(id: nat, kind: Kind)

  /** Everything: the registry, the running tasks, and the history. */
  datatype State = State(
    reg: Registry,
    tasks: map<nat, Task>,
    place: map<nat, nat>,                // the slot each issued ID was given
    live: set<Resource>,
    freed: multiset<Resource>,
    replied: map<nat, Option<string>>,   // what each finished worker left
    joins: seq<(nat, Option<string>)>,   // successful joins, in order
    drained: bool                        // a shutdown has returned
  )

  function Initial(slots: nat): State {
    State(Registry(seq(slots, i => FREE), 1, false), map[], map[], {}, multiset{}, map[], [], false)
  }

  /** One atomic step of a task, or of a worker. */
  datatype Step =
    | Create(a: nat, caller: Option<nat>)
    | Acquire(a: nat, got: bool)         // instance, stack, TLS, input; a thread without TLS skips it
    | Fail(a: nat)
    | Start(a: nat)
    | SetHandle(a: nat)
    | Publish(a: nat)
    | Exit(slot: nat, reply: Option<string>)
    | Join(a: nat, caller: Option<nat>, id: nat)
    | WaitDone(a: nat)
    | WaitFailed(a: nat)
    | Unclaim(a: nat)
    | Free(a: nat)
    | Reset(a: nat)
    | Shutdown(a: nat)
    | PollSlots(a: nat)
    | DrainJoin(a: nat)

  predicate MayCall(s: State, caller: Option<nat>) {
    caller.Some? ==> caller.value < |s.reg.slots| && s.reg.slots[caller.value].worker.Running?
  }

  function With(s: State, i: nat, t: Slot): Registry
    requires i < |s.reg.slots|
  {
    s.reg.(slots := s.reg.slots[i := t])
  }

  function Put(s: State, a: nat, op: Op): map<nat, Task>
    requires a in s.tasks
  {
    s.tasks[a := s.tasks[a].(op := op)]
  }

  /** A task is over; a join made for a shutdown goes back to its loop. */
  function Over(s: State, a: nat, drain: bool): map<nat, Task>
    requires a in s.tasks
  {
    if drain then Put(s, a, Draining) else s.tasks - {a}
  }

  predicate HasSlot(op: Op) { !op.Draining? && !op.Selected? }

  /** The slot of task `a`, which stands at an operation on a slot. */
  predicate At(s: State, a: nat) { a in s.tasks && HasSlot(s.tasks[a].op) && s.tasks[a].op.slot < |s.reg.slots| }

  function DoFail(s: State, a: nat): Option<State> {
    if !At(s, a) || !s.tasks[a].op.Creating? then None
    else
      var op := s.tasks[a].op;
      Some(s.(tasks := Put(s, a, Deleting(op.slot, op.id, false, false, 4, None))))
  }

  function DoStart(s: State, a: nat): Option<State> {
    if !At(s, a) || !s.tasks[a].op.Creating? || s.tasks[a].op.stage != 4 then None
    else
      var op := s.tasks[a].op;
      var t := s.reg.slots[op.slot].(worker := Running);
      Some(s.(reg := With(s, op.slot, t), tasks := Put(s, a, Starting(op.slot, op.id))))
  }

  function DoSetHandle(s: State, a: nat): Option<State> {
    if !At(s, a) || !s.tasks[a].op.Starting? then None
    else
      var op := s.tasks[a].op;
      var t := s.reg.slots[op.slot].(handle := true);
      Some(s.(reg := With(s, op.slot, t), tasks := Put(s, a, Publishing(op.slot, op.id))))
  }

  function DoPublish(s: State, a: nat): Option<State> {
    if !At(s, a) || !s.tasks[a].op.Publishing? then None
    else
      var op := s.tasks[a].op;
      var t := s.reg.slots[op.slot].(creating := false, owner := None);
      Some(s.(reg := With(s, op.slot, t), tasks := s.tasks - {a}))
  }

  function DoWaitDone(s: State, a: nat): Option<State> {
    if !At(s, a) || !s.tasks[a].op.Waiting? || !s.reg.slots[s.tasks[a].op.slot].worker.Done? then None
    else
      var op := s.tasks[a].op;
      var t := s.reg.slots[op.slot];
      Some(s.(reg := With(s, op.slot, t.(worker := Joined, reply := None)),
              tasks := Put(s, a, Deleting(op.slot, op.id, true, op.drain, 4, t.reply))))
  }

  function DoWaitFailed(s: State, a: nat): Option<State> {
    if !At(s, a) || !s.tasks[a].op.Waiting? then None
    else
      var op := s.tasks[a].op;
      Some(s.(tasks := Put(s, a, Unclaiming(op.slot, op.id, op.drain))))
  }

  function DoUnclaim(s: State, a: nat): Option<State> {
    if !At(s, a) || !s.tasks[a].op.Unclaiming? then None
    else
      var op := s.tasks[a].op;
      var t := s.reg.slots[op.slot].(joining := false, owner := None);
      Some(s.(reg := With(s, op.slot, t), tasks := Over(s, a, op.drain)))
  }

  function DoShutdown(s: State, a: nat): Option<State> {
    if a in s.tasks then None
    else Some(s.(reg := s.reg.(stopping := true), tasks := s.tasks[a := Task(None, Draining)]))
  }

  function DoCreate(s: State, a: nat, caller: Option<nat>): Option<State> {
    if a in s.tasks || !MayCall(s, caller) then None
    else
      match Claim(s.reg, a)
      case None => None
      case Some((reg, i)) =>
        Some(s.(reg := reg, tasks := s.tasks[a := Task(caller, Creating(i, s.reg.nextId, 0))],
                place := s.place[s.reg.nextId := i]))
  }

  function DoAcquire(s: State, a: nat, got: bool): Option<State> {
    if !At(s, a) || !s.tasks[a].op.Creating? || s.tasks[a].op.stage >= 4 then None
    else
      var op := s.tasks[a].op;
      var k := KindAt(op.stage);
      if !got && !k.Tls? then None
      else
        var t := s.reg.slots[op.slot];
        var next := s.(tasks := Put(s, a, op.(stage := op.stage + 1)));
        if got then
          Some(next.(reg := With(s, op.slot, t.(fields := t.fields + {k})), live := s.live + {Resource(op.id, k)}))
        else Some(next)
  }

  /** A worker's entry function returns; the worker is not inside a call to the host then. */
  function DoExit(s: State, i: nat, reply: Option<string>): Option<State> {
    if i >= |s.reg.slots| || !s.reg.slots[i].worker.Running?
      || (exists a :: a in s.tasks && s.tasks[a].caller == Some(i)) then None
    else
      var t := s.reg.slots[i];
      Some(s.(reg := With(s, i, t.(worker := Done, reply := reply)), replied := s.replied[t.id := reply]))
  }

  function DoJoin(s: State, a: nat, caller: Option<nat>, id: nat): Option<State> {
    if a in s.tasks || !MayCall(s, caller) then None
    else
      match LastJoinable(s.reg.slots, id, |s.reg.slots|)
      case None => None
      case Some(i) =>
        if caller == Some(i) then None
        else
          var t := s.reg.slots[i].(joining := true, owner := Some(a));
          Some(s.(reg := With(s, i, t), tasks := s.tasks[a := Task(caller, Waiting(i, id, false))]))
  }

  /** Releases the next resource that the slot's fields name. */
  function DoFree(s: State, a: nat): Option<State> {
    if !At(s, a) || !s.tasks[a].op.Deleting? || s.tasks[a].op.left == 0 || s.tasks[a].op.left > 4 then None
    else
      var op := s.tasks[a].op;
      var k := KindAt(op.left - 1);
      var next := s.(tasks := Put(s, a, op.(left := op.left - 1)));
      if k in s.reg.slots[op.slot].fields then
        Some(next.(live := s.live - {Resource(op.id, k)}, freed := s.freed + multiset{Resource(op.id, k)}))
      else Some(next)
  }

  function DoReset(s: State, a: nat): Option<State> {
    if !At(s, a) || !s.tasks[a].op.Deleting? || s.tasks[a].op.left != 0 then None
    else
      var op := s.tasks[a].op;
      Some(s.(reg := With(s, op.slot, FREE), tasks := Over(s, a, op.drain),
              joins := if op.joined then s.joins + [(op.id, op.reply)] else s.joins))
  }

  /** A shutdown returns exactly when its look at the slots finds none in use. */
  function DoPollSlots(s: State, a: nat): (r: Option<State>)
    ensures r.Some? ==> (a !in r.value.tasks <==> forall i | 0 <= i < |s.reg.slots| :: !s.reg.slots[i].inUse)
  {
    if a !in s.tasks || !s.tasks[a].op.Draining? then None
    else
      var (remaining, id) := Poll(s.reg.slots, |s.reg.slots|);
      if remaining == 0 then Some(s.(tasks := s.tasks - {a}, drained := true))
      else if id != 0 then Some(s.(tasks := Put(s, a, Selected(id))))
      else Some(s)
  }

  function DoDrainJoin(s: State, a: nat): Option<State> {
    if a !in s.tasks || !s.tasks[a].op.Selected? then None
    else
      var id := s.tasks[a].op.wanted;
      match LastJoinable(s.reg.slots, id, |s.reg.slots|)
      case None => Some(s.(tasks := Put(s, a, Draining)))
      case Some(i) =>
        var t := s.reg.slots[i].(joining := true, owner := Some(a));
        Some(s.(reg := With(s, i, t), tasks := Put(s, a, Waiting(i, id, true))))
  }

  function Do(s: State, st: Step): Option<State> {
    match st
    case Create(a, caller) => DoCreate(s, a, caller)
    case Acquire(a, got) => DoAcquire(s, a, got)
    case Fail(a) => DoFail(s, a)
    case Start(a) => DoStart(s, a)
    case SetHandle(a) => DoSetHandle(s, a)
    case Publish(a) => DoPublish(s, a)
    case Exit(i, reply) => DoExit(s, i, reply)
    case Join(a, caller, id) => DoJoin(s, a, caller, id)
    case WaitDone(a) => DoWaitDone(s, a)
    case WaitFailed(a) => DoWaitFailed(s, a)
    case Unclaim(a) => DoUnclaim(s, a)
    case Free(a) => DoFree(s, a)
    case Reset(a) => DoReset(s, a)
    case Shutdown(a) => DoShutdown(s, a)
    case PollSlots(a) => DoPollSlots(s, a)
    case DrainJoin(a) => DoDrainJoin(s, a)
  }

  // ---------------------------------------------------------------- the invariant

  /** Resources that a slot's fields name and that are not released yet. */
  predicate Held(s: State, i: nat, k: Kind)
    requires i < |s.reg.slots|
  {
    var t := s.reg.slots[i];
    t.inUse && k in t.fields &&
    (t.owner.Some? && t.owner.value in s.tasks && s.tasks[t.owner.value].op.Deleting? ==>
      Rank(k) < s.tasks[t.owner.value].op.left)
  }

  predicate FromCreate(op: Op) { op.Creating? || op.Starting? || op.Publishing? || (op.Deleting? && !op.joined) }

  /** Operations of a shutdown loop. */
  predicate ForShutdown(op: Op) {
    op.Draining? || op.Selected? || (op.Waiting? && op.drain) || (op.Unclaiming? && op.drain)
      || (op.Deleting? && op.drain)
  }

  predicate Ready(t: Slot) { Instance in t.fields && Stack in t.fields && Input in t.fields }

  predicate Started(t: Slot) { t.worker.Running? || t.worker.Done? }

  /** A slot in use belongs to one issued ID, and to at most one task. */
  predicate SlotOk(s: State, i: nat)
    requires i < |s.reg.slots|
  {
    var t := s.reg.slots[i];
    if !t.inUse then t == FREE
    else
      && t.id > 0 && t.id in s.place && s.place[t.id] == i
      && (t.creating || t.joining <==> t.owner.Some?) && !(t.creating && t.joining)
      && (t.owner.Some? ==>
            var a := t.owner.value;
            At(s, a) && s.tasks[a].op.slot == i && s.tasks[a].op.id == t.id
              && (t.creating <==> FromCreate(s.tasks[a].op)))
      && (t.owner.None? ==> t.handle && Started(t))
      && (Started(t) ==> Ready(t))
      && (t.worker.Done? ==> t.id in s.replied && t.reply == s.replied[t.id])
      && (t.worker.NotStarted? || t.worker.Running? ==> t.id !in s.replied)
  }

  /** A task owns its slot, and the slot is as far as the task is. */
  predicate OpOk(s: State, a: nat)
    requires a in s.tasks
  {
    var op := s.tasks[a].op;
    HasSlot(op) ==>
      && op.slot < |s.reg.slots|
      && var t := s.reg.slots[op.slot];
      && t.inUse && t.owner == Some(a) && t.id == op.id && (t.creating <==> FromCreate(op))
      && match op
         case Creating(_, _, n) => t.worker.NotStarted? && n <= 4 && (forall k | k in t.fields :: Rank(k) < n)
             && (n > 0 ==> Instance in t.fields) && (n > 1 ==> Stack in t.fields) && (n > 3 ==> Input in t.fields)
         case Starting(_, _) => Started(t)
         case Publishing(_, _) => Started(t) && t.handle
         case Waiting(_, _, _) => Started(t) && t.handle && s.tasks[a].caller != Some(op.slot)
         case Unclaiming(_, _, _) => Started(t) && t.handle
         case Deleting(_, id, joined, _, left, reply) => left <= 4 && !t.worker.Running? && !t.worker.Done?
             && (if joined then t.worker.Joined? && id in s.replied && reply == s.replied[id] else t.worker.NotStarted?)
         case _ => true
  }

  predicate CallerOk(s: State, a: nat)
    requires a in s.tasks
  {
    MayCall(s, s.tasks[a].caller)
  }

  /** The locked part: slots, tasks and IDs fit together. */
  ghost predicate Control(s: State) {
    && (forall i | 0 <= i < |s.reg.slots| :: SlotOk(s, i))
    && (forall a | a in s.tasks :: OpOk(s, a))
    && (forall a | a in s.tasks :: CallerOk(s, a))
    && (forall id | id in s.place ::
          && 0 < id < SIZE && (s.reg.nextId == 0 || id < s.reg.nextId)
          && s.place[id] < |s.reg.slots|)
    && (forall id | id in s.replied :: id in s.place)
    && s.reg.nextId < SIZE
    && (s.drained ==> s.reg.stopping && forall i | 0 <= i < |s.reg.slots| :: !s.reg.slots[i].inUse)
    && (forall a | a in s.tasks && ForShutdown(s.tasks[a].op) :: s.reg.stopping && s.tasks[a].caller.None?)
  }

  /** Nothing is released twice, nothing released is held, and whatever is live is held by the slot of its ID. */
  ghost predicate Owned(s: State) {
    && (forall i, k | 0 <= i < |s.reg.slots| && Held(s, i, k) :: Resource(s.reg.slots[i].id, k) in s.live)
    && (forall r | r in s.live :: r.id in s.place && var i := s.place[r.id];
          i < |s.reg.slots| && s.reg.slots[i].id == r.id && Held(s, i, r.kind))
    && (forall r | r in s.freed :: s.freed[r] == 1 && r !in s.live && r.id in s.place &&
          var i := s.place[r.id]; i < |s.reg.slots| && (s.reg.slots[i].id == r.id ==> r.kind in s.reg.slots[i].fields))
  }

  /** An ID is joined at most once, after its slot was released, with the reply its worker left. */
  ghost predicate JoinsOk(s: State) {
    && (forall j | 0 <= j < |s.joins| :: s.joins[j].0 in s.place &&
          var i := s.place[s.joins[j].0]; i < |s.reg.slots| && s.reg.slots[i].id != s.joins[j].0)
    && (forall j | 0 <= j < |s.joins| :: s.joins[j].0 in s.replied && s.joins[j].1 == s.replied[s.joins[j].0])
    && (forall j, l | 0 <= j < l < |s.joins| :: s.joins[j].0 != s.joins[l].0)
  }

  ghost predicate Inv(s: State) { Control(s) && Owned(s) && JoinsOk(s) }
}
