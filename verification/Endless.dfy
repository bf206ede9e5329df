/**
 Runs without end: while the source goes on, so does the emitted C. With the correctness of the runs that end,
 this makes the two agree in both directions, but for traps hidden by an address that wraps around.
 */
module Endless {
  import opened Options
  import opened Wasm
  import opened CLang
  import opened Translator
  import opened Allocator
  import opened CodeSound
  import opened Statements
  import opened Scoping
  import opened Blocks
  import opened Braces
  import opened Functions
  import opened Steps
  import opened Sim
  import opened SimPlain
  import opened SimControl
  import opened SimCalls
  import opened SimBlocks
  import opened SimEnds
  import opened SimArms
  import opened SimSeq
  import opened Correct

  // ---------------------------------------------------------------- running on

  /** The machine is still running after a number of steps that grows with `fuel`. */
  ghost predicate Busy(p: seq<CFunc>, st: Machine, fuel: nat) {
    exists n: nat :: 2 * n >= fuel && Run(p, st, n).Running?
  }

  lemma BusyNow(p: seq<CFunc>, st: Machine)
    requires st.Running?
    ensures Busy(p, st, 0)
  {
    assert Run(p, st, 0) == st;
  }

  lemma BusyAfter(p: seq<CFunc>, st: Machine, st': Machine, fuel: nat)
    requires Leads(p, st, st') && Busy(p, st', fuel)
    ensures Busy(p, st, fuel)
  {
    var k: nat :| Run(p, st, k) == st';
    var n: nat :| 2 * n >= fuel && Run(p, st', n).Running?;
    RunAdds(p, st, k, n);
    assert Run(p, st, k + n).Running?;
  }

  /** A step makes up for two units of fuel. */
  lemma BusyStep(p: seq<CFunc>, st: Machine, fuel: nat, more: nat)
    requires Busy(p, Step(p, st), fuel) && more <= fuel + 2
    ensures Busy(p, st, more)
  {
    hide Step;
    var n: nat :| 2 * n >= fuel && Run(p, Step(p, st), n).Running?;
    assert Run(p, st, n + 1) == Run(p, Step(p, st), n);
  }

  lemma AtRuns(a: Place, pc: nat, env: Env, store: Store)
    ensures Busy(a.p, At(a, pc, env, store), 0)
  {
    BusyNow(a.p, At(a, pc, env, store));
  }

  // ---------------------------------------------------------------- single steps

  lemma LabelStep(a: Place, pc: nat, l: nat, env: Env, store: Store)
    requires a.fn < |a.p| && pc < |a.Body()| && a.Body()[pc] == LabelHere(l)
    ensures Step(a.p, At(a, pc, env, store)) == At(a, pc + 1, env, store)
  {
  }

  lemma CallStep(a: Place, pc: nat, to: Option<Dst>, f: nat, args: seq<nat>, xs: seq<Val>, env: Env, store: Store)
    requires a.fn < |a.p| && CodeAt(a, pc, [CallTo(to, f, args)]) && HoldsAll(env, args, xs)
    ensures Step(a.p, At(a, pc, env, store)) == Enter(a.p, f, xs, Back(a, pc, env, to), store)
  {
    StmtAt(a, pc, CallTo(to, f, args));
    forall i | 0 <= i < |args| ensures args[i] in env && env[args[i]] == xs[i] {
      assert Holds(env, args[i], xs[i]);
    }
    assert seq(|args|, (i: nat) requires i < |args| && args[i] in env => env[args[i]]) == xs;
    hide Enter;
  }

  // ---------------------------------------------------------------- the induction

  lemma {:induction false} BusyCode(a: Place, g: Gen, c: Code, ts: seq<ValType>, pc: nat, vals: seq<Val>, st: State,
      env: Env, fuel: nat)
    requires Poised(a, g, ts, pc) && CheckCode(a.cx, GenLabels(a.cx, g), c, ts) != Bad && TransCode(a.cx, g, c).Emit?
    requires CodeAt(a, pc, TransCode(a.cx, g, c).out) && Rel(a.cx, g, vals, ts, st, env)
    requires Exec(a.cx.m, c, vals, st, fuel).OutOfFuel?
    ensures Busy(a.p, At(a, pc, env, st.store), fuel)
    decreases fuel, c, 1
  {
    hide Poised, GenLabels, CodeAt, Rel, Follows, CheckInstr, TransInstr, ExecInstr, After, ScopedAfter, Names, Sound,
         Ops, InView, LabelsReady, PlaceOk, GoodContext, Kept, Widens, ScopeOf, Busy, Leads;
    PoisedFacts(a, g, ts, pc);
    match c
    case Nil =>
    case Cons(i, rest) =>
      var e1, r1 := TransInstr(a.cx, g, i), CheckInstr(a.cx, GenLabels(a.cx, g), i, ts);
      InstrIsSound(a.cx, g, i, ts);
      AfterEmits(a.cx, g, ts, e1, r1);
      NamesIs(a, pc);
      InstrScoped(a.cx, g, i, ts, ScopeOf(a, pc));
      if r1.Live? {
        CodeSplit(a, pc, e1.out, TransCode(a.cx, e1.g, rest).out);
      }
      var o1 := ExecInstr(a.cx.m, i, vals, st, fuel);
      if o1.Normal? {
        var env1 := SimInstr(a, g, i, ts, pc, vals, st, env, fuel);
        FollowsLive(a, g, ts, pc, env, st.store, o1, r1, e1.g, pc + |e1.out|, env1);
        FollowsLeads(a, g, ts, pc, env, st.store, o1, r1, e1.g, pc + |e1.out|, env1);
        PoisedNext(a, g, ts, pc, e1, r1);
        AfterStep(a.cx, g, ts, e1, r1);
        BusyCode(a, e1.g, rest, r1.ts, pc + |e1.out|, o1.vs, o1.st, env1, fuel);
        BusyAfter(a.p, At(a, pc, env, st.store), At(a, pc + |e1.out|, env1, o1.st.store), fuel);
      } else {
        BusyInstr(a, g, i, ts, pc, vals, st, env, fuel);
      }
  }

  lemma FollowsLeads(a: Place, g: Gen, ts: seq<ValType>, pc: nat, env: Env, store: Store, o: Outcome, r: Check,
      g': Gen, pc': nat, env': Env)
    requires |ts| <= |g.stack| && Follows(a, g, |g.stack| - |ts|, pc, env, store, o, r, g', pc', env') && o.Normal?
    ensures Leads(a.p, At(a, pc, env, store), At(a, pc', env', o.st.store))
  {
  }

  lemma {:induction false} BusyInstr(a: Place, g: Gen, i: Instr, ts: seq<ValType>, pc: nat, vals: seq<Val>, st: State,
      env: Env, fuel: nat)
    requires Poised(a, g, ts, pc) && CheckInstr(a.cx, GenLabels(a.cx, g), i, ts) != Bad && TransInstr(a.cx, g, i).Emit?
    requires CodeAt(a, pc, TransInstr(a.cx, g, i).out) && Rel(a.cx, g, vals, ts, st, env)
    requires ExecInstr(a.cx.m, i, vals, st, fuel).OutOfFuel?
    ensures Busy(a.p, At(a, pc, env, st.store), fuel)
    decreases fuel, i, 7
  {
    hide *;
    OnlyThese(a.cx.m, i, vals, st, fuel);
    if IsBlock(i) {
      BusyBlock(a, g, i, ts, pc, vals, st, env, fuel);
    } else {
      TransPlain(a.cx, g, i);
      BusyCall(a, g, i.f, ts, pc, vals, st, env, fuel);
    }
  }

  /** Only blocks and calls use fuel. */
  lemma OnlyThese(m: Module, i: Instr, vs: seq<Val>, st: State, fuel: nat)
    requires ExecInstr(m, i, vs, st, fuel).OutOfFuel?
    ensures IsBlock(i) || i.Call?
  {
  }

  lemma {:induction false} BusyCall(a: Place, g: Gen, f: nat, ts: seq<ValType>, pc: nat, vals: seq<Val>, st: State,
      env: Env, fuel: nat)
    requires Poised(a, g, ts, pc) && CheckInstr(a.cx, GenLabels(a.cx, g), Call(f), ts) != Bad
      && EmitPlain(a.cx, g, Call(f)).Emit?
    requires CodeAt(a, pc, EmitPlain(a.cx, g, Call(f)).out) && Rel(a.cx, g, vals, ts, st, env)
    requires ExecInstr(a.cx.m, Call(f), vals, st, fuel).OutOfFuel?
    ensures Busy(a.p, At(a, pc, env, st.store), fuel)
    decreases fuel, Call(f), 6
  {
    hide *;
    var m := a.cx.m;
    PoisedFacts(a, g, ts, pc);
    CallIs(a.cx, g, f, ts);
    CallShape(a.cx, g, f, ts, Names(a, pc));
    var k := |TypeAt(m, f).params|;
    OperandsHeld(a.cx, g, vals, ts, st, env, k);
    ExecCall(m, f, vals, st, fuel);
    if fuel == 0 {
      AtRuns(a, pc, env, st.store);
    } else {
      var to := CallDst(a.cx, g, f);
      var args, callers := Tail(vals, k), Back(a, pc, env, to);
      ReadyToCall(a, g, f, vals, ts, st, env, args);
      CalledOut(ExecFunc(m, f, args, st.store, fuel - 1), vals[..|vals| - k], st);
      BusyFunc(m, a.p, f, args, st.store, callers, fuel - 1);
      CallStep(a, pc, to, f, Opnds(g, k), args, env, st.store);
      BusyStep(a.p, At(a, pc, env, st.store), if fuel > 1 then fuel - 2 else 0, fuel);
    }
  }

  lemma CalledOut(o: Outcome, low: seq<Val>, st: State)
    ensures Called(o, low, st).OutOfFuel? ==> o.OutOfFuel?
  {
  }

  /** The code of an arm of a block. */
  lemma {:induction false} BusyArm(a: Place, b: BlockSite, pc: nat, g: Gen, sc: Scope, at: nat, c: Code, own: nat,
      st: State, env: Env, fuel: nat)
    requires Sited(a, b, pc) && InArm(b, g, sc) && InView(b.cx, g, 0, Visible(sc)) && BodyChecked(b, c)
    requires at <= |a.Body()| && ScopeOf(a, at) == sc && TransCode(b.cx, g, c).Emit?
      && CodeAt(a, at, TransCode(b.cx, g, c).out)
    requires OwnLabel(a, b, own) && Held(a.cx, st, env) && Exec(a.cx.m, c, [], st, fuel).OutOfFuel?
    ensures Busy(a.p, At(a, at, env, st.store), fuel)
    decreases fuel, c, 2
  {
    hide *;
    SitedContext(a, b, pc);
    ArmPoised(a, b, pc, g, sc, at, own);
    RelEmpty(a.cx, g, st, env);
    ArmChecked(b, g, sc, c);
    BusyCode(a, g, c, [], at, [], st, env, fuel);
  }

  /** The last arm of a block that is not a loop. */
  lemma {:induction false} BusyLastArm(a: Place, b: BlockSite, pc: nat, g: Gen, sc: Scope, at: nat, c: Code, st: State,
      env: Env, fuel: nat)
    requires Sited(a, b, pc) && InArm(b, g, sc) && InView(b.cx, g, 0, Visible(sc)) && BodyChecked(b, c)
      && b.kind != KLoop
    requires at <= |a.Body()| && ScopeOf(a, at) == sc && TransTail(b.cx, g, c).Emit?
      && CodeAt(a, at, TransTail(b.cx, g, c).out)
    requires Held(a.cx, st, env) && Exec(a.cx.m, c, [], st, fuel).OutOfFuel?
    ensures Busy(a.p, At(a, at, env, st.store), fuel)
    decreases fuel, c, 3
  {
    hide *;
    TailPlaced(a, b, pc, g, sc, at, c);
    var e := TransCode(b.cx, g, c);
    LabelPlaces(a, b, pc, e.g, e.ud, ScopeFold(sc, e.out), at + |e.out|);
    BusyArm(a, b, pc, g, sc, at, c, at + |e.out| + |LeaveOut(b, e.g, e.ud)| + 1, st, env, fuel);
  }

  lemma {:induction false} BusyKBlock(a: Place, b: BlockSite, pc: nat, c: Code, st: State, env: Env, fuel: nat)
    requires Sited(a, b, pc) && b.kind == KBlock && BodyChecked(b, c) && TransTail(b.cx, b.Start(), c).Emit?
    requires ScopeOf(a, pc + |b.Decls()|) == b.Base() && pc + |b.Decls()| <= |a.Body()|
    requires CodeAt(a, pc + |b.Decls()|, TransTail(b.cx, b.Start(), c).out)
    requires Held(a.cx, st, env) && Exec(a.cx.m, c, [], st, fuel).OutOfFuel?
    ensures Busy(a.p, At(a, pc + |b.Decls()|, env, st.store), fuel)
    decreases fuel, c, 4
  {
    hide *;
    Kinds();
    SitedContext(a, b, pc);
    ArmStart(b);
    SiteScoped(b);
    InnerIs(b);
    BusyLastArm(a, b, pc, b.Start(), b.Inner(), pc + |b.Decls()|, c, st, env, fuel);
  }

  lemma LeaveFuel(o: Outcome, low: seq<Val>, n: nat)
    ensures Leave(o, low, n).OutOfFuel? ==> o.OutOfFuel?
  {
  }

  /** A loop from its label on. */
  lemma {:induction false} BusyLoop(a: Place, b: BlockSite, pc: nat, i: Instr, own: nat, vals: seq<Val>, st: State,
      env: Env, fuel: nat)
    requires Sited(a, b, pc) && i.Loop? && b.kind == KLoop && b.bt == i.bt && BodyChecked(b, i.body)
      && TransTail(b.cx, b.Start(), i.body).Emit?
    requires OwnLabel(a, b, own) && ScopeOf(a, own + 1) == b.Base() && own + 1 <= |a.Body()|
    requires CodeAt(a, own + 1, TransTail(b.cx, b.Start(), i.body).out)
    requires Held(a.cx, st, env) && ExecInstr(a.cx.m, i, vals, st, fuel).OutOfFuel?
    ensures Busy(a.p, At(a, own, env, st.store), fuel)
    decreases fuel, i, 5
  {
    hide *;
    Kinds();
    SitedContext(a, b, pc);
    ArmStart(b);
    SiteScoped(b);
    InnerIs(b);
    OwnIs(a, b, own);
    LabelStep(a, own, b.Lbl(), env, st.store);
    TailPlaced(a, b, pc, b.Start(), b.Inner(), own + 1, i.body);
    ArmPoised(a, b, pc, b.Start(), b.Inner(), own + 1, own);
    RelEmpty(a.cx, b.Start(), st, env);
    var e, r := TransCode(b.cx, b.Start(), i.body), CheckCode(b.cx, GenLabels(b.cx, b.Start()), i.body, []);
    var o := Exec(a.cx.m, i.body, [], st, fuel);
    LoopType(b);
    ExecLoop(a.cx.m, i, vals, st, fuel);
    LeaveFuel(o, vals, |ResultsOf(b.cx.m.types, i.bt)|);
    if o.OutOfFuel? {
      BusyCode(a, b.Start(), i.body, [], own + 1, [], st, env, fuel);
      BusyStep(a.p, At(a, own, env, st.store), fuel, fuel);
    } else if fuel == 0 {
      AtRuns(a, own, env, st.store);
    } else {
      var env1 := SimCode(a, b.Start(), i.body, [], own + 1, [], st, env, fuel);
      FollowsBranch(a, b.Start(), own + 1, env, st.store, o, r, e.g, own + 1 + |e.out|, env1);
      NamesIs(a, own + 1);
      AgreesSelf(Outer(b), env);
      CarriedSelf(b, env);
      JumpedHome(a, b, pc, b.Start(), b.Inner(), own, At(a, own + 1, env, st.store), env, env, o.vs, o.st, env1);
      BusyLoop(a, b, pc, i, own, vals, o.st, env1, fuel - 1);
      BusyAfter(a.p, At(a, own + 1, env, st.store), At(a, own, env1, o.st.store), fuel - 1);
      BusyStep(a.p, At(a, own, env, st.store), fuel - 1, fuel);
    }
  }

  lemma OwnIs(a: Place, b: BlockSite, own: nat)
    requires OwnLabel(a, b, own)
    ensures own < |a.Body()| && a.Body()[own] == LabelHere(b.Lbl())
  {
  }

  lemma CarriedSelf(b: BlockSite, env: Env)
    requires Agrees(Outer(b), env, env)
    ensures Carried(b, env, env)
  {
  }

  lemma {:induction false} BusyIf(a: Place, b: BlockSite, pc: nat, i: Instr, vals: seq<Val>, st: State,
      env: Env, fuel: nat)
    requires Sited(a, b, pc) && i.If? && b.kind == KIf && b.bt == i.bt && BodyChecked(b, i.thn)
      && TransArms(b.cx, b.Start(), i).Emit?
    requires if i.hasElse then BodyChecked(b, i.els) else b.Results() == []
    requires
      var q := pc + |b.Decls()|;
      && CodeAt(a, q, [IfOpen(b.Cond())]) && CodeAt(a, q + 1, TransArms(b.cx, b.Start(), i).out) && q + 1 <= |a.Body()|
      && ScopeOf(a, q + 1) == b.Inner()
    requires Rel(a.cx, b.g, vals, b.ts, st, env) && ExecInstr(a.cx.m, i, vals, st, fuel).OutOfFuel?
    ensures Busy(a.p, At(a, pc + |b.Decls()|, env, st.store), fuel)
    decreases fuel, i, 5
  {
    hide *;
    Kinds();
    SitedContext(a, b, pc);
    CondHeld(a, b, vals, st, env);
    ArmStart(b);
    SiteScoped(b);
    LoopType(b);
    ExecIf(a.cx.m, i, vals, st, fuel);
    CondIs(env, b.Cond(), vals[|vals| - 1]);
    var q, n := pc + |b.Decls()|, |ResultsOf(b.cx.m.types, i.bt)|;
    LeaveFuel(Exec(a.cx.m, i.thn, [], st, fuel), vals[..|vals| - 1], n);
    LeaveFuel(Exec(a.cx.m, i.els, [], st, fuel), vals[..|vals| - 1], n);
    if vals[|vals| - 1].n != 0 {
      StepIfTrue(a, q, b.Cond(), env, st.store);
      if i.hasElse {
        BusyThen(a, b, pc, i, q + 1, st, env, fuel);
      } else {
        ArmsOnly(b, i);
        BusyLastArm(a, b, pc, b.Start(), b.Inner(), q + 1, i.thn, st, env, fuel);
      }
      BusyAfter(a.p, At(a, q, env, st.store), At(a, q + 1, env, st.store), fuel);
    } else {
      ThenPlaced(a, b, pc, i, q + 1);
      var e := TransCode(b.cx, b.Start(), i.thn);
      var leave, x := LeaveOut(b, e.g, e.ud), EmitElse(b.cx, e.g, e.ud);
      var at := q + 1 + |e.out| + |leave| + 1;
      CodeJoin(a, q + 1, e.out, leave);
      CodeJoin(a, q + 1, e.out + leave, [ElseOpen]);
      CodeJoin(a, q, [IfOpen(b.Cond())], e.out + leave + [ElseOpen]);
      assert [IfOpen(b.Cond())] + (e.out + leave + [ElseOpen]) == [IfOpen(b.Cond())] + (e.out + leave) + [ElseOpen];
      StepIfFalse(a, q, b.Cond(), e.out + leave, ElseOpen, env, st.store);
      var env1 := Landed(a, at, env);
      ArmSeen(a, b, pc, x.g, b.Inner(), at);
      AgreesSelf(Outer(b), env);
      CarriedSelf(b, env);
      SeenHeld(a, b, at, st, env, env);
      BusyLastArm(a, b, pc, x.g, b.Inner(), at, i.els, st, env1, fuel);
      BusyAfter(a.p, At(a, q, env, st.store), At(a, at, env1, st.store), fuel);
    }
  }

  /** The then-arm, whose label is at the end of the else-arm. */
  lemma {:induction false} BusyThen(a: Place, b: BlockSite, pc: nat, i: Instr, q: nat, st: State, env: Env, fuel: nat)
    requires Sited(a, b, pc) && i.If? && i.hasElse && b.kind == KIf && BodyChecked(b, i.thn) && BodyChecked(b, i.els)
    requires TransArms(b.cx, b.Start(), i).Emit?
    requires q <= |a.Body()| && ScopeOf(a, q) == b.Inner() && CodeAt(a, q, TransArms(b.cx, b.Start(), i).out)
    requires Held(a.cx, st, env) && Exec(a.cx.m, i.thn, [], st, fuel).OutOfFuel?
    ensures Busy(a.p, At(a, q, env, st.store), fuel)
    decreases fuel, i, 4
  {
    hide *;
    Kinds();
    SitedContext(a, b, pc);
    ThenPlaced(a, b, pc, i, q);
    ArmStart(b);
    SiteScoped(b);
    var e := TransCode(b.cx, b.Start(), i.thn);
    var leave, x := LeaveOut(b, e.g, e.ud), EmitElse(b.cx, e.g, e.ud);
    var at := q + |e.out| + |leave| + 1;
    TailPlaced(a, b, pc, x.g, b.Inner(), at, i.els);
    var e2 := TransCode(b.cx, x.g, i.els);
    LabelPlaces(a, b, pc, e2.g, e2.ud, ScopeFold(b.Inner(), e2.out), at + |e2.out|);
    BusyArm(a, b, pc, b.Start(), b.Inner(), q, i.thn, at + |e2.out| + |LeaveOut(b, e2.g, e2.ud)| + 1, st, env, fuel);
  }

  lemma {:induction false} BusyBlock(a: Place, g: Gen, i: Instr, ts: seq<ValType>, pc: nat, vals: seq<Val>, st: State,
      env: Env, fuel: nat)
    requires IsBlock(i)
    requires Poised(a, g, ts, pc) && CheckInstr(a.cx, GenLabels(a.cx, g), i, ts) != Bad && TransInstr(a.cx, g, i).Emit?
    requires CodeAt(a, pc, TransInstr(a.cx, g, i).out) && Rel(a.cx, g, vals, ts, st, env)
    requires ExecInstr(a.cx.m, i, vals, st, fuel).OutOfFuel?
    ensures Busy(a.p, At(a, pc, env, st.store), fuel)
    decreases fuel, i, 6
  {
    hide *;
    Kinds();
    var b := SiteOf(a.cx, g, i, ts, ScopeOf(a, pc));
    SiteParts(a.cx, g, i, ts, ScopeOf(a, pc));
    BlockSited(a, g, i, ts, pc);
    SitedContext(a, b, pc);
    LoopType(b);
    var env1 := SimDecls(a, b, pc, vals, st, env);
    RelParts(a.cx, g, vals, ts, st, env1);
    InnerIs(b);
    RestIs(b, i);
    var start, q := At(a, pc, env, st.store), pc + |b.Decls()|;
    if i.Block? {
      ExecBlock(a.cx.m, i, vals, st, fuel);
      LeaveFuel(Exec(a.cx.m, i.body, [], st, fuel), vals, |ResultsOf(a.cx.m.types, i.bt)|);
      BusyKBlock(a, b, pc, i.body, st, env1, fuel);
    } else if i.Loop? {
      OpensTwo(b);
      LoopPlaces(a, b, pc);
      OwnIs(a, b, q + 1);
      var env2 := SimLoopEntry(a, b, pc, st, env1);
      BusyLoop(a, b, pc, i, q + 1, vals, st, env2, fuel);
      BusyAfter(a.p, At(a, q, env1, st.store), At(a, q + 1, env2, st.store), fuel);
    } else {
      IfScope(a, b, pc);
      BusyIf(a, b, pc, i, vals, st, env1, fuel);
    }
    BusyAfter(a.p, start, At(a, q, env1, st.store), fuel);
  }

  lemma {:induction false} BusyFunc(m: Module, p: seq<CFunc>, f: nat, args: seq<Val>, store: Store,
      callers: Callers, fuel: nat)
    requires ValidModule(m) && Translated(m, p) && f < |m.funcs| && m.funcs[f].ty < |m.types|
    requires AllTyped(args, m.types[m.funcs[f].ty].params) && ValidStore(m, store)
    requires ExecFunc(m, f, args, store, fuel).OutOfFuel?
    ensures Busy(p, Enter(p, f, args, callers, store), if fuel > 0 then fuel - 1 else 0)
    decreases fuel, f, 9
  {
    hide *;
    var fn, a, b := m.funcs[f], Activation(m, p, f, callers), FuncSite(m, m.funcs[f]);
    FuncPlaced(m, p, f, callers);
    EnterState(p, f, args, callers, store);
    if fuel == 0 {
      BusyNow(p, Enter(p, f, args, callers, store));
    } else {
      SiteIs(m, p, f, callers);
      SitedContext(a, b, |Zeros(m, fn)|);
      var vals := args + Zeroes(fn.locals);
      var st := State(vals, store);
      SimEntry(m, p, f, args, store, callers);
      EnvHeld(m, fn, args, store);
      RelEmpty(b.cx, b.g, st, EnvOf(vals));
      var n := |Zeros(m, fn)|;
      var env1 := SimDecls(a, b, n, [], st, EnvOf(vals));
      RelParts(b.cx, b.g, [], [], st, env1);
      ExecFuncIs(m, f, args, store, fuel);
      LeaveFuel(Exec(m, fn.body, [], st, fuel - 1), [], |b.Results()|);
      BusyKBlock(a, b, n, fn.body, st, env1, fuel - 1);
      BusyAfter(p, At(a, n, EnvOf(vals), store), At(a, n + |b.Decls()|, env1, store), fuel - 1);
      BusyAfter(p, Enter(p, f, args, callers, store), At(a, n, EnvOf(vals), store), fuel - 1);
    }
  }

  // ---------------------------------------------------------------- the theorems

  lemma {:induction false} StoppedStays(p: seq<CFunc>, st: Machine, n: nat)
    requires !st.Running?
    ensures Run(p, st, n) == st
    decreases n
  {
    if n > 0 {
      StoppedStays(p, Step(p, st), n - 1);
    }
  }

  /** A machine that is running after enough steps was running all the time. */
  lemma BusyRuns(p: seq<CFunc>, st: Machine, n: nat, fuel: nat)
    requires Busy(p, st, fuel) && 2 * n <= fuel
    ensures Run(p, st, n).Running?
  {
    var k: nat :| 2 * k >= fuel && Run(p, st, k).Running?;
    RunAdds(p, st, n, k - n);
    if !Run(p, st, n).Running? {
      StoppedStays(p, Run(p, st, n), k - n);
    }
  }

  /** A source run without end is followed by a run of the emitted program without end. */
  lemma EndlessRuns(m: Module, f: nat, args: seq<Val>, store: Store)
    requires ValidModule(m) && f < |m.funcs| && m.funcs[f].ty < |m.types|
    requires AllTyped(args, m.types[m.funcs[f].ty].params) && ValidStore(m, store)
    requires forall fuel: nat :: ExecFunc(m, f, args, store, fuel).OutOfFuel?
    ensures forall fn | fn in m.funcs :: fn.ty < |m.types|
    ensures
      var p := TranslateModule(m);
      forall n: nat :: Run(p, Enter(p, f, args, NoCaller, store), n).Running?
  {
    hide *;
    ModuleTranslated(m);
    var p := TranslateModule(m);
    var start := Enter(p, f, args, NoCaller, store);
    forall n: nat ensures Run(p, start, n).Running? {
      BusyFunc(m, p, f, args, store, NoCaller, 2 * n + 1);
      BusyRuns(p, start, n, 2 * n);
    }
  }

  /** The machine stops in one way only. */
  lemma OneEnd(p: seq<CFunc>, st: Machine, a: Machine, b: Machine)
    requires Leads(p, st, a) && Leads(p, st, b) && !a.Running? && !b.Running?
    ensures a == b
  {
    var n: nat :| Run(p, st, n) == a;
    var k: nat :| Run(p, st, k) == b;
    if n <= k {
      RunAdds(p, st, n, k - n);
      StoppedStays(p, a, k - n);
    } else {
      RunAdds(p, st, k, n - k);
      StoppedStays(p, b, n - k);
    }
  }

  /**
   The other direction: when a run of the emitted program ends, in whatever way, the source run ends in the same way:
   it returned the same result with the same globals and memory, it aborted, or it stopped where the program is
   undefined. The one exception is a trap of an access whose address wraps around into the memory.
   */
  lemma EndMeans(m: Module, f: nat, args: seq<Val>, store: Store, end: Machine)
    requires ValidModule(m) && f < |m.funcs| && m.funcs[f].ty < |m.types|
    requires AllTyped(args, m.types[m.funcs[f].ty].params) && ValidStore(m, store)
    ensures forall fn | fn in m.funcs :: fn.ty < |m.types|
    ensures
      var p := TranslateModule(m);
      var results := m.types[m.funcs[f].ty].results;
      Leads(p, Enter(p, f, args, NoCaller, store), end) && !end.Running? ==>
        exists fuel: nat :: match ExecFunc(m, f, args, store, fuel)
          case Returned(vs, store') => end == Finished(if results == [] then None else Some(vs[0]), store')
          case Aborted => end == MAborted
          case Stopped(why) => why == Wrapped || (why != IllTyped && end == Stuck)
          case _ => false
  {
    hide ValidModule, Leads, Enter, ExecFunc, TranslateModule, ValidStore, AllTyped;
    ModuleTranslated(m);
    var p := TranslateModule(m);
    var start := Enter(p, f, args, NoCaller, store);
    if Leads(p, start, end) && !end.Running? {
      if forall fuel: nat :: ExecFunc(m, f, args, store, fuel).OutOfFuel? {
        EndlessRuns(m, f, args, store);
        NotEnded(p, start, end);
      } else {
        var fuel: nat :| !ExecFunc(m, f, args, store, fuel).OutOfFuel?;
        CompilerCorrect(m, f, args, store, fuel);
        var o, results := ExecFunc(m, f, args, store, fuel), m.types[m.funcs[f].ty].results;
        if o.Returned? {
          ReturnsSome(o.vs, results);
          OneEnd(p, start, end, Finished(if results == [] then None else Some(o.vs[0]), o.store));
        } else if o.Aborted? {
          OneEnd(p, start, end, MAborted);
        } else if o.why != Wrapped {
          OneEnd(p, start, end, Stuck);
        }
      }
    }
  }

  lemma ReturnsSome(vs: seq<Val>, ts: seq<ValType>)
    requires AllTyped(vs, ts)
    ensures |vs| == |ts|
  {
  }

  lemma NotEnded(p: seq<CFunc>, st: Machine, end: Machine)
    requires (forall n: nat :: Run(p, st, n).Running?) && !end.Running?
    ensures !Leads(p, st, end)
  {
    forall n: nat ensures Run(p, st, n) != end {
      assert Run(p, st, n).Running?;
    }
  }
}
