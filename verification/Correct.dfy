/**
 The translator is correct: every run of a checked function that does not trap is followed, step by
 step, by the C that is emitted for it.
 */
module Correct {
  import opened Options
  import opened Wasm
  import opened CLang
  import opened Translator
  import opened Allocator
  import opened CodeSound
  import opened Forms
  import opened Layout
  import opened Statements
  import opened Scoping
  import opened Blocks
  import opened Braces
  import opened Functions
  import opened Steps
  import opened Sim
  import opened SimPlain
  import opened SimJumps
  import opened SimControl
  import opened SimCalls
  import opened SimBlocks
  import opened SimEnds
  import opened SimArms
  import opened SimSeq

  // ---------------------------------------------------------------- sequences

  lemma {:induction false} SimCode(a: Place, g: Gen, c: Code, ts: seq<ValType>, pc: nat, vals: seq<Val>, st: State,
      env: Env, fuel: nat)
    returns (env': Env)
    requires Poised(a, g, ts, pc) && CheckCode(a.cx, GenLabels(a.cx, g), c, ts) != Bad && TransCode(a.cx, g, c).Emit?
    requires CodeAt(a, pc, TransCode(a.cx, g, c).out) && Rel(a.cx, g, vals, ts, st, env)
    ensures
      var e := TransCode(a.cx, g, c);
      && |ts| <= |g.stack|
      && Follows(a, g, |g.stack| - |ts|, pc, env, st.store, Exec(a.cx.m, c, vals, st, fuel),
         CheckCode(a.cx, GenLabels(a.cx, g), c, ts), e.g, pc + |e.out|, env')
    decreases fuel, c, 1
  {
    hide Poised, GenLabels, CodeAt, Rel, Follows, CheckInstr, TransInstr, ExecInstr, After, ScopedAfter, Names, Sound,
         Ops, InView, LabelsReady, PlaceOk, GoodContext, Kept, Widens, ScopeOf;
    PoisedFacts(a, g, ts, pc);
    match c
    case Nil =>
      env' := env;
      FollowsNothing(a, g, ts, pc, vals, st, env);
    case Cons(i, rest) =>
      var labels := GenLabels(a.cx, g);
      var e1, r1 := TransInstr(a.cx, g, i), CheckInstr(a.cx, labels, i, ts);
      InstrIsSound(a.cx, g, i, ts);
      AfterEmits(a.cx, g, ts, e1, r1);
      NamesIs(a, pc);
      InstrScoped(a.cx, g, i, ts, ScopeOf(a, pc));
      if r1.Live? {
        CodeSplit(a, pc, e1.out, TransCode(a.cx, e1.g, rest).out);
      }
      var env1 := SimInstr(a, g, i, ts, pc, vals, st, env, fuel);
      var o1 := ExecInstr(a.cx.m, i, vals, st, fuel);
      if o1.Normal? {
        FollowsLive(a, g, ts, pc, env, st.store, o1, r1, e1.g, pc + |e1.out|, env1);
        PoisedNext(a, g, ts, pc, e1, r1);
        AfterStep(a.cx, g, ts, e1, r1);
        env' := SimCode(a, e1.g, rest, r1.ts, pc + |e1.out|, o1.vs, o1.st, env1, fuel);
        FollowsThen(a, g, |g.stack| - |ts|, pc, env, st.store, o1.vs, o1.st, r1, e1.g, pc + |e1.out|, env1,
            |e1.g.stack| - |r1.ts|, Exec(a.cx.m, rest, o1.vs, o1.st, fuel), CheckCode(a.cx, labels, rest, r1.ts),
            TransCode(a.cx, e1.g, rest).g, pc + |e1.out| + |TransCode(a.cx, e1.g, rest).out|, env');
      } else {
        env' := env1;
        FollowsAny(a, g, |g.stack| - |ts|, pc, env, st.store, o1, r1, e1.g, pc + |e1.out|,
                   CheckCode(a.cx, labels, c, ts), TransCode(a.cx, g, c).g, pc + |TransCode(a.cx, g, c).out|, env1);
      }
  }

  lemma FollowsLive(a: Place, g: Gen, ts: seq<ValType>, pc: nat, env: Env, store: Store, o: Outcome, r: Check,
      g': Gen, pc': nat, env': Env)
    requires |ts| <= |g.stack| && Follows(a, g, |g.stack| - |ts|, pc, env, store, o, r, g', pc', env') && o.Normal?
    ensures r.Live? && Rel(a.cx, g', o.vs, r.ts, o.st, env')
  {
  }

  // ---------------------------------------------------------------- instructions

  lemma {:induction false} SimInstr(a: Place, g: Gen, i: Instr, ts: seq<ValType>, pc: nat, vals: seq<Val>, st: State,
      env: Env, fuel: nat)
    returns (env': Env)
    requires Poised(a, g, ts, pc) && CheckInstr(a.cx, GenLabels(a.cx, g), i, ts) != Bad && TransInstr(a.cx, g, i).Emit?
    requires CodeAt(a, pc, TransInstr(a.cx, g, i).out) && Rel(a.cx, g, vals, ts, st, env)
    ensures
      var e := TransInstr(a.cx, g, i);
      && |ts| <= |g.stack|
      && Follows(a, g, |g.stack| - |ts|, pc, env, st.store, ExecInstr(a.cx.m, i, vals, st, fuel),
         CheckInstr(a.cx, GenLabels(a.cx, g), i, ts), e.g, pc + |e.out|, env')
    decreases fuel, i, 7
  {
    hide *;
    if IsBlock(i) {
      env' := SimBlock(a, g, i, ts, pc, vals, st, env, fuel);
    } else {
      TransPlain(a.cx, g, i);
      if i.Call? {
        env' := SimCallInstr(a, g, i.f, ts, pc, vals, st, env, fuel);
      } else {
        env' := SimPlainInstr(a, g, i, ts, pc, vals, st, env, fuel);
      }
    }
  }

  lemma TransPlain(cx: Context, g: Gen, i: Instr)
    requires !IsBlock(i)
    ensures TransInstr(cx, g, i) == EmitPlain(cx, g, i)
  {
  }

  lemma SimPlainInstr(a: Place, g: Gen, i: Instr, ts: seq<ValType>, pc: nat, vals: seq<Val>, st: State,
      env: Env, fuel: nat)
    returns (env': Env)
    requires !IsBlock(i) && !i.Call?
    requires Poised(a, g, ts, pc) && CheckInstr(a.cx, GenLabels(a.cx, g), i, ts) != Bad && EmitPlain(a.cx, g, i).Emit?
    requires CodeAt(a, pc, EmitPlain(a.cx, g, i).out) && Rel(a.cx, g, vals, ts, st, env)
    ensures
      var e := EmitPlain(a.cx, g, i);
      && |ts| <= |g.stack|
      && Follows(a, g, |g.stack| - |ts|, pc, env, st.store, ExecInstr(a.cx.m, i, vals, st, fuel),
         CheckInstr(a.cx, GenLabels(a.cx, g), i, ts), e.g, pc + |e.out|, env')
  {
    hide Poised, GenLabels, CodeAt, Rel, Follows, CheckInstr, EmitPlain, ExecInstr, Names, Sound, Ops, InView,
         LabelsReady, PlaceOk, GoodContext, EmitBr, EmitBrIf, EmitBrTable, EmitReturn, EmitStraight, Straight,
         CheckStraight, Jumped, Gave, Leads;
    PoisedFacts(a, g, ts, pc);
    var labels := GenLabels(a.cx, g);
    if IsStraight(i) {
      StraightCase(a.cx, g, labels, i, ts);
      env' := SimStraight(a, g, i, ts, pc, vals, st, env, fuel);
    } else {
      env' := SimTransfer(a, g, i, ts, pc, vals, st, env, fuel);
    }
  }

  lemma SimTransfer(a: Place, g: Gen, i: Instr, ts: seq<ValType>, pc: nat, vals: seq<Val>, st: State,
      env: Env, fuel: nat)
    returns (env': Env)
    requires !IsBlock(i) && !i.Call? && !IsStraight(i)
    requires Poised(a, g, ts, pc) && CheckInstr(a.cx, GenLabels(a.cx, g), i, ts) != Bad && EmitPlain(a.cx, g, i).Emit?
    requires CodeAt(a, pc, EmitPlain(a.cx, g, i).out) && Rel(a.cx, g, vals, ts, st, env)
    ensures
      var e := EmitPlain(a.cx, g, i);
      && |ts| <= |g.stack|
      && Follows(a, g, |g.stack| - |ts|, pc, env, st.store, ExecInstr(a.cx.m, i, vals, st, fuel),
         CheckInstr(a.cx, GenLabels(a.cx, g), i, ts), e.g, pc + |e.out|, env')
  {
    hide Poised, GenLabels, CodeAt, Rel, Follows, CheckInstr, EmitPlain, Names, Sound, Ops, InView, LabelsReady,
         PlaceOk, GoodContext, EmitBr, EmitBrIf, EmitBrTable, EmitReturn, Jumped, Gave, Leads, ExecInstr;
    PoisedFacts(a, g, ts, pc);
    var labels := GenLabels(a.cx, g);
    var e, r, h := EmitPlain(a.cx, g, i), CheckInstr(a.cx, labels, i, ts), |g.stack| - |ts|;
    match i
    case Br(l) =>
      BrCase(a.cx, g, labels, l, ts);
      ExecBr(a.cx.m, l, vals, st, fuel);
      env' := SimBr(a, g, l, ts, pc, vals, st, env);
      FollowsJump(a, g, h, pc, env, st.store, l, vals, st, r, e.g, pc + |e.out|, env');
    case BrIf(l) =>
      BrIfCase(a.cx, g, labels, l, ts);
      env' := SimBrIf(a, g, l, ts, pc, vals, st, env, fuel);
    case BrTable(ls, dflt) =>
      BrTableCase(a.cx, g, labels, ls, dflt, ts);
      env' := SimBrTable(a, g, ls, dflt, ts, pc, vals, st, env);
      ExecBrTable(a.cx.m, ls, dflt, vals, st, fuel);
      FollowsJump(a, g, h, pc, env, st.store, Chosen(ls, dflt, vals[|vals| - 1].n), vals[..|vals| - 1], st, r,
          e.g, pc + |e.out|, env');
    case Return =>
      ReturnCase(a.cx, g, labels, ts);
      ExecReturn(a.cx.m, vals, st, fuel);
      env' := env;
      SimReturn(a, g, ts, pc, vals, st, env);
      FollowsReturn(a, g, h, pc, env, vals, st, r, e.g, pc + |e.out|, env');
    case Unreachable =>
      UnreachableCase(a.cx, g, labels, ts);
      ExecUnreachable(a.cx.m, vals, st, fuel);
      env' := env;
      StepAbort(a, pc, env, st.store);
      FollowsAbort(a, g, h, pc, env, st.store, r, e.g, pc + |e.out|, env');
  }

  lemma ExecBr(m: Module, l: nat, vs: seq<Val>, st: State, fuel: nat)
    ensures ExecInstr(m, Br(l), vs, st, fuel) == Branch(l, vs, st)
  {
  }

  lemma ExecBrTable(m: Module, ls: seq<nat>, dflt: nat, vs: seq<Val>, st: State, fuel: nat)
    requires |vs| > 0
    ensures ExecInstr(m, BrTable(ls, dflt), vs, st, fuel)
      == Branch(Chosen(ls, dflt, vs[|vs| - 1].n), vs[..|vs| - 1], st)
  {
  }

  lemma ExecReturn(m: Module, vs: seq<Val>, st: State, fuel: nat)
    ensures ExecInstr(m, Return, vs, st, fuel) == Returned(vs, st.store)
  {
  }

  lemma ExecUnreachable(m: Module, vs: seq<Val>, st: State, fuel: nat)
    ensures ExecInstr(m, Unreachable, vs, st, fuel) == Aborted
  {
  }

  lemma FollowsReturn(a: Place, g: Gen, h: nat, pc: nat, env: Env, vs: seq<Val>, st: State, r: Check, g': Gen,
      pc': nat, env': Env)
    requires h <= |g.stack| && Gave(a, At(a, pc, env, st.store), vs, st.store)
    ensures Follows(a, g, h, pc, env, st.store, Returned(vs, st.store), r, g', pc', env')
  {
  }

  lemma FollowsAbort(a: Place, g: Gen, h: nat, pc: nat, env: Env, store: Store, r: Check, g': Gen, pc': nat, env': Env)
    requires h <= |g.stack| && Leads(a.p, At(a, pc, env, store), MAborted)
    ensures Follows(a, g, h, pc, env, store, Aborted, r, g', pc', env')
  {
  }

  // ---------------------------------------------------------------- calls

  lemma {:induction false} SimCallInstr(a: Place, g: Gen, f: nat, ts: seq<ValType>, pc: nat, vals: seq<Val>, st: State,
      env: Env, fuel: nat)
    returns (env': Env)
    requires Poised(a, g, ts, pc) && CheckInstr(a.cx, GenLabels(a.cx, g), Call(f), ts) != Bad
      && EmitPlain(a.cx, g, Call(f)).Emit?
    requires CodeAt(a, pc, EmitPlain(a.cx, g, Call(f)).out) && Rel(a.cx, g, vals, ts, st, env)
    ensures
      var e := EmitPlain(a.cx, g, Call(f));
      && |ts| <= |g.stack|
      && Follows(a, g, |g.stack| - |ts|, pc, env, st.store, ExecInstr(a.cx.m, Call(f), vals, st, fuel),
                 CheckInstr(a.cx, GenLabels(a.cx, g), Call(f), ts), e.g, pc + |e.out|, env')
    decreases fuel, Call(f), 6
  {
    hide *;
    var m := a.cx.m;
    PoisedFacts(a, g, ts, pc);
    CallIs(a.cx, g, f, ts);
    CallShape(a.cx, g, f, ts, Names(a, pc));
    var k := |TypeAt(m, f).params|;
    OperandsHeld(a.cx, g, vals, ts, st, env, k);
    ExecCall(m, f, vals, st, fuel);
    var to := CallDst(a.cx, g, f);
    var args, callers := Tail(vals, k), Back(a, pc, env, to);
    if fuel > 0 {
      ReadyToCall(a, g, f, vals, ts, st, env, args);
      SimFunc(m, a.p, f, args, st.store, callers, fuel - 1);
      env' := SimCall(a, g, f, ts, pc, vals, st, env, ExecFunc(m, f, args, st.store, fuel - 1));
    } else {
      AnswersFuel(a.p, m, f, args, st.store, callers);
      env' := SimCall(a, g, f, ts, pc, vals, st, env, OutOfFuel);
      CalledFuel(vals[..|vals| - k], st);
    }
  }

  lemma CallIs(cx: Context, g: Gen, f: nat, ts: seq<ValType>)
    requires GoodContext(cx)
    ensures EmitPlain(cx, g, Call(f)) == EmitCall(cx, g, f)
  {
    hide CheckInstr, CheckCall, ValidModule;
    CallCase(cx, g, GenLabels(cx, g), f, ts);
  }

  lemma AnswersFuel(p: seq<CFunc>, m: Module, f: nat, args: seq<Val>, store: Store, callers: Callers)
    ensures Answers(p, m, f, args, store, callers, OutOfFuel)
  {
  }

  lemma CalledFuel(low: seq<Val>, st: State)
    ensures Called(OutOfFuel, low, st) == OutOfFuel
  {
  }

  /** The callee is a function of the program and gets arguments of its parameters' types. */
  lemma ReadyToCall(a: Place, g: Gen, f: nat, vals: seq<Val>, ts: seq<ValType>, st: State, env: Env, args: seq<Val>)
    requires PlaceOk(a) && GoodContext(a.cx) && Callable(a.cx.m, f) && Rel(a.cx, g, vals, ts, st, env)
    requires |TypeAt(a.cx.m, f).params| <= |ts| == |vals|
      && Tail(ts, |TypeAt(a.cx.m, f).params|) == TypeAt(a.cx.m, f).params
    requires args == Tail(vals, |TypeAt(a.cx.m, f).params|)
    ensures ValidModule(a.cx.m) && Translated(a.cx.m, a.p) && f < |a.cx.m.funcs| && a.cx.m.funcs[f].ty < |a.cx.m.types|
    ensures AllTyped(args, a.cx.m.types[a.cx.m.funcs[f].ty].params) && ValidStore(a.cx.m, st.store)
  {
    hide ValidModule, Translated, FuncContext, UniqueLabels, LocalsHeld, ValidStore;
    OperandsHeld(a.cx, g, vals, ts, st, env, |TypeAt(a.cx.m, f).params|);
  }

  // ---------------------------------------------------------------- blocks

  lemma Kinds()
    ensures KBlock != KLoop && KBlock != KIf && KLoop != KIf
  {
  }

  lemma EndIs(a: Place, b: BlockSite, g: Gen, ud: nat, sc: Scope, at: nat)
    requires EndAt(a, b, g, ud, sc, at)
    ensures EmitEnd(b.cx, g, ud).Emit?
  {
  }

  lemma RelEmpty(cx: Context, g: Gen, st: State, env: Env)
    requires Held(cx, st, env)
    ensures Rel(cx, g, [], [], st, env)
  {
    hide LocalsHeld, ValidStore;
  }

  /** The last arm of a block, from its first statement to behind the block. */
  lemma {:induction false} SimLastArm(a: Place, b: BlockSite, pc: nat, g: Gen, sc: Scope, at: nat, c: Code, own: nat,
                                      vals: seq<Val>, st0: State, env0: Env, st: State, env: Env, fuel: nat)
    returns (env': Env)
    requires Sited(a, b, pc) && InArm(b, g, sc) && InView(b.cx, g, 0, Visible(sc)) && BodyChecked(b, c)
      && b.kind != KLoop
    requires at <= |a.Body()| && ScopeOf(a, at) == sc && TransTail(b.cx, g, c).Emit?
      && CodeAt(a, at, TransTail(b.cx, g, c).out)
    requires OwnLabel(a, b, own) && Rel(a.cx, b.g, vals, b.ts, st0, env0)
    requires Leads(a.p, At(a, pc, env0, st0.store), At(a, at, env, st.store)) && Carried(b, env0, env)
      && Held(a.cx, st, env)
    ensures BlockFollows(a, b, pc, env0, st0.store,
        Leave(Exec(a.cx.m, c, [], st, fuel), RestVals(b, vals), |b.Results()|), TransTail(b.cx, g, c).g,
        at + |TransTail(b.cx, g, c).out|, env')
    decreases fuel, c, 2
  {
    hide *;
    TailPlaced(a, b, pc, g, sc, at, c);
    ArmPoised(a, b, pc, g, sc, at, own);
    SitedContext(a, b, pc);
    RelEmpty(a.cx, g, st, env);
    var e, r := TransCode(b.cx, g, c), CheckCode(b.cx, GenLabels(b.cx, g), c, []);
    var env1 := SimCode(a, g, c, [], at, [], st, env, fuel);
    env' := SimTail(a, b, pc, g, sc, at, e.g, e.ud, ScopeFold(sc, e.out), at + |e.out|, vals, st0, env0, st.store, env,
                    Exec(a.cx.m, c, [], st, fuel), r, env1);
  }

  lemma SitedContext(a: Place, b: BlockSite, pc: nat)
    requires Sited(a, b, pc)
    ensures b.cx == a.cx && SiteOk(b) && a.fn < |a.p| && UniqueLabels(a.Body())
  {
    hide SiteOk, LabelsReady, ScopeOf, Visible, FuncContext, Translated;
  }

  lemma {:induction false} SimKBlock(a: Place, b: BlockSite, pc: nat, c: Code, vals: seq<Val>, st: State, env0: Env,
      env: Env, fuel: nat)
    returns (env': Env)
    requires Sited(a, b, pc) && b.kind == KBlock && BodyChecked(b, c) && TransTail(b.cx, b.Start(), c).Emit?
    requires ScopeOf(a, pc + |b.Decls()|) == b.Base() && pc + |b.Decls()| <= |a.Body()|
    requires CodeAt(a, pc + |b.Decls()|, TransTail(b.cx, b.Start(), c).out) && Rel(a.cx, b.g, vals, b.ts, st, env0)
    requires Leads(a.p, At(a, pc, env0, st.store), At(a, pc + |b.Decls()|, env, st.store)) && Carried(b, env0, env)
      && Held(a.cx, st, env)
    ensures BlockFollows(a, b, pc, env0, st.store,
        Leave(Exec(a.cx.m, c, [], st, fuel), RestVals(b, vals), |b.Results()|), TransTail(b.cx, b.Start(), c).g,
        pc + |b.Decls()| + |TransTail(b.cx, b.Start(), c).out|, env')
    decreases fuel, c, 3
  {
    hide *;
    Kinds();
    SitedContext(a, b, pc);
    ArmStart(b);
    SiteScoped(b);
    InnerIs(b);
    var at := pc + |b.Decls()|;
    TailPlaced(a, b, pc, b.Start(), b.Inner(), at, c);
    var e := TransCode(b.cx, b.Start(), c);
    LabelPlaces(a, b, pc, e.g, e.ud, ScopeFold(b.Inner(), e.out), at + |e.out|);
    env' := SimLastArm(a, b, pc, b.Start(), b.Inner(), at, c, at + |e.out| + |LeaveOut(b, e.g, e.ud)| + 1, vals,
        st, env0, st, env, fuel);
  }

  lemma InnerIs(b: BlockSite)
    ensures b.kind != KIf ==> b.Inner() == b.Base()
    ensures b.kind == KBlock ==> b.Opens() == []
    ensures b.kind == KIf ==> b.Opens() == [IfOpen(b.Cond())]
  {
  }

  // ---------------------------------------------------------------- loops

  lemma ExecLoop(m: Module, i: Instr, vs: seq<Val>, st: State, fuel: nat)
    requires i.Loop? && BlockType(m.types, i.bt).Some?
    ensures
      var o := Exec(m, i.body, [], st, fuel);
      ExecInstr(m, i, vs, st, fuel) ==
        if o.Branch? && o.l == 0 then (if fuel == 0 then OutOfFuel else ExecInstr(m, i, vs, o.st, fuel - 1))
        else Leave(o, vs, |ResultsOf(m.types, i.bt)|)
  {
  }

  /** A loop, from its label on: each branch back to it is one more round. */
  lemma {:induction false} SimLoop(a: Place, b: BlockSite, pc: nat, i: Instr, own: nat, vals: seq<Val>, st0: State,
      env0: Env, st: State, env: Env, fuel: nat)
    returns (env': Env)
    requires Sited(a, b, pc) && i.Loop? && b.kind == KLoop && b.bt == i.bt && BodyChecked(b, i.body)
      && TransTail(b.cx, b.Start(), i.body).Emit?
    requires OwnLabel(a, b, own) && ScopeOf(a, own + 1) == b.Base()
      && CodeAt(a, own + 1, TransTail(b.cx, b.Start(), i.body).out)
    requires Rel(a.cx, b.g, vals, b.ts, st0, env0)
    requires Leads(a.p, At(a, pc, env0, st0.store), At(a, own, env, st.store)) && Carried(b, env0, env)
      && Held(a.cx, st, env)
    ensures BlockFollows(a, b, pc, env0, st0.store, ExecInstr(a.cx.m, i, vals, st, fuel),
                         TransTail(b.cx, b.Start(), i.body).g, own + 1 + |TransTail(b.cx, b.Start(), i.body).out|, env')
    decreases fuel, i, 5
  {
    hide *;
    Kinds();
    SitedContext(a, b, pc);
    ArmStart(b);
    SiteScoped(b);
    InnerIs(b);
    var start := At(a, pc, env0, st0.store);
    OwnStep(a, b, pc, own, start, st.store, env);
    TailPlaced(a, b, pc, b.Start(), b.Inner(), own + 1, i.body);
    ArmPoised(a, b, pc, b.Start(), b.Inner(), own + 1, own);
    RelEmpty(a.cx, b.Start(), st, env);
    var e, r := TransCode(b.cx, b.Start(), i.body), CheckCode(b.cx, GenLabels(b.cx, b.Start()), i.body, []);
    var env1 := SimCode(a, b.Start(), i.body, [], own + 1, [], st, env, fuel);
    var o := Exec(a.cx.m, i.body, [], st, fuel);
    LoopType(b);
    ExecLoop(a.cx.m, i, vals, st, fuel);
    if o.Branch? && o.l == 0 {
      FollowsBranch(a, b.Start(), own + 1, env, st.store, o, r, e.g, own + 1 + |e.out|, env1);
      NamesIs(a, own + 1);
      JumpedHome(a, b, pc, b.Start(), b.Inner(), own, At(a, own + 1, env, st.store), env0, env, o.vs, o.st, env1);
      LeadsTrans(a.p, start, At(a, own + 1, env, st.store), At(a, own, env1, o.st.store));
      if fuel == 0 {
        env' := env1;
        FollowsRest(a, b, pc, env0, st0.store, OutOfFuel, TransTail(b.cx, b.Start(), i.body).g,
                    own + 1 + |TransTail(b.cx, b.Start(), i.body).out|, env');
      } else {
        env' := SimLoop(a, b, pc, i, own, vals, st0, env0, o.st, env1, fuel - 1);
      }
    } else {
      RestAll(b, vals);
      env' := SimTail(a, b, pc, b.Start(), b.Inner(), own + 1, e.g, e.ud, ScopeFold(b.Inner(), e.out),
          own + 1 + |e.out|, vals, st0, env0, st.store, env, o, r, env1);
    }
  }

  lemma RestAll(b: BlockSite, vals: seq<Val>)
    ensures b.kind != KIf ==> RestVals(b, vals) == vals
  {
  }

  lemma LoopType(b: BlockSite)
    requires SiteOk(b)
    ensures BlockType(b.cx.m.types, b.bt).Some? && b.Results() == ResultsOf(b.cx.m.types, b.bt)
  {
  }

  lemma OwnStep(a: Place, b: BlockSite, pc: nat, own: nat, start: Machine, store: Store, env: Env)
    requires Sited(a, b, pc) && OwnLabel(a, b, own) && Leads(a.p, start, At(a, own, env, store))
    ensures own + 1 <= |a.Body()| && Leads(a.p, start, At(a, own + 1, env, store))
  {
    hide SiteOk, LabelsReady, ScopeOf, Visible, FuncContext, Translated, UniqueLabels, Leads, Seen;
    assert a.Body()[own..own + 1] == [LabelHere(b.Lbl())];
    StepLabel(a, own, b.Lbl(), env, store);
    LeadsTrans(a.p, start, At(a, own, env, store), At(a, own + 1, env, store));
  }

  lemma FollowsBranch(a: Place, g: Gen, pc: nat, env: Env, store: Store, o: Outcome, r: Check, g': Gen,
      pc': nat, env': Env)
    requires Follows(a, g, |g.stack|, pc, env, store, o, r, g', pc', env') && o.Branch?
    ensures Jumped(a, g, o.l, Names(a, pc), At(a, pc, env, store), env, o.vs, o.st, env')
  {
  }

  // ---------------------------------------------------------------- if

  lemma CodeJoin(a: Place, pc: nat, s: seq<CStmt>, t: seq<CStmt>)
    requires CodeAt(a, pc, s) && CodeAt(a, pc + |s|, t)
    ensures CodeAt(a, pc, s + t)
  {
  }

  /** Everything before the closing brace of an arm has balanced braces. */
  lemma ArmBalanced(b: BlockSite, g: Gen, c: Code, sc: Scope)
    requires SiteOk(b) && TransCode(b.cx, g, c).Emit?
    requires ArmEnd(b, TransCode(b.cx, g, c).g, TransCode(b.cx, g, c).ud, sc)
    ensures
      var e := TransCode(b.cx, g, c);
      && Balanced(e.out + LeaveOut(b, e.g, e.ud))
      && Balanced(e.out + LeaveOut(b, e.g, e.ud) + [Goto(b.Lbl()), LabelHere(b.Lbl())])
  {
    hide SiteOk, TransCode, ArmEnd, LeaveArm, JumpsOk, LabelsWithin, Extends;
    var e := TransCode(b.cx, g, c);
    CodeShape(b.cx, g, c);
    LeaveShape(b.cx, e.g, e.ud);
    LeaveScoped(b, e.g, e.ud, sc);
    var leave, jump := LeaveOut(b, e.g, e.ud), [Goto(b.Lbl()), LabelHere(b.Lbl())];
    ScanPlain(leave, 0);
    ScanPlain(jump, 0);
    BalancedConcat(e.out, leave);
    BalancedConcat(e.out + leave, jump);
  }

  lemma ExecIf(m: Module, i: Instr, vs: seq<Val>, st: State, fuel: nat)
    requires i.If? && BlockType(m.types, i.bt).Some? && |vs| > 0
    ensures
      var rest, n := vs[..|vs| - 1], |ResultsOf(m.types, i.bt)|;
      ExecInstr(m, i, vs, st, fuel) ==
        if vs[|vs| - 1].n != 0 then Leave(Exec(m, i.thn, [], st, fuel), rest, n)
        else if i.hasElse then Leave(Exec(m, i.els, [], st, fuel), rest, n)
        else Normal(rest, st)
  {
  }

  /** The condition of an `if`, in its variable. */
  lemma CondHeld(a: Place, b: BlockSite, vals: seq<Val>, st: State, env: Env)
    requires SiteOk(b) && b.cx == a.cx && b.kind == KIf && Rel(a.cx, b.g, vals, b.ts, st, env)
    ensures |vals| > 0 && Holds(env, b.Cond(), vals[|vals| - 1]) && RestVals(b, vals) == vals[..|vals| - 1]
      && Held(a.cx, st, env)
  {
    hide SiteOk, LocalsHeld, ValidStore;
    SiteFacts(b);
    TopHeld(a.cx, b.g, vals, b.ts, st, env);
  }

  lemma CondIs(env: Env, v: nat, x: Val)
    requires Holds(env, v, x)
    ensures v in env && env[v] == x
  {
  }

  /** The end of the last arm in place: where its label and its closing brace are. */
  lemma ArmBrace(a: Place, b: BlockSite, pc: nat, g: Gen, sc: Scope, at: nat, c: Code)
    requires Sited(a, b, pc) && b.kind == KIf && TransCode(b.cx, g, c).Emit? && CodeAt(a, at, TransCode(b.cx, g, c).out)
    requires
      var e := TransCode(b.cx, g, c);
      EndAt(a, b, e.g, e.ud, sc, at + |e.out|)
    ensures
      var e := TransCode(b.cx, g, c);
      var s := e.out + LeaveOut(b, e.g, e.ud) + [Goto(b.Lbl()), LabelHere(b.Lbl())];
      && Balanced(s) && CodeAt(a, at, s + [Close]) && at + |s| == CloseAt(b, e.g, e.ud, at + |e.out|)
      && OwnLabel(a, b, at + |s| - 1)
      && Seen(a, b, at + |s|) && at + |s| <= |a.Body()|
  {
    hide *;
    Kinds();
    SitedContext(a, b, pc);
    var e := TransCode(b.cx, g, c);
    var p := at + |e.out|;
    EndArm(a, b, e.g, e.ud, sc, p);
    ArmBalanced(b, g, c, sc);
    EndPlaces(a, b, pc, e.g, e.ud, sc, p);
    LabelPlaces(a, b, pc, e.g, e.ud, sc, p);
    var leave, jump := LeaveOut(b, e.g, e.ud), [Goto(b.Lbl()), LabelHere(b.Lbl())];
    ArmJoin(a, at, e.out, leave, b.Lbl());
    CodeFits(a, at, e.out + leave + jump);
    CloseIs(b, e.g, e.ud, p);
    ArmSeen(a, b, pc, e.g, sc, at + |e.out + leave + jump|);
  }

  lemma CloseIs(b: BlockSite, g: Gen, ud: nat, at: nat)
    requires b.kind != KLoop
    ensures CloseAt(b, g, ud, at) == at + |LeaveOut(b, g, ud)| + 2
  {
  }

  lemma ArmJoin(a: Place, at: nat, out: seq<CStmt>, leave: seq<CStmt>, l: nat)
    requires CodeAt(a, at, out) && CodeAt(a, at + |out|, leave) && CodeAt(a, at + |out| + |leave|, [Goto(l)])
    requires CodeAt(a, at + |out| + |leave| + 1, [LabelHere(l)]) && CodeAt(a, at + |out| + |leave| + 2, [Close])
    ensures CodeAt(a, at, out + leave + [Goto(l), LabelHere(l)])
      && CodeAt(a, at, out + leave + [Goto(l), LabelHere(l)] + [Close])
  {
    hide CodeAt;
    var jump := [Goto(l), LabelHere(l)];
    CodeJoin(a, at, out, leave);
    assert jump == [Goto(l)] + [LabelHere(l)];
    CodeJoin(a, at + |out| + |leave|, [Goto(l)], [LabelHere(l)]);
    CodeJoin(a, at, out + leave, jump);
    CodeJoin(a, at, out + leave + jump, [Close]);
  }

  lemma EndArm(a: Place, b: BlockSite, g: Gen, ud: nat, sc: Scope, at: nat)
    requires EndAt(a, b, g, ud, sc, at)
    ensures ArmEnd(b, g, ud, sc) && InArm(b, g, sc)
  {
  }

  /** A jump into a place where everything needed is in scope keeps the locals and the outer operands. */
  lemma SeenHeld(a: Place, b: BlockSite, at: nat, st: State, env0: Env, env: Env)
    requires a.fn < |a.p| && at <= |a.Body()| && Seen(a, b, at) && Held(a.cx, st, env) && Carried(b, env0, env)
    ensures Held(a.cx, st, Landed(a, at, env)) && Carried(b, env0, Landed(a, at, env))
  {
    hide Held, Names, Outer, Agrees;
    LandedHeld(a, at, st, env);
    LandedAgrees(a, at, Outer(b), env);
    AgreesTrans(Outer(b), env0, env, Landed(a, at, env));
  }

  /** An `if` without `else`, whose type has no results. */
  lemma {:induction false} SimIfOnly(a: Place, b: BlockSite, pc: nat, i: Instr, vals: seq<Val>, st: State, env0: Env,
      env: Env, fuel: nat)
    returns (env': Env)
    requires Sited(a, b, pc) && i.If? && !i.hasElse && b.kind == KIf && b.bt == i.bt && BodyChecked(b, i.thn)
      && b.Results() == []
    requires TransTail(b.cx, b.Start(), i.thn).Emit?
    requires
      var q := pc + |b.Decls()|;
      && CodeAt(a, q, [IfOpen(b.Cond())]) && CodeAt(a, q + 1, TransTail(b.cx, b.Start(), i.thn).out)
         && q + 1 <= |a.Body()|
      && ScopeOf(a, q + 1) == b.Inner()
      && Leads(a.p, At(a, pc, env0, st.store), At(a, q, env, st.store))
    requires Rel(a.cx, b.g, vals, b.ts, st, env0) && Rel(a.cx, b.g, vals, b.ts, st, env) && Carried(b, env0, env)
    ensures BlockFollows(a, b, pc, env0, st.store, ExecInstr(a.cx.m, i, vals, st, fuel),
        TransTail(b.cx, b.Start(), i.thn).g, pc + |b.Decls()| + 1 + |TransTail(b.cx, b.Start(), i.thn).out|, env')
    decreases fuel, i, 4
  {
    hide *;
    Kinds();
    SitedContext(a, b, pc);
    CondHeld(a, b, vals, st, env);
    ArmStart(b);
    SiteScoped(b);
    var q := pc + |b.Decls()|;
    var start0 := At(a, pc, env0, st.store);
    TailPlaced(a, b, pc, b.Start(), b.Inner(), q + 1, i.thn);
    var e := TransCode(b.cx, b.Start(), i.thn);
    var sc, end := ScopeFold(b.Inner(), e.out), q + 1 + |e.out|;
    ArmBrace(a, b, pc, b.Start(), sc, q + 1, i.thn);
    var s := e.out + LeaveOut(b, e.g, e.ud) + [Goto(b.Lbl()), LabelHere(b.Lbl())];
    LoopType(b);
    ExecIf(a.cx.m, i, vals, st, fuel);
    CondIs(env, b.Cond(), vals[|vals| - 1]);
    if vals[|vals| - 1].n != 0 {
      StepIfTrue(a, q, b.Cond(), env, st.store);
      LeadsTrans(a.p, start0, At(a, q, env, st.store), At(a, q + 1, env, st.store));
      env' := SimLastArm(a, b, pc, b.Start(), b.Inner(), q + 1, i.thn, q + |s|, vals, st, env0, st, env, fuel);
    } else {
      env' := SimSkipped(a, b, pc, i.thn, vals, st, env0, env);
      NothingLeft(b, vals);
      FollowsEnd(a, b, pc, env0, st.store, RestVals(b, vals), st, TransTail(b.cx, b.Start(), i.thn).g,
                 pc + |b.Decls()| + 1 + |TransTail(b.cx, b.Start(), i.thn).out|, env');
    }
  }

  lemma NothingLeft(b: BlockSite, vals: seq<Val>)
    ensures Last([], 0) == [] && RestVals(b, vals) + [] == RestVals(b, vals)
  {
  }

  lemma NoResult(b: BlockSite, env: Env)
    requires b.Results() == []
    ensures ResultHeld(b.Results(), b.Lbl(), [], env) && Last([], |b.Results()|) == []
  {
  }

  /** The condition is false and there is no other arm. */
  lemma SimSkipped(a: Place, b: BlockSite, pc: nat, c: Code, vals: seq<Val>, st: State, env0: Env, env: Env)
    returns (env': Env)
    requires Sited(a, b, pc) && b.kind == KIf && BodyChecked(b, c) && b.Results() == []
      && TransTail(b.cx, b.Start(), c).Emit?
    requires
      var q := pc + |b.Decls()|;
      && CodeAt(a, q, [IfOpen(b.Cond())]) && CodeAt(a, q + 1, TransTail(b.cx, b.Start(), c).out) && q + 1 <= |a.Body()|
      && ScopeOf(a, q + 1) == b.Inner()
      && Leads(a.p, At(a, pc, env0, st.store), At(a, q, env, st.store))
    requires Rel(a.cx, b.g, vals, b.ts, st, env0) && Held(a.cx, st, env) && Carried(b, env0, env)
    requires b.Cond() in env && env[b.Cond()].n == 0
    ensures Leads(a.p, At(a, pc, env0, st.store),
        At(a, pc + |b.Decls()| + 1 + |TransTail(b.cx, b.Start(), c).out|, env', st.store))
    ensures Rel(a.cx, TransTail(b.cx, b.Start(), c).g, RestVals(b, vals), b.Rest() + b.Results(), st, env')
      && Carried(b, env0, env')
  {
    hide *;
    Kinds();
    SitedContext(a, b, pc);
    ArmStart(b);
    SiteScoped(b);
    var q := pc + |b.Decls()|;
    var start0 := At(a, pc, env0, st.store);
    TailPlaced(a, b, pc, b.Start(), b.Inner(), q + 1, c);
    var e := TransCode(b.cx, b.Start(), c);
    var sc, end := ScopeFold(b.Inner(), e.out), q + 1 + |e.out|;
    ArmBrace(a, b, pc, b.Start(), sc, q + 1, c);
    var s := e.out + LeaveOut(b, e.g, e.ud) + [Goto(b.Lbl()), LabelHere(b.Lbl())];
    CodeJoin(a, q, [IfOpen(b.Cond())], s + [Close]);
    assert [IfOpen(b.Cond())] + (s + [Close]) == [IfOpen(b.Cond())] + s + [Close];
    StepIfFalse(a, q, b.Cond(), s, Close, env, st.store);
    var at := CloseAt(b, e.g, e.ud, end);
    var env1 := Landed(a, at, env);
    LeadsTrans(a.p, start0, At(a, q, env, st.store), At(a, at, env1, st.store));
    SeenHeld(a, b, at, st, env0, env);
    NoResult(b, env1);
    NothingLeft(b, vals);
    env' := SimFinish(a, b, pc, e.g, e.ud, sc, end, vals, st, env0, start0, st, [], env1);
  }

  /** The then-arm of an `if` with an `else`, in place. */
  lemma ThenPlaced(a: Place, b: BlockSite, pc: nat, i: Instr, q: nat)
    requires Sited(a, b, pc) && i.If? && i.hasElse && b.kind == KIf && BodyChecked(b, i.thn)
      && TransArms(b.cx, b.Start(), i).Emit?
    requires q <= |a.Body()| && ScopeOf(a, q) == b.Inner() && CodeAt(a, q, TransArms(b.cx, b.Start(), i).out)
    ensures
      var e := TransCode(b.cx, b.Start(), i.thn);
      var sc := ScopeFold(b.Inner(), e.out);
      && e.Emit? && CodeAt(a, q, e.out) && ArmEnd(b, e.g, e.ud, sc) && ScopeOf(a, q + |e.out|) == sc
         && q + |e.out| <= |a.Body()|
      && CodeAt(a, q + |e.out|, LeaveOut(b, e.g, e.ud)) && CodeAt(a, q + |e.out| + |LeaveOut(b, e.g, e.ud)|, [ElseOpen])
      && Balanced(e.out + LeaveOut(b, e.g, e.ud))
      && var x := EmitElse(b.cx, e.g, e.ud);
      && x.Emit? && InArm(b, x.g, b.Inner()) && InView(b.cx, x.g, 0, Visible(b.Inner()))
      && var at := q + |e.out| + |LeaveOut(b, e.g, e.ud)| + 1;
      && at <= |a.Body()| && ScopeOf(a, at) == b.Inner()
      && TransTail(b.cx, x.g, i.els).Emit? && CodeAt(a, at, TransTail(b.cx, x.g, i.els).out)
      && TransArms(b.cx, b.Start(), i).g == TransTail(b.cx, x.g, i.els).g
      && q + |TransArms(b.cx, b.Start(), i).out| == at + |TransTail(b.cx, x.g, i.els).out|
  {
    hide SiteOk, TransCode, ArmEnd, LabelsReady, ScopeOf, Visible, Balanced, CodeAt, EmitEnd, InArm, InView, EmitElse,
         TransTail, ScopeFold, Scoped, BodyChecked, PlaceOk;
    SitedContext(a, b, pc);
    ArmStart(b);
    SiteScoped(b);
    ArmCodeScoped(b, b.Start(), b.Inner(), i.thn);
    var e := TransCode(b.cx, b.Start(), i.thn);
    var sc := ScopeFold(b.Inner(), e.out);
    ArmBalanced(b, b.Start(), i.thn, sc);
    ElseScoped(b, e.g, e.ud, sc);
    ElseOut(b.cx, e.g, e.ud);
    var x := EmitElse(b.cx, e.g, e.ud);
    var leave, tail := LeaveOut(b, e.g, e.ud), TransTail(b.cx, x.g, i.els).out;
    assert TransArms(b.cx, b.Start(), i).out == e.out + x.out + tail;
    CodeSplit(a, q, e.out + x.out, tail);
    CodeSplit(a, q, e.out, x.out);
    CodeSplit(a, q + |e.out|, leave, [ElseOpen]);
    ScopeNext(a, q, e.out);
    ScopeNext(a, q + |e.out|, x.out);
    CodeFits(a, q, e.out);
    CodeFits(a, q + |e.out|, x.out);
  }

  lemma {:induction false} SimIfElse(a: Place, b: BlockSite, pc: nat, i: Instr, vals: seq<Val>, st: State, env0: Env,
      env: Env, fuel: nat)
    returns (env': Env)
    requires Sited(a, b, pc) && i.If? && i.hasElse && b.kind == KIf && b.bt == i.bt && BodyChecked(b, i.thn)
      && BodyChecked(b, i.els)
    requires TransArms(b.cx, b.Start(), i).Emit?
    requires
      var q := pc + |b.Decls()|;
      && CodeAt(a, q, [IfOpen(b.Cond())]) && CodeAt(a, q + 1, TransArms(b.cx, b.Start(), i).out) && q + 1 <= |a.Body()|
      && ScopeOf(a, q + 1) == b.Inner()
      && Leads(a.p, At(a, pc, env0, st.store), At(a, q, env, st.store))
    requires Rel(a.cx, b.g, vals, b.ts, st, env0) && Rel(a.cx, b.g, vals, b.ts, st, env) && Carried(b, env0, env)
    ensures BlockFollows(a, b, pc, env0, st.store, ExecInstr(a.cx.m, i, vals, st, fuel),
        TransArms(b.cx, b.Start(), i).g, pc + |b.Decls()| + 1 + |TransArms(b.cx, b.Start(), i).out|, env')
    decreases fuel, i, 4
  {
    hide *;
    Kinds();
    SitedContext(a, b, pc);
    CondHeld(a, b, vals, st, env);
    var q := pc + |b.Decls()|;
    var start0 := At(a, pc, env0, st.store);
    LoopType(b);
    ExecIf(a.cx.m, i, vals, st, fuel);
    CondIs(env, b.Cond(), vals[|vals| - 1]);
    ThenPlaced(a, b, pc, i, q + 1);
    var e := TransCode(b.cx, b.Start(), i.thn);
    var leave, x := LeaveOut(b, e.g, e.ud), EmitElse(b.cx, e.g, e.ud);
    var at := q + 1 + |e.out| + |leave| + 1;
    if vals[|vals| - 1].n != 0 {
      StepIfTrue(a, q, b.Cond(), env, st.store);
      LeadsTrans(a.p, start0, At(a, q, env, st.store), At(a, q + 1, env, st.store));
      env' := SimThen(a, b, pc, i, q + 1, vals, st, env0, env, fuel);
    } else {
      CodeJoin(a, q + 1, e.out, leave);
      CodeJoin(a, q + 1, e.out + leave, [ElseOpen]);
      CodeJoin(a, q, [IfOpen(b.Cond())], e.out + leave + [ElseOpen]);
      assert [IfOpen(b.Cond())] + (e.out + leave + [ElseOpen]) == [IfOpen(b.Cond())] + (e.out + leave) + [ElseOpen];
      StepIfFalse(a, q, b.Cond(), e.out + leave, ElseOpen, env, st.store);
      var env1 := Landed(a, at, env);
      LeadsTrans(a.p, start0, At(a, q, env, st.store), At(a, at, env1, st.store));
      ArmSeen(a, b, pc, x.g, b.Inner(), at);
      SeenHeld(a, b, at, st, env0, env);
      TailPlaced(a, b, pc, x.g, b.Inner(), at, i.els);
      var e2 := TransCode(b.cx, x.g, i.els);
      var sc2 := ScopeFold(b.Inner(), e2.out);
      ArmBrace(a, b, pc, x.g, sc2, at, i.els);
      var s := e2.out + LeaveOut(b, e2.g, e2.ud) + [Goto(b.Lbl()), LabelHere(b.Lbl())];
      env' := SimLastArm(a, b, pc, x.g, b.Inner(), at, i.els, at + |s| - 1, vals, st, env0, st, env1, fuel);
    }
  }

  /** Running the then-arm, and from its end to behind the else-arm. */
  lemma {:induction false} SimThen(a: Place, b: BlockSite, pc: nat, i: Instr, q: nat, vals: seq<Val>, st: State,
      env0: Env, env: Env, fuel: nat)
    returns (env': Env)
    requires Sited(a, b, pc) && i.If? && i.hasElse && b.kind == KIf && BodyChecked(b, i.thn) && BodyChecked(b, i.els)
    requires TransArms(b.cx, b.Start(), i).Emit?
    requires q <= |a.Body()| && ScopeOf(a, q) == b.Inner() && CodeAt(a, q, TransArms(b.cx, b.Start(), i).out)
    requires Rel(a.cx, b.g, vals, b.ts, st, env0) && Carried(b, env0, env) && Held(a.cx, st, env)
    requires Leads(a.p, At(a, pc, env0, st.store), At(a, q, env, st.store))
    ensures BlockFollows(a, b, pc, env0, st.store,
        Leave(Exec(a.cx.m, i.thn, [], st, fuel), RestVals(b, vals), |b.Results()|), TransArms(b.cx, b.Start(), i).g,
        q + |TransArms(b.cx, b.Start(), i).out|, env')
    decreases fuel, i, 3
  {
    hide *;
    Kinds();
    SitedContext(a, b, pc);
    ThenPlaced(a, b, pc, i, q);
    ArmStart(b);
    SiteScoped(b);
    var e := TransCode(b.cx, b.Start(), i.thn);
    var leave, x := LeaveOut(b, e.g, e.ud), EmitElse(b.cx, e.g, e.ud);
    var sc, at := ScopeFold(b.Inner(), e.out), q + |e.out| + |leave| + 1;
    TailPlaced(a, b, pc, x.g, b.Inner(), at, i.els);
    var e2 := TransCode(b.cx, x.g, i.els);
    var sc2, end := ScopeFold(b.Inner(), e2.out), at + |e2.out|;
    ArmBrace(a, b, pc, x.g, sc2, at, i.els);
    var s := e2.out + LeaveOut(b, e2.g, e2.ud) + [Goto(b.Lbl()), LabelHere(b.Lbl())];
    ArmPoised(a, b, pc, b.Start(), b.Inner(), q, at + |s| - 1);
    RelEmpty(a.cx, b.Start(), st, env);
    ArmChecked(b, b.Start(), b.Inner(), i.thn);
    var r := CheckCode(b.cx, GenLabels(b.cx, b.Start()), i.thn, []);
    var env1 := SimCode(a, b.Start(), i.thn, [], q, [], st, env, fuel);
    var o := Exec(a.cx.m, i.thn, [], st, fuel);
    if o.Normal? {
      env' := SimThenEnds(a, b, pc, i, q, vals, st, env0, env, o.vs, o.st, env1);
    } else {
      env' := SimExit(a, b, pc, b.Start(), b.Inner(), q, e2.g, e2.ud, sc2, end, vals, st, env0, st.store, env,
          o, r, e.g, q + |e.out|, env1);
    }
  }

  /** The code of an arm is checked and translated. */
  lemma ArmChecked(b: BlockSite, g: Gen, sc: Scope, c: Code)
    requires SiteOk(b) && InArm(b, g, sc) && BodyChecked(b, c)
    ensures
      var r := CheckCode(b.cx, GenLabels(b.cx, g), c, []);
      && r != Bad && BodyOk(r, b.Results())
      && TransCode(b.cx, g, c).Emit? && (r.Live? ==> TransCode(b.cx, g, c).ud == 0)
  {
    hide SiteOk, CheckCode, TransCode, GenLabels, After, Sound, Ops, InArm, GoodContext;
    ArmFacts(b, g, sc);
    ArmSound(b, g, sc);
    SiteView(b);
    CodeIsSound(b.cx, g, c, []);
    AfterEmits(b.cx, g, [], TransCode(b.cx, g, c), CheckCode(b.cx, GenLabels(b.cx, g), c, []));
  }

  /** The then-arm has run to its end: its result is moved, and the else-arm is skipped. */
  lemma SimThenEnds(a: Place, b: BlockSite, pc: nat, i: Instr, q: nat, vals: seq<Val>, st0: State, env0: Env, env: Env,
      vs: seq<Val>, st: State, env1: Env)
    returns (env': Env)
    requires Sited(a, b, pc) && i.If? && i.hasElse && b.kind == KIf && BodyChecked(b, i.thn) && BodyChecked(b, i.els)
    requires TransArms(b.cx, b.Start(), i).Emit?
    requires q <= |a.Body()| && ScopeOf(a, q) == b.Inner() && CodeAt(a, q, TransArms(b.cx, b.Start(), i).out)
    requires Rel(a.cx, b.g, vals, b.ts, st0, env0) && Carried(b, env0, env)
    requires Leads(a.p, At(a, pc, env0, st0.store), At(a, q, env, st0.store))
    requires TransCode(b.cx, b.Start(), i.thn).Emit?
    requires
      var e := TransCode(b.cx, b.Start(), i.thn);
      Follows(a, b.Start(), |b.Start().stack|, q, env, st0.store, Normal(vs, st),
          CheckCode(b.cx, GenLabels(b.cx, b.Start()), i.thn, []), e.g, q + |e.out|, env1)
    ensures BlockFollows(a, b, pc, env0, st0.store, Leave(Normal(vs, st), RestVals(b, vals), |b.Results()|),
                         TransArms(b.cx, b.Start(), i).g, q + |TransArms(b.cx, b.Start(), i).out|, env')
  {
    hide *;
    Kinds();
    SitedContext(a, b, pc);
    ThenPlaced(a, b, pc, i, q);
    ArmStart(b);
    ArmChecked(b, b.Start(), b.Inner(), i.thn);
    var e := TransCode(b.cx, b.Start(), i.thn);
    var leave, x := LeaveOut(b, e.g, e.ud), EmitElse(b.cx, e.g, e.ud);
    var sc, at := ScopeFold(b.Inner(), e.out), q + |e.out| + |leave| + 1;
    var r := CheckCode(b.cx, GenLabels(b.cx, b.Start()), i.thn, []);
    FollowsNormal(a, b.Start(), q, env, st0.store, vs, st, r, e.g, q + |e.out|, env1);
    LiveResults(r, b.Results());
    ArmCarried(a, b, pc, b.Start(), b.Inner(), q, env0, env, env1);
    var start0 := At(a, pc, env0, st0.store);
    LeadsTrans(a.p, start0, At(a, q, env, st0.store), At(a, q + |e.out|, env1, st.store));
    var env2 := SimLeave(a, b, pc, e.g, sc, q + |e.out|, st, vs, env0, env1);
    LeadsTrans(a.p, start0, At(a, q + |e.out|, env1, st.store), At(a, at - 1, env2, st.store));
    TailPlaced(a, b, pc, x.g, b.Inner(), at, i.els);
    var e2 := TransCode(b.cx, x.g, i.els);
    var sc2, end := ScopeFold(b.Inner(), e2.out), at + |e2.out|;
    ArmBrace(a, b, pc, x.g, sc2, at, i.els);
    var s := e2.out + LeaveOut(b, e2.g, e2.ud) + [Goto(b.Lbl()), LabelHere(b.Lbl())];
    CodeJoin(a, at - 1, [ElseOpen], s + [Close]);
    assert [ElseOpen] + (s + [Close]) == [ElseOpen] + s + [Close];
    StepElse(a, at - 1, s, env2, st.store);
    var at2 := CloseAt(b, e2.g, e2.ud, end);
    var env3 := Landed(a, at2, env2);
    LeadsTrans(a.p, start0, At(a, at - 1, env2, st.store), At(a, at2, env3, st.store));
    SeenLanded(a, b, at2, st, vs, env0, env2);
    env' := SimFinish(a, b, pc, e2.g, e2.ud, sc2, end, vals, st0, env0, start0, st, vs, env3);
    LeaveNormal(b, vs, st, RestVals(b, vals), env3);
    EndIs(a, b, e2.g, e2.ud, sc2, end);
    FollowsEnd(a, b, pc, env0, st0.store, RestVals(b, vals) + Last(vs, |b.Results()|), st, EmitEnd(b.cx, e2.g, e2.ud).g,
               end + |EmitEnd(b.cx, e2.g, e2.ud).out|, env');
  }

  lemma LiveResults(r: Check, rs: seq<ValType>)
    requires BodyOk(r, rs) && r.Live?
    ensures r.ts == rs
  {
  }

  lemma LeaveNormal(b: BlockSite, vs: seq<Val>, st: State, rest: seq<Val>, env: Env)
    requires ResultHeld(b.Results(), b.Lbl(), vs, env)
    ensures |b.Results()| <= |vs|
      && Leave(Normal(vs, st), rest, |b.Results()|) == Normal(rest + Last(vs, |b.Results()|), st)
  {
  }

  // ---------------------------------------------------------------- all blocks

  /** What follows the opening of a block. */
  function Rest(b: BlockSite, i: Instr): Emission
    requires IsBlock(i)
  {
    if i.If? then TransArms(b.cx, b.Start(), i) else TransTail(b.cx, b.Start(), i.body)
  }

  lemma BlockSited(a: Place, g: Gen, i: Instr, ts: seq<ValType>, pc: nat)
    requires Poised(a, g, ts, pc) && IsBlock(i) && CheckInstr(a.cx, GenLabels(a.cx, g), i, ts) != Bad
      && TransInstr(a.cx, g, i).Emit?
    requires CodeAt(a, pc, TransInstr(a.cx, g, i).out)
    ensures
      var b := SiteOf(a.cx, g, i, ts, ScopeOf(a, pc));
      && Sited(a, b, pc) && CheckInstr(a.cx, GenLabels(a.cx, g), i, ts) == Live(b.Rest() + b.Results())
      && (if i.If? then BodyChecked(b, i.thn) && (if i.hasElse then BodyChecked(b, i.els) else b.Results() == [])
         else BodyChecked(b, i.body))
      && Rest(b, i).Emit? && TransInstr(a.cx, g, i).g == Rest(b, i).g
      && |TransInstr(a.cx, g, i).out| == |b.Decls()| + |b.Opens()| + |Rest(b, i).out|
      && CodeAt(a, pc, b.Decls()) && CodeAt(a, pc + |b.Decls()|, b.Opens())
      && CodeAt(a, pc + |b.Decls()| + |b.Opens()|, Rest(b, i).out)
  {
    hide PlaceOk, GoodContext, Sound, Ops, InView, Visible, ScopeOf, CheckInstr, GenLabels, LabelsReady, CodeAt,
         TransArms, TransTail, EmitBegin, BodyChecked, JumpType, SimpleBlock, ResultsOf;
    var b := SiteOf(a.cx, g, i, ts, ScopeOf(a, pc));
    BlockCase(a.cx, g, i, ts);
    SimpleJump(a.cx.m.types, i.bt, b.kind);
    SiteEmits(b);
    var front := b.Decls() + b.Opens();
    assert TransInstr(a.cx, g, i) == Prepend(front, Rest(b, i));
    CodeSplit(a, pc, front, Rest(b, i).out);
    CodeSplit(a, pc, b.Decls(), b.Opens());
  }

  lemma SimpleJump(types: seq<FuncType>, bt: int, kind: int)
    requires SimpleBlock(types, bt)
    ensures JumpType(types, bt, kind)
  {
  }

  lemma ExecBlock(m: Module, i: Instr, vs: seq<Val>, st: State, fuel: nat)
    requires i.Block? && BlockType(m.types, i.bt).Some?
    ensures ExecInstr(m, i, vs, st, fuel) == Leave(Exec(m, i.body, [], st, fuel), vs, |ResultsOf(m.types, i.bt)|)
  {
  }

  lemma {:induction false} SimBlock(a: Place, g: Gen, i: Instr, ts: seq<ValType>, pc: nat, vals: seq<Val>, st: State,
      env: Env, fuel: nat)
    returns (env': Env)
    requires IsBlock(i)
    requires Poised(a, g, ts, pc) && CheckInstr(a.cx, GenLabels(a.cx, g), i, ts) != Bad && TransInstr(a.cx, g, i).Emit?
    requires CodeAt(a, pc, TransInstr(a.cx, g, i).out) && Rel(a.cx, g, vals, ts, st, env)
    ensures
      var e := TransInstr(a.cx, g, i);
      && |ts| <= |g.stack|
      && Follows(a, g, |g.stack| - |ts|, pc, env, st.store, ExecInstr(a.cx.m, i, vals, st, fuel),
         CheckInstr(a.cx, GenLabels(a.cx, g), i, ts), e.g, pc + |e.out|, env')
    decreases fuel, i, 6
  {
    hide *;
    Kinds();
    var b := SiteOf(a.cx, g, i, ts, ScopeOf(a, pc));
    SiteParts(a.cx, g, i, ts, ScopeOf(a, pc));
    BlockSited(a, g, i, ts, pc);
    SitedContext(a, b, pc);
    LoopType(b);
    var env1 := SimDecls(a, b, pc, vals, st, env);
    RelParts(a.cx, g, vals, ts, st, env1);
    InnerIs(b);
    RestIs(b, i);
    if i.Block? {
      env' := SimKBlock(a, b, pc, i.body, vals, st, env, env1, fuel);
      ExecBlock(a.cx.m, i, vals, st, fuel);
      RestAll(b, vals);
    } else if i.Loop? {
      OpensTwo(b);
      var env2 := SimLoopEntry(a, b, pc, st, env1);
      var own := pc + |b.Decls()| + 1;
      CarriedThen(b, env, env1, env2);
      LeadsTrans(a.p, At(a, pc, env, st.store), At(a, own - 1, env1, st.store), At(a, own, env2, st.store));
      env' := SimLoop(a, b, pc, i, own, vals, st, env, st, env2, fuel);
    } else {
      IfScope(a, b, pc);
      if i.hasElse {
        env' := SimIfElse(a, b, pc, i, vals, st, env, env1, fuel);
      } else {
        ArmsOnly(b, i);
        env' := SimIfOnly(a, b, pc, i, vals, st, env, env1, fuel);
      }
    }
    BlockIsInstr(a, b, pc, env, st.store, ExecInstr(a.cx.m, i, vals, st, fuel), TransInstr(a.cx, g, i).g,
        pc + |TransInstr(a.cx, g, i).out|, env');
  }

  lemma SiteParts(cx: Context, g: Gen, i: Instr, ts: seq<ValType>, sc: Scope)
    requires IsBlock(i)
    ensures
      var b := SiteOf(cx, g, i, ts, sc);
      && b.cx == cx && b.g == g && b.ts == ts && b.bt == i.bt && b.sc == sc
      && b.kind == (if i.Block? then KBlock else if i.Loop? then KLoop else KIf)
      && (i.Block? || i.Loop? || i.If?)
  {
  }

  lemma RestIs(b: BlockSite, i: Instr)
    requires IsBlock(i)
    ensures Rest(b, i) == if i.If? then TransArms(b.cx, b.Start(), i) else TransTail(b.cx, b.Start(), i.body)
  {
  }

  lemma ArmsOnly(b: BlockSite, i: Instr)
    requires i.If? && !i.hasElse
    ensures TransArms(b.cx, b.Start(), i) == TransTail(b.cx, b.Start(), i.thn)
  {
  }

  lemma OpensTwo(b: BlockSite)
    ensures b.kind == KLoop ==> |b.Opens()| == 2
  {
  }

  lemma CarriedThen(b: BlockSite, env0: Env, env1: Env, env2: Env)
    requires Carried(b, env0, env1) && Carried(b, env1, env2)
    ensures Carried(b, env0, env2)
  {
    AgreesTrans(Outer(b), env0, env1, env2);
  }

  lemma IfScope(a: Place, b: BlockSite, pc: nat)
    requires Sited(a, b, pc) && b.kind == KIf && CodeAt(a, pc + |b.Decls()|, [IfOpen(b.Cond())])
      && ScopeOf(a, pc + |b.Decls()|) == b.Base()
    ensures pc + |b.Decls()| + 1 <= |a.Body()| && ScopeOf(a, pc + |b.Decls()| + 1) == b.Inner()
  {
    hide SiteOk, LabelsReady, ScopeOf, Visible, FuncContext, Translated, UniqueLabels, ScopeFold, CodeAt;
    var q := pc + |b.Decls()|;
    CodeFits(a, q, [IfOpen(b.Cond())]);
    ScopeNext(a, q, [IfOpen(b.Cond())]);
    ScopeOne(b.Base(), IfOpen(b.Cond()));
  }

  lemma BlockIsInstr(a: Place, b: BlockSite, pc: nat, env0: Env, store0: Store, o: Outcome, g': Gen,
      pc': nat, env': Env)
    requires BlockFollows(a, b, pc, env0, store0, o, g', pc', env')
    ensures |b.ts| <= |b.g.stack|
      && Follows(a, b.g, |b.g.stack| - |b.ts|, pc, env0, store0, o, Live(b.Rest() + b.Results()), g', pc', env')
  {
  }

  // ---------------------------------------------------------------- functions

  function EnvOf(vs: seq<Val>): Env { map i: nat | i < |vs| :: i := vs[i] }

  function Zeroes(ts: seq<ValType>): seq<Val> { seq(|ts|, (i: nat) requires i < |ts| => Zero(ts[i])) }

  lemma EnterState(p: seq<CFunc>, f: nat, args: seq<Val>, callers: Callers, store: Store)
    requires f < |p| && AllTyped(args, p[f].params)
    ensures Enter(p, f, args, callers, store) == Running(Frame(f, 0, EnvOf(args)), callers, store)
  {
    forall i: nat | i < |args| ensures Convert(p[f].params[i], args[i].n) == args[i] {
      TypedConvert(args[i], p[f].params[i]);
    }
    assert EnvOf(args) == map i: nat | i < |args| :: i := Convert(p[f].params[i], args[i].n);
  }

  /** The declarations of the locals, one after another. */
  lemma {:induction false} SimZeros(a: Place, args: seq<Val>, ts: seq<ValType>, k: nat, store: Store)
    requires a.fn < |a.p| && CodeAt(a, 0, ZeroLocals(|args|, ts)) && k <= |ts|
    ensures Leads(a.p, At(a, 0, EnvOf(args), store), At(a, k, EnvOf(args + Zeroes(ts)[..k]), store))
    decreases k
  {
    hide Leads;
    if k == 0 {
      assert args + Zeroes(ts)[..0] == args;
      LeadsRefl(a.p, At(a, 0, EnvOf(args), store));
    } else {
      SimZeros(a, args, ts, k - 1, store);
      var vs, vs' := args + Zeroes(ts)[..k - 1], args + Zeroes(ts)[..k];
      assert vs' == vs + [Zero(ts[k - 1])];
      assert EnvOf(vs') == EnvOf(vs)[|vs| := Zero(ts[k - 1])];
      ZeroAt(a, |args|, ts, k - 1);
      StepPlain(a, k - 1, DeclareZero(|args| + k - 1, ts[k - 1]), EnvOf(vs), store, EnvOf(vs'), store);
      LeadsTrans(a.p, At(a, 0, EnvOf(args), store), At(a, k - 1, EnvOf(vs), store), At(a, k, EnvOf(vs'), store));
    }
  }

  lemma ZeroAt(a: Place, first: nat, ts: seq<ValType>, k: nat)
    requires CodeAt(a, 0, ZeroLocals(first, ts)) && k < |ts|
    ensures CodeAt(a, k, [DeclareZero(first + k, ts[k])])
  {
    assert a.Body()[k] == a.Body()[0..|ts|][k];
    assert a.Body()[k..k + 1] == [a.Body()[k]];
  }

  lemma EnvHeld(m: Module, f: Func, args: seq<Val>, store: Store)
    requires f.ty < |m.types| && AllTyped(args, m.types[f.ty].params) && ValidStore(m, store)
    ensures Held(FuncContext(m, f), State(args + Zeroes(f.locals), store), EnvOf(args + Zeroes(f.locals)))
  {
    hide ValidStore;
    ZeroesTyped(f.locals);
    var vs := args + Zeroes(f.locals);
    forall i: nat | i < |vs| ensures Holds(EnvOf(vs), i, vs[i]) {
    }
  }

  lemma ZeroesTyped(ts: seq<ValType>)
    ensures AllTyped(Zeroes(ts), ts)
  {
  }

  /** A function of the program, about to run its body. */
  function Activation(m: Module, p: seq<CFunc>, f: nat, callers: Callers): Place
    requires f < |m.funcs| && m.funcs[f].ty < |m.types|
  {
    Place(p, f, FuncContext(m, m.funcs[f]), callers)
  }

  /** Where the parts of a function's body are. */
  lemma FuncPlaced(m: Module, p: seq<CFunc>, f: nat, callers: Callers)
    requires ValidModule(m) && Translated(m, p) && f < |m.funcs| && m.funcs[f].ty < |m.types|
    ensures
      var fn := m.funcs[f];
      var a := Activation(m, p, f, callers);
      var b := FuncSite(m, fn);
      var n := |Zeros(m, fn)|;
      && f < |p| && p[f].params == m.types[fn.ty].params && p[f].ret == RetOf(m.types[fn.ty].results)
         && n == |fn.locals|
      && CodeAt(a, 0, Zeros(m, fn)) && CodeAt(a, n, b.Decls()) && Sited(a, b, n) && BodyChecked(b, fn.body)
      && b.Results() == m.types[fn.ty].results && |b.Results()| <= 1
      && var t := TransTail(b.cx, b.Start(), fn.body);
      && t.Emit? && CodeAt(a, n + |b.Decls()|, t.out) && |t.g.stack| == |b.Results()|
      && CodeAt(a, n + |b.Decls()| + |t.out|, Returns(b, t.g))
      && |a.Body()| == n + |b.Decls()| + |t.out| + |Returns(b, t.g)|
  {
    hide ValidModule, TransTail, SiteOk, BodyChecked, TransFunc, Scoped, ScopeFold, ParamScope, Returns, Visible,
         UniqueLabels;
    var fn := m.funcs[f];
    var a := Activation(m, p, f, callers);
    var b := FuncSite(m, fn);
    FuncEmits(m, fn);
    FuncLayout(m, fn);
    EntrySite(m, fn);
    var t := TransTail(b.cx, b.Start(), fn.body);
    assert a.Body() == TransFunc(m, fn).out;
    ZeroScope(Params(m, fn), fn.locals);
    BodyAt(a, TransFunc(m, fn).out);
    WholeCode(a, Zeros(m, fn), b.Decls(), t.out, Returns(b, t.g));
    ScopeFirst(a, Zeros(m, fn));
    Lengths(Zeros(m, fn) + b.Decls(), t.out, Returns(b, t.g));
    Lengths(Zeros(m, fn), b.Decls(), t.out);
  }

  lemma WholeCode(a: Place, z: seq<CStmt>, d: seq<CStmt>, t: seq<CStmt>, r: seq<CStmt>)
    requires CodeAt(a, 0, z + d + t + r)
    ensures CodeAt(a, 0, z) && CodeAt(a, |z|, d) && CodeAt(a, |z| + |d|, t) && CodeAt(a, |z| + |d| + |t|, r)
  {
    hide *;
    CodeSplit(a, 0, z + d + t, r);
    CodeSplit(a, 0, z + d, t);
    CodeSplit(a, 0, z, d);
    Lengths(z, d, t);
  }

  lemma Lengths(z: seq<CStmt>, d: seq<CStmt>, t: seq<CStmt>)
    ensures |z + d + t| == |z| + |d| + |t| && |z + d| == |z| + |d|
  {
  }

  lemma BodyAt(a: Place, s: seq<CStmt>)
    requires a.Body() == s
    ensures CodeAt(a, 0, s)
  {
    assert a.Body()[0..|a.Body()|] == a.Body();
  }

  lemma ScopeFirst(a: Place, z: seq<CStmt>)
    requires a.fn < |a.p| && CodeAt(a, 0, z)
    ensures ScopeOf(a, |z|) == ScopeFold(ParamScope(a.p[a.fn].params), z)
  {
    hide ScopeFold, ParamScope;
    assert a.Body()[..|z|] == z;
  }

  lemma StepEnd(a: Place, env: Env, store: Store)
    requires a.fn < |a.p| && a.p[a.fn].ret.None?
    ensures Leads(a.p, At(a, |a.Body()|, env, store), GiveBack(a.p, None, a.callers, store))
  {
    LeadsStep(a.p, At(a, |a.Body()|, env, store));
  }

  /** The closing `return`, or the end of a function without a result. */
  lemma SimEpilogue(a: Place, b: BlockSite, g: Gen, at: nat, vs: seq<Val>, st: State, env: Env)
    requires a.fn < |a.p| && b.cx == a.cx && a.p[a.fn].ret == RetOf(b.Results()) && |g.stack| == |b.Results()| <= 1
    requires CodeAt(a, at, Returns(b, g)) && |a.Body()| == at + |Returns(b, g)|
      && Rel(a.cx, g, vs, b.Results(), st, env)
    ensures Leads(a.p, At(a, at, env, st.store), GiveBack(a.p, RetVal(b.Results(), vs), a.callers, st.store))
    ensures AllTyped(vs, b.Results()) && ValidStore(a.cx.m, st.store)
  {
    hide Leads, CodeAt, GiveBack, LocalsHeld, ValidStore, Typed, AllTyped, Rel, Returns, Held;
    RelParts(a.cx, g, vs, b.Results(), st, env);
    HeldValid(a.cx, st, env);
    if b.Results() == [] {
      ReturnsNone(b, g);
      StepEnd(a, env, st.store);
    } else {
      TopHeld(a.cx, g, vs, b.Results(), st, env);
      TypedConvert(vs[|vs| - 1], b.Results()[|b.Results()| - 1]);
      ReturnsOne(b, g);
      StepRet(a, at, Some(Top(g)), env, st.store);
    }
  }

  lemma HeldValid(cx: Context, st: State, env: Env)
    requires Held(cx, st, env)
    ensures ValidStore(cx.m, st.store)
  {
  }

  lemma ReturnsNone(b: BlockSite, g: Gen)
    requires b.Results() == []
    ensures Returns(b, g) == []
  {
  }

  lemma ReturnsOne(b: BlockSite, g: Gen)
    requires b.Results() != [] && |g.stack| > 0
    ensures Returns(b, g) == [Ret(Some(Top(g)))]
  {
  }

  lemma ExecFuncIs(m: Module, f: nat, args: seq<Val>, store: Store, fuel: nat)
    requires f < |m.funcs| && m.funcs[f].ty < |m.types| && fuel > 0
    ensures
      var fn := m.funcs[f];
      var n := |m.types[fn.ty].results|;
      ExecFunc(m, f, args, store, fuel) ==
        match Leave(Exec(m, fn.body, [], State(args + Zeroes(fn.locals), store), fuel - 1), [], n)
        case Normal(vs, st') => Returned(vs, st'.store)
        case Returned(vs, store') => if |vs| < n then Stopped(IllTyped) else Returned(Last(vs, n), store')
        case Branch(_, _, _) => Stopped(IllTyped)
        case o => o
  {
    assert Zeroes(m.funcs[f].locals) ==
      seq(|m.funcs[f].locals|, (i: nat) requires i < |m.funcs[f].locals| => Zero(m.funcs[f].locals[i]));
  }

  /** The emitted function answers every call as the source function does. */
  lemma {:induction false} SimFunc(m: Module, p: seq<CFunc>, f: nat, args: seq<Val>, store: Store,
      callers: Callers, fuel: nat)
    requires ValidModule(m) && Translated(m, p) && f < |m.funcs| && m.funcs[f].ty < |m.types|
    requires AllTyped(args, m.types[m.funcs[f].ty].params) && ValidStore(m, store)
    ensures Answers(p, m, f, args, store, callers, ExecFunc(m, f, args, store, fuel))
    decreases fuel, f, 9
  {
    hide *;
    if fuel == 0 {
      NoFuel(m, f, args, store);
      AnswersFuel(p, m, f, args, store, callers);
    } else {
      var fn, a, b := m.funcs[f], Activation(m, p, f, callers), FuncSite(m, m.funcs[f]);
      FuncPlaced(m, p, f, callers);
      SiteIs(m, p, f, callers);
      var vals := args + Zeroes(fn.locals);
      var st := State(vals, store);
      SimEntry(m, p, f, args, store, callers);
      EnvHeld(m, fn, args, store);
      RelEmpty(b.cx, b.g, st, EnvOf(vals));
      var n := |Zeros(m, fn)|;
      var t := TransTail(b.cx, b.Start(), fn.body);
      var env1 := SimDecls(a, b, n, [], st, EnvOf(vals));
      RelParts(b.cx, b.g, [], [], st, env1);
      var env2 := SimKBlock(a, b, n, fn.body, [], st, EnvOf(vals), env1, fuel - 1);
      RestAll(b, []);
      ExecFuncIs(m, f, args, store, fuel);
      FuncAnswers(m, p, f, args, store, callers, Leave(Exec(m, fn.body, [], st, fuel - 1), [], |b.Results()|),
          st, EnvOf(vals), env2, ExecFunc(m, f, args, store, fuel));
    }
  }

  lemma NoFuel(m: Module, f: nat, args: seq<Val>, store: Store)
    requires f < |m.funcs| && m.funcs[f].ty < |m.types|
    ensures ExecFunc(m, f, args, store, 0) == OutOfFuel
  {
  }

  lemma SiteIs(m: Module, p: seq<CFunc>, f: nat, callers: Callers)
    requires f < |m.funcs| && m.funcs[f].ty < |m.types|
    ensures
      var a := Activation(m, p, f, callers);
      var b := FuncSite(m, m.funcs[f]);
      && a.p == p && a.fn == f && a.callers == callers && a.cx == b.cx == FuncContext(m, m.funcs[f]) && b.cx.m == m
      && b.ts == [] && b.kind == KBlock && KBlock != KIf && b.g.blocks == [] && TypeAt(m, f) == m.types[m.funcs[f].ty]
      && b.cx.results == m.types[m.funcs[f].ty].results && b.Rest() == []
      && |Zeros(m, m.funcs[f])| == |m.funcs[f].locals|
  {
  }

  /** From the call to behind the declarations of the locals. */
  lemma SimEntry(m: Module, p: seq<CFunc>, f: nat, args: seq<Val>, store: Store, callers: Callers)
    requires ValidModule(m) && Translated(m, p) && f < |m.funcs| && m.funcs[f].ty < |m.types|
    requires AllTyped(args, m.types[m.funcs[f].ty].params)
    ensures
      var fn := m.funcs[f];
      var a := Activation(m, p, f, callers);
      Leads(p, Enter(p, f, args, callers, store), At(a, |Zeros(m, fn)|, EnvOf(args + Zeroes(fn.locals)), store))
  {
    hide ValidModule, Translated, Leads, Enter, CodeAt, ZeroLocals, TransTail, Sited, BodyChecked, Returns, AllTyped,
         EnvOf;
    var fn := m.funcs[f];
    var a := Activation(m, p, f, callers);
    FuncPlaced(m, p, f, callers);
    SiteIs(m, p, f, callers);
    EnterState(p, f, args, callers, store);
    TypedLength(args, m.types[fn.ty].params);
    SimZeros(a, args, fn.locals, |fn.locals|, store);
    assert Zeroes(fn.locals)[..|fn.locals|] == Zeroes(fn.locals);
  }

  lemma TypedLength(vs: seq<Val>, ts: seq<ValType>)
    requires AllTyped(vs, ts)
    ensures |vs| == |ts|
  {
  }

  /** From the outcome of the body to the answer of the function. */
  lemma FuncAnswers(m: Module, p: seq<CFunc>, f: nat, args: seq<Val>, store: Store, callers: Callers, o: Outcome,
      st: State, env1: Env, env2: Env, r: Outcome)
    requires ValidModule(m) && Translated(m, p) && f < |m.funcs| && m.funcs[f].ty < |m.types|
    requires
      var fn := m.funcs[f];
      var a := Activation(m, p, f, callers);
      var b := FuncSite(m, fn);
      var t := TransTail(b.cx, b.Start(), fn.body);
      && t.Emit? && |b.Results()| <= 1 && b.Results() == m.types[fn.ty].results && |t.g.stack| == |b.Results()|
         && st.store == store
      && Leads(p, Enter(p, f, args, callers, store), At(a, |Zeros(m, fn)|, env1, store))
      && BlockFollows(a, b, |Zeros(m, fn)|, env1, store, o, t.g, |Zeros(m, fn)| + |b.Decls()| + |t.out|, env2)
    requires
      var n := |m.types[m.funcs[f].ty].results|;
      r == match o
        case Normal(vs, st') => Returned(vs, st'.store)
        case Returned(vs, store') => if |vs| < n then Stopped(IllTyped) else Returned(Last(vs, n), store')
        case Branch(_, _, _) => Stopped(IllTyped)
        case _ => o
    ensures Answers(p, m, f, args, store, callers, r)
  {
    hide ValidModule, Translated, Leads, Enter, CodeAt, ZeroLocals, TransTail, Sited, BodyChecked, Returns, AllTyped,
         GiveBack, Rel, ValidStore, Agrees, Below, Names, Activation, FuncSite, Zeros, TypeAt, Held;
    var fn := m.funcs[f];
    var a, b := Activation(m, p, f, callers), FuncSite(m, fn);
    var t := TransTail(b.cx, b.Start(), fn.body);
    FuncPlaced(m, p, f, callers);
    SiteIs(m, p, f, callers);
    var start, from := Enter(p, f, args, callers, store), At(a, |Zeros(m, fn)|, env1, store);
    var at := |Zeros(m, fn)| + |b.Decls()| + |t.out|;
    if o.Normal? {
      assert [] + b.Results() == b.Results();
      LeadsTrans(p, start, from, At(a, at, env2, o.st.store));
      SimEpilogue(a, b, t.g, at, o.vs, o.st, env2);
      LeadsTrans(p, start, At(a, at, env2, o.st.store), GiveBack(p, RetVal(b.Results(), o.vs), callers, o.st.store));
    } else if o.Returned? {
      LeadsTrans(p, start, from, GiveBack(p, RetVal(b.Results(), o.vs), callers, o.store));
      LastSame(b.Results(), o.vs);
    } else if o.Aborted? {
      LeadsTrans(p, start, from, MAborted);
    } else if o.Stopped? {
      HaltsBefore(p, start, from, o.why);
    }
  }

  lemma LastSame(results: seq<ValType>, vs: seq<Val>)
    requires |results| <= 1 && |results| <= |vs|
    ensures RetVal(results, Last(vs, |results|)) == RetVal(results, vs)
  {
  }

  // ---------------------------------------------------------------- the theorem

  /** The program that a module is translated to. */
  function TranslateModule(m: Module): seq<CFunc>
    requires forall f | f in m.funcs :: f.ty < |m.types|
  {
    seq(|m.funcs|, (i: nat) requires i < |m.funcs| => Compiled(m, m.funcs[i]))
  }

  lemma ModuleTranslated(m: Module)
    requires ValidModule(m)
    ensures (forall f | f in m.funcs :: f.ty < |m.types|) && Translated(m, TranslateModule(m))
    ensures forall f | f in m.funcs :: TransFunc(m, f).Emit?
  {
    hide CheckCode, TransFunc;
    forall f | f in m.funcs ensures f.ty < |m.types| && TransFunc(m, f).Emit? {
      FuncEmits(m, f);
    }
  }

  /**
   Compiler correctness: calling any function of a valid module with arguments of its parameters' types,
   whatever the source run comes to within any number of steps, the emitted program comes to as well: the
   same result, the same globals and the same memory, the same abort, or undefined behaviour where the
   source traps or overflows a signed remainder. Only a trap of an access whose address wraps around into
   the memory is not reproduced. And the source run never gets stuck on its types.
   */
  lemma CompilerCorrect(m: Module, f: nat, args: seq<Val>, store: Store, fuel: nat)
    requires ValidModule(m) && f < |m.funcs| && m.funcs[f].ty < |m.types|
    requires AllTyped(args, m.types[m.funcs[f].ty].params) && ValidStore(m, store)
    ensures forall fn | fn in m.funcs :: fn.ty < |m.types| && TransFunc(m, fn).Emit?
    ensures
      var p := TranslateModule(m);
      var results := m.types[m.funcs[f].ty].results;
      var start := Enter(p, f, args, NoCaller, store);
      match ExecFunc(m, f, args, store, fuel)
      case Returned(vs, store') =>
        && AllTyped(vs, results)
        && Leads(p, start, Finished(if results == [] then None else Some(vs[0]), store'))
      case Aborted => Leads(p, start, MAborted)
      case Stopped(why) => why != IllTyped && (why != Wrapped ==> Leads(p, start, Stuck))
      case OutOfFuel => true
      case _ => false
  {
    hide ValidModule, Translated, TransFunc, Leads, Enter, ExecFunc;
    ModuleTranslated(m);
    assert ValidFunc(m, m.funcs[f]) by { FuncValid(m, f); }
    SimFunc(m, TranslateModule(m), f, args, store, NoCaller, fuel);
  }

  lemma FuncValid(m: Module, f: nat)
    requires ValidModule(m) && f < |m.funcs|
    ensures ValidFunc(m, m.funcs[f])
  {
  }
}
