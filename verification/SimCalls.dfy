/** Calls: arguments go in, the result comes back into the caller's variable. */
module SimCalls {
  import opened Options
  import opened Wasm
  import opened CLang
  import opened Translator
  import opened Allocator
  import opened CodeSound
  import opened Statements
  import opened Scoping
  import opened ScopeCode
  import opened Steps
  import opened Sim
  import opened SimPlain
  import opened SimControl

  predicate Callable(m: Module, f: nat)
  {
    f < |m.funcs| && m.funcs[f].ty < |m.types| && |m.types[m.funcs[f].ty].results| <= 1
  }

  function TypeAt(m: Module, f: nat): FuncType {
    if f < |m.funcs| && m.funcs[f].ty < |m.types| then m.types[m.funcs[f].ty] else FuncType([], [])
  }

  /** The emitted function answers a call as the source function does. */
  ghost predicate Answers(p: seq<CFunc>, m: Module, f: nat, args: seq<Val>, store: Store,
      callers: Callers, o: Outcome) {
    var start := Enter(p, f, args, callers, store);
    match o
    case Returned(vs, store') =>
      && Leads(p, start, GiveBack(p, RetVal(TypeAt(m, f).results, vs), callers, store'))
      && ValidStore(m, store') && AllTyped(vs, TypeAt(m, f).results)
    case Aborted => Leads(p, start, MAborted)
    case Stopped(why) => Halts(p, start, why)
    case OutOfFuel => true
    case _ => false
  }

  /** The variable for the result of a call. */
  function CallDst(cx: Context, g: Gen, f: nat): Option<Dst>
    requires |TypeAt(cx.m, f).params| <= |g.stack|
  {
    var ft := TypeAt(cx.m, f);
    if ft.results == [] then None else Some(StackPush(PopN(g, |ft.params|).0, ft.results[0]).1)
  }

  lemma CallShape(cx: Context, g: Gen, f: nat, ts: seq<ValType>, scope: map<nat, ValType>)
    requires GoodContext(cx) && Sound(cx, g) && Ops(g, ts) && InView(cx, g, |ts|, scope)
    requires CheckInstr(cx, GenLabels(cx, g), Call(f), ts) != Bad
    ensures Callable(cx.m, f) && |TypeAt(cx.m, f).params| <= |ts| <= |g.stack|
    ensures Tail(ts, |TypeAt(cx.m, f).params|) == TypeAt(cx.m, f).params
    ensures
      var ft := TypeAt(cx.m, f);
      var k := |ft.params|;
      && CheckInstr(cx, GenLabels(cx, g), Call(f), ts) == Live(ts[..|ts| - k] + ft.results)
      && (CallDst(cx, g, f).None? <==> ft.results == [])
      && EmitCall(cx, g, f).Emit? && EmitCall(cx, g, f).out == [CallTo(CallDst(cx, g, f), f, Opnds(g, k))]
      && EmitCall(cx, g, f).g.stack ==
           g.stack[..|g.stack| - k] + (if CallDst(cx, g, f).None? then [] else [CallDst(cx, g, f).value.v])
      && (ft.results != [] ==>
            && CallDst(cx, g, f).value.v >= |cx.locals| && DstOk(CallDst(cx, g, f).value, ft.results[0], scope)
            && forall j | 0 <= j < |g.stack| - k :: g.stack[j] != CallDst(cx, g, f).value.v)
  {
    hide CheckInstr, GenLabels, Sound, Ops, InView, EmitCall, PopN, StackPush, CheckCall, ValidModule, ValidFunc, DstOk;
    CallCase(cx, g, GenLabels(cx, g), f, ts);
    OpsFit(g, ts);
    var ft := TypeAt(cx.m, f);
    SuffixFits(ts, ft.params);
    CallForm(cx, g, f);
    PopNShape(g, |ft.params|);
    if ft.results == [] {
      assert g.stack[..|g.stack| - |ft.params|] + [] == g.stack[..|g.stack| - |ft.params|];
    } else {
      PushedDst(cx, g, |ft.params|, ts, ft.results[0], scope);
    }
  }

  /** Where the callee goes back to. */
  function Back(a: Place, pc: nat, env: Env, to: Option<Dst>): Callers {
    Caller(Frame(a.fn, pc + 1, env), to, a.callers)
  }

  /** The source outcome of a call, given the callee's. */
  function Called(o: Outcome, low: seq<Val>, st: State): Outcome {
    match o
    case Returned(rs, store') => Normal(low + rs, st.(store := store'))
    case _ => o
  }

  lemma ExecCall(m: Module, f: nat, vs: seq<Val>, st: State, fuel: nat)
    requires Callable(m, f) && |TypeAt(m, f).params| <= |vs|
    ensures ExecInstr(m, Call(f), vs, st, fuel) ==
      if fuel == 0 then OutOfFuel
      else Called(ExecFunc(m, f, Tail(vs, |TypeAt(m, f).params|), st.store, fuel - 1),
          vs[..|vs| - |TypeAt(m, f).params|], st)
  {
    hide ExecFunc;
  }

  lemma SimCall(a: Place, g: Gen, f: nat, ts: seq<ValType>, pc: nat, vals: seq<Val>, st: State, env: Env, o: Outcome)
    returns (env': Env)
    requires Poised(a, g, ts, pc) && CheckInstr(a.cx, GenLabels(a.cx, g), Call(f), ts) != Bad
      && EmitCall(a.cx, g, f).Emit?
    requires CodeAt(a, pc, EmitCall(a.cx, g, f).out) && Rel(a.cx, g, vals, ts, st, env)
    requires |TypeAt(a.cx.m, f).params| <= |vals| && |TypeAt(a.cx.m, f).params| <= |g.stack|
    requires Answers(a.p, a.cx.m, f, Tail(vals, |TypeAt(a.cx.m, f).params|), st.store,
        Back(a, pc, env, CallDst(a.cx, g, f)), o)
    ensures
      var e := EmitCall(a.cx, g, f);
      && |ts| <= |g.stack|
      && Follows(a, g, |g.stack| - |ts|, pc, env, st.store, Called(o, vals[..|vals| - |TypeAt(a.cx.m, f).params|], st),
                 CheckInstr(a.cx, GenLabels(a.cx, g), Call(f), ts), e.g, pc + |e.out|, env')
  {
    hide Poised, CheckInstr, GenLabels, EmitCall, CodeAt, Rel, Names, Sound, Ops, InView, LabelsReady, PlaceOk,
         GoodContext, Leads, Agrees, Below, Held, CallDst, AllTyped, HoldsAll, DstOk, Enter, GiveBack, TypeAt, Callable,
         Jumped, ValidStore;
    PoisedFacts(a, g, ts, pc);
    CallShape(a.cx, g, f, ts, Names(a, pc));
    var k, to := |TypeAt(a.cx.m, f).params|, CallDst(a.cx, g, f);
    OperandsHeld(a.cx, g, vals, ts, st, env, k);
    CallEnters(a, pc, to, f, Opnds(g, k), Tail(vals, k), env, st.store);
    var start, entered := At(a, pc, env, st.store), Enter(a.p, f, Tail(vals, k), Back(a, pc, env, to), st.store);
    env' := env;
    if o.Returned? {
      env' := SimReturned(a, g, f, ts, pc, vals, st, env, o.vs, o.store);
      LeadsTrans(a.p, start, entered,
          GiveBack(a.p, RetVal(TypeAt(a.cx.m, f).results, o.vs), Back(a, pc, env, to), o.store));
    } else if o.Aborted? {
      LeadsTrans(a.p, start, entered, MAborted);
    } else if o.Stopped? {
      HaltsBefore(a.p, start, entered, o.why);
    }
  }

  lemma CallEnters(a: Place, pc: nat, to: Option<Dst>, f: nat, args: seq<nat>, xs: seq<Val>, env: Env, store: Store)
    requires a.fn < |a.p| && CodeAt(a, pc, [CallTo(to, f, args)]) && HoldsAll(env, args, xs)
    ensures Leads(a.p, At(a, pc, env, store), Enter(a.p, f, xs, Back(a, pc, env, to), store))
  {
    hide Leads, CodeAt, Enter;
    forall i | 0 <= i < |args| ensures args[i] in env && env[args[i]] == xs[i] {
      assert Holds(env, args[i], xs[i]);
    }
    StepCall(a, pc, to, f, args, xs, env, store);
  }

  lemma SimReturned(a: Place, g: Gen, f: nat, ts: seq<ValType>, pc: nat, vals: seq<Val>, st: State, env: Env,
      rs: seq<Val>, store': Store)
    returns (env': Env)
    requires Poised(a, g, ts, pc) && CheckInstr(a.cx, GenLabels(a.cx, g), Call(f), ts) != Bad
      && EmitCall(a.cx, g, f).Emit?
    requires CodeAt(a, pc, EmitCall(a.cx, g, f).out) && Rel(a.cx, g, vals, ts, st, env)
    requires ValidStore(a.cx.m, store') && AllTyped(rs, TypeAt(a.cx.m, f).results)
    ensures |TypeAt(a.cx.m, f).params| <= |vals| == |ts| <= |g.stack| && |EmitCall(a.cx, g, f).out| == 1
    ensures CheckInstr(a.cx, GenLabels(a.cx, g), Call(f), ts).Live?
    ensures GiveBack(a.p, RetVal(TypeAt(a.cx.m, f).results, rs), Back(a, pc, env, CallDst(a.cx, g, f)), store')
      == At(a, pc + 1, env', store')
    ensures Rel(a.cx, EmitCall(a.cx, g, f).g, vals[..|vals| - |TypeAt(a.cx.m, f).params|] + rs,
                CheckInstr(a.cx, GenLabels(a.cx, g), Call(f), ts).ts, st.(store := store'), env')
    ensures Agrees(Below(g, |g.stack| - |ts|, Names(a, pc)), env, env')
  {
    hide Poised, CheckInstr, GenLabels, EmitCall, CodeAt, Rel, Names, Sound, Ops, InView, LabelsReady, PlaceOk,
         GoodContext, Agrees, Below, CallDst, HoldsAll, DstOk, TypeAt, LocalsHeld, GiveBack, ValidStore, Typed,
         AllTyped, Held;
    PoisedFacts(a, g, ts, pc);
    CallShape(a.cx, g, f, ts, Names(a, pc));
    var ft, k, to := TypeAt(a.cx.m, f), |TypeAt(a.cx.m, f).params|, CallDst(a.cx, g, f);
    var st' := st.(store := store');
    RelParts(a.cx, g, vals, ts, st, env);
    HeldStore(a.cx, st, store', env);
    var g' := EmitCall(a.cx, g, f).g;
    if ft.results == [] {
      env' := env;
      GiveNothing(a, pc, env, rs, store');
      TypedEmpty(rs);
      assert g.stack[..|g.stack| - k] + [] == g.stack[..|g.stack| - k];
      RelPop(a.cx, g, g', k, ts, vals, st, st', env, env', {});
      assert vals[..|vals| - k] + [] == vals[..|vals| - k] && ts[..|ts| - k] + [] == ts[..|ts| - k];
      BelowKept(g, |g.stack| - |ts|, k, Names(a, pc), env, env', {});
    } else {
      ResultOne(a.cx.m, f, rs);
      var d, x := to.value, rs[0];
      env' := env[d.v := x];
      CallScope(a, pc, to, f, Opnds(g, k), ft.results[0]);
      TypedConvert(x, ft.results[0]);
      GiveValue(a, pc, env, ft.results, rs, d, store');
      HeldNew(a.cx, st', env, d.v, x);
      RelPush(a.cx, g, g', k, ts, vals, st, st', env, env', {d.v}, d.v, x, ft.results[0]);
      assert rs == [x] && ft.results == [ft.results[0]];
      BelowKept(g, |g.stack| - |ts|, k, Names(a, pc), env, env', {d.v});
    }
  }

  lemma TypedEmpty(rs: seq<Val>)
    requires AllTyped(rs, [])
    ensures rs == []
  {
  }

  lemma ResultOne(m: Module, f: nat, rs: seq<Val>)
    requires Callable(m, f) && TypeAt(m, f).results != [] && AllTyped(rs, TypeAt(m, f).results)
    ensures |rs| == 1 && Typed(rs[0], TypeAt(m, f).results[0]) && TypeAt(m, f).results == [TypeAt(m, f).results[0]]
  {
  }

  lemma HeldStore(cx: Context, st: State, store': Store, env: Env)
    requires Held(cx, st, env) && ValidStore(cx.m, store')
    ensures Held(cx, st.(store := store'), env)
  {
    hide ValidStore;
  }

  lemma HeldNew(cx: Context, st: State, env: Env, v: nat, x: Val)
    requires Held(cx, st, env) && v >= |cx.locals|
    ensures Held(cx, st, env[v := x]) && SameOutside(env, env[v := x], {v})
  {
    hide ValidStore, LocalsHeld;
    LocalsKept(cx, st, env, env[v := x], {v});
  }

  lemma GiveNothing(a: Place, pc: nat, env: Env, rs: seq<Val>, store: Store)
    ensures GiveBack(a.p, RetVal([], rs), Back(a, pc, env, None), store) == At(a, pc + 1, env, store)
  {
  }

  /** Behind a call, the destination is in scope. */
  lemma CallScope(a: Place, pc: nat, to: Option<Dst>, f: nat, args: seq<nat>, ty: ValType)
    requires a.fn < |a.p| && CodeAt(a, pc, [CallTo(to, f, args)]) && to.Some? && DstOk(to.value, ty, Names(a, pc))
    ensures pc + 1 <= |a.Body()| && DstOk(to.value, ty, Names(a, pc + 1))
  {
    hide Visible, ScopeFold;
    ScopeNext(a, pc, [CallTo(to, f, args)]);
    CodeFits1(a, pc, CallTo(to, f, args));
    ScopeOne(ScopeOf(a, pc), CallTo(to, f, args));
    if to.value.Old? {
      assert ScopeOf(a, pc + 1) == ScopeOf(a, pc) by { OldScope(ScopeOf(a, pc), to.value.v, f, args); }
    }
  }

  lemma CodeFits1(a: Place, pc: nat, s: CStmt)
    requires CodeAt(a, pc, [s])
    ensures pc + 1 <= |a.Body()|
  {
  }

  lemma OldScope(sc: Scope, v: nat, f: nat, args: seq<nat>)
    ensures ScopeStep(sc, CallTo(Some(Old(v)), f, args)) == sc
  {
  }

  lemma GiveValue(a: Place, pc: nat, env: Env, results: seq<ValType>, rs: seq<Val>, d: Dst, store: Store)
    requires a.fn < |a.p| && pc + 1 <= |a.Body()| && results != [] && |rs| == 1
      && DstOk(d, results[0], Names(a, pc + 1))
    requires Convert(results[0], rs[0].n) == rs[0]
    ensures GiveBack(a.p, RetVal(results, rs), Back(a, pc, env, Some(d)), store)
      == At(a, pc + 1, env[d.v := rs[0]], store)
  {
    hide Convert;
    ScopeAtNames(a, pc + 1);
  }

  lemma ScopeAtNames(a: Place, pc: nat)
    requires a.fn < |a.p| && pc <= |a.Body()|
    ensures ScopeAt(a.p[a.fn], pc) == Names(a, pc)
  {
  }
}
