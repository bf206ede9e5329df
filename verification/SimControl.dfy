/** The branch, return and trap instructions follow the source. */
module SimControl {
  import opened Bits
  import opened Options
  import opened Wasm
  import opened CLang
  import opened Translator
  import opened Allocator
  import opened CodeSound
  import opened Forms
  import opened Layout
  import opened Statements
  import opened Scoping
  import opened ScopeCode
  import opened Steps
  import opened Sim
  import opened SimPlain
  import opened SimJumps

  lemma TopHeld(cx: Context, g: Gen, vals: seq<Val>, ts: seq<ValType>, st: State, env: Env)
    requires Rel(cx, g, vals, ts, st, env) && |ts| > 0
    ensures |vals| == |ts| <= |g.stack| && Holds(env, Top(g), vals[|vals| - 1]) && Typed(vals[|vals| - 1], ts[|ts| - 1])
    ensures |ts| > 1 ==> Holds(env, g.stack[|g.stack| - 2], vals[|vals| - 2])
  {
    assert Holds(env, Opnds(g, |ts|)[|ts| - 1], vals[|ts| - 1]);
    if |ts| > 1 {
      assert Holds(env, Opnds(g, |ts|)[|ts| - 2], vals[|ts| - 2]);
    }
  }

  lemma RelParts(cx: Context, g: Gen, vals: seq<Val>, ts: seq<ValType>, st: State, env: Env)
    requires Rel(cx, g, vals, ts, st, env)
    ensures Held(cx, st, env) && AllTyped(vals, ts) && |vals| == |ts| <= |g.stack|
  {
  }

  lemma AgreesSelf(s: set<nat>, env: Env)
    ensures Agrees(s, env, env)
  {
  }

  lemma BaseFits(cx: Context, g: Gen, l: nat)
    requires Sound(cx, g) && l < |g.blocks|
    ensures BlockAt(g, l).stackBase <= |g.stack| && GenLabels(cx, g)[l] == GenLabel(cx, g, BlockAt(g, l))
  {
  }

  lemma SimBr(a: Place, g: Gen, l: nat, ts: seq<ValType>, pc: nat, vals: seq<Val>, st: State, env: Env)
    returns (env': Env)
    requires Poised(a, g, ts, pc) && CheckInstr(a.cx, GenLabels(a.cx, g), Br(l), ts) != Bad && EmitBr(a.cx, g, l).Emit?
    requires CodeAt(a, pc, EmitBr(a.cx, g, l).out) && Rel(a.cx, g, vals, ts, st, env)
    ensures a.fn < |a.p| && Jumped(a, g, l, Names(a, pc), At(a, pc, env, st.store), env, vals, st, env')
  {
    hide Poised, CheckInstr, GenLabels, EmitBr, CodeAt, Rel, Names, Sound, Ops, InView, LabelsReady, PlaceOk,
         GoodContext, Leads, Agrees, Below, Held, Jumped, GenLabel, AllTyped, Holds;
    PoisedFacts(a, g, ts, pc);
    BrCase(a.cx, g, GenLabels(a.cx, g), l, ts);
    LabelCount(a.cx, g);
    BaseFits(a.cx, g, l);
    BrForm(a.cx, g, l, ts);
    RelParts(a.cx, g, vals, ts, st, env);
    if |ts| > 0 {
      TopHeld(a.cx, g, vals, ts, st, env);
    }
    LeadsRefl(a.p, At(a, pc, env, st.store));
    AgreesSelf(Below(g, BlockAt(g, l).stackBase, Names(a, pc)), env);
    env' := MoveAndGo(a, g, l, ts, pc, if |ts| > 0 then Top(g) else 0,
        vals, ts, st, Names(a, pc), At(a, pc, env, st.store), env, env);
  }

  // ---------------------------------------------------------------- br_if

  /** `if (c) { ... }` around statements that declare nothing: the scope inside and behind it. */
  lemma ArmNames(a: Place, pc: nat, c: nat, mid: seq<CStmt>)
    requires a.fn < |a.p| && CodeAt(a, pc, [IfOpen(c)] + mid + [Close]) && c in Names(a, pc)
      && AllFlat(mid, Names(a, pc))
    ensures pc + 2 + |mid| <= |a.Body()|
    ensures CodeAt(a, pc, [IfOpen(c)]) && CodeAt(a, pc + 1, mid) && CodeAt(a, pc + 1 + |mid|, [Close])
    ensures Names(a, pc + 1) == Names(a, pc) == Names(a, pc + 1 + |mid|) == Names(a, pc + 2 + |mid|)
  {
    hide Scoped, ScopeFold, Visible, AllFlat;
    CodeSplit(a, pc, [IfOpen(c)] + mid, [Close]);
    CodeSplit(a, pc, [IfOpen(c)], mid);
    var sc := ScopeOf(a, pc);
    OpenScoped(sc, c);
    VisibleEmpty(sc);
    FlatScoped(sc + [map[]], mid);
    CloseScoped(sc, map[]);
    ScopeNext(a, pc, [IfOpen(c)]);
    ScopeNext(a, pc + 1, mid);
    ScopeNext(a, pc + 1 + |mid|, [Close]);
  }

  lemma RelLanded(a: Place, at: nat, g: Gen, vals: seq<Val>, ts: seq<ValType>, st: State, env: Env)
    requires a.fn < |a.p| && at <= |a.Body()| && InView(a.cx, g, |ts|, Names(a, at)) && Rel(a.cx, g, vals, ts, st, env)
    ensures Rel(a.cx, g, vals, ts, st, Landed(a, at, env))
  {
    hide Names, LocalsHeld, ValidStore;
    LandedHeld(a, at, st, env);
    forall k | 0 <= k < |ts| ensures Holds(Landed(a, at, env), Opnds(g, |ts|)[k], vals[k]) {
      assert Holds(env, Opnds(g, |ts|)[k], vals[k]);
      assert g.stack[|g.stack| - |ts| + k] in Names(a, at);
    }
  }

  lemma BelowInScope(a: Place, g: Gen, h: nat, pc: nat, at: nat)
    requires a.fn < |a.p| && pc <= |a.Body()| && at <= |a.Body()| && h <= |g.stack| && Names(a, at) == Names(a, pc)
    ensures Below(g, h, Names(a, pc)) <= Names(a, at).Keys
  {
    hide Names;
  }

  /** The statements inside the braces of a `br_if`. */
  function Taken(cx: Context, g: Gen, l: nat): seq<CStmt>
    requires l < |g.blocks|
  {
    var b := BlockAt(g, l);
    if GenLabel(cx, g, b).Types() == [] || b.lbl == 0 || |g.stack| < 2 then [Goto(b.lbl)]
    else [Assign(Old(b.lbl - 1), Var(g.stack[|g.stack| - 2])), Goto(b.lbl)]
  }

  lemma BrIfShape(cx: Context, g: Gen, l: nat, ts: seq<ValType>, scope: map<nat, ValType>)
    requires Sound(cx, g) && Ops(g, ts) && InView(cx, g, |ts|, scope)
    requires CheckInstr(cx, GenLabels(cx, g), BrIf(l), ts) != Bad
    ensures l < |g.blocks| && |ts| > 0 && ts[|ts| - 1] == I32 && |g.stack| > 0 && Top(g) in scope
    ensures CheckInstr(cx, GenLabels(cx, g), BrIf(l), ts) == Live(ts[..|ts| - 1])
    ensures EndsWith(ts[..|ts| - 1], GenLabel(cx, g, BlockAt(g, l)).Types())
    ensures EmitBrIf(cx, g, l) == Emit(StackPop(g).0, 0, [IfOpen(Top(g))] + Taken(cx, g, l) + [Close])
    ensures GenLabel(cx, g, BlockAt(g, l)).Types() != [] ==> BlockAt(g, l).lbl > 0 && |ts| > 1
    ensures AllFlat(Taken(cx, g, l), scope) && Balanced(Taken(cx, g, l))
  {
    hide CheckInstr, GenLabels, EmitBrIf, Sound, Ops, InView, GenLabel, AllFlat, Balanced;
    BrIfCase(cx, g, GenLabels(cx, g), l, ts);
    LabelCount(cx, g);
    BaseFits(cx, g, l);
    BrIfForm(cx, g, l, ts);
    OpsFit(g, ts);
    assert ts[|ts| - 1..][0] == I32;
    ResultInView(cx, g, |ts|, l, scope);
    PopOneView(cx, g, |ts|, scope);
    if GenLabel(cx, g, BlockAt(g, l)).Types() != [] {
      SecondInView(cx, g, |ts|, scope);
    }
    TakenFlat(cx, g, l, scope);
  }

  lemma TakenFlat(cx: Context, g: Gen, l: nat, scope: map<nat, ValType>)
    requires l < |g.blocks|
    requires GenLabel(cx, g, BlockAt(g, l)).Types() != [] ==> BlockAt(g, l).lbl > 0 && BlockAt(g, l).lbl - 1 in scope
    requires GenLabel(cx, g, BlockAt(g, l)).Types() != [] && |g.stack| > 1 ==> g.stack[|g.stack| - 2] in scope
    ensures AllFlat(Taken(cx, g, l), scope) && Balanced(Taken(cx, g, l))
  {
    hide GenLabel;
    ScanPlain(Taken(cx, g, l), 0);
  }

  lemma SimBrIf(a: Place, g: Gen, l: nat, ts: seq<ValType>, pc: nat, vals: seq<Val>, st: State, env: Env, fuel: nat)
    returns (env': Env)
    requires Poised(a, g, ts, pc) && CheckInstr(a.cx, GenLabels(a.cx, g), BrIf(l), ts) != Bad
      && EmitBrIf(a.cx, g, l).Emit?
    requires CodeAt(a, pc, EmitBrIf(a.cx, g, l).out) && Rel(a.cx, g, vals, ts, st, env)
    ensures
      var e := EmitBrIf(a.cx, g, l);
      && a.fn < |a.p| && pc <= |a.Body()| && |ts| <= |g.stack|
      && Follows(a, g, |g.stack| - |ts|, pc, env, st.store, ExecInstr(a.cx.m, BrIf(l), vals, st, fuel),
                 CheckInstr(a.cx, GenLabels(a.cx, g), BrIf(l), ts), e.g, pc + |e.out|, env')
  {
    hide *;
    PoisedFacts(a, g, ts, pc);
    BrIfShape(a.cx, g, l, ts, Names(a, pc));
    BaseFits(a.cx, g, l);
    RelParts(a.cx, g, vals, ts, st, env);
    TopHeld(a.cx, g, vals, ts, st, env);
    ArmNames(a, pc, Top(g), Taken(a.cx, g, l));
    ExecBrIf(a.cx.m, l, vals, st, fuel);
    assert |[IfOpen(Top(g))] + Taken(a.cx, g, l) + [Close]| == 2 + |Taken(a.cx, g, l)|;
    if vals[|vals| - 1].n != 0 {
      StepIfTrue(a, pc, Top(g), env, st.store);
      env' := SimTaken(a, g, l, ts, pc, vals, st, env);
      FollowsJump(a, g, |g.stack| - |ts|, pc, env, st.store, l, vals[..|vals| - 1], st,
                  CheckInstr(a.cx, GenLabels(a.cx, g), BrIf(l), ts), EmitBrIf(a.cx, g, l).g,
                  pc + |EmitBrIf(a.cx, g, l).out|, env');
    } else {
      env' := SimNotTaken(a, g, l, ts, pc, vals, st, env);
      FollowsOn(a, g, |g.stack| - |ts|, pc, env, st.store, vals[..|vals| - 1], st,
                CheckInstr(a.cx, GenLabels(a.cx, g), BrIf(l), ts), EmitBrIf(a.cx, g, l).g,
                pc + |EmitBrIf(a.cx, g, l).out|, env');
    }
  }

  lemma ExecBrIf(m: Module, l: nat, vs: seq<Val>, st: State, fuel: nat)
    requires |vs| > 0
    ensures ExecInstr(m, BrIf(l), vs, st, fuel) ==
      if vs[|vs| - 1].n != 0 then Branch(l, vs[..|vs| - 1], st) else Normal(vs[..|vs| - 1], st)
  {
  }

  lemma FollowsJump(a: Place, g: Gen, h: nat, pc: nat, env: Env, store: Store, l: nat, vs: seq<Val>, st': State,
      r: Check, g': Gen, pc': nat, env': Env)
    requires a.fn < |a.p| && pc <= |a.Body()| && h <= |g.stack|
    requires Jumped(a, g, l, Names(a, pc), At(a, pc, env, store), env, vs, st', env')
    ensures Follows(a, g, h, pc, env, store, Branch(l, vs, st'), r, g', pc', env')
  {
  }

  lemma FollowsOn(a: Place, g: Gen, h: nat, pc: nat, env: Env, store: Store, vs: seq<Val>, st': State, r: Check,
      g': Gen, pc': nat, env': Env)
    requires a.fn < |a.p| && pc <= |a.Body()| && h <= |g.stack| && r.Live?
    requires Leads(a.p, At(a, pc, env, store), At(a, pc', env', st'.store)) && Rel(a.cx, g', vs, r.ts, st', env')
    requires Agrees(Below(g, h, Names(a, pc)), env, env')
    ensures Follows(a, g, h, pc, env, store, Normal(vs, st'), r, g', pc', env')
  {
  }

  lemma SimTaken(a: Place, g: Gen, l: nat, ts: seq<ValType>, pc: nat, vals: seq<Val>, st: State, env: Env)
    returns (env': Env)
    requires Poised(a, g, ts, pc) && l < |g.blocks| && |g.stack| > 0 && |ts| > 0 && Rel(a.cx, g, vals, ts, st, env)
    requires EndsWith(ts[..|ts| - 1], GenLabel(a.cx, g, BlockAt(g, l)).Types())
    requires GenLabel(a.cx, g, BlockAt(g, l)).Types() != [] ==> BlockAt(g, l).lbl > 0 && |ts| > 1
    requires a.fn < |a.p| && pc + 1 <= |a.Body()| && CodeAt(a, pc + 1, Taken(a.cx, g, l))
      && Names(a, pc + 1) == Names(a, pc)
    requires Leads(a.p, At(a, pc, env, st.store), At(a, pc + 1, env, st.store))
    ensures |vals| == |ts| && Jumped(a, g, l, Names(a, pc), At(a, pc, env, st.store), env, vals[..|vals| - 1], st, env')
  {
    hide *;
    PoisedFacts(a, g, ts, pc);
    TakenForm(a.cx, g, l);
    BaseFits(a.cx, g, l);
    RelParts(a.cx, g, vals, ts, st, env);
    TopHeld(a.cx, g, vals, ts, st, env);
    TypedPop(vals, ts);
    AgreesSelf(Below(g, BlockAt(g, l).stackBase, Names(a, pc)), env);
    env' := MoveAndGo(a, g, l, ts, pc + 1, if |ts| > 1 then g.stack[|g.stack| - 2] else 0,
        vals[..|vals| - 1], ts[..|ts| - 1], st, Names(a, pc), At(a, pc, env, st.store), env, env);
  }

  lemma TakenForm(cx: Context, g: Gen, l: nat)
    requires l < |g.blocks|
    requires GenLabel(cx, g, BlockAt(g, l)).Types() != [] ==> BlockAt(g, l).lbl > 0 && |g.stack| > 1
    ensures var b := BlockAt(g, l);
      Taken(cx, g, l) == if GenLabel(cx, g, b).Types() == [] then [Goto(b.lbl)]
        else [Assign(Old(b.lbl - 1), Var(g.stack[|g.stack| - 2])), Goto(b.lbl)]
  {
    hide GenLabel;
  }

  lemma TypedPop(vals: seq<Val>, ts: seq<ValType>)
    requires AllTyped(vals, ts) && |ts| > 0
    ensures AllTyped(vals[..|vals| - 1], ts[..|ts| - 1])
  {
  }

  lemma SimNotTaken(a: Place, g: Gen, l: nat, ts: seq<ValType>, pc: nat, vals: seq<Val>, st: State, env: Env)
    returns (env': Env)
    requires Poised(a, g, ts, pc) && l < |g.blocks| && |g.stack| > 0 && |ts| > 0 && Rel(a.cx, g, vals, ts, st, env)
    requires |vals| == |ts| && vals[|vals| - 1].n == 0 && Top(g) in Names(a, pc)
    requires CodeAt(a, pc, [IfOpen(Top(g))] + Taken(a.cx, g, l) + [Close]) && Balanced(Taken(a.cx, g, l))
    requires AllFlat(Taken(a.cx, g, l), Names(a, pc))
    ensures a.fn < |a.p| && pc <= |a.Body()| && |ts| <= |g.stack|
    ensures Leads(a.p, At(a, pc, env, st.store), At(a, pc + 2 + |Taken(a.cx, g, l)|, env', st.store))
    ensures Rel(a.cx, StackPop(g).0, vals[..|vals| - 1], ts[..|ts| - 1], st, env')
    ensures Agrees(Below(g, |g.stack| - |ts|, Names(a, pc)), env, env')
  {
    hide Poised, CodeAt, Rel, Names, Sound, Ops, InView, LabelsReady, PlaceOk, GoodContext, Leads, Agrees, Below, Held,
         GenLabel, AllTyped, Taken, AllFlat, Landed;
    PoisedFacts(a, g, ts, pc);
    TopHeld(a.cx, g, vals, ts, st, env);
    var mid := Taken(a.cx, g, l);
    ArmNames(a, pc, Top(g), mid);
    var q := pc + 1 + |mid|;
    StepIfFalse(a, pc, Top(g), mid, Close, env, st.store);
    var env1 := Landed(a, q, env);
    StepClose(a, q, env1, st.store);
    env' := Landed(a, q + 1, env1);
    LeadsTrans(a.p, At(a, pc, env, st.store), At(a, q, env1, st.store), At(a, q + 1, env', st.store));
    RelLanded(a, q, g, vals, ts, st, env);
    RelLanded(a, q + 1, g, vals, ts, st, env1);
    RelDrop(a.cx, g, vals, ts, st, env');
    var low := Below(g, |g.stack| - |ts|, Names(a, pc));
    BelowInScope(a, g, |g.stack| - |ts|, pc, q);
    BelowInScope(a, g, |g.stack| - |ts|, pc, q + 1);
    LandedAgrees(a, q, low, env);
    LandedAgrees(a, q + 1, low, env1);
    AgreesTrans(low, env, env1, env');
  }

  /** Popping the top operand without running anything. */
  lemma RelDrop(cx: Context, g: Gen, vals: seq<Val>, ts: seq<ValType>, st: State, env: Env)
    requires Rel(cx, g, vals, ts, st, env) && |ts| > 0
    ensures |vals| == |ts| <= |g.stack| && Rel(cx, StackPop(g).0, vals[..|vals| - 1], ts[..|ts| - 1], st, env)
  {
    hide LocalsHeld, ValidStore;
    RelPop(cx, g, StackPop(g).0, 1, ts, vals, st, st, env, env, {});
  }

  // ---------------------------------------------------------------- br_table

  function Chosen(ls: seq<nat>, dflt: nat, k: nat): nat { if k < |ls| then ls[k] else dflt }

  lemma SimBrTable(a: Place, g: Gen, ls: seq<nat>, dflt: nat, ts: seq<ValType>, pc: nat, vals: seq<Val>,
      st: State, env: Env)
    returns (env': Env)
    requires Poised(a, g, ts, pc) && CheckInstr(a.cx, GenLabels(a.cx, g), BrTable(ls, dflt), ts) != Bad
    requires EmitBrTable(g, ls, dflt).Emit? && CodeAt(a, pc, EmitBrTable(g, ls, dflt).out)
      && Rel(a.cx, g, vals, ts, st, env)
    ensures a.fn < |a.p| && |vals| == |ts| > 0
    ensures Jumped(a, g, Chosen(ls, dflt, vals[|vals| - 1].n), Names(a, pc), At(a, pc, env, st.store), env,
        vals[..|vals| - 1], st, env')
  {
    hide Poised, CheckInstr, GenLabels, CodeAt, Rel, Names, Sound, Ops, InView, LabelsReady, PlaceOk, GoodContext,
         Leads, Agrees, Below, Held, GenLabel, Landed, Jumped, LabelReady, ResultHeld;
    PoisedFacts(a, g, ts, pc);
    LabelCount(a.cx, g);
    BrTableCase(a.cx, g, GenLabels(a.cx, g), ls, dflt, ts);
    OpsFit(g, ts);
    TopHeld(a.cx, g, vals, ts, st, env);
    RelParts(a.cx, g, vals, ts, st, env);
    var l := Chosen(ls, dflt, vals[|vals| - 1].n);
    var b := BlockAt(g, l);
    BaseFits(a.cx, g, l);
    LabelOf(a, g, l, Names(a, pc));
    var at := LabelAt(a, b.lbl);
    LabelThere(a, g, b, at, Names(a, pc));
    var targets := LabelsOf(StackPop(g).0, ls);
    assert EmitBrTable(g, ls, dflt).out == [Switch(Top(g), targets, BlockAt(StackPop(g).0, dflt).lbl)];
    StepSwitch(a, pc, Top(g), targets, BlockAt(StackPop(g).0, dflt).lbl, at, env, st.store);
    env' := Landed(a, at, env);
    LandedHeld(a, at, st, env);
    LandedAgrees(a, at, Below(g, b.stackBase, Names(a, pc)), env);
    assert Last(vals[..|vals| - 1], 0) == [];
    JumpedTo(a, g, l, Names(a, pc), At(a, pc, env, st.store), env, vals[..|vals| - 1], st, env');
  }

  lemma LabelThere(a: Place, g: Gen, b: BlockRec, at: nat, scope: map<nat, ValType>)
    requires PlaceOk(a) && LabelReady(a, g, b, at, scope)
    ensures at < |a.Body()| && CodeAt(a, at, [LabelHere(b.lbl)]) && UniqueLabels(a.Body())
    ensures forall x: nat | x < |a.cx.locals| :: x in Names(a, at)
    ensures b.stackBase <= |g.stack| && Below(g, b.stackBase, scope) <= Names(a, at).Keys
  {
    hide Names, Translated, FuncContext;
    PlaceLabels(a, at, b.lbl);
  }

  lemma JumpedTo(a: Place, g: Gen, l: nat, scope: map<nat, ValType>, start: Machine, env: Env, vs: seq<Val>,
      st': State, env': Env)
    requires a.fn < |a.p| && l < |g.blocks| && GenLabel(a.cx, g, BlockAt(g, l)).Types() == []
    requires Leads(a.p, start, At(a, LabelAt(a, BlockAt(g, l).lbl), env', st'.store)) && Held(a.cx, st', env')
    requires BlockAt(g, l).stackBase <= |g.stack| && Agrees(Below(g, BlockAt(g, l).stackBase, scope), env, env')
    ensures Jumped(a, g, l, scope, start, env, vs, st', env')
  {
    assert Last(vs, 0) == [];
  }

  // ---------------------------------------------------------------- return

  lemma RetType(a: Place)
    requires PlaceOk(a)
    ensures a.fn < |a.p| && a.p[a.fn].ret == RetOf(a.cx.results)
  {
  }

  lemma TypedConvert(x: Val, ty: ValType)
    requires Typed(x, ty)
    ensures Convert(ty, x.n) == x
  {
    hide Pow2;
    Emitted.WordSmall(ty, x.n);
  }

  lemma ReturnForm(cx: Context, g: Gen, ts: seq<ValType>)
    requires GoodContext(cx) && EndsWith(ts, cx.results) && |ts| <= |g.stack|
    ensures cx.results == [] || (|ts| > 0 && cx.results == [ts[|ts| - 1]])
    ensures EmitReturn(cx, g) ==
      if cx.results == [] then Emit(g, 1, [Ret(None)]) else Emit(StackPop(g).0, 1, [Ret(Some(Top(g)))])
  {
    hide ValidModule;
  }

  lemma SimReturn(a: Place, g: Gen, ts: seq<ValType>, pc: nat, vals: seq<Val>, st: State, env: Env)
    requires Poised(a, g, ts, pc) && CheckInstr(a.cx, GenLabels(a.cx, g), Return, ts) != Bad
      && EmitReturn(a.cx, g).Emit?
    requires CodeAt(a, pc, EmitReturn(a.cx, g).out) && Rel(a.cx, g, vals, ts, st, env)
    ensures a.fn < |a.p| && Gave(a, At(a, pc, env, st.store), vals, st.store)
  {
    hide Poised, CheckInstr, GenLabels, CodeAt, Rel, Names, Sound, Ops, InView, LabelsReady, PlaceOk, GoodContext,
         Leads, LocalsHeld, ValidStore, EmitReturn, Gave, AllTyped, Typed, GiveBack;
    PoisedFacts(a, g, ts, pc);
    ReturnCase(a.cx, g, GenLabels(a.cx, g), ts);
    ReturnForm(a.cx, g, ts);
    RelParts(a.cx, g, vals, ts, st, env);
    RetType(a);
    if a.cx.results == [] {
      StepRet(a, pc, None, env, st.store);
      GaveNothing(a, At(a, pc, env, st.store), vals, st.store);
    } else {
      TopHeld(a.cx, g, vals, ts, st, env);
      TypedConvert(vals[|vals| - 1], ts[|ts| - 1]);
      StepRet(a, pc, Some(Top(g)), env, st.store);
      GaveValue(a, At(a, pc, env, st.store), vals, ts, st.store);
    }
  }

  lemma GaveNothing(a: Place, start: Machine, vs: seq<Val>, store: Store)
    requires a.cx.results == [] && Leads(a.p, start, GiveBack(a.p, None, a.callers, store)) && ValidStore(a.cx.m, store)
    ensures Gave(a, start, vs, store)
  {
    assert Last(vs, 0) == [];
  }

  lemma GaveValue(a: Place, start: Machine, vs: seq<Val>, ts: seq<ValType>, store: Store)
    requires |ts| > 0 && a.cx.results == [ts[|ts| - 1]] && AllTyped(vs, ts) && ValidStore(a.cx.m, store)
    requires Leads(a.p, start, GiveBack(a.p, Some(vs[|vs| - 1]), a.callers, store))
    ensures Gave(a, start, vs, store)
  {
    hide Leads, GiveBack, ValidStore;
    LastOne(vs, ts);
  }
}
