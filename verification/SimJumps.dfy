/** Branches and returns: the emitted moves, gotos and switches land where the source goes. */
module SimJumps {
  import opened Wasm
  import opened CLang
  import opened Translator
  import opened Allocator
  import opened Layout
  import opened Statements
  import opened Scoping
  import opened Steps
  import opened Sim
  import opened SimPlain

  // ---------------------------------------------------------------- landing at a label

  lemma LabelOf(a: Place, g: Gen, l: nat, scope: map<nat, ValType>)
    requires a.fn < |a.p| && LabelsReady(a, g, scope) && l < |g.blocks|
    ensures LabelReady(a, g, BlockAt(g, l), LabelAt(a, BlockAt(g, l).lbl), scope)
  {
  }

  lemma LandedHeld(a: Place, at: nat, st: State, env: Env)
    requires a.fn < |a.p| && at <= |a.Body()| && Held(a.cx, st, env)
    requires forall x: nat | x < |a.cx.locals| :: x in Names(a, at)
    ensures Held(a.cx, st, Landed(a, at, env))
  {
    hide Names, ValidStore;
    forall x: nat | x < |st.locals| ensures Holds(Landed(a, at, env), x, st.locals[x]) {
      assert Holds(env, x, st.locals[x]);
    }
  }

  lemma LandedAgrees(a: Place, at: nat, s: set<nat>, env: Env)
    requires a.fn < |a.p| && at <= |a.Body()| && s <= Names(a, at).Keys
    ensures Agrees(s, env, Landed(a, at, env))
  {
    hide Names;
  }

  /** The value of a block is in its result variable, when it has one. */
  predicate ResultHeld(rs: seq<ValType>, lbl: nat, vs: seq<Val>, env: Env) {
    && |rs| <= |vs| && AllTyped(Last(vs, |rs|), rs)
    && (rs != [] ==> lbl > 0 && Holds(env, lbl - 1, vs[|vs| - 1]))
  }

  /** A goto to the label of an open block. */
  lemma Land(a: Place, g: Gen, l: nat, scope: map<nat, ValType>, start: Machine, pc: nat, env: Env, env1: Env,
      vs: seq<Val>, st: State)
    returns (env': Env)
    requires PlaceOk(a) && Sound(a.cx, g) && LabelsReady(a, g, scope) && l < |g.blocks|
    requires CodeAt(a, pc, [Goto(BlockAt(g, l).lbl)]) && Leads(a.p, start, At(a, pc, env1, st.store))
    requires Held(a.cx, st, env1) && BlockAt(g, l).stackBase <= |g.stack|
    requires Agrees(Below(g, BlockAt(g, l).stackBase, scope), env, env1)
    requires ResultHeld(GenLabel(a.cx, g, BlockAt(g, l)).Types(), BlockAt(g, l).lbl, vs, env1)
    ensures Jumped(a, g, l, scope, start, env, vs, st, env')
  {
    hide Names, Held, Sound, GenLabel, HasResult, Below, Agrees, Translated, FuncContext, UniqueLabels, CodeAt, Leads,
         Landed, LabelsReady;
    var b := BlockAt(g, l);
    var at := LabelAt(a, b.lbl);
    LabelOf(a, g, l, scope);
    PlaceLabels(a, at, b.lbl);
    env' := Landed(a, at, env1);
    StepGoto(a, pc, b.lbl, at, env1, st.store);
    LeadsTrans(a.p, start, At(a, pc, env1, st.store), At(a, at, env', st.store));
    LandedHeld(a, at, st, env1);
    LandedAgrees(a, at, Below(g, b.stackBase, scope), env1);
    AgreesTrans(Below(g, b.stackBase, scope), env, env1, env');
    LandedResult(a, g, b, at, scope, vs, env1);
  }

  lemma PlaceLabels(a: Place, at: nat, l: nat)
    requires PlaceOk(a) && at < |a.Body()| && a.Body()[at] == LabelHere(l)
    ensures UniqueLabels(a.Body()) && CodeAt(a, at, [LabelHere(l)])
  {
    assert a.Body()[at..at + 1] == [LabelHere(l)];
  }

  lemma LandedResult(a: Place, g: Gen, b: BlockRec, at: nat, scope: map<nat, ValType>, vs: seq<Val>, env: Env)
    requires a.fn < |a.p| && LabelReady(a, g, b, at, scope)
    requires ResultHeld(GenLabel(a.cx, g, b).Types(), b.lbl, vs, env)
    ensures ResultHeld(GenLabel(a.cx, g, b).Types(), b.lbl, vs, Landed(a, at, env))
  {
    hide Names;
  }

  // ---------------------------------------------------------------- moving a result

  /** A result variable is neither a local nor on the stack. */
  lemma ResultApart(cx: Context, g: Gen, b: BlockRec)
    requires Sound(cx, g) && b in g.blocks && GenLabel(cx, g, b).results != []
    ensures b.lbl > 0 && b.lbl - 1 >= |cx.locals| && forall j | 0 <= j < |g.stack| :: g.stack[j] != b.lbl - 1
    ensures |GenLabel(cx, g, b).results| == 1 && b.lbl - 1 < |g.types|
      && g.types[b.lbl - 1] == GenLabel(cx, g, b).results[0].Code()
  {
    assert BlockOk(cx, g, b);
    forall j | 0 <= j < |g.stack| ensures g.stack[j] != b.lbl - 1 {
      assert IsTemp(g, g.stack[j]);
    }
  }

  lemma CodeInjective(s: ValType, t: ValType)
    requires s.Code() == t.Code()
    ensures s == t
  {
  }

  /** `result = v;` */
  lemma MoveResult(a: Place, g: Gen, n: nat, b: BlockRec, pc: nat, v: nat, x: Val, st: State, env: Env)
    returns (env': Env)
    requires PlaceOk(a) && Sound(a.cx, g) && pc <= |a.Body()| && InView(a.cx, g, n, Names(a, pc)) && b in g.blocks
    requires GenLabel(a.cx, g, b).results != []
    requires b.lbl > 0 && CodeAt(a, pc, [Assign(Old(b.lbl - 1), Var(v))])
    requires Holds(env, v, x) && Typed(x, GenLabel(a.cx, g, b).results[0]) && Held(a.cx, st, env)
    ensures Leads(a.p, At(a, pc, env, st.store), At(a, pc + 1, env', st.store))
    ensures SameOutside(env, env', {b.lbl - 1}) && Holds(env', b.lbl - 1, x) && Held(a.cx, st, env')
  {
    hide Names, Sound, GenLabel, LocalsHeld, ValidStore, Leads, CodeAt, Plain, Typed, Translated, UniqueLabels,
         FuncContext;
    var ty := GenLabel(a.cx, g, b).results[0];
    ResultApart(a.cx, g, b);
    ResultScoped(a.cx, g, n, b, Names(a, pc));
    VarYields(v, env, st.store, x, ty);
    AssignValue(Old(b.lbl - 1), Var(v), env, st.store, x, ty, Names(a, pc));
    env' := env[b.lbl - 1 := x];
    StepPlain(a, pc, Assign(Old(b.lbl - 1), Var(v)), env, st.store, env', st.store);
    LocalsKept(a.cx, st, env, env', {b.lbl - 1});
  }

  lemma ResultScoped(cx: Context, g: Gen, n: nat, b: BlockRec, scope: map<nat, ValType>)
    requires Sound(cx, g) && InView(cx, g, n, scope) && b in g.blocks && GenLabel(cx, g, b).results != [] && b.lbl > 0
    ensures DstOk(Old(b.lbl - 1), GenLabel(cx, g, b).results[0], scope)
  {
    ResultApart(cx, g, b);
    assert HasResult(cx, g, b);
    CodeInjective(scope[b.lbl - 1], GenLabel(cx, g, b).results[0]);
  }

  lemma BelowUntouched(g: Gen, h: nat, v: nat, scope: map<nat, ValType>, env: Env, env': Env)
    requires h <= |g.stack| && SameOutside(env, env', {v}) && forall j | 0 <= j < |g.stack| :: g.stack[j] != v
    ensures Agrees(Below(g, h, scope), env, env')
  {
    BelowKept(g, h, 0, scope, env, env', {v});
  }

  lemma LastOne(vs: seq<Val>, ts: seq<ValType>)
    requires AllTyped(vs, ts) && |ts| > 0
    ensures |vs| == |ts| && Last(vs, 1) == [vs[|vs| - 1]] && AllTyped(Last(vs, 1), [ts[|ts| - 1]])
    ensures AllTyped(vs[..|vs| - 1], ts[..|ts| - 1])
  {
  }

  /** A move of the top value, when there is one to move, and the goto. */
  lemma MoveAndGo(a: Place, g: Gen, l: nat, ts: seq<ValType>, pc: nat, v: nat, vs: seq<Val>, us: seq<ValType>,
      st: State, scope: map<nat, ValType>, start: Machine, env0: Env, env: Env)
    returns (env': Env)
    requires PlaceOk(a) && Sound(a.cx, g) && pc <= |a.Body()| && InView(a.cx, g, |ts|, Names(a, pc))
    requires LabelsReady(a, g, scope) && l < |g.blocks| && BlockAt(g, l).stackBase <= |g.stack|
    requires AllTyped(vs, us) && EndsWith(us, GenLabel(a.cx, g, BlockAt(g, l)).Types()) && Held(a.cx, st, env)
    requires
      var b := BlockAt(g, l);
      if GenLabel(a.cx, g, b).Types() == [] then CodeAt(a, pc, [Goto(b.lbl)])
      else
        && b.lbl > 0 && CodeAt(a, pc, [Assign(Old(b.lbl - 1), Var(v)), Goto(b.lbl)])
        && |vs| > 0 && Holds(env, v, vs[|vs| - 1])
    requires Leads(a.p, start, At(a, pc, env, st.store)) && Agrees(Below(g, BlockAt(g, l).stackBase, scope), env0, env)
    ensures Jumped(a, g, l, scope, start, env0, vs, st, env')
  {
    hide Names, Sound, LocalsHeld, ValidStore, Leads, CodeAt, Typed, Translated, UniqueLabels, FuncContext, InView,
         Below, Agrees, LabelsReady, PlaceOk, Held, SameOutside;
    var b := BlockAt(g, l);
    var rs := GenLabel(a.cx, g, b).Types();
    if rs == [] {
      assert Last(vs, 0) == [];
      env' := Land(a, g, l, scope, start, pc, env0, env, vs, st);
    } else {
      assert b in g.blocks;
      ResultApart(a.cx, g, b);
      assert [Assign(Old(b.lbl - 1), Var(v)), Goto(b.lbl)] == [Assign(Old(b.lbl - 1), Var(v))] + [Goto(b.lbl)];
      CodeSplit(a, pc, [Assign(Old(b.lbl - 1), Var(v))], [Goto(b.lbl)]);
      LastOne(vs, us);
      assert rs == [us[|us| - 1]];
      LastTyped(vs, us);
      var env1 := MoveResult(a, g, |ts|, b, pc, v, vs[|vs| - 1], st, env);
      LeadsTrans(a.p, start, At(a, pc, env, st.store), At(a, pc + 1, env1, st.store));
      BelowUntouched(g, b.stackBase, b.lbl - 1, scope, env, env1);
      AgreesTrans(Below(g, b.stackBase, scope), env0, env, env1);
      env' := Land(a, g, l, scope, start, pc + 1, env0, env1, vs, st);
    }
  }

  lemma LastTyped(vs: seq<Val>, us: seq<ValType>)
    requires AllTyped(vs, us) && |us| > 0
    ensures |vs| > 0 && Typed(vs[|vs| - 1], us[|us| - 1])
  {
  }
}
