/** The end of a block: every way of reaching it comes to the same state behind it. */
module SimEnds {
  import opened Wasm
  import opened CLang
  import opened Translator
  import opened Allocator
  import opened Forms
  import opened Statements
  import opened Scoping
  import opened ScopeCode
  import opened Blocks
  import opened Steps
  import opened Sim
  import opened SimPlain
  import opened SimJumps
  import opened SimControl
  import opened SimBlocks

  /** The last arm of `b` ends at position `at`, and the block's end is emitted there. */
  predicate EndAt(a: Place, b: BlockSite, g: Gen, ud: nat, sc: Scope, at: nat) {
    && ArmEnd(b, g, ud, sc) && ScopeOf(a, at) == sc
    && EmitEnd(b.cx, g, ud).Emit? && CodeAt(a, at, EmitEnd(b.cx, g, ud).out)
  }

  function LeaveOut(b: BlockSite, g: Gen, ud: nat): seq<CStmt> {
    match LeaveArm(b.cx, g, ud)
    case Fault => []
    case Emit(_, _, out) => out
  }

  /** Behind the label, before the closing brace. */
  function CloseAt(b: BlockSite, g: Gen, ud: nat, at: nat): nat {
    at + |LeaveOut(b, g, ud)| + if b.kind == KLoop then 0 else 2
  }

  function PushAt(b: BlockSite, g: Gen, ud: nat, at: nat): nat {
    CloseAt(b, g, ud, at) + if b.kind == KIf then 1 else 0
  }

  /** Where the block's result goes. */
  function ResultDst(b: BlockSite, g: Gen): Dst {
    if b.Results() == [] then Old(0) else StackPush(Restored(b, g), b.Results()[0]).1
  }

  function EndState(b: BlockSite, g: Gen): Gen {
    if b.Results() == [] then Restored(b, g) else StackPush(Restored(b, g), b.Results()[0]).0
  }

  function PushStmts(b: BlockSite, g: Gen): seq<CStmt> {
    if b.Results() == [] || b.Lbl() == 0 then [] else [Assign(ResultDst(b, g), Var(b.Lbl() - 1))]
  }

  lemma EndForms(b: BlockSite, g: Gen, ud: nat, sc: Scope)
    requires SiteOk(b) && ArmEnd(b, g, ud, sc)
    ensures LeaveArm(b.cx, g, ud).Emit? && AllFlat(LeaveOut(b, g, ud), Visible(sc))
    ensures EmitEnd(b.cx, g, ud) ==
      Emit(EndState(b, g), 0, LeaveOut(b, g, ud) + CloseStmts(b.Lbl(), b.kind) + PushStmts(b, g))
  {
    hide SiteOk, ArmEnd, EmitEnd, LeaveArm, CloseStmts, StackPush, Restored;
    EndEmits(b, g, ud, sc);
    LeaveScoped(b, g, ud, sc);
  }

  lemma EndPlaces(a: Place, b: BlockSite, pc: nat, g: Gen, ud: nat, sc: Scope, at: nat)
    requires Sited(a, b, pc) && EndAt(a, b, g, ud, sc, at)
    ensures
      var q := at + |LeaveOut(b, g, ud)|;
      && LeaveArm(b.cx, g, ud).Emit? && CodeAt(a, at, LeaveOut(b, g, ud)) && ScopeOf(a, q) == sc
      && CodeAt(a, q, CloseStmts(b.Lbl(), b.kind)) && CodeAt(a, PushAt(b, g, ud, at), PushStmts(b, g))
      && ScopeOf(a, PushAt(b, g, ud, at)) == Closed(b, sc) && PushAt(b, g, ud, at) <= |a.Body()|
      && EmitEnd(b.cx, g, ud).g == EndState(b, g)
      && |EmitEnd(b.cx, g, ud).out| == |LeaveOut(b, g, ud)| + |CloseStmts(b.Lbl(), b.kind)| + |PushStmts(b, g)|
  {
    hide SiteOk, EmitEnd, LeaveArm, StackPush, Restored, InArm, InView, Ops, CodeAt, ScopeOf, LabelsReady, PlaceOk,
         ScopeFold, Visible, LeaveOut, PushStmts, EndState;
    SitedPlace(a, b, pc);
    EndForms(b, g, ud, sc);
    var leave, close := LeaveOut(b, g, ud), CloseStmts(b.Lbl(), b.kind);
    CodeSplit(a, at, leave + close, PushStmts(b, g));
    CodeSplit(a, at, leave, close);
    ScopeNext(a, at, leave);
    FlatScoped(sc, leave);
    ScopeNext(a, at + |leave|, close);
    CloseStmtsScoped(b, g, sc);
    CodeFits(a, at + |leave|, close);
  }

  /** The label of a block that is not a loop. */
  lemma LabelPlaces(a: Place, b: BlockSite, pc: nat, g: Gen, ud: nat, sc: Scope, at: nat)
    requires Sited(a, b, pc) && EndAt(a, b, g, ud, sc, at) && b.kind != KLoop
    ensures
      var q := at + |LeaveOut(b, g, ud)|;
      && CodeAt(a, q, [Goto(b.Lbl())]) && CodeAt(a, q + 1, [LabelHere(b.Lbl())]) && OwnLabel(a, b, q + 1)
      && ScopeOf(a, q + 1) == ScopeOf(a, q + 2) == sc
      && (b.kind == KIf ==> CodeAt(a, q + 2, [Close]))
  {
    hide SiteOk, EmitEnd, LeaveArm, StackPush, Restored, InArm, InView, Ops, CodeAt, ScopeOf, LabelsReady, PlaceOk,
         ScopeFold, Visible, LeaveOut, PushStmts, EndState, Seen;
    SitedPlace(a, b, pc);
    EndPlaces(a, b, pc, g, ud, sc, at);
    var q, l := at + |LeaveOut(b, g, ud)|, b.Lbl();
    var brace := if b.kind == KIf then [Close] else [];
    assert CloseStmts(l, b.kind) == [Goto(l)] + ([LabelHere(l)] + brace);
    CodeSplit(a, q, [Goto(l)], [LabelHere(l)] + brace);
    CodeSplit(a, q + 1, [LabelHere(l)], brace);
    PlainScope(sc, l);
    ScopeNext(a, q, [Goto(l)]);
    ScopeNext(a, q + 1, [LabelHere(l)]);
    StmtAt(a, q + 1, LabelHere(l));
    ArmSeen(a, b, pc, g, sc, q + 1);
  }

  // ---------------------------------------------------------------- behind the label

  function RestVals(b: BlockSite, vals: seq<Val>): seq<Val> {
    if b.kind == KIf && |vals| > 0 then vals[..|vals| - 1] else vals
  }

  lemma OuterOperand(b: BlockSite, j: nat)
    requires SiteOk(b) && |b.g.stack| - |b.ts| <= j < b.Keep()
    ensures b.g.stack[j] in Outer(b)
  {
    hide Sound, Visible;
    assert b.g.stack[..b.Keep()][j] == b.g.stack[j];
  }

  /** The operands below the block are still there. */
  lemma RestHeld(b: BlockSite, g: Gen, vals: seq<Val>, st: State, env0: Env, st': State, env: Env)
    requires SiteOk(b) && Rel(b.cx, b.g, vals, b.ts, st, env0) && Carried(b, env0, env) && Held(b.cx, st', env)
    requires g.stack == b.g.stack[..b.Keep()]
    ensures Rel(b.cx, g, RestVals(b, vals), b.Rest(), st', env)
  {
    hide LocalsHeld, ValidStore, Outer, SiteOk, Typed, Held;
    SiteFacts(b);
    RestTyped(b, vals);
    var n := |b.Rest()|;
    forall k | 0 <= k < n ensures Holds(env, Opnds(g, n)[k], RestVals(b, vals)[k]) {
      RestOperand(b, g, vals, env0, env, k);
    }
  }

  lemma RestTyped(b: BlockSite, vals: seq<Val>)
    requires AllTyped(vals, b.ts)
    ensures AllTyped(RestVals(b, vals), b.Rest())
  {
    hide Typed;
  }

  lemma RestOperand(b: BlockSite, g: Gen, vals: seq<Val>, env0: Env, env: Env, k: nat)
    requires SiteOk(b) && Carried(b, env0, env) && g.stack == b.g.stack[..b.Keep()] && k < |b.Rest()|
    requires |vals| == |b.ts| <= |b.g.stack| && HoldsAll(env0, Opnds(b.g, |b.ts|), vals) && |b.Rest()| <= |g.stack|
    requires b.kind == KIf ==> |b.ts| > 0
    ensures Holds(env, Opnds(g, |b.Rest()|)[k], RestVals(b, vals)[k])
  {
    hide SiteOk, Outer;
    var j := |b.g.stack| - |b.ts| + k;
    assert Opnds(b.g, |b.ts|)[k] == b.g.stack[j] == Opnds(g, |b.Rest()|)[k];
    assert Holds(env0, Opnds(b.g, |b.ts|)[k], vals[k]);
    OuterOperand(b, j);
  }

  lemma RestoredStack(b: BlockSite, g: Gen)
    requires SiteOk(b)
    ensures Restored(b, g).stack == b.g.stack[..b.Keep()]
  {
    hide SiteOk;
    SiteOpens(b);
  }

  /** `}` of an `if`. */
  lemma SimClose(a: Place, b: BlockSite, pc: nat, g: Gen, ud: nat, sc: Scope, at: nat, st: State, vs: seq<Val>,
      env0: Env, env: Env)
    returns (env': Env)
    requires Sited(a, b, pc) && EndAt(a, b, g, ud, sc, at)
    requires Held(a.cx, st, env) && Carried(b, env0, env) && ResultHeld(b.Results(), b.Lbl(), vs, env)
    ensures Leads(a.p, At(a, CloseAt(b, g, ud, at), env, st.store), At(a, PushAt(b, g, ud, at), env', st.store))
    ensures Held(a.cx, st, env') && Carried(b, env0, env') && ResultHeld(b.Results(), b.Lbl(), vs, env')
  {
    hide SiteOk, EmitEnd, LeaveArm, InArm, InView, Ops, CodeAt, ScopeOf, LabelsReady, PlaceOk, ScopeFold, LeaveOut,
         PushStmts, EndState, Held, Leads, Outer, EndAt, CloseStmts, Landed;
    env' := env;
    if b.kind == KIf {
      SitedPlace(a, b, pc);
      EndPlaces(a, b, pc, g, ud, sc, at);
      LabelPlaces(a, b, pc, g, ud, sc, at);
      var q := PushAt(b, g, ud, at);
      BaseSeen(a, b, pc, q);
      StepClose(a, q - 1, env, st.store);
      env' := Landed(a, q, env);
      SeenLanded(a, b, q, st, vs, env0, env);
    } else {
      LeadsRefl(a.p, At(a, CloseAt(b, g, ud, at), env, st.store));
    }
  }

  /** A jump to where everything needed is in scope. */
  lemma SeenLanded(a: Place, b: BlockSite, at: nat, st: State, vs: seq<Val>, env0: Env, env: Env)
    requires a.fn < |a.p| && at <= |a.Body()| && Seen(a, b, at) && Held(a.cx, st, env) && Carried(b, env0, env)
    requires ResultHeld(b.Results(), b.Lbl(), vs, env)
    ensures Held(a.cx, st, Landed(a, at, env)) && Carried(b, env0, Landed(a, at, env))
    ensures ResultHeld(b.Results(), b.Lbl(), vs, Landed(a, at, env))
  {
    hide Held, Names, Outer, Agrees;
    LandedHeld(a, at, st, env);
    LandedAgrees(a, at, Outer(b), env);
    AgreesTrans(Outer(b), env0, env, Landed(a, at, env));
  }

  /** The result moves to the operand that the code behind the block uses. */
  lemma SimPush(a: Place, b: BlockSite, pc: nat, g: Gen, ud: nat, sc: Scope, at: nat, vals: seq<Val>, st0: State,
      env0: Env, st: State, vs: seq<Val>, env: Env)
    returns (env': Env)
    requires Sited(a, b, pc) && EndAt(a, b, g, ud, sc, at) && Rel(a.cx, b.g, vals, b.ts, st0, env0)
    requires Held(a.cx, st, env) && Carried(b, env0, env) && ResultHeld(b.Results(), b.Lbl(), vs, env)
    ensures Leads(a.p, At(a, PushAt(b, g, ud, at), env, st.store),
        At(a, PushAt(b, g, ud, at) + |PushStmts(b, g)|, env', st.store))
    ensures Rel(a.cx, EndState(b, g), RestVals(b, vals) + Last(vs, |b.Results()|), b.Rest() + b.Results(), st, env')
    ensures Carried(b, env0, env')
  {
    hide SiteOk, EmitEnd, LeaveArm, InArm, InView, Ops, CodeAt, ScopeOf, LabelsReady, PlaceOk, ScopeFold, LeaveOut,
         Held, Leads, Outer, CloseStmts, Rel, PushAt, StackPush, Restored, Agrees, Visible;
    SitedPlace(a, b, pc);
    RestoredStack(b, g);
    RestHeld(b, Restored(b, g), vals, st0, env0, st, env);
    env' := env;
    if b.Results() == [] {
      LeadsRefl(a.p, At(a, PushAt(b, g, ud, at), env, st.store));
      assert RestVals(b, vals) + Last(vs, 0) == RestVals(b, vals) && b.Rest() + b.Results() == b.Rest();
    } else {
      SiteFacts(b);
      EndPlaces(a, b, pc, g, ud, sc, at);
      env' := SimPushOne(a, b, g, sc, PushAt(b, g, ud, at), RestVals(b, vals), st, vs[|vs| - 1], env);
      assert Last(vs, |b.Results()|) == [vs[|vs| - 1]] && b.Results() == [b.Results()[0]];
      AgreesTrans(Outer(b), env0, env, env');
    }
  }

  lemma SimPushOne(a: Place, b: BlockSite, g: Gen, sc: Scope, q: nat, rest: seq<Val>, st: State, x: Val, env: Env)
    returns (env': Env)
    requires a.fn < |a.p| && SiteOk(b) && b.cx == a.cx && InArm(b, g, sc) && b.Results() != [] && b.Lbl() > 0
    requires ScopeOf(a, q) == Closed(b, sc) && CodeAt(a, q, [Assign(ResultDst(b, g), Var(b.Lbl() - 1))])
    requires Rel(a.cx, Restored(b, g), rest, b.Rest(), st, env) && Typed(x, b.Results()[0])
      && Holds(env, b.Lbl() - 1, x)
    ensures Leads(a.p, At(a, q, env, st.store), At(a, q + 1, env', st.store))
    ensures Rel(a.cx, EndState(b, g), rest + [x], b.Rest() + [b.Results()[0]], st, env')
    ensures Agrees(Outer(b), env, env')
  {
    hide SiteOk, InArm, InView, Ops, CodeAt, ScopeOf, Leads, Rel, StackPush, Restored, Agrees, Visible, Closed,
         Plain, Held, Typed;
    var ty := b.Results()[0];
    var r := Restored(b, g);
    RestoredStack(b, g);
    RestoredView(b, g, sc);
    RelParts(a.cx, r, rest, b.Rest(), st, env);
    PushResultDst(a.cx, r, b.Rest(), ty, Names(a, q));
    var d := ResultDst(b, g);
    VarYields(b.Lbl() - 1, env, st.store, x, ty);
    AssignValue(d, Var(b.Lbl() - 1), env, st.store, x, ty, Names(a, q));
    env' := env[d.v := x];
    StepPlain(a, q, Assign(d, Var(b.Lbl() - 1)), env, st.store, env', st.store);
    HeldKept(a.cx, st, env, env', d.v);
    assert r.stack == r.stack[..|r.stack| - 0];
    RelPush(a.cx, r, EndState(b, g), 0, b.Rest(), rest, st, st, env, env', {d.v}, d.v, x, ty);
    assert rest[..|rest| - 0] == rest && b.Rest()[..|b.Rest()| - 0] == b.Rest();
    OuterUntouched(b, d.v, env, env');
  }

  lemma PushResultDst(cx: Context, g: Gen, ts: seq<ValType>, ty: ValType, scope: map<nat, ValType>)
    requires Sound(cx, g) && Ops(g, ts) && InView(cx, g, |ts|, scope)
    ensures
      var (g', d) := StackPush(g, ty);
      && g'.stack == g.stack + [d.v] && d.v >= |cx.locals| && DstOk(d, ty, scope)
      && forall j | 0 <= j < |g.stack| :: g.stack[j] != d.v
  {
    hide Sound, Ops, InView, StackPush;
    PushedDst(cx, g, 0, ts, ty, scope);
    assert PopN(g, 0).0 == g && g.stack[..|g.stack| - 0] == g.stack;
  }

  lemma HeldKept(cx: Context, st: State, env: Env, env': Env, v: nat)
    requires Held(cx, st, env) && v >= |cx.locals| && v in env' && env' == env[v := env'[v]]
    ensures Held(cx, st, env') && SameOutside(env, env', {v})
  {
    hide ValidStore, LocalsHeld;
    LocalsKept(cx, st, env, env', {v});
  }

  lemma OuterUntouched(b: BlockSite, v: nat, env: Env, env': Env)
    requires SameOutside(env, env', {v}) && forall j | 0 <= j < b.Keep() :: b.g.stack[j] != v
    ensures Agrees(Outer(b), env, env')
  {
    forall w | w in Outer(b) ensures w != v {
      var j :| 0 <= j < b.Keep() && b.g.stack[..b.Keep()][j] == w;
    }
  }

  /** From behind the label to behind the block. */
  lemma SimFinish(a: Place, b: BlockSite, pc: nat, g: Gen, ud: nat, sc: Scope, at: nat, vals: seq<Val>, st0: State,
      env0: Env, start: Machine, st: State, vs: seq<Val>, env: Env)
    returns (env': Env)
    requires Sited(a, b, pc) && EndAt(a, b, g, ud, sc, at) && Rel(a.cx, b.g, vals, b.ts, st0, env0)
    requires Leads(a.p, start, At(a, CloseAt(b, g, ud, at), env, st.store))
    requires Held(a.cx, st, env) && Carried(b, env0, env) && ResultHeld(b.Results(), b.Lbl(), vs, env)
    ensures Leads(a.p, start, At(a, at + |EmitEnd(b.cx, g, ud).out|, env', st.store))
    ensures Rel(a.cx, EmitEnd(b.cx, g, ud).g, RestVals(b, vals) + Last(vs, |b.Results()|),
        b.Rest() + b.Results(), st, env')
    ensures Carried(b, env0, env')
  {
    hide Sited, EmitEnd, LeaveArm, Held, Leads, Outer, Rel, StackPush, Restored, LeaveOut, PushStmts, EndState,
         ResultHeld, ArmEnd, ScopeOf, CodeAt, Carried;
    EndPlaces(a, b, pc, g, ud, sc, at);
    var env1 := SimClose(a, b, pc, g, ud, sc, at, st, vs, env0, env);
    env' := SimPush(a, b, pc, g, ud, sc, at, vals, st0, env0, st, vs, env1);
    var q := PushAt(b, g, ud, at);
    LeadsTrans(a.p, start, At(a, CloseAt(b, g, ud, at), env, st.store), At(a, q, env1, st.store));
    LeadsTrans(a.p, start, At(a, q, env1, st.store), At(a, q + |PushStmts(b, g)|, env', st.store));
  }
}
