/** Straight-line instructions, transfers and returns: the emitted statements follow the source. */
module SimPlain {
  import opened Options
  import opened Wasm
  import opened CLang
  import opened Translator
  import opened Allocator
  import opened CodeSound
  import opened Layout
  import opened Statements
  import opened Scoping
  import opened Steps
  import opened Sim

  // ---------------------------------------------------------------- operands

  /** The last `n` elements. */
  function Tail<T>(s: seq<T>, n: nat): (r: seq<T>)
    requires n <= |s|
    ensures |r| == n
  {
    s[|s| - n..]
  }

  lemma CheckSuffix(cx: Context, i: Instr, ts: seq<ValType>)
    requires IsStraight(i) && CheckStraight(cx, i, ts).Live? && Operands(i) <= |ts|
    ensures CheckStraight(cx, i, Tail(ts, Operands(i))).Live?
    ensures Peeks(i) ==> Operands(i) > 0
  {
    if Operands(i) == 3 {
      assert i.Select?;
    } else if Operands(i) == 2 {
      SuffixTwo(cx, i, ts);
    } else if Operands(i) == 1 {
      SuffixOne(cx, i, ts);
    }
  }

  lemma SuffixTwo(cx: Context, i: Instr, ts: seq<ValType>)
    requires IsStraight(i) && CheckStraight(cx, i, ts).Live? && Operands(i) == 2 <= |ts|
    ensures CheckStraight(cx, i, Tail(ts, 2)).Live?
  {
    assert i.StoreInt? || i.Compare? || i.Binary?;
  }

  lemma SuffixOne(cx: Context, i: Instr, ts: seq<ValType>)
    requires IsStraight(i) && CheckStraight(cx, i, ts).Live? && Operands(i) == 1 <= |ts|
    ensures CheckStraight(cx, i, Tail(ts, 1)).Live?
  {
  }

  lemma ArgsScoped(cx: Context, g: Gen, n: nat, ts: seq<ValType>, scope: map<nat, ValType>)
    requires Sound(cx, g) && Ops(g, ts) && InView(cx, g, |ts|, scope) && n <= |ts|
    ensures n <= |g.stack| && InScope(Opnds(g, n), Tail(ts, n), scope) && AboveLocals(cx, Opnds(g, n))
  {
    forall k | 0 <= k < n
      ensures Opnds(g, n)[k] in scope && scope[Opnds(g, n)[k]] == Tail(ts, n)[k] && Opnds(g, n)[k] >= |cx.locals|
    {
      var j := |g.stack| - n + k;
      assert Opnds(g, n)[k] == g.stack[j] && IsTemp(g, g.stack[j]);
      assert HasType(g, g.stack[|g.stack| - |ts| + (|ts| - n + k)], ts[|ts| - n + k]);
    }
  }

  lemma LocalsScoped(cx: Context, g: Gen, n: nat, scope: map<nat, ValType>)
    requires LocalsOk(cx, g) && InView(cx, g, n, scope)
    ensures LocalsInScope(cx, scope)
  {
  }

  lemma OperandsHeld(cx: Context, g: Gen, vals: seq<Val>, ts: seq<ValType>, st: State, env: Env, n: nat)
    requires Rel(cx, g, vals, ts, st, env) && n <= |ts|
    ensures |vals| == |ts| <= |g.stack|
    ensures HoldsAll(env, Opnds(g, n), Tail(vals, n)) && AllTyped(Tail(vals, n), Tail(ts, n))
    ensures AllTyped(vals[..|vals| - n], ts[..|ts| - n])
  {
    forall k | 0 <= k < n ensures Holds(env, Opnds(g, n)[k], Tail(vals, n)[k]) {
      var j := |ts| - n + k;
      assert Holds(env, Opnds(g, |ts|)[j], vals[j]);
    }
  }

  /** Operands that are neither popped nor written keep their values. */
  lemma LowerHeld(g: Gen, vals: seq<Val>, n: nat, env: Env, env': Env, ws: set<nat>)
    requires |vals| <= |g.stack| && n <= |vals| && HoldsAll(env, Opnds(g, |vals|), vals) && SameOutside(env, env', ws)
    requires forall j | 0 <= j < |g.stack| - n :: g.stack[j] !in ws
    ensures HoldsAll(env', g.stack[|g.stack| - |vals|..|g.stack| - n], vals[..|vals| - n])
  {
    var low, kept := g.stack[|g.stack| - |vals|..|g.stack| - n], vals[..|vals| - n];
    forall k | 0 <= k < |low| ensures Holds(env', low[k], kept[k]) {
      assert Holds(env, Opnds(g, |vals|)[k], vals[k]);
    }
  }

  lemma BelowKept(g: Gen, h: nat, n: nat, scope: map<nat, ValType>, env: Env, env': Env, ws: set<nat>)
    requires h + n <= |g.stack| && SameOutside(env, env', ws)
    requires forall j | 0 <= j < |g.stack| - n :: g.stack[j] !in ws
    ensures Agrees(Below(g, h, scope), env, env')
  {
    forall v | v in g.stack[..h] ensures v !in ws {
      var j :| 0 <= j < h && g.stack[..h][j] == v;
    }
  }

  // ---------------------------------------------------------------- straight-line instructions

  lemma PushedType(cx: Context, g: Gen, i: Instr, us: seq<ValType>)
    requires IsStraight(i) && |us| == Operands(i) && CheckStraight(cx, i, us).Live? && LocalsOk(cx, g) && MustPush(i)
    ensures Pushes(cx, g, i) == Some(ValueType(cx, i, us))
  {
    if i.LocalGet? {
      assert g.types[i.x] == cx.locals[i.x].Code();
    }
  }

  lemma OutsType(cx: Context, g: Gen, i: Instr, ts: seq<ValType>)
    requires IsStraight(i) && CheckStraight(cx, i, ts).Live? && LocalsOk(cx, g) && Operands(i) <= |ts|
    ensures CheckStraight(cx, i, Tail(ts, Operands(i))).Live? && (Peeks(i) ==> Operands(i) > 0)
    ensures Outs(cx, g, i, ts) ==
      if IsValue(i) then [ValueType(cx, i, Tail(ts, Operands(i)))]
      else if i.LocalTee? then [Tail(ts, Operands(i))[0]] else []
  {
    CheckSuffix(cx, i, ts);
    if MustPush(i) {
      PushedType(cx, g, i, Tail(ts, Operands(i)));
    } else if IsValue(i) {
      PeekType(cx, i, Tail(ts, Operands(i)));
    }
  }

  /** The destination of a pushed value is a temporary of its type that no lower operand lives in. */
  lemma PushedDst(cx: Context, g: Gen, n: nat, ts: seq<ValType>, ty: ValType, scope: map<nat, ValType>)
    requires Sound(cx, g) && Ops(g, ts) && InView(cx, g, |ts|, scope) && n <= |ts|
    ensures
      var (g', d) := StackPush(PopN(g, n).0, ty);
      && n <= |g.stack| && g'.stack == g.stack[..|g.stack| - n] + [d.v]
      && d.v >= |cx.locals| && DstOk(d, ty, scope)
      && forall j | 0 <= j < |g.stack| - n :: g.stack[j] != d.v
  {
    hide InView, PopN, Sound;
    var g1 := PopN(g, n).0;
    OpsFit(g, ts);
    PopNShape(g, n);
    PopNOk(cx, g, n);
    PopView(cx, g, |ts|, n, scope);
    PushOk(cx, g1, ty);
    var (g', d) := StackPush(g1, ty);
    DstApart(cx, g', |g.stack| - n);
    if d.Old? {
      WindowType(cx, g1, |ts| - n, d.v, ty, scope);
    }
  }

  lemma DstApart(cx: Context, g: Gen, k: nat)
    requires Sound(cx, g) && |g.stack| == k + 1
    ensures g.stack[k] >= |cx.locals| && forall j | 0 <= j < k :: g.stack[j] != g.stack[k]
  {
    assert IsTemp(g, g.stack[k]);
  }

  lemma WindowType(cx: Context, g: Gen, n: nat, v: nat, ty: ValType, scope: map<nat, ValType>)
    requires InView(cx, g, n, scope) && v in g.reuse[ReuseTop(g)..] && HasType(g, v, ty)
    ensures v in scope && scope[v] == ty
  {
    var j :| 0 <= j < |g.reuse[ReuseTop(g)..]| && g.reuse[ReuseTop(g)..][j] == v;
    assert g.reuse[ReuseTop(g) + j] == v;
  }

  /** The destination of an instruction; arbitrary when it pushes nothing. */
  function DstOf(cx: Context, g: Gen, i: Instr): Dst
    requires IsStraight(i) && Operands(i) <= |g.stack|
  {
    if MustPush(i) && Pushes(cx, g, i).Some? then StackPush(PopN(g, Operands(i)).0, Pushes(cx, g, i).value).1
      else Old(0)
  }

  /** What the translator emits for a checked instruction, and the stack it leaves. */
  lemma StraightForm(cx: Context, g: Gen, i: Instr, ts: seq<ValType>, scope: map<nat, ValType>)
    requires Sound(cx, g) && Ops(g, ts) && IsStraight(i) && CheckStraight(cx, i, ts).Live? && InView(cx, g, |ts|, scope)
    ensures Operands(i) <= |ts| <= |g.stack| && CheckStraight(cx, i, Tail(ts, Operands(i))).Live?
    ensures Peeks(i) ==> Operands(i) > 0
    ensures EmitStraight(cx, g, i).Emit? && EmitStraight(cx, g, i).out == StraightStmt(i, Args(g, i), DstOf(cx, g, i))
    ensures
      var low := g.stack[..|g.stack| - Operands(i)];
      EmitStraight(cx, g, i).g.stack ==
        if IsValue(i) || i.LocalTee? then low + [Target(i, Args(g, i), DstOf(cx, g, i))] else low
    ensures MustPush(i) ==>
      DstOf(cx, g, i).v >= |cx.locals| && DstOk(DstOf(cx, g, i), ValueType(cx, i, Tail(ts, Operands(i))), scope)
    ensures forall j | 0 <= j < |g.stack| - Operands(i) :: g.stack[j] !in Writes(i, Args(g, i), DstOf(cx, g, i))
  {
    hide InView, PopN, EmitStraight, StraightStmt, Pushes, CheckStraight, ValueType, StackPush, Ops;
    CheckShape(cx, g, i, ts);
    OpsFit(g, ts);
    CheckSuffix(cx, i, ts);
    if MustPush(i) {
      PushForm(cx, g, i);
      PushedType(cx, g, i, Tail(ts, Operands(i)));
      PushedDst(cx, g, Operands(i), ts, Pushes(cx, g, i).value, scope);
    } else {
      PopForm(cx, g, i);
      PopNShape(g, Popped(i));
    }
    LowerUnwritten(cx, g, i, ts);
  }

  lemma LowerUnwritten(cx: Context, g: Gen, i: Instr, ts: seq<ValType>)
    requires Sound(cx, g) && IsStraight(i) && CheckStraight(cx, i, ts).Live? && Operands(i) <= |g.stack|
    requires Peeks(i) ==> Operands(i) > 0
    requires MustPush(i) ==> forall j | 0 <= j < |g.stack| - Operands(i) :: g.stack[j] != DstOf(cx, g, i).v
    ensures forall j | 0 <= j < |g.stack| - Operands(i) :: g.stack[j] !in Writes(i, Args(g, i), DstOf(cx, g, i))
  {
    hide DstOf, BlockOk, Bases, Pushes;
    LocalIndex(cx, i, ts);
    if |g.stack| > Operands(i) {
      forall j | 0 <= j < |g.stack| - Operands(i) ensures g.stack[j] !in Writes(i, Args(g, i), DstOf(cx, g, i)) {
        assert IsTemp(g, g.stack[j]);
        if Operands(i) > 0 {
          assert Args(g, i)[0] == g.stack[|g.stack| - Operands(i)];
        }
      }
    }
  }

  lemma ReadyHere(cx: Context, g: Gen, i: Instr, ts: seq<ValType>, vals: seq<Val>, st: State, env: Env,
      scope: map<nat, ValType>)
    requires Sound(cx, g) && Ops(g, ts) && InView(cx, g, |ts|, scope) && Rel(cx, g, vals, ts, st, env)
    requires IsStraight(i) && Operands(i) <= |ts| && CheckStraight(cx, i, Tail(ts, Operands(i))).Live?
    requires Peeks(i) ==> Operands(i) > 0
    ensures |vals| == |ts| <= |g.stack|
    ensures Ready(cx, i, Args(g, i), Tail(ts, Operands(i)), Tail(vals, Operands(i)), st, env)
    ensures Ready?(cx, i, Args(g, i), Tail(ts, Operands(i)))
    ensures InScope(Args(g, i), Tail(ts, Operands(i)), scope) && LocalsInScope(cx, scope) && AboveLocals(cx, Args(g, i))
  {
    hide InView, Ops, CheckStraight, ValidStore, LocalsHeld, Operands, IsStraight, InScope, AboveLocals, HoldsAll,
         AllTyped, BlockOk, Bases;
    OperandsHeld(cx, g, vals, ts, st, env, Operands(i));
    ArgsScoped(cx, g, Operands(i), ts, scope);
    LocalsScoped(cx, g, |ts|, scope);
    assert Args(g, i) == Opnds(g, Operands(i));
  }

  /** Popping `n` operands keeps the rest related. */
  lemma RelPop(cx: Context, g: Gen, g': Gen, n: nat, ts: seq<ValType>, vals: seq<Val>, st: State, st': State, env: Env,
      env': Env, ws: set<nat>)
    requires Rel(cx, g, vals, ts, st, env) && n <= |ts| && SameOutside(env, env', ws) && Held(cx, st', env')
    requires forall j | 0 <= j < |g.stack| - n :: g.stack[j] !in ws
    requires g'.stack == g.stack[..|g.stack| - n]
    ensures |vals| == |ts|
    ensures Rel(cx, g', vals[..|vals| - n], ts[..|ts| - n], st', env')
  {
    hide Held;
    OperandsHeld(cx, g, vals, ts, st, env, n);
    OperandsHeld(cx, g, vals, ts, st, env, |ts|);
    LowerHeld(g, vals, n, env, env', ws);
    assert Opnds(g', |ts| - n) == g.stack[|g.stack| - |vals|..|g.stack| - n];
  }

  /** Popping `n` operands and pushing a value. */
  lemma RelPush(cx: Context, g: Gen, g': Gen, n: nat, ts: seq<ValType>, vals: seq<Val>, st: State, st': State,
      env: Env, env': Env, ws: set<nat>, v: nat, x: Val, ty: ValType)
    requires Rel(cx, g, vals, ts, st, env) && n <= |ts| && SameOutside(env, env', ws) && Held(cx, st', env')
    requires forall j | 0 <= j < |g.stack| - n :: g.stack[j] !in ws
    requires g'.stack == g.stack[..|g.stack| - n] + [v] && Holds(env', v, x) && Typed(x, ty)
    ensures |vals| == |ts|
    ensures Rel(cx, g', vals[..|vals| - n] + [x], ts[..|ts| - n] + [ty], st', env')
  {
    hide Held, Typed;
    OperandsHeld(cx, g, vals, ts, st, env, n);
    OperandsHeld(cx, g, vals, ts, st, env, |ts|);
    LowerHeld(g, vals, n, env, env', ws);
    var low := g.stack[|g.stack| - |vals|..|g.stack| - n];
    assert Opnds(g', |ts| - n + 1) == low + [v];
    HoldsMore(env', low, vals[..|vals| - n], v, [x]);
  }

  /** The operands after an instruction, from what its statement did. */
  lemma RelAfter(cx: Context, g: Gen, g': Gen, i: Instr, d: Dst, ts: seq<ValType>, vals: seq<Val>, st: State, env: Env,
      env': Env, e: Effect)
    requires Rel(cx, g, vals, ts, st, env) && IsStraight(i) && Operands(i) <= |ts|
    requires Ready?(cx, i, Args(g, i), Tail(ts, Operands(i))) && e.Effect?
    requires StmtDone(cx, i, Args(g, i), d, Tail(ts, Operands(i)), env, env', e)
    requires forall j | 0 <= j < |g.stack| - Operands(i) :: g.stack[j] !in Writes(i, Args(g, i), d)
    requires
      var low := g.stack[..|g.stack| - Operands(i)];
      g'.stack == if IsValue(i) || i.LocalTee? then low + [Target(i, Args(g, i), d)] else low
    ensures |vals| == |ts|
    ensures
      var us := Tail(ts, Operands(i));
      var outs := if IsValue(i) then [ValueType(cx, i, us)] else if i.LocalTee? then [us[0]] else [];
      Rel(cx, g', vals[..|vals| - Operands(i)] + e.out, ts[..|ts| - Operands(i)] + outs, e.st, env')
  {
    hide Rel, Writes, CheckStraight, ValueType, IsStraight, ValidStore, LocalsHeld, Target, Typed, Holds, SameOutside;
    OperandsHeld(cx, g, vals, ts, st, env, |ts|);
    var us, ws := Tail(ts, Operands(i)), Writes(i, Args(g, i), d);
    if IsValue(i) || i.LocalTee? {
      assert e.out == [e.out[0]];
      RelPush(cx, g, g', Operands(i), ts, vals, st, e.st, env, env', ws, Target(i, Args(g, i), d), e.out[0],
              if i.LocalTee? then us[0] else ValueType(cx, i, us));
    } else {
      RelPop(cx, g, g', Operands(i), ts, vals, st, e.st, env, env', ws);
      assert vals[..|vals| - Operands(i)] + [] == vals[..|vals| - Operands(i)];
      assert ts[..|ts| - Operands(i)] + [] == ts[..|ts| - Operands(i)];
    }
  }

  lemma HoldsMore(env: Env, vs: seq<nat>, xs: seq<Val>, v: nat, out: seq<Val>)
    requires HoldsAll(env, vs, xs) && |out| == 1 && Holds(env, v, out[0])
    ensures HoldsAll(env, vs + [v], xs + out)
  {
  }

  lemma ExecStraight(m: Module, i: Instr, vs: seq<Val>, st: State, fuel: nat)
    requires IsStraight(i) && Operands(i) <= |vs|
    ensures ExecInstr(m, i, vs, st, fuel) ==
      match Straight(i, Tail(vs, Operands(i)), st)
      case Effect(out, st') => Normal(vs[..|vs| - Operands(i)] + out, st')
      case NoEffect(why) => Stopped(why)
  {
  }

  /** At most one plain statement, run by the machine. */
  lemma RunStmts(a: Place, pc: nat, ss: seq<CStmt>, env: Env, store: Store, env': Env, store': Store)
    requires a.fn < |a.p| && CodeAt(a, pc, ss) && |ss| <= 1 && (ss != [] ==> IsPlain(ss[0]))
    requires RunPlain(ss, Names(a, pc), env, store) == Some((env', store'))
    ensures Leads(a.p, At(a, pc, env, store), At(a, pc + |ss|, env', store'))
  {
    if ss == [] {
      LeadsRefl(a.p, At(a, pc, env, store));
    } else {
      assert ss == [ss[0]];
      StepPlain(a, pc, ss[0], env, store, env', store');
    }
  }

  lemma SimStraight(a: Place, g: Gen, i: Instr, ts: seq<ValType>, pc: nat, vals: seq<Val>, st: State,
      env: Env, fuel: nat)
    returns (env': Env)
    requires Poised(a, g, ts, pc) && IsStraight(i) && CheckStraight(a.cx, i, ts).Live? && EmitStraight(a.cx, g, i).Emit?
    requires CodeAt(a, pc, EmitStraight(a.cx, g, i).out) && Rel(a.cx, g, vals, ts, st, env)
    ensures
      var e := EmitStraight(a.cx, g, i);
      && |ts| <= |g.stack|
      && Follows(a, g, |g.stack| - |ts|, pc, env, st.store, ExecInstr(a.cx.m, i, vals, st, fuel),
         CheckStraight(a.cx, i, ts), e.g, pc + |e.out|, env')
  {
    hide *;
    PoisedFacts(a, g, ts, pc);
    var scope := Names(a, pc);
    StraightForm(a.cx, g, i, ts, scope);
    ReadyHere(a.cx, g, i, ts, vals, st, env, scope);
    ExecStraight(a.cx.m, i, vals, st, fuel);
    env' := SimStmt(a, g, i, ts, pc, vals, st, env);
    CheckOuts(a.cx, g, i, ts);
    FollowsStraight(a, g, ts, pc, env, st.store, Straight(i, Tail(vals, Operands(i)), st), vals[..|vals| - Operands(i)],
                    CheckStraight(a.cx, i, ts), EmitStraight(a.cx, g, i).g, pc + |EmitStraight(a.cx, g, i).out|, env');
  }

  lemma PoisedFacts(a: Place, g: Gen, ts: seq<ValType>, pc: nat)
    requires Poised(a, g, ts, pc)
    ensures PlaceOk(a) && GoodContext(a.cx) && a.fn < |a.p| && pc <= |a.Body()| && Sound(a.cx, g) && Ops(g, ts)
    ensures InView(a.cx, g, |ts|, Names(a, pc)) && |ts| <= |g.stack| && LocalsOk(a.cx, g) && |ScopeOf(a, pc)| > 0
    ensures StackFloor(g) + |ts| <= |g.stack| && LabelsReady(a, g, Names(a, pc)) && UniqueLabels(a.Body())
  {
  }

  lemma CheckOuts(cx: Context, g: Gen, i: Instr, ts: seq<ValType>)
    requires IsStraight(i) && CheckStraight(cx, i, ts).Live? && LocalsOk(cx, g)
    ensures Operands(i) <= |ts| && CheckStraight(cx, i, Tail(ts, Operands(i))).Live? && (Peeks(i) ==> Operands(i) > 0)
    ensures
      var us := Tail(ts, Operands(i));
      CheckStraight(cx, i, ts) == Live(ts[..|ts| - Operands(i)] +
        (if IsValue(i) then [ValueType(cx, i, us)] else if i.LocalTee? then [us[0]] else []))
  {
    hide CheckStraight, Outs, ValueType, LocalsOk;
    CheckShape(cx, g, i, ts);
    OutsType(cx, g, i, ts);
  }

  /** Running the statement of an instruction and what it leaves. */
  lemma SimStmt(a: Place, g: Gen, i: Instr, ts: seq<ValType>, pc: nat, vals: seq<Val>, st: State, env: Env)
    returns (env': Env)
    requires Poised(a, g, ts, pc) && IsStraight(i) && CheckStraight(a.cx, i, ts).Live? && EmitStraight(a.cx, g, i).Emit?
    requires CodeAt(a, pc, EmitStraight(a.cx, g, i).out) && Rel(a.cx, g, vals, ts, st, env)
    ensures Operands(i) <= |ts| == |vals| <= |g.stack| && CheckStraight(a.cx, i, Tail(ts, Operands(i))).Live?
    ensures Peeks(i) ==> Operands(i) > 0
    ensures
      var f := EmitStraight(a.cx, g, i);
      var us := Tail(ts, Operands(i));
      var outs := if IsValue(i) then [ValueType(a.cx, i, us)] else if i.LocalTee? then [us[0]] else [];
      match Straight(i, Tail(vals, Operands(i)), st)
      case NoEffect(why) => Halts(a.p, At(a, pc, env, st.store), why)
      case Effect(out, st') =>
        && Leads(a.p, At(a, pc, env, st.store), At(a, pc + |f.out|, env', st'.store))
        && Rel(a.cx, f.g, vals[..|vals| - Operands(i)] + out, ts[..|ts| - Operands(i)] + outs, st', env')
        && Agrees(Below(g, |g.stack| - |ts|, Names(a, pc)), env, env')
  {
    hide *;
    var cx := a.cx;
    PoisedFacts(a, g, ts, pc);
    var scope := Names(a, pc);
    StraightForm(cx, g, i, ts, scope);
    var d := DstOf(cx, g, i);
    ReadyHere(cx, g, i, ts, vals, st, env, scope);
    var us, ops := Tail(ts, Operands(i)), Tail(vals, Operands(i));
    env' := StmtCorrect(cx, i, Args(g, i), d, us, ops, st, env, scope);
    var e := Straight(i, ops, st);
    DoneFacts(cx, i, Args(g, i), d, us, env, env', e);
    if e.Effect? {
      RunStmts(a, pc, StraightStmt(i, Args(g, i), d), env, st.store, env', e.st.store);
      RelAfter(cx, g, EmitStraight(cx, g, i).g, i, d, ts, vals, st, env, env', e);
      BelowKept(g, |g.stack| - |ts|, Operands(i), scope, env, env', Writes(i, Args(g, i), d));
    } else {
      StmtHalts(a, pc, StraightStmt(i, Args(g, i), d), env, st.store, e);
    }
  }

  lemma StmtHalts(a: Place, pc: nat, ss: seq<CStmt>, env: Env, store: Store, e: Effect)
    requires a.fn < |a.p| && CodeAt(a, pc, ss) && |ss| <= 1 && (ss != [] ==> IsPlain(ss[0])) && e.NoEffect?
      && e.why != IllTyped
    requires Faults(e) ==> RunPlain(ss, Names(a, pc), env, store) == None
    ensures Halts(a.p, At(a, pc, env, store), e.why)
  {
    hide Plain, Names;
    if Faults(e) {
      assert ss == [ss[0]];
      StepFault(a, pc, ss[0], env, store);
    }
  }

  lemma DoneFacts(cx: Context, i: Instr, args: seq<nat>, d: Dst, us: seq<ValType>, env: Env, env': Env, e: Effect)
    requires Ready?(cx, i, args, us) && StmtDone(cx, i, args, d, us, env, env', e)
    ensures e.NoEffect? ==> e.why != IllTyped
    ensures e.Effect? ==> SameOutside(env, env', Writes(i, args, d))
  {
  }

  lemma FollowsStraight(a: Place, g: Gen, ts: seq<ValType>, pc: nat, env: Env, store: Store, e: Effect, low: seq<Val>,
      r: Check, g': Gen, pc': nat, env': Env)
    requires a.fn < |a.p| && pc <= |a.Body()| && |ts| <= |g.stack| && r.Live?
    requires match e
      case NoEffect(why) => Halts(a.p, At(a, pc, env, store), why)
      case Effect(out, st') =>
        && Leads(a.p, At(a, pc, env, store), At(a, pc', env', st'.store))
        && Rel(a.cx, g', low + out, r.ts, st', env')
        && Agrees(Below(g, |g.stack| - |ts|, Names(a, pc)), env, env')
    ensures
      var o := (match e case Effect(out, st') => Normal(low + out, st') case NoEffect(why) => Stopped(why));
      Follows(a, g, |g.stack| - |ts|, pc, env, store, o, r, g', pc', env')
  {
  }
}
