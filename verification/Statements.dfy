/** The one statement emitted for a straight-line instruction does what the instruction does. */
module Statements {
  import opened Bits
  import opened Options
  import opened Wasm
  import opened CLang
  import opened Emitted
  import opened Translator

  /** The instructions that compute one value and change nothing. */
  predicate IsValue(i: Instr) { MustPush(i) || (Peeks(i) && !i.LocalTee?) }

  function ValueExpr(i: Instr, args: seq<nat>): CExpr
    requires IsValue(i) && |args| == Operands(i)
  {
    match i
    case Select => CondE(Var(args[2]), Var(args[0]), Var(args[1]))
    case LocalGet(x) => Var(x)
    case GlobalGet(x) => GlobalVar(x)
    case LoadInt(_, bytes, signed, _, offset) => LoadExpr(bytes, signed, args[0], offset)
    case Const(v) => Lit(TypeOf(v.ty), v.n)
    case Eqz(_) => NotE(Var(args[0]))
    case Compare(ty, rel) => CompareExpr(ty, rel, args[0], args[1])
    case Binary(ty, op) => BinaryExpr(ty, op, args[0], args[1])
    case Wrap => Cast(Unsigned(32), Var(args[0]))
    case Extend(signed) => Cast(CType(32, signed), Var(args[0]))
    case SignExt(_, bits) => Cast(CType(bits, true), Var(args[0]))
    case _ => Pages
  }

  /** The type of the value that a checked instruction yields over operands of types `us`. */
  function ValueType(cx: Context, i: Instr, us: seq<ValType>): ValType
    requires IsStraight(i) && IsValue(i) && |us| == Operands(i) && CheckStraight(cx, i, us).Live?
  {
    match i
    case Select => us[0]
    case LocalGet(x) => cx.locals[x]
    case GlobalGet(x) => cx.m.globals[x]
    case LoadInt(ty, _, _, _, _) => ty
    case Const(v) => v.ty
    case Binary(ty, _) => ty
    case Extend(_) => I64
    case SignExt(ty, _) => ty
    case _ => I32
  }

  predicate Holds(env: Env, v: nat, x: Val) { v in env && env[v] == x }

  predicate HoldsAll(env: Env, vs: seq<nat>, xs: seq<Val>) {
    |vs| == |xs| && forall k | 0 <= k < |vs| :: Holds(env, vs[k], xs[k])
  }

  /** The C variables of the parameters and declared locals hold the locals' values. */
  predicate LocalsHeld(cx: Context, st: State, env: Env) {
    && AllTyped(st.locals, cx.locals)
    && forall x: nat | x < |st.locals| :: Holds(env, x, st.locals[x])
  }

  /** A value of type `ty`, computed and stored, is `x`. */
  predicate Yields(e: CExpr, env: Env, s: Store, x: Val, ty: ValType) {
    Typed(x, ty) && Eval(e, env, s).Some? && Convert(ty, Eval(e, env, s).value.x) == x
  }

  /** The instruction stops in a way that the emitted statement does, too. */
  predicate Faults(e: Effect) { e.NoEffect? && e.why != Wrapped }

  /** The emitted expression comes to what the instruction does: its value, or nothing where it stops. */
  predicate Gives(e: Effect, x: CExpr, env: Env, st: State, ty: ValType) {
    if e.NoEffect? then e.why != IllTyped && (Faults(e) ==> Eval(x, env, st.store).None?)
    else e.st == st && |e.out| == 1 && Yields(x, env, st.store, e.out[0], ty)
  }

  // ---------------------------------------------------------------- values

  lemma VarYields(v: nat, env: Env, s: Store, x: Val, ty: ValType)
    requires Holds(env, v, x) && Typed(x, ty)
    ensures Yields(Var(v), env, s, x, ty)
  {
    Operand(v, env, s, ty, x.n);
    WordSmall(ty, x.n);
  }

  lemma BoolYields(e: CExpr, env: Env, s: Store, b: bool)
    requires Eval(e, env, s) == Some(CBool(b))
    ensures Yields(e, env, s, OfBool(b), I32)
  {
    Pow2Values();
    ModSmall(if b then 1 else 0, Pow2(32));
  }

  predicate Ready(cx: Context, i: Instr, args: seq<nat>, us: seq<ValType>, ops: seq<Val>, st: State, env: Env) {
    && IsStraight(i) && |args| == |us| == Operands(i)
    && CheckStraight(cx, i, us).Live?
    && AllTyped(ops, us) && HoldsAll(env, args, ops)
    && LocalsHeld(cx, st, env) && ValidStore(cx.m, st.store)
  }

  lemma ValueForm(i: Instr, args: seq<nat>, d: Dst)
    requires IsValue(i) && IsStraight(i) && |args| == Operands(i)
    ensures
      var e := ValueExpr(i, args);
      StraightStmt(i, args, d) ==
        if !MustPush(i) then [Assign(Old(args[0]), e)]
        else if i.Compare? && IsSignedRel(i.rel) then [AssignVia(d, args[0], e)]
        else [Assign(d, e)]
  {
  }

  lemma ValueCorrect(cx: Context, i: Instr, args: seq<nat>, us: seq<ValType>, ops: seq<Val>, st: State, env: Env)
    requires IsValue(i) && Ready(cx, i, args, us, ops, st, env)
    ensures Gives(Straight(i, ops, st), ValueExpr(i, args), env, st, ValueType(cx, i, us))
  {
    if i.Binary? {
      BinaryValue(cx, i, args, us, ops, st, env);
    } else if i.LoadInt? {
      LoadValue(cx, i, args, us, ops, st, env);
    } else if i.Select? || i.Compare? {
      ChoiceValue(cx, i, args, us, ops, st, env);
    } else if Operands(i) == 1 {
      UnaryValue(cx, i, args, us, ops, st, env);
    } else {
      PlainValue(cx, i, args, us, ops, st, env);
    }
  }

  lemma BinaryValue(cx: Context, i: Instr, args: seq<nat>, us: seq<ValType>, ops: seq<Val>, st: State, env: Env)
    requires i.Binary? && Ready(cx, i, args, us, ops, st, env)
    ensures Gives(Straight(i, ops, st), ValueExpr(i, args), env, st, ValueType(cx, i, us))
  {
    assert us == [i.ty, i.ty];
    hide Pow2, Eval, IntBinary, BinaryExpr, LocalsHeld, ValidStore, RemOverflows;
    assert Holds(env, args[0], ops[0]) && Holds(env, args[1], ops[1]);
    BinaryCorrect(i.ty, i.op, args[0], args[1], ops[0].n, ops[1].n, env, st.store);
    if Eval(BinaryExpr(i.ty, i.op, args[0], args[1]), env, st.store).Some? {
      ModBelow(Eval(BinaryExpr(i.ty, i.op, args[0], args[1]), env, st.store).value.x, Pow2(i.ty.Width()));
    }
  }

  lemma ModBelow(x: int, m: nat)
    requires m > 0
    ensures 0 <= x % m < m
  {
  }

  lemma LoadValue(cx: Context, i: Instr, args: seq<nat>, us: seq<ValType>, ops: seq<Val>, st: State, env: Env)
    requires i.LoadInt? && Ready(cx, i, args, us, ops, st, env)
    ensures Gives(Straight(i, ops, st), ValueExpr(i, args), env, st, ValueType(cx, i, us))
  {
    hide Pow2, Eval, LoadExpr, LocalsHeld, Little, SignExtend, ValidStore, CheckStraight, Ready, AllTyped, HoldsAll;
    LoadReady(cx, i, args, us, ops, st, env);
    var ea := ops[0].n + i.offset;
    if ea + i.bytes <= |st.store.mem| {
      LoadCorrect(i.bytes, i.signed, args[0], i.offset, ops[0].n, i.ty, env, st.store);
      ModBelow(Eval(LoadExpr(i.bytes, i.signed, args[0], i.offset), env, st.store).value.x, Pow2(i.ty.Width()));
    } else if ea % Pow2(32) + i.bytes > |st.store.mem| {
      LoadFaults(i.bytes, i.signed, args[0], i.offset, ops[0].n, env, st.store);
    }
  }

  lemma LoadReady(cx: Context, i: Instr, args: seq<nat>, us: seq<ValType>, ops: seq<Val>, st: State, env: Env)
    requires i.LoadInt? && Ready(cx, i, args, us, ops, st, env)
    ensures |us| == |ops| == |args| == 1 && Holds(env, args[0], ops[0]) && ops[0].ty == I32
      && CheckStraight(cx, i, us).Live?
    ensures 0 < i.bytes && 8 * i.bytes <= i.ty.Width() && |st.store.mem| <= Pow2(32) && ops[0].n < Pow2(32)
      && i.offset < Pow2(32)
    ensures env[args[0]] == Val(I32, ops[0].n) && args[0] in env && IsStraight(i)
  {
    hide Pow2, LocalsHeld;
    assert us == [I32];
    assert ValidAccess(i.ty, i.bytes);
    assert Holds(env, args[0], ops[0]);
  }

  lemma ChoiceValue(cx: Context, i: Instr, args: seq<nat>, us: seq<ValType>, ops: seq<Val>, st: State, env: Env)
    requires (i.Select? || i.Compare?) && Ready(cx, i, args, us, ops, st, env)
    ensures Gives(Straight(i, ops, st), ValueExpr(i, args), env, st, ValueType(cx, i, us))
  {
    hide Pow2, IntCompare, CompareExpr, LocalsHeld, ValidStore;
    assert Holds(env, args[0], ops[0]) && Holds(env, args[1], ops[1]);
    if i.Compare? {
      assert us == [i.ty, i.ty];
      CompareCorrect(i.ty, i.rel, args[0], args[1], ops[0].n, ops[1].n, env, st.store);
      BoolYields(CompareExpr(i.ty, i.rel, args[0], args[1]), env, st.store,
          IntCompare(i.rel, i.ty.Width(), ops[0].n, ops[1].n));
    } else {
      assert Holds(env, args[2], ops[2]);
      VarYields(args[0], env, st.store, ops[0], us[0]);
      VarYields(args[1], env, st.store, ops[1], us[1]);
      assert Eval(Var(args[2]), env, st.store) == Some(OfVal(ops[2]));
    }
  }

  lemma UnaryValue(cx: Context, i: Instr, args: seq<nat>, us: seq<ValType>, ops: seq<Val>, st: State, env: Env)
    requires (i.Eqz? || i.Wrap? || i.Extend? || i.SignExt?) && Ready(cx, i, args, us, ops, st, env)
    ensures Gives(Straight(i, ops, st), ValueExpr(i, args), env, st, ValueType(cx, i, us))
  {
    hide Pow2, LocalsHeld, ValidStore, Conv;
    assert Holds(env, args[0], ops[0]);
    var x := ops[0].n;
    Operand(args[0], env, st.store, us[0], x);
    if i.Eqz? {
      BoolYields(NotE(Var(args[0])), env, st.store, x == 0);
    } else if i.Wrap? {
      ConvUnsigned(32, x);
      ModBelow(x, Pow2(32));
      ModSmall(x % Pow2(32), Pow2(32));
    } else if i.Extend? {
      ExtendValue(i, args[0], x, env, st.store);
    } else {
      SignExtendCorrect(i.ty, i.bits, Var(args[0]), x, env, st.store);
      ModBelow(Signed(i.bits, x % Pow2(i.bits)), Pow2(i.ty.Width()));
    }
  }

  lemma ExtendValue(i: Instr, v: nat, x: nat, env: Env, s: Store)
    requires i.Extend? && x < Pow2(32) && Eval(Var(v), env, s) == Some(CVal(Unsigned(32), x))
    ensures Yields(Cast(CType(32, i.signed), Var(v)), env, s, Val(I64, if i.signed then SignExtend(32, 64, x) else x),
        I64)
  {
    hide Pow2, Conv;
    if i.signed {
      SignExtendCorrect(I64, 32, Var(v), x, env, s);
      ModBelow(Signed(32, x % Pow2(32)), Pow2(64));
    } else {
      ConvUnsigned(32, x);
      ModSmall(x, Pow2(32));
      Pow2Values();
      ModSmall(x, Pow2(64));
    }
  }

  lemma ConvUnsigned(bits: nat, x: int)
    ensures Conv(Unsigned(bits), x) == x % Pow2(bits)
  {
  }

  lemma PlainValue(cx: Context, i: Instr, args: seq<nat>, us: seq<ValType>, ops: seq<Val>, st: State, env: Env)
    requires (i.LocalGet? || i.GlobalGet? || i.Const? || i.MemorySize?) && Ready(cx, i, args, us, ops, st, env)
    ensures Gives(Straight(i, ops, st), ValueExpr(i, args), env, st, ValueType(cx, i, us))
  {
    hide Pow2;
    match i
    case LocalGet(x) =>
      assert Holds(env, x, st.locals[x]);
      VarYields(x, env, st.store, st.locals[x], cx.locals[x]);
    case GlobalGet(x) =>
      assert Typed(st.store.globals[x], cx.m.globals[x]);
      WordSmall(cx.m.globals[x], st.store.globals[x].n);
    case Const(v) => WordSmall(v.ty, v.n);
    case MemorySize =>
      Pow2Values();
      WordSmall(I32, |st.store.mem| / 0x1_0000);
  }

  // ---------------------------------------------------------------- statements

  /** The variables that the statement of an instruction assigns. */
  function Writes(i: Instr, args: seq<nat>, d: Dst): set<nat>
    requires IsStraight(i) && |args| == Operands(i)
  {
    if i.LocalSet? || i.LocalTee? then {i.x}
    else if !IsValue(i) then {}
    else if !MustPush(i) then {args[0]}
    else if i.Compare? && IsSignedRel(i.rel) then {args[0], d.v}
    else {d.v}
  }

  /** The variable that an instruction leaves its value in. */
  function Target(i: Instr, args: seq<nat>, d: Dst): nat
    requires IsStraight(i) && |args| == Operands(i) && (Peeks(i) ==> |args| > 0)
  {
    if Peeks(i) then args[0] else d.v
  }

  predicate DstOk(d: Dst, ty: ValType, scope: map<nat, ValType>) {
    if d.New? then d.ty == ty else d.v in scope && scope[d.v] == ty
  }

  predicate InScope(vs: seq<nat>, ts: seq<ValType>, scope: map<nat, ValType>) {
    |vs| == |ts| && forall k | 0 <= k < |vs| :: vs[k] in scope && scope[vs[k]] == ts[k]
  }

  predicate LocalsInScope(cx: Context, scope: map<nat, ValType>) {
    forall x: nat | x < |cx.locals| :: x in scope && scope[x] == cx.locals[x]
  }

  predicate AboveLocals(cx: Context, vs: seq<nat>) {
    forall k | 0 <= k < |vs| :: vs[k] >= |cx.locals|
  }

  function RunPlain(ss: seq<CStmt>, scope: map<nat, ValType>, env: Env, s: Store): Option<(Env, Store)>
    requires |ss| <= 1 && (ss != [] ==> IsPlain(ss[0]))
  {
    if ss == [] then Some((env, s)) else Plain(ss[0], scope, env, s)
  }

  lemma StmtIsPlain(i: Instr, args: seq<nat>, d: Dst)
    requires IsStraight(i) && |args| == Operands(i)
    ensures var s := StraightStmt(i, args, d); |s| <= 1 && (s == [] <==> i.Nop?) && (s != [] ==> IsPlain(s[0]))
  {
  }

  predicate SameOutside(env: Env, env': Env, ws: set<nat>) {
    forall v | v in env && v !in ws :: v in env' && env'[v] == env[v]
  }

  /** What running the statement of instruction `i` must come to. */
  predicate StmtDone(cx: Context, i: Instr, args: seq<nat>, d: Dst, us: seq<ValType>, env: Env, env': Env, e: Effect)
    requires Ready?(cx, i, args, us)
  {
    match e
    case NoEffect(why) => why != IllTyped
    case Effect(out, st') =>
      && SameOutside(env, env', Writes(i, args, d))
      && LocalsHeld(cx, st', env') && ValidStore(cx.m, st'.store)
      && (if IsValue(i) || i.LocalTee?
          then |out| == 1 && Holds(env', Target(i, args, d), out[0])
               && Typed(out[0], if i.LocalTee? then us[0] else ValueType(cx, i, us))
          else out == [])
  }

  predicate Ready?(cx: Context, i: Instr, args: seq<nat>, us: seq<ValType>) {
    IsStraight(i) && |args| == |us| == Operands(i) && CheckStraight(cx, i, us).Live? && (Peeks(i) ==> |args| > 0)
  }

  lemma StmtCorrect(cx: Context, i: Instr, args: seq<nat>, d: Dst, us: seq<ValType>, ops: seq<Val>, st: State, env: Env,
                    scope: map<nat, ValType>)
    returns (env': Env)
    requires Ready(cx, i, args, us, ops, st, env) && (Peeks(i) ==> |args| > 0)
    requires InScope(args, us, scope) && LocalsInScope(cx, scope) && AboveLocals(cx, args)
    requires MustPush(i) ==> d.v >= |cx.locals| && DstOk(d, ValueType(cx, i, us), scope)
    ensures
      var s := StraightStmt(i, args, d);
      && |s| <= 1 && (s != [] ==> IsPlain(s[0]))
      && StmtDone(cx, i, args, d, us, env, env', Straight(i, ops, st))
      && (Straight(i, ops, st).Effect?
         ==> RunPlain(s, scope, env, st.store) == Some((env', Straight(i, ops, st).st.store)))
      && (Faults(Straight(i, ops, st)) ==> RunPlain(s, scope, env, st.store) == None)
  {
    StmtIsPlain(i, args, d);
    if IsValue(i) {
      env' := ValueStmt(cx, i, args, d, us, ops, st, env, scope);
    } else {
      env' := OtherStmt(cx, i, args, d, us, ops, st, env, scope);
    }
  }

  lemma ValueStmt(cx: Context, i: Instr, args: seq<nat>, d: Dst, us: seq<ValType>, ops: seq<Val>, st: State, env: Env,
                  scope: map<nat, ValType>)
    returns (env': Env)
    requires IsValue(i) && Ready(cx, i, args, us, ops, st, env) && (Peeks(i) ==> |args| > 0)
    requires InScope(args, us, scope) && AboveLocals(cx, args)
    requires MustPush(i) ==> d.v >= |cx.locals| && DstOk(d, ValueType(cx, i, us), scope)
    ensures
      var s := StraightStmt(i, args, d);
      && |s| == 1 && IsPlain(s[0])
      && StmtDone(cx, i, args, d, us, env, env', Straight(i, ops, st))
      && (Straight(i, ops, st).Effect?
         ==> Plain(s[0], scope, env, st.store) == Some((env', Straight(i, ops, st).st.store)))
      && (Faults(Straight(i, ops, st)) ==> Plain(s[0], scope, env, st.store) == None)
  {
    hide Straight, Eval, ValueExpr, StraightStmt, CheckStraight, ValueType, Typed, ValidStore, Plain, Yields,
         LocalsHeld, SameOutside, InScope, DstOk, Holds, IsSignedRel;
    ValueForm(i, args, d);
    ValueCorrect(cx, i, args, us, ops, st, env);
    PeekType(cx, i, us);
    env' := env;
    if Straight(i, ops, st).Effect? {
      if MustPush(i) && i.Compare? && IsSignedRel(i.rel) {
        ViaSame(cx, i, args, us, ops, st, env);
      }
      YieldsTyped(ValueExpr(i, args), env, st.store, Straight(i, ops, st).out[0], ValueType(cx, i, us));
      env' := ValueEnv(i, args, d, us, ValueType(cx, i, us), Straight(i, ops, st).out[0], env, st.store, scope);
      LocalsKept(cx, st, env, env', Writes(i, args, d));
    } else if Faults(Straight(i, ops, st)) {
      AssignFaults(StraightStmt(i, args, d)[0], ValueExpr(i, args), scope, env, st.store);
    }
  }

  /** An assignment of an undefined value is undefined. */
  lemma AssignFaults(s: CStmt, e: CExpr, scope: map<nat, ValType>, env: Env, store: Store)
    requires (s.Assign? || s.AssignVia?) && s.e == e && Eval(e, env, store).None?
    ensures Plain(s, scope, env, store) == None
  {
  }

  lemma ValueEnv(i: Instr, args: seq<nat>, d: Dst, us: seq<ValType>, ty: ValType, x: Val, env: Env, s: Store,
                 scope: map<nat, ValType>)
    returns (env': Env)
    requires IsValue(i) && IsStraight(i) && |args| == |us| == Operands(i)
    requires InScope(args, us, scope) && Yields(ValueExpr(i, args), env, s, x, ty)
    requires if MustPush(i) then DstOk(d, ty, scope) else |us| > 0 && us[0] == ty
    requires MustPush(i) && i.Compare? && IsSignedRel(i.rel) ==>
               ty == I32 && Convert(I32, Convert(us[0], Eval(ValueExpr(i, args), env, s).value.x).n) == x
    ensures
      var stmt :=
        if !MustPush(i) then Assign(Old(args[0]), ValueExpr(i, args))
        else if i.Compare? && IsSignedRel(i.rel) then AssignVia(d, args[0], ValueExpr(i, args))
        else Assign(d, ValueExpr(i, args));
      Plain(stmt, scope, env, s) == Some((env', s))
    ensures SameOutside(env, env', Writes(i, args, d)) && Holds(env', if MustPush(i) then d.v else args[0], x)
  {
    var e := ValueExpr(i, args);
    hide ValueExpr, Eval, Plain, Yields, Typed, IsSignedRel, DstOk, MustPush, Convert;
    if !MustPush(i) {
      OldOk(args[0], us[0], scope);
      env' := env[args[0] := x];
      AssignValue(Old(args[0]), e, env, s, x, us[0], scope);
    } else if i.Compare? && IsSignedRel(i.rel) {
      YieldsTyped(e, env, s, x, ty);
      env' := env[args[0] := Convert(us[0], Eval(e, env, s).value.x)][d.v := x];
      AssignThrough(d, args[0], e, env, s, us[0], scope);
    } else {
      env' := env[d.v := x];
      AssignValue(d, e, env, s, x, ty, scope);
    }
  }

  lemma OldOk(v: nat, ty: ValType, scope: map<nat, ValType>)
    requires v in scope && scope[v] == ty
    ensures DstOk(Old(v), ty, scope)
  {
  }

  lemma YieldsTyped(e: CExpr, env: Env, s: Store, x: Val, ty: ValType)
    requires Yields(e, env, s, x, ty)
    ensures Typed(x, ty) && Eval(e, env, s).Some?
  {
  }

  lemma AssignValue(d: Dst, e: CExpr, env: Env, s: Store, x: Val, ty: ValType, scope: map<nat, ValType>)
    requires DstOk(d, ty, scope) && Yields(e, env, s, x, ty)
    ensures Plain(Assign(d, e), scope, env, s) == Some((env[d.v := x], s))
  {
  }

  lemma AssignThrough(d: Dst, via: nat, e: CExpr, env: Env, s: Store, ty: ValType, scope: map<nat, ValType>)
    requires DstOk(d, I32, scope) && via in scope && scope[via] == ty && Eval(e, env, s).Some?
    ensures
      var y := Convert(ty, Eval(e, env, s).value.x);
      Plain(AssignVia(d, via, e), scope, env, s) == Some((env[via := y][d.v := Convert(I32, y.n)], s))
  {
  }

  lemma LocalsKept(cx: Context, st: State, env: Env, env': Env, ws: set<nat>)
    requires LocalsHeld(cx, st, env) && SameOutside(env, env', ws) && forall v | v in ws :: v >= |cx.locals|
    ensures LocalsHeld(cx, st, env')
  {
    forall x: nat | x < |st.locals| ensures Holds(env', x, st.locals[x]) {
      assert Holds(env, x, st.locals[x]);
    }
  }

  lemma PeekType(cx: Context, i: Instr, us: seq<ValType>)
    requires IsStraight(i) && IsValue(i) && |us| == Operands(i) && CheckStraight(cx, i, us).Live?
    ensures !MustPush(i) ==> |us| > 0 && ValueType(cx, i, us) == us[0]
    ensures MustPush(i) && i.Compare? ==> us == [I64, I64] && ValueType(cx, i, us) == I32
  {
  }

  // `d = l = e`: the value passes through a 64-bit variable
  lemma ViaSame(cx: Context, i: Instr, args: seq<nat>, us: seq<ValType>, ops: seq<Val>, st: State, env: Env)
    requires i.Compare? && MustPush(i) && IsSignedRel(i.rel) && Ready(cx, i, args, us, ops, st, env)
    ensures Straight(i, ops, st).Effect? && |Straight(i, ops, st).out| == 1
    ensures Eval(ValueExpr(i, args), env, st.store).Some?
    ensures Convert(I32, Convert(us[0], Eval(ValueExpr(i, args), env, st.store).value.x).n)
      == Straight(i, ops, st).out[0]
  {
    hide Pow2, IntCompare, CompareExpr, LocalsHeld, ValidStore;
    assert us == [i.ty, i.ty];
    assert Holds(env, args[0], ops[0]) && Holds(env, args[1], ops[1]);
    CompareCorrect(i.ty, i.rel, args[0], args[1], ops[0].n, ops[1].n, env, st.store);
    var b := if IntCompare(i.rel, i.ty.Width(), ops[0].n, ops[1].n) then 1 else 0;
    Pow2Values();
    ModSmall(b, Pow2(32));
    ModSmall(b, Pow2(64));
  }

  lemma OtherStmt(cx: Context, i: Instr, args: seq<nat>, d: Dst, us: seq<ValType>, ops: seq<Val>, st: State, env: Env,
                  scope: map<nat, ValType>)
    returns (env': Env)
    requires !IsValue(i) && Ready(cx, i, args, us, ops, st, env)
    requires InScope(args, us, scope) && LocalsInScope(cx, scope) && AboveLocals(cx, args)
    ensures
      var s := StraightStmt(i, args, d);
      && |s| <= 1 && (s != [] ==> IsPlain(s[0])) && (Peeks(i) ==> |args| > 0)
      && StmtDone(cx, i, args, d, us, env, env', Straight(i, ops, st))
      && (Straight(i, ops, st).Effect?
         ==> RunPlain(s, scope, env, st.store) == Some((env', Straight(i, ops, st).st.store)))
      && (Faults(Straight(i, ops, st)) ==> RunPlain(s, scope, env, st.store) == None)
  {
    StmtIsPlain(i, args, d);
    env' := env;
    if i.LocalSet? || i.LocalTee? {
      env' := env[i.x := ops[0]];
      LocalStmt(cx, i, args, us, ops, st, env, scope);
    } else if i.GlobalSet? {
      GlobalStmt(cx, i, args, us, ops, st, env);
    } else if i.StoreInt? {
      StoreStmt(cx, i, args, us, ops, st, env);
    } else if i.Drop? {
      assert Holds(env, args[0], ops[0]);
    }
  }

  lemma LocalStmt(cx: Context, i: Instr, args: seq<nat>, us: seq<ValType>, ops: seq<Val>, st: State, env: Env,
                  scope: map<nat, ValType>)
    requires (i.LocalSet? || i.LocalTee?) && Ready(cx, i, args, us, ops, st, env)
    requires LocalsInScope(cx, scope) && AboveLocals(cx, args)
    ensures i.x < |cx.locals| && us == [cx.locals[i.x]]
    ensures Straight(i, ops, st).Effect?
    ensures Straight(i, ops, st).st == st.(locals := st.locals[i.x := ops[0]])
    ensures LocalsHeld(cx, Straight(i, ops, st).st, env[i.x := ops[0]])
    ensures Plain(Assign(Old(i.x), Var(args[0])), scope, env, st.store) == Some((env[i.x := ops[0]], st.store))
  {
    hide Pow2, ValidStore;
    assert us == [cx.locals[i.x]];
    assert Holds(env, args[0], ops[0]);
    VarYields(args[0], env, st.store, ops[0], us[0]);
  }

  lemma GlobalStmt(cx: Context, i: Instr, args: seq<nat>, us: seq<ValType>, ops: seq<Val>, st: State, env: Env)
    requires i.GlobalSet? && Ready(cx, i, args, us, ops, st, env)
    ensures Straight(i, ops, st).Effect? && Straight(i, ops, st).st.locals == st.locals
      && Straight(i, ops, st).out == []
    ensures ValidStore(cx.m, Straight(i, ops, st).st.store)
    ensures Plain(AssignGlobal(i.x, Var(args[0])), map[], env, st.store) == Some((env, Straight(i, ops, st).st.store))
  {
    hide Pow2;
    assert us == [cx.m.globals[i.x]];
    assert Holds(env, args[0], ops[0]);
    assert Typed(st.store.globals[i.x], cx.m.globals[i.x]);
    VarYields(args[0], env, st.store, ops[0], us[0]);
  }

  lemma StoreStmt(cx: Context, i: Instr, args: seq<nat>, us: seq<ValType>, ops: seq<Val>, st: State, env: Env)
    requires i.StoreInt? && Ready(cx, i, args, us, ops, st, env)
    ensures
      var e, r := Straight(i, ops, st), Plain(StraightStmt(i, args, Old(0))[0], map[], env, st.store);
      if e.NoEffect? then e.why in {Trapped, Wrapped} && (Faults(e) ==> r == None)
      else e.out == [] && e.st.locals == st.locals && ValidStore(cx.m, e.st.store) && r == Some((env, e.st.store))
  {
    hide Pow2, LocalsHeld, Eval, Address, StoredExpr, Bytes;
    assert us == [I32, i.ty];
    assert Holds(env, args[0], ops[0]) && Holds(env, args[1], ops[1]);
    if ops[0].n + i.offset + i.bytes <= |st.store.mem| {
      AddressCorrect(args[0], i.offset, ops[0].n, env, st.store);
      StoreCorrect(i.ty, i.bytes, args[1], ops[1].n, env, st.store);
    } else {
      assert i.offset < Pow2(32) && ops[0].n < Pow2(32);
      AddressWraps(args[0], i.offset, ops[0].n, env, st.store);
    }
  }
}
