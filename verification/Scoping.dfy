/**
 Names in emitted code: every variable is declared once, and every reference lies inside the braces of
 its declaration, after it.
 */
module Scoping {
  import opened Options
  import opened Wasm
  import opened CLang
  import opened Emitted
  import opened Translator
  import opened Allocator
  import opened CodeSound
  import opened Statements

  // ---------------------------------------------------------------- references

  function ExprVars(e: CExpr): set<nat> {
    match e
    case Var(v) => {v}
    case NotE(a) => ExprVars(a)
    case NegE(a) => ExprVars(a)
    case Cast(_, a) => ExprVars(a)
    case BinE(_, a, b) => ExprVars(a) + ExprVars(b)
    case CondE(c, a, b) => ExprVars(c) + ExprVars(a) + ExprVars(b)
    case MemByte(a) => ExprVars(a)
    case LoadFn(_, a) => ExprVars(a)
    case _ => {}
  }

  function DstVars(d: Dst): set<nat> { if d.Old? then {d.v} else {} }

  /** The variables a statement reads, or assigns without declaring them. */
  function Refs(s: CStmt): set<nat> {
    match s
    case Assign(d, e) => DstVars(d) + ExprVars(e)
    case AssignVia(d, via, e) => DstVars(d) + {via} + ExprVars(e)
    case AssignGlobal(_, e) => ExprVars(e)
    case StoreBytes(_, a, e) => ExprVars(a) + ExprVars(e)
    case Discard(v) => {v}
    case CallTo(to, _, args) => (if to.Some? then DstVars(to.value) else {}) + (set v | v in args)
    case IfOpen(c) => {c}
    case Switch(c, _, _) => {c}
    case Ret(v) => if v.Some? then {v.value} else {}
    case _ => {}
  }

  predicate StmtScoped(s: CStmt, scope: map<nat, ValType>) {
    Refs(s) <= scope.Keys && (Declares(s).Some? ==> Declares(s).value.0 !in scope)
  }

  /** Every statement refers to names in scope only, and declares none that is. */
  predicate Scoped(sc: Scope, code: seq<CStmt>)
    decreases code
  {
    code == [] || (StmtScoped(code[0], Visible(sc)) && Scoped(ScopeStep(sc, code[0]), code[1..]))
  }

  lemma {:induction false} ScopedConcat(sc: Scope, a: seq<CStmt>, b: seq<CStmt>)
    ensures ScopeFold(sc, a + b) == ScopeFold(ScopeFold(sc, a), b)
    ensures Scoped(sc, a + b) <==> Scoped(sc, a) && Scoped(ScopeFold(sc, a), b)
    decreases a
  {
    if a == [] {
      assert a + b == b;
    } else {
      assert (a + b)[0] == a[0] && (a + b)[1..] == a[1..] + b;
      ScopedConcat(ScopeStep(sc, a[0]), a[1..], b);
    }
  }

  lemma ScopeOne(sc: Scope, s: CStmt)
    ensures ScopeFold(sc, [s]) == ScopeStep(sc, s)
    ensures Scoped(sc, [s]) <==> StmtScoped(s, Visible(sc))
  {
    assert [s][1..] == [];
  }

  lemma VisibleTop(sc: Scope, m: map<nat, ValType>)
    ensures Visible(sc + [m]) == Visible(sc) + m
  {
    assert (sc + [m])[..|sc|] == sc;
  }

  // ---------------------------------------------------------------- what stays in view

  predicate TypesAgree(g: Gen, scope: map<nat, ValType>) {
    forall v | v in scope :: v < |g.types| && g.types[v] == scope[v].Code()
  }

  predicate HasResult(cx: Context, g: Gen, b: BlockRec) {
    BlockType(cx.m.types, TypeIndexOf(g, b)).Some? && BlockType(cx.m.types, TypeIndexOf(g, b)).value.results != []
  }

  /** The variables code may still name: locals, the `n` top operands, the window, open results. */
  predicate InView(cx: Context, g: Gen, n: nat, scope: map<nat, ValType>) {
    && TypesAgree(g, scope)
    && n <= |g.stack| && ReuseTop(g) <= |g.reuse|
    && (forall x: nat | x < |cx.locals| :: x in scope)
    && (forall i | |g.stack| - n <= i < |g.stack| :: g.stack[i] in scope)
    && (forall j | ReuseTop(g) <= j < |g.reuse| :: g.reuse[j] in scope)
    && (forall k | 0 <= k < |g.blocks| && HasResult(cx, g, g.blocks[k]) ::
          g.blocks[k].lbl > 0 && g.blocks[k].lbl - 1 in scope)
  }

  predicate MapGrows(a: map<nat, ValType>, b: map<nat, ValType>, lo: nat, hi: nat) {
    && (forall v | v in a :: v in b && b[v] == a[v])
    && (forall v | v in b :: v in a || lo <= v < hi)
  }

  /** The scope grew by declarations of fresh variables at its top level. */
  predicate Deepens(sc: Scope, sc': Scope, lo: nat, hi: nat) {
    && |sc'| == |sc| > 0
    && sc'[..|sc| - 1] == sc[..|sc| - 1]
    && MapGrows(sc[|sc| - 1], sc'[|sc| - 1], lo, hi)
  }

  lemma DeepensTrans(a: Scope, b: Scope, c: Scope, lo: nat, mid: nat, hi: nat)
    requires Deepens(a, b, lo, mid) && Deepens(b, c, mid, hi) && lo <= mid <= hi
    ensures Deepens(a, c, lo, hi)
  {
  }

  lemma DeepensWeaken(a: Scope, b: Scope, lo: nat, hi: nat, lo': nat, hi': nat)
    requires Deepens(a, b, lo, hi) && lo' <= lo && hi <= hi'
    ensures Deepens(a, b, lo', hi')
  {
  }

  lemma InViewGrows(cx: Context, g: Gen, g': Gen, n: nat, a: map<nat, ValType>, b: map<nat, ValType>)
    requires Sound(cx, g) && InView(cx, g, n, a) && TypesAgree(g', b)
    requires Grows(g, g') && g'.stack == g.stack && g'.reuse == g.reuse && g'.blocks == g.blocks
    requires forall v | v in a :: v in b
    ensures InView(cx, g', n, b)
  {
    forall k | 0 <= k < |g.blocks| ensures HasResult(cx, g', g.blocks[k]) == HasResult(cx, g, g.blocks[k]) {
      BlockGrows(cx, g, g', g.blocks[k]);
    }
  }

  // ---------------------------------------------------------------- popping and pushing

  lemma PopView(cx: Context, g: Gen, n: nat, k: nat, scope: map<nat, ValType>)
    requires Sound(cx, g) && InView(cx, g, n, scope) && k <= n && StackFloor(g) + n <= |g.stack|
    ensures InView(cx, PopN(g, k).0, n - k, scope)
    ensures forall v | v in PopN(g, k).1 :: v in scope
  {
    PopNShape(g, k);
    var (g', vs) := PopN(g, k);
    forall v | v in vs ensures v in scope {
      var i :| 0 <= i < |vs| && vs[i] == v;
      assert g.stack[|g.stack| - k + i] == v;
    }
    forall j | ReuseTop(g') <= j < |g'.reuse| ensures g'.reuse[j] in scope {
      if j < |g.reuse| {
        assert g'.reuse[j] == g.reuse[j];
      }
    }
    forall b | b in g.blocks ensures HasResult(cx, g', b) == HasResult(cx, g, b) {
    }
  }

  /** The scope after a value is put in `d`. */
  function Entered(sc: Scope, d: Dst): Scope
    requires |sc| > 0
  {
    if d.New? then sc[..|sc| - 1] + [sc[|sc| - 1][d.v := d.ty]] else sc
  }

  /** Pushing declares a fresh variable or takes one that is in view. */
  lemma PushView(cx: Context, g: Gen, n: nat, ty: ValType, sc: Scope)
    requires Sound(cx, g) && InView(cx, g, n, Visible(sc)) && |sc| > 0
    ensures
      var (g', d) := StackPush(g, ty);
      && InView(cx, g', n + 1, Visible(Entered(sc, d))) && Deepens(sc, Entered(sc, d), |g.types|, |g'.types|)
      && (if d.New? then d.v !in Visible(sc) && d.ty == ty else d.v in Visible(sc))
  {
    hide StackPush, Sound, InView, Visible, Deepens, HasType, Kept, TypesAgree, Entered;
    var (g', d) := StackPush(g, ty);
    PushOk(cx, g, ty);
    PushGrows(cx, g, ty);
    InViewTypes(cx, g, n, Visible(sc));
    if d.New? {
      NotYet(g, Visible(sc));
      DeclareTop(sc, d);
      PushNewView(cx, g, g', n, d.v, ty, Visible(sc));
    } else {
      PushOldView(cx, g, n, ty, Visible(sc));
      assert Entered(sc, d) == sc by { EnteredOld(sc, d); }
      DeepensSelf(sc, |g.types|, |g.types|);
    }
  }

  lemma PushGrows(cx: Context, g: Gen, ty: ValType)
    requires Sound(cx, g)
    ensures var (g', d) := StackPush(g, ty);
      && Grows(g, g') && g'.blocks == g.blocks && g'.stack == g.stack + [d.v]
      && (d.New? ==> g'.reuse == g.reuse && d.v == |g.types| && d.ty == ty && g'.types == g.types + [ty.Code()]
                     && |g'.types| == d.v + 1)
      && (d.Old? ==> g'.types == g.types)
  {
    PushOk(cx, g, ty);
  }

  lemma InViewTypes(cx: Context, g: Gen, n: nat, scope: map<nat, ValType>)
    requires InView(cx, g, n, scope)
    ensures TypesAgree(g, scope)
  {
  }

  lemma NotYet(g: Gen, scope: map<nat, ValType>)
    requires TypesAgree(g, scope)
    ensures |g.types| !in scope
  {
  }

  lemma DeepensSelf(sc: Scope, lo: nat, hi: nat)
    requires |sc| > 0
    ensures Deepens(sc, sc, lo, hi)
  {
  }

  lemma EnteredOld(sc: Scope, d: Dst)
    requires |sc| > 0 && d.Old?
    ensures Entered(sc, d) == sc
  {
  }

  lemma DeclareTop(sc: Scope, d: Dst)
    requires |sc| > 0 && d.New? && d.v !in Visible(sc)
    ensures Visible(Entered(sc, d)) == Visible(sc)[d.v := d.ty] && Deepens(sc, Entered(sc, d), d.v, d.v + 1)
  {
    hide Visible;
    var k := |sc| - 1;
    VisibleTop(sc[..k], sc[k][d.v := d.ty]);
    assert sc == sc[..k] + [sc[k]];
    VisibleTop(sc[..k], sc[k]);
  }

  lemma PushNewView(cx: Context, g: Gen, g': Gen, n: nat, v: nat, ty: ValType, scope: map<nat, ValType>)
    requires Sound(cx, g) && InView(cx, g, n, scope) && v == |g.types|
    requires Grows(g, g') && g'.types == g.types + [ty.Code()]
    requires g'.stack == g.stack + [v] && g'.reuse == g.reuse && g'.blocks == g.blocks
    ensures InView(cx, g', n + 1, scope[v := ty])
  {
    forall k | 0 <= k < |g.blocks| ensures HasResult(cx, g', g.blocks[k]) == HasResult(cx, g, g.blocks[k]) {
      BlockGrows(cx, g, g', g.blocks[k]);
    }
  }

  lemma PushOldView(cx: Context, g: Gen, n: nat, ty: ValType, scope: map<nat, ValType>)
    requires Sound(cx, g) && InView(cx, g, n, scope) && StackPush(g, ty).1.Old?
    ensures InView(cx, StackPush(g, ty).0, n + 1, scope) && StackPush(g, ty).1.v in scope
  {
    var j := FindFree(g, ty, ReuseTop(g));
    var g' := StackPush(g, ty).0;
    SwapRemoveParts(g.reuse, j);
    assert g'.reuse == SwapRemove(g.reuse, j) && g'.stack == g.stack + [g.reuse[j]];
    hide StackPush, Sound, FindFree, SwapRemove;
    forall b | b in g.blocks ensures HasResult(cx, g', b) == HasResult(cx, g, b) {
    }
  }

  // ---------------------------------------------------------------- straight-line instructions

  predicate AllIn(vs: seq<nat>, scope: map<nat, ValType>) {
    forall i | 0 <= i < |vs| :: vs[i] in scope
  }

  lemma PushRefs(i: Instr, args: seq<nat>, d: Dst, scope: map<nat, ValType>)
    requires IsStraight(i) && |args| == Operands(i) && MustPush(i)
    requires AllIn(args, scope) && (i.LocalGet? ==> i.x in scope)
    requires if d.New? then d.v !in scope else d.v in scope
    ensures
      var out := StraightStmt(i, args, d);
      && |out| == 1 && StmtScoped(out[0], scope) && Declares(out[0]) == DeclaresDst(d)
      && !out[0].IfOpen? && !out[0].ElseOpen? && !out[0].Close?
  {
    ValueForm(i, args, d);
    ValueRefs(i, args, scope);
    hide StraightStmt, ExprVars, ValueExpr, MustPush, Peeks;
    assert i.Compare? ==> args[0] in scope;
  }

  /** A value is computed from the operands, or from the local that is read. */
  lemma ValueRefs(i: Instr, args: seq<nat>, scope: map<nat, ValType>)
    requires IsValue(i) && |args| == Operands(i)
    requires AllIn(args, scope) && (i.LocalGet? ==> i.x in scope)
    ensures forall v | v in ExprVars(ValueExpr(i, args)) :: v in scope
  {
    hide BinaryExpr, CompareExpr, LoadExpr;
    match i
    case LoadInt(_, bytes, signed, _, offset) => LoadRefs(bytes, signed, args[0], offset);
    case Compare(ty, rel) => CompareRefs(ty, rel, args[0], args[1]);
    case Binary(ty, op) => BinaryRefs(ty, op, args[0], args[1]);
    case Select =>
      assert ExprVars(CondE(Var(args[2]), Var(args[0]), Var(args[1]))) == {args[2], args[0], args[1]};
    case _ => UnaryRefs(i, args, scope);
  }

  lemma UnaryRefs(i: Instr, args: seq<nat>, scope: map<nat, ValType>)
    requires IsValue(i) && |args| == Operands(i) && !i.LoadInt? && !i.Compare? && !i.Binary? && !i.Select?
    requires AllIn(args, scope) && (i.LocalGet? ==> i.x in scope)
    ensures forall v | v in ExprVars(ValueExpr(i, args)) :: v in scope
  {
    hide BinaryExpr, CompareExpr, LoadExpr;
    if Operands(i) == 1 {
      CastRefs(CInt, args[0]);
      CastRefs(Unsigned(32), args[0]);
      if i.Extend? {
        CastRefs(CType(32, i.signed), args[0]);
      } else if i.SignExt? {
        CastRefs(CType(i.bits, true), args[0]);
      }
    }
  }

  lemma OtherRefs(i: Instr, args: seq<nat>, scope: map<nat, ValType>)
    requires IsStraight(i) && |args| == Operands(i) && !MustPush(i)
    requires AllIn(args, scope) && (i.LocalSet? || i.LocalTee? ==> i.x in scope)
    ensures
      var out := StraightStmt(i, args, Old(0));
      && |out| <= 1 && (out != [] ==> StmtScoped(out[0], scope) && Declares(out[0]) == None)
      && (out != [] ==> !out[0].IfOpen? && !out[0].ElseOpen? && !out[0].Close?)
  {
    if IsValue(i) {
      ValueForm(i, args, Old(0));
      ValueRefs(i, args, scope);
      assert args[0] in scope;
    } else if i.StoreInt? {
      LoadRefs(0, false, args[0], i.offset);
      CastRefs(Unsigned(8 * i.bytes), args[1]);
    }
  }

  lemma BinaryRefs(ty: ValType, op: IntOp, l: nat, r: nat)
    ensures ExprVars(BinaryExpr(ty, op, l, r)) <= {l, r}
  {
    var mask := Lit(CInt, ty.Width() - 1);
    var count := BinE(CAnd, Var(r), mask);
    var back := BinE(CAnd, NegE(Var(r)), mask);
    var sl, sr := Cast(SignedType(ty), Var(l)), Cast(SignedType(ty), Var(r));
    assert ExprVars(mask) == {} && ExprVars(Var(r)) == {r} && ExprVars(Var(l)) == {l};
    assert ExprVars(NegE(Var(r))) == {r} && ExprVars(count) == {r} && ExprVars(back) == {r};
    assert ExprVars(sl) == {l} && ExprVars(sr) == {r};
    BinRefs(CShl, Var(l), count);
    BinRefs(CShr, Var(l), count);
    BinRefs(CShl, Var(l), back);
    BinRefs(CShr, Var(l), back);
    BinRefs(CDiv, sl, sr);
    BinRefs(CRem, sl, sr);
    BinRefs(CShr, sl, count);
    BinRefs(COr, BinE(CShl, Var(l), count), BinE(CShr, Var(l), back));
    BinRefs(COr, BinE(CShr, Var(l), count), BinE(CShl, Var(l), back));
  }

  lemma BinRefs(op: COp, a: CExpr, b: CExpr)
    ensures ExprVars(BinE(op, a, b)) == ExprVars(a) + ExprVars(b)
  {
  }

  lemma CastRefs(t: CType, v: nat)
    ensures ExprVars(Var(v)) == {v} && ExprVars(Cast(t, Var(v))) == {v} && ExprVars(NotE(Var(v))) == {v}
  {
    assert ExprVars(Var(v)) == {v};
  }

  lemma CompareRefs(ty: ValType, rel: IntRel, l: nat, r: nat)
    ensures ExprVars(CompareExpr(ty, rel, l, r)) == {l, r}
  {
    var sl, sr := Cast(SignedType(ty), Var(l)), Cast(SignedType(ty), Var(r));
    CastRefs(SignedType(ty), l);
    CastRefs(SignedType(ty), r);
    BinRefs(RelOp(rel), sl, sr);
    BinRefs(RelOp(rel), Var(l), Var(r));
  }

  lemma LoadRefs(bytes: nat, signed: bool, base: nat, offset: nat)
    ensures ExprVars(Address(base, offset)) == {base}
    ensures ExprVars(LoadExpr(bytes, signed, base, offset)) == {base}
  {
    BinRefs(CAdd, Var(base), Lit(Unsigned(32), offset));
    assert ExprVars(MemByte(Address(base, offset))) == {base};
    assert ExprVars(LoadFn(bytes, Address(base, offset))) == {base};
  }

  /** What an emission does to the scope. */
  predicate ScopedAfter(cx: Context, g: Gen, sc: Scope, e: Emission, r: Check) {
    && e.Emit?
    && Scoped(sc, e.out)
    && Deepens(sc, ScopeFold(sc, e.out), |g.types|, |e.g.types|)
    && TypesAgree(e.g, Visible(ScopeFold(sc, e.out)))
    && (r.Live? ==> InView(cx, e.g, |r.ts|, Visible(ScopeFold(sc, e.out))))
  }

  lemma ArgsInView(cx: Context, g: Gen, i: Instr, n: nat, scope: map<nat, ValType>)
    requires InView(cx, g, n, scope) && Operands(i) <= n
    ensures AllIn(Args(g, i), scope)
  {
  }

  lemma LocalIndex(cx: Context, i: Instr, ts: seq<ValType>)
    requires IsStraight(i) && CheckStraight(cx, i, ts).Live?
    ensures i.LocalGet? || i.LocalSet? || i.LocalTee? ==> i.x < |cx.locals|
  {
  }

  lemma StraightScoped(cx: Context, g: Gen, i: Instr, ts: seq<ValType>, sc: Scope)
    requires Sound(cx, g) && Ops(g, ts) && IsStraight(i) && CheckStraight(cx, i, ts).Live?
    requires InView(cx, g, |ts|, Visible(sc)) && |sc| > 0
    ensures ScopedAfter(cx, g, sc, EmitStraight(cx, g, i), CheckStraight(cx, i, ts))
  {
    CheckShape(cx, g, i, ts);
    LocalIndex(cx, i, ts);
    hide EmitStraight, Sound, CheckStraight, InView;
    StraightScopedIn(cx, g, i, |ts|, sc, CheckStraight(cx, i, ts));
  }

  /** The emission ends with `n` operands in view. */
  predicate ScopedTo(cx: Context, g: Gen, sc: Scope, e: Emission, n: nat) {
    && e.Emit?
    && Scoped(sc, e.out)
    && Deepens(sc, ScopeFold(sc, e.out), |g.types|, |e.g.types|)
    && InView(cx, e.g, n, Visible(ScopeFold(sc, e.out)))
  }

  lemma ScopedToAfter(cx: Context, g: Gen, sc: Scope, e: Emission, n: nat, r: Check)
    requires ScopedTo(cx, g, sc, e, n) && r.Live? && |r.ts| == n
    ensures ScopedAfter(cx, g, sc, e, r)
  {
  }

  lemma ScopedMade(cx: Context, g: Gen, sc: Scope, e: Emission, n: nat, sc': Scope)
    requires e.Emit? && Scoped(sc, e.out) && ScopeFold(sc, e.out) == sc' && Deepens(sc, sc', |g.types|, |e.g.types|)
    requires InView(cx, e.g, n, Visible(sc'))
    ensures ScopedTo(cx, g, sc, e, n)
  {
  }

  lemma StraightScopedIn(cx: Context, g: Gen, i: Instr, n: nat, sc: Scope, r: Check)
    requires Sound(cx, g) && StackFloor(g) + n <= |g.stack| && IsStraight(i)
    requires Operands(i) <= n && (Peeks(i) ==> Operands(i) > 0 && !MustPush(i))
    requires MustPush(i) ==> Pushes(cx, g, i).Some?
    requires i.LocalGet? || i.LocalSet? || i.LocalTee? ==> i.x < |cx.locals|
    requires InView(cx, g, n, Visible(sc)) && |sc| > 0
    requires r.Live? && |r.ts| == n - Operands(i) + (if MustPush(i) || Peeks(i) then 1 else 0)
    ensures ScopedAfter(cx, g, sc, EmitStraight(cx, g, i), r)
  {
    hide *;
    ArgsInView(cx, g, i, n, Visible(sc));
    InViewLocals(cx, g, n, Visible(sc));
    if MustPush(i) {
      StraightPushScoped(cx, g, i, n, sc);
      ScopedToAfter(cx, g, sc, EmitStraight(cx, g, i), n - Operands(i) + 1, r);
    } else {
      StraightPopScoped(cx, g, i, n, sc);
      ScopedToAfter(cx, g, sc, EmitStraight(cx, g, i), n - Operands(i) + (if Peeks(i) then 1 else 0), r);
    }
  }

  lemma InViewLocals(cx: Context, g: Gen, n: nat, scope: map<nat, ValType>)
    requires InView(cx, g, n, scope)
    ensures forall x: nat | x < |cx.locals| :: x in scope
  {
  }

  /** Emitting the one statement `s` from a state in view. */
  lemma OneScoped(sc: Scope, out: seq<CStmt>, d: Dst)
    requires |sc| > 0 && |out| == 1 && StmtScoped(out[0], Visible(sc)) && Declares(out[0]) == DeclaresDst(d)
    requires !out[0].IfOpen? && !out[0].ElseOpen? && !out[0].Close?
    ensures Scoped(sc, out) && ScopeFold(sc, out) == Entered(sc, d)
  {
    assert out == [out[0]];
    ScopeOne(sc, out[0]);
  }

  lemma StraightPushScoped(cx: Context, g: Gen, i: Instr, n: nat, sc: Scope)
    requires Sound(cx, g) && StackFloor(g) + n <= |g.stack| && IsStraight(i)
    requires Operands(i) <= n && MustPush(i) && !Peeks(i) && Pushes(cx, g, i).Some?
    requires InView(cx, g, n, Visible(sc)) && |sc| > 0
    requires AllIn(Args(g, i), Visible(sc)) && (i.LocalGet? ==> i.x in Visible(sc))
    ensures ScopedTo(cx, g, sc, EmitStraight(cx, g, i), n - Operands(i) + 1)
  {
    hide *;
    InViewStack(cx, g, n, Visible(sc));
    PushForm(cx, g, i);
    var ty := Pushes(cx, g, i).value;
    var d := StackPush(PopN(g, Operands(i)).0, ty).1;
    PopPushView(cx, g, Operands(i), n, ty, sc);
    PushRefs(i, Args(g, i), d, Visible(sc));
    OneScoped(sc, StraightStmt(i, Args(g, i), d), d);
    ScopedMade(cx, g, sc, EmitStraight(cx, g, i), n - Operands(i) + 1, Entered(sc, d));
  }

  lemma InViewStack(cx: Context, g: Gen, n: nat, scope: map<nat, ValType>)
    requires InView(cx, g, n, scope)
    ensures n <= |g.stack|
  {
  }

  lemma PopPushView(cx: Context, g: Gen, k: nat, n: nat, ty: ValType, sc: Scope)
    requires Sound(cx, g) && StackFloor(g) + n <= |g.stack| && k <= n
    requires InView(cx, g, n, Visible(sc)) && |sc| > 0
    ensures
      var (g', d) := StackPush(PopN(g, k).0, ty);
      && InView(cx, g', n - k + 1, Visible(Entered(sc, d))) && Deepens(sc, Entered(sc, d), |g.types|, |g'.types|)
      && (if d.New? then d.v !in Visible(sc) && d.ty == ty else d.v in Visible(sc))
  {
    hide *;
    InViewStack(cx, g, n, Visible(sc));
    PopView(cx, g, n, k, Visible(sc));
    PopNOk(cx, g, k);
    PopNShape(g, k);
    PushView(cx, PopN(g, k).0, n - k, ty, sc);
  }

  lemma StraightPopScoped(cx: Context, g: Gen, i: Instr, n: nat, sc: Scope)
    requires Sound(cx, g) && StackFloor(g) + n <= |g.stack| && IsStraight(i)
    requires Operands(i) <= n && !MustPush(i) && (Peeks(i) ==> Operands(i) > 0)
    requires InView(cx, g, n, Visible(sc)) && |sc| > 0
    requires AllIn(Args(g, i), Visible(sc)) && (i.LocalSet? || i.LocalTee? ==> i.x in Visible(sc))
    ensures ScopedTo(cx, g, sc, EmitStraight(cx, g, i), n - Operands(i) + (if Peeks(i) then 1 else 0))
  {
    hide *;
    InViewStack(cx, g, n, Visible(sc));
    PopForm(cx, g, i);
    DeepensSelf(sc, |g.types|, |g.types|);
    PopView(cx, g, n, Popped(i), Visible(sc));
    OtherScoped(i, Args(g, i), sc);
    ScopedMade(cx, g, sc, EmitStraight(cx, g, i), n - Operands(i) + (if Peeks(i) then 1 else 0), sc);
  }

  lemma OtherScoped(i: Instr, args: seq<nat>, sc: Scope)
    requires IsStraight(i) && |args| == Operands(i) && !MustPush(i) && |sc| > 0
    requires AllIn(args, Visible(sc)) && (i.LocalSet? || i.LocalTee? ==> i.x in Visible(sc))
    ensures var out := StraightStmt(i, args, Old(0)); Scoped(sc, out) && ScopeFold(sc, out) == sc
  {
    OtherRefs(i, args, Visible(sc));
    hide StraightStmt;
    var out := StraightStmt(i, args, Old(0));
    if out != [] {
      OneScoped(sc, out, Old(0));
    }
  }
}
