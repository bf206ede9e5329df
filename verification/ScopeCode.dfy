/** Every reference in emitted code is inside the braces of its declaration: the whole translation. */
module ScopeCode {
  import opened Options
  import opened Wasm
  import opened CLang
  import opened Translator
  import opened Allocator
  import opened CodeSound
  import opened Forms
  import opened Scoping

  // ---------------------------------------------------------------- statements without declarations

  predicate Flat(s: CStmt, scope: map<nat, ValType>) {
    Refs(s) <= scope.Keys && Declares(s).None? && !s.IfOpen? && !s.ElseOpen? && !s.Close?
  }

  predicate AllFlat(ss: seq<CStmt>, scope: map<nat, ValType>) {
    forall k | 0 <= k < |ss| :: Flat(ss[k], scope)
  }

  lemma {:induction false} FlatScoped(sc: Scope, ss: seq<CStmt>)
    requires AllFlat(ss, Visible(sc))
    ensures Scoped(sc, ss) && ScopeFold(sc, ss) == sc
    decreases ss
  {
    if ss != [] {
      assert Flat(ss[0], Visible(sc));
      assert ScopeStep(sc, ss[0]) == sc;
      FlatScoped(sc, ss[1..]);
    }
  }

  lemma VisibleEmpty(sc: Scope)
    ensures Visible(sc + [map[]]) == Visible(sc)
  {
    VisibleTop(sc, map[]);
  }

  lemma OpenScoped(sc: Scope, c: nat)
    requires c in Visible(sc)
    ensures Scoped(sc, [IfOpen(c)]) && ScopeFold(sc, [IfOpen(c)]) == sc + [map[]]
  {
    ScopeOne(sc, IfOpen(c));
  }

  lemma CloseScoped(sc: Scope, top: map<nat, ValType>)
    ensures Scoped(sc + [top], [Close]) && ScopeFold(sc + [top], [Close]) == sc
    ensures Scoped(sc + [top], [ElseOpen]) && ScopeFold(sc + [top], [ElseOpen]) == sc + [map[]]
  {
    ScopeOne(sc + [top], Close);
    ScopeOne(sc + [top], ElseOpen);
  }

  lemma ArmScoped(sc: Scope, c: nat, ss: seq<CStmt>)
    requires c in Visible(sc) && AllFlat(ss, Visible(sc))
    ensures Scoped(sc, [IfOpen(c)] + ss + [Close]) && ScopeFold(sc, [IfOpen(c)] + ss + [Close]) == sc
  {
    hide Scoped, ScopeFold, Visible, AllFlat;
    OpenScoped(sc, c);
    VisibleEmpty(sc);
    FlatScoped(sc + [map[]], ss);
    CloseScoped(sc, map[]);
    ScopedConcat(sc, [IfOpen(c)], ss);
    ScopedConcat(sc, [IfOpen(c)] + ss, [Close]);
  }

  // ---------------------------------------------------------------- transfers and calls

  lemma PopOneView(cx: Context, g: Gen, n: nat, scope: map<nat, ValType>)
    requires Sound(cx, g) && InView(cx, g, n, scope) && 0 < n && StackFloor(g) + n <= |g.stack|
    ensures |g.stack| > 0 && InView(cx, StackPop(g).0, n - 1, scope) && Top(g) in scope
  {
    PopView(cx, g, n, 1, scope);
    assert PopN(StackPop(g).0, 0) == (StackPop(g).0, []);
    assert PopN(g, 1).0 == StackPop(g).0;
  }

  lemma ResultInView(cx: Context, g: Gen, n: nat, l: nat, scope: map<nat, ValType>)
    requires Sound(cx, g) && InView(cx, g, n, scope) && l < |g.blocks|
    ensures |GenLabels(cx, g)| == |g.blocks|
    ensures GenLabels(cx, g)[l].results != [] ==> BlockAt(g, l).lbl > 0 && BlockAt(g, l).lbl - 1 in scope
  {
    assert HasResult(cx, g, g.blocks[|g.blocks| - 1 - l]) <==> GenLabels(cx, g)[l].results != [];
  }

  /** An emission of statements that neither declare nor leave an operand in view. */
  lemma DeadFlat(cx: Context, g: Gen, sc: Scope, e: Emission)
    requires |sc| > 0 && TypesAgree(g, Visible(sc)) && e.Emit? && e.g.types == g.types && AllFlat(e.out, Visible(sc))
    ensures ScopedAfter(cx, g, sc, e, Dead)
  {
    FlatScoped(sc, e.out);
    DeepensSelf(sc, |g.types|, |g.types|);
  }

  lemma BrScoped(cx: Context, g: Gen, l: nat, ts: seq<ValType>, sc: Scope)
    requires Sound(cx, g) && Ops(g, ts) && CheckInstr(cx, GenLabels(cx, g), Br(l), ts) != Bad
    requires InView(cx, g, |ts|, Visible(sc)) && |sc| > 0
    ensures ScopedAfter(cx, g, sc, EmitPlain(cx, g, Br(l)), CheckInstr(cx, GenLabels(cx, g), Br(l), ts))
  {
    hide Sound, Visible, InView, EmitBr, EmitPlain, CheckInstr, GenLabels, ScopedAfter, TypesAgree, Ops;
    LabelCount(cx, g);
    BrCase(cx, g, GenLabels(cx, g), l, ts);
    BrForm(cx, g, l, ts);
    OpsFit(g, ts);
    InViewTypes(cx, g, |ts|, Visible(sc));
    ResultInView(cx, g, |ts|, l, Visible(sc));
    if GenLabels(cx, g)[l].Types() != [] {
      PopOneView(cx, g, |ts|, Visible(sc));
    }
    DeadFlat(cx, g, sc, EmitBr(cx, g, l));
  }

  lemma BrIfScoped(cx: Context, g: Gen, l: nat, ts: seq<ValType>, sc: Scope)
    requires Sound(cx, g) && Ops(g, ts) && CheckInstr(cx, GenLabels(cx, g), BrIf(l), ts) != Bad
    requires InView(cx, g, |ts|, Visible(sc)) && |sc| > 0
    ensures ScopedAfter(cx, g, sc, EmitPlain(cx, g, BrIf(l)), CheckInstr(cx, GenLabels(cx, g), BrIf(l), ts))
  {
    hide Sound, Visible, InView, EmitBrIf, EmitPlain, CheckInstr, GenLabels, ScopedAfter, TypesAgree, Ops,
         Scoped, ScopeFold;
    LabelCount(cx, g);
    BrIfCase(cx, g, GenLabels(cx, g), l, ts);
    BrIfForm(cx, g, l, ts);
    OpsFit(g, ts);
    ResultInView(cx, g, |ts|, l, Visible(sc));
    PopOneView(cx, g, |ts|, Visible(sc));
    var lbl := BlockAt(g, l).lbl;
    if GenLabels(cx, g)[l].Types() == [] {
      ArmScoped(sc, Top(g), [Goto(lbl)]);
    } else {
      SecondInView(cx, g, |ts|, Visible(sc));
      ArmScoped(sc, Top(g), [Assign(Old(lbl - 1), Var(g.stack[|g.stack| - 2])), Goto(lbl)]);
    }
    LiveSame(cx, g, sc, EmitBrIf(cx, g, l), ts[..|ts| - 1]);
  }

  lemma SecondInView(cx: Context, g: Gen, n: nat, scope: map<nat, ValType>)
    requires InView(cx, g, n, scope) && n > 1
    ensures |g.stack| > 1 && g.stack[|g.stack| - 2] in scope
  {
  }

  lemma LiveSame(cx: Context, g: Gen, sc: Scope, e: Emission, ts: seq<ValType>)
    requires e.Emit? && e.g.types == g.types && |sc| > 0 && Scoped(sc, e.out) && ScopeFold(sc, e.out) == sc
    requires InView(cx, e.g, |ts|, Visible(sc))
    ensures ScopedAfter(cx, g, sc, e, Live(ts))
  {
    DeepensSelf(sc, |g.types|, |g.types|);
  }

  lemma BrTableScoped(cx: Context, g: Gen, ls: seq<nat>, dflt: nat, ts: seq<ValType>, sc: Scope)
    requires Sound(cx, g) && Ops(g, ts) && CheckInstr(cx, GenLabels(cx, g), BrTable(ls, dflt), ts) != Bad
    requires InView(cx, g, |ts|, Visible(sc)) && |sc| > 0
    ensures ScopedAfter(cx, g, sc, EmitPlain(cx, g, BrTable(ls, dflt)),
        CheckInstr(cx, GenLabels(cx, g), BrTable(ls, dflt), ts))
  {
    hide Sound, Visible, InView, EmitPlain, CheckInstr, ScopedAfter, TypesAgree, Ops, GenLabels;
    LabelCount(cx, g);
    BrTableCase(cx, g, GenLabels(cx, g), ls, dflt, ts);
    OpsFit(g, ts);
    InViewTypes(cx, g, |ts|, Visible(sc));
    PopOneView(cx, g, |ts|, Visible(sc));
    DeadFlat(cx, g, sc, EmitBrTable(g, ls, dflt));
  }

  lemma ReturnScoped(cx: Context, g: Gen, ts: seq<ValType>, sc: Scope)
    requires GoodContext(cx) && Sound(cx, g) && Ops(g, ts) && CheckInstr(cx, GenLabels(cx, g), Return, ts) != Bad
    requires InView(cx, g, |ts|, Visible(sc)) && |sc| > 0
    ensures ScopedAfter(cx, g, sc, EmitPlain(cx, g, Return), CheckInstr(cx, GenLabels(cx, g), Return, ts))
  {
    hide *;
    ReturnCase(cx, g, GenLabels(cx, g), ts);
    SuffixFits(ts, cx.results);
    OpsFit(g, ts);
    ReturnFlat(cx, g, |ts|, Visible(sc));
    InViewTypes(cx, g, |ts|, Visible(sc));
    DeadFlat(cx, g, sc, EmitReturn(cx, g));
  }

  lemma ReturnFlat(cx: Context, g: Gen, n: nat, scope: map<nat, ValType>)
    requires GoodContext(cx) && Sound(cx, g) && InView(cx, g, n, scope) && |cx.results| <= n
      && StackFloor(g) + n <= |g.stack|
    ensures var e := EmitReturn(cx, g); e.Emit? && e.g.types == g.types && AllFlat(e.out, scope)
  {
    hide Sound, InView, ValidModule;
    if |cx.results| > 0 {
      PopOneView(cx, g, n, scope);
    }
  }

  lemma UnreachableScoped(cx: Context, g: Gen, ts: seq<ValType>, sc: Scope)
    requires Sound(cx, g) && InView(cx, g, |ts|, Visible(sc)) && |sc| > 0
    ensures ScopedAfter(cx, g, sc, EmitPlain(cx, g, Unreachable), CheckInstr(cx, GenLabels(cx, g), Unreachable, ts))
  {
    hide Sound, Visible, InView, EmitPlain, CheckInstr, ScopedAfter, TypesAgree, GenLabels;
    UnreachableCase(cx, g, GenLabels(cx, g), ts);
    InViewTypes(cx, g, |ts|, Visible(sc));
    DeadFlat(cx, g, sc, EmitPlain(cx, g, Unreachable));
  }

  lemma CallRefs(args: seq<nat>, to: Option<Dst>, f: nat, scope: map<nat, ValType>)
    requires forall v | v in args :: v in scope
    requires to.Some? ==> if to.value.New? then to.value.v !in scope else to.value.v in scope
    ensures StmtScoped(CallTo(to, f, args), scope)
  {
  }

  lemma CallScoped(cx: Context, g: Gen, f: nat, ts: seq<ValType>, sc: Scope)
    requires GoodContext(cx) && Sound(cx, g) && Ops(g, ts) && CheckInstr(cx, GenLabels(cx, g), Call(f), ts) != Bad
    requires InView(cx, g, |ts|, Visible(sc)) && |sc| > 0
    ensures ScopedAfter(cx, g, sc, EmitPlain(cx, g, Call(f)), CheckInstr(cx, GenLabels(cx, g), Call(f), ts))
  {
    hide *;
    CallCase(cx, g, GenLabels(cx, g), f, ts);
    SuffixFits(ts, cx.m.types[cx.m.funcs[f].ty].params);
    OpsFit(g, ts);
    CallStmtScoped(cx, g, f, |ts|, sc);
    var r := CheckCall(cx, f, ts);
    ScopedToAfter(cx, g, sc, EmitCall(cx, g, f), |r.ts|, r);
  }

  lemma SuffixFits(ts: seq<ValType>, us: seq<ValType>)
    requires EndsWith(ts, us)
    ensures |us| <= |ts|
  {
  }

  lemma CallStmtScoped(cx: Context, g: Gen, f: nat, n: nat, sc: Scope)
    requires Sound(cx, g) && StackFloor(g) + n <= |g.stack| && f < |cx.m.funcs| && cx.m.funcs[f].ty < |cx.m.types|
    requires |cx.m.types[cx.m.funcs[f].ty].params| <= n && |cx.m.types[cx.m.funcs[f].ty].results| <= 1
    requires InView(cx, g, n, Visible(sc)) && |sc| > 0
    ensures
      var ft := cx.m.types[cx.m.funcs[f].ty];
      ScopedTo(cx, g, sc, EmitCall(cx, g, f), n - |ft.params| + |ft.results|)
  {
    hide *;
    var ft := cx.m.types[cx.m.funcs[f].ty];
    var k := |ft.params|;
    CallForm(cx, g, f);
    PopView(cx, g, n, k, Visible(sc));
    var args := PopN(g, k).1;
    var e := EmitCall(cx, g, f);
    if ft.results == [] {
      CallRefs(args, None, f, Visible(sc));
      CallDeclares(None, f, args);
      OneScoped(sc, e.out, Old(0));
      PopNShape(g, k);
      LiveCall(cx, g, sc, e, n - k, Old(0));
    } else {
      PopPushView(cx, g, k, n, ft.results[0], sc);
      var d := StackPush(PopN(g, k).0, ft.results[0]).1;
      CallRefs(args, Some(d), f, Visible(sc));
      CallDeclares(Some(d), f, args);
      OneScoped(sc, e.out, d);
      ScopedMade(cx, g, sc, e, n - k + 1, Entered(sc, d));
    }
  }

  lemma CallDeclares(to: Option<Dst>, f: nat, args: seq<nat>)
    ensures Declares(CallTo(to, f, args)) == if to.Some? then DeclaresDst(to.value) else DeclaresDst(Old(0))
  {
  }

  lemma LiveCall(cx: Context, g: Gen, sc: Scope, e: Emission, n: nat, d: Dst)
    requires |sc| > 0 && d.Old? && e.Emit? && e.g.types == g.types && Scoped(sc, e.out)
      && ScopeFold(sc, e.out) == Entered(sc, d)
    requires InView(cx, e.g, n, Visible(sc))
    ensures ScopedTo(cx, g, sc, e, n)
  {
    EnteredOld(sc, d);
    DeepensSelf(sc, |g.types|, |g.types|);
  }

  lemma PlainScoped(cx: Context, g: Gen, i: Instr, ts: seq<ValType>, sc: Scope)
    requires GoodContext(cx) && Sound(cx, g) && Ops(g, ts) && !IsBlock(i)
    requires CheckInstr(cx, GenLabels(cx, g), i, ts) != Bad
    requires InView(cx, g, |ts|, Visible(sc)) && |sc| > 0
    ensures ScopedAfter(cx, g, sc, EmitPlain(cx, g, i), CheckInstr(cx, GenLabels(cx, g), i, ts))
  {
    hide Sound, Visible, InView, ScopedAfter, Ops, EmitStraight, CheckStraight, BlockOk, GenLabels, CheckInstr,
         IsStraight, IsBlock;
    if IsStraight(i) {
      StraightCase(cx, g, GenLabels(cx, g), i, ts);
      StraightScoped(cx, g, i, ts, sc);
    } else {
      ControlScoped(cx, g, i, ts, sc);
    }
  }

  lemma ControlScoped(cx: Context, g: Gen, i: Instr, ts: seq<ValType>, sc: Scope)
    requires GoodContext(cx) && Sound(cx, g) && Ops(g, ts) && !IsBlock(i) && !IsStraight(i)
    requires CheckInstr(cx, GenLabels(cx, g), i, ts) != Bad
    requires InView(cx, g, |ts|, Visible(sc)) && |sc| > 0
    ensures ScopedAfter(cx, g, sc, EmitPlain(cx, g, i), CheckInstr(cx, GenLabels(cx, g), i, ts))
  {
    hide Sound, Visible, InView, ScopedAfter, Ops, EmitPlain, CheckInstr, GenLabels, BlockOk, GoodContext;
    match i
    case Br(l) => BrScoped(cx, g, l, ts, sc);
    case BrIf(l) => BrIfScoped(cx, g, l, ts, sc);
    case BrTable(ls, dflt) => BrTableScoped(cx, g, ls, dflt, ts, sc);
    case Return => ReturnScoped(cx, g, ts, sc);
    case Call(f) => CallScoped(cx, g, f, ts, sc);
    case Unreachable => UnreachableScoped(cx, g, ts, sc);
  }
}
