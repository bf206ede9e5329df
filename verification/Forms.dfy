/** What the translator emits for each control instruction of checked code, spelled out. */
module Forms {
  import opened Wasm
  import opened CLang
  import opened Translator
  import opened Allocator
  import opened CodeSound

  function Top(g: Gen): nat
    requires |g.stack| > 0
  {
    g.stack[|g.stack| - 1]
  }

  lemma BrForm(cx: Context, g: Gen, l: nat, ts: seq<ValType>)
    requires Sound(cx, g) && Ops(g, ts) && l < |g.blocks|
    requires EndsWith(ts, GenLabels(cx, g)[l].Types())
    ensures
      var lbl, tys := BlockAt(g, l).lbl, GenLabels(cx, g)[l].Types();
      if tys == [] then EmitBr(cx, g, l) == Emit(g, 1, [Goto(lbl)])
      else
        && |g.stack| > 0 && lbl > 0
        && EmitBr(cx, g, l) == Emit(StackPop(g).0, 1, [Assign(Old(lbl - 1), Var(Top(g))), Goto(lbl)])
  {
    LabelFacts(cx, g, l);
    var lbl, tys := BlockAt(g, l).lbl, GenLabels(cx, g)[l].Types();
    if tys == [] {
      assert [] + [Goto(lbl)] == [Goto(lbl)];
    } else {
      var move := Assign(Old(lbl - 1), Var(Top(g)));
      OneMove(g, lbl - 1);
      assert [move] + [Goto(lbl)] == [move, Goto(lbl)];
      assert EmitBr(cx, g, l) == Emit(PopMoves(g, lbl - 1, 1).g, 1, PopMoves(g, lbl - 1, 1).out + [Goto(lbl)]);
    }
  }

  lemma OneMove(g: Gen, lhs: nat)
    requires |g.stack| > 0
    ensures PopMoves(g, lhs, 1) == Emit(StackPop(g).0, 0, [Assign(Old(lhs), Var(Top(g)))])
  {
    assert PopMoves(StackPop(g).0, lhs + 1, 0) == Emit(StackPop(g).0, 0, []);
    assert [Assign(Old(lhs), Var(Top(g)))] + [] == [Assign(Old(lhs), Var(Top(g)))];
  }

  lemma BrIfForm(cx: Context, g: Gen, l: nat, ts: seq<ValType>)
    requires Sound(cx, g) && Ops(g, ts) && l < |g.blocks|
    requires EndsWith(ts, [I32]) && EndsWith(ts[..|ts| - 1], GenLabels(cx, g)[l].Types())
    ensures |g.stack| > 0
    ensures
      var lbl, tys := BlockAt(g, l).lbl, GenLabels(cx, g)[l].Types();
      if tys == [] then EmitBrIf(cx, g, l) == Emit(StackPop(g).0, 0, [IfOpen(Top(g))] + [Goto(lbl)] + [Close])
      else
        && |g.stack| > 1 && lbl > 0
        && EmitBrIf(cx, g, l) == Emit(StackPop(g).0, 0,
             [IfOpen(Top(g))] + [Assign(Old(lbl - 1), Var(g.stack[|g.stack| - 2])), Goto(lbl)] + [Close])
  {
    LabelFacts(cx, g, l);
    var lbl, tys := BlockAt(g, l).lbl, GenLabels(cx, g)[l].Types();
    var g1 := StackPop(g).0;
    if tys == [] {
      assert [IfOpen(Top(g))] + [] + [Goto(lbl), Close] == [IfOpen(Top(g))] + [Goto(lbl)] + [Close];
    } else {
      var v := g.stack[|g.stack| - 2];
      assert StackAt(g1, 0) == v;
      assert PeekMoves(g1, lbl, 1, 1) == Emit(g1, 0, []);
      assert PeekMoves(g1, lbl - 1, 1, 0).out == [Assign(Old(lbl - 1), Var(v))];
      assert [IfOpen(Top(g))] + [Assign(Old(lbl - 1), Var(v))] + [Goto(lbl), Close]
          == [IfOpen(Top(g))] + [Assign(Old(lbl - 1), Var(v)), Goto(lbl)] + [Close];
    }
  }

  /** Leaving an arm moves the result, when there is one and the arm's end is reachable. */
  lemma LeaveForm(cx: Context, g: Gen, ud: nat)
    requires Sound(cx, g) && g.blocks != []
    requires ud == 0 ==> Ops(g, GenLabel(cx, g, BlockAt(g, 0)).results)
    ensures
      var lbl, rs := BlockAt(g, 0).lbl, GenLabel(cx, g, BlockAt(g, 0)).results;
      if ud > 0 || rs == [] then LeaveArm(cx, g, ud) == Emit(g, 0, [])
      else
        && |g.stack| > 0 && lbl > 0
        && LeaveArm(cx, g, ud) == Emit(StackPop(g).0, 0, [Assign(Old(lbl - 1), Var(Top(g)))])
  {
    LabelFacts(cx, g, 0);
    var lbl, rs := BlockAt(g, 0).lbl, GenLabel(cx, g, BlockAt(g, 0)).results;
    if ud == 0 && rs != [] {
      assert EndStores(StackPop(g).0, lbl - 1, 0) == Emit(StackPop(g).0, 0, []);
      assert [Assign(Old(lbl - 1), Var(Top(g)))] + [] == [Assign(Old(lbl - 1), Var(Top(g)))];
    }
  }

  /** The statements that close a block. */
  function CloseStmts(lbl: nat, kind: int): seq<CStmt> {
    (if kind != KLoop then [Goto(lbl), LabelHere(lbl)] else []) + (if kind == KIf then [Close] else [])
  }

  lemma CloseForm(cx: Context, g: Gen)
    requires Sound(cx, g) && g.blocks != []
    ensures BlockEnd(g).Emit? && BlockEnd(g).out == CloseStmts(BlockAt(g, 0).lbl, KindOf(g, BlockAt(g, 0)))
  {
    CloseSound(cx, g);
  }
}
