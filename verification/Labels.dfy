/**
 Where the labels of emitted code stand, read off the structure of the source: the label of a loop at its
 head, that of any other block at its end. And which numbers are labels and which are variables.
 */
module Labels {
  import opened Wasm
  import opened CLang
  import opened Translator
  import opened Layout
  import opened Scoping

  // ---------------------------------------------------------------- positions

  predicate Unlabelled(s: seq<CStmt>) { forall k | 0 <= k < |s| :: !s[k].LabelHere? }

  predicate Assigns(s: seq<CStmt>) { forall k | 0 <= k < |s| :: s[k].Assign? }

  predicate Declarations(s: seq<CStmt>) { forall k | 0 <= k < |s| :: s[k].Declare? }

  /** After these, the code behind is dead and not emitted. */
  predicate Transfers(i: Instr) { i.Br? || i.BrTable? || i.Return? || i.Unreachable? }

  /**
   The end of a block that is not a loop: moves into the result variables, the label with a goto in front
   of it, the closing brace of an `if`, and moves out of the result variables.
   */
  ghost predicate EndsWithLabel(s: seq<CStmt>, l: nat, brace: bool) {
    exists moves, out :: Assigns(moves) && Assigns(out)
      && s == moves + [Goto(l), LabelHere(l)] + (if brace then [Close] else []) + out
  }

  predicate Head(s: seq<CStmt>, l: nat) { s == [Goto(l), LabelHere(l)] }

  predicate Opening(s: seq<CStmt>) { |s| == 1 && s[0].IfOpen? }

  /** The arms of an `if` up to its end. */
  ghost predicate LaidArms(i: Instr, s: seq<CStmt>, l: nat)
    requires i.If?
    decreases i, 2
  {
    if i.hasElse then
      exists a, moves, b, end :: LaidCode(i.thn, a) && Assigns(moves) && LaidCode(i.els, b)
        && EndsWithLabel(end, l, true)
        && s == a + moves + [ElseOpen] + b + end
    else
      exists a, end :: LaidCode(i.thn, a) && EndsWithLabel(end, l, true) && s == a + end
  }

  /** The statements `s` are laid out as the block `i` prescribes, with the label `l`. */
  ghost predicate LaidBlock(i: Instr, s: seq<CStmt>, l: nat)
    requires IsBlock(i)
    decreases i, 3
  {
    match i
    case Block(_, body) =>
      exists decls, b, end :: Declarations(decls) && LaidCode(body, b) && EndsWithLabel(end, l, false)
        && s == decls + b + end
    case Loop(_, body) =>
      exists decls, head, b, moves :: Declarations(decls) && Head(head, l) && LaidCode(body, b) && Assigns(moves)
        && s == decls + head + b + moves
    case If(_, _, _, _) =>
      exists decls, open, arms :: Declarations(decls) && Opening(open) && LaidArms(i, arms, l)
        && s == decls + open + arms
  }

  ghost predicate LaidInstr(i: Instr, s: seq<CStmt>)
    decreases i, 4
  {
    if IsBlock(i) then exists l: nat :: LaidBlock(i, s, l) else Unlabelled(s)
  }

  /** The statements of a sequence of instructions, one after another. */
  ghost predicate LaidCode(c: Code, s: seq<CStmt>)
    decreases c, 1
  {
    match c
    case Nil => s == []
    case Cons(i, rest) =>
      if Transfers(i) then LaidInstr(i, s)
      else exists a, b :: LaidInstr(i, a) && LaidCode(rest, b) && s == a + b
  }

  predicate Front(s: seq<CStmt>) { forall k | 0 <= k < |s| :: s[k].Declare? || s[k].DeclareZero? }

  predicate Back(s: seq<CStmt>) { forall k | 0 <= k < |s| :: s[k].Ret? }

  /** A whole function: declarations, the code of the body, its end with the outermost label, a return. */
  ghost predicate LaidFunc(c: Code, s: seq<CStmt>) {
    exists front, b, end, back, l: nat :: Front(front) && LaidCode(c, b) && EndsWithLabel(end, l, false) && Back(back)
      && s == front + b + end + back
  }

  // ---------------------------------------------------------------- the translator's output

  lemma PlainLaid(cx: Context, g: Gen, i: Instr)
    requires !IsBlock(i)
    ensures var e := EmitPlain(cx, g, i);
      e.Emit? ==> LaidInstr(i, e.out) && (e.ud > 0 <==> Transfers(i))
  {
    PlainOut(cx, g, i);
  }

  lemma PlainOut(cx: Context, g: Gen, i: Instr)
    requires !IsBlock(i)
    ensures var e := EmitPlain(cx, g, i);
      e.Emit? ==> Unlabelled(e.out) && (e.ud > 0 <==> Transfers(i))
  {
    hide EmitBr, EmitBrIf, StraightStmt;
    if IsStraight(i) {
      if EmitStraight(cx, g, i).Emit? {
        StraightStmtShape(cx, g, i);
      }
    } else if i.Br? {
      BrMoves(cx, g, i.l);
    } else if i.BrIf? {
      BrIfMoves(cx, g, i.l);
    }
  }

  predicate Undeclaring(s: seq<CStmt>) { forall k | 0 <= k < |s| :: Declares(s[k]).None? && !s[k].LabelHere? }

  lemma BrMoves(cx: Context, g: Gen, l: nat)
    ensures var e := EmitBr(cx, g, l); e.Emit? ==> Undeclaring(e.out) && e.ud == 1 && g.types <= e.g.types
  {
    var e := EmitBr(cx, g, l);
    if e.Emit? {
      var b := BlockAt(g, l);
      var ft := BlockType(cx.m.types, TypeIndexOf(g, b)).value;
      var loop := KindOf(g, b) == KLoop;
      PopMovesSame(g, b.lbl - (|ft.results| + if loop then |ft.params| else 0),
        if loop then |ft.params| else |ft.results|);
    }
  }

  lemma BrIfMoves(cx: Context, g: Gen, l: nat)
    ensures var e := EmitBrIf(cx, g, l); e.Emit? ==> Undeclaring(e.out) && e.ud == 0 && g.types <= e.g.types
  {
    var e := EmitBrIf(cx, g, l);
    if e.Emit? {
      var b := BlockAt(g, l);
      var ft := BlockType(cx.m.types, TypeIndexOf(g, b)).value;
      var loop := KindOf(g, b) == KLoop;
      PeekMovesSame(StackPop(g).0, b.lbl - (|ft.results| + if loop then |ft.params| else 0),
                    if loop then |ft.params| else |ft.results|, 0);
    }
  }

  /** The three parts of the end of a block. */
  lemma EndParts(cx: Context, g: Gen, ud: nat)
    requires EmitEnd(cx, g, ud).Emit?
    ensures
      var a := LeaveArm(cx, g, ud);
      && a.Emit? && a.g.blocks != [] && BlockEnd(a.g).Emit?
      && var c, b := BlockEnd(a.g), BlockAt(a.g, 0);
      && BlockType(cx.m.types, TypeIndexOf(a.g, b)).Some?
      && var rs := BlockType(cx.m.types, TypeIndexOf(a.g, b)).value.results;
      && b.lbl >= |rs|
      && var (g3, out3) := PushResults(c.g, b.lbl - |rs|, rs);
      EmitEnd(cx, g, ud) == Emit(g3, 0, a.out + c.out + out3)
  {
    hide LeaveArm, PushResults, BlockType, TypeIndexOf, BlockEnd;
  }

  lemma KindKept(g: Gen, g': Gen, b: BlockRec)
    requires g.types == g'.types
    ensures KindOf(g, b) == KindOf(g', b)
  {
  }

  /** What the end of a block emits. */
  lemma EndLaid(cx: Context, g: Gen, ud: nat, b: BlockRec, kind: int)
    requires g.blocks != [] && BlockAt(g, 0) == b && KindOf(g, b) == kind && kind in {KBlock, KLoop, KIf}
    ensures var e := EmitEnd(cx, g, ud);
      e.Emit? ==> e.ud == 0 && if kind == KLoop then Assigns(e.out) else EndsWithLabel(e.out, b.lbl, kind == KIf)
  {
    hide LeaveArm, PushResults, BlockType, TypeIndexOf, EmitEnd, KindOf;
    var e := EmitEnd(cx, g, ud);
    if e.Emit? {
      EndParts(cx, g, ud);
      LeaveAssigns(cx, g, ud);
      var a := LeaveArm(cx, g, ud);
      KindKept(a.g, g, b);
      var rs := BlockType(cx.m.types, TypeIndexOf(a.g, b)).value.results;
      PushResultsSame(BlockEnd(a.g).g, b.lbl - |rs|, rs);
      EndShapes(a.out, b.lbl, kind, PushResults(BlockEnd(a.g).g, b.lbl - |rs|, rs).1);
    }
  }

  lemma EndShapes(a: seq<CStmt>, l: nat, kind: int, d: seq<CStmt>)
    requires Assigns(a) && Assigns(d)
    ensures
      var close := (if kind != KLoop then [Goto(l), LabelHere(l)] else []) + (if kind == KIf then [Close] else []);
      if kind == KLoop then Assigns(a + close + d) else EndsWithLabel(a + close + d, l, kind == KIf)
  {
    if kind != KLoop {
      var brace := if kind == KIf then [Close] else [];
      assert a + ([Goto(l), LabelHere(l)] + brace) + d == a + [Goto(l), LabelHere(l)] + brace + d;
    }
  }

  lemma LeaveAssigns(cx: Context, g: Gen, ud: nat)
    ensures var e := LeaveArm(cx, g, ud);
      e.Emit? ==> Assigns(e.out) && e.g.blocks == g.blocks && e.g.types == g.types
  {
    var e := LeaveArm(cx, g, ud);
    if e.Emit? && ud == 0 {
      var b := BlockAt(g, 0);
      var n := |BlockType(cx.m.types, TypeIndexOf(g, b)).value.results|;
      EndStoresSame(g, b.lbl - n, n);
      EndStoresTypes(g, b.lbl - n, n);
    }
  }

  lemma {:induction false} EndStoresTypes(g: Gen, first: nat, n: nat)
    ensures EndStores(g, first, n).Emit? ==> EndStores(g, first, n).g.types == g.types
    decreases n
  {
    if n > 0 && |g.stack| > 0 {
      EndStoresTypes(StackPop(g).0, first, n - 1);
    }
  }

  lemma TailForm(cx: Context, g: Gen, c: Code)
    requires TransTail(cx, g, c).Emit?
    ensures
      var a := TransCode(cx, g, c);
      && a.Emit? && EmitEnd(cx, a.g, a.ud).Emit? && TransTail(cx, g, c).ud == EmitEnd(cx, a.g, a.ud).ud
      && TransTail(cx, g, c).out == a.out + EmitEnd(cx, a.g, a.ud).out
  {
    hide TransCode, EmitEnd;
  }

  lemma {:induction false} CodeLaid(cx: Context, g: Gen, c: Code)
    ensures var e := TransCode(cx, g, c); e.Emit? ==> LaidCode(c, e.out)
    decreases c, 1
  {
    hide LaidInstr, EmitPlain, Transfers, TransInstr;
    match c
    case Nil =>
    case Cons(i, rest) =>
      InstrLaid(cx, g, i);
      var e := TransInstr(cx, g, i);
      if e.Emit? && e.ud == 0 {
        CodeLaid(cx, e.g, rest);
      }
  }

  lemma {:induction false} InstrLaid(cx: Context, g: Gen, i: Instr)
    ensures var e := TransInstr(cx, g, i);
      e.Emit? ==> LaidInstr(i, e.out) && (e.ud > 0 <==> Transfers(i))
    decreases i, 4
  {
    hide LaidCode, LaidArms, EmitPlain, EmitBegin, TransTail, TransArms, LaidBlock;
    if !IsBlock(i) {
      PlainLaid(cx, g, i);
    } else {
      match i
      case Block(bt, body) => BlockLaid(cx, g, i, KBlock);
      case Loop(bt, body) => BlockLaid(cx, g, i, KLoop);
      case If(bt, _, _, _) => IfLaid(cx, g, i);
    }
  }

  /** The opening of a block: declarations, and the brace or the head. */
  lemma BeginLaid(cx: Context, g: Gen, kind: int, bt: int) returns (decls: seq<CStmt>, open: seq<CStmt>)
    requires kind in {KBlock, KLoop, KIf} && EmitBegin(cx, g, kind, bt).Emit?
    ensures var e := EmitBegin(cx, g, kind, bt);
      && e.out == decls + open && Declarations(decls) && e.g.blocks != [] && KindOf(e.g, BlockAt(e.g, 0)) == kind
      && BlockAt(e.g, 0).lbl < |e.g.types|
      && (kind == KBlock ==> open == [])
      && (kind == KLoop ==> Head(open, BlockAt(e.g, 0).lbl))
      && (kind == KIf ==> Opening(open))
  {
    var ft := BlockType(cx.m.types, bt).value;
    DeclareResultsSame(g, ft.results);
    var (g1, ds) := DeclareResults(g, ft.results);
    BlockBeginFacts(g1, kind, bt);
    decls, open := ds, BlockBegin(g1, kind, bt).out;
  }

  lemma {:induction false} BlockLaid(cx: Context, g: Gen, i: Instr, kind: int)
    requires (i.Block? && kind == KBlock) || (i.Loop? && kind == KLoop)
    ensures var e := TransBlock(cx, g, kind, i.bt, i.body);
      e.Emit? ==> LaidInstr(i, e.out) && e.ud == 0
    decreases i, 3
  {
    hide EmitBegin, LaidCode, EmitEnd, TransCode;
    var e := TransBlock(cx, g, kind, i.bt, i.body);
    if e.Emit? {
      var decls, open := BeginLaid(cx, g, kind, i.bt);
      var a := EmitBegin(cx, g, kind, i.bt);
      var b := BlockAt(a.g, 0);
      TailForm(cx, a.g, i.body);
      CodeLaid(cx, a.g, i.body);
      var c := TransCode(cx, a.g, i.body);
      CodeKeeps(cx, a.g, i.body, b, kind);
      EndLaid(cx, c.g, c.ud, b, kind);
      var end := EmitEnd(cx, c.g, c.ud).out;
      assert e.out == decls + open + (c.out + end);
      if kind == KBlock {
        assert e.out == decls + c.out + end;
      } else {
        assert e.out == decls + open + c.out + end;
      }
      assert LaidBlock(i, e.out, b.lbl);
    }
  }

  lemma CodeKeeps(cx: Context, g: Gen, c: Code, b: BlockRec, kind: int)
    requires g.blocks != [] && BlockAt(g, 0) == b && KindOf(g, b) == kind && b.lbl < |g.types|
    ensures var e := TransCode(cx, g, c);
      e.Emit? ==> e.g.blocks != [] && BlockAt(e.g, 0) == b && KindOf(e.g, b) == kind && b.lbl < |e.g.types|
  {
    hide TransCode, Balanced, LabelsWithin, JumpsOk;
    CodeShape(cx, g, c);
  }

  lemma {:induction false} IfLaid(cx: Context, g: Gen, i: Instr)
    requires i.If?
    ensures var e := TransInstr(cx, g, i);
      e.Emit? ==> LaidInstr(i, e.out) && e.ud == 0
    decreases i, 3
  {
    hide EmitBegin, LaidCode, EmitEnd, TransCode, LaidArms, TransArms;
    var e := TransInstr(cx, g, i);
    if e.Emit? {
      var decls, open := BeginLaid(cx, g, KIf, i.bt);
      var a := EmitBegin(cx, g, KIf, i.bt);
      var b := BlockAt(a.g, 0);
      ArmsLaid(cx, a.g, i, b);
      var arms := TransArms(cx, a.g, i).out;
      assert e.out == decls + open + arms;
      assert LaidBlock(i, e.out, b.lbl);
    }
  }

  lemma {:induction false} ArmsLaid(cx: Context, g: Gen, i: Instr, b: BlockRec)
    requires i.If? && g.blocks != [] && BlockAt(g, 0) == b && KindOf(g, b) == KIf && b.lbl < |g.types|
    ensures var e := TransArms(cx, g, i);
      e.Emit? ==> LaidArms(i, e.out, b.lbl) && e.ud == 0
    decreases i, 2
  {
    hide LaidCode, EmitEnd, TransCode, EndsWithLabel, EmitElse;
    var e := TransArms(cx, g, i);
    if e.Emit? {
      CodeLaid(cx, g, i.thn);
      CodeKeeps(cx, g, i.thn, b, KIf);
      var c := TransCode(cx, g, i.thn);
      if !i.hasElse {
        TailForm(cx, g, i.thn);
        EndLaid(cx, c.g, c.ud, b, KIf);
        assert e.out == c.out + EmitEnd(cx, c.g, c.ud).out;
      } else {
        var moves := ElseLaid(cx, c.g, c.ud, b);
        var d := EmitElse(cx, c.g, c.ud);
        TailForm(cx, d.g, i.els);
        CodeLaid(cx, d.g, i.els);
        CodeKeeps(cx, d.g, i.els, b, KIf);
        var c2 := TransCode(cx, d.g, i.els);
        EndLaid(cx, c2.g, c2.ud, b, KIf);
        var end := EmitEnd(cx, c2.g, c2.ud).out;
        assert e.out == c.out + moves + [ElseOpen] + c2.out + end;
      }
    }
  }

  lemma ElseLaid(cx: Context, g: Gen, ud: nat, b: BlockRec) returns (moves: seq<CStmt>)
    requires g.blocks != [] && BlockAt(g, 0) == b && KindOf(g, b) == KIf && b.lbl < |g.types|
      && EmitElse(cx, g, ud).Emit?
    ensures var e := EmitElse(cx, g, ud);
      && e.out == moves + [ElseOpen] && Assigns(moves)
      && e.g.blocks != [] && BlockAt(e.g, 0) == b && KindOf(e.g, b) == KIf && b.lbl < |e.g.types|
  {
    LeaveAssigns(cx, g, ud);
    moves := LeaveArm(cx, g, ud).out;
  }

  // ---------------------------------------------------------------- numbers

  predicate IsVar(g: Gen, v: nat) { v < |g.types| && g.types[v] in {-1, -2} }

  predicate IsLabel(g: Gen, l: nat) { l < |g.types| && g.types[l] !in {-1, -2} }

  /** What the code declares and where it puts labels is numbered as variables and as labels. */
  predicate Numbered(g: Gen, s: seq<CStmt>) {
    && (forall k | 0 <= k < |s| && Declares(s[k]).Some? :: IsVar(g, Declares(s[k]).value.0))
    && (forall k | 0 <= k < |s| && s[k].LabelHere? :: IsLabel(g, s[k].l))
  }

  predicate Numbers(g: Gen, e: Emission) { e.Emit? ==> g.types <= e.g.types && Numbered(e.g, e.out) }

  lemma NumberedMore(g: Gen, g': Gen, s: seq<CStmt>)
    requires Numbered(g, s) && g.types <= g'.types
    ensures Numbered(g', s)
  {
  }

  lemma NumbersThen(g: Gen, a: Emission, b: Emission)
    requires a.Emit? && Numbers(g, a) && Numbers(a.g, b)
    ensures Numbers(g, Prepend(a.out, b))
  {
    if b.Emit? {
      NumberedMore(a.g, b.g, a.out);
    }
  }

  lemma PushNumbers(g: Gen, ty: ValType)
    ensures var (g', d) := StackPush(g, ty);
      g.types <= g'.types && (d.New? ==> IsVar(g', d.v))
  {
  }

  lemma PlainNumbers(cx: Context, g: Gen, i: Instr)
    requires !IsBlock(i)
    ensures Numbers(g, EmitPlain(cx, g, i))
  {
    hide EmitBr, EmitBrIf, EmitCall, EmitStraight;
    if IsStraight(i) {
      StraightNumbers(cx, g, i);
    } else if i.Br? {
      BrMoves(cx, g, i.l);
    } else if i.BrIf? {
      BrIfMoves(cx, g, i.l);
    } else if i.Call? {
      CallNumbers(cx, g, i.f);
    }
  }

  lemma StraightNumbers(cx: Context, g: Gen, i: Instr)
    requires IsStraight(i)
    ensures Numbers(g, EmitStraight(cx, g, i))
  {
    hide StackPush, PopN, StraightStmt, Pushes;
    var e := EmitStraight(cx, g, i);
    if e.Emit? {
      PopNSame(g, Popped(i));
      if MustPush(i) {
        var ty := Pushes(cx, g, i).value;
        var d := StackPush(PopN(g, Popped(i)).0, ty).1;
        PushNumbers(PopN(g, Popped(i)).0, ty);
        StmtDeclares(i, Args(g, i), d);
      } else {
        StmtDeclares(i, Args(g, i), Old(0));
      }
    }
  }

  lemma StmtDeclares(i: Instr, args: seq<nat>, d: Dst)
    requires IsStraight(i) && |args| == Operands(i)
    ensures var s := StraightStmt(i, args, d);
      forall k | 0 <= k < |s| :: !s[k].LabelHere? && (Declares(s[k]).Some? ==> Declares(s[k]) == DeclaresDst(d))
  {
  }

  lemma CallNumbers(cx: Context, g: Gen, f: nat)
    ensures Numbers(g, EmitCall(cx, g, f))
  {
    hide StackPush, PopN;
    var e := EmitCall(cx, g, f);
    if e.Emit? {
      var ft := cx.m.types[cx.m.funcs[f].ty];
      PopNSame(g, |ft.params|);
      if |ft.results| > 0 {
        PushNumbers(PopN(g, |ft.params|).0, ft.results[0]);
      }
    }
  }

  lemma {:induction false} ResultNumbers(g: Gen, ts: seq<ValType>)
    ensures var (g', out) := DeclareResults(g, ts); Numbers(g, Emit(g', 0, out))
    decreases |ts|
  {
    if ts != [] {
      var t := ts[|ts| - 1];
      var (g1, v) := Alloc(g, t.Code(), ResultRole);
      ResultNumbers(g1, ts[..|ts| - 1]);
      NumbersThen(g, Emit(g1, 0, [Declare(v, t)]),
          Emit(DeclareResults(g1, ts[..|ts| - 1]).0, 0, DeclareResults(g1, ts[..|ts| - 1]).1));
    }
  }

  lemma {:induction false} PushedNumbers(g: Gen, first: nat, ts: seq<ValType>)
    ensures var (g', out) := PushResults(g, first, ts); Numbers(g, Emit(g', 0, out))
    decreases |ts|
  {
    hide StackPush;
    if ts != [] {
      var (g1, d) := StackPush(g, ts[0]);
      PushNumbers(g, ts[0]);
      PushedNumbers(g1, first + 1, ts[1..]);
      var (g2, out) := PushResults(g1, first + 1, ts[1..]);
      NumbersThen(g, Emit(g1, 0, [Assign(d, Var(first))]), Emit(g2, 0, out));
    }
  }

  lemma KindIsLabel(g: Gen, b: BlockRec, kind: int)
    requires KindOf(g, b) == kind && kind in {KBlock, KLoop, KIf} && b.lbl < |g.types|
    ensures IsLabel(g, b.lbl)
  {
  }

  lemma BeginNumbers(cx: Context, g: Gen, kind: int, bt: int)
    requires kind in {KBlock, KLoop, KIf}
    ensures Numbers(g, EmitBegin(cx, g, kind, bt))
  {
    hide DeclareResults, KindOf;
    var e := EmitBegin(cx, g, kind, bt);
    if e.Emit? {
      var ft := BlockType(cx.m.types, bt).value;
      ResultNumbers(g, ft.results);
      var (g1, decls) := DeclareResults(g, ft.results);
      var c := BlockBegin(g1, kind, bt);
      BlockBeginFacts(g1, kind, bt);
      KindIsLabel(c.g, BlockAt(c.g, 0), kind);
      NumbersThen(g, Emit(g1, 0, decls), c);
    }
  }

  lemma LeaveNumbers(cx: Context, g: Gen, ud: nat)
    ensures Numbers(g, LeaveArm(cx, g, ud))
  {
    hide EndStores, BlockType, TypeIndexOf;
    var e := LeaveArm(cx, g, ud);
    if e.Emit? && ud == 0 {
      var b := BlockAt(g, 0);
      var n := |BlockType(cx.m.types, TypeIndexOf(g, b)).value.results|;
      EndStoresSame(g, b.lbl - n, n);
    }
  }

  lemma CloseNumbers(g: Gen, b: BlockRec, kind: int)
    requires g.blocks != [] && BlockAt(g, 0) == b && KindOf(g, b) == kind && kind in {KBlock, KLoop, KIf}
      && b.lbl < |g.types|
    ensures Numbers(g, BlockEnd(g)) && (BlockEnd(g).Emit? ==> BlockEnd(g).g.types == g.types)
  {
    KindIsLabel(g, b, kind);
  }

  lemma EndNumbers(cx: Context, g: Gen, ud: nat, b: BlockRec, kind: int)
    requires g.blocks != [] && BlockAt(g, 0) == b && KindOf(g, b) == kind && kind in {KBlock, KLoop, KIf}
      && b.lbl < |g.types|
    ensures Numbers(g, EmitEnd(cx, g, ud))
  {
    hide LeaveArm, PushResults, BlockType, TypeIndexOf, BlockEnd, EmitEnd, Numbers, KindOf;
    var e := EmitEnd(cx, g, ud);
    FaultNumbers(g);
    if e.Emit? {
      EndParts(cx, g, ud);
      LeaveNumbers(cx, g, ud);
      LeaveAssigns(cx, g, ud);
      var a := LeaveArm(cx, g, ud);
      var c := BlockEnd(a.g);
      var rs := BlockType(cx.m.types, TypeIndexOf(a.g, b)).value.results;
      var (g3, out3) := PushResults(c.g, b.lbl - |rs|, rs);
      PushedNumbers(c.g, b.lbl - |rs|, rs);
      KindKept(a.g, g, b);
      CloseNumbers(a.g, b, kind);
      NumbersThen(g, a, c);
      NumbersUd(g, Prepend(a.out, c));
      NumbersThen(g, Emit(c.g, 0, a.out + c.out), Emit(g3, 0, out3));
    }
  }

  lemma NumbersUd(g: Gen, e: Emission)
    requires e.Emit? && Numbers(g, e)
    ensures Numbers(g, Emit(e.g, 0, e.out))
  {
  }

  lemma ElseNumbers(cx: Context, g: Gen, ud: nat)
    ensures Numbers(g, EmitElse(cx, g, ud))
  {
    LeaveNumbers(cx, g, ud);
  }

  lemma {:induction false} CodeNumbers(cx: Context, g: Gen, c: Code)
    ensures Numbers(g, TransCode(cx, g, c))
    decreases c, 1
  {
    hide Numbers, TransInstr;
    match c
    case Nil => NothingNumbers(g);
    case Cons(i, rest) =>
      InstrNumbers(cx, g, i);
      var e := TransInstr(cx, g, i);
      if e.Emit? && e.ud == 0 {
        CodeNumbers(cx, e.g, rest);
        NumbersThen(g, e, TransCode(cx, e.g, rest));
      } else {
        FaultNumbers(g);
      }
  }

  lemma NothingNumbers(g: Gen)
    ensures Numbers(g, Emit(g, 0, []))
  {
  }

  lemma FaultNumbers(g: Gen)
    ensures Numbers(g, Fault)
  {
  }

  lemma {:induction false} InstrNumbers(cx: Context, g: Gen, i: Instr)
    ensures Numbers(g, TransInstr(cx, g, i))
    decreases i, 4
  {
    hide Numbers, EmitPlain, EmitBegin, TransTail, TransArms;
    FaultNumbers(g);
    if !IsBlock(i) {
      PlainNumbers(cx, g, i);
    } else {
      var kind := if i.Block? then KBlock else if i.Loop? then KLoop else KIf;
      BeginNumbers(cx, g, kind, i.bt);
      var a := EmitBegin(cx, g, kind, i.bt);
      if a.Emit? {
        var decls, open := BeginLaid(cx, g, kind, i.bt);
        if i.If? {
          ArmsNumbers(cx, a.g, i, BlockAt(a.g, 0));
          NumbersThen(g, a, TransArms(cx, a.g, i));
        } else {
          TailNumbers(cx, a.g, i.body, BlockAt(a.g, 0), kind);
          NumbersThen(g, a, TransTail(cx, a.g, i.body));
        }
      }
    }
  }

  lemma {:induction false} TailNumbers(cx: Context, g: Gen, c: Code, b: BlockRec, kind: int)
    requires g.blocks != [] && BlockAt(g, 0) == b && KindOf(g, b) == kind && kind in {KBlock, KLoop, KIf}
      && b.lbl < |g.types|
    ensures Numbers(g, TransTail(cx, g, c))
    decreases c, 2
  {
    hide Numbers, TransCode, EmitEnd, KindOf;
    FaultNumbers(g);
    CodeNumbers(cx, g, c);
    CodeKeeps(cx, g, c, b, kind);
    var e := TransCode(cx, g, c);
    if e.Emit? {
      EndNumbers(cx, e.g, e.ud, b, kind);
      NumbersThen(g, e, EmitEnd(cx, e.g, e.ud));
    }
  }

  lemma {:induction false} ArmsNumbers(cx: Context, g: Gen, i: Instr, b: BlockRec)
    requires i.If? && g.blocks != [] && BlockAt(g, 0) == b && KindOf(g, b) == KIf && b.lbl < |g.types|
    ensures Numbers(g, TransArms(cx, g, i))
    decreases i, 2
  {
    hide Numbers, TransCode, TransTail, EmitElse, KindOf;
    FaultNumbers(g);
    if !i.hasElse {
      TailNumbers(cx, g, i.thn, b, KIf);
    } else {
      CodeNumbers(cx, g, i.thn);
      CodeKeeps(cx, g, i.thn, b, KIf);
      var e := TransCode(cx, g, i.thn);
      if e.Emit? {
        ElseNumbers(cx, e.g, e.ud);
        var d := EmitElse(cx, e.g, e.ud);
        if d.Emit? {
          var moves := ElseLaid(cx, e.g, e.ud, b);
          TailNumbers(cx, d.g, i.els, b, KIf);
          NumbersThen(g, e, d);
          NumbersThen(g, Prepend(e.out, d), TransTail(cx, d.g, i.els));
        }
      }
    }
  }

  // ---------------------------------------------------------------- variables in scoped code

  /** The variables that a statement declares, reads or assigns. */
  function Mentions(s: CStmt): set<nat> {
    Refs(s) + if Declares(s).Some? then {Declares(s).value.0} else {}
  }

  /** No label has the number of a variable. */
  predicate LabelsApart(s: seq<CStmt>) {
    forall i, j | 0 <= i < |s| && s[i].LabelHere? && 0 <= j < |s| :: s[i].l !in Mentions(s[j])
  }

  predicate ScopeVars(g: Gen, sc: Scope) {
    forall k, v | 0 <= k < |sc| && v in sc[k] :: IsVar(g, v)
  }

  lemma {:induction false} VisibleVars(g: Gen, sc: Scope)
    requires ScopeVars(g, sc)
    ensures forall v | v in Visible(sc) :: IsVar(g, v)
    decreases |sc|
  {
    hide IsVar;
    if sc != [] {
      VisibleVars(g, sc[..|sc| - 1]);
    }
  }

  lemma StepVars(g: Gen, sc: Scope, s: CStmt)
    requires ScopeVars(g, sc) && (Declares(s).Some? ==> IsVar(g, Declares(s).value.0))
    ensures ScopeVars(g, ScopeStep(sc, s))
  {
    hide IsVar, Declares;
  }

  /** Code in scope mentions variables only. */
  lemma {:induction false} ScopedVars(g: Gen, sc: Scope, s: seq<CStmt>)
    requires ScopeVars(g, sc) && Scoped(sc, s) && Numbered(g, s)
    ensures forall k, v | 0 <= k < |s| && v in Mentions(s[k]) :: IsVar(g, v)
    decreases s
  {
    hide IsVar, ScopeStep, Visible, Declares, Refs;
    if s != [] {
      VisibleVars(g, sc);
      StepVars(g, sc, s[0]);
      ScopedVars(g, ScopeStep(sc, s[0]), s[1..]);
      forall k, v | 0 <= k < |s| && v in Mentions(s[k]) ensures IsVar(g, v) {
        if k > 0 {
          assert s[k] == s[1..][k - 1];
        }
      }
    }
  }

  lemma NumberedApart(g: Gen, params: seq<ValType>, s: seq<CStmt>)
    requires ScopeVars(g, ParamScope(params)) && Scoped(ParamScope(params), s) && Numbered(g, s)
    ensures LabelsApart(s) && forall i | 0 <= i < |s| && s[i].LabelHere? :: s[i].l >= |params|
  {
    hide Mentions, Scoped, IsVar;
    ScopedVars(g, ParamScope(params), s);
    forall i, j | 0 <= i < |s| && s[i].LabelHere? && 0 <= j < |s| ensures s[i].l !in Mentions(s[j]) {
      LabelNoVar(g, s[i].l);
    }
    ParamVars(g, params);
    forall i | 0 <= i < |s| && s[i].LabelHere? ensures s[i].l >= |params| {
      LabelNoVar(g, s[i].l);
    }
  }

  lemma ParamVars(g: Gen, params: seq<ValType>)
    requires ScopeVars(g, ParamScope(params))
    ensures forall v: nat | v < |params| :: IsVar(g, v)
  {
    forall v: nat | v < |params| ensures IsVar(g, v) {
      assert v in ParamScope(params)[0];
    }
  }

  lemma LabelNoVar(g: Gen, l: nat)
    requires IsLabel(g, l)
    ensures !IsVar(g, l)
  {
  }
}
