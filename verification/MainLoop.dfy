/**
 The per-function loop of wasm2c.c over the flat code: one pass, with a counter for unreachable code,
 updating the generator in place. It emits what the functions on values say.
 */
module MainLoop {
  import opened Options
  import opened Wasm
  import opened CLang
  import opened Translator
  import opened FuncGenerator
  import opened OnePass
  import opened Layout
  import opened Functions
  import opened Blocks
  import opened Braces

  // ---------------------------------------------------------------- numbers in range

  /** Every number on the stack, in the windows and in the block records has been handed out. */
  predicate InRange(g: Gen) {
    && (forall i | 0 <= i < |g.stack| :: g.stack[i] < |g.types|)
    && (forall i | 0 <= i < |g.reuse| :: g.reuse[i] < |g.types|)
    && (forall i | 0 <= i < |g.blocks| :: g.blocks[i].lbl < |g.types|)
  }

  lemma PopInRange(g: Gen)
    requires InRange(g) && |g.stack| > 0
    ensures InRange(StackPop(g).0)
  {
  }

  lemma PushInRange(g: Gen, ty: ValType)
    requires InRange(g)
    ensures InRange(StackPush(g, ty).0) && StackPush(g, ty).0.blocks == g.blocks
  {
  }

  lemma BeginInRange(g: Gen, kind: int, bt: int)
    requires InRange(g) && BlockBegin(g, kind, bt).Emit?
    ensures InRange(BlockBegin(g, kind, bt).g)
  {
  }

  // ---------------------------------------------------------------- operands

  /** Pops `n` operands; they are listed bottom first. */
  method PopMany(fg: FuncGen, n: nat) returns (vs: seq<nat>)
    requires fg.Valid() && InRange(fg.Abs()) && n <= fg.stackI
    modifies fg.Repr()
    ensures fg.Valid() && fresh(fg.Repr() - old(fg.Repr())) && InRange(fg.Abs())
    ensures (fg.Abs(), vs) == PopN(old(fg.Abs()), n)
  {
    hide StackPop, InRange;
    ghost var g := fg.Abs();
    vs := [];
    assert PopN(g, n).1 + [] == PopN(g, n).1;
    var i := 0;
    while i < n
      invariant 0 <= i <= n && fg.Valid() && fresh(fg.Repr() - old(fg.Repr())) && InRange(fg.Abs())
      invariant n - i <= |fg.Abs().stack| == fg.stackI
      invariant PopN(g, n) == (PopN(fg.Abs(), n - i).0, PopN(fg.Abs(), n - i).1 + vs)
    {
      ghost var g1 := fg.Abs();
      PopInRange(g1);
      PopStack(g1);
      var v := fg.Pop();
      PopStep(g1, n - i, vs);
      vs := [v] + vs;
      i := i + 1;
    }
    PopDone(fg.Abs(), vs);
  }

  lemma PopStack(g: Gen)
    requires |g.stack| > 0
    ensures |StackPop(g).0.stack| == |g.stack| - 1
  {
  }

  lemma PopStep(g: Gen, n: nat, vs: seq<nat>)
    requires 0 < n <= |g.stack|
    ensures
      var (g1, v) := StackPop(g);
      && n - 1 <= |g1.stack|
      && PopN(g, n).0 == PopN(g1, n - 1).0 && PopN(g, n).1 + vs == PopN(g1, n - 1).1 + ([v] + vs)
  {
  }

  lemma PopDone(g: Gen, vs: seq<nat>)
    ensures PopN(g, 0).0 == g && PopN(g, 0).1 + vs == vs
  {
  }

  /** Reads the operands of an instruction where they are. */
  method ReadArgs(fg: FuncGen, n: nat) returns (args: seq<nat>)
    requires fg.Valid() && n <= fg.stackI
    ensures args == fg.Abs().stack[fg.stackI - n..]
  {
    args := fg.stack[fg.stackI - n..fg.stackI];
  }

  /** The type of the operand that an instruction pushes. */
  method PushedType(fg: FuncGen, cx: Context, i: Instr) returns (t: Option<ValType>)
    requires fg.Valid() && (i.LocalGet? ==> i.x < fg.typeI)
    ensures t == Pushes(cx, fg.Abs(), i)
  {
    hide TypeOfCode;
    t := Pushes(cx, EmptyGen, i);
    if i.LocalGet? {
      t := TypeOfCode(fg.types[i.x]);
      assert fg.types[i.x] == fg.Abs().types[i.x];
    }
    PushesIs(cx, fg.Abs(), i);
  }

  method Straight(fg: FuncGen, cx: Context, i: Instr) returns (out: seq<CStmt>)
    requires fg.Valid() && InRange(fg.Abs()) && IsStraight(i) && EmitStraight(cx, fg.Abs(), i).Emit?
    modifies fg.Repr()
    ensures fg.Valid() && fresh(fg.Repr() - old(fg.Repr())) && InRange(fg.Abs())
    ensures Emit(fg.Abs(), 0, out) == EmitStraight(cx, old(fg.Abs()), i)
  {
    hide InRange, StraightStmt, PopN, StackPush, Pushes, MustPush, Operands, Popped, EmitStraight;
    ghost var g := fg.Abs();
    StraightFits(cx, g, i);
    StraightIs(cx, g, i);
    var args := ReadArgs(fg, Operands(i));
    var push := PushedType(fg, cx, i);
    var popped := PopMany(fg, Popped(i));
    var d := Old(0);
    if MustPush(i) {
      PushInRange(fg.Abs(), push.value);
      InRangeReuse(fg.Abs());
      d := fg.Push(push.value);
    }
    out := StraightStmt(i, args, d);
  }

  lemma StraightIs(cx: Context, g: Gen, i: Instr)
    requires IsStraight(i) && EmitStraight(cx, g, i).Emit?
    ensures Popped(i) <= Operands(i) <= |g.stack| && (MustPush(i) ==> Pushes(cx, g, i).Some?)
    ensures
      var args := g.stack[|g.stack| - Operands(i)..];
      var g1 := PopN(g, Popped(i)).0;
      EmitStraight(cx, g, i) ==
        if MustPush(i) then
          var (g2, d) := StackPush(g1, Pushes(cx, g, i).value);
          Emit(g2, 0, StraightStmt(i, args, d))
        else Emit(g1, 0, StraightStmt(i, args, Old(0)))
  {
    hide PopN, StackPush, StraightStmt, Pushes, Popped, Operands, MustPush;
    StraightFits(cx, g, i);
  }

  lemma StraightFits(cx: Context, g: Gen, i: Instr)
    requires IsStraight(i) && EmitStraight(cx, g, i).Emit?
    ensures Popped(i) <= Operands(i) <= |g.stack| && (MustPush(i) ==> Pushes(cx, g, i).Some?)
    ensures i.LocalGet? ==> i.x < |g.types|
  {
  }

  lemma PushesIs(cx: Context, g: Gen, i: Instr)
    requires i.LocalGet? ==> i.x < |g.types|
    ensures i.LocalGet? ==> Pushes(cx, g, i) == TypeOfCode(g.types[i.x])
    ensures !i.LocalGet? ==> Pushes(cx, g, i) == Pushes(cx, EmptyGen, i)
  {
  }

  lemma InRangeReuse(g: Gen)
    requires InRange(g)
    ensures forall j | 0 <= j < |g.reuse| :: g.reuse[j] < |g.types|
  {
  }

  // ---------------------------------------------------------------- branches

  /** Pops `n` values, top first, into ascending variables. */
  method MovePops(fg: FuncGen, lhs: nat, n: nat) returns (out: seq<CStmt>)
    requires fg.Valid() && InRange(fg.Abs()) && PopMoves(fg.Abs(), lhs, n).Emit?
    modifies fg.Repr()
    ensures fg.Valid() && fresh(fg.Repr() - old(fg.Repr())) && InRange(fg.Abs())
    ensures Emit(fg.Abs(), 0, out) == PopMoves(old(fg.Abs()), lhs, n)
  {
    hide StackPop, InRange, PopMoves;
    ghost var e := PopMoves(fg.Abs(), lhs, n);
    MovesDepth(fg.Abs(), lhs, n);
    out := [];
    var i := 0;
    assert [] + e.out == e.out;
    while i < n
      invariant 0 <= i <= n && fg.Valid() && fresh(fg.Repr() - old(fg.Repr())) && InRange(fg.Abs())
      invariant PopMoves(fg.Abs(), lhs + i, n - i).Emit? && e.g == PopMoves(fg.Abs(), lhs + i, n - i).g && e.ud == 0
      invariant e.out == out + PopMoves(fg.Abs(), lhs + i, n - i).out
    {
      ghost var g := fg.Abs();
      MovesStep(g, lhs + i, n - i);
      PopInRange(g);
      var rhs := fg.Pop();
      ghost var move := Assign(Old(lhs + i), Var(rhs));
      assert out + ([move] + PopMoves(fg.Abs(), lhs + i + 1, n - i - 1).out)
        == out + [move] + PopMoves(fg.Abs(), lhs + i + 1, n - i - 1).out;
      out := out + [Assign(Old(lhs + i), Var(rhs))];
      i := i + 1;
    }
    MovesDone(fg.Abs(), lhs + n, out);
  }

  lemma MovesStep(g: Gen, lhs: nat, n: nat)
    requires n > 0 && PopMoves(g, lhs, n).Emit?
    ensures |g.stack| > 0 && PopMoves(g, lhs, n).ud == 0
    ensures
      var (g1, v) := StackPop(g);
      var e := PopMoves(g1, lhs + 1, n - 1);
      e.Emit? && PopMoves(g, lhs, n).g == e.g && PopMoves(g, lhs, n).out == [Assign(Old(lhs), Var(v))] + e.out
  {
  }

  lemma MovesDepth(g: Gen, lhs: nat, n: nat)
    ensures PopMoves(g, lhs, n).Emit? ==> PopMoves(g, lhs, n).ud == 0
  {
  }

  lemma MovesDone(g: Gen, lhs: nat, out: seq<CStmt>)
    ensures PopMoves(g, lhs, 0) == Emit(g, 0, []) && out + [] == out
  {
  }

  /** Reads `n` values in place, top first, into ascending variables. */
  method MovePeeks(fg: FuncGen, lhs: nat, n: nat) returns (out: seq<CStmt>)
    requires fg.Valid() && PeekMoves(fg.Abs(), lhs, n, 0).Emit?
    ensures Emit(fg.Abs(), 0, out) == PeekMoves(fg.Abs(), lhs, n, 0)
  {
    hide PeekMoves;
    ghost var g := fg.Abs();
    out := [];
    var i := 0;
    assert [] + PeekMoves(g, lhs, n, 0).out == PeekMoves(g, lhs, n, 0).out;
    while i < n
      invariant 0 <= i <= n && PeekMoves(g, lhs + i, n, i).Emit?
      invariant PeekMoves(g, lhs, n, 0).out == out + PeekMoves(g, lhs + i, n, i).out
    {
      PeeksStep(g, lhs + i, n, i);
      var rhs := fg.At(i);
      ghost var rest := PeekMoves(g, lhs + i + 1, n, i + 1).out;
      assert out + ([Assign(Old(lhs + i), Var(rhs))] + rest) == out + [Assign(Old(lhs + i), Var(rhs))] + rest;
      out := out + [Assign(Old(lhs + i), Var(rhs))];
      i := i + 1;
    }
    PeeksDone(g, lhs, n, out);
  }

  lemma PeeksStep(g: Gen, lhs: nat, n: nat, i: nat)
    requires i < n && PeekMoves(g, lhs, n, i).Emit?
    ensures i < |g.stack| && PeekMoves(g, lhs + 1, n, i + 1).Emit?
    ensures PeekMoves(g, lhs, n, i).out == [Assign(Old(lhs), Var(StackAt(g, i)))] + PeekMoves(g, lhs + 1, n, i + 1).out
  {
  }

  lemma {:induction false} PeeksDone(g: Gen, lhs: nat, n: nat, out: seq<CStmt>)
    ensures PeekMoves(g, lhs + n, n, n) == Emit(g, 0, []) && out + [] == out
    ensures PeekMoves(g, lhs, n, 0).Emit? ==> PeekMoves(g, lhs, n, 0).g == g && PeekMoves(g, lhs, n, 0).ud == 0
  {
    PeeksSame(g, lhs, n, 0);
  }

  lemma {:induction false} PeeksSame(g: Gen, lhs: nat, n: nat, i: nat)
    ensures PeekMoves(g, lhs, n, i).Emit? ==> PeekMoves(g, lhs, n, i).g == g && PeekMoves(g, lhs, n, i).ud == 0
    decreases n - i
  {
    if i < n {
      PeeksSame(g, lhs + 1, n, i + 1);
    }
  }

  /** The first result variable of a branch target, and how many values go there. */
  method Target(fg: FuncGen, cx: Context, l: nat) returns (lbl: nat, lhs: nat, n: nat)
    requires fg.Valid() && InRange(fg.Abs()) && l < fg.blockI
    requires
      var g := fg.Abs();
      var ft := BlockType(cx.m.types, TypeIndexOf(g, BlockAt(g, l)));
      && ft.Some?
      && BlockAt(g, l).lbl >=
         |ft.value.results| + if KindOf(g, BlockAt(g, l)) == KLoop then |ft.value.params| else 0
    ensures
      var g := fg.Abs();
      var ft := BlockType(cx.m.types, TypeIndexOf(g, BlockAt(g, l))).value;
      var loop := KindOf(g, BlockAt(g, l)) == KLoop;
      && lbl == BlockAt(g, l).lbl && n == (if loop then |ft.params| else |ft.results|)
      && lhs == lbl - (|ft.results| + if loop then |ft.params| else 0)
  {
    var kind := fg.BlockKind(l);
    var bt := fg.BlockTypeIndex(l);
    lbl := fg.BlockLabel(l);
    var ft := BlockType(cx.m.types, bt).value;
    if kind == KLoop {
      n := |ft.params|;
      lhs := lbl - |ft.results| - |ft.params|;
    } else {
      n := |ft.results|;
      lhs := lbl - |ft.results|;
    }
  }

  method Branch(fg: FuncGen, cx: Context, l: nat) returns (out: seq<CStmt>)
    requires fg.Valid() && InRange(fg.Abs()) && EmitBr(cx, fg.Abs(), l).Emit?
    modifies fg.Repr()
    ensures fg.Valid() && fresh(fg.Repr() - old(fg.Repr())) && InRange(fg.Abs())
    ensures Emit(fg.Abs(), 1, out) == EmitBr(cx, old(fg.Abs()), l)
  {
    hide InRange, PopMoves, KindOf, TypeIndexOf, BlockType;
    var lbl, lhs, n := Target(fg, cx, l);
    out := MovePops(fg, lhs, n);
    out := out + [Goto(lbl)];
  }

  method BranchIf(fg: FuncGen, cx: Context, l: nat) returns (out: seq<CStmt>)
    requires fg.Valid() && InRange(fg.Abs()) && EmitBrIf(cx, fg.Abs(), l).Emit?
    modifies fg.Repr()
    ensures fg.Valid() && fresh(fg.Repr() - old(fg.Repr())) && InRange(fg.Abs())
    ensures Emit(fg.Abs(), 0, out) == EmitBrIf(cx, old(fg.Abs()), l)
  {
    hide InRange, PeekMoves, KindOf, TypeIndexOf, BlockType, StackPop;
    var lbl, lhs, n := Target(fg, cx, l);
    PopInRange(fg.Abs());
    var c := fg.Pop();
    out := MovePeeks(fg, lhs, n);
    out := [IfOpen(c)] + out + [Goto(lbl), Close];
  }

  method BranchTable(fg: FuncGen, ls: seq<nat>, dflt: nat) returns (out: seq<CStmt>)
    requires fg.Valid() && InRange(fg.Abs()) && EmitBrTable(fg.Abs(), ls, dflt).Emit?
    modifies fg.Repr()
    ensures fg.Valid() && fresh(fg.Repr() - old(fg.Repr())) && InRange(fg.Abs())
    ensures Emit(fg.Abs(), 1, out) == EmitBrTable(old(fg.Abs()), ls, dflt)
  {
    hide InRange;
    PopInRange(fg.Abs());
    var c := fg.Pop();
    ghost var g := fg.Abs();
    label Popped:
    var targets := [];
    var i := 0;
    while i < |ls|
      invariant 0 <= i <= |ls| && targets == LabelsOf(g, ls)[..i]
      invariant unchanged@Popped(fg) && unchanged@Popped(fg.block) && fg.Valid() && fg.Abs() == g
    {
      var lbl := fg.BlockLabel(ls[i]);
      assert LabelsOf(g, ls)[i] == lbl;
      targets := targets + [lbl];
      i := i + 1;
    }
    var lbl := fg.BlockLabel(dflt);
    assert LabelsOf(g, ls)[..|ls|] == LabelsOf(g, ls);
    out := [Switch(c, targets, lbl)];
  }

  method Returning(fg: FuncGen, cx: Context) returns (out: seq<CStmt>)
    requires fg.Valid() && InRange(fg.Abs()) && EmitReturn(cx, fg.Abs()).Emit?
    modifies fg.Repr()
    ensures fg.Valid() && fresh(fg.Repr() - old(fg.Repr())) && InRange(fg.Abs())
    ensures Emit(fg.Abs(), 1, out) == EmitReturn(cx, old(fg.Abs()))
  {
    hide InRange, StackPop;
    if |cx.results| == 0 {
      out := [Ret(None)];
    } else {
      PopInRange(fg.Abs());
      var v := fg.Pop();
      out := [Ret(Some(v))];
    }
  }

  method Calling(fg: FuncGen, cx: Context, f: nat) returns (out: seq<CStmt>)
    requires fg.Valid() && InRange(fg.Abs()) && EmitCall(cx, fg.Abs(), f).Emit?
    modifies fg.Repr()
    ensures fg.Valid() && fresh(fg.Repr() - old(fg.Repr())) && InRange(fg.Abs())
    ensures Emit(fg.Abs(), 0, out) == EmitCall(cx, old(fg.Abs()), f)
  {
    hide InRange, StackPush, PopN;
    var ft := cx.m.types[cx.m.funcs[f].ty];
    var args := PopMany(fg, |ft.params|);
    if |ft.results| == 0 {
      out := [CallTo(None, f, args)];
    } else {
      PushInRange(fg.Abs(), ft.results[0]);
      InRangeReuse(fg.Abs());
      var d := fg.Push(ft.results[0]);
      out := [CallTo(Some(d), f, args)];
    }
  }

  // ---------------------------------------------------------------- brackets

  /** Declares a block's result variables, last one first. */
  method Declaring(fg: FuncGen, ts: seq<ValType>) returns (out: seq<CStmt>)
    requires fg.Valid() && InRange(fg.Abs())
    modifies fg.Repr()
    ensures fg.Valid() && fresh(fg.Repr() - old(fg.Repr())) && InRange(fg.Abs())
    ensures (fg.Abs(), out) == DeclareResults(old(fg.Abs()), ts)
    ensures fg.Abs().stack == old(fg.Abs()).stack
  {
    hide InRange, DeclareResults;
    ghost var g := fg.Abs();
    out := [];
    var i := |ts|;
    assert ts[..i] == ts && [] + DeclareResults(g, ts).1 == DeclareResults(g, ts).1;
    while i > 0
      invariant 0 <= i <= |ts| && fg.Valid() && fresh(fg.Repr() - old(fg.Repr())) && InRange(fg.Abs())
        && fg.Abs().stack == g.stack
      invariant DeclareResults(g, ts).0 == DeclareResults(fg.Abs(), ts[..i]).0
      invariant DeclareResults(g, ts).1 == out + DeclareResults(fg.Abs(), ts[..i]).1
    {
      DeclareStep(fg.Abs(), ts[..i]);
      assert ts[..i][..i - 1] == ts[..i - 1];
      i := i - 1;
      AllocInRange(fg.Abs(), ts[i].Code(), ResultRole);
      var v := fg.LocalAlloc(ts[i].Code(), ResultRole);
      ghost var rest := DeclareResults(fg.Abs(), ts[..i]).1;
      assert out + ([Declare(v, ts[i])] + rest) == out + [Declare(v, ts[i])] + rest;
      out := out + [Declare(v, ts[i])];
    }
    DeclareDone(fg.Abs(), out);
    assert ts[..0] == [];
  }

  lemma AllocInRange(g: Gen, ty: int, role: Role)
    requires InRange(g)
    ensures InRange(Alloc(g, ty, role).0)
  {
  }

  lemma DeclareStep(g: Gen, ts: seq<ValType>)
    requires ts != []
    ensures
      var (g1, v) := Alloc(g, ts[|ts| - 1].Code(), ResultRole);
      var r := DeclareResults(g1, ts[..|ts| - 1]);
      DeclareResults(g, ts) == (r.0, [Declare(v, ts[|ts| - 1])] + r.1)
  {
  }

  lemma DeclareDone(g: Gen, out: seq<CStmt>)
    ensures DeclareResults(g, []) == (g, []) && out + [] == out
  {
  }

  method Beginning(fg: FuncGen, cx: Context, kind: int, bt: int) returns (out: seq<CStmt>)
    requires fg.Valid() && InRange(fg.Abs()) && EmitBegin(cx, fg.Abs(), kind, bt).Emit?
    modifies fg.Repr()
    ensures fg.Valid() && fresh(fg.Repr() - old(fg.Repr())) && InRange(fg.Abs())
    ensures Emit(fg.Abs(), 0, out) == EmitBegin(cx, old(fg.Abs()), kind, bt)
  {
    hide InRange, DeclareResults, BlockBegin, BlockType;
    ghost var g := fg.Abs();
    BeginParts(cx, g, kind, bt);
    var ft := BlockType(cx.m.types, bt).value;
    var decls := Declaring(fg, ft.results);
    BeginInRange(fg.Abs(), kind, bt);
    BeginFits(fg.Abs(), kind, bt);
    out := fg.Begin(kind, bt);
    out := decls + out;
  }

  lemma BeginParts(cx: Context, g: Gen, kind: int, bt: int)
    requires EmitBegin(cx, g, kind, bt).Emit?
    ensures BlockType(cx.m.types, bt).Some?
    ensures
      var (g1, decls) := DeclareResults(g, BlockType(cx.m.types, bt).value.results);
      var e := BlockBegin(g1, kind, bt);
      e.Emit? && EmitBegin(cx, g, kind, bt) == Emit(e.g, 0, decls + e.out)
  {
  }

  lemma BeginFits(g: Gen, kind: int, bt: int)
    requires BlockBegin(g, kind, bt).Emit?
    ensures kind == KIf ==> |g.stack| > 0
    ensures BlockBegin(g, kind, bt).ud == 0
  {
  }

  /** The stores of a block's results, last result first. */
  method Storing(fg: FuncGen, first: nat, n: nat) returns (out: seq<CStmt>)
    requires fg.Valid() && InRange(fg.Abs()) && EndStores(fg.Abs(), first, n).Emit?
    modifies fg.Repr()
    ensures fg.Valid() && fresh(fg.Repr() - old(fg.Repr())) && InRange(fg.Abs())
    ensures Emit(fg.Abs(), 0, out) == EndStores(old(fg.Abs()), first, n)
  {
    hide StackPop, InRange, EndStores;
    ghost var e := EndStores(fg.Abs(), first, n);
    out := [];
    var i := n;
    assert [] + e.out == e.out;
    while i > 0
      invariant 0 <= i <= n && fg.Valid() && fresh(fg.Repr() - old(fg.Repr())) && InRange(fg.Abs())
      invariant EndStores(fg.Abs(), first, i).Emit? && e.g == EndStores(fg.Abs(), first, i).g
      invariant e.out == out + EndStores(fg.Abs(), first, i).out
    {
      ghost var g := fg.Abs();
      StoresStep(g, first, i);
      PopInRange(g);
      i := i - 1;
      var rhs := fg.Pop();
      ghost var rest := EndStores(fg.Abs(), first, i).out;
      assert out + ([Assign(Old(first + i), Var(rhs))] + rest) == out + [Assign(Old(first + i), Var(rhs))] + rest;
      out := out + [Assign(Old(first + i), Var(rhs))];
    }
    StoresDone(fg.Abs(), first, out);
    StoresDepth(old(fg.Abs()), first, n);
  }

  lemma StoresStep(g: Gen, first: nat, n: nat)
    requires n > 0 && EndStores(g, first, n).Emit?
    ensures |g.stack| > 0
    ensures
      var (g1, v) := StackPop(g);
      var e := EndStores(g1, first, n - 1);
      e.Emit? && EndStores(g, first, n).g == e.g
        && EndStores(g, first, n).out == [Assign(Old(first + n - 1), Var(v))] + e.out
  {
  }

  lemma StoresDone(g: Gen, first: nat, out: seq<CStmt>)
    ensures EndStores(g, first, 0) == Emit(g, 0, []) && out + [] == out
  {
  }

  lemma StoresDepth(g: Gen, first: nat, n: nat)
    ensures EndStores(g, first, n).Emit? ==> EndStores(g, first, n).ud == 0
  {
  }

  /** Leaves an arm. */
  method Leaving(fg: FuncGen, cx: Context, ud: nat) returns (out: seq<CStmt>)
    requires fg.Valid() && InRange(fg.Abs()) && LeaveArm(cx, fg.Abs(), ud).Emit?
    modifies fg.Repr()
    ensures fg.Valid() && fresh(fg.Repr() - old(fg.Repr())) && InRange(fg.Abs())
    ensures Emit(fg.Abs(), 0, out) == LeaveArm(cx, old(fg.Abs()), ud)
  {
    hide InRange, EndStores, BlockType, TypeIndexOf;
    LabelInRange(fg.Abs());
    var bt := fg.BlockTypeIndex(0);
    var lbl := fg.BlockLabel(0);
    var n := |BlockType(cx.m.types, bt).value.results|;
    out := [];
    if ud == 0 {
      out := Storing(fg, lbl - n, n);
    }
  }

  method Otherwise(fg: FuncGen, cx: Context, ud: nat) returns (out: seq<CStmt>)
    requires fg.Valid() && InRange(fg.Abs()) && EmitElse(cx, fg.Abs(), ud).Emit?
    modifies fg.Repr()
    ensures fg.Valid() && fresh(fg.Repr() - old(fg.Repr())) && InRange(fg.Abs())
    ensures Emit(fg.Abs(), 0, out) == EmitElse(cx, old(fg.Abs()), ud)
  {
    hide LeaveArm;
    out := Leaving(fg, cx, ud);
    fg.ReuseReset();
    out := out + [ElseOpen];
  }

  /** Pushes a block's results. */
  method Pushing(fg: FuncGen, first: nat, ts: seq<ValType>) returns (out: seq<CStmt>)
    requires fg.Valid() && InRange(fg.Abs())
    modifies fg.Repr()
    ensures fg.Valid() && fresh(fg.Repr() - old(fg.Repr())) && InRange(fg.Abs())
    ensures (fg.Abs(), out) == PushResults(old(fg.Abs()), first, ts)
  {
    hide InRange, PushResults, StackPush;
    ghost var g := fg.Abs();
    out := [];
    var i := 0;
    assert ts[0..] == ts && [] + PushResults(g, first, ts).1 == PushResults(g, first, ts).1;
    while i < |ts|
      invariant 0 <= i <= |ts| && fg.Valid() && fresh(fg.Repr() - old(fg.Repr())) && InRange(fg.Abs())
      invariant PushResults(g, first, ts).0 == PushResults(fg.Abs(), first + i, ts[i..]).0
      invariant PushResults(g, first, ts).1 == out + PushResults(fg.Abs(), first + i, ts[i..]).1
    {
      PushStep(fg.Abs(), first + i, ts[i..], out);
      PushInRange(fg.Abs(), ts[i]);
      InRangeReuse(fg.Abs());
      assert ts[i..][1..] == ts[i + 1..];
      var d := fg.Push(ts[i]);
      out := out + [Assign(d, Var(first + i))];
      i := i + 1;
    }
    PushDone(fg.Abs(), first + i, out);
    assert ts[i..] == [];
  }

  lemma PushStep(g: Gen, first: nat, ts: seq<ValType>, out: seq<CStmt>)
    requires ts != []
    ensures
      var (g1, d) := StackPush(g, ts[0]);
      var r := PushResults(g1, first + 1, ts[1..]);
      PushResults(g, first, ts).0 == r.0 && out + PushResults(g, first, ts).1 == out + [Assign(d, Var(first))] + r.1
  {
    hide StackPush;
    var (g1, d) := StackPush(g, ts[0]);
    var rest := PushResults(g1, first + 1, ts[1..]).1;
    assert out + ([Assign(d, Var(first))] + rest) == out + [Assign(d, Var(first))] + rest;
  }

  lemma PushDone(g: Gen, first: nat, out: seq<CStmt>)
    ensures PushResults(g, first, []) == (g, []) && out + [] == out
  {
  }

  method Ending(fg: FuncGen, cx: Context, ud: nat) returns (out: seq<CStmt>)
    requires fg.Valid() && InRange(fg.Abs()) && EmitEnd(cx, fg.Abs(), ud).Emit?
    modifies fg.Repr()
    ensures fg.Valid() && fresh(fg.Repr() - old(fg.Repr())) && InRange(fg.Abs())
    ensures Emit(fg.Abs(), 0, out) == EmitEnd(cx, old(fg.Abs()), ud)
  {
    hide InRange, LeaveArm, BlockType, TypeIndexOf, BlockEnd, PushResults;
    ghost var g := fg.Abs();
    var leave := Leaving(fg, cx, ud);
    ghost var g1 := fg.Abs();
    LabelInRange(g1);
    var bt := fg.BlockTypeIndex(0);
    var lbl := fg.BlockLabel(0);
    var rs := BlockType(cx.m.types, bt).value.results;
    EndInRange(g1);
    var close := fg.End();
    var push := Pushing(fg, lbl - |rs|, rs);
    out := leave + close + push;
  }

  lemma LabelInRange(g: Gen)
    requires InRange(g) && g.blocks != []
    ensures BlockAt(g, 0).lbl < |g.types|
  {
  }

  lemma EndInRange(g: Gen)
    requires InRange(g) && g.blocks != []
    ensures BlockEnd(g).Emit? ==> InRange(BlockEnd(g).g) && BlockEnd(g).ud == 0
  {
  }

  // ---------------------------------------------------------------- where the loop stops

  function Weight(t: Token): int { if t.Begin? then 1 else if t.End? then -1 else 0 }

  /** Openings less closings. */
  function Nest(ts: seq<Token>): int
    decreases ts
  {
    if ts == [] then 0 else Weight(ts[0]) + Nest(ts[1..])
  }

  lemma {:induction false} NestConcat(a: seq<Token>, b: seq<Token>)
    ensures Nest(a + b) == Nest(a) + Nest(b)
    decreases a
  {
    if a == [] {
      assert a + b == b;
    } else {
      assert (a + b)[1..] == a[1..] + b;
      NestConcat(a[1..], b);
    }
  }

  /** Code that closes what it opens, and nothing else. */
  predicate Closed(ts: seq<Token>) {
    Nest(ts) == 0 && forall k | 0 <= k <= |ts| :: Nest(ts[..k]) >= 0
  }

  lemma ClosedConcat(a: seq<Token>, b: seq<Token>)
    requires Closed(a) && Closed(b)
    ensures Closed(a + b)
  {
    NestConcat(a, b);
    forall k | 0 <= k <= |a + b| ensures Nest((a + b)[..k]) >= 0 {
      if k <= |a| {
        assert (a + b)[..k] == a[..k];
      } else {
        assert (a + b)[..k] == a + b[..k - |a|];
        NestConcat(a, b[..k - |a|]);
      }
    }
  }

  lemma ClosedBlock(kind: int, bt: int, a: seq<Token>)
    requires Closed(a)
    ensures Closed([Begin(kind, bt)] + a + [End])
  {
    var ts := [Begin(kind, bt)] + a + [End];
    forall k | 0 <= k <= |ts| ensures Nest(ts[..k]) >= if 0 < k < |ts| then 1 else 0 {
      if 0 < k < |ts| {
        assert ts[..k] == [Begin(kind, bt)] + a[..k - 1];
        NestConcat([Begin(kind, bt)], a[..k - 1]);
      } else if k == |ts| {
        assert ts[..k] == [Begin(kind, bt)] + a + [End];
        NestConcat([Begin(kind, bt)] + a, [End]);
        NestConcat([Begin(kind, bt)], a);
      }
    }
    assert ts[..|ts|] == ts;
    NestConcat([Begin(kind, bt)] + a, [End]);
    NestConcat([Begin(kind, bt)], a);
  }

  lemma ClosedOne(t: Token)
    requires Weight(t) == 0
    ensures Closed([t])
  {
    forall k | 0 <= k <= 1 ensures Nest([t][..k]) >= 0 {
      if k == 1 {
        assert [t][..k] == [t];
      }
    }
  }

  lemma {:induction false} FlattenClosed(c: Code)
    ensures Closed(Flatten(c))
    decreases c, 1
  {
    match c
    case Nil =>
    case Cons(i, rest) =>
      FlattenInstrClosed(i);
      FlattenClosed(rest);
      ClosedConcat(FlattenInstr(i), Flatten(rest));
  }

  lemma {:induction false} FlattenInstrClosed(i: Instr)
    ensures Closed(FlattenInstr(i))
    decreases i, 4
  {
    hide Closed, Flatten;
    match i
    case Block(bt, body) =>
      FlattenClosed(body);
      ClosedBlock(KBlock, bt, Flatten(body));
    case Loop(bt, body) =>
      FlattenClosed(body);
      ClosedBlock(KLoop, bt, Flatten(body));
    case If(bt, thn, hasElse, els) =>
      FlattenClosed(thn);
      FlattenClosed(els);
      ClosedArms(Flatten(thn), hasElse, Flatten(els));
      ClosedBlock(KIf, bt, ArmTokens(Flatten(thn), hasElse, Flatten(els)));
      IfTokens(bt, thn, hasElse, els);
    case _ => ClosedOne(Simple(i));
  }

  lemma ClosedArms(thn: seq<Token>, hasElse: bool, els: seq<Token>)
    requires Closed(thn) && Closed(els)
    ensures Closed(ArmTokens(thn, hasElse, els))
  {
    hide Closed;
    ClosedOne(Else);
    if hasElse {
      ClosedConcat([Else], els);
      ClosedConcat(thn, [Else] + els);
    }
  }

  /** How deep the translator is: open blocks, and dead blocks inside the innermost. */
  function Depth(g: Gen, ud: nat): nat { |g.blocks| + if ud > 0 then ud - 1 else 0 }

  lemma TokenDepth(cx: Context, g: Gen, ud: nat, t: Token)
    requires TokenOk(t) && EmitToken(cx, g, ud, t).Emit?
    ensures var e := EmitToken(cx, g, ud, t);
      && Depth(e.g, e.ud) == Depth(g, ud) + Weight(t)
      && (e.ud >= 2 ==> |e.g.blocks| == |g.blocks| && ud >= 1)
  {
    if t.Simple? && ud == 0 {
      PlainShape(cx, g, t.i);
      PlainDepth(cx, g, t.i);
    } else if t.Begin? && ud == 0 {
      BeginDepth(cx, g, t.kind, t.bt);
    } else if t.Else? && ud <= 1 {
      ElseShape(cx, g, ud);
    } else if t.End? && ud <= 1 {
      EndBlocks(cx, g, ud);
    }
  }

  lemma PlainDepth(cx: Context, g: Gen, i: Instr)
    requires !IsBlock(i)
    ensures EmitPlain(cx, g, i).Emit? ==> EmitPlain(cx, g, i).ud <= 1
  {
  }

  lemma BeginDepth(cx: Context, g: Gen, kind: int, bt: int)
    ensures var e := EmitBegin(cx, g, kind, bt); e.Emit? ==> |e.g.blocks| == |g.blocks| + 1 && e.ud == 0
  {
    var e := EmitBegin(cx, g, kind, bt);
    if e.Emit? {
      DeclareResultsSame(g, BlockType(cx.m.types, bt).value.results);
    }
  }

  lemma EndBlocks(cx: Context, g: Gen, ud: nat)
    ensures var e := EmitEnd(cx, g, ud); e.Emit? ==> |g.blocks| > 0 && |e.g.blocks| == |g.blocks| - 1 && e.ud == 0
  {
    var e := EmitEnd(cx, g, ud);
    if e.Emit? {
      LeaveShape(cx, g, ud);
      var g1 := LeaveArm(cx, g, ud).g;
      var b := BlockAt(g1, 0);
      var rs := BlockType(cx.m.types, TypeIndexOf(g1, b)).value.results;
      PushResultsSame(BlockEnd(g1).g, b.lbl - |rs|, rs);
    }
  }

  // ---------------------------------------------------------------- the loop

  /** One opcode of the code section. */
  method Step(fg: FuncGen, cx: Context, ud: nat, t: Token) returns (ud': nat, out: seq<CStmt>)
    requires fg.Valid() && InRange(fg.Abs()) && TokenOk(t) && EmitToken(cx, fg.Abs(), ud, t).Emit?
    modifies fg.Repr()
    ensures fg.Valid() && fresh(fg.Repr() - old(fg.Repr())) && InRange(fg.Abs())
    ensures Emit(fg.Abs(), ud', out) == EmitToken(cx, old(fg.Abs()), ud, t)
  {
    hide InRange, EmitPlain, EmitBegin, EmitElse, EmitEnd;
    ud', out := ud, [];
    match t
    case Simple(i) =>
      if ud == 0 {
        ud', out := Plainly(fg, cx, i);
      }
    case Begin(kind, bt) =>
      if ud == 0 {
        BeginDepth(cx, fg.Abs(), kind, bt);
        out := Beginning(fg, cx, kind, bt);
      } else {
        ud' := ud + 1;
      }
    case Else =>
      if ud <= 1 {
        out := Otherwise(fg, cx, ud);
        ud' := 0;
      }
    case End =>
      if ud <= 1 {
        out := Ending(fg, cx, ud);
        ud' := 0;
      } else {
        ud' := ud - 1;
      }
  }

  method Plainly(fg: FuncGen, cx: Context, i: Instr) returns (ud: nat, out: seq<CStmt>)
    requires fg.Valid() && InRange(fg.Abs()) && !IsBlock(i) && EmitPlain(cx, fg.Abs(), i).Emit?
    modifies fg.Repr()
    ensures fg.Valid() && fresh(fg.Repr() - old(fg.Repr())) && InRange(fg.Abs())
    ensures Emit(fg.Abs(), ud, out) == EmitPlain(cx, old(fg.Abs()), i)
  {
    hide InRange, EmitStraight, EmitBr, EmitBrIf, EmitBrTable, EmitReturn, EmitCall, IsStraight;
    ud := 0;
    if IsStraight(i) {
      out := Straight(fg, cx, i);
    } else if i.Call? {
      ControlOnly(i);
      out := Calling(fg, cx, i.f);
    } else if i.BrIf? {
      ControlOnly(i);
      out := BranchIf(fg, cx, i.l);
    } else {
      ControlOnly(i);
      ud, out := Transfer(fg, cx, i);
    }
  }

  lemma ControlOnly(i: Instr)
    requires !IsStraight(i)
    ensures IsControl(i)
  {
  }

  method Transfer(fg: FuncGen, cx: Context, i: Instr) returns (ud: nat, out: seq<CStmt>)
    requires fg.Valid() && InRange(fg.Abs()) && EmitPlain.requires(cx, fg.Abs(), i) && EmitPlain(cx, fg.Abs(), i).Emit?
    requires i.Br? || i.BrTable? || i.Return? || i.Unreachable?
    modifies fg.Repr()
    ensures fg.Valid() && fresh(fg.Repr() - old(fg.Repr())) && InRange(fg.Abs())
    ensures Emit(fg.Abs(), ud, out) == EmitPlain(cx, old(fg.Abs()), i)
  {
    hide InRange, EmitBr, EmitBrTable, EmitReturn;
    ud := 1;
    if i.Br? {
      out := Branch(fg, cx, i.l);
    } else if i.BrTable? {
      out := BranchTable(fg, i.ls, i.dflt);
    } else if i.Return? {
      out := Returning(fg, cx);
    } else {
      out := [Abort];
    }
  }

  lemma TokensStep(cx: Context, g: Gen, ud: nat, ts: seq<Token>)
    requires ts != [] && (forall t | t in ts :: TokenOk(t)) && EmitTokens(cx, g, ud, ts).Emit?
    ensures
      var e := EmitToken(cx, g, ud, ts[0]);
      && e.Emit? && EmitTokens(cx, e.g, e.ud, ts[1..]).Emit?
      && EmitTokens(cx, g, ud, ts).g == EmitTokens(cx, e.g, e.ud, ts[1..]).g
      && EmitTokens(cx, g, ud, ts).ud == EmitTokens(cx, e.g, e.ud, ts[1..]).ud
      && EmitTokens(cx, g, ud, ts).out == e.out + EmitTokens(cx, e.g, e.ud, ts[1..]).out
  {
  }

  /** The tokens of a function body: closed code, and the `end` of the function. */
  predicate BodyTokens(ts: seq<Token>) {
    |ts| > 0 && ts[|ts| - 1] == End && Closed(ts[..|ts| - 1])
  }

  lemma NestNext(ts: seq<Token>, k: nat)
    requires k < |ts|
    ensures Nest(ts[..k + 1]) == Nest(ts[..k]) + Weight(ts[k])
  {
    assert ts[..k + 1] == ts[..k] + [ts[k]];
    NestConcat(ts[..k], [ts[k]]);
    assert [ts[k]][1..] == [];
  }

  lemma NestInside(ts: seq<Token>, k: nat)
    requires BodyTokens(ts) && k <= |ts|
    ensures k < |ts| ==> Nest(ts[..k]) >= 0
    ensures k == |ts| ==> Nest(ts[..k]) == -1
  {
    var body := ts[..|ts| - 1];
    if k < |ts| {
      assert ts[..k] == body[..k];
    } else {
      NestNext(ts, |ts| - 1);
      assert ts[..|ts|] == ts;
    }
  }

  /**
   The loop: it reads opcodes while a block is open, and stops exactly at the function's final `end`,
   whatever bytes follow.
   */
  method ReadBody(fg: FuncGen, cx: Context, code: seq<Token>, ghost body: seq<Token>) returns (k: nat, out: seq<CStmt>)
    requires fg.Valid() && InRange(fg.Abs()) && fg.blockI == 1
    requires (forall t | t in body :: TokenOk(t)) && BodyTokens(body) && body <= code
      && EmitTokens(cx, fg.Abs(), 0, body).Emit?
    modifies fg.Repr()
    ensures fg.Valid() && fresh(fg.Repr() - old(fg.Repr())) && InRange(fg.Abs())
    ensures k == |body| && fg.blockI == 0
    ensures
      var e := EmitTokens(cx, old(fg.Abs()), 0, body);
      fg.Abs() == e.g && out == e.out
  {
    hide InRange, EmitTokens, EmitToken, TokenOk, BodyTokens, Nest;
    ghost var e := EmitTokens(cx, fg.Abs(), 0, body);
    var ud: nat := 0;
    k, out := 0, [];
    assert body[0..] == body && [] + e.out == e.out;
    NestStart(body);
    while fg.blockI > 0
      invariant k <= |body| && fg.Valid() && fresh(fg.Repr() - old(fg.Repr())) && InRange(fg.Abs())
      invariant fg.blockI == |fg.Abs().blocks| && Depth(fg.Abs(), ud) == 1 + Nest(body[..k])
        && (ud >= 2 ==> fg.blockI >= 1)
      invariant forall t | t in body[k..] :: TokenOk(t)
      invariant EmitTokens(cx, fg.Abs(), ud, body[k..]).Emit? && EmitTokens(cx, fg.Abs(), ud, body[k..]).g == e.g
      invariant e.out == out + EmitTokens(cx, fg.Abs(), ud, body[k..]).out
      decreases |body| - k
    {
      NestInside(body, k);
      ghost var g, rest := fg.Abs(), body[k..];
      assert rest[0] == code[k] && rest[1..] == body[k + 1..];
      TokensStep(cx, g, ud, rest);
      TokenDepth(cx, g, ud, code[k]);
      NestNext(body, k);
      NestInside(body, k + 1);
      var ud', more := Step(fg, cx, ud, code[k]);
      ghost var after := EmitTokens(cx, fg.Abs(), ud', rest[1..]).out;
      assert out + (more + after) == out + more + after;
      ud, out, k := ud', out + more, k + 1;
    }
    NestInside(body, k);
    TokensDone(cx, fg.Abs(), ud, out);
    assert body[|body|..] == [];
  }

  lemma NestStart(ts: seq<Token>)
    ensures Nest(ts[..0]) == 0
  {
  }

  lemma TokensDone(cx: Context, g: Gen, ud: nat, out: seq<CStmt>)
    ensures EmitTokens(cx, g, ud, []) == Emit(g, ud, []) && out + [] == out
  {
  }

  /** Hands out the numbers of parameters or declared locals. */
  method Locals(fg: FuncGen, ts: seq<ValType>)
    requires fg.Valid() && InRange(fg.Abs())
    modifies fg.Repr()
    ensures fg.Valid() && fresh(fg.Repr() - old(fg.Repr())) && InRange(fg.Abs())
    ensures fg.Abs() == AllocLocals(old(fg.Abs()), ts)
  {
    ghost var g := fg.Abs();
    var i := 0;
    LocalsStart(g, ts);
    while i < |ts|
      invariant 0 <= i <= |ts| && fg.Valid() && fresh(fg.Repr() - old(fg.Repr())) && InRange(fg.Abs())
      invariant fg.Abs() == AllocLocals(g, ts[..i])
    {
      LocalsStep(g, ts, i);
      AllocInRange(fg.Abs(), ts[i].Code(), LocalRole);
      var v := fg.LocalAlloc(ts[i].Code(), LocalRole);
      i := i + 1;
    }
    assert ts[..i] == ts;
  }

  lemma LocalsStart(g: Gen, ts: seq<ValType>)
    ensures AllocLocals(g, ts[..0]) == g
  {
    assert g.types + [] == g.types && g.roles + [] == g.roles;
  }

  lemma LocalsStep(g: Gen, ts: seq<ValType>, i: nat)
    requires i < |ts|
    ensures AllocLocals(g, ts[..i + 1]) == Alloc(AllocLocals(g, ts[..i]), ts[i].Code(), LocalRole).0
  {
    var a, b := AllocLocals(g, ts[..i + 1]), Alloc(AllocLocals(g, ts[..i]), ts[i].Code(), LocalRole).0;
    assert a.types == b.types && a.roles == b.roles;
  }

  lemma BodyClosed(c: Code)
    ensures BodyTokens(Flatten(c) + [End])
  {
    FlattenClosed(c);
    var ts := Flatten(c) + [End];
    assert ts[..|ts| - 1] == Flatten(c);
  }

  lemma EmptyInRange()
    ensures InRange(EmptyGen)
  {
  }

  /** The state and the statements in front of the loop. */
  lemma ProloguePlace(m: Module, f: Func)
    requires ValidModule(m) && f in m.funcs
    ensures f.ty < |m.types|
    ensures
      var b := FuncSite(m, f);
      var (g1, decls) := DeclareResults(AllocLocals(EmptyGen, m.types[f.ty].params + f.locals), m.types[f.ty].results);
      && BlockBegin(g1, KBlock, f.ty) == Emit(b.Start(), 0, []) && decls == b.Decls() && |b.Start().blocks| == 1
  {
    hide ValidModule, SiteOk, BodyChecked, DeclareResults;
    EntrySite(m, f);
    EntryResults(m, f);
    var b := FuncSite(m, f);
    SiteOpens(b);
    OneBlock(m, f);
    CodeSound.BlockBeginForm(b.Declared(), KBlock, f.ty);
  }

  lemma EntryResults(m: Module, f: Func)
    requires ValidModule(m) && f in m.funcs
    ensures f.ty < |m.types| && FuncSite(m, f).Results() == m.types[f.ty].results
  {
    hide SiteOk, BodyChecked, Translator.TransFunc;
    FuncEmits(m, f);
  }

  /** What the loop and the closing `return` add. */
  lemma FunctionParts(m: Module, f: Func)
    requires ValidModule(m) && f in m.funcs
    ensures f.ty < |m.types| && TransFunc(m, f).Emit? && |m.types[f.ty].results| <= 1
    ensures forall t | t in Flatten(f.body) + [End] :: TokenOk(t)
    ensures
      var b := FuncSite(m, f);
      var e := EmitTokens(b.cx, b.Start(), 0, Flatten(f.body) + [End]);
      && e.Emit? && |e.g.stack| == |m.types[f.ty].results|
      && TransFunc(m, f).out == Zeros(m, f) + b.Decls() + e.out +
           if m.types[f.ty].results == [] then [] else [Ret(Some(StackPop(e.g).1))]
  {
    hide ValidModule, SiteOk, BodyChecked, TransTail, TransFunc, EmitTokens, Flatten, TokenOk;
    FuncEmits(m, f);
    var b := FuncSite(m, f);
    OnePassTail(b.cx, b.Start(), f.body);
  }

  /** A whole function: what the loop emits is the translation of the function, for any bytes behind it. */
  method TranslateFunction(fg: FuncGen, m: Module, f: Func, code: seq<Token>) returns (k: nat, out: seq<CStmt>)
    requires fg.Valid() && ValidModule(m) && f in m.funcs && Flatten(f.body) + [End] <= code
    modifies fg.Repr()
    ensures f.ty < |m.types| && k == |Flatten(f.body)| + 1
    ensures TransFunc(m, f).Emit? && out == TransFunc(m, f).out
  {
    hide ValidModule, InRange, EmitTokens, DeclareResults, BlockBegin, ZeroLocals, BodyTokens, Flatten, StackPop,
         AllocLocals, TransFunc, TokenOk;
    FunctionParts(m, f);
    ProloguePlace(m, f);
    var cx := FuncContext(m, f);
    ghost var b := FuncSite(m, f);
    ghost var body := Flatten(f.body) + [End];
    BodyClosed(f.body);
    fg.Reset();
    EmptyInRange();
    Locals(fg, m.types[f.ty].params + f.locals);
    var decls := Declaring(fg, m.types[f.ty].results);
    BeginInRange(fg.Abs(), KBlock, f.ty);
    var open := fg.Begin(KBlock, f.ty);
    assert fg.blockI == |fg.Abs().blocks|;
    var rest;
    k, rest := ReadBody(fg, cx, code, body);
    out := ZeroLocals(|m.types[f.ty].params|, f.locals) + decls + rest;
    assert |fg.Abs().stack| == fg.stackI;
    if |m.types[f.ty].results| == 1 {
      var v := fg.Pop();
      out := out + [Ret(Some(v))];
    } else {
      assert out + [] == out;
    }
  }
}
