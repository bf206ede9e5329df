/**
 What the one-pass translator of wasm2c.c does to one function, as functions on values: the generator
 state of FuncGen.h, the step for each token of the code section, and the same translation read off
 the structured code.
 */
module Translator {
  import opened Options
  import opened Wasm
  import opened CLang
  import opened Emitted

  // ---------------------------------------------------------------- generator state

  /** What a number of the local/label numbering was handed out for. */
  datatype Role = LocalRole | ResultRole | LabelRole | TempRole

  datatype BlockRec = BlockRec(ty: nat, lbl: nat, stackBase: nat, reuseBase: nat)

  /** `types` holds a value type's code for a variable and the packed block kind for a label. */
  datatype Gen = Gen(types: seq<int>, roles: seq<Role>, reuse: seq<nat>, stack: seq<nat>, blocks: seq<BlockRec>)

  const KBlock := 2
  const KLoop := 3
  const KIf := 4

  // The bitwise complement of a two's complement number.
  function Not(x: int): int { -x - 1 }

  function Alloc(g: Gen, ty: int, role: Role): (Gen, nat) {
    (g.(types := g.types + [ty], roles := g.roles + [role]), |g.types|)
  }

  function ReuseTop(g: Gen): nat {
    if g.blocks == [] then 0 else g.blocks[|g.blocks| - 1].reuseBase
  }

  predicate HasType(g: Gen, v: nat, ty: ValType) {
    v < |g.types| && g.types[v] == ty.Code()
  }

  /** The first free local of the type at or after position `i`, or the length. */
  function FindFree(g: Gen, ty: ValType, i: nat): (j: nat)
    requires i <= |g.reuse|
    ensures i <= j <= |g.reuse|
    ensures j < |g.reuse| ==> HasType(g, g.reuse[j], ty)
    decreases |g.reuse| - i
  {
    if i == |g.reuse| || HasType(g, g.reuse[i], ty) then i else FindFree(g, ty, i + 1)
  }

  /** Removes position `i` by moving the last entry into it. */
  function SwapRemove(s: seq<nat>, i: nat): seq<nat>
    requires i < |s|
  {
    s[i := s[|s| - 1]][..|s| - 1]
  }

  function TakeLocal(g: Gen, ty: ValType): (Gen, Dst) {
    var j := if ReuseTop(g) <= |g.reuse| then FindFree(g, ty, ReuseTop(g)) else |g.reuse|;
    if j < |g.reuse| then (g.(reuse := SwapRemove(g.reuse, j)), Old(g.reuse[j]))
    else
      var (g', v) := Alloc(g, ty.Code(), TempRole);
      (g', New(v, ty))
  }

  function StackPush(g: Gen, ty: ValType): (Gen, Dst) {
    var (g', d) := TakeLocal(g, ty);
    (g'.(stack := g'.stack + [d.v]), d)
  }

  function StackPop(g: Gen): (Gen, nat)
    requires |g.stack| > 0
  {
    var v := g.stack[|g.stack| - 1];
    (g.(stack := g.stack[..|g.stack| - 1], reuse := g.reuse + [v]), v)
  }

  function StackAt(g: Gen, k: nat): nat
    requires k < |g.stack|
  {
    g.stack[|g.stack| - 1 - k]
  }

  /** Pops `n` operands; the variables are listed bottom first. */
  function PopN(g: Gen, n: nat): (r: (Gen, seq<nat>))
    requires n <= |g.stack|
    ensures |r.1| == n
    decreases n
  {
    if n == 0 then (g, [])
    else
      var (g1, v) := StackPop(g);
      var (g2, vs) := PopN(g1, n - 1);
      (g2, vs + [v])
  }

  // ---------------------------------------------------------------- block records

  function PackKind(kind: int, bt: int): int { if bt < 0 then Not(kind) else kind }

  function PackType(bt: int): nat { (if bt < 0 then Not(bt) else bt) % 0x1_0000_0000 }

  function BlockAt(g: Gen, l: nat): BlockRec
    requires l < |g.blocks|
  {
    g.blocks[|g.blocks| - 1 - l]
  }

  function PackedKind(g: Gen, b: BlockRec): int {
    if b.lbl < |g.types| then g.types[b.lbl] else 0
  }

  function KindOf(g: Gen, b: BlockRec): int {
    if PackedKind(g, b) < 0 then Not(PackedKind(g, b)) else PackedKind(g, b)
  }

  function TypeIndexOf(g: Gen, b: BlockRec): int {
    if PackedKind(g, b) < 0 then Not(b.ty) else b.ty
  }

  // ---------------------------------------------------------------- straight-line instructions

  /** In-place operators leave their first operand on the stack and write over it. */
  predicate Peeks(i: Instr) {
    i.Select? || i.LocalTee? || i.Binary? || (i.Eqz? && i.ty.I32?) || (i.Compare? && i.ty.I32?)
  }

  function TypeOfCode(code: int): Option<ValType> {
    if code == I32.Code() then Some(I32) else if code == I64.Code() then Some(I64) else None
  }

  /** The type of the operand an instruction pushes, when it pushes one. */
  function Pushes(cx: Context, g: Gen, i: Instr): Option<ValType> {
    match i
    case LocalGet(x) => if x < |g.types| then TypeOfCode(g.types[x]) else None
    case GlobalGet(x) => if x < |cx.m.globals| then Some(cx.m.globals[x]) else None
    case LoadInt(ty, _, _, _, _) => Some(ty)
    case MemorySize => Some(I32)
    case Const(v) => Some(v.ty)
    case Eqz(ty) => if ty.I64? then Some(I32) else None
    case Compare(ty, _) => if ty.I64? then Some(I32) else None
    case Wrap => Some(I32)
    case Extend(_) => Some(I64)
    case SignExt(ty, _) => Some(ty)
    case _ => None
  }

  predicate MustPush(i: Instr) {
    || i.LocalGet? || i.GlobalGet? || i.LoadInt? || i.MemorySize? || i.Const? || i.Wrap? || i.Extend? || i.SignExt?
    || (i.Eqz? && i.ty.I64?) || (i.Compare? && i.ty.I64?)
  }

  /** The statement printed for an instruction whose operands are in the variables `args`. */
  function StraightStmt(i: Instr, args: seq<nat>, d: Dst): seq<CStmt>
    requires IsStraight(i) && |args| == Operands(i)
  {
    match i
    case Drop => [Discard(args[0])]
    case Select => [Assign(Old(args[0]), CondE(Var(args[2]), Var(args[0]), Var(args[1])))]
    case LocalGet(x) => [Assign(d, Var(x))]
    case LocalSet(x) => [Assign(Old(x), Var(args[0]))]
    case LocalTee(x) => [Assign(Old(x), Var(args[0]))]
    case GlobalGet(x) => [Assign(d, GlobalVar(x))]
    case GlobalSet(x) => [AssignGlobal(x, Var(args[0]))]
    case LoadInt(_, bytes, signed, _, offset) => [Assign(d, LoadExpr(bytes, signed, args[0], offset))]
    case StoreInt(ty, bytes, _, offset) =>
      [StoreBytes(bytes, Address(args[0], offset), StoredExpr(ty, bytes, args[1]))]
    case MemorySize => [Assign(d, Pages)]
    case Const(v) => [Assign(d, Lit(TypeOf(v.ty), v.n))]
    case Eqz(ty) => [Assign(if ty.I32? then Old(args[0]) else d, NotE(Var(args[0])))]
    case Compare(ty, rel) =>
      var e := CompareExpr(ty, rel, args[0], args[1]);
      if ty.I32? then [Assign(Old(args[0]), e)]
      else if IsSignedRel(rel) then [AssignVia(d, args[0], e)]
      else [Assign(d, e)]
    case Binary(ty, op) => [Assign(Old(args[0]), BinaryExpr(ty, op, args[0], args[1]))]
    case Wrap => [Assign(d, Cast(Unsigned(32), Var(args[0])))]
    case Extend(signed) => [Assign(d, Cast(CType(32, signed), Var(args[0])))]
    case SignExt(_, bits) => [Assign(d, Cast(CType(bits, true), Var(args[0])))]
    case _ => []
  }

  // ---------------------------------------------------------------- one step of the translator

  /** `ud` is `unreachable_depth`; a fault is a stack or index read out of bounds, or a panic. */
  datatype Emission = Emit(g: Gen, ud: nat, out: seq<CStmt>) | Fault

  /** The operands of an instruction as variables, bottom first. */
  function Args(g: Gen, i: Instr): (vs: seq<nat>)
    requires Operands(i) <= |g.stack|
    ensures |vs| == Operands(i)
  {
    g.stack[|g.stack| - Operands(i)..]
  }

  /** How many of its operands an instruction pops. */
  function Popped(i: Instr): nat {
    if Peeks(i) && Operands(i) > 0 then Operands(i) - 1 else Operands(i)
  }

  function EmitStraight(cx: Context, g: Gen, i: Instr): Emission
    requires IsStraight(i)
  {
    if |g.stack| < Operands(i) then Fault
    else if MustPush(i) then EmitPush(cx, g, i)
    else Emit(PopN(g, Popped(i)).0, 0, StraightStmt(i, Args(g, i), Old(0)))
  }

  function EmitPush(cx: Context, g: Gen, i: Instr): Emission
    requires IsStraight(i) && Operands(i) <= |g.stack|
  {
    match Pushes(cx, g, i)
    case None => Fault
    case Some(ty) =>
      var (g', d) := StackPush(PopN(g, Popped(i)).0, ty);
      Emit(g', 0, StraightStmt(i, Args(g, i), d))
  }

  // `br` pops one value per label result, top first, into ascending variables.
  function PopMoves(g: Gen, lhs: nat, n: nat): Emission
    decreases n
  {
    if n == 0 then Emit(g, 0, [])
    else if |g.stack| == 0 then Fault
    else
      var (g1, v) := StackPop(g);
      match PopMoves(g1, lhs + 1, n - 1)
      case Fault => Fault
      case Emit(g2, _, out) => Emit(g2, 0, [Assign(Old(lhs), Var(v))] + out)
  }

  // `br_if` reads the same values in place.
  function PeekMoves(g: Gen, lhs: nat, n: nat, i: nat): Emission
    decreases n - i
  {
    if i >= n then Emit(g, 0, [])
    else if i >= |g.stack| then Fault
    else
      match PeekMoves(g, lhs + 1, n, i + 1)
      case Fault => Fault
      case Emit(_, _, out) => Emit(g, 0, [Assign(Old(lhs), Var(StackAt(g, i)))] + out)
  }

  function EmitBr(cx: Context, g: Gen, l: nat): Emission {
    if l >= |g.blocks| then Fault
    else
      var b := BlockAt(g, l);
      match BlockType(cx.m.types, TypeIndexOf(g, b))
      case None => Fault
      case Some(ft) =>
        var loop := KindOf(g, b) == KLoop;
        var n := if loop then |ft.params| else |ft.results|;
        var below := |ft.results| + if loop then |ft.params| else 0;
        if b.lbl < below then Fault
        else
          match PopMoves(g, b.lbl - below, n)
          case Fault => Fault
          case Emit(g', _, out) => Emit(g', 1, out + [Goto(b.lbl)])
  }

  function EmitBrIf(cx: Context, g: Gen, l: nat): Emission {
    if l >= |g.blocks| || |g.stack| == 0 then Fault
    else
      var b := BlockAt(g, l);
      match BlockType(cx.m.types, TypeIndexOf(g, b))
      case None => Fault
      case Some(ft) =>
        var loop := KindOf(g, b) == KLoop;
        var n := if loop then |ft.params| else |ft.results|;
        var below := |ft.results| + if loop then |ft.params| else 0;
        if b.lbl < below then Fault
        else
          var (g1, c) := StackPop(g);
          match PeekMoves(g1, b.lbl - below, n, 0)
          case Fault => Fault
          case Emit(_, _, out) => Emit(g1, 0, [IfOpen(c)] + out + [Goto(b.lbl), Close])
  }

  function LabelsOf(g: Gen, ls: seq<nat>): seq<nat>
    requires forall k | 0 <= k < |ls| :: ls[k] < |g.blocks|
  {
    seq(|ls|, (k: nat) requires k < |ls| => BlockAt(g, ls[k]).lbl)
  }

  function EmitBrTable(g: Gen, ls: seq<nat>, dflt: nat): Emission {
    if |g.stack| == 0 || dflt >= |g.blocks| || exists k | 0 <= k < |ls| :: ls[k] >= |g.blocks| then Fault
    else
      var (g1, c) := StackPop(g);
      Emit(g1, 1, [Switch(c, LabelsOf(g1, ls), BlockAt(g1, dflt).lbl)])
  }

  function EmitReturn(cx: Context, g: Gen): Emission {
    if |cx.results| == 0 then Emit(g, 1, [Ret(None)])
    else if |cx.results| > 1 || |g.stack| == 0 then Fault
    else
      var (g1, v) := StackPop(g);
      Emit(g1, 1, [Ret(Some(v))])
  }

  function EmitCall(cx: Context, g: Gen, f: nat): Emission {
    if f >= |cx.m.funcs| || cx.m.funcs[f].ty >= |cx.m.types| then Fault
    else
      var ft := cx.m.types[cx.m.funcs[f].ty];
      if |g.stack| < |ft.params| || |ft.results| > 1 then Fault
      else
        var (g1, args) := PopN(g, |ft.params|);
        if |ft.results| == 0 then Emit(g1, 0, [CallTo(None, f, args)])
        else
          var (g2, d) := StackPush(g1, ft.results[0]);
          Emit(g2, 0, [CallTo(Some(d), f, args)])
  }

  predicate IsBlock(i: Instr) { i.Block? || i.Loop? || i.If? }

  /** A reachable instruction other than a block. */
  function EmitPlain(cx: Context, g: Gen, i: Instr): Emission
    requires !IsBlock(i)
  {
    if IsStraight(i) then EmitStraight(cx, g, i)
    else
    match i
    case Unreachable => Emit(g, 1, [Abort])
    case Br(l) => EmitBr(cx, g, l)
    case BrIf(l) => EmitBrIf(cx, g, l)
    case BrTable(ls, dflt) => EmitBrTable(g, ls, dflt)
    case Return => EmitReturn(cx, g)
    case Call(f) => EmitCall(cx, g, f)
    case _ => Fault
  }

  /** Declares a block's result variables, last one first. */
  function DeclareResults(g: Gen, ts: seq<ValType>): (Gen, seq<CStmt>)
    decreases |ts|
  {
    if ts == [] then (g, [])
    else
      var t := ts[|ts| - 1];
      var (g1, v) := Alloc(g, t.Code(), ResultRole);
      var (g2, out) := DeclareResults(g1, ts[..|ts| - 1]);
      (g2, [Declare(v, t)] + out)
  }

  function BlockBegin(g: Gen, kind: int, bt: int): Emission {
    if kind == KIf && |g.stack| == 0 then Fault
    else
      var (g1, c) := if kind == KIf then StackPop(g) else (g, 0);
      var (g2, lbl) := Alloc(g1, PackKind(kind, bt), LabelRole);
      var g3 := g2.(blocks := g2.blocks + [BlockRec(PackType(bt), lbl, |g2.stack|, |g2.reuse|)]);
      Emit(g3, 0,
           (if kind == KIf then [IfOpen(c)] else []) +
           (if kind == KLoop then [Goto(lbl), LabelHere(lbl)] else []))
  }

  function EmitBegin(cx: Context, g: Gen, kind: int, bt: int): Emission {
    match BlockType(cx.m.types, bt)
    case None => Fault
    case Some(ft) =>
      if |ft.params| > 0 then Fault
      else
        var (g1, decls) := DeclareResults(g, ft.results);
        match BlockBegin(g1, kind, bt)
        case Fault => Fault
        case Emit(g2, _, out) => Emit(g2, 0, decls + out)
  }

  // The fall-through stores of a block's results, last result first.
  function EndStores(g: Gen, first: nat, n: nat): Emission
    decreases n
  {
    if n == 0 then Emit(g, 0, [])
    else if |g.stack| == 0 then Fault
    else
      var (g1, v) := StackPop(g);
      match EndStores(g1, first, n - 1)
      case Fault => Fault
      case Emit(g2, _, out) => Emit(g2, 0, [Assign(Old(first + n - 1), Var(v))] + out)
  }

  /** Leaves an arm: stores its results if its end is reachable. */
  function LeaveArm(cx: Context, g: Gen, ud: nat): Emission {
    if g.blocks == [] then Fault
    else
      var b := BlockAt(g, 0);
      match BlockType(cx.m.types, TypeIndexOf(g, b))
      case None => Fault
      case Some(ft) =>
        if b.lbl < |ft.results| then Fault
        else if ud > 0 then Emit(g, 0, [])
        else EndStores(g, b.lbl - |ft.results|, |ft.results|)
  }

  function EmitElse(cx: Context, g: Gen, ud: nat): Emission {
    match LeaveArm(cx, g, ud)
    case Fault => Fault
    case Emit(g1, _, out) =>
      if ReuseTop(g1) > |g1.reuse| then Fault
      else Emit(g1.(reuse := g1.reuse[..ReuseTop(g1)]), 0, out + [ElseOpen])
  }

  function PushResults(g: Gen, first: nat, ts: seq<ValType>): (Gen, seq<CStmt>)
    decreases |ts|
  {
    if ts == [] then (g, [])
    else
      var (g1, d) := StackPush(g, ts[0]);
      var (g2, out) := PushResults(g1, first + 1, ts[1..]);
      (g2, [Assign(d, Var(first))] + out)
  }

  function BlockEnd(g: Gen): Emission
    requires g.blocks != []
  {
    var b := BlockAt(g, 0);
    var kind := KindOf(g, b);
    if b.stackBase > |g.stack| || b.reuseBase > |g.reuse| then Fault
    else
      Emit(g.(blocks := g.blocks[..|g.blocks| - 1], stack := g.stack[..b.stackBase], reuse := g.reuse[..b.reuseBase]),
          0, (if kind != KLoop then [Goto(b.lbl), LabelHere(b.lbl)] else []) +
           (if kind == KIf then [Close] else []))
  }

  function EmitEnd(cx: Context, g: Gen, ud: nat): Emission {
    match LeaveArm(cx, g, ud)
    case Fault => Fault
    case Emit(g1, _, out1) =>
      if g1.blocks == [] then Fault
      else
        var b := BlockAt(g1, 0);
        match BlockType(cx.m.types, TypeIndexOf(g1, b))
        case None => Fault
        case Some(ft) =>
          if b.lbl < |ft.results| then Fault
          else
            match BlockEnd(g1)
            case Fault => Fault
            case Emit(g2, _, out2) =>
              var (g3, out3) := PushResults(g2, b.lbl - |ft.results|, ft.results);
              Emit(g3, 0, out1 + out2 + out3)
  }

  /** The code section's flat form: an opcode with its immediates. */
  datatype Token = Simple(i: Instr) | Begin(kind: int, bt: int) | Else | End

  predicate TokenOk(t: Token) { t.Simple? ==> !IsBlock(t.i) }

  function EmitToken(cx: Context, g: Gen, ud: nat, t: Token): Emission
    requires TokenOk(t)
  {
    match t
    case Simple(i) => if ud == 0 then EmitPlain(cx, g, i) else Emit(g, ud, [])
    case Begin(kind, bt) => if ud == 0 then EmitBegin(cx, g, kind, bt) else Emit(g, ud + 1, [])
    case Else => if ud <= 1 then EmitElse(cx, g, ud) else Emit(g, ud, [])
    case End => if ud <= 1 then EmitEnd(cx, g, ud) else Emit(g, ud - 1, [])
  }

  function EmitTokens(cx: Context, g: Gen, ud: nat, ts: seq<Token>): Emission
    requires forall t | t in ts :: TokenOk(t)
    decreases ts
  {
    if ts == [] then Emit(g, ud, [])
    else
      match EmitToken(cx, g, ud, ts[0])
      case Fault => Fault
      case Emit(g1, ud1, out1) =>
        match EmitTokens(cx, g1, ud1, ts[1..])
        case Fault => Fault
        case Emit(g2, ud2, out2) => Emit(g2, ud2, out1 + out2)
  }

  // ---------------------------------------------------------------- structured reading

  function Flatten(c: Code): (ts: seq<Token>)
    ensures forall t | t in ts :: TokenOk(t)
    decreases c, 1
  {
    match c
    case Nil => []
    case Cons(i, rest) => FlattenInstr(i) + Flatten(rest)
  }

  function FlattenInstr(i: Instr): (ts: seq<Token>)
    ensures forall t | t in ts :: TokenOk(t)
    decreases i, 4
  {
    match i
    case Block(bt, body) => [Begin(KBlock, bt)] + Flatten(body) + [End]
    case Loop(bt, body) => [Begin(KLoop, bt)] + Flatten(body) + [End]
    case If(bt, thn, hasElse, els) =>
      [Begin(KIf, bt)] + Flatten(thn) + (if hasElse then [Else] + Flatten(els) else []) + [End]
    case _ => [Simple(i)]
  }

  /** Puts one emission after another. */
  function Prepend(out: seq<CStmt>, e: Emission): Emission {
    match e
    case Fault => Fault
    case Emit(g, ud, out') => Emit(g, ud, out + out')
  }

  /** Code from a reachable point; the result's `ud` is 1 when its end is unreachable. */
  function TransCode(cx: Context, g: Gen, c: Code): Emission
    decreases c, 1
  {
    match c
    case Nil => Emit(g, 0, [])
    case Cons(i, rest) =>
      match TransInstr(cx, g, i)
      case Fault => Fault
      case Emit(g1, ud, out) => if ud > 0 then Emit(g1, ud, out) else Prepend(out, TransCode(cx, g1, rest))
  }

  function TransInstr(cx: Context, g: Gen, i: Instr): Emission
    decreases i, 4
  {
    match i
    case Block(bt, body) => TransBlock(cx, g, KBlock, bt, body)
    case Loop(bt, body) => TransBlock(cx, g, KLoop, bt, body)
    case If(bt, _, _, _) =>
      (match EmitBegin(cx, g, KIf, bt)
       case Fault => Fault
       case Emit(g1, _, out) => Prepend(out, TransArms(cx, g1, i)))
    case _ => EmitPlain(cx, g, i)
  }

  function TransBlock(cx: Context, g: Gen, kind: int, bt: int, body: Code): Emission
    decreases body, 3
  {
    match EmitBegin(cx, g, kind, bt)
    case Fault => Fault
    case Emit(g1, _, out) => Prepend(out, TransTail(cx, g1, body))
  }

  /** The last arm of a block, up to and including its `end`. */
  function TransTail(cx: Context, g: Gen, c: Code): Emission
    decreases c, 2
  {
    match TransCode(cx, g, c)
    case Fault => Fault
    case Emit(g1, ud, out) => Prepend(out, EmitEnd(cx, g1, ud))
  }

  /** Both arms of an `if`. */
  function TransArms(cx: Context, g: Gen, i: Instr): Emission
    requires i.If?
    decreases i, 3
  {
    if !i.hasElse then TransTail(cx, g, i.thn)
    else
      match TransCode(cx, g, i.thn)
      case Fault => Fault
      case Emit(g1, ud, out) =>
        match EmitElse(cx, g1, ud)
        case Fault => Fault
        case Emit(g2, _, out2) => Prepend(out + out2, TransTail(cx, g2, i.els))
  }

  // ---------------------------------------------------------------- a whole function

  function AllocLocals(g: Gen, ts: seq<ValType>): Gen {
    Gen(g.types + seq(|ts|, (i: nat) requires i < |ts| => ts[i].Code()),
        g.roles + seq(|ts|, (_: nat) => LocalRole), g.reuse, g.stack, g.blocks)
  }

  const EmptyGen := Gen([], [], [], [], [])

  function ZeroLocals(first: nat, ts: seq<ValType>): seq<CStmt> {
    seq(|ts|, (i: nat) requires i < |ts| => DeclareZero(first + i, ts[i]))
  }

  /** The statements before the body's first token. */
  function Prologue(m: Module, f: Func): Emission
    requires f.ty < |m.types|
  {
    var ft := m.types[f.ty];
    var g0 := AllocLocals(EmptyGen, ft.params + f.locals);
    var (g1, decls) := DeclareResults(g0, ft.results);
    Prepend(ZeroLocals(|ft.params|, f.locals) + decls, BlockBegin(g1, KBlock, f.ty))
  }

  /** The closing `return`. */
  function Epilogue(g: Gen, n: nat): Emission {
    if n == 0 then Emit(g, 0, [])
    else if n > 1 || |g.stack| == 0 then Fault
    else
      var (g', v) := StackPop(g);
      Emit(g', 0, [Ret(Some(v))])
  }

  function TransFunc(m: Module, f: Func): Emission
    requires f.ty < |m.types|
  {
    var cx := FuncContext(m, f);
    match Prologue(m, f)
    case Fault => Fault
    case Emit(g1, _, out1) =>
      match EmitTokens(cx, g1, 0, Flatten(f.body) + [End])
      case Fault => Fault
      case Emit(g2, _, out2) => Prepend(out1 + out2, Epilogue(g2, |cx.results|))
  }
}
