/**
 WebAssembly as section 4 of the WebAssembly Core Specification 1.0 runs it, for the integer subset
 that the translator is modelled on: structured control, direct calls, locals, globals, memory access
 and integer arithmetic.
 */
module Wasm {
  import opened Bits
  import opened Options

  type byte = x: int | 0 <= x < 256

  datatype ValType = I32 | I64 {
    function Width(): nat { if I32? then 32 else 64 }

    // The one-byte encoding of a value type, read as a signed LEB128 number.
    function Code(): int { if I32? then -1 else -2 }
  }

  datatype Val = Val(ty: ValType, n: nat)

  predicate Typed(v: Val, t: ValType) {
    v.ty == t && v.n < Pow2(t.Width())
  }

  predicate AllTyped(vs: seq<Val>, ts: seq<ValType>) {
    |vs| == |ts| && forall i | 0 <= i < |vs| :: Typed(vs[i], ts[i])
  }

  function Zero(t: ValType): Val { Val(t, 0) }

  datatype FuncType = FuncType(params: seq<ValType>, results: seq<ValType>)

  datatype IntOp = Add | Sub | Mul | DivU | DivS | RemU | RemS | And | Or | Xor | Shl | ShrU | ShrS | Rotl | Rotr
  datatype IntRel = Eq | Ne | LtU | LtS | GtU | GtS | LeU | LeS | GeU | GeS

  datatype Code = Nil | Cons(head: Instr, tail: Code)

  /** `bt` is the raw block type: -0x40 for none, a value type's code, or a type index. */
  datatype Instr =
    | Unreachable
    | Nop
    | Block(bt: int, body: Code)
    | Loop(bt: int, body: Code)
    | If(bt: int, thn: Code, hasElse: bool, els: Code)
    | Br(l: nat)
    | BrIf(l: nat)
    | BrTable(ls: seq<nat>, dflt: nat)
    | Return
    | Call(f: nat)
    | Drop
    | Select
    | LocalGet(x: nat)
    | LocalSet(x: nat)
    | LocalTee(x: nat)
    | GlobalGet(x: nat)
    | GlobalSet(x: nat)
    | LoadInt(ty: ValType, bytes: nat, signed: bool, align: nat, offset: nat)
    | StoreInt(ty: ValType, bytes: nat, align: nat, offset: nat)
    | MemorySize
    | Const(v: Val)
    | Eqz(ty: ValType)
    | Compare(ty: ValType, rel: IntRel)
    | Binary(ty: ValType, op: IntOp)
    | Wrap
    | Extend(signed: bool)
    | SignExt(ty: ValType, bits: nat)

  datatype Func = Func(ty: nat, locals: seq<ValType>, body: Code)

  datatype Module = Module(types: seq<FuncType>, funcs: seq<Func>, globals: seq<ValType>)

  /** Globals and linear memory. */
  datatype Store = Store(globals: seq<Val>, mem: seq<byte>)

  datatype State = State(locals: seq<Val>, store: Store)

  // ---------------------------------------------------------------- numerics, section 4.3.2

  function Signed(width: nat, x: nat): int
    requires width > 0
  {
    if x < Pow2(width - 1) then x else x - Pow2(width)
  }

  function Abs(x: int): nat { if x < 0 then -x else x }

  /** Division that rounds toward zero. */
  function TruncDiv(a: int, b: int): int
    requires b != 0
  {
    if (a < 0) == (b < 0) then Abs(a) / Abs(b) else -(Abs(a) / Abs(b))
  }

  function TruncRem(a: int, b: int): int
    requires b != 0
  {
    if a < 0 then -(Abs(a) % Abs(b)) else Abs(a) % Abs(b)
  }

  function MulMod(a: nat, b: nat, m: nat): nat
    requires m > 0
  {
    (a * b) % m
  }

  function ShiftLeft(width: nat, a: nat, k: nat): nat { (a * Pow2(k)) % Pow2(width) }

  function Quotient(a: nat, b: nat): nat
    requires b > 0
  {
    a / b
  }

  function ShiftRight(a: nat, k: nat): nat { Quotient(a, Pow2(k)) }

  /** None is a trap. */
  function IntBinary(op: IntOp, width: nat, a: nat, b: nat): Option<nat>
    requires width > 0
  {
    var m := Pow2(width);
    var k := b % width;
    match op
    case Add => Some((a + b) % m)
    case Sub => Some((a - b) % m)
    case Mul => Some(MulMod(a, b, m))
    case DivU => if b == 0 then None else Some(a / b)
    case DivS =>
      if Signed(width, b) == 0 then None
      else
        var q := TruncDiv(Signed(width, a), Signed(width, b));
        if q == Pow2(width - 1) then None else Some(q % m)
    case RemU => if b == 0 then None else Some(a % b)
    case RemS => if Signed(width, b) == 0 then None else Some(TruncRem(Signed(width, a), Signed(width, b)) % m)
    case And => Some(BAnd(a, b))
    case Or => Some(BOr(a, b))
    case Xor => Some(BXor(a, b))
    case Shl => Some(ShiftLeft(width, a, k))
    case ShrU => Some(ShiftRight(a, k))
    case ShrS => Some((Signed(width, a) / Pow2(k)) % m)
    case Rotl => Some(ShiftLeft(width, a, k) + ShiftRight(a, width - k))
    case Rotr => Some(ShiftRight(a, k) + ShiftLeft(width, a, width - k))
  }

  predicate IntCompare(rel: IntRel, width: nat, a: nat, b: nat)
    requires width > 0
  {
    var sa, sb := Signed(width, a), Signed(width, b);
    match rel
    case Eq => a == b
    case Ne => a != b
    case LtU => a < b
    case LtS => sa < sb
    case GtU => a > b
    case GtS => sa > sb
    case LeU => a <= b
    case LeS => sa <= sb
    case GeU => a >= b
    case GeS => sa >= sb
  }

  function OfBool(b: bool): Val { Val(I32, if b then 1 else 0) }

  /** Sign-extends the low `bits` bits of `x` to `width` bits. */
  function SignExtend(bits: nat, width: nat, x: nat): nat
    requires bits > 0
  {
    Signed(bits, x % Pow2(bits)) % Pow2(width)
  }

  /**
   The one case in which the value the specification defines is out of reach for the emitted C
   expression: the remainder of the most negative number by minus one is 0, but the quotient that C
   computes beside it overflows.
   */
  predicate RemOverflows(op: IntOp, width: nat, a: nat, b: nat)
    requires width > 0
  {
    op == RemS && a == Pow2(width - 1) && b == Pow2(width) - 1
  }

  // ---------------------------------------------------------------- memory, section 4.4.4

  function Little(mem: seq<byte>, at: nat, n: nat): nat
    requires at + n <= |mem|
    decreases n
  {
    if n == 0 then 0 else mem[at] + 256 * Little(mem, at + 1, n - 1)
  }

  function Bytes(x: nat, n: nat): (bs: seq<byte>)
    ensures |bs| == n
  {
    if n == 0 then [] else [x % 256] + Bytes(x / 256, n - 1)
  }

  function Write(mem: seq<byte>, at: nat, bs: seq<byte>): (r: seq<byte>)
    requires at + |bs| <= |mem|
    ensures |r| == |mem|
  {
    mem[..at] + bs + mem[at + |bs|..]
  }

  // ---------------------------------------------------------------- straight-line instructions

  predicate IsControl(i: Instr) {
    i.Unreachable? || i.Block? || i.Loop? || i.If? || i.Br? || i.BrIf? || i.BrTable? || i.Return? || i.Call?
  }

  predicate IsStraight(i: Instr) { !IsControl(i) }

  /** How many operands a straight-line instruction takes. */
  function Operands(i: Instr): nat {
    if i.Select? then 3
    else if i.StoreInt? || i.Compare? || i.Binary? then 2
    else if i.Drop? || i.LocalSet? || i.LocalTee? || i.GlobalSet? || i.LoadInt? || i.Eqz? || i.Wrap? || i.Extend?
      || i.SignExt? then 1
    else 0
  }

  /**
   Why a run stops: a trap; a trap of an access whose address, taken modulo 2^32, would be inside the memory; the
   overflowing signed remainder, for which the specification gives 0; or code that is not valid.
   */
  datatype Why = Trapped | Wrapped | Overflowed | IllTyped

  /** An access of `bytes` bytes at `ea` that leaves a memory of `size` bytes. */
  function OutOfBounds(ea: nat, bytes: nat, size: nat): Why {
    if ea % Pow2(32) + bytes > size then Trapped else Wrapped
  }

  datatype Effect = Effect(out: seq<Val>, st: State) | NoEffect(why: Why)

  function Push(v: Val, st: State): Effect { Effect([v], st) }

  function Straight(i: Instr, ops: seq<Val>, st: State): Effect
    requires IsStraight(i) && |ops| == Operands(i)
  {
    match i
    case Drop => Effect([], st)
    case Select => Push(if ops[2].n != 0 then ops[0] else ops[1], st)
    case LocalGet(x) => if x < |st.locals| then Push(st.locals[x], st) else NoEffect(IllTyped)
    case LocalSet(x) =>
      if x < |st.locals| then Effect([], st.(locals := st.locals[x := ops[0]])) else NoEffect(IllTyped)
    case LocalTee(x) =>
      if x < |st.locals| then Effect([ops[0]], st.(locals := st.locals[x := ops[0]])) else NoEffect(IllTyped)
    case GlobalGet(x) => if x < |st.store.globals| then Push(st.store.globals[x], st) else NoEffect(IllTyped)
    case GlobalSet(x) =>
      if x < |st.store.globals|
      then Effect([], st.(store := st.store.(globals := st.store.globals[x := ops[0]]))) else NoEffect(IllTyped)
    case LoadInt(ty, bytes, signed, _, offset) =>
      var ea := ops[0].n + offset;
      if bytes == 0 then NoEffect(IllTyped)
      else if ea + bytes > |st.store.mem| then NoEffect(OutOfBounds(ea, bytes, |st.store.mem|))
      else
        var x := Little(st.store.mem, ea, bytes);
        Push(Val(ty, if signed then SignExtend(8 * bytes, ty.Width(), x) else x), st)
    case StoreInt(ty, bytes, _, offset) =>
      var ea := ops[0].n + offset;
      if ea + bytes > |st.store.mem| then NoEffect(OutOfBounds(ea, bytes, |st.store.mem|))
      else Effect([], st.(store := st.store.(mem := Write(st.store.mem, ea, Bytes(ops[1].n, bytes)))))
    case MemorySize => Push(Val(I32, |st.store.mem| / 0x1_0000), st)
    case Const(v) => Push(v, st)
    case Eqz(_) => Push(OfBool(ops[0].n == 0), st)
    case Compare(ty, rel) => Push(OfBool(IntCompare(rel, ty.Width(), ops[0].n, ops[1].n)), st)
    case Binary(ty, op) =>
      (match IntBinary(op, ty.Width(), ops[0].n, ops[1].n)
       case None => NoEffect(Trapped)
       case Some(n) =>
         if RemOverflows(op, ty.Width(), ops[0].n, ops[1].n) then NoEffect(Overflowed) else Push(Val(ty, n), st))
    case Wrap => Push(Val(I32, ops[0].n % Pow2(32)), st)
    case Extend(signed) => Push(Val(I64, if signed then SignExtend(32, 64, ops[0].n) else ops[0].n), st)
    case SignExt(ty, bits) =>
      if bits == 0 then NoEffect(IllTyped) else Push(Val(ty, SignExtend(bits, ty.Width(), ops[0].n)), st)
    case _ => Effect([], st)
  }

  // ---------------------------------------------------------------- control, sections 4.4.5 to 4.4.7

  /** A run of an instruction sequence; `vs` is the operand stack above the innermost label. */
  datatype Outcome =
    | Normal(vs: seq<Val>, st: State)
    | Branch(l: nat, vs: seq<Val>, st: State)
    | Returned(vs: seq<Val>, store: Store)
    | Aborted
    | Stopped(why: Why)
    | OutOfFuel

  function BlockType(types: seq<FuncType>, bt: int): Option<FuncType> {
    if 0 <= bt < |types| then Some(types[bt])
    else if bt == I32.Code() then Some(FuncType([], [I32]))
    else if bt == I64.Code() then Some(FuncType([], [I64]))
    else if bt == -0x40 then Some(FuncType([], []))
    else None
  }

  function Last(vs: seq<Val>, n: nat): seq<Val>
    requires n <= |vs|
  {
    vs[|vs| - n..]
  }

  /** What reaches the code after a block that yields `n` values over the operands `vs`. */
  function Leave(o: Outcome, vs: seq<Val>, n: nat): Outcome {
    match o
    case Normal(vs', st') => if |vs'| < n then Stopped(IllTyped) else Normal(vs + Last(vs', n), st')
    case Branch(l, vs', st') =>
      if l > 0 then Branch(l - 1, vs', st')
      else if |vs'| < n then Stopped(IllTyped)
      else Normal(vs + Last(vs', n), st')
    case _ => o
  }

  function Exec(m: Module, c: Code, vs: seq<Val>, st: State, fuel: nat): Outcome
    decreases fuel, c, 1
  {
    match c
    case Nil => Normal(vs, st)
    case Cons(i, rest) =>
      match ExecInstr(m, i, vs, st, fuel)
      case Normal(vs', st') => Exec(m, rest, vs', st', fuel)
      case o => o
  }

  function ExecInstr(m: Module, i: Instr, vs: seq<Val>, st: State, fuel: nat): Outcome
    decreases fuel, i, 0
  {
    match i
    case Unreachable => Aborted
    case Block(bt, body) =>
      (match BlockType(m.types, bt)
       case None => Stopped(IllTyped)
       case Some(ft) => Leave(Exec(m, body, [], st, fuel), vs, |ft.results|))
    case If(bt, thn, hasElse, els) =>
      (match BlockType(m.types, bt)
       case None => Stopped(IllTyped)
       case Some(ft) =>
         if |vs| == 0 then Stopped(IllTyped)
         else
           var vs' := vs[..|vs| - 1];
           if vs[|vs| - 1].n != 0 then Leave(Exec(m, thn, [], st, fuel), vs', |ft.results|)
           else if hasElse then Leave(Exec(m, els, [], st, fuel), vs', |ft.results|)
           else Normal(vs', st))
    case Loop(bt, body) =>
      (match BlockType(m.types, bt)
       case None => Stopped(IllTyped)
       case Some(ft) =>
         match Exec(m, body, [], st, fuel)
         case Branch(0, _, st') => if fuel == 0 then OutOfFuel else ExecInstr(m, i, vs, st', fuel - 1)
         case o => Leave(o, vs, |ft.results|))
    case Br(l) => Branch(l, vs, st)
    case BrIf(l) =>
      if |vs| == 0 then Stopped(IllTyped)
      else if vs[|vs| - 1].n != 0 then Branch(l, vs[..|vs| - 1], st)
      else Normal(vs[..|vs| - 1], st)
    case BrTable(ls, dflt) =>
      if |vs| == 0 then Stopped(IllTyped)
      else
        var k := vs[|vs| - 1].n;
        Branch(if k < |ls| then ls[k] else dflt, vs[..|vs| - 1], st)
    case Return => Returned(vs, st.store)
    case Call(f) =>
      if f >= |m.funcs| || m.funcs[f].ty >= |m.types| then Stopped(IllTyped)
      else
        var np := |m.types[m.funcs[f].ty].params|;
        if |vs| < np then Stopped(IllTyped)
        else if fuel == 0 then OutOfFuel
        else
          (match ExecFunc(m, f, Last(vs, np), st.store, fuel - 1)
           case Returned(rs, store') => Normal(vs[..|vs| - np] + rs, st.(store := store'))
           case o => o)
    case _ =>
      if |vs| < Operands(i) then Stopped(IllTyped)
      else
        match Straight(i, Last(vs, Operands(i)), st)
        case Effect(out, st') => Normal(vs[..|vs| - Operands(i)] + out, st')
        case NoEffect(why) => Stopped(why)
  }

  /** Calls function `f`; a run that ends is `Returned`, `Aborted` or `Stopped`. */
  function ExecFunc(m: Module, f: nat, args: seq<Val>, store: Store, fuel: nat): Outcome
    requires f < |m.funcs| && m.funcs[f].ty < |m.types|
    decreases fuel, 0, 2
  {
    var fn := m.funcs[f];
    var n := |m.types[fn.ty].results|;
    var locals := args + seq(|fn.locals|, (i: nat) requires i < |fn.locals| => Zero(fn.locals[i]));
    if fuel == 0 then OutOfFuel
    else
      match Leave(Exec(m, fn.body, [], State(locals, store), fuel - 1), [], n)
      case Normal(vs, st') => Returned(vs, st'.store)
      case Returned(vs, store') => if |vs| < n then Stopped(IllTyped) else Returned(Last(vs, n), store')
      case Branch(_, _, _) => Stopped(IllTyped)
      case o => o
  }

  // ---------------------------------------------------------------- validation, section 3.3

  /** A label's kind and the result types of its block. */
  datatype Label = Label(loop: bool, results: seq<ValType>) {
    function Types(): seq<ValType> { if loop then [] else results }
  }

  datatype Context = Context(m: Module, locals: seq<ValType>, results: seq<ValType>)

  /** The operand types after a sequence, or that its end cannot be reached. */
  datatype Check = Bad | Dead | Live(ts: seq<ValType>)

  predicate EndsWith(ts: seq<ValType>, suffix: seq<ValType>) {
    |suffix| <= |ts| && ts[|ts| - |suffix|..] == suffix
  }

  function PopPush(ts: seq<ValType>, ins: seq<ValType>, outs: seq<ValType>): Check {
    if EndsWith(ts, ins) then Live(ts[..|ts| - |ins|] + outs) else Bad
  }

  predicate ValidAccess(ty: ValType, bytes: nat) {
    bytes in {1, 2, 4, 8} && 8 * bytes <= ty.Width()
  }

  function CheckStraight(cx: Context, i: Instr, ts: seq<ValType>): Check
    requires IsStraight(i)
  {
    match i
    case Drop => if |ts| == 0 then Bad else Live(ts[..|ts| - 1])
    case Select =>
      if |ts| >= 3 && ts[|ts| - 1] == I32 && ts[|ts| - 2] == ts[|ts| - 3] then Live(ts[..|ts| - 2]) else Bad
    case LocalGet(x) => if x < |cx.locals| then PopPush(ts, [], [cx.locals[x]]) else Bad
    case LocalSet(x) => if x < |cx.locals| then PopPush(ts, [cx.locals[x]], []) else Bad
    case LocalTee(x) => if x < |cx.locals| then PopPush(ts, [cx.locals[x]], [cx.locals[x]]) else Bad
    case GlobalGet(x) => if x < |cx.m.globals| then PopPush(ts, [], [cx.m.globals[x]]) else Bad
    case GlobalSet(x) => if x < |cx.m.globals| then PopPush(ts, [cx.m.globals[x]], []) else Bad
    case LoadInt(ty, bytes, signed, _, offset) =>
      if ValidAccess(ty, bytes) && offset < Pow2(32) && (signed ==> 8 * bytes < ty.Width())
      then PopPush(ts, [I32], [ty]) else Bad
    case StoreInt(ty, bytes, _, offset) =>
      if ValidAccess(ty, bytes) && offset < Pow2(32) then PopPush(ts, [I32, ty], []) else Bad
    case MemorySize => PopPush(ts, [], [I32])
    case Const(v) => if Typed(v, v.ty) then PopPush(ts, [], [v.ty]) else Bad
    case Eqz(ty) => PopPush(ts, [ty], [I32])
    case Compare(ty, _) => PopPush(ts, [ty, ty], [I32])
    case Binary(ty, _) => PopPush(ts, [ty, ty], [ty])
    case Wrap => PopPush(ts, [I64], [I32])
    case Extend(_) => PopPush(ts, [I32], [I64])
    case SignExt(ty, bits) => if bits in {8, 16, 32} && bits < ty.Width() then PopPush(ts, [ty], [ty]) else Bad
    case _ => Live(ts)
  }

  /** The translated subset: blocks take no parameters and yield at most one value. */
  predicate SimpleBlock(types: seq<FuncType>, bt: int) {
    match BlockType(types, bt)
    case None => false
    case Some(ft) => |ft.params| == 0 && |ft.results| <= 1
  }

  predicate BodyOk(c: Check, results: seq<ValType>) {
    c == Dead || c == Live(results)
  }

  function CheckCall(cx: Context, f: nat, ts: seq<ValType>): Check {
    if f < |cx.m.funcs| && cx.m.funcs[f].ty < |cx.m.types|
    then
      var ft := cx.m.types[cx.m.funcs[f].ty];
      PopPush(ts, ft.params, ft.results)
    else Bad
  }

  /**
   Instructions after an unconditional transfer are not looked at: what the specification demands of
   them does not matter here.
   */
  function CheckCode(cx: Context, labels: seq<Label>, c: Code, ts: seq<ValType>): Check
    decreases c, 1
  {
    match c
    case Nil => Live(ts)
    case Cons(i, rest) =>
      match CheckInstr(cx, labels, i, ts)
      case Live(ts') => CheckCode(cx, labels, rest, ts')
      case r => r
  }

  function CheckInstr(cx: Context, labels: seq<Label>, i: Instr, ts: seq<ValType>): Check
    decreases i, 0
  {
    match i
    case Unreachable => Dead
    case Block(bt, body) =>
      if !SimpleBlock(cx.m.types, bt) then Bad
      else
        var rs := BlockType(cx.m.types, bt).value.results;
        if BodyOk(CheckCode(cx, [Label(false, rs)] + labels, body, []), rs) then Live(ts + rs) else Bad
    case Loop(bt, body) =>
      if !SimpleBlock(cx.m.types, bt) then Bad
      else
        var rs := BlockType(cx.m.types, bt).value.results;
        if BodyOk(CheckCode(cx, [Label(true, rs)] + labels, body, []), rs) then Live(ts + rs) else Bad
    case If(bt, thn, hasElse, els) =>
      if !SimpleBlock(cx.m.types, bt) || !EndsWith(ts, [I32]) then Bad
      else
        var rs := BlockType(cx.m.types, bt).value.results;
        var labels' := [Label(false, rs)] + labels;
        if && BodyOk(CheckCode(cx, labels', thn, []), rs)
           && (if hasElse then BodyOk(CheckCode(cx, labels', els, []), rs) else rs == [])
        then Live(ts[..|ts| - 1] + rs) else Bad
    case Br(l) => if l < |labels| && EndsWith(ts, labels[l].Types()) then Dead else Bad
    case BrIf(l) =>
      if EndsWith(ts, [I32]) && l < |labels| && EndsWith(ts[..|ts| - 1], labels[l].Types())
      then Live(ts[..|ts| - 1]) else Bad
    case BrTable(ls, dflt) =>
      if && EndsWith(ts, [I32])
         && (forall k | 0 <= k < |ls| :: ls[k] < |labels| && labels[ls[k]].Types() == [])
         && dflt < |labels| && labels[dflt].Types() == []
      then Dead else Bad
    case Return => if EndsWith(ts, cx.results) then Dead else Bad
    case Call(f) => CheckCall(cx, f, ts)
    case _ => CheckStraight(cx, i, ts)
  }

  function FuncContext(m: Module, f: Func): Context
    requires f.ty < |m.types|
  {
    Context(m, m.types[f.ty].params + f.locals, m.types[f.ty].results)
  }

  predicate ValidFunc(m: Module, f: Func) {
    && f.ty < |m.types|
    && |m.types[f.ty].results| <= 1
    && var rs := m.types[f.ty].results;
    BodyOk(CheckCode(FuncContext(m, f), [Label(false, rs)], f.body, []), rs)
  }

  predicate ValidModule(m: Module) {
    |m.types| < Pow2(32) && forall f | f in m.funcs :: ValidFunc(m, f)
  }

  /** A store that fits the module: typed globals and a memory of at most 65536 pages. */
  predicate ValidStore(m: Module, s: Store) {
    AllTyped(s.globals, m.globals) && |s.mem| <= Pow2(32) && |s.mem| % 0x1_0000 == 0
  }
}
