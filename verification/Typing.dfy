/**
 The checker of the source language against the typing rules of section 3.3 of the WebAssembly Core Specification 1.0.
 */
module Typing {
  import opened Bits
  import opened Options
  import opened Wasm

  /** The operand types that a straight-line instruction may take, and those that it then leaves. */
  predicate Rule(cx: Context, i: Instr, ins: seq<ValType>, outs: seq<ValType>)
    requires IsStraight(i)
  {
    match i
    case Nop => ins == [] && outs == []
    case Drop => |ins| == 1 && outs == []
    case Select => |ins| == 3 && ins[0] == ins[1] && ins[2] == I32 && outs == [ins[0]]
    case LocalGet(x) => x < |cx.locals| && ins == [] && outs == [cx.locals[x]]
    case LocalSet(x) => x < |cx.locals| && ins == [cx.locals[x]] && outs == []
    case LocalTee(x) => x < |cx.locals| && ins == [cx.locals[x]] && outs == ins
    case GlobalGet(x) => x < |cx.m.globals| && ins == [] && outs == [cx.m.globals[x]]
    case GlobalSet(x) => x < |cx.m.globals| && ins == [cx.m.globals[x]] && outs == []
    case LoadInt(ty, bytes, signed, _, offset) =>
      && offset < 0x1_0000_0000 && ins == [I32] && outs == [ty]
      && (if signed then bytes in {1, 2} || (bytes == 4 && ty == I64)
          else bytes in {1, 2, 4} || (bytes == 8 && ty == I64))
    case StoreInt(ty, bytes, _, offset) =>
      && offset < 0x1_0000_0000 && ins == [I32, ty] && outs == []
      && (bytes in {1, 2, 4} || (bytes == 8 && ty == I64))
    case MemorySize => ins == [] && outs == [I32]
    case Const(v) => v.n < Pow2(v.ty.Width()) && ins == [] && outs == [v.ty]
    case Eqz(ty) => ins == [ty] && outs == [I32]
    case Compare(ty, _) => ins == [ty, ty] && outs == [I32]
    case Binary(ty, _) => ins == [ty, ty] && outs == [ty]
    case Wrap => ins == [I64] && outs == [I32]
    case Extend(_) => ins == [I32] && outs == [I64]
    case SignExt(ty, bits) => (bits in {8, 16} || (bits == 32 && ty == I64)) && ins == [ty] && outs == [ty]
  }

  /** The instruction takes these types off the stack and leaves the others in their place. */
  predicate Types(cx: Context, i: Instr, ts: seq<ValType>, rs: seq<ValType>, rest: nat)
    requires IsStraight(i)
  {
    rest <= |ts| && rest <= |rs| && ts[..rest] == rs[..rest] && Rule(cx, i, ts[rest..], rs[rest..])
  }

  /** How many operands stay below those that an instruction takes. */
  function Rest(i: Instr, ts: seq<ValType>): nat
    requires IsStraight(i)
  {
    if Operands(i) <= |ts| then |ts| - Operands(i) else 0
  }

  lemma Suffix(ts: seq<ValType>, ins: seq<ValType>, k: nat)
    requires k <= |ts| && ts[k..] == ins
    ensures EndsWith(ts, ins) && |ts| - |ins| == k
  {
  }

  /** Checking accepts a straight-line instruction exactly when a typing rule applies, and gives the types it says. */
  lemma StraightTyped(cx: Context, i: Instr, ts: seq<ValType>, rs: seq<ValType>)
    requires IsStraight(i)
    ensures CheckStraight(cx, i, ts) == Live(rs) <==> exists rest: nat :: Types(cx, i, ts, rs, rest)
    ensures CheckStraight(cx, i, ts) != Dead
  {
    Pow2Values();
    hide Pow2;
    if CheckStraight(cx, i, ts) == Live(rs) {
      Accepted(cx, i, ts, rs);
      assert Types(cx, i, ts, rs, Rest(i, ts));
    }
    forall rest: nat | Types(cx, i, ts, rs, rest) ensures CheckStraight(cx, i, ts) == Live(rs) {
      Accepts(cx, i, ts, rs, rest);
    }
  }

  /** What an instruction takes and leaves when that does not depend on the operands. */
  function Signature(cx: Context, i: Instr): (seq<ValType>, seq<ValType>)
    requires IsStraight(i)
  {
    match i
    case LocalGet(x) => if x < |cx.locals| then ([], [cx.locals[x]]) else ([], [])
    case LocalSet(x) => if x < |cx.locals| then ([cx.locals[x]], []) else ([], [])
    case LocalTee(x) => if x < |cx.locals| then ([cx.locals[x]], [cx.locals[x]]) else ([], [])
    case GlobalGet(x) => if x < |cx.m.globals| then ([], [cx.m.globals[x]]) else ([], [])
    case GlobalSet(x) => if x < |cx.m.globals| then ([cx.m.globals[x]], []) else ([], [])
    case LoadInt(ty, _, _, _, _) => ([I32], [ty])
    case StoreInt(ty, _, _, _) => ([I32, ty], [])
    case MemorySize => ([], [I32])
    case Const(v) => ([], [v.ty])
    case Eqz(ty) => ([ty], [I32])
    case Compare(ty, _) => ([ty, ty], [I32])
    case Binary(ty, _) => ([ty, ty], [ty])
    case Wrap => ([I64], [I32])
    case Extend(_) => ([I32], [I64])
    case SignExt(ty, _) => ([ty], [ty])
    case _ => ([], [])
  }

  lemma SignatureRule(cx: Context, i: Instr, ts: seq<ValType>)
    requires IsStraight(i) && !i.Drop? && !i.Select? && !i.Nop? && CheckStraight(cx, i, ts) != Bad
    requires Pow2(32) == 0x1_0000_0000
    ensures var (ins, outs) := Signature(cx, i);
      CheckStraight(cx, i, ts) == PopPush(ts, ins, outs) && Rule(cx, i, ins, outs) && |ins| == Operands(i)
  {
    hide Pow2, PopPush;
  }

  lemma PopPushTypes(ts: seq<ValType>, ins: seq<ValType>, outs: seq<ValType>, rs: seq<ValType>)
    requires PopPush(ts, ins, outs) == Live(rs)
    ensures |ins| <= |ts| && var rest := |ts| - |ins|;
      rest <= |rs| && ts[..rest] == rs[..rest] && ts[rest..] == ins && rs[rest..] == outs
  {
  }

  lemma Accepted(cx: Context, i: Instr, ts: seq<ValType>, rs: seq<ValType>)
    requires IsStraight(i) && CheckStraight(cx, i, ts) == Live(rs) && Pow2(32) == 0x1_0000_0000
    ensures Types(cx, i, ts, rs, Rest(i, ts))
  {
    if i.Drop? || i.Select? || i.Nop? {
      hide Pow2, PopPush;
    } else {
      SignatureRule(cx, i, ts);
      var (ins, outs) := Signature(cx, i);
      PopPushTypes(ts, ins, outs, rs);
      hide Pow2, CheckStraight, Rule, Signature, PopPush, Operands;
    }
  }

  lemma Accepts(cx: Context, i: Instr, ts: seq<ValType>, rs: seq<ValType>, rest: nat)
    requires IsStraight(i) && Types(cx, i, ts, rs, rest) && Pow2(32) == 0x1_0000_0000
    ensures CheckStraight(cx, i, ts) == Live(rs)
  {
    hide Pow2;
    Suffix(ts, ts[rest..], rest);
    assert rs == ts[..rest] + rs[rest..];
  }

  // ---------------------------------------------------------------- operands below do not matter

  /** A result on top of other operands. */
  function Onto(pre: seq<ValType>, r: Check): Check { if r.Live? then Live(pre + r.ts) else r }

  lemma EndsOnto(pre: seq<ValType>, ts: seq<ValType>, s: seq<ValType>)
    requires EndsWith(ts, s)
    ensures EndsWith(pre + ts, s) && (pre + ts)[..|pre + ts| - |s|] == pre + ts[..|ts| - |s|]
  {
    assert (pre + ts)[|pre + ts| - |s|..] == ts[|ts| - |s|..];
  }

  lemma PopPushOnto(pre: seq<ValType>, ts: seq<ValType>, ins: seq<ValType>, outs: seq<ValType>)
    requires PopPush(ts, ins, outs) != Bad
    ensures PopPush(pre + ts, ins, outs) == Onto(pre, PopPush(ts, ins, outs))
  {
    EndsOnto(pre, ts, ins);
    assert pre + ts[..|ts| - |ins|] + outs == pre + (ts[..|ts| - |ins|] + outs);
  }

  lemma StraightOnto(cx: Context, i: Instr, pre: seq<ValType>, ts: seq<ValType>)
    requires IsStraight(i) && CheckStraight(cx, i, ts) != Bad
    ensures CheckStraight(cx, i, pre + ts) == Onto(pre, CheckStraight(cx, i, ts))
  {
    hide CheckStraight, Types, Rule;
    StraightTyped(cx, i, ts, []);
    var rs := CheckStraight(cx, i, ts).ts;
    StraightTyped(cx, i, ts, rs);
    StraightTyped(cx, i, pre + ts, pre + rs);
    var rest: nat :| Types(cx, i, ts, rs, rest);
    TypesOnto(cx, i, pre, ts, rs, rest);
  }

  lemma TypesOnto(cx: Context, i: Instr, pre: seq<ValType>, ts: seq<ValType>, rs: seq<ValType>, rest: nat)
    requires IsStraight(i) && Types(cx, i, ts, rs, rest)
    ensures Types(cx, i, pre + ts, pre + rs, |pre| + rest)
  {
    hide Rule, IsStraight;
    assert (pre + ts)[|pre| + rest..] == ts[rest..] && (pre + rs)[|pre| + rest..] == rs[rest..];
    assert (pre + ts)[..|pre| + rest] == pre + ts[..rest] && (pre + rs)[..|pre| + rest] == pre + rs[..rest];
  }

  /** Code that checks on some operands checks on more, and leaves those below alone. */
  lemma {:induction false} CodeOnto(cx: Context, labels: seq<Label>, c: Code, pre: seq<ValType>, ts: seq<ValType>)
    requires CheckCode(cx, labels, c, ts) != Bad
    ensures CheckCode(cx, labels, c, pre + ts) == Onto(pre, CheckCode(cx, labels, c, ts))
    decreases c, 1
  {
    hide CheckInstr;
    if c.Cons? {
      InstrOnto(cx, labels, c.head, pre, ts);
      var r := CheckInstr(cx, labels, c.head, ts);
      if r.Live? {
        CodeOnto(cx, labels, c.tail, pre, r.ts);
      }
    }
  }

  lemma {:induction false} InstrOnto(cx: Context, labels: seq<Label>, i: Instr, pre: seq<ValType>, ts: seq<ValType>)
    requires CheckInstr(cx, labels, i, ts) != Bad
    ensures CheckInstr(cx, labels, i, pre + ts) == Onto(pre, CheckInstr(cx, labels, i, ts))
    decreases i, 0
  {
    hide CheckCode, CheckStraight, BlockType, BodyOk;
    if IsStraight(i) {
      StraightOnto(cx, i, pre, ts);
    } else if i.Call? {
      if CheckCall(cx, i.f, ts) != Bad {
        var ft := cx.m.types[cx.m.funcs[i.f].ty];
        PopPushOnto(pre, ts, ft.params, ft.results);
      }
    } else if i.Br? {
      EndsOnto(pre, ts, labels[i.l].Types());
    } else if i.Return? {
      EndsOnto(pre, ts, cx.results);
    } else if i.BrTable? {
      EndsOnto(pre, ts, [I32]);
    } else if i.BrIf? {
      EndsOnto(pre, ts, [I32]);
      EndsOnto(pre, ts[..|ts| - 1], labels[i.l].Types());
    } else if i.If? {
      EndsOnto(pre, ts, [I32]);
      var rs := BlockType(cx.m.types, i.bt).value.results;
      assert pre + ts[..|ts| - 1] + rs == pre + (ts[..|ts| - 1] + rs);
    } else if i.Block? || i.Loop? {
      var rs := BlockType(cx.m.types, i.bt).value.results;
      assert pre + ts + rs == pre + (ts + rs);
    }
  }

  // ---------------------------------------------------------------- control

  /** Block types as section 5.3.5 encodes them, read as signed numbers: 0x40, 0x7F, 0x7E, or the index of a type. */
  lemma EncodedTypes(types: seq<FuncType>, bt: int)
    ensures BlockType(types, -64) == Some(FuncType([], []))
    ensures BlockType(types, -1) == Some(FuncType([], [I32])) && BlockType(types, -2) == Some(FuncType([], [I64]))
    ensures bt >= 0 ==> BlockType(types, bt) == if bt < |types| then Some(types[bt]) else None
    ensures bt < 0 && bt !in {-1, -2, -64} ==> BlockType(types, bt) == None
  {
  }

  /** A body that yields these types, or whose end is not reached. */
  predicate Yields(cx: Context, labels: seq<Label>, body: Code, rs: seq<ValType>) {
    var r := CheckCode(cx, labels, body, []);
    r.Dead? || (r.Live? && r.ts == rs)
  }

  /** Blocks in a valid context: each kind is accepted exactly with bodies that are valid behind its label. */
  lemma BlocksTyped(cx: Context, labels: seq<Label>, bt: int, body: Code, els: Code, ts: seq<ValType>, rs: seq<ValType>)
    requires BlockType(cx.m.types, bt) == Some(FuncType([], rs)) && |rs| <= 1
    ensures CheckInstr(cx, labels, Block(bt, body), ts)
      == if Yields(cx, [Label(false, rs)] + labels, body, rs) then Live(ts + rs) else Bad
    ensures CheckInstr(cx, labels, Loop(bt, body), ts)
      == if Yields(cx, [Label(true, rs)] + labels, body, rs) then Live(ts + rs) else Bad
    ensures CheckInstr(cx, labels, If(bt, body, true, els), ts + [I32])
      == if Yields(cx, [Label(false, rs)] + labels, body, rs) && Yields(cx, [Label(false, rs)] + labels, els, rs)
         then Live(ts + rs) else Bad
    ensures CheckInstr(cx, labels, If(bt, body, false, els), ts + [I32])
      == if rs == [] && Yields(cx, [Label(false, rs)] + labels, body, rs) then Live(ts) else Bad
  {
    assert (ts + [I32])[..|ts + [I32]| - 1] == ts;
    assert EndsWith(ts + [I32], [I32]);
    assert rs == [] ==> ts + rs == ts;
    hide CheckCode, BlockType;
  }

  /** Transfers take what their target takes, from on top of whatever is there: a branch to a loop takes nothing. */
  lemma TransfersTyped(cx: Context, labels: seq<Label>, l: nat, ls: seq<nat>, ts: seq<ValType>)
    requires l < |labels|
    ensures var xs := if labels[l].loop then [] else labels[l].results;
      && CheckInstr(cx, labels, Br(l), ts + xs) == Dead
      && CheckInstr(cx, labels, BrIf(l), ts + xs + [I32]) == Live(ts + xs)
      && (xs == [] && (forall k | 0 <= k < |ls| :: ls[k] < |labels| && labels[ls[k]].Types() == []) ==>
          CheckInstr(cx, labels, BrTable(ls, l), ts + [I32]) == Dead)
    ensures CheckInstr(cx, labels, Return, ts + cx.results) == Dead && CheckInstr(cx, labels, Unreachable, ts) == Dead
  {
    var xs := if labels[l].loop then [] else labels[l].results;
    Above(ts, xs);
    Above(ts + xs, [I32]);
    Above(ts, [I32]);
    Above(ts, cx.results);
  }

  lemma Above(ts: seq<ValType>, xs: seq<ValType>)
    ensures EndsWith(ts + xs, xs) && (ts + xs)[..|ts + xs| - |xs|] == ts
  {
  }

  /** A call takes the parameters and leaves the results. */
  lemma CallTyped(cx: Context, labels: seq<Label>, f: nat, ts: seq<ValType>)
    requires f < |cx.m.funcs| && cx.m.funcs[f].ty < |cx.m.types|
    ensures var ft := cx.m.types[cx.m.funcs[f].ty];
      CheckInstr(cx, labels, Call(f), ts + ft.params) == Live(ts + ft.results)
  {
    Above(ts, cx.m.types[cx.m.funcs[f].ty].params);
  }
}
