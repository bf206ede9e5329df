/**
 The generator of FuncGen.h as it is: growable arrays with cursors, updated in place. Every method is
 proved against the function on values that specifies it.
 */
module FuncGenerator {
  import opened Wasm
  import opened CLang
  import opened Translator

  /** A larger copy of an array, as `realloc` makes it. */
  method Enlarge<T>(a: array<T>, fill: T) returns (b: array<T>)
    ensures fresh(b) && b.Length == 2 * (a.Length + 10) && b[..a.Length] == a[..]
  {
    b := new T[2 * (a.Length + 10)](_ => fill);
    var i := 0;
    while i < a.Length
      invariant 0 <= i <= a.Length && b[..i] == a[..i]
    {
      b[i] := a[i];
      i := i + 1;
    }
  }

  /** Copies `a[from..to]` to the place behind it. */
  method CopyBehind(a: array<nat>, from: nat, to: nat)
    requires from <= to && to + (to - from) <= a.Length
    modifies a
    ensures a[..to + (to - from)] == old(a[..to]) + old(a[from..to])
  {
    var i := 0;
    while i < to - from
      invariant 0 <= i <= to - from
      invariant a[..to] == old(a[..to]) && a[to..to + i] == old(a[from..from + i])
    {
      assert a[from + i] == a[..to][from + i] == old(a[..to])[from + i];
      a[to + i] := a[from + i];
      i := i + 1;
    }
    assert a[..to + i] == a[..to] + a[to..to + i];
  }

  class FuncGen {
    var types: array<int>
    var reuse: array<nat>
    var stack: array<nat>
    var block: array<BlockRec>
    var typeI: nat
    var reuseI: nat
    var stackI: nat
    var blockI: nat
    ghost var roles: seq<Role>

    ghost predicate Valid()
      reads this
    {
      && typeI <= types.Length && reuseI <= reuse.Length && stackI <= stack.Length && blockI <= block.Length
      && |roles| == typeI && reuse != stack
    }

    ghost function Abs(): Gen
      reads this, types, reuse, stack, block
      requires Valid()
    {
      Gen(types[..typeI], roles, reuse[..reuseI], stack[..stackI], block[..blockI])
    }

    ghost function Repr(): set<object>
      reads this
    {
      {this, types, reuse, stack, block}
    }

    constructor ()
      ensures Valid() && Abs() == EmptyGen && fresh(Repr())
    {
      types := new int[0];
      reuse := new nat[0];
      stack := new nat[0];
      block := new BlockRec[0];
      typeI, reuseI, stackI, blockI, roles := 0, 0, 0, 0, [];
    }

    method Reset()
      requires Valid()
      modifies this
      ensures Valid() && Abs() == EmptyGen && Repr() == old(Repr())
    {
      typeI, reuseI, stackI, blockI, roles := 0, 0, 0, 0, [];
    }

    method LocalAlloc(ty: int, ghost role: Role) returns (v: nat)
      requires Valid()
      modifies Repr()
      ensures Valid() && fresh(Repr() - old(Repr()))
      ensures (Abs(), v) == Alloc(old(Abs()), ty, role)
      ensures reuse == old(reuse) && stack == old(stack) && block == old(block)
    {
      ghost var g := Abs();
      if typeI == types.Length {
        types := Enlarge(types, 0);
      }
      assert types[..typeI] == g.types;
      v := typeI;
      types[v] := ty;
      typeI := typeI + 1;
      roles := roles + [role];
      assert types[..typeI] == g.types + [ty];
    }

    method TopOfReuse() returns (t: nat)
      requires Valid()
      ensures t == ReuseTop(Abs())
    {
      t := if blockI > 0 then block[blockI - 1].reuseBase else 0;
    }

    method ReuseReset()
      requires Valid() && ReuseTop(Abs()) <= reuseI
      modifies this
      ensures Valid() && Repr() == old(Repr())
      ensures Abs() == old(Abs()).(reuse := old(Abs()).reuse[..ReuseTop(old(Abs()))])
    {
      reuseI := TopOfReuse();
    }

    /** Fills the gap with the last entry. */
    method RemoveAt(i: nat)
      requires Valid() && i < reuseI
      modifies this, reuse
      ensures Valid() && Repr() == old(Repr()) && Abs() == old(Abs()).(reuse := SwapRemove(old(Abs()).reuse, i))
      ensures reuse == old(reuse) && stack == old(stack) && block == old(block)
    {
      ghost var g := Abs();
      reuseI := reuseI - 1;
      reuse[i] := reuse[reuseI];
      assert reuse[..reuseI] == SwapRemove(g.reuse, i);
    }

    /** Takes a free local of the type out of the window, or declares a new one. */
    method ReuseLocal(ty: ValType) returns (d: Dst)
      requires Valid() && forall j | 0 <= j < reuseI :: reuse[j] < typeI
      modifies Repr()
      ensures Valid() && fresh(Repr() - old(Repr()))
      ensures (Abs(), d) == TakeLocal(old(Abs()), ty)
      ensures reuse == old(reuse) && stack == old(stack) && block == old(block)
    {
      ghost var g := Abs();
      var top := TopOfReuse();
      var i := top;
      while i < reuseI
        invariant top <= i && (top <= reuseI ==> i <= reuseI)
        invariant unchanged(this) && unchanged(types) && unchanged(reuse) && unchanged(stack) && unchanged(block)
        invariant top <= reuseI ==> FindFree(g, ty, i) == FindFree(g, ty, top)
      {
        var v := reuse[i];
        if types[v] == ty.Code() {
          RemoveAt(i);
          d := Old(v);
          return;
        }
        i := i + 1;
      }
      var v := LocalAlloc(ty.Code(), TempRole);
      d := New(v, ty);
    }

    method Push(ty: ValType) returns (d: Dst)
      requires Valid() && forall j | 0 <= j < reuseI :: reuse[j] < typeI
      modifies Repr()
      ensures Valid() && fresh(Repr() - old(Repr()))
      ensures (Abs(), d) == StackPush(old(Abs()), ty)
    {
      ghost var g := Abs();
      if stackI == stack.Length {
        stack := Enlarge(stack, 0);
      }
      assert stack[..stackI] == g.stack;
      assert Abs() == g;
      d := ReuseLocal(ty);
      TakeKeepsStack(g, ty);
      assert stackI == |g.stack|;
      ghost var g1 := Abs();
      stack[stackI] := d.v;
      stackI := stackI + 1;
      assert Abs() == g1.(stack := g1.stack + [d.v]);
    }

    method At(k: nat) returns (v: nat)
      requires Valid() && k < stackI
      ensures v == StackAt(Abs(), k)
    {
      v := stack[stackI - 1 - k];
    }

    method Pop() returns (v: nat)
      requires Valid() && stackI > 0
      modifies Repr()
      ensures Valid() && fresh(Repr() - old(Repr()))
      ensures (Abs(), v) == StackPop(old(Abs()))
      ensures types == old(types) && stack == old(stack) && block == old(block)
    {
      ghost var g := Abs();
      if reuseI == reuse.Length {
        reuse := Enlarge(reuse, 0);
      }
      assert reuse[..reuseI] == g.reuse;
      stackI := stackI - 1;
      v := stack[stackI];
      reuse[reuseI] := v;
      reuseI := reuseI + 1;
      assert reuse[..reuseI] == g.reuse + [v] && stack[..stackI] == g.stack[..|g.stack| - 1];
    }

    method RoomForBlock()
      requires Valid()
      modifies this
      ensures Valid() && fresh(Repr() - old(Repr())) && Abs() == old(Abs()) && blockI < block.Length
    {
      ghost var g := Abs();
      if blockI == block.Length {
        block := Enlarge(block, BlockRec(0, 0, 0, 0));
      }
      assert block[..blockI] == g.blocks;
    }

    method AddBlock(b: BlockRec)
      requires Valid() && blockI < block.Length
      modifies this, block
      ensures Valid() && Repr() == old(Repr()) && Abs() == old(Abs()).(blocks := old(Abs()).blocks + [b])
    {
      ghost var g := Abs();
      block[blockI] := b;
      blockI := blockI + 1;
      assert block[..blockI] == g.blocks + [b];
    }

    /** Makes room for a block, and pops the condition of an `if`, before the block is recorded. */
    method Prepare(kind: int) returns (out: seq<CStmt>)
      requires Valid() && (kind == KIf ==> stackI > 0)
      modifies Repr()
      ensures Valid() && fresh(Repr() - old(Repr())) && blockI < block.Length
      ensures Abs() == if kind == KIf then StackPop(old(Abs())).0 else old(Abs())
      ensures out == if kind == KIf then [IfOpen(StackPop(old(Abs())).1)] else []
    {
      RoomForBlock();
      ghost var g := Abs();
      out := [];
      if kind == KIf {
        var c := Pop();
        out := [IfOpen(c)];
      }
      assert |Abs().blocks| == blockI && Abs().blocks == g.blocks;
    }

    /**
     Hands out the label, records the block and copies the window below it, which is read after the push and so is
     empty.
     */
    method Enter(kind: int, bt: int) returns (lbl: nat)
      requires Valid() && blockI < block.Length
      modifies Repr()
      ensures Valid() && fresh(Repr() - old(Repr()))
      ensures
        var (g, l) := Alloc(old(Abs()), PackKind(kind, bt), LabelRole);
        lbl == l && Abs() == g.(blocks := g.blocks + [BlockRec(PackType(bt), l, |g.stack|, |g.reuse|)])
    {
      ghost var g := Abs();
      assert |g.blocks| == blockI;
      lbl := LocalAlloc(PackKind(kind, bt), LabelRole);
      assert |Abs().blocks| == blockI;
      AddBlock(BlockRec(PackType(bt), lbl, stackI, reuseI));
      ghost var g2 := Abs();
      var top := TopOfReuse();
      assert top == |g2.reuse| && g2.reuse + g2.reuse[top..] == g2.reuse;
      CopyWindow(top);
    }

    /** Opens a block. */
    method Begin(kind: int, bt: int) returns (out: seq<CStmt>)
      requires Valid() && (kind == KIf ==> stackI > 0)
      modifies Repr()
      ensures Valid() && fresh(Repr() - old(Repr()))
      ensures Emit(Abs(), 0, out) == BlockBegin(old(Abs()), kind, bt)
    {
      hide BlockBegin, StackPop, PackKind, PackType;
      ghost var g := Abs();
      out := Prepare(kind);
      ghost var g1 := Abs();
      var lbl := Enter(kind, bt);
      if kind == KLoop {
        out := out + [Goto(lbl), LabelHere(lbl)];
      }
      BeginForm(g, kind, bt, g1, lbl);
    }

    /** Copies the window that starts at `top` behind itself. */
    method CopyWindow(top: nat)
      requires Valid() && top <= reuseI
      modifies this, reuse
      ensures Valid() && fresh(Repr() - old(Repr()))
      ensures Abs() == old(Abs()).(reuse := old(Abs()).reuse + old(Abs()).reuse[top..])
    {
      ghost var g := Abs();
      var n := reuseI - top;
      if n > reuse.Length - reuseI {
        reuse := Enlarge(reuse, 0);
      }
      assert reuse[..reuseI] == g.reuse;
      CopyBehind(reuse, top, reuseI);
      reuseI := reuseI + n;
    }

    method BlockKind(k: nat) returns (kind: int)
      requires Valid() && k < blockI && BlockAt(Abs(), k).lbl < typeI
      ensures kind == KindOf(Abs(), BlockAt(Abs(), k))
    {
      var packed := types[block[blockI - 1 - k].lbl];
      kind := if packed < 0 then Not(packed) else packed;
    }

    method BlockTypeIndex(k: nat) returns (bt: int)
      requires Valid() && k < blockI && BlockAt(Abs(), k).lbl < typeI
      ensures bt == TypeIndexOf(Abs(), BlockAt(Abs(), k))
    {
      var b := block[blockI - 1 - k];
      bt := if types[b.lbl] < 0 then Not(b.ty) else b.ty;
    }

    method BlockLabel(k: nat) returns (lbl: nat)
      requires Valid() && k < blockI
      ensures lbl == BlockAt(Abs(), k).lbl
    {
      lbl := block[blockI - 1 - k].lbl;
    }

    /** Closes a block: both cursors go back to where they were when it began. */
    method End() returns (out: seq<CStmt>)
      requires Valid() && blockI > 0 && BlockAt(Abs(), 0).lbl < typeI && BlockEnd(Abs()).Emit?
      modifies this
      ensures Valid() && Repr() == old(Repr())
      ensures Emit(Abs(), 0, out) == BlockEnd(old(Abs()))
    {
      ghost var g := Abs();
      var kind := BlockKind(0);
      var lbl := BlockLabel(0);
      out := [];
      if kind != KLoop {
        out := [Goto(lbl), LabelHere(lbl)];
      }
      blockI := blockI - 1;
      if kind == KIf {
        out := out + [Close];
      }
      stackI := block[blockI].stackBase;
      reuseI := block[blockI].reuseBase;
      assert Abs().stack == g.stack[..BlockAt(g, 0).stackBase] && Abs().reuse == g.reuse[..BlockAt(g, 0).reuseBase];
    }
  }

  lemma TakeKeepsStack(g: Gen, ty: ValType)
    ensures TakeLocal(g, ty).0.stack == g.stack && TakeLocal(g, ty).0.blocks == g.blocks
  {
  }

  lemma BeginForm(g: Gen, kind: int, bt: int, g1: Gen, lbl: nat)
    requires kind == KIf ==> |g.stack| > 0
    requires g1 == (if kind == KIf then StackPop(g).0 else g) && lbl == |g1.types|
    ensures
      var g2 := Alloc(g1, PackKind(kind, bt), LabelRole).0;
      BlockBegin(g, kind, bt) ==
        Emit(g2.(blocks := g2.blocks + [BlockRec(PackType(bt), lbl, |g2.stack|, |g2.reuse|)]), 0,
             (if kind == KIf then [IfOpen(StackPop(g).1)] else [])
               + (if kind == KLoop then [Goto(lbl), LabelHere(lbl)] else []))
  {
  }
}
