/**
 Where the translator departs from the specification, and exactly when it does not: block types with
 two results, branch tables to blocks with results, and the remainder that overflows.
 */
module Limits {
  import opened Bits
  import opened Wasm
  import opened CLang
  import opened Emitted
  import opened Translator

  predicate Distinct(s: seq<nat>) { forall i, j | 0 <= i < j < |s| :: s[i] != s[j] }

  /** The i-th move of a branch puts the i-th value from the top into the i-th variable. */
  lemma {:induction false} BranchMoves(g: Gen, first: nat, n: nat)
    requires n <= |g.stack|
    ensures PopMoves(g, first, n).Emit? && |PopMoves(g, first, n).out| == n
    ensures forall i | 0 <= i < n ::
      PopMoves(g, first, n).out[i] == Assign(Old(first + i), Var(g.stack[|g.stack| - 1 - i]))
    decreases n
  {
    if n > 0 {
      var g1 := StackPop(g).0;
      BranchMoves(g1, first + 1, n - 1);
      forall i | 0 <= i < n
        ensures PopMoves(g, first, n).out[i] == Assign(Old(first + i), Var(g.stack[|g.stack| - 1 - i]))
      {
        if i > 0 {
          assert PopMoves(g, first, n).out[i] == PopMoves(g1, first + 1, n - 1).out[i - 1];
        }
      }
    }
  }

  lemma EndFirst(g: Gen, first: nat, n: nat)
    requires n <= |g.stack|
    ensures n == 0 ==> EndStores(g, first, n).Emit? && EndStores(g, first, n).out == []
    ensures n > 0 ==> StackPop(g).0.stack == g.stack[..|g.stack| - 1]
    ensures n > 0 && EndStores(StackPop(g).0, first, n - 1).Emit? ==>
      && EndStores(g, first, n).Emit?
      && EndStores(g, first, n).out ==
         [Assign(Old(first + n - 1), Var(g.stack[|g.stack| - 1]))] + EndStores(StackPop(g).0, first, n - 1).out
  {
  }

  /** The i-th store of a block's end puts the i-th value from the top into the i-th variable from the last. */
  lemma {:induction false} EndMoves(g: Gen, first: nat, n: nat)
    requires n <= |g.stack|
    ensures EndStores(g, first, n).Emit? && |EndStores(g, first, n).out| == n
    ensures forall i | 0 <= i < n ::
      EndStores(g, first, n).out[i] == Assign(Old(first + n - 1 - i), Var(g.stack[|g.stack| - 1 - i]))
    decreases n
  {
    hide EndStores, StackPop;
    EndFirst(g, first, n);
    if n > 0 {
      var g1 := StackPop(g).0;
      EndMoves(g1, first, n - 1);
      var out, rest := EndStores(g, first, n).out, EndStores(g1, first, n - 1).out;
      forall i | 0 <= i < n ensures out[i] == Assign(Old(first + n - 1 - i), Var(g.stack[|g.stack| - 1 - i])) {
        if i > 0 {
          assert out[i] == rest[i - 1];
        }
      }
    }
  }

  predicate SameMoves(a: seq<CStmt>, b: seq<CStmt>) {
    (forall s | s in a :: s in b) && (forall s | s in b :: s in a)
  }

  /**
   A branch to a block and falling off the block's end leave the same values in the same result
   variables exactly when the block has at most one result.
   */
  lemma BranchAgreesWithEnd(g: Gen, first: nat, n: nat)
    requires n <= |g.stack| && Distinct(g.stack)
    ensures PopMoves(g, first, n).Emit? && EndStores(g, first, n).Emit?
    ensures SameMoves(PopMoves(g, first, n).out, EndStores(g, first, n).out) <==> n <= 1
  {
    BranchMoves(g, first, n);
    EndMoves(g, first, n);
    var a, b := PopMoves(g, first, n).out, EndStores(g, first, n).out;
    if n == 1 {
      assert a == [a[0]] && b == [b[0]] && a[0] == b[0];
    } else if n >= 2 {
      var s := Assign(Old(first), Var(g.stack[|g.stack| - 1]));
      assert a[0] == s;
      forall i | 0 <= i < n ensures b[i] != s {
        if b[i].dst == Old(first) {
          assert i == n - 1;
          assert g.stack[|g.stack| - n] != g.stack[|g.stack| - 1];
        }
      }
      assert s in a && s !in b;
    }
  }

  /** With two results, what the block's end stores is the reverse of what a branch stores. */
  lemma TwoResultsSwapped(g: Gen, first: nat)
    requires |g.stack| >= 2
    ensures
      var top, below := g.stack[|g.stack| - 1], g.stack[|g.stack| - 2];
      && PopMoves(g, first, 2).out == [Assign(Old(first), Var(top)), Assign(Old(first + 1), Var(below))]
      && EndStores(g, first, 2).out == [Assign(Old(first + 1), Var(top)), Assign(Old(first), Var(below))]
  {
    BranchMoves(g, first, 2);
    EndMoves(g, first, 2);
  }

  /** How many values a branch to the block takes. */
  function Arity(cx: Context, g: Gen, l: nat): nat
    requires l < |g.blocks|
  {
    match BlockType(cx.m.types, TypeIndexOf(g, BlockAt(g, l)))
    case None => 0
    case Some(ft) => if KindOf(g, BlockAt(g, l)) == KLoop then |ft.params| else |ft.results|
  }

  predicate Moves(ss: seq<CStmt>) { exists s :: s in ss && s.Assign? }

  /** A branch table moves no value, which is what `br` does for its target exactly when that takes none. */
  lemma TableAgreesWithBranch(cx: Context, g: Gen, ls: seq<nat>, dflt: nat, l: nat)
    requires EmitBrTable(g, ls, dflt).Emit? && l < |g.blocks|
    requires EmitBr(cx, StackPop(g).0, l).Emit?
    ensures Moves(EmitBrTable(g, ls, dflt).out) == Moves(EmitBr(cx, StackPop(g).0, l).out) <==> Arity(cx, g, l) == 0
  {
    var g1 := StackPop(g).0;
    var b := BlockAt(g1, l);
    var ft := BlockType(cx.m.types, TypeIndexOf(g1, b)).value;
    var below := |ft.results| + if KindOf(g1, b) == KLoop then |ft.params| else 0;
    var n := Arity(cx, g, l);
    MovesFit(g1, b.lbl - below, n);
    BranchMoves(g1, b.lbl - below, n);
    var out := EmitBr(cx, g1, l).out;
    if n > 0 {
      assert out[0].Assign? && out[0] in out;
    }
  }

  lemma {:induction false} MovesFit(g: Gen, lhs: nat, n: nat)
    requires PopMoves(g, lhs, n).Emit?
    ensures n <= |g.stack|
    decreases n
  {
    if n > 0 {
      MovesFit(StackPop(g).0, lhs + 1, n - 1);
    }
  }

  /** The emitted remainder is defined exactly when the divisor is not zero and the quotient does not overflow. */
  lemma RemainderDefined(ty: ValType, l: nat, r: nat, a: nat, b: nat, env: Env, s: Store)
    requires l in env && env[l] == Val(ty, a) && a < Pow2(ty.Width())
    requires r in env && env[r] == Val(ty, b) && b < Pow2(ty.Width())
    ensures Eval(BinaryExpr(ty, RemS, l, r), env, s).Some? <==>
              b != 0 && !(a == Pow2(ty.Width() - 1) && b == Pow2(ty.Width()) - 1)
  {
    hide Eval, Pow2;
    BinaryCorrect(ty, RemS, l, r, a, b, env, s);
    SignedZero(ty, b);
  }

  lemma SignedZero(ty: ValType, b: nat)
    requires b < Pow2(ty.Width())
    ensures Signed(ty.Width(), b) == 0 <==> b == 0
  {
  }

  /** An emitted access is defined exactly when its address, modulo 2^32, is inside the memory. */
  lemma AccessDefined(ty: ValType, bytes: nat, signed: bool, base: nat, value: nat, offset: nat, a: nat, x: nat,
      env: Env, s: Store)
    requires base in env && env[base] == Val(I32, a) && a < Pow2(32) && offset < Pow2(32)
    requires value in env && env[value] == Val(ty, x) && 0 < bytes && 8 * bytes <= ty.Width()
    ensures
      var inside := (a + offset) % Pow2(32) + bytes <= |s.mem|;
      && (Eval(LoadExpr(bytes, signed, base, offset), env, s).Some? <==> inside)
      && (Plain(StoreBytes(bytes, Address(base, offset), StoredExpr(ty, bytes, value)), map[], env, s).Some?
         <==> inside)
  {
    hide Pow2, Address, StoredExpr, Bytes;
    AddressWraps(base, offset, a, env, s);
    StoreCorrect(ty, bytes, value, x, env, s);
    var raw := if bytes == 1 then MemByte(Address(base, offset)) else LoadFn(bytes, Address(base, offset));
    assert Eval(raw, env, s).Some? <==> (a + offset) % Pow2(32) + bytes <= |s.mem|;
  }

  /**
   A load traps exactly when it leaves the memory, and the model calls the trap `Wrapped` exactly when the emitted
   expression is defined in spite of it; the same for stores.
   */
  lemma TrapsHidden(ty: ValType, bytes: nat, signed: bool, align: nat, base: nat, value: nat, offset: nat, a: nat,
      x: nat, env: Env, st: State)
    requires base in env && env[base] == Val(I32, a) && a < Pow2(32) && offset < Pow2(32)
    requires value in env && env[value] == Val(ty, x) && 0 < bytes && 8 * bytes <= ty.Width()
    ensures
      var load := Straight(LoadInt(ty, bytes, signed, align, offset), [Val(I32, a)], st);
      var store := Straight(StoreInt(ty, bytes, align, offset), [Val(I32, a), Val(ty, x)], st);
      var defined := Eval(LoadExpr(bytes, signed, base, offset), env, st.store).Some?;
      var stores := Plain(StoreBytes(bytes, Address(base, offset), StoredExpr(ty, bytes, value)), map[], env, st.store);
      && (load.NoEffect? <==> a + offset + bytes > |st.store.mem|)
      && (load.NoEffect? ==> load.why == if defined then Wrapped else Trapped)
      && (store.NoEffect? <==> a + offset + bytes > |st.store.mem|)
      && (store.NoEffect? ==>
          store.why == if stores.Some? then Wrapped else Trapped)
  {
    hide Pow2, Address, StoredExpr, Bytes, Little, Write, SignExtend, LoadExpr, Eval, Plain;
    AccessDefined(ty, bytes, signed, base, value, offset, a, x, env, st.store);
  }

  /** A load at 2^32 - 1 with offset 1: the instruction traps, and the emitted expression reads address 0. */
  lemma WrappedLoad(mem: seq<byte>)
    requires 4 <= |mem| <= 0x1_0000_0000
    ensures
      var a, s := Val(I32, 0xFFFF_FFFF), Store([], mem);
      && Straight(LoadInt(I32, 4, false, 0, 1), [a], State([], s)) == NoEffect(Wrapped)
      && Eval(LoadExpr(4, false, 0, 1), map[0 := a], s).Some?
  {
    Pow2Values();
    hide Pow2, Address;
    var s := Store([], mem);
    AddressWraps(0, 1, 0xFFFF_FFFF, map[0 := Val(I32, 0xFFFF_FFFF)], s);
  }
}
