/** The C expressions that wasm2c.c prints for each integer opcode, and what they compute. */
module Emitted {
  import opened Bits
  import opened Options
  import opened Wasm
  import opened CLang

  function SignedType(ty: ValType): CType { CType(ty.Width(), true) }

  function BinaryExpr(ty: ValType, op: IntOp, l: nat, r: nat): CExpr {
    var mask := Lit(CInt, ty.Width() - 1);
    var count := BinE(CAnd, Var(r), mask);
    var back := BinE(CAnd, NegE(Var(r)), mask);
    var sl, sr := Cast(SignedType(ty), Var(l)), Cast(SignedType(ty), Var(r));
    match op
    case Add => BinE(CAdd, Var(l), Var(r))
    case Sub => BinE(CSub, Var(l), Var(r))
    case Mul => BinE(CMul, Var(l), Var(r))
    case DivU => BinE(CDiv, Var(l), Var(r))
    case RemU => BinE(CRem, Var(l), Var(r))
    case And => BinE(CAnd, Var(l), Var(r))
    case Or => BinE(COr, Var(l), Var(r))
    case Xor => BinE(CXor, Var(l), Var(r))
    case DivS => Cast(TypeOf(ty), BinE(CDiv, sl, sr))
    case RemS => Cast(TypeOf(ty), BinE(CRem, sl, sr))
    case Shl => BinE(CShl, Var(l), count)
    case ShrU => BinE(CShr, Var(l), count)
    case ShrS => Cast(TypeOf(ty), BinE(CShr, sl, count))
    case Rotl => BinE(COr, BinE(CShl, Var(l), count), BinE(CShr, Var(l), back))
    case Rotr => BinE(COr, BinE(CShr, Var(l), count), BinE(CShl, Var(l), back))
  }

  predicate IsSignedRel(rel: IntRel) { rel in {LtS, GtS, LeS, GeS} }

  function RelOp(rel: IntRel): COp {
    match rel
    case Eq => CEq
    case Ne => CNe
    case LtU | LtS => CLt
    case GtU | GtS => CGt
    case LeU | LeS => CLe
    case GeU | GeS => CGe
  }

  function CompareExpr(ty: ValType, rel: IntRel, l: nat, r: nat): CExpr {
    if IsSignedRel(rel)
    then BinE(RelOp(rel), Cast(SignedType(ty), Var(l)), Cast(SignedType(ty), Var(r)))
    else BinE(RelOp(rel), Var(l), Var(r))
  }

  function Address(base: nat, offset: nat): CExpr {
    BinE(CAdd, Var(base), Lit(Unsigned(32), offset))
  }

  function LoadExpr(bytes: nat, signed: bool, base: nat, offset: nat): CExpr {
    var raw := if bytes == 1 then MemByte(Address(base, offset)) else LoadFn(bytes, Address(base, offset));
    if signed then Cast(CType(8 * bytes, true), raw) else raw
  }

  // `(uint8_t)l`, or the variable itself when the whole of it is stored
  function StoredExpr(ty: ValType, bytes: nat, value: nat): CExpr {
    if 8 * bytes == ty.Width() then Var(value) else Cast(Unsigned(8 * bytes), Var(value))
  }

  // ---------------------------------------------------------------- arithmetic of conversions

  lemma ModSmall(x: int, m: nat)
    requires 0 <= x < m
    ensures x % m == x
  {
  }

  lemma ModAdd(x: int, k: int, m: nat)
    requires m > 0
    ensures (x + k * m) % m == x % m
  {
    ModUnique(x + k * m, m, x / m + k, x % m);
  }

  lemma ConvSame(t: CType, x: int)
    requires !t.signed && 0 <= x < Pow2(t.bits)
    ensures Conv(t, x) == x
  {
    ModSmall(x, Pow2(t.bits));
  }

  /** Converting an N-bit number to the signed N-bit type gives its signed interpretation. */
  lemma ConvSigned(ty: ValType, x: nat)
    requires x < Pow2(ty.Width())
    ensures Conv(SignedType(ty), x) == Signed(ty.Width(), x)
    ensures 0 - Pow2(ty.Width() - 1) <= Signed(ty.Width(), x) < Pow2(ty.Width() - 1)
    ensures Fits(SignedType(ty), Signed(ty.Width(), x))
  {
    ModSmall(x, Pow2(ty.Width()));
    FitsSigned(ty, Signed(ty.Width(), x));
  }

  lemma FitsSigned(ty: ValType, x: int)
    ensures Fits(SignedType(ty), x) <==> 0 - Pow2(ty.Width() - 1) <= x < Pow2(ty.Width() - 1)
    ensures 0 - Pow2(ty.Width() - 1) <= x < Pow2(ty.Width() - 1) ==> Conv(SignedType(ty), x) == x
  {
    var m := Pow2(ty.Width());
    var h := Pow2(ty.Width() - 1);
    assert m == 2 * h;
    hide Pow2;
    if 0 <= x < h {
      ModSmall(x, m);
    } else if 0 - h <= x < 0 {
      ModAdd(x, 1, m);
      ModSmall(x + m, m);
    } else {
      assert 0 <= x % m < m;
    }
  }

  lemma Operand(v: nat, env: Env, s: Store, ty: ValType, a: nat)
    requires v in env && env[v] == Val(ty, a) && a < Pow2(ty.Width())
    ensures Eval(Var(v), env, s) == Some(CVal(TypeOf(ty), a))
    ensures Eval(Cast(SignedType(ty), Var(v)), env, s) == Some(CVal(SignedType(ty), Signed(ty.Width(), a)))
  {
    ConvSigned(ty, a);
  }

  // ---------------------------------------------------------------- unsigned operators

  /** Two operands of one type that fit it are combined without conversion. */
  lemma BinAt(t: CType, op: COp, a: int, b: int)
    requires t.bits >= 32 && Conv(t, a) == a && Conv(t, b) == b
    ensures op == CAdd ==> BinVal(op, CVal(t, a), CVal(t, b)) == Arith(t, a + b)
    ensures op == CSub ==> BinVal(op, CVal(t, a), CVal(t, b)) == Arith(t, a - b)
    ensures op == CMul ==> BinVal(op, CVal(t, a), CVal(t, b)) == Arith(t, a * b)
    ensures op == CDiv ==> BinVal(op, CVal(t, a), CVal(t, b)) == if b == 0 then None else Arith(t, TruncDiv(a, b))
    ensures op == CRem && !t.signed ==>
              BinVal(op, CVal(t, a), CVal(t, b)) == if b == 0 then None else Arith(t, TruncRem(a, b))
    ensures op in {CAnd, COr, CXor} ==> BinVal(op, CVal(t, a), CVal(t, b)) == Some(Bitwise(op, t, a, b))
  {
    hide Conv, Bitwise, Arith, Pow2;
    assert Common(t, t) == t;
  }

  function UnsignedOp(op: IntOp): COp
    requires op in {Add, Sub, Mul, DivU, RemU}
  {
    match op case Add => CAdd case Sub => CSub case Mul => CMul case DivU => CDiv case _ => CRem
  }

  lemma UnsignedOps(ty: ValType, op: IntOp, a: nat, b: nat)
    requires a < Pow2(ty.Width()) && b < Pow2(ty.Width())
    requires op in {Add, Sub, Mul, DivU, RemU}
    ensures BinVal(UnsignedOp(op), CVal(TypeOf(ty), a), CVal(TypeOf(ty), b)) ==
        (match IntBinary(op, ty.Width(), a, b) case None => None case Some(n) => Some(CVal(TypeOf(ty), n)))
    ensures IntBinary(op, ty.Width(), a, b).Some? ==> IntBinary(op, ty.Width(), a, b).value < Pow2(ty.Width())
  {
    hide Pow2, BinVal, Conv, Arith;
    var t := TypeOf(ty);
    ConvSame(t, a);
    ConvSame(t, b);
    BinAt(t, UnsignedOp(op), a, b);
    if op in {DivU, RemU} {
      if b != 0 {
        DivBound(a, b);
        ConvSame(t, a / b);
        ConvSame(t, a % b);
        ArithFits(t, a / b);
        ArithFits(t, a % b);
        assert TruncDiv(a, b) == a / b && TruncRem(a, b) == a % b;
      }
    } else {
      ArithWraps(t, a + b);
      ArithWraps(t, a - b);
      ArithWraps(t, a * b);
    }
  }

  lemma ArithFits(t: CType, x: int)
    requires Conv(t, x) == x
    ensures Arith(t, x) == Some(CVal(t, x))
  {
  }

  lemma ArithWraps(t: CType, x: int)
    requires !t.signed
    ensures Arith(t, x) == Some(CVal(t, x % Pow2(t.bits)))
  {
  }

  lemma DivBound(a: nat, b: nat)
    requires b > 0
    ensures a / b <= a && 0 <= a % b < b && a % b <= a
  {
    var q := a / b;
    assert a == b * q + a % b;
    MulGrows(b, q);
  }

  lemma MulGrows(b: nat, q: nat)
    requires b > 0
    ensures b * q >= q
  {
  }

  function BitwiseOp(op: IntOp): COp
    requires op in {And, Or, Xor}
  {
    match op case And => CAnd case Or => COr case _ => CXor
  }

  lemma BitwiseOps(ty: ValType, op: IntOp, a: nat, b: nat)
    requires a < Pow2(ty.Width()) && b < Pow2(ty.Width())
    requires op in {And, Or, Xor}
    ensures BinVal(BitwiseOp(op), CVal(TypeOf(ty), a), CVal(TypeOf(ty), b)) ==
        Some(CVal(TypeOf(ty), IntBinary(op, ty.Width(), a, b).value))
    ensures IntBinary(op, ty.Width(), a, b).value < Pow2(ty.Width())
  {
    hide Pow2, BinVal, Conv, BAnd, BOr, BXor;
    var t := TypeOf(ty);
    ConvSame(t, a);
    ConvSame(t, b);
    BinAt(t, BitwiseOp(op), a, b);
    ModSmall(a, Pow2(ty.Width()));
    ModSmall(b, Pow2(ty.Width()));
    AndBound(a, b);
    OrBound(a, b, ty.Width());
    XorBound(a, b, ty.Width());
    ConvSame(t, BAnd(a, b));
    ConvSame(t, BOr(a, b));
    ConvSame(t, BXor(a, b));
  }

  // ---------------------------------------------------------------- signed division

  lemma SignedDiv(ty: ValType, op: IntOp, a: nat, b: nat)
    requires a < Pow2(ty.Width()) && b < Pow2(ty.Width())
    requires op in {DivS, RemS}
    ensures var w := ty.Width();
      var r := BinVal(if op == DivS then CDiv else CRem,
            CVal(SignedType(ty), Signed(w, a)), CVal(SignedType(ty), Signed(w, b)));
      && (r.None? <==> IntBinary(op, w, a, b).None? || RemOverflows(op, w, a, b))
      && (r.Some? ==> IntBinary(op, w, a, b) == Some(r.value.x % Pow2(w)))
  {
    hide Pow2, BinVal, Conv, Signed, TruncDiv, TruncRem, Fits;
    var w := ty.Width();
    var sa, sb := Signed(w, a), Signed(w, b);
    ConvSigned(ty, a);
    ConvSigned(ty, b);
    SignedEnds(w, a);
    SignedEnds(w, b);
    if sb != 0 {
      SignedDivValue(ty, op, sa, sb);
    } else {
      SignedDivZero(ty, op, sa);
    }
  }

  lemma SignedDivZero(ty: ValType, op: IntOp, a: int)
    requires op in {DivS, RemS}
    ensures BinVal(if op == DivS then CDiv else CRem, CVal(SignedType(ty), a), CVal(SignedType(ty), 0)).None?
    ensures !(0 == 0 - Pow2(ty.Width() - 1)) && 0 != -1
  {
    hide Conv, TruncDiv, TruncRem, Fits, Pow2, Bitwise, Shift, Arith;
    assert Common(SignedType(ty), SignedType(ty)) == SignedType(ty);
    ZeroFits(SignedType(ty));
  }

  lemma ZeroFits(t: CType)
    requires t.bits > 0
    ensures Conv(t, 0) == 0
  {
    ModSmall(0, Pow2(t.bits));
  }

  lemma SignedEnds(w: nat, x: nat)
    requires w > 0 && x < Pow2(w)
    ensures Signed(w, x) == 0 - Pow2(w - 1) <==> x == Pow2(w - 1)
    ensures Signed(w, x) == -1 <==> x == Pow2(w) - 1
  {
  }

  lemma SignedDivValue(ty: ValType, op: IntOp, a: int, b: int)
    requires b != 0 && op in {DivS, RemS}
    requires Fits(SignedType(ty), a) && Fits(SignedType(ty), b)
    ensures
      var t, w := SignedType(ty), ty.Width();
      var over := a == 0 - Pow2(w - 1) && b == -1;
      && (op == DivS ==> BinVal(CDiv, CVal(t, a), CVal(t, b)) == if over then None else Some(CVal(t, TruncDiv(a, b))))
      && (op == RemS ==> BinVal(CRem, CVal(t, a), CVal(t, b)) == if over then None else Some(CVal(t, TruncRem(a, b))))
      && (TruncDiv(a, b) == Pow2(w - 1) <==> over)
  {
    hide Pow2, Conv, TruncDiv, TruncRem;
    var t, h := SignedType(ty), Pow2(ty.Width() - 1);
    assert Common(t, t) == t;
    FitsSigned(ty, a);
    FitsSigned(ty, b);
    TruncBounds(a, b, h);
    FitsSigned(ty, TruncDiv(a, b));
    FitsSigned(ty, TruncRem(a, b));
  }

  lemma TruncBounds(a: int, b: int, h: nat)
    requires h > 0 && b != 0 && 0 - h <= a < h && 0 - h <= b < h
    ensures 0 - h <= TruncDiv(a, b) <= h && 0 - h <= TruncRem(a, b) < h
    ensures TruncDiv(a, b) == h <==> a == 0 - h && b == -1
  {
    DivBound(Abs(a), Abs(b));
    if Abs(b) >= 2 && a != 0 {
      DivHalf(Abs(a), Abs(b));
    }
    if Abs(b) == 1 {
      assert Abs(a) / 1 == Abs(a);
    }
  }

  lemma DivHalf(a: nat, b: nat)
    requires a > 0 && b >= 2
    ensures a / b < a
  {
    assert a == b * (a / b) + a % b;
    if a / b >= 1 {
      assert b * (a / b) >= 2 * (a / b);
    }
  }

  // ---------------------------------------------------------------- shifts and rotations

  /** `r & (N - 1)` is the shift count modulo N. */
  lemma ShiftCount(ty: ValType, b: nat)
    requires b < Pow2(ty.Width())
    ensures BinVal(CAnd, CVal(TypeOf(ty), b), CVal(CInt, ty.Width() - 1)) == Some(CVal(TypeOf(ty), b % ty.Width()))
  {
    var t, w := TypeOf(ty), ty.Width();
    var k := if ty.I32? then 5 else 6;
    Pow2Values();
    assert Pow2(k) == w;
    assert Common(t, CInt) == t;
    ConvSame(t, b);
    ConvSame(t, w - 1);
    ModSmall(b, Pow2(w));
    ModSmall(w - 1, Pow2(w));
    AndMask(b, k);
    ConvSame(t, b % w);
  }

  /** `-r & (N - 1)` is what is left of N, or 0 when the count is 0. */
  lemma BackCount(ty: ValType, b: nat)
    requires b < Pow2(ty.Width())
    ensures
      var neg := Arith(Promote(TypeOf(ty)), 0 - b);
      && neg.Some?
      && BinVal(CAnd, neg.value, CVal(CInt, ty.Width() - 1)) ==
         Some(CVal(TypeOf(ty), if b % ty.Width() == 0 then 0 else ty.Width() - b % ty.Width()))
  {
    var t, w := TypeOf(ty), ty.Width();
    var m := Pow2(w);
    var k := if ty.I32? then 5 else 6;
    Pow2Values();
    assert Pow2(k) == w;
    var n := (0 - b) % m;
    assert Arith(t, 0 - b) == Some(CVal(t, n));
    ShiftCount(ty, n);
    NegMod(b, m, w, if ty.I32? then 0x800_0000 else 0x400_0000_0000_0000);
  }

  lemma NegMod(b: nat, m: nat, w: nat, q: nat)
    requires 0 < w && m == q * w && 0 < m && b < m
    ensures ((0 - b) % m) % w == if b % w == 0 then 0 else w - b % w
  {
    var c, r := b / w, b % w;
    assert b == w * c + r;
    if b == 0 {
      ModUnique(0, w, 0, 0);
    } else {
      ModUnique(0 - b, m, -1, m - b);
      NegSplit(m, w, q, c, r);
    }
  }

  lemma NegSplit(m: nat, w: nat, q: nat, c: nat, r: nat)
    requires r < w && m == q * w
    ensures (m - (w * c + r)) % w == if r == 0 then 0 else w - r
  {
    if r == 0 {
      assert w * (q - c) == w * q - w * c;
      ModUnique(m - w * c, w, q - c, 0);
    } else {
      assert w * (q - c - 1) == w * q - w * c - w;
      ModUnique(m - (w * c + r), w, q - c - 1, w - r);
    }
  }

  lemma ShiftVal(ty: ValType, a: nat, k: nat)
    requires a < Pow2(ty.Width()) && k < ty.Width()
    ensures BinVal(CShl, CVal(TypeOf(ty), a), CVal(TypeOf(ty), k))
      == Some(CVal(TypeOf(ty), ShiftLeft(ty.Width(), a, k)))
    ensures BinVal(CShr, CVal(TypeOf(ty), a), CVal(TypeOf(ty), k)) == Some(CVal(TypeOf(ty), ShiftRight(a, k)))
    ensures ShiftLeft(ty.Width(), a, k) < Pow2(ty.Width()) && ShiftRight(a, k) <= a
  {
    DivBound(a, Pow2(k));
    assert Arith(TypeOf(ty), a * Pow2(k)) == Some(CVal(TypeOf(ty), Conv(TypeOf(ty), a * Pow2(k))));
  }

  lemma SignedShift(ty: ValType, a: nat, k: nat)
    requires a < Pow2(ty.Width()) && k < ty.Width()
    ensures BinVal(CShr, CVal(SignedType(ty), Signed(ty.Width(), a)), CVal(TypeOf(ty), k))
            == Some(CVal(SignedType(ty), Signed(ty.Width(), a) / Pow2(k)))
  {
  }

  /** The two halves of a rotation do not overlap. */
  lemma RotateHalves(ty: ValType, a: nat, k: nat)
    requires a < Pow2(ty.Width()) && 0 < k < ty.Width()
    ensures BOr(ShiftLeft(ty.Width(), a, k), ShiftRight(a, ty.Width() - k))
            == ShiftLeft(ty.Width(), a, k) + ShiftRight(a, ty.Width() - k)
    ensures ShiftLeft(ty.Width(), a, k) + ShiftRight(a, ty.Width() - k) < Pow2(ty.Width())
  {
    Pow2Sum(k, ty.Width() - k);
    JoinHalves(a, k, Pow2(k), Pow2(ty.Width() - k), Pow2(ty.Width()));
  }

  lemma JoinHalves(a: nat, k: nat, p: nat, q: nat, m: nat)
    requires p == Pow2(k) && q > 0 && m == p * q && a < m
    ensures m > 0 && BOr((a * p) % m, a / q) == (a * p) % m + a / q < m
  {
    RotateParts(a, p, q, m);
    OrDisjoint(a % q, a / q, k);
  }

  lemma RotateParts(a: nat, p: nat, q: nat, m: nat)
    requires p > 0 && q > 0 && m == p * q && a < m
    ensures m > 0 && (a * p) % m == (a % q) * p
    ensures a / q < p
    ensures (a % q) * p + a / q < m
  {
    var hi, lo := a / q, a % q;
    assert a == q * hi + lo;
    SplitProduct(p, q, hi, lo);
    BelowProduct(p, q, lo);
    ModUnique(a * p, p * q, hi, lo * p);
    HighPart(p, q, hi, lo);
  }

  lemma SplitProduct(p: nat, q: nat, hi: nat, lo: nat)
    ensures (q * hi + lo) * p == (p * q) * hi + lo * p
  {
    assert (q * hi + lo) * p == (q * hi) * p + lo * p;
    assert (q * hi) * p == (p * q) * hi;
  }

  lemma BelowProduct(p: nat, q: nat, lo: nat)
    requires lo < q && p > 0
    ensures lo * p + p <= p * q
  {
    assert (lo + 1) * p <= q * p;
  }

  lemma HighPart(p: nat, q: nat, hi: nat, lo: nat)
    requires q > 0 && q * hi + lo < p * q
    ensures hi < p
  {
    assert q * (p - hi) == p * q - q * hi;
    assert q * (p - hi) > 0;
  }

  lemma RotateBack(ty: ValType, a: nat)
    requires a < Pow2(ty.Width())
    ensures ShiftLeft(ty.Width(), a, 0) == a == ShiftRight(a, 0)
    ensures ShiftRight(a, ty.Width()) == 0 && ShiftLeft(ty.Width(), a, ty.Width()) == 0
    ensures BOr(a, a) == a
  {
    var w := ty.Width();
    assert Pow2(0) == 1;
    ModSmall(a, Pow2(w));
    ModUnique(a, Pow2(w), 0, a);
    ModUnique(a * Pow2(w), Pow2(w), a, 0);
    OrSelf(a);
  }

  lemma RotateIs(ty: ValType, op: IntOp, a: nat, b: nat)
    requires op in {Rotl, Rotr}
    ensures var w := ty.Width(); var k := b % w;
      IntBinary(op, w, a, b) == Some(if op == Rotl then ShiftLeft(w, a, k) + ShiftRight(a, w - k)
        else ShiftRight(a, k) + ShiftLeft(w, a, w - k))
  {
    hide Pow2, ShiftLeft, ShiftRight;
  }

  lemma RotateVals(ty: ValType, op: IntOp, a: nat, b: nat)
    requires a < Pow2(ty.Width()) && b < Pow2(ty.Width())
    requires op in {Rotl, Rotr}
    ensures var w := ty.Width(); var k := b % w; var j := if k == 0 then 0 else w - k;
      && (op == Rotl ==> BOr(ShiftLeft(w, a, k), ShiftRight(a, j)) == IntBinary(op, w, a, b).value)
      && (op == Rotr ==> BOr(ShiftRight(a, k), ShiftLeft(w, a, j)) == IntBinary(op, w, a, b).value)
      && IntBinary(op, w, a, b).value < Pow2(w)
  {
    hide Pow2, BOr, ShiftLeft, ShiftRight;
    var w := ty.Width();
    var k := b % w;
    RotateIs(ty, op, a, b);
    if k == 0 {
      RotateBack(ty, a);
    } else {
      RotateHalves(ty, a, k);
      RotateHalves(ty, a, w - k);
      OrCommutes(ShiftRight(a, k), ShiftLeft(w, a, w - k));
    }
  }

  lemma OrVal(ty: ValType, x: nat, y: nat)
    requires x < Pow2(ty.Width()) && y < Pow2(ty.Width())
    ensures BinVal(COr, CVal(TypeOf(ty), x), CVal(TypeOf(ty), y)) == Some(CVal(TypeOf(ty), BOr(x, y)))
  {
    BitwiseOps(ty, Or, x, y);
  }

  // ---------------------------------------------------------------- whole instructions

  lemma Arguments(ty: ValType, l: nat, r: nat, a: nat, b: nat, env: Env, s: Store)
    requires l in env && env[l] == Val(ty, a) && a < Pow2(ty.Width())
    requires r in env && env[r] == Val(ty, b) && b < Pow2(ty.Width())
    ensures
      var mask, back := Lit(CInt, ty.Width() - 1), b % ty.Width();
      && Eval(BinE(CAnd, Var(r), mask), env, s) == Some(CVal(TypeOf(ty), back))
      && Eval(BinE(CAnd, NegE(Var(r)), mask), env, s)
         == Some(CVal(TypeOf(ty), if back == 0 then 0 else ty.Width() - back))
  {
    var mask := Lit(CInt, ty.Width() - 1);
    Operand(r, env, s, ty, b);
    ShiftCount(ty, b);
    BackCount(ty, b);
    assert Eval(mask, env, s) == Some(CVal(CInt, ty.Width() - 1));
    assert Eval(NegE(Var(r)), env, s) == Arith(Promote(TypeOf(ty)), 0 - b);
  }

  lemma EvalBin(op: COp, a: CExpr, b: CExpr, env: Env, s: Store)
    requires Eval(a, env, s).Some? && Eval(b, env, s).Some?
    ensures Eval(BinE(op, a, b), env, s) == BinVal(op, Eval(a, env, s).value, Eval(b, env, s).value)
  {
  }

  /** What an emitted operator computes: nothing exactly when the instruction traps or overflows. */
  predicate Computes(e: Option<CVal>, ty: ValType, op: IntOp, a: nat, b: nat) {
    var r := IntBinary(op, ty.Width(), a, b);
    && (e.None? <==> r.None? || RemOverflows(op, ty.Width(), a, b))
    && (e.Some? ==> r == Some(e.value.x % Pow2(ty.Width())))
  }

  lemma BinaryCorrect(ty: ValType, op: IntOp, l: nat, r: nat, a: nat, b: nat, env: Env, s: Store)
    requires l in env && env[l] == Val(ty, a) && a < Pow2(ty.Width())
    requires r in env && env[r] == Val(ty, b) && b < Pow2(ty.Width())
    ensures Computes(Eval(BinaryExpr(ty, op, l, r), env, s), ty, op, a, b)
  {
    hide *;
    if op == Shl || op == ShrU || op == ShrS {
      ShiftCorrect(ty, op, l, r, a, b, env, s);
    } else if op == Rotl || op == Rotr {
      RotateCorrect(ty, op, l, r, a, b, env, s);
    } else if op == DivS || op == RemS {
      SignedDivCorrect(ty, op, l, r, a, b, env, s);
    } else {
      WordOpCorrect(ty, op, l, r, a, b, env, s);
    }
  }

  function WordOp(op: IntOp): COp
    requires op in {Add, Sub, Mul, DivU, RemU, And, Or, Xor}
  {
    if op in {And, Or, Xor} then BitwiseOp(op) else UnsignedOp(op)
  }

  lemma WordOpForm(ty: ValType, op: IntOp, l: nat, r: nat)
    requires op in {Add, Sub, Mul, DivU, RemU, And, Or, Xor}
    ensures BinaryExpr(ty, op, l, r) == BinE(WordOp(op), Var(l), Var(r))
  {
  }

  lemma WordOpCorrect(ty: ValType, op: IntOp, l: nat, r: nat, a: nat, b: nat, env: Env, s: Store)
    requires op in {Add, Sub, Mul, DivU, RemU, And, Or, Xor}
    requires l in env && env[l] == Val(ty, a) && a < Pow2(ty.Width())
    requires r in env && env[r] == Val(ty, b) && b < Pow2(ty.Width())
    ensures Computes(Eval(BinaryExpr(ty, op, l, r), env, s), ty, op, a, b)
  {
    hide *;
    WordOpForm(ty, op, l, r);
    Operand(l, env, s, ty, a);
    Operand(r, env, s, ty, b);
    EvalBin(WordOp(op), Var(l), Var(r), env, s);
    WordOps(ty, op, a, b);
    WordsCompute(ty, op, a, b, BinaryExpr(ty, op, l, r), env, s);
  }

  lemma WordOps(ty: ValType, op: IntOp, a: nat, b: nat)
    requires op in {Add, Sub, Mul, DivU, RemU, And, Or, Xor}
    requires a < Pow2(ty.Width()) && b < Pow2(ty.Width())
    ensures
      var r := IntBinary(op, ty.Width(), a, b);
      && (r.Some? ==> r.value < Pow2(ty.Width()))
      && BinVal(WordOp(op), CVal(TypeOf(ty), a), CVal(TypeOf(ty), b)) ==
           (match r case None => None case Some(n) => Some(CVal(TypeOf(ty), n)))
  {
    hide Pow2, BinVal;
    if op in {And, Or, Xor} {
      BitwiseSome(op, ty.Width(), a, b);
      hide IntBinary;
      BitwiseOps(ty, op, a, b);
    } else {
      hide IntBinary;
      UnsignedOps(ty, op, a, b);
    }
  }

  lemma BitwiseSome(op: IntOp, w: nat, a: nat, b: nat)
    requires op in {And, Or, Xor} && w > 0
    ensures IntBinary(op, w, a, b).Some?
  {
    hide Pow2;
  }

  lemma WordsCompute(ty: ValType, op: IntOp, a: nat, b: nat, e: CExpr, env: Env, s: Store)
    requires op !in {DivS, RemS}
    requires
      var r := IntBinary(op, ty.Width(), a, b);
      && (r.Some? ==> r.value < Pow2(ty.Width()))
      && Eval(e, env, s) == (match r case None => None case Some(n) => Some(CVal(TypeOf(ty), n)))
    ensures Computes(Eval(e, env, s), ty, op, a, b)
  {
    var r := IntBinary(op, ty.Width(), a, b);
    if r.Some? {
      WordSmall(ty, r.value);
    }
  }

  lemma WordSmall(ty: ValType, x: nat)
    requires x < Pow2(ty.Width())
    ensures x % Pow2(ty.Width()) == x
  {
    ModSmall(x, Pow2(ty.Width()));
  }

  lemma ShiftCorrect(ty: ValType, op: IntOp, l: nat, r: nat, a: nat, b: nat, env: Env, s: Store)
    requires op in {Shl, ShrU, ShrS}
    requires l in env && env[l] == Val(ty, a) && a < Pow2(ty.Width())
    requires r in env && env[r] == Val(ty, b) && b < Pow2(ty.Width())
    ensures Computes(Eval(BinaryExpr(ty, op, l, r), env, s), ty, op, a, b)
  {
    hide Computes, BinVal, Pow2;
    var w, k := ty.Width(), b % ty.Width();
    var count := BinE(CAnd, Var(r), Lit(CInt, w - 1));
    Operand(l, env, s, ty, a);
    Arguments(ty, l, r, a, b, env, s);
    ShiftVal(ty, a, k);
    if op == ShrS {
      SignedShiftCorrect(ty, l, r, a, b, env, s);
    } else {
      EvalBin(CShl, Var(l), count, env, s);
      EvalBin(CShr, Var(l), count, env, s);
      WordsCompute(ty, op, a, b, BinaryExpr(ty, op, l, r), env, s);
    }
  }

  lemma SignedShiftCorrect(ty: ValType, l: nat, r: nat, a: nat, b: nat, env: Env, s: Store)
    requires l in env && env[l] == Val(ty, a) && a < Pow2(ty.Width())
    requires r in env && env[r] == Val(ty, b) && b < Pow2(ty.Width())
    ensures Computes(Eval(BinaryExpr(ty, ShrS, l, r), env, s), ty, ShrS, a, b)
  {
    hide BinVal, Pow2;
    var w, k := ty.Width(), b % ty.Width();
    var sl, count := Cast(SignedType(ty), Var(l)), BinE(CAnd, Var(r), Lit(CInt, w - 1));
    Operand(l, env, s, ty, a);
    Arguments(ty, l, r, a, b, env, s);
    SignedShift(ty, a, k);
    EvalBin(CShr, sl, count, env, s);
    CastWord(ty, BinE(CShr, sl, count), Signed(w, a) / Pow2(k), env, s);
  }

  lemma CastWord(ty: ValType, e: CExpr, x: int, env: Env, s: Store)
    requires Eval(e, env, s) == Some(CVal(SignedType(ty), x))
    ensures Eval(Cast(TypeOf(ty), e), env, s) == Some(CVal(TypeOf(ty), x % Pow2(ty.Width())))
    ensures (x % Pow2(ty.Width())) % Pow2(ty.Width()) == x % Pow2(ty.Width())
  {
    ModSmall(x % Pow2(ty.Width()), Pow2(ty.Width()));
  }

  lemma RotateCorrect(ty: ValType, op: IntOp, l: nat, r: nat, a: nat, b: nat, env: Env, s: Store)
    requires op in {Rotl, Rotr}
    requires l in env && env[l] == Val(ty, a) && a < Pow2(ty.Width())
    requires r in env && env[r] == Val(ty, b) && b < Pow2(ty.Width())
    ensures Computes(Eval(BinaryExpr(ty, op, l, r), env, s), ty, op, a, b)
  {
    var w, k := ty.Width(), b % ty.Width();
    var j := if k == 0 then 0 else w - k;
    RotateEval(ty, op, l, r, a, b, k, j, env, s);
    RotateVals(ty, op, a, b);
    hide Pow2, Eval, BinVal;
    WordsCompute(ty, op, a, b, BinaryExpr(ty, op, l, r), env, s);
  }

  lemma RotateEval(ty: ValType, op: IntOp, l: nat, r: nat, a: nat, b: nat, k: nat, j: nat, env: Env, s: Store)
    requires op in {Rotl, Rotr}
    requires l in env && env[l] == Val(ty, a) && a < Pow2(ty.Width())
    requires r in env && env[r] == Val(ty, b) && b < Pow2(ty.Width())
    requires k == b % ty.Width() && j == if k == 0 then 0 else ty.Width() - k
    ensures Eval(BinaryExpr(ty, op, l, r), env, s) ==
      Some(CVal(TypeOf(ty), if op == Rotl then BOr(ShiftLeft(ty.Width(), a, k), ShiftRight(a, j))
                            else BOr(ShiftRight(a, k), ShiftLeft(ty.Width(), a, j))))
  {
    hide Pow2, BinVal, ShiftLeft, ShiftRight;
    var w := ty.Width();
    Operand(l, env, s, ty, a);
    Arguments(ty, l, r, a, b, env, s);
    var count := BinE(CAnd, Var(r), Lit(CInt, w - 1));
    var back := BinE(CAnd, NegE(Var(r)), Lit(CInt, w - 1));
    ShiftVal(ty, a, k);
    ShiftVal(ty, a, j);
    if op == Rotl {
      EvalBin(CShl, Var(l), count, env, s);
      EvalBin(CShr, Var(l), back, env, s);
      OrVal(ty, ShiftLeft(w, a, k), ShiftRight(a, j));
      EvalBin(COr, BinE(CShl, Var(l), count), BinE(CShr, Var(l), back), env, s);
    } else {
      EvalBin(CShr, Var(l), count, env, s);
      EvalBin(CShl, Var(l), back, env, s);
      OrVal(ty, ShiftRight(a, k), ShiftLeft(w, a, j));
      EvalBin(COr, BinE(CShr, Var(l), count), BinE(CShl, Var(l), back), env, s);
    }
  }

  lemma SignedDivCorrect(ty: ValType, op: IntOp, l: nat, r: nat, a: nat, b: nat, env: Env, s: Store)
    requires op in {DivS, RemS}
    requires l in env && env[l] == Val(ty, a) && a < Pow2(ty.Width())
    requires r in env && env[r] == Val(ty, b) && b < Pow2(ty.Width())
    ensures Computes(Eval(BinaryExpr(ty, op, l, r), env, s), ty, op, a, b)
  {
    hide *;
    Operand(l, env, s, ty, a);
    Operand(r, env, s, ty, b);
    SignedDiv(ty, op, a, b);
    var e := BinE(if op == DivS then CDiv else CRem, Cast(SignedType(ty), Var(l)), Cast(SignedType(ty), Var(r)));
    DivForm(ty, op, l, r);
    EvalBin(e.op, e.a, e.b, env, s);
    if Eval(e, env, s).Some? {
      SignedResult(ty, op, a, b);
      CastWord(ty, e, Eval(e, env, s).value.x, env, s);
    } else {
      CastNone(ty, e, env, s);
    }
    ComputesForm(Eval(Cast(TypeOf(ty), e), env, s), ty, op, a, b);
  }

  lemma DivForm(ty: ValType, op: IntOp, l: nat, r: nat)
    requires op in {DivS, RemS}
    ensures BinaryExpr(ty, op, l, r) == Cast(TypeOf(ty),
        BinE(if op == DivS then CDiv else CRem, Cast(SignedType(ty), Var(l)), Cast(SignedType(ty), Var(r))))
  {
  }

  lemma CastNone(ty: ValType, e: CExpr, env: Env, s: Store)
    requires Eval(e, env, s).None?
    ensures Eval(Cast(TypeOf(ty), e), env, s).None?
  {
  }

  lemma ComputesForm(e: Option<CVal>, ty: ValType, op: IntOp, a: nat, b: nat)
    ensures var r := IntBinary(op, ty.Width(), a, b);
      Computes(e, ty, op, a, b) <==>
        && (e.None? <==> r.None? || RemOverflows(op, ty.Width(), a, b))
        && (e.Some? ==> r == Some(e.value.x % Pow2(ty.Width())))
  {
    hide IntBinary, Pow2, RemOverflows;
  }

  lemma SignedResult(ty: ValType, op: IntOp, a: nat, b: nat)
    requires a < Pow2(ty.Width()) && b < Pow2(ty.Width()) && op in {DivS, RemS}
    ensures
      var w := ty.Width();
      var r := BinVal(if op == DivS then CDiv else CRem,
            CVal(SignedType(ty), Signed(w, a)), CVal(SignedType(ty), Signed(w, b)));
      r.Some? ==> r.value.ty == SignedType(ty)
  {
    assert Common(SignedType(ty), SignedType(ty)) == SignedType(ty);
  }

  /** Operands that fit the type they are compared at are compared as they are. */
  lemma CompareVal(t: CType, rel: IntRel, a: int, b: int)
    requires Fits(t, a) && Fits(t, b) && t.bits >= 32
    ensures
      BinVal(RelOp(rel), CVal(t, a), CVal(t, b)) ==
        Some(CBool(match rel
                   case Eq => a == b
                   case Ne => a != b
                   case LtU | LtS => a < b
                   case GtU | GtS => a > b
                   case LeU | LeS => a <= b
                   case GeU | GeS => a >= b))
  {
    hide Conv;
    assert Common(t, t) == t;
  }

  lemma CompareCorrect(ty: ValType, rel: IntRel, l: nat, r: nat, a: nat, b: nat, env: Env, s: Store)
    requires l in env && env[l] == Val(ty, a) && a < Pow2(ty.Width())
    requires r in env && env[r] == Val(ty, b) && b < Pow2(ty.Width())
    ensures Eval(CompareExpr(ty, rel, l, r), env, s) == Some(CBool(IntCompare(rel, ty.Width(), a, b)))
  {
    Operand(l, env, s, ty, a);
    Operand(r, env, s, ty, b);
    if IsSignedRel(rel) {
      SignedCompare(ty, rel, l, r, a, b, env, s);
    } else {
      ConvSame(TypeOf(ty), a);
      ConvSame(TypeOf(ty), b);
      EvalBin(RelOp(rel), Var(l), Var(r), env, s);
      hide BinVal, Eval, Conv, Pow2;
      CompareVal(TypeOf(ty), rel, a, b);
    }
  }

  lemma SignedCompare(ty: ValType, rel: IntRel, l: nat, r: nat, a: nat, b: nat, env: Env, s: Store)
    requires l in env && env[l] == Val(ty, a) && a < Pow2(ty.Width())
    requires r in env && env[r] == Val(ty, b) && b < Pow2(ty.Width())
    requires IsSignedRel(rel)
    ensures Eval(CompareExpr(ty, rel, l, r), env, s) == Some(CBool(IntCompare(rel, ty.Width(), a, b)))
  {
    Operand(l, env, s, ty, a);
    Operand(r, env, s, ty, b);
    var t, w := SignedType(ty), ty.Width();
    ConvSigned(ty, a);
    ConvSigned(ty, b);
    EvalBin(RelOp(rel), Cast(t, Var(l)), Cast(t, Var(r)), env, s);
    hide BinVal, Eval, Conv, Pow2;
    CompareVal(t, rel, Signed(w, a), Signed(w, b));
  }

  /** A cast to a narrower signed type, stored in a variable of type `ty`, sign-extends. */
  lemma SignExtendCorrect(ty: ValType, bits: nat, e: CExpr, x: nat, env: Env, s: Store)
    requires 0 < bits && Eval(e, env, s).Some? && Eval(e, env, s).value.x == x
    ensures Eval(Cast(CType(bits, true), e), env, s).Some?
    ensures Eval(Cast(CType(bits, true), e), env, s).value.x % Pow2(ty.Width()) == SignExtend(bits, ty.Width(), x)
  {
  }

  /** Any address is computed modulo 2^32. */
  lemma AddressWraps(base: nat, offset: nat, a: nat, env: Env, s: Store)
    requires base in env && env[base] == Val(I32, a) && a < Pow2(32) && offset < Pow2(32)
    ensures Eval(Address(base, offset), env, s) == Some(CVal(Unsigned(32), (a + offset) % Pow2(32)))
  {
    hide Pow2, TruncDiv, TruncRem, Bitwise, Shift;
    Operand(base, env, s, I32, a);
    var t := Unsigned(32);
    assert Common(t, t) == t;
    ConvSame(t, a);
    ConvSame(t, offset);
    assert Eval(Lit(t, offset), env, s) == Some(CVal(t, offset));
  }

  /** An in-bounds address is computed without wrapping around. */
  lemma AddressCorrect(base: nat, offset: nat, a: nat, env: Env, s: Store)
    requires base in env && env[base] == Val(I32, a) && a + offset < Pow2(32)
    ensures Eval(Address(base, offset), env, s) == Some(CVal(Unsigned(32), a + offset))
  {
    hide Pow2, Eval, Address;
    AddressWraps(base, offset, a, env, s);
    ModSmall(a + offset, Pow2(32));
  }

  /** A load whose wrapped address leaves the memory is undefined. */
  lemma LoadFaults(bytes: nat, signed: bool, base: nat, offset: nat, a: nat, env: Env, s: Store)
    requires base in env && env[base] == Val(I32, a) && a < Pow2(32) && offset < Pow2(32) && bytes > 0
    requires (a + offset) % Pow2(32) + bytes > |s.mem|
    ensures Eval(LoadExpr(bytes, signed, base, offset), env, s).None?
  {
    hide Pow2, Address;
    AddressWraps(base, offset, a, env, s);
    var raw := if bytes == 1 then MemByte(Address(base, offset)) else LoadFn(bytes, Address(base, offset));
    assert Eval(raw, env, s).None?;
  }

  lemma {:induction false} LittleBound(mem: seq<byte>, at: nat, n: nat)
    requires at + n <= |mem|
    ensures Little(mem, at, n) < Pow2(8 * n)
    decreases n
  {
    if n > 0 {
      LittleBound(mem, at + 1, n - 1);
      Pow2Sum(8, 8 * (n - 1));
      Pow2Values();
    }
  }

  lemma LittleFits(mem: seq<byte>, at: nat, bytes: nat, ty: ValType)
    requires at + bytes <= |mem| && 8 * bytes <= ty.Width()
    ensures Little(mem, at, bytes) < Pow2(ty.Width())
  {
    LittleBound(mem, at, bytes);
    Pow2Sum(8 * bytes, ty.Width() - 8 * bytes);
    hide Pow2, Little;
    ScaleGrows(Pow2(8 * bytes), Pow2(ty.Width() - 8 * bytes));
  }

  lemma RawLoad(bytes: nat, base: nat, offset: nat, a: nat, env: Env, s: Store)
    requires base in env && env[base] == Val(I32, a) && bytes > 0
    requires a + offset + bytes <= |s.mem| <= Pow2(32)
    ensures
      var addr := Address(base, offset);
      var raw := Eval(if bytes == 1 then MemByte(addr) else LoadFn(bytes, addr), env, s);
      raw.Some? && raw.value.x == Little(s.mem, a + offset, bytes)
  {
    hide Pow2, Address;
    AddressCorrect(base, offset, a, env, s);
    if bytes == 1 {
      assert Little(s.mem, a + offset + 1, 0) == 0;
    }
  }

  lemma LoadCorrect(bytes: nat, signed: bool, base: nat, offset: nat, a: nat, ty: ValType, env: Env, s: Store)
    requires base in env && env[base] == Val(I32, a) && bytes > 0
    requires a + offset + bytes <= |s.mem| <= Pow2(32) && 8 * bytes <= ty.Width()
    ensures
      var x := Little(s.mem, a + offset, bytes);
      var e := Eval(LoadExpr(bytes, signed, base, offset), env, s);
      e.Some? && x < Pow2(ty.Width())
      && e.value.x % Pow2(ty.Width()) == if signed then SignExtend(8 * bytes, ty.Width(), x) else x
  {
    hide Pow2, Little, Eval, SignExtend, Address;
    var x := Little(s.mem, a + offset, bytes);
    RawLoad(bytes, base, offset, a, env, s);
    LittleFits(s.mem, a + offset, bytes, ty);
    var raw := if bytes == 1 then MemByte(Address(base, offset)) else LoadFn(bytes, Address(base, offset));
    if signed {
      SignExtendCorrect(ty, 8 * bytes, raw, x, env, s);
    } else {
      WordSmall(ty, x);
    }
  }

  lemma ScaleGrows(p: nat, q: nat)
    requires q > 0
    ensures p <= p * q
  {
  }

  /** Storing keeps only the low bytes. */
  lemma {:induction false} BytesLow(x: nat, n: nat, m: nat)
    requires n <= m
    ensures Bytes(x % Pow2(8 * m), n) == Bytes(x, n)
    decreases n
  {
    if n > 0 {
      var q := Pow2(8 * (m - 1));
      Pow2Sum(8, 8 * (m - 1));
      Pow2Values();
      assert Pow2(8 * m) == 256 * q;
      LowDigit(x, q);
      BytesLow(x / 256, n - 1, m - 1);
    }
  }

  lemma LowDigit(x: nat, q: nat)
    requires q > 0
    ensures (x % (256 * q)) % 256 == x % 256 && (x % (256 * q)) / 256 == (x / 256) % q
  {
    var h, r := (x / 256) / q, (x / 256) % q;
    assert x / 256 == q * h + r;
    assert x == 256 * (q * h + r) + x % 256;
    assert 256 * (q * h + r) == (256 * q) * h + 256 * r;
    ModUnique(x, 256 * q, h, 256 * r + x % 256);
    ModUnique(256 * r + x % 256, 256, r, x % 256);
  }

  /** What the emitted store writes is what the instruction writes. */
  lemma StoreCorrect(ty: ValType, bytes: nat, value: nat, x: nat, env: Env, s: Store)
    requires value in env && env[value] == Val(ty, x) && 0 < bytes && 8 * bytes <= ty.Width()
    ensures
      var e := Eval(StoredExpr(ty, bytes, value), env, s);
      e.Some? && Conv(Unsigned(8 * bytes), e.value.x) >= 0
      && Bytes(Conv(Unsigned(8 * bytes), e.value.x), bytes) == Bytes(x, bytes)
  {
    var m := Pow2(8 * bytes);
    BytesLow(x, bytes, bytes);
    assert Eval(Var(value), env, s) == Some(CVal(TypeOf(ty), x));
    ModSmall(x % m, m);
  }
}
