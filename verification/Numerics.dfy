/**
 What the arithmetic and memory functions mean that source and target language share: bits, bytes in little-endian
 order, and division that rounds toward zero.
 */
module Numerics {
  import opened Bits
  import opened Wasm

  // ---------------------------------------------------------------- bits

  /** Binary digit `k` of a number. */
  function Bit(a: nat, k: nat): nat { a / Pow2(k) % 2 }

  lemma DivDiv(a: nat, b: nat, c: nat)
    requires b > 0 && c > 0
    ensures b * c > 0 && a / b / c == a / (b * c)
  {
    var q, r := a / b / c, a / b % c;
    assert a / b == c * q + r;
    assert a == b * (a / b) + a % b;
    assert b * (c * q + r) == (b * c) * q + b * r;
    BelowTimes(b, r, c, a % b);
    ModUnique(a, b * c, q, b * r + a % b);
  }

  lemma BelowTimes(b: nat, r: nat, c: nat, s: nat)
    requires r < c && s < b
    ensures b * r + s < b * c
  {
    assert b * (r + 1) <= b * c by { Monotone(b, r + 1, c); }
    assert b * (r + 1) == b * r + b;
  }

  lemma Monotone(b: nat, x: nat, y: nat)
    requires x <= y
    ensures b * x <= b * y
  {
  }

  lemma BitNext(a: nat, k: nat)
    ensures Bit(a, k + 1) == Bit(a / 2, k) && Bit(a, 0) == a % 2
  {
    assert Pow2(k + 1) == 2 * Pow2(k);
    hide Pow2;
    DivDiv(a, 2, Pow2(k));
    assert Pow2(0) == 1 by { PowZero(); }
  }

  lemma PowZero()
    ensures Pow2(0) == 1
  {
  }

  /** Conjunction digit by digit. */
  lemma {:induction false} AndBits(a: nat, b: nat, k: nat)
    ensures Bit(BAnd(a, b), k) == if Bit(a, k) == 1 && Bit(b, k) == 1 then 1 else 0
    decreases k
  {
    AndHalves(a, b);
    if k == 0 {
      BitNext(a, 0);
      BitNext(b, 0);
      BitNext(BAnd(a, b), 0);
    } else {
      hide Bit, BAnd;
      BitNext(a, k - 1);
      BitNext(b, k - 1);
      BitNext(BAnd(a, b), k - 1);
      AndBits(a / 2, b / 2, k - 1);
    }
  }

  lemma AndHalves(a: nat, b: nat)
    ensures BAnd(a, b) / 2 == BAnd(a / 2, b / 2)
    ensures BAnd(a, b) % 2 == if a % 2 == 1 && b % 2 == 1 then 1 else 0
  {
    if a > 0 {
      Joined(if a % 2 == 1 && b % 2 == 1 then 1 else 0, BAnd(a / 2, b / 2));
    }
  }

  /** Disjunction digit by digit. */
  lemma {:induction false} OrBits(a: nat, b: nat, k: nat)
    ensures Bit(BOr(a, b), k) == if Bit(a, k) == 1 || Bit(b, k) == 1 then 1 else 0
    decreases k
  {
    OrHalves(a, b);
    if k == 0 {
      BitNext(a, 0);
      BitNext(b, 0);
      BitNext(BOr(a, b), 0);
    } else {
      hide Bit, BOr;
      BitNext(a, k - 1);
      BitNext(b, k - 1);
      BitNext(BOr(a, b), k - 1);
      OrBits(a / 2, b / 2, k - 1);
    }
  }

  lemma OrHalves(a: nat, b: nat)
    ensures BOr(a, b) / 2 == BOr(a / 2, b / 2)
    ensures BOr(a, b) % 2 == if a % 2 == 1 || b % 2 == 1 then 1 else 0
  {
    if a > 0 && b > 0 {
      Joined(if a % 2 + b % 2 == 0 then 0 else 1, BOr(a / 2, b / 2));
    }
  }

  /** Exclusive disjunction digit by digit. */
  lemma {:induction false} XorBits(a: nat, b: nat, k: nat)
    ensures Bit(BXor(a, b), k) == if Bit(a, k) != Bit(b, k) then 1 else 0
    decreases k
  {
    XorHalves(a, b);
    if k == 0 {
      BitNext(a, 0);
      BitNext(b, 0);
      BitNext(BXor(a, b), 0);
    } else {
      hide Bit, BXor;
      BitNext(a, k - 1);
      BitNext(b, k - 1);
      BitNext(BXor(a, b), k - 1);
      XorBits(a / 2, b / 2, k - 1);
    }
  }

  lemma XorHalves(a: nat, b: nat)
    ensures BXor(a, b) / 2 == BXor(a / 2, b / 2)
    ensures BXor(a, b) % 2 == if a % 2 != b % 2 then 1 else 0
  {
    if a > 0 && b > 0 {
      Joined((a + b) % 2, BXor(a / 2, b / 2));
      Parity(a, b);
    }
  }

  lemma Joined(r: nat, h: nat)
    requires r < 2
    ensures (r + 2 * h) / 2 == h && (r + 2 * h) % 2 == r
  {
  }

  lemma Parity(a: nat, b: nat)
    ensures (a + b) % 2 == if a % 2 != b % 2 then 1 else 0
  {
  }

  // ---------------------------------------------------------------- division

  /** The quotient times the divisor, plus a remainder that is smaller than the divisor and has the dividend's sign. */
  lemma TruncMeans(a: int, b: int)
    requires b != 0
    ensures a == TruncDiv(a, b) * b + TruncRem(a, b)
    ensures var r := TruncRem(a, b);
      if a >= 0 then 0 <= r && (r < b || r < 0 - b) else r <= 0 && (0 - r < b || 0 - r < 0 - b)
  {
    var x, y := Abs(a), Abs(b);
    var q, r := x / y, x % y;
    assert x == q * y + r;
    Signs(q, y);
  }

  lemma Signs(q: int, y: int)
    ensures (0 - q) * y == 0 - q * y && q * (0 - y) == 0 - q * y && (0 - q) * (0 - y) == q * y
  {
  }

  /** Only one quotient and remainder are so. */
  lemma TruncOnly(a: int, b: int, q: int, r: int)
    requires b != 0 && a == q * b + r
    requires if a >= 0 then 0 <= r && (r < b || r < 0 - b) else r <= 0 && (0 - r < b || 0 - r < 0 - b)
    ensures q == TruncDiv(a, b) && r == TruncRem(a, b)
  {
    TruncMeans(a, b);
    var q', r' := TruncDiv(a, b), TruncRem(a, b);
    hide TruncDiv, TruncRem;
    OneQuotient(b, q, r, q', r');
  }

  /** Two remainders on the same side of 0 that differ by a multiple of the divisor are equal. */
  lemma OneQuotient(b: int, q: int, r: int, q': int, r': int)
    requires b != 0 && q * b + r == q' * b + r' && Abs(r - r') < Abs(b)
    ensures q == q' && r == r'
  {
    hide Abs;
    var d := q - q';
    assert d * b == q * b - q' * b;
    assert Abs(d * b) == Abs(r - r') by {
      AbsMinus(r - r');
      assert d * b == 0 - (r - r');
    }
    Nearer(d, b);
    assert d == 0;
  }

  lemma AbsMinus(x: int)
    ensures Abs(0 - x) == Abs(x)
  {
  }

  /** A multiple of `b` that is nearer to 0 than `b` is 0. */
  lemma Nearer(d: int, b: int)
    ensures d != 0 ==> Abs(d * b) >= Abs(b)
  {
    if d >= 1 {
      AtLeastOnce(d, b);
    } else if d <= -1 {
      AtLeastOnce(0 - d, b);
      Signs(d, b);
    }
  }

  lemma AtLeastOnce(d: int, b: int)
    requires d >= 1
    ensures if b >= 0 then d * b >= b else d * b <= b
  {
  }

  // ---------------------------------------------------------------- bytes

  lemma ModByte(x: nat)
    ensures x == 256 * (x / 256) + x % 256
  {
  }

  lemma Digit256(b: nat, h: nat)
    requires b < 256
    ensures (b + 256 * h) / 256 == h && (b + 256 * h) % 256 == b
  {
  }

  lemma PowByte(k: nat)
    ensures Pow2(8 * (k + 1)) == 256 * Pow2(8 * k)
  {
    Pow2Sum(8, 8 * k);
    Pow2Values();
  }

  /** Byte `k` of a number. */
  function ByteOf(x: nat, k: nat): nat { x / Pow2(8 * k) % 256 }

  lemma ByteNext(x: nat, k: nat)
    ensures ByteOf(x, k + 1) == ByteOf(x / 256, k) && ByteOf(x, 0) == x % 256
  {
    PowByte(k);
    PowZero();
    hide Pow2;
    DivDiv(x, 256, Pow2(8 * k));
  }

  /** A number read from memory has the byte at the lowest address as its lowest byte, and so on; nothing above. */
  lemma {:induction false} LittleBytes(mem: seq<byte>, at: nat, n: nat, k: nat)
    requires at + n <= |mem|
    ensures ByteOf(Little(mem, at, n), k) == if k < n then mem[at + k] else 0
    decreases n
  {
    hide ByteOf;
    if n == 0 {
      NoBytes(k);
    } else {
      var rest := Little(mem, at + 1, n - 1);
      Digit256(mem[at], rest);
      if k == 0 {
        ByteNext(Little(mem, at, n), 0);
      } else {
        ByteNext(Little(mem, at, n), k - 1);
        LittleBytes(mem, at + 1, n - 1, k - 1);
      }
    }
  }

  lemma NoBytes(k: nat)
    ensures ByteOf(0, k) == 0
  {
  }

  /** A number is written with its lowest byte first. */
  lemma {:induction false} BytesAt(x: nat, n: nat, k: nat)
    requires k < n
    ensures Bytes(x, n)[k] == ByteOf(x, k)
    decreases n
  {
    hide ByteOf;
    if k == 0 {
      ByteNext(x, 0);
    } else {
      ByteNext(x, k - 1);
      BytesAt(x / 256, n - 1, k - 1);
    }
  }

  /** A write changes the bytes it writes and no others. */
  lemma WriteAt(mem: seq<byte>, at: nat, bs: seq<byte>, k: nat)
    requires at + |bs| <= |mem| && k < |mem|
    ensures Write(mem, at, bs)[k] == if at <= k < at + |bs| then bs[k - at] else mem[k]
  {
  }

  /** Reading where a number was written gives the number modulo the width of the access. */
  lemma {:induction false} StoredIsLoaded(mem: seq<byte>, at: nat, x: nat, n: nat)
    requires at + n <= |mem|
    ensures Little(Write(mem, at, Bytes(x, n)), at, n) == x % Pow2(8 * n)
    decreases n
  {
    if n == 0 {
      PowZero();
    } else {
      var m := Write(mem, at, Bytes(x, n));
      WriteFirst(mem, at, x, n);
      StoredIsLoaded(Write(mem, at, [x % 256]), at + 1, x / 256, n - 1);
      PowByte(n - 1);
      LowByte(x, Pow2(8 * (n - 1)));
    }
  }

  lemma WriteFirst(mem: seq<byte>, at: nat, x: nat, n: nat)
    requires n > 0 && at + n <= |mem|
    ensures var m := Write(mem, at, Bytes(x, n));
      m == Write(Write(mem, at, [x % 256]), at + 1, Bytes(x / 256, n - 1)) && m[at] == x % 256
  {
    var bs := Bytes(x / 256, n - 1);
    assert Bytes(x, n) == [x % 256] + bs;
  }

  lemma LowByte(x: nat, q: nat)
    requires q > 0
    ensures x % (256 * q) == x % 256 + 256 * (x / 256 % q)
  {
    var h, r := x / 256 / q, x / 256 % q;
    ModByte(x);
    assert x / 256 == q * h + r;
    assert 256 * (q * h + r) == (256 * q) * h + 256 * r;
    ModUnique(x, 256 * q, h, 256 * r + x % 256);
  }

  /** Reading elsewhere gives what was there before. */
  lemma {:induction false} OthersStay(mem: seq<byte>, at: nat, bs: seq<byte>, p: nat, n: nat)
    requires at + |bs| <= |mem| && p + n <= |mem| && (p + n <= at || at + |bs| <= p)
    ensures Little(Write(mem, at, bs), p, n) == Little(mem, p, n)
    decreases n
  {
    if n > 0 {
      WriteAt(mem, at, bs, p);
      OthersStay(mem, at, bs, p + 1, n - 1);
    }
  }

  // ---------------------------------------------------------------- zeroes and pages

  /** A declared local holds 0 until it is assigned: a function that returns it at once returns 0. */
  lemma LocalsStartZero(m: Module, f: nat, args: seq<Val>, store: Store, k: nat, t: ValType)
    requires f < |m.funcs| && m.funcs[f].ty < |m.types| && m.types[m.funcs[f].ty].results == [t]
    requires k < |m.funcs[f].locals| && m.funcs[f].locals[k] == t
    requires m.funcs[f].body == Cons(LocalGet(|args| + k), Nil)
    ensures ExecFunc(m, f, args, store, 1) == Returned([Val(t, 0)], store)
  {
    var fn := m.funcs[f];
    var st := State(args + seq(|fn.locals|, (i: nat) requires i < |fn.locals| => Zero(fn.locals[i])), store);
    var i := fn.body.head;
    assert Last([], 0) == [];
    assert Straight(i, [], st) == Effect([Val(t, 0)], st);
    assert ExecInstr(m, i, [], st, 0) == Normal([Val(t, 0)], st);
    assert Exec(m, fn.body, [], st, 0) == Normal([Val(t, 0)], st);
    assert Last([Val(t, 0)], 1) == [Val(t, 0)];
  }

  /** The memory's size in pages of 64 KiB. */
  lemma PagesCount(m: Module, st: State)
    requires ValidStore(m, st.store)
    ensures exists n: nat :: Straight(MemorySize, [], st) == Effect([Val(I32, n)], st) && n * 65536 == |st.store.mem|
  {
    var n := |st.store.mem| / 65536;
    assert Straight(MemorySize, [], st) == Effect([Val(I32, n)], st);
  }
}
