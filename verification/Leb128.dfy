/**
 LEB128 numbers (section 5.2.2 of the WebAssembly Core Specification 1.0): the two writers, the checked readers
 of the compiler's input stream, and the reader of the module parser.
 */
module Leb128 {
  type Byte = x: nat | x < 256

  function Pow2(n: nat): (p: nat)
    ensures p > 0
  {
    if n == 0 then 1 else 2 * Pow2(n - 1)
  }

  // ---------------------------------------------------------------- writers

  /** The unsigned writer's output. */
  function Unsigned(v: nat): (bs: seq<Byte>)
    ensures bs != []
  {
    if v < 128 then [v] else [v % 128 + 128] + Unsigned(v / 128)
  }

  function Magnitude(v: int): nat { if v < 0 then 0 - v else v }

  /** The signed writer's output: `v / 128` rounds down, as an arithmetic shift does. */
  function Signed(v: int): (bs: seq<Byte>)
    ensures bs != []
    decreases Magnitude(v)
  {
    if -64 <= v < 64 then [v % 128] else [v % 128 + 128] + Signed(v / 128)
  }

  // ---------------------------------------------------------------- the format

  /** All bytes but the last continue. */
  predicate WellFormed(bs: seq<Byte>) {
    bs != [] && bs[|bs| - 1] < 128 && forall i | 0 <= i < |bs| - 1 :: bs[i] >= 128
  }

  /** The number that a well-formed byte string stands for. */
  function UnsignedValue(bs: seq<Byte>): nat
    requires WellFormed(bs)
  {
    if |bs| == 1 then bs[0] else bs[0] % 128 + 128 * UnsignedValue(bs[1..])
  }

  function SignedValue(bs: seq<Byte>): int
    requires WellFormed(bs)
  {
    if |bs| == 1 then (if bs[0] < 64 then bs[0] else bs[0] - 128) else bs[0] % 128 + 128 * SignedValue(bs[1..])
  }

  // ---------------------------------------------------------------- readers

  /** A number and what follows it; the end of the input or too many bytes; a shift the language leaves undefined. */
  datatype Read = Read(value: nat, rest: seq<Byte>, shift: nat, last: Byte) | Stopped | Undefined

  /**
   The accumulating loop of a reader of `width` bits: it stops at a shift of `limit`, and a shift of the width or
   more is undefined. Bits that do not fit are lost.
   */
  function Accumulate(bs: seq<Byte>, width: nat, limit: nat, shift: nat, value: nat): (r: Read)
    ensures r.Read? ==> |r.rest| < |bs| && bs[|bs| - |r.rest|..] == r.rest
    decreases |bs|
  {
    if bs == [] || shift >= limit then Stopped
    else if shift >= width then Undefined
    else
      var now := (value + bs[0] % 128 * Pow2(shift)) % Pow2(width);
      if bs[0] < 128 then Read(now, bs[1..], shift + 7, bs[0])
      else
        var r := Accumulate(bs[1..], width, limit, shift + 7, now);
        assert r.Read? ==> bs[|bs| - |r.rest|..] == bs[1..][|bs| - 1 - |r.rest|..];
        r
  }

  const SHIFT_LIMIT := 64

  /** The stream's unsigned reader of 32 or 64 bits. */
  function StreamUnsigned(bs: seq<Byte>, width: nat): Read {
    Accumulate(bs, width, SHIFT_LIMIT, 0, 0)
  }

  /** Sets or clears the bits from the last shift up, when there are any. */
  function Extend(r: Read, width: nat): Read
  {
    if !r.Read? || r.shift >= width then r
    else if r.last % 128 >= 64 then
      assert Pow2(width) >= Pow2(r.shift) by { PowMono(r.shift, width); }
      r.(value := r.value % Pow2(r.shift) + (Pow2(width) - Pow2(r.shift)))
    else r.(value := r.value % Pow2(r.shift))
  }

  /** The stream's signed reader of 32 or 64 bits; the value is the two's complement pattern. */
  function StreamSigned(bs: seq<Byte>, width: nat): Read {
    Extend(Accumulate(bs, width, SHIFT_LIMIT, 0, 0), width)
  }

  /** The parser's reader: no limit but the width of 64 bits, and an undefined sign extension from bit 64 up. */
  function FileRead(bs: seq<Byte>, signed: bool): Read {
    var r := Accumulate(bs, 64, |bs| * 7 + 1, 0, 0);
    if r.Read? && signed && r.last % 128 >= 64 then
      if r.shift >= 64 then Undefined else Extend(r, 64)
    else r
  }

  /** The `width`-bit pattern of a number in two's complement. */
  function Pattern(v: int, width: nat): nat {
    v % Pow2(width)
  }

  // ---------------------------------------------------------------- powers

  lemma {:induction false} PowAdd(a: nat, b: nat)
    ensures Pow2(a + b) == Pow2(a) * Pow2(b) && Pow2(a) > 0
    decreases b
  {
    if b > 0 {
      PowAdd(a, b - 1);
    }
  }

  lemma Pow7(s: nat)
    ensures Pow2(s + 7) == 128 * Pow2(s) && Pow2(s) > 0
  {
    PowAdd(s, 7);
    assert Pow2(7) == 128;
  }

  lemma PowMono(a: nat, b: nat)
    requires a <= b
    ensures Pow2(a) <= Pow2(b)
  {
    PowAdd(a, b - a);
    Times(Pow2(a), Pow2(b - a));
  }

  lemma Times(x: nat, y: nat)
    requires y > 0
    ensures x <= x * y
  {
  }

  lemma AtLeast(d: int, m: int)
    requires d >= 1 && m >= 0
    ensures d * m >= m
  {
  }

  lemma Remainder(x: int, m: int, q: int, r: int)
    requires 0 <= r < m && x == q * m + r
    ensures x % m == r
  {
    var d := q - x / m;
    assert x == x / m * m + x % m;
    Factor(q, x / m, m);
    if d >= 1 {
      AtLeast(d, m);
    } else if d <= -1 {
      AtLeast(0 - d, m);
      Minus(d, m);
    }
  }

  lemma Factor(a: int, b: int, m: int)
    ensures (a - b) * m == a * m - b * m
  {
  }

  lemma Minus(d: int, m: int)
    ensures (0 - d) * m == 0 - d * m
  {
  }

  lemma Wraps(x: int, m: int)
    requires m > 0
    ensures (x + m) % m == x % m
  {
    var q := x / m;
    assert x == q * m + x % m;
    Factor(q + 1, q, m);
    Remainder(x + m, m, q + 1, x % m);
  }

  // ---------------------------------------------------------------- reading every encoding

  lemma AccumulateLast(b: Byte, rest: seq<Byte>, width: nat, limit: nat, shift: nat, value: nat)
    requires b < 128 && shift < width <= limit
    ensures Accumulate([b] + rest, width, limit, shift, value)
      == Read((value + b * Pow2(shift)) % Pow2(width), rest, shift + 7, b)
  {
    hide Pow2;
    assert ([b] + rest)[1..] == rest;
  }

  lemma AccumulateMore(b: nat, rest: seq<Byte>, width: nat, limit: nat, shift: nat, value: nat)
    requires b < 128 && shift < width <= limit
    ensures Accumulate([b + 128] + rest, width, limit, shift, value)
      == Accumulate(rest, width, limit, shift + 7, (value + b * Pow2(shift)) % Pow2(width))
  {
    hide Pow2;
    var bs: seq<Byte> := [b + 128] + rest;
    assert bs[1..] == rest && bs[0] % 128 == b;
  }

  lemma Low(value: nat, r: nat, p: nat)
    requires value < p && r < 128
    ensures value + r * p < 128 * p && 0 <= r * p
  {
  }

  lemma Small(x: nat, m: nat)
    requires x < m
    ensures x % m == x
  {
  }

  /** A reader that finishes under a limit finishes alike under any limit it does not reach. */
  lemma {:induction false} LimitFree(bs: seq<Byte>, width: nat, limit: nat, other: nat, shift: nat, value: nat)
    requires Accumulate(bs, width, limit, shift, value).Read? && other > shift + 7 * |bs| - 7
    ensures Accumulate(bs, width, other, shift, value) == Accumulate(bs, width, limit, shift, value)
    decreases |bs|
  {
    hide Pow2;
    if bs != [] && bs[0] >= 128 {
      LimitFree(bs[1..], width, limit, other, shift + 7, (value + bs[0] % 128 * Pow2(shift)) % Pow2(width));
    }
  }

  /** Filling the bits above the last seven restores the sign. */
  lemma Restores(value: nat, v: int, p: nat, q: nat, m: nat)
    requires -64 <= v < 64 && value < p && 0 < q == 128 * p <= m
    ensures (value + v % 128 * p) % m % q + (if v % 128 >= 64 then m - q else 0) == (value + v * p) % m
  {
    RawIs(value, v, p, q);
    Core(value + v % 128 * p, value + v * p, q, m, v < 0);
  }

  lemma RawIs(value: nat, v: int, p: nat, q: nat)
    requires -64 <= v < 64 && value < p && q == 128 * p
    ensures 0 <= value + v % 128 * p < q && (v % 128 >= 64 <==> v < 0)
    ensures value + v * p == value + v % 128 * p - if v < 0 then q else 0
  {
    Low(value, v % 128, p);
    if v < 0 {
      Negative(v, p);
    }
  }

  lemma Core(raw: int, x: int, q: nat, m: nat, negative: bool)
    requires 0 <= raw < q <= m && x == raw - if negative then q else 0
    ensures raw % m % q + (if negative then m - q else 0) == x % m
  {
    Remainder(raw, m, 0, raw);
    Remainder(raw, q, 0, raw);
    if negative {
      Remainder(x, m, -1, x + m);
    }
  }

  /** Bits that fall off the top do not matter. */
  lemma Drops(value: nat, v: int, p: nat, m: nat, k: nat)
    requires -64 <= v < 64 && m > 0 && m * k == 128 * p
    ensures (value + v % 128 * p) % m == (value + v * p) % m
  {
    if v < 0 {
      Negative(v, p);
      Multiple(value + v * p, k, m);
    }
  }

  /** The last byte of a signed encoding. */
  lemma LastSigned(v: int, width: nat, shift: nat, value: nat, rest: seq<Byte>)
    requires -64 <= v < 64 && shift < width && value < Pow2(shift)
    ensures Extend(Read((value + v % 128 * Pow2(shift)) % Pow2(width), rest, shift + 7, v % 128), width).value
      == (value + v * Pow2(shift)) % Pow2(width)
  {
    hide Pow2, Extend;
    var p, m := Pow2(shift), Pow2(width);
    Pow7(shift);
    ExtendForm((value + v % 128 * p) % m, rest, shift + 7, v % 128, width);
    if shift + 7 < width {
      PowMono(shift + 7, width);
      Restores(value, v, p, Pow2(shift + 7), m);
    } else {
      PowAdd(width, shift + 7 - width);
      Drops(value, v, p, m, Pow2(shift + 7 - width));
    }
  }

  lemma ExtendForm(now: nat, rest: seq<Byte>, shift: nat, last: Byte, width: nat)
    requires last < 128
    ensures var v := Extend(Read(now, rest, shift, last), width).value;
      v == if shift >= width then now else now % Pow2(shift) + if last >= 64 then Pow2(width) - Pow2(shift) else 0
  {
  }

  lemma Negative(v: int, p: nat)
    requires -64 <= v < 0
    ensures v % 128 * p == v * p + 128 * p && v % 128 >= 64
  {
    assert v % 128 == v + 128;
  }

  lemma {:induction false} Multiple(x: int, k: nat, m: nat)
    requires m > 0
    ensures (x + m * k) % m == x % m
    decreases k
  {
    if k > 0 {
      Multiple(x, k - 1, m);
      assert m * k == m * (k - 1) + m;
      Wraps(x + m * (k - 1), m);
    }
  }

  /** A continued encoding, split at its first byte. */
  lemma Continued(bs: seq<Byte>)
    requires WellFormed(bs) && |bs| > 1
    ensures bs[0] >= 128 && WellFormed(bs[1..])
    ensures UnsignedValue(bs) == bs[0] - 128 + 128 * UnsignedValue(bs[1..])
    ensures SignedValue(bs) == bs[0] - 128 + 128 * SignedValue(bs[1..])
  {
    assert forall i | 0 <= i < |bs| - 2 :: bs[1..][i] == bs[i + 1];
    assert bs[0] % 128 == bs[0] - 128;
  }

  lemma Apart(bs: seq<Byte>, rest: seq<Byte>)
    requires |bs| > 0
    ensures bs + rest == [bs[0]] + (bs[1..] + rest) && (bs + rest)[0] == bs[0] && (bs + rest)[1..] == bs[1..] + rest
  {
  }

  /** A reader goes on behind the first byte. */
  lemma ReadsOn(bs: seq<Byte>, rest: seq<Byte>, width: nat, limit: nat, shift: nat, value: nat)
    requires |bs| > 1 && bs[0] >= 128 && shift + 7 < width <= limit && value < Pow2(shift)
    ensures var now := value + (bs[0] - 128) * Pow2(shift);
      && now < Pow2(shift + 7)
      && Accumulate(bs + rest, width, limit, shift, value) == Accumulate(bs[1..] + rest, width, limit, shift + 7, now)
  {
    hide *;
    Apart(bs, rest);
    Pow7(shift);
    Low(value, bs[0] - 128, Pow2(shift));
    PowMono(shift + 7, width);
    Small(value + (bs[0] - 128) * Pow2(shift), Pow2(width));
    AccumulateMore(bs[0] - 128, bs[1..] + rest, width, limit, shift, value);
  }

  lemma Single(bs: seq<Byte>)
    requires WellFormed(bs) && |bs| == 1
    ensures bs == [bs[0]] && bs[0] < 128 && UnsignedValue(bs) == bs[0]
    ensures -64 <= SignedValue(bs) < 64 && SignedValue(bs) % 128 == bs[0]
  {
  }

  lemma Regroup(value: int, b: int, u: int, p: int)
    ensures value + b * p + u * (128 * p) == value + (b + 128 * u) * p
  {
    assert (128 * u) * p == u * (128 * p);
  }

  /** An encoding of any length, read from a shift at which all of its bytes fall within the width. */
  lemma {:induction false} Reads(bs: seq<Byte>, rest: seq<Byte>, width: nat, limit: nat, shift: nat, value: nat)
    requires WellFormed(bs) && shift + 7 * |bs| - 7 < width <= limit && value < Pow2(shift)
    ensures var r := Accumulate(bs + rest, width, limit, shift, value);
      && r.Read? && r.rest == rest && r.shift == shift + 7 * |bs| && r.last == bs[|bs| - 1]
      && r.value == (value + UnsignedValue(bs) * Pow2(shift)) % Pow2(width)
      && Extend(r, width).value == (value + SignedValue(bs) * Pow2(shift)) % Pow2(width)
    decreases |bs|
  {
    hide Pow2, Accumulate, Extend, UnsignedValue, SignedValue;
    if |bs| == 1 {
      Single(bs);
      AccumulateLast(bs[0], rest, width, limit, shift, value);
      LastSigned(SignedValue(bs), width, shift, value, rest);
    } else {
      var b, p := bs[0] - 128, Pow2(shift);
      Continued(bs);
      ReadsOn(bs, rest, width, limit, shift, value);
      Pow7(shift);
      Reads(bs[1..], rest, width, limit, shift + 7, value + b * p);
      Regroup(value, b, UnsignedValue(bs[1..]), p);
      Regroup(value, b, SignedValue(bs[1..]), p);
    }
  }

  /** A longer one is not read. */
  lemma {:induction false} TooLong(bs: seq<Byte>, rest: seq<Byte>, width: nat, limit: nat, shift: nat, value: nat)
    requires WellFormed(bs) && shift + 7 * |bs| - 7 >= width
    ensures !Accumulate(bs + rest, width, limit, shift, value).Read?
    decreases |bs|
  {
    hide Pow2;
    if |bs| > 1 && shift < limit && shift < width {
      Continued(bs);
      Apart(bs, rest);
      TooLong(bs[1..], rest, width, limit, shift + 7, (value + bs[0] % 128 * Pow2(shift)) % Pow2(width));
    }
  }

  lemma {:induction false} SignOf(bs: seq<Byte>)
    requires WellFormed(bs)
    ensures SignedValue(bs) < 0 <==> bs[|bs| - 1] >= 64
    decreases |bs|
  {
    if |bs| > 1 {
      assert WellFormed(bs[1..]);
      SignOf(bs[1..]);
    }
  }

  /** How the stream's loop ends, on any encoding. */
  lemma StreamReads(bs: seq<Byte>, rest: seq<Byte>, width: nat)
    requires WellFormed(bs) && 0 < width <= SHIFT_LIMIT
    ensures var r := Accumulate(bs + rest, width, SHIFT_LIMIT, 0, 0);
      && (r.Read? <==> 7 * |bs| - 7 < width)
      && (r.Read? ==>
            && r.rest == rest && r.shift == 7 * |bs| && r.last == bs[|bs| - 1]
               && r.value == UnsignedValue(bs) % Pow2(width)
            && Extend(r, width).value == Pattern(SignedValue(bs), width))
  {
    assert Pow2(0) == 1;
    hide Pow2, Accumulate, Extend, WellFormed, UnsignedValue, SignedValue;
    if 7 * |bs| - 7 < width {
      Reads(bs, rest, width, SHIFT_LIMIT, 0, 0);
    } else {
      TooLong(bs, rest, width, SHIFT_LIMIT, 0, 0);
    }
  }

  lemma RemainderIs(x: nat, m: nat)
    requires m > 0
    ensures x % m == x <==> x < m
  {
  }

  /**
   The stream's unsigned reader returns the number of any encoding, padded or not, exactly when the encoding has no
   more bytes than a number of the width may have and the number fits the width.
   */
  lemma StreamUnsignedReads(bs: seq<Byte>, rest: seq<Byte>, width: nat)
    requires WellFormed(bs) && 0 < width <= SHIFT_LIMIT
    ensures var r := StreamUnsigned(bs + rest, width);
      && (r.Read? <==> 7 * |bs| - 7 < width)
      && (r.Read? ==> r.rest == rest && (r.value == UnsignedValue(bs) <==> UnsignedValue(bs) < Pow2(width)))
  {
    hide Pow2, Accumulate, WellFormed, UnsignedValue, SignedValue;
    StreamReads(bs, rest, width);
    RemainderIs(UnsignedValue(bs), Pow2(width));
  }

  /** Its signed reader returns the pattern of any encoding with no more bytes than that. */
  lemma StreamSignedReads(bs: seq<Byte>, rest: seq<Byte>, width: nat)
    requires WellFormed(bs) && 0 < width <= SHIFT_LIMIT
    ensures var r := StreamSigned(bs + rest, width);
      && (r.Read? <==> 7 * |bs| - 7 < width)
      && (r.Read? ==> r.rest == rest && r.value == Pattern(SignedValue(bs), width))
  {
    hide Pow2, Accumulate, WellFormed, UnsignedValue, SignedValue;
    StreamReads(bs, rest, width);
  }

  /** The parser's reader returns the number of any encoding of at most ten bytes below 2^64. */
  lemma FileUnsignedReads(bs: seq<Byte>, rest: seq<Byte>)
    requires WellFormed(bs)
    ensures var r := FileRead(bs + rest, false);
      && (r.Read? <==> |bs| <= 10)
      && (r.Read? ==> r.rest == rest && (r.value == UnsignedValue(bs) <==> UnsignedValue(bs) < Pow2(64)))
  {
    hide Pow2, Accumulate, WellFormed, UnsignedValue, SignedValue;
    FileLoop(bs, rest);
    RemainderIs(UnsignedValue(bs), Pow2(64));
  }

  /** The parser's loop ends as the stream's 64-bit one does. */
  lemma FileLoop(bs: seq<Byte>, rest: seq<Byte>)
    requires WellFormed(bs)
    ensures var t := bs + rest;
      var r := Accumulate(t, 64, |t| * 7 + 1, 0, 0);
      && (r.Read? <==> |bs| <= 10) && (r.Read? ==> r == Accumulate(t, 64, SHIFT_LIMIT, 0, 0))
      && (r.Read? ==>
            && r.rest == rest && r.shift == 7 * |bs| && r.last == bs[|bs| - 1]
               && r.value == UnsignedValue(bs) % Pow2(64)
            && Extend(r, 64).value == Pattern(SignedValue(bs), 64))
  {
    hide Pow2, Accumulate, WellFormed, UnsignedValue, SignedValue, Extend, Pattern;
    var t := bs + rest;
    StreamReads(bs, rest, 64);
    if |bs| <= 10 {
      LimitFree(t, 64, SHIFT_LIMIT, |t| * 7 + 1, 0, 0);
    } else {
      TooLong(bs, rest, 64, |t| * 7 + 1, 0, 0);
    }
  }

  /** Its signed mode does so unless a negative number takes all ten bytes, when its shift is undefined. */
  lemma FileSignedReads(bs: seq<Byte>, rest: seq<Byte>)
    requires WellFormed(bs)
    ensures var r := FileRead(bs + rest, true);
      && (r.Read? <==> |bs| <= if SignedValue(bs) < 0 then 9 else 10)
      && (r.Read? ==> r.rest == rest && r.value == Pattern(SignedValue(bs), 64))
  {
    hide *;
    FileLoop(bs, rest);
    var t := bs + rest;
    var r := Accumulate(t, 64, |t| * 7 + 1, 0, 0);
    FileForm(t);
    LastByte(bs);
    SignOf(bs);
    if r.Read? {
      ExtendKeeps(r);
      if r.last < 64 {
        NoSign(bs);
        PatternOf(UnsignedValue(bs));
      }
    }
  }

  lemma FileForm(t: seq<Byte>)
    ensures var r := Accumulate(t, 64, |t| * 7 + 1, 0, 0);
      FileRead(t, true) == if r.Read? && r.last % 128 >= 64 then (if r.shift >= 64 then Undefined else Extend(r, 64))
        else r
  {
    hide Accumulate, Extend;
  }

  lemma LastByte(bs: seq<Byte>)
    requires WellFormed(bs)
    ensures |bs| > 0 && bs[|bs| - 1] < 128
  {
  }

  lemma PatternOf(v: nat)
    ensures Pattern(v, 64) == v % Pow2(64)
  {
    hide Pow2;
  }

  lemma ExtendKeeps(r: Read)
    ensures r.Read? ==> Extend(r, 64).Read? && Extend(r, 64).rest == r.rest
  {
    hide Pow2;
  }

  /** An encoding whose last byte has no sign bit means the same either way. */
  lemma {:induction false} NoSign(bs: seq<Byte>)
    requires WellFormed(bs) && bs[|bs| - 1] < 64
    ensures SignedValue(bs) == UnsignedValue(bs)
    decreases |bs|
  {
    if |bs| > 1 {
      assert WellFormed(bs[1..]);
      NoSign(bs[1..]);
    }
  }

  // ---------------------------------------------------------------- shortest encodings

  lemma More(b: nat, bs: seq<Byte>)
    requires b < 128 && WellFormed(bs)
    ensures var c: seq<Byte> := [b + 128] + bs;
      WellFormed(c) && UnsignedValue(c) == b + 128 * UnsignedValue(bs) && SignedValue(c) == b + 128 * SignedValue(bs)
  {
    var c: seq<Byte> := [b + 128] + bs;
    assert c[1..] == bs;
    assert forall i | 0 < i < |c| - 1 :: c[i] == bs[i - 1];
  }

  /** Both writers are inverted by the format's definition. */
  lemma {:induction false} UnsignedReadsBack(v: nat)
    ensures WellFormed(Unsigned(v)) && UnsignedValue(Unsigned(v)) == v
    decreases v
  {
    if v >= 128 {
      UnsignedReadsBack(v / 128);
      More(v % 128, Unsigned(v / 128));
    }
  }

  lemma {:induction false} SignedReadsBack(v: int)
    ensures WellFormed(Signed(v)) && SignedValue(Signed(v)) == v
    decreases Magnitude(v)
  {
    hide Signed, SignedValue, WellFormed;
    SignedForm(v, []);
    assert Signed(v) + [] == Signed(v);
    if -64 <= v < 64 {
      OneByte(v);
    } else {
      assert Signed(v / 128) + [] == Signed(v / 128);
      SignedReadsBack(v / 128);
      More(v % 128, Signed(v / 128));
      assert v == v % 128 + v / 128 * 128;
    }
  }

  lemma OneByte(v: int)
    requires -64 <= v < 64
    ensures WellFormed([v % 128]) && SignedValue([v % 128]) == v
  {
  }

  lemma SignedForm(v: int, rest: seq<Byte>)
    ensures -64 <= v < 64 ==>
      Signed(v) == [v % 128] && Signed(v) + rest == [v % 128] + rest && (v % 128 >= 64 <==> v < 0)
    ensures !(-64 <= v < 64) ==>
      && |Signed(v)| == |Signed(v / 128)| + 1 && Signed(v) + rest == [v % 128 + 128] + (Signed(v / 128) + rest)
      && (v / 128 < 0 <==> v < 0)
      && Magnitude(v / 128) < Magnitude(v)
  {
  }

  /** No encoding of an unsigned number is shorter than the written one. */
  lemma {:induction false} UnsignedShortest(bs: seq<Byte>)
    requires WellFormed(bs)
    ensures |Unsigned(UnsignedValue(bs))| <= |bs|
    decreases |bs|
  {
    if |bs| > 1 {
      assert WellFormed(bs[1..]);
      UnsignedShortest(bs[1..]);
      var v := UnsignedValue(bs);
      assert v / 128 == UnsignedValue(bs[1..]);
    }
  }

  /** No encoding of a signed number is shorter than the written one. */
  lemma {:induction false} SignedShortest(bs: seq<Byte>)
    requires WellFormed(bs)
    ensures |Signed(SignedValue(bs))| <= |bs|
    decreases |bs|
  {
    if |bs| > 1 {
      assert WellFormed(bs[1..]);
      SignedShortest(bs[1..]);
      var v := SignedValue(bs);
      assert v / 128 == SignedValue(bs[1..]);
    }
  }

  /** How long the written form is: k groups of seven bits hold the number and its sign. */
  lemma {:induction false} SignedLength(v: int, k: nat)
    requires k > 0
    ensures |Signed(v)| <= k <==> 0 - Pow2(7 * k - 1) <= v < Pow2(7 * k - 1)
    decreases k
  {
    if k == 1 {
      assert Pow2(6) == 64;
    } else {
      SignedLength(v / 128, k - 1);
      Pow7(7 * (k - 1) - 1);
      PowMono(6, 7 * (k - 1) - 1);
      assert Pow2(6) == 64;
    }
  }

  lemma {:induction false} AccumulateBelow(bs: seq<Byte>, width: nat, limit: nat, shift: nat, value: nat)
    requires value < Pow2(shift)
    ensures var r := Accumulate(bs, width, limit, shift, value); r.Read? ==> r.value < Pow2(r.shift)
    decreases |bs|
  {
    hide Pow2;
    if bs != [] && shift < limit && shift < width {
      var raw := value + bs[0] % 128 * Pow2(shift);
      Low(value, bs[0] % 128, Pow2(shift));
      Pow7(shift);
      ModBelow(raw, Pow2(width));
      if bs[0] >= 128 {
        AccumulateBelow(bs[1..], width, limit, shift + 7, raw % Pow2(width));
      }
    }
  }

  lemma ModBelow(x: nat, m: nat)
    requires m > 0
    ensures x % m <= x
  {
    assert x == x / m * m + x % m;
    assert x / m * m >= 0;
  }

  /** On any input that the stream's reader accepts, the parser's signed reader agrees or shifts by 64 or more. */
  lemma FileAgrees(bs: seq<Byte>)
    requires StreamSigned(bs, 64).Read?
    ensures var r := Accumulate(bs, 64, SHIFT_LIMIT, 0, 0);
      r.Read? && FileRead(bs, true) == if r.last % 128 >= 64 && r.shift >= 64 then Undefined else StreamSigned(bs, 64)
  {
    assert Pow2(0) == 1;
    hide Accumulate, Pow2;
    var r := Accumulate(bs, 64, SHIFT_LIMIT, 0, 0);
    AccumulateBelow(bs, 64, SHIFT_LIMIT, 0, 0);
    LimitFree(bs, 64, SHIFT_LIMIT, |bs| * 7 + 1, 0, 0);
    Small(r.value, Pow2(r.shift));
  }

  // ---------------------------------------------------------------- round trips

  lemma {:induction false} UnsignedLength(v: nat, k: nat)
    requires k > 0
    ensures |Unsigned(v)| <= k <==> v < Pow2(7 * k)
    decreases k
  {
    assert Pow2(7) == 128;
    if k > 1 {
      Pow7(7 * (k - 1));
      PowMono(7, 7 * k);
      if v >= 128 {
        UnsignedLength(v / 128, k - 1);
      }
    }
  }

  /** A number of the width is written in no more bytes than the readers of the width take. */
  lemma UnsignedFits(v: nat, width: nat)
    requires width > 0 && v < Pow2(width)
    ensures 7 * |Unsigned(v)| - 7 < width
  {
    hide Unsigned, Pow2;
    var k := (width + 6) / 7;
    PowMono(width, 7 * k);
    UnsignedLength(v, k);
  }

  lemma SignedFits(v: int, width: nat)
    requires width > 0 && 0 - Pow2(width - 1) <= v < Pow2(width - 1)
    ensures 7 * |Signed(v)| - 7 < width
  {
    hide Signed, Pow2;
    var k := (width + 6) / 7;
    PowMono(width - 1, 7 * k - 1);
    SignedLength(v, k);
  }

  /** The stream's reader of 32 or 64 bits returns every number of that width that was written, and stops behind it. */
  lemma StreamUnsignedRoundTrip(v: nat, rest: seq<Byte>, width: nat)
    requires 0 < width <= SHIFT_LIMIT && v < Pow2(width)
    ensures var r := StreamUnsigned(Unsigned(v) + rest, width); r.Read? && r.value == v && r.rest == rest
  {
    hide Unsigned, Pow2, StreamUnsigned, UnsignedValue;
    UnsignedReadsBack(v);
    UnsignedFits(v, width);
    StreamUnsignedReads(Unsigned(v), rest, width);
  }

  /** The parser's reader does so for 64 bits. */
  lemma FileUnsignedRoundTrip(v: nat, rest: seq<Byte>)
    requires v < Pow2(64)
    ensures var r := FileRead(Unsigned(v) + rest, false); r.Read? && r.value == v && r.rest == rest
  {
    hide Unsigned, Pow2, FileRead, UnsignedValue;
    UnsignedReadsBack(v);
    UnsignedFits(v, 64);
    FileUnsignedReads(Unsigned(v), rest);
  }

  /** The stream's reader of 32 or 64 bits returns every signed number of that width, as its pattern. */
  lemma StreamSignedRoundTrip(v: int, rest: seq<Byte>, width: nat)
    requires 0 < width <= SHIFT_LIMIT && 0 - Pow2(width - 1) <= v < Pow2(width - 1)
    ensures var r := StreamSigned(Signed(v) + rest, width); r.Read? && r.value == Pattern(v, width) && r.rest == rest
  {
    hide Signed, Pow2, StreamSigned, SignedValue;
    SignedReadsBack(v);
    SignedFits(v, width);
    StreamSignedReads(Signed(v), rest, width);
  }

  /** For written numbers the parser's signed mode is right exactly from -2^62 up, and undefined below. */
  lemma FileSignedRoundTrip(v: int, rest: seq<Byte>)
    requires 0 - Pow2(63) <= v < Pow2(63)
    ensures var r := FileRead(Signed(v) + rest, true);
      && (r.Undefined? <==> v < 0 - Pow2(62))
      && (v >= 0 - Pow2(62) ==> r.Read? && r.value == Pattern(v, 64) && r.rest == rest)
  {
    hide Signed, Pow2, FileRead, StreamSigned, SignedValue, Pattern;
    SignedReadsBack(v);
    SignedFits(v, 64);
    FileSignedReads(Signed(v), rest);
    StreamSignedRoundTrip(v, rest, 64);
    FileAgrees(Signed(v) + rest);
    FileEnds(Signed(v) + rest);
    SignedLength(v, 9);
    PowMono(62, 63);
  }

  lemma FileEnds(bs: seq<Byte>)
    requires StreamSigned(bs, 64).Read?
    ensures var r := FileRead(bs, true); r.Read? || r.Undefined?
  {
    hide Pow2;
    FileAgrees(bs);
  }
}
