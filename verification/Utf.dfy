/**
 Conversion of zero-terminated text between UTF-8 (section 3 of RFC 3629) and UTF-16 (section 2 of RFC 2781).
 */
module Utf {
  type Byte = x: nat | x < 256
  type Unit = x: nat | x < 0x1_0000

  /** What a character of text can be. */
  predicate Scalar(c: nat) { 0 < c < 0x11_0000 && !(0xD800 <= c < 0xE000) }

  // ---------------------------------------------------------------- one character

  /** The bytes that are printed for a character, without the terminator. */
  function Print8(c: nat): (bs: seq<Byte>)
    requires c < 0x11_0000
    ensures 1 <= |bs| <= 4
  {
    if c < 0x80 then [c]
    else if c < 0x800 then [c / 64 + 0xC0, c % 64 + 0x80]
    else if c < 0x1_0000 then [c / 4096 + 0xE0, c / 64 % 64 + 0x80, c % 64 + 0x80]
    else [c / 262144 + 0xF0, c / 4096 % 64 + 0x80, c / 64 % 64 + 0x80, c % 64 + 0x80]
  }

  function Print16(c: nat): (us: seq<Unit>)
    requires c < 0x11_0000
    ensures 1 <= |us| <= 2
  {
    if c < 0x1_0000 then [c] else [(c - 0x1_0000) / 1024 + 0xD800, c % 1024 + 0xDC00]
  }

  predicate Continues(t: seq<Byte>, i: nat) { i < |t| && t[i] / 64 == 2 }

  /** The size of the character at the start: 0 for a continuation byte, -1 for a lead byte without its continuation. */
  function Size8(t: seq<Byte>): int
    requires t != []
  {
    if t[0] < 128 then 1
    else if t[0] / 32 == 6 && Continues(t, 1) then 2
    else if t[0] / 16 == 14 && Continues(t, 1) && Continues(t, 2) then 3
    else if t[0] / 8 == 30 && Continues(t, 1) && Continues(t, 2) && Continues(t, 3) then 4
    else if t[0] / 64 == 2 then 0
    else -1
  }

  const NO_CHARACTER: nat := 0xFFFF_FFFF

  /** The character at the start. */
  function Char8(t: seq<Byte>): nat
    requires t != []
  {
    var n := Size8(t);
    if n == 1 then t[0]
    else if n == 2 then t[0] % 32 * 64 + t[1] % 64
    else if n == 3 then (t[0] % 16 * 64 + t[1] % 64) * 64 + t[2] % 64
    else if n == 4 then ((t[0] % 8 * 64 + t[1] % 64) * 64 + t[2] % 64) * 64 + t[3] % 64
    else NO_CHARACTER
  }

  function Size16(u: seq<Unit>): nat
    requires u != []
  {
    if u[0] <= 0xD7FF || u[0] >= 0xE000 then 1 else if |u| < 2 || u[1] == 0 then 1 else 2
  }

  function Char16(u: seq<Unit>): nat
    requires u != []
  {
    if Size16(u) == 1 then u[0]
    else
      var high: nat, low: nat := u[0], u[1];
      high % 1024 * 1024 + low % 1024 + 0x1_0000
  }

  /** How many units or bytes a character takes; none outside Unicode. */
  function Units(c: nat): nat { if c < 0x1_0000 then 1 else if c < 0x11_0000 then 2 else 0 }

  function ByteCount(c: nat): nat
  {
    if c < 0x80 then 1 else if c < 0x800 then 2 else if c < 0x1_0000 then 3 else if c < 0x11_0000 then 4 else 0
  }

  lemma Print8Reads(c: nat, rest: seq<Byte>)
    requires c < 0x11_0000
    ensures Char8(Print8(c) + rest) == c && Size8(Print8(c) + rest) == |Print8(c)| == ByteCount(c)
  {
    if c < 0x80 {
    } else if c < 0x800 {
      Two(c, rest);
    } else if c < 0x1_0000 {
      Three(c, rest);
    } else {
      Four(c, rest);
    }
  }

  lemma Two(c: nat, rest: seq<Byte>)
    requires 0x80 <= c < 0x800
    ensures Char8(Print8(c) + rest) == c && Size8(Print8(c) + rest) == 2
  {
    var t := Print8(c) + rest;
    assert t[0] == c / 64 + 0xC0 && t[1] == c % 64 + 0x80;
  }

  lemma Three(c: nat, rest: seq<Byte>)
    requires 0x800 <= c < 0x1_0000
    ensures Char8(Print8(c) + rest) == c && Size8(Print8(c) + rest) == 3
  {
    var t := Print8(c) + rest;
    assert t[0] == c / 4096 + 0xE0 && t[1] == c / 64 % 64 + 0x80 && t[2] == c % 64 + 0x80;
    assert c / 4096 == c / 64 / 64;
  }

  lemma Four(c: nat, rest: seq<Byte>)
    requires 0x1_0000 <= c < 0x11_0000
    ensures Char8(Print8(c) + rest) == c && Size8(Print8(c) + rest) == 4
  {
    var t := Print8(c) + rest;
    assert t[0] == c / 262144 + 0xF0 && t[1] == c / 4096 % 64 + 0x80 && t[2] == c / 64 % 64 + 0x80
      && t[3] == c % 64 + 0x80;
    assert c / 4096 == c / 64 / 64 && c / 262144 == c / 64 / 64 / 64;
  }

  lemma Print16Reads(c: nat, rest: seq<Unit>)
    requires Scalar(c) || c == 0
    ensures Char16(Print16(c) + rest) == c && Size16(Print16(c) + rest) == |Print16(c)| == Units(c)
  {
    var u := Print16(c) + rest;
    if c >= 0x1_0000 {
      assert u[0] == (c - 0x1_0000) / 1024 + 0xD800 && u[1] == c % 1024 + 0xDC00;
    }
  }

  function Over(x: nat, base: nat): int { x - base }

  /**
   The payload bits of the bytes make up the character, the highest ones first, as table 3 of RFC 3629 lays them out.
   */
  lemma Form8(c: nat)
    requires c < 0x11_0000
    ensures var t := Print8(c);
      && (|t| == 1 <==> c < 0x80) && (|t| == 2 <==> 0x80 <= c < 0x800) && (|t| == 3 <==> 0x800 <= c < 0x1_0000)
      && (forall k | 0 < k < |t| :: 0x80 <= t[k] < 0xC0)
      && (|t| == 1 ==> c == t[0])
      && (|t| == 2 ==> 0xC0 <= t[0] < 0xE0 && c == Over(t[0], 0xC0) * 0x40 + Over(t[1], 0x80))
      && (|t| == 3 ==>
          && 0xE0 <= t[0] < 0xF0
          && c == Over(t[0], 0xE0) * 0x1000 + Over(t[1], 0x80) * 0x40 + Over(t[2], 0x80))
      && (|t| == 4 ==>
          && 0xF0 <= t[0] < 0xF8
          && c == Over(t[0], 0xF0) * 0x4_0000 + Over(t[1], 0x80) * 0x1000 + Over(t[2], 0x80) * 0x40 + Over(t[3], 0x80))
  {
    assert c == c / 64 * 64 + c % 64 && c / 64 == c / 64 / 64 * 64 + c / 64 % 64;
    assert c / 4096 == c / 64 / 64 && c / 4096 == c / 4096 / 64 * 64 + c / 4096 % 64 && c / 262144 == c / 4096 / 64;
  }

  /**
   A character beyond 16 bits, less 0x10000, has its high ten bits in a high surrogate and its low ten in a low one.
   */
  lemma Form16(c: nat)
    requires c < 0x11_0000
    ensures var u := Print16(c);
      if c < 0x1_0000 then u == [c]
      else
        && |u| == 2 && 0xD800 <= u[0] < 0xDC00 && 0xDC00 <= u[1] < 0xE000
        && c == 0x1_0000 + Over(u[0], 0xD800) * 0x400 + Over(u[1], 0xDC00)
  {
    if c >= 0x1_0000 {
      var d := c - 0x1_0000;
      assert d == d / 1024 * 1024 + d % 1024 && d % 1024 == c % 1024;
    }
  }

  /** The first bytes of characters of two, three and four bytes. */
  predicate Leads(b: Byte, n: nat) {
    (n == 2 && 0xC0 <= b < 0xE0) || (n == 3 && 0xE0 <= b < 0xF0) || (n == 4 && 0xF0 <= b < 0xF8)
  }

  /** A lead byte with as many continuation bytes as it announces. */
  predicate Whole(t: seq<Byte>, n: nat) {
    0 < n <= |t| && Leads(t[0], n) && forall k | 0 < k < n :: 0x80 <= t[k] < 0xC0
  }

  /** The size tells the five cases apart: a 7-bit byte, whole characters, a continuation byte, and anything else. */
  lemma Size8Means(t: seq<Byte>)
    requires t != []
    ensures Size8(t) == 1 <==> t[0] < 0x80
    ensures forall n: nat | 2 <= n <= 4 :: Size8(t) == n <==> Whole(t, n)
    ensures Size8(t) == 0 <==> 0x80 <= t[0] < 0xC0
    ensures Size8(t) == -1 <==> t[0] >= 0xC0 && forall n: nat | 2 <= n <= 4 :: !Whole(t, n)
  {
    assert Whole(t, 2) <==> Size8(t) == 2;
    assert Whole(t, 3) <==> Size8(t) == 3;
    assert Whole(t, 4) <==> Size8(t) == 4;
  }

  /** The measuring passes count what is printed, and nothing for a number that is no character. */
  lemma CountsMean(c: nat)
    ensures c < 0x11_0000 ==> Units(c) == |Print16(c)| && ByteCount(c) == |Print8(c)|
    ensures c >= 0x11_0000 ==> Units(c) == 0 && ByteCount(c) == 0
  {
  }

  // ---------------------------------------------------------------- valid text

  predicate Between(t: seq<Byte>, i: nat, lo: nat, hi: nat) { i < |t| && lo <= t[i] <= hi }

  /** The size of the character that the grammar of section 4 of RFC 3629 allows at the start; 0 for none. */
  function Syntax8(t: seq<Byte>): (n: nat)
    ensures n <= |t| && n <= 4
  {
    if Between(t, 0, 0x01, 0x7F) then 1
    else if Between(t, 0, 0xC2, 0xDF) && Between(t, 1, 0x80, 0xBF) then 2
    else if Between(t, 2, 0x80, 0xBF) &&
            (|| (t[0] == 0xE0 && Between(t, 1, 0xA0, 0xBF)) || (Between(t, 0, 0xE1, 0xEC) && Between(t, 1, 0x80, 0xBF))
             || (t[0] == 0xED && Between(t, 1, 0x80, 0x9F)) || (Between(t, 0, 0xEE, 0xEF) && Between(t, 1, 0x80, 0xBF)))
                then 3
    else if Between(t, 2, 0x80, 0xBF) && Between(t, 3, 0x80, 0xBF) &&
            (|| (t[0] == 0xF0 && Between(t, 1, 0x90, 0xBF)) || (Between(t, 0, 0xF1, 0xF3) && Between(t, 1, 0x80, 0xBF))
             || (t[0] == 0xF4 && Between(t, 1, 0x80, 0x8F))) then 4
    else 0
  }

  /** UTF-8 text without a zero character. */
  predicate Valid8(t: seq<Byte>)
    decreases |t|
  {
    t == [] || (Syntax8(t) > 0 && Valid8(t[Syntax8(t)..]))
  }

  /** UTF-16 text without a zero character: no surrogate outside a pair. */
  predicate Valid16(u: seq<Unit>)
    decreases |u|
  {
    u == [] ||
    if u[0] < 0xD800 || u[0] >= 0xE000 then u[0] != 0 && Valid16(u[1..])
    else u[0] < 0xDC00 && |u| > 1 && 0xDC00 <= u[1] < 0xE000 && Valid16(u[2..])
  }

  /** The text of a list of characters. */
  function Text8(s: seq<nat>): seq<Byte>
    requires forall i | 0 <= i < |s| :: Scalar(s[i])
  {
    if |s| == 0 then [] else assert Scalar(s[0]); Print8(s[0]) + Text8(s[1..])
  }

  function Text16(s: seq<nat>): seq<Unit>
    requires forall i | 0 <= i < |s| :: Scalar(s[i])
  {
    if |s| == 0 then [] else assert Scalar(s[0]); Print16(s[0]) + Text16(s[1..])
  }

  /** A valid character at the start is the one that would be printed. */
  lemma SyntaxPrints(t: seq<Byte>)
    requires Syntax8(t) > 0
    ensures var c := Char8(t); Scalar(c) && Print8(c) == t[..Syntax8(t)]
  {
    var n := Syntax8(t);
    if n == 1 {
      assert t[..1] == [t[0]];
    } else if n == 2 {
      assert t[..2] == [t[0], t[1]];
    } else if n == 3 {
      Syntax3(t);
    } else {
      Syntax4(t);
    }
  }

  lemma Syntax3(t: seq<Byte>)
    requires Syntax8(t) == 3
    ensures var c := Char8(t); Scalar(c) && Print8(c) == t[..3]
  {
    assert t[..3] == [t[0], t[1], t[2]];
    var c := Char8(t);
    assert Size8(t) == 3;
    var x: nat, y: nat, z: nat := t[0], t[1], t[2];
    assert c % 64 == z % 64 && c / 64 == x % 16 * 64 + y % 64;
    assert c / 4096 == c / 64 / 64 == x % 16;
  }

  lemma Syntax4(t: seq<Byte>)
    requires Syntax8(t) == 4
    ensures var c := Char8(t); Scalar(c) && Print8(c) == t[..4]
  {
    assert t[..4] == [t[0], t[1], t[2], t[3]] by { FourBytes(t); }
    FourBytes(t);
    hide Syntax8, Char8, Size8, Print8;
    var x: nat, y: nat, z: nat, w: nat := t[0], t[1], t[2], t[3];
    Remainders(x, y, z, w);
    FourPrinted(x - 0xF0, y - 0x80, z - 0x80, w - 0x80);
  }

  lemma FourBytes(t: seq<Byte>)
    requires Syntax8(t) == 4
    ensures |t| >= 4 && 0xF0 <= t[0] <= 0xF4 && (t[0] == 0xF0 ==> t[1] >= 0x90) && (t[0] == 0xF4 ==> t[1] <= 0x8F)
    ensures 0x80 <= t[1] <= 0xBF && 0x80 <= t[2] <= 0xBF && 0x80 <= t[3] <= 0xBF
    ensures var x: nat, y: nat, z: nat, w: nat := t[0], t[1], t[2], t[3];
      Char8(t) == ((x % 8 * 64 + y % 64) * 64 + z % 64) * 64 + w % 64
  {
    assert Size8(t) == 4;
  }

  lemma Remainders(x: nat, y: nat, z: nat, w: nat)
    requires 0xF0 <= x <= 0xF4 && 0x80 <= y <= 0xBF && 0x80 <= z <= 0xBF && 0x80 <= w <= 0xBF
    ensures x % 8 == x - 0xF0 && y % 64 == y - 0x80 && z % 64 == z - 0x80 && w % 64 == w - 0x80
  {
  }

  lemma Pieces(a: nat, b: nat, c: nat, d: nat)
    requires b < 64 && c < 64 && d < 64
    ensures var v := ((a * 64 + b) * 64 + c) * 64 + d;
      v % 64 == d && v / 64 % 64 == c && v / 4096 % 64 == b && v / 262144 == a
  {
    var v := ((a * 64 + b) * 64 + c) * 64 + d;
    assert v / 64 == (a * 64 + b) * 64 + c;
    assert v / 4096 == v / 64 / 64 == a * 64 + b;
    assert v / 262144 == v / 4096 / 64;
  }

  /** Four pieces of a character make these four bytes. */
  lemma FourPrinted(a: nat, b: nat, c: nat, d: nat)
    requires a <= 4 && b < 64 && c < 64 && d < 64 && (a == 0 ==> b >= 16) && (a == 4 ==> b < 16)
    ensures var v := ((a * 64 + b) * 64 + c) * 64 + d;
      0x1_0000 <= v < 0x11_0000 && Scalar(v) && Print8(v) == [a + 0xF0, b + 0x80, c + 0x80, d + 0x80]
  {
    Pieces(a, b, c, d);
  }

  /** The characters of valid text. */
  function Characters8(t: seq<Byte>): (s: seq<nat>)
    requires Valid8(t)
    ensures forall i | 0 <= i < |s| :: Scalar(s[i])
    decreases |t|
  {
    if t == [] then []
    else
      SyntaxPrints(t);
      [Char8(t)] + Characters8(t[Syntax8(t)..])
  }

  function Characters16(u: seq<Unit>): (s: seq<nat>)
    requires Valid16(u)
    ensures forall i | 0 <= i < |s| :: Scalar(s[i])
    decreases |u|
  {
    if u == [] then [] else [Char16(u)] + Characters16(u[Size16(u)..])
  }

  /** Valid text is exactly the text of its characters. */
  lemma {:induction false} Valid8Text(t: seq<Byte>)
    requires Valid8(t)
    ensures Text8(Characters8(t)) == t
    decreases |t|
  {
    hide Syntax8, Char8, Print8, Scalar;
    if t != [] {
      SyntaxPrints(t);
      var n := Syntax8(t);
      Valid8Text(t[n..]);
      var s := Characters8(t);
      assert s[1..] == Characters8(t[n..]) && s[0] == Char8(t);
      assert t == t[..n] + t[n..];
    }
  }

  lemma {:induction false} Valid16Text(u: seq<Unit>)
    requires Valid16(u)
    ensures Text16(Characters16(u)) == u
    decreases |u|
  {
    if u != [] {
      var n := Size16(u);
      Valid16Text(u[n..]);
      var s := Characters16(u);
      assert s[1..] == Characters16(u[n..]) && s[0] == Char16(u);
      assert u == u[..n] + u[n..];
      if n == 2 {
        var high: nat, low: nat := u[0], u[1];
        assert Char16(u) == (high - 0xD800) * 1024 + (low - 0xDC00) + 0x1_0000;
        assert u[..2] == [u[0], u[1]];
      }
    }
  }

  // ---------------------------------------------------------------- conversion

  /** The conversion loop: from the start of `t` to the terminator. Text that is not valid is not part of this model. */
  function To16(t: seq<Byte>): seq<Unit>
    decreases |t|
  {
    if t == [] then []
    else
      var c, n := Char8(t), Size8(t);
      if n < 1 || n > |t| || c >= 0x11_0000 then [] else Print16(c) + if c == 0 then [] else To16(t[n..])
  }

  function To8(u: seq<Unit>): seq<Byte>
    decreases |u|
  {
    if u == [] then []
    else
      var c, n := Char16(u), Size16(u);
      if n > |u| || c >= 0x11_0000 then [] else Print8(c) + if c == 0 then [] else To8(u[n..])
  }

  lemma {:induction false} To16Text(s: seq<nat>, rest: seq<Byte>)
    requires forall i | 0 <= i < |s| :: Scalar(s[i])
    ensures To16(Text8(s) + [0] + rest) == Text16(s) + [0]
    decreases s
  {
    hide Char8, Size8, Print8, Print16;
    if s == [] {
      EndReads();
      var t: seq<Byte> := [0] + rest;
      Print8Reads(0, rest);
      assert Text8(s) + [0] + rest == t;
    } else {
      var tail := Text8(s[1..]) + [0] + rest;
      var t := Text8(s) + [0] + rest;
      assert t == Print8(s[0]) + tail;
      Print8Reads(s[0], tail);
      assert t[|Print8(s[0])|..] == tail;
      ScalarFacts(s[0]);
      To16Text(s[1..], rest);
    }
  }

  lemma EndReads()
    ensures Print8(0) == [0] && Print16(0) == [0]
  {
  }

  lemma ScalarFacts(c: nat)
    requires Scalar(c)
    ensures 0 < c < 0x11_0000
  {
  }

  lemma {:induction false} To8Text(s: seq<nat>, rest: seq<Unit>)
    requires forall i | 0 <= i < |s| :: Scalar(s[i])
    ensures To8(Text16(s) + [0] + rest) == Text8(s) + [0]
    decreases s
  {
    hide Char16, Size16, Print8, Print16;
    if s == [] {
      EndReads();
      var u: seq<Unit> := [0] + rest;
      Print16Reads(0, rest);
      assert Text16(s) + [0] + rest == u;
    } else {
      var tail := Text16(s[1..]) + [0] + rest;
      var u := Text16(s) + [0] + rest;
      assert u == Print16(s[0]) + tail;
      Print16Reads(s[0], tail);
      assert u[|Print16(s[0])|..] == tail;
      ScalarFacts(s[0]);
      To8Text(s[1..], rest);
    }
  }

  lemma {:induction false} Text8Valid(s: seq<nat>)
    requires forall i | 0 <= i < |s| :: Scalar(s[i])
    ensures Valid8(Text8(s))
    decreases s
  {
    hide Print8, Syntax8;
    if s != [] {
      Text8Valid(s[1..]);
      PrintSyntax(s[0], Text8(s[1..]));
    }
  }

  lemma PrintSyntax(c: nat, rest: seq<Byte>)
    requires Scalar(c)
    ensures var t := Print8(c) + rest; Syntax8(t) == |Print8(c)| && t[Syntax8(t)..] == rest
  {
    var t := Print8(c) + rest;
    if c < 0x80 {
    } else if c < 0x800 {
      assert t[0] == c / 64 + 0xC0 && t[1] == c % 64 + 0x80;
    } else if c < 0x1_0000 {
      assert t[0] == c / 4096 + 0xE0 && t[1] == c / 64 % 64 + 0x80 && t[2] == c % 64 + 0x80;
    } else {
      FourSyntax(c, t);
    }
    assert t[|Print8(c)|..] == rest;
  }

  lemma FourSyntax(c: nat, t: seq<Byte>)
    requires 0x1_0000 <= c < 0x11_0000 && Print8(c) <= t
    ensures Syntax8(t) == 4
  {
    var p := Print8(c);
    assert |p| == 4 && t[0] == p[0] && t[1] == p[1] && t[2] == p[2] && t[3] == p[3];
    TopPieces(c);
  }

  lemma TopPieces(c: nat)
    requires 0x1_0000 <= c < 0x11_0000
    ensures c / 262144 <= 4 && (c / 262144 == 0 ==> c / 4096 % 64 >= 16) && (c / 262144 == 4 ==> c / 4096 % 64 < 16)
  {
    assert c / 262144 == c / 4096 / 64;
  }

  lemma {:induction false} Text16Valid(s: seq<nat>)
    requires forall i | 0 <= i < |s| :: Scalar(s[i])
    ensures Valid16(Text16(s))
    decreases s
  {
    if s != [] {
      Text16Valid(s[1..]);
      var u := Text16(s);
      assert u[|Print16(s[0])|..] == Text16(s[1..]);
    }
  }

  /** Every valid UTF-8 text becomes valid UTF-16 and comes back unchanged. */
  lemma RoundTrip8(t: seq<Byte>)
    requires Valid8(t)
    ensures var u := To16(t + [0]); u != [] && u[|u| - 1] == 0 && Valid16(u[..|u| - 1]) && To8(u) == t + [0]
  {
    var s := Characters8(t);
    hide To16, To8, Valid8, Valid16, Characters8, Text8, Text16, Scalar;
    Valid8Text(t);
    To16Text(s, []);
    To8Text(s, []);
    Text16Valid(s);
    assert t + [0] + [] == t + [0] && Text16(s) + [0] + [] == Text16(s) + [0];
    var u := Text16(s) + [0];
    assert u[..|u| - 1] == Text16(s);
  }

  /** Every valid UTF-16 text becomes valid UTF-8 and comes back unchanged. */
  lemma RoundTrip16(u: seq<Unit>)
    requires Valid16(u)
    ensures var t := To8(u + [0]); t != [] && t[|t| - 1] == 0 && Valid8(t[..|t| - 1]) && To16(t) == u + [0]
  {
    var s := Characters16(u);
    hide To16, To8, Valid8, Valid16, Characters16, Text8, Text16, Scalar;
    Valid16Text(u);
    To8Text(s, []);
    To16Text(s, []);
    Text8Valid(s);
    assert u + [0] + [] == u + [0] && Text8(s) + [0] + [] == Text8(s) + [0];
    var t := Text8(s) + [0];
    assert t[..|t| - 1] == Text8(s);
  }
}
