/**
 Numbers in message text, as the C library reads them (`strtoumax`, `strtoimax` with base 0) and writes
 them (`%#zx`, `PRIdMAX`).
 */
module Numerals {

  const SIZE: nat := 0x1_0000_0000_0000_0000   // one more than SIZE_MAX
  const HOST_BIT: nat := 0x8000_0000_0000_0000

  function DigitOf(c: char): int {
    if '0' <= c <= '9' then c as int - '0' as int
    else if 'a' <= c <= 'z' then c as int - 'a' as int + 10
    else if 'A' <= c <= 'Z' then c as int - 'A' as int + 10
    else -1
  }

  predicate IsDigit(c: char, base: nat) { 0 <= DigitOf(c) < base }

  function DigitChar(d: nat): char
    requires d < 16
  {
    if d < 10 then ('0' as int + d) as char else ('a' as int + d - 10) as char
  }

  predicate AllDigits(ds: string, base: nat) { forall i | 0 <= i < |ds| :: IsDigit(ds[i], base) }

  /** The value of a digit string. */
  function Value(ds: string, base: nat): nat
    requires AllDigits(ds, base)
  {
    if ds == "" then 0 else Value(ds[..|ds| - 1], base) * base + DigitOf(ds[|ds| - 1])
  }

  /** The shortest digit string of a number; one digit for zero. */
  function Digits(n: nat, base: nat): (ds: string)
    requires 2 <= base <= 16
    ensures |ds| > 0
    decreases n
  {
    if n < base then [DigitChar(n)] else Digits(n / base, base) + [DigitChar(n % base)]
  }

  lemma DigitCharOf(d: nat)
    requires d < 16
    ensures DigitOf(DigitChar(d)) == d
  {
  }

  lemma AppendDigit(ds: string, c: char, base: nat)
    requires AllDigits(ds, base) && IsDigit(c, base)
    ensures AllDigits(ds + [c], base) && Value(ds + [c], base) == Value(ds, base) * base + DigitOf(c)
  {
    assert (ds + [c])[..|ds|] == ds;
  }

  lemma DigitIs(d: nat, base: nat)
    requires d < base <= 16
    ensures IsDigit(DigitChar(d), base) && (d > 0 ==> DigitChar(d) != '0') && AllDigits("", base)
      && Value("", base) == 0
  {
  }

  lemma {:induction false} DigitsValue(n: nat, base: nat)
    requires 2 <= base <= 16
    ensures AllDigits(Digits(n, base), base) && Value(Digits(n, base), base) == n
    ensures n > 0 ==> Digits(n, base)[0] != '0'
    decreases n
  {
    hide Value, IsDigit, DigitOf, DigitChar;
    if n < base {
      DigitCharOf(n);
      DigitIs(n, base);
      AppendDigit("", DigitChar(n), base);
      assert "" + [DigitChar(n)] == [DigitChar(n)];
    } else {
      var q, r := n / base, n % base;
      DivMod(n, base);
      DigitsValue(q, base);
      DigitCharOf(r);
      DigitIs(r, base);
      AppendDigit(Digits(q, base), DigitChar(r), base);
      DigitsStep(n, base, q, r);
    }
  }

  lemma DivMod(n: nat, b: nat)
    requires b > 0
    ensures n == n / b * b + n % b && (n >= b ==> n / b > 0)
  {
  }

  lemma DigitsStep(n: nat, base: nat, q: nat, r: nat)
    requires 2 <= base <= 16 && n >= base && q == n / base && r == n % base
    ensures Digits(n, base) == Digits(q, base) + [DigitChar(r)]
  {
  }

  function Power(b: nat, k: nat): nat { if k == 0 then 1 else b * Power(b, k - 1) }

  /** A number below base^k has at most k digits. */
  lemma {:induction false} DigitsLength(n: nat, base: nat, k: nat)
    requires 2 <= base <= 16 && k > 0 && n < Power(base, k)
    ensures |Digits(n, base)| <= k
    decreases k
  {
    if k == 1 {
      assert Power(base, 1) == base * Power(base, 0) == base;
    } else if n >= base {
      DivideBelow(n, base, Power(base, k - 1));
      DigitsLength(n / base, base, k - 1);
    }
  }

  lemma DivideBelow(n: nat, b: nat, p: nat)
    requires b > 0 && n < b * p
    ensures n / b < p
  {
    assert b * (n / b) <= n;
    Cancel(b, n / b, p);
  }

  lemma Cancel(b: nat, x: nat, p: nat)
    requires b * x < b * p
    ensures x < p
  {
  }

  /** Where the run of digits from `i` ends. */
  function Run(s: string, i: nat, base: nat): (j: nat)
    requires i <= |s|
    ensures i <= j <= |s| && AllDigits(s[i..j], base)
    ensures j < |s| ==> !IsDigit(s[j], base)
    decreases |s| - i
  {
    if i == |s| || !IsDigit(s[i], base) then i
    else
      var j := Run(s, i + 1, base);
      assert s[i..j] == [s[i]] + s[i + 1..j];
      j
  }

  lemma {:induction false} RunTo(s: string, i: nat, j: nat, base: nat)
    requires i <= j <= |s| && AllDigits(s[i..j], base) && (j < |s| ==> !IsDigit(s[j], base))
    ensures Run(s, i, base) == j
    decreases j - i
  {
    if i < j {
      var ds, rest := s[i..j], s[i + 1..j];
      assert s[i] == ds[0];
      forall k | 0 <= k < |rest| ensures IsDigit(rest[k], base) {
        assert rest[k] == ds[k + 1];
      }
      RunTo(s, i + 1, j, base);
    }
  }

  /** A number read from position `i`: its value and where it ends; nothing when no digit is there. */
  datatype Read = Nothing | Number(value: nat, end: nat)

  /** `strtoumax` with base 10. */
  function ReadDecimal(s: string, i: nat): (r: Read)
    requires i <= |s|
    ensures r.Number? ==> i < r.end <= |s|
  {
    var j := Run(s, i, 10);
    if j == i then Nothing else Number(Value(s[i..j], 10), j)
  }

  predicate HexPrefixed(s: string, i: nat) {
    i + 2 < |s| && s[i] == '0' && s[i + 1] in "xX" && IsDigit(s[i + 2], 16)
  }

  /** `strtoumax` with the base taken from the text. */
  function ReadNumber(s: string, i: nat): (r: Read)
    requires i <= |s|
    ensures r.Number? ==> i < r.end <= |s|
  {
    if HexPrefixed(s, i) then
      var j := Run(s, i + 2, 16);
      Number(Value(s[i + 2..j], 16), j)
    else if i < |s| && s[i] == '0' then
      var j := Run(s, i, 8);
      Number(Value(s[i..j], 8), j)
    else ReadDecimal(s, i)
  }

  /** The address at position `i`, with its sign; none when it is missing or out of range. */
  function ReadAddress(s: string, i: nat): (r: Read)
    requires i < |s|
    ensures r.Number? ==> i < r.end <= |s| && r.value < SIZE
  {
    if s[i] == '-' then
      (match ReadNumber(s, i + 1)
       case Nothing => Nothing
       case Number(v, j) => if v > HOST_BIT then Nothing else Number((SIZE - v) % SIZE, j))
    else
      (match ReadNumber(s, i)
       case Nothing => Nothing
       case Number(v, j) => if v >= SIZE then Nothing else Number(v, j))
  }

  /** A rewritten address: negative decimal when the top bit is set, hexadecimal otherwise. */
  function Print(v: nat): (t: string)
    ensures |t| > 0
  {
    if HOST_BIT <= v < SIZE then "-" + Digits(SIZE - v, 10)
    else if v == 0 then "0"
    else "0x" + Digits(v, 16)
  }

  /**
   No printed address that ends at `e` is extended by what follows: no hexadecimal digit, and no `x` in front of one.
   */
  predicate Stops(s: string, e: nat) {
    e < |s| ==> !IsDigit(s[e], 16) && !(s[e] in "xX" && e + 1 < |s| && IsDigit(s[e + 1], 16))
  }

  lemma PrintLength(v: nat)
    requires v < SIZE
    ensures |Print(v)| <= 20
  {
    if v >= HOST_BIT {
      TenPower();
      DigitsLength(SIZE - v, 10, 19);
    } else if v > 0 {
      HexPower();
      DigitsLength(v, 16, 16);
    }
  }

  lemma TenPower()
    ensures Power(10, 19) == 10_000_000_000_000_000_000
  {
    assert Power(10, 5) == 100_000 by {
      assert Power(10, 2) == 100;
    }
    assert Power(10, 10) == 10_000_000_000 by {
      assert Power(10, 7) == 10_000_000;
    }
    assert Power(10, 15) == 1_000_000_000_000_000 by {
      assert Power(10, 12) == 1_000_000_000_000;
    }
    assert Power(10, 17) == 100_000_000_000_000_000;
  }

  lemma HexPower()
    ensures Power(16, 16) == SIZE
  {
    assert Power(16, 4) == 0x1_0000 by {
      assert Power(16, 2) == 0x100;
    }
    assert Power(16, 8) == 0x1_0000_0000 by {
      assert Power(16, 6) == 0x100_0000;
    }
    assert Power(16, 12) == 0x1_0000_0000_0000 by {
      assert Power(16, 10) == 0x100_0000_0000;
    }
    assert Power(16, 14) == 0x100_0000_0000_0000;
  }

  /** Reading back a printed address, wherever it stands, gives the address and ends behind it. */
  lemma PrintedReadsBack(s: string, i: nat, v: nat)
    requires v < SIZE && i + |Print(v)| <= |s| && s[i..i + |Print(v)|] == Print(v)
    requires Stops(s, i + |Print(v)|)
    ensures ReadAddress(s, i) == Number(v, i + |Print(v)|)
  {
    if v >= HOST_BIT {
      NegativeReadsBack(s, i, v);
    } else if v == 0 {
      ZeroReadsBack(s, i);
    } else {
      HexReadsBack(s, i, v);
    }
  }

  lemma Slice(s: string, i: nat, t: string, k: nat)
    requires i + |t| <= |s| && s[i..i + |t|] == t && k <= |t|
    ensures s[i + k..i + |t|] == t[k..] && (k < |t| ==> s[i + k] == t[k])
  {
    assert s[i + k..i + |t|] == s[i..i + |t|][k..];
  }

  lemma NegativeReadsBack(s: string, i: nat, v: nat)
    requires HOST_BIT <= v < SIZE && i + |Print(v)| <= |s| && s[i..i + |Print(v)|] == Print(v)
    requires Stops(s, i + |Print(v)|)
    ensures ReadAddress(s, i) == Number(v, i + |Print(v)|)
  {
    hide Digits, Value, Run, IsDigit;
    var t, j, n := Print(v), i + |Print(v)|, SIZE - v;
    DigitsValue(n, 10);
    Slice(s, i, t, 0);
    Slice(s, i, t, 1);
    assert t[1..] == Digits(n, 10);
    StopsTen(s, j);
    RunTo(s, i + 1, j, 10);
  }

  lemma StopsTen(s: string, j: nat)
    requires Stops(s, j)
    ensures j < |s| ==> !IsDigit(s[j], 8) && !IsDigit(s[j], 10) && !IsDigit(s[j], 16)
  {
  }

  lemma ZeroReadsBack(s: string, i: nat)
    requires i + 1 <= |s| && s[i..i + 1] == "0"
    requires Stops(s, i + 1)
    ensures ReadAddress(s, i) == Number(0, i + 1) && Print(0) == "0"
  {
    hide Run;
    assert s[i] == s[i..i + 1][0];
    StopsTen(s, i + 1);
    RunTo(s, i, i + 1, 8);
    AppendDigit("", '0', 8);
    assert "" + ['0'] == "0";
  }

  lemma HexReadsBack(s: string, i: nat, v: nat)
    requires 0 < v < HOST_BIT && i + |Print(v)| <= |s| && s[i..i + |Print(v)|] == Print(v)
    requires Stops(s, i + |Print(v)|)
    ensures ReadAddress(s, i) == Number(v, i + |Print(v)|)
  {
    hide Digits, Value, Run, IsDigit;
    var t, j := Print(v), i + |Print(v)|;
    DigitsValue(v, 16);
    Slice(s, i, t, 0);
    Slice(s, i, t, 1);
    Slice(s, i, t, 2);
    assert t[2..] == Digits(v, 16) && t[2] == Digits(v, 16)[0];
    StopsTen(s, j);
    RunTo(s, i + 2, j, 16);
  }
}
