/** Powers of two and bitwise operations on natural numbers. */
module Bits {

  function Pow2(k: nat): (p: nat)
    ensures p > 0
  {
    if k == 0 then 1 else 2 * Pow2(k - 1)
  }

  function BAnd(a: nat, b: nat): nat {
    if a == 0 then 0 else (if a % 2 == 1 && b % 2 == 1 then 1 else 0) + 2 * BAnd(a / 2, b / 2)
  }

  function BOr(a: nat, b: nat): nat
    decreases a + b
  {
    if a == 0 then b else if b == 0 then a
    else (if a % 2 + b % 2 == 0 then 0 else 1) + 2 * BOr(a / 2, b / 2)
  }

  function BXor(a: nat, b: nat): nat
    decreases a + b
  {
    if a == 0 then b else if b == 0 then a
    else (a + b) % 2 + 2 * BXor(a / 2, b / 2)
  }

  lemma Pow2Sum(a: nat, b: nat)
    ensures Pow2(a + b) == Pow2(a) * Pow2(b)
  {
    if a > 0 {
      Pow2Sum(a - 1, b);
    }
  }

  lemma Pow2Values()
    ensures Pow2(5) == 32 && Pow2(6) == 64 && Pow2(7) == 128 && Pow2(8) == 0x100
    ensures Pow2(16) == 0x1_0000 && Pow2(32) == 0x1_0000_0000 && Pow2(64) == 0x1_0000_0000_0000_0000
    ensures Pow2(15) == 0x8000 && Pow2(31) == 0x8000_0000 && Pow2(63) == 0x8000_0000_0000_0000
  {
    assert Pow2(4) == 16;
    assert Pow2(8) == 256 by { Pow2Sum(4, 4); }
    assert Pow2(16) == 0x1_0000 by { Pow2Sum(8, 8); }
    assert Pow2(32) == 0x1_0000_0000 by { Pow2Sum(16, 16); }
    assert Pow2(64) == 0x1_0000_0000_0000_0000 by { Pow2Sum(32, 32); }
  }

  /** Masking with 2^k - 1 is the remainder modulo 2^k. */
  lemma {:induction false} AndMask(a: nat, k: nat)
    ensures BAnd(a, Pow2(k) - 1) == a % Pow2(k)
  {
    if k == 0 {
      AndZero(a);
    } else if a == 0 {
      ModUnique(a, Pow2(k), 0, 0);
    } else {
      var p := Pow2(k - 1);
      assert BAnd(a / 2, p - 1) == (a / 2) % p by { AndMask(a / 2, k - 1); }
      assert a % (2 * p) == a % 2 + 2 * ((a / 2) % p) by { ModSplit(a, p); }
      assert BAnd(a, 2 * p - 1) == a % 2 + 2 * BAnd(a / 2, p - 1) by { AndMaskStep(a, p); }
      assert Pow2(k) == 2 * p;
    }
  }

  lemma AndMaskStep(a: nat, p: nat)
    requires a > 0 && p > 0
    ensures BAnd(a, 2 * p - 1) == a % 2 + 2 * BAnd(a / 2, p - 1)
  {
    HalveMask(p);
    var m: nat := 2 * p - 1;
    assert BAnd(a, m) == (if a % 2 == 1 && m % 2 == 1 then 1 else 0) + 2 * BAnd(a / 2, m / 2);
  }

  lemma {:induction false} AndZero(a: nat)
    ensures BAnd(a, 0) == 0
  {
    if a > 0 {
      AndZero(a / 2);
    }
  }

  lemma HalveMask(p: nat)
    requires p > 0
    ensures (2 * p - 1) % 2 == 1 && (2 * p - 1) / 2 == p - 1
  {
  }

  lemma ModSplit(a: nat, p: nat)
    requires p > 0
    ensures a % (2 * p) == a % 2 + 2 * ((a / 2) % p)
  {
    var q, r := (a / 2) / p, (a / 2) % p;
    assert a == (2 * p) * q + (a % 2 + 2 * r) by {
      assert a / 2 == p * q + r;
      assert 2 * (p * q) == (2 * p) * q;
    }
    ModUnique(a, 2 * p, q, a % 2 + 2 * r);
  }

  lemma ModUnique(a: int, m: int, q: int, r: int)
    requires m > 0 && 0 <= r < m && a == m * q + r
    ensures a % m == r && a / m == q
  {
    var d := q - a / m;
    assert m * d == m * q - m * (a / m);
    assert -m < m * d < m;
    assert d == 0;
  }

  lemma {:induction false} AndBound(a: nat, b: nat)
    ensures BAnd(a, b) <= a
  {
    if a > 0 {
      AndBound(a / 2, b / 2);
    }
  }

  lemma {:induction false} OrBound(a: nat, b: nat, k: nat)
    requires a < Pow2(k) && b < Pow2(k)
    ensures BOr(a, b) < Pow2(k)
    decreases a + b
  {
    if a > 0 && b > 0 {
      OrBound(a / 2, b / 2, k - 1);
    }
  }

  lemma {:induction false} XorBound(a: nat, b: nat, k: nat)
    requires a < Pow2(k) && b < Pow2(k)
    ensures BXor(a, b) < Pow2(k)
    decreases a + b
  {
    if a > 0 && b > 0 {
      XorBound(a / 2, b / 2, k - 1);
    }
  }

  lemma {:induction false} OrSelf(a: nat)
    ensures BOr(a, a) == a
  {
    if a > 0 {
      OrSelf(a / 2);
    }
  }

  /** Joining a multiple of 2^k with a value below 2^k adds them. */
  lemma {:induction false} OrDisjoint(x: nat, y: nat, k: nat)
    requires y < Pow2(k)
    ensures BOr(x * Pow2(k), y) == x * Pow2(k) + y
    decreases k
  {
    if x == 0 {
    } else if k > 0 && y > 0 {
      var p := Pow2(k - 1);
      Twice(x, p);
      OrDisjoint(x, y / 2, k - 1);
      OrEven(x * p, y);
    } else {
      assert y == 0;
    }
  }

  lemma Twice(x: nat, p: nat)
    requires x > 0 && p > 0
    ensures x * (2 * p) == 2 * (x * p) && x * p > 0
  {
  }

  lemma OrEven(h: nat, y: nat)
    requires h > 0 && y > 0 && BOr(h, y / 2) == h + y / 2
    ensures BOr(2 * h, y) == 2 * h + y
  {
    var a: nat := 2 * h;
    assert a % 2 == 0 && a / 2 == h;
  }

  lemma OrCommutes(a: nat, b: nat)
    ensures BOr(a, b) == BOr(b, a)
    decreases a + b
  {
    if a > 0 && b > 0 {
      OrCommutes(a / 2, b / 2);
    }
  }
}
