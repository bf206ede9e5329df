/**
 The form of location descriptors, stated on the text itself, and that scanning finds exactly what has this form:
 it misses nothing and invents nothing.
 */
module Grammar {
  import opened Options
  import opened Numerals
  import opened Descriptors

  // ---------------------------------------------------------------- numerals

  const LOWER := "0123456789abcdef"
  const UPPER := "0123456789ABCDEF"

  /** The digits of a base up to 16 are the first ones of these two lists, and stand for their positions. */
  lemma DigitMeans(c: char, base: nat)
    requires base <= 16
    ensures IsDigit(c, base) <==> exists k | 0 <= k < base :: LOWER[k] == c || UPPER[k] == c
    ensures forall k | 0 <= k < 16 :: DigitOf(LOWER[k]) == k && DigitOf(UPPER[k]) == k
  {
    if IsDigit(c, base) {
      var d := DigitOf(c);
      assert LOWER[d] == c || UPPER[d] == c;
    }
  }

  /** Digits to the left weigh the base's power of what stands to their right. */
  lemma {:induction false} ValueMeans(a: string, b: string, base: nat)
    requires AllDigits(a, base) && AllDigits(b, base)
    ensures AllDigits(a + b, base) && Value(a + b, base) == Value(a, base) * Power(base, |b|) + Value(b, base)
    decreases |b|
  {
    if b == "" {
      assert a + b == a;
    } else {
      var n := |b| - 1;
      ValueMeans(a, b[..n], base);
      assert (a + b)[..|a + b| - 1] == a + b[..n];
      Shifted(Value(a, base), Power(base, n), base, Value(b[..n], base));
    }
  }

  lemma Shifted(x: nat, p: nat, b: nat, y: nat)
    ensures (x * p + y) * b == x * (b * p) + y * b
  {
    assert (x * p) * b == x * (b * p);
  }

  /** `s[i..j]` is all of the digits there, and stands for `v`. */
  predicate Spells(s: string, i: nat, j: nat, base: nat, v: nat) {
    i < j <= |s| && AllDigits(s[i..j], base) && (j == |s| || !IsDigit(s[j], base)) && v == Value(s[i..j], base)
  }

  /** A C integer constant at `i` that ends at `j`: hexadecimal, octal or decimal. */
  predicate Numeral(s: string, i: nat, j: nat, v: nat) {
    if HexPrefixed(s, i) then Spells(s, i + 2, j, 16, v)
    else if i < |s| && s[i] == '0' then Spells(s, i, j, 8, v)
    else Spells(s, i, j, 10, v)
  }

  lemma RunIs(s: string, i: nat, j: nat, base: nat)
    requires i <= j <= |s|
    ensures Run(s, i, base) == j <==> AllDigits(s[i..j], base) && (j == |s| || !IsDigit(s[j], base))
  {
    hide IsDigit;
    if AllDigits(s[i..j], base) && (j == |s| || !IsDigit(s[j], base)) {
      RunTo(s, i, j, base);
    }
  }

  lemma RunStarts(s: string, i: nat, base: nat)
    requires i <= |s|
    ensures Run(s, i, base) > i <==> i < |s| && IsDigit(s[i], base)
  {
  }

  lemma RunSpells(s: string, i: nat, base: nat, j: nat, v: nat)
    requires i <= |s|
    ensures var e := Run(s, i, base);
      e > i && j == e && v == Value(s[i..e], base) <==> Spells(s, i, j, base, v)
  {
    hide IsDigit, Run;
    if i <= j <= |s| {
      RunIs(s, i, j, base);
    }
  }

  lemma ReadNumberForm(s: string, i: nat)
    requires i <= |s|
    ensures HexPrefixed(s, i) ==>
      IsDigit(s[i + 2], 16) && ReadNumber(s, i) == Number(Value(s[i + 2..Run(s, i + 2, 16)], 16), Run(s, i + 2, 16))
    ensures !HexPrefixed(s, i) && i < |s| && s[i] == '0' ==>
      IsDigit(s[i], 8) && ReadNumber(s, i) == Number(Value(s[i..Run(s, i, 8)], 8), Run(s, i, 8))
    ensures !HexPrefixed(s, i) && !(i < |s| && s[i] == '0') ==>
      ReadNumber(s, i) == if Run(s, i, 10) == i then Nothing else Number(Value(s[i..Run(s, i, 10)], 10), Run(s, i, 10))
  {
    hide Run, Value;
  }

  /** Reading gives a number exactly when a numeral stands there, and then its value and its end. */
  lemma ReadNumberMeans(s: string, i: nat, v: nat, j: nat)
    requires i <= |s|
    ensures ReadNumber(s, i) == Number(v, j) <==> Numeral(s, i, j, v)
  {
    hide Run, Value, IsDigit, Spells, ReadNumber, HexPrefixed;
    ReadNumberForm(s, i);
    if HexPrefixed(s, i) {
      HexRoom(s, i);
      RunStarts(s, i + 2, 16);
      RunSpells(s, i + 2, 16, j, v);
    } else if i < |s| && s[i] == '0' {
      RunStarts(s, i, 8);
      RunSpells(s, i, 8, j, v);
    } else {
      RunSpells(s, i, 10, j, v);
    }
  }

  lemma HexRoom(s: string, i: nat)
    requires HexPrefixed(s, i)
    ensures i + 2 < |s|
  {
  }

  /** The numeral `n` behind a minus sign, as a 64-bit two's complement number. */
  predicate Negated(s: string, i: nat, j: nat, n: nat, v: nat) {
    Numeral(s, i + 1, j, n) && n <= HOST_BIT && v == (SIZE - n) % SIZE
  }

  /** An address with its sign: a 64-bit number, or the two's complement of one up to 2^63. */
  ghost predicate Address(s: string, i: nat, j: nat, v: nat) {
    if i < |s| && s[i] == '-' then exists n: nat :: Negated(s, i, j, n, v)
    else Numeral(s, i, j, v) && v < SIZE
  }

  lemma ReadAddressMeans(s: string, i: nat, v: nat, j: nat)
    requires i < |s|
    ensures ReadAddress(s, i) == Number(v, j) <==> Address(s, i, j, v)
  {
    hide ReadNumber, Numeral;
    if s[i] == '-' {
      var r := ReadNumber(s, i + 1);
      if r.Number? {
        ReadNumberMeans(s, i + 1, r.value, r.end);
        assert r.end == j && Negated(s, i, j, r.value, v) <==> ReadAddress(s, i) == Number(v, j);
      }
      forall n: nat | Negated(s, i, j, n, v) ensures r == Number(n, j) {
        ReadNumberMeans(s, i + 1, n, j);
      }
    } else {
      ReadNumberMeans(s, i, v, j);
    }
  }

  // ---------------------------------------------------------------- descriptors

  /** A byte count at `q`, then ` bytes at `, then an address: the descriptor `l`. */
  ghost predicate Counted(s: string, q: nat, l: Location) {
    && q + 10 < l.start < |s| && Spells(s, q, l.start - 10, 10, l.size) && l.size < SIZE
    && s[l.start - 10..l.start] == BYTES_AT
    && (IsDigit(s[l.start], 10) || s[l.start] == '-') && Address(s, l.start, l.end, l.addr)
  }

  /** Describing succeeds on exactly this form. */
  lemma DescribeMeans(s: string, q: nat, l: Location)
    requires q < |s| && IsDigit(s[q], 10)
    ensures Describe(s, q) == Some(l) <==> Counted(s, q, l)
  {
    hide Run, Value, IsDigit, ReadAddress, Address, Spells, Describe;
    DescribeForm(s, q);
    var e := Run(s, q, 10);
    RunStarts(s, q, 10);
    RunSpells(s, q, 10, e, Value(s[q..e], 10));
    if e + 10 < |s| {
      ReadAddressMeans(s, e + 10, l.addr, l.end);
    }
    if l.start >= 10 {
      RunSpells(s, q, 10, l.start - 10, l.size);
    }
    assert |BYTES_AT| == 10;
  }

  lemma DescribeForm(s: string, q: nat)
    requires q < |s|
    ensures var e := Run(s, q, 10);
      var size := Value(s[q..e], 10);
      Describe(s, q) ==
        if size >= SIZE || !Starts(s, e, BYTES_AT) || e + 10 >= |s| || !(IsDigit(s[e + 10], 10) || s[e + 10] == '-')
        then None
        else
          match ReadAddress(s, e + 10)
          case Nothing => None
          case Number(v, t) => Some(Location(e + 10, t, size, v))
  {
    assert |BYTES_AT| == 10;
    hide Run, Value, ReadAddress, IsDigit;
  }

  /** The prefix stands at `p`, before a digit. */
  predicate Candidate(s: string, p: nat) {
    p + 10 < |s| && s[p..p + 10] == "location: " && IsDigit(s[p + 10], 10)
  }

  lemma CandidateStarts(s: string, p: nat)
    ensures Candidate(s, p) <==> p + 10 < |s| && Starts(s, p, PREFIX) && IsDigit(s[p + 10], 10)
    ensures Starts(s, p, PREFIX) ==> p + 10 <= |s| && s[p] == 'l' && forall k | p < k < p + 10 :: s[k] != 'l'
  {
    if Starts(s, p, PREFIX) {
      forall k | p <= k < p + 10 ensures s[k] == PREFIX[k - p] {
        assert s[k] == s[p..p + 10][k - p];
      }
    }
  }

  /** No `l` stands inside a numeral. */
  lemma SpellsClean(s: string, i: nat, j: nat, base: nat, v: nat)
    requires Spells(s, i, j, base, v) && base <= 16
    ensures forall k | i <= k < j :: s[k] != 'l'
  {
    forall k | i <= k < j ensures s[k] != 'l' {
      assert IsDigit(s[i..j][k - i], base);
    }
  }

  lemma AddressClean(s: string, i: nat, j: nat, v: nat)
    requires Address(s, i, j, v)
    ensures forall k | i <= k < j :: s[k] != 'l'
  {
    hide Spells, IsDigit;
    var a, n := i, v;
    if i < |s| && s[i] == '-' {
      n :| Negated(s, i, j, n, v);
      a := i + 1;
    }
    if HexPrefixed(s, a) {
      SpellsClean(s, a + 2, j, 16, n);
    } else if a < |s| && s[a] == '0' {
      SpellsClean(s, a, j, 8, n);
    } else {
      SpellsClean(s, a, j, 10, n);
    }
  }

  /** No prefix starts inside a descriptor. */
  lemma CountedClean(s: string, q: nat, l: Location)
    requires Counted(s, q, l)
    ensures forall p | q <= p < l.end :: !Starts(s, p, PREFIX)
  {
    hide Spells, Address, IsDigit;
    SpellsClean(s, q, l.start - 10, 10, l.size);
    AddressClean(s, l.start, l.end, l.addr);
    forall p | q <= p < l.end ensures !Starts(s, p, PREFIX) {
      CandidateStarts(s, p);
      if l.start - 10 <= p < l.start {
        assert s[p] == s[l.start - 10..l.start][p - (l.start - 10)] == BYTES_AT[p - (l.start - 10)];
      }
    }
  }

  /** The next descriptor's byte count stands behind the first candidate; none is left out. */
  lemma {:induction false} NextMeans(s: string, i: nat)
    requires i <= |s|
    ensures match Next(s, i)
      case None => forall p | i <= p :: !Candidate(s, p)
      case Some(q) => i + 10 <= q && Candidate(s, q - 10) && forall p | i <= p < q - 10 :: !Candidate(s, p)
    decreases |s| - i
  {
    hide Find, Next, Starts, IsDigit, Candidate;
    var p := Find(s, i);
    FindFirst(s, i);
    NextStep(s, i, p);
    CandidateStarts(s, p);
    forall k | i <= k && (k < p || p < k < p + 10) ensures !Candidate(s, k) {
      CandidateStarts(s, k);
    }
    if p == |s| {
      forall k | i <= k ensures !Candidate(s, k) {
        CandidateStarts(s, k);
      }
    } else if !(p + 10 < |s| && IsDigit(s[p + 10], 10)) {
      NextMeans(s, p + 10);
    }
  }

  /** The search finds the first prefix. */
  lemma FindFirst(s: string, i: nat)
    requires i <= |s|
    ensures var p := Find(s, i);
      i <= p <= |s| && (p < |s| ==> Starts(s, p, PREFIX)) && forall k | i <= k < p || k >= |s| :: !Starts(s, k, PREFIX)
  {
    hide Find;
  }

  /** A descriptor at `p`: the prefix, and the form behind it. */
  ghost predicate Descriptor(s: string, p: nat, l: Location) { Candidate(s, p) && Counted(s, p + 10, l) }

  ghost predicate Listed(s: string, p: nat, ls: seq<Location>) {
    exists k | 0 <= k < |ls| :: Descriptor(s, p, ls[k])
  }

  ghost predicate Written(s: string, i: nat, l: Location) { exists p: nat :: i <= p && Descriptor(s, p, l) }

  /** Every candidate from `i` on is the descriptor of an element, and every element is the descriptor of one. */
  ghost predicate Complete(s: string, i: nat, ls: seq<Location>) {
    && (forall p: nat | i <= p && Candidate(s, p) :: Listed(s, p, ls))
    && (forall k | 0 <= k < |ls| :: Written(s, i, ls[k]))
  }

  /** Some candidate from `i` on is no descriptor. */
  ghost predicate Broken(s: string, i: nat) {
    exists p: nat :: i <= p && Candidate(s, p) && forall l :: !Descriptor(s, p, l)
  }

  lemma CandidateRoom(s: string, p: nat)
    requires Candidate(s, p)
    ensures p + 10 < |s| && IsDigit(s[p + 10], 10)
  {
  }

  lemma CompleteNone(s: string, i: nat)
    requires forall p: nat | i <= p :: !Candidate(s, p)
    ensures Complete(s, i, [])
  {
  }

  /** A candidate behind the start of a descriptor is behind its end. */
  lemma CandidateBehind(s: string, p: nat, l: Location, x: nat)
    requires Descriptor(s, p, l) && Candidate(s, x) && p < x
    ensures l.end <= x
  {
    hide Counted, Candidate, IsDigit;
    CountedClean(s, p + 10, l);
    CandidateStarts(s, p);
    CandidateStarts(s, x);
  }

  lemma CompleteFirst(s: string, i: nat, p: nat, l: Location, ls: seq<Location>)
    requires i <= p < l.end && Descriptor(s, p, l) && (forall k: nat | i <= k < p :: !Candidate(s, k))
    requires Complete(s, l.end, ls)
    ensures Complete(s, i, [l] + ls)
  {
    hide Candidate, Descriptor;
    var all := [l] + ls;
    assert all[0] == l && forall k | 0 <= k < |ls| :: all[k + 1] == ls[k];
    forall x: nat | i <= x && Candidate(s, x) ensures Listed(s, x, all) {
      if x == p {
        assert Descriptor(s, x, all[0]);
      } else {
        CandidateBehind(s, p, l, x);
        var k :| 0 <= k < |ls| && Descriptor(s, x, ls[k]);
        assert Descriptor(s, x, all[k + 1]);
      }
    }
    forall k | 0 <= k < |all| ensures Written(s, i, all[k]) {
      if k == 0 {
        assert Descriptor(s, p, all[k]);
      } else {
        var x: nat :| l.end <= x && Descriptor(s, x, ls[k - 1]);
        assert Descriptor(s, x, all[k]);
      }
    }
  }

  /**
   Scanning lists the descriptors of the text, all of them and nothing else, and gives up exactly when the prefix
   stands somewhere before a digit that begins no descriptor.
   */
  lemma {:induction false} ScanMeans(s: string, i: nat)
    requires i <= |s|
    ensures match Scan(s, i) case None => Broken(s, i) case Some(ls) => Complete(s, i, ls) && !Broken(s, i)
    decreases |s| - i
  {
    hide Scan, Next, Describe, Candidate, Complete, Counted;
    ScanStep(s, i);
    NextMeans(s, i);
    match Next(s, i)
    case None => CompleteNone(s, i);
    case Some(q) =>
      var p := q - 10;
      CandidateRoom(s, p);
      match Describe(s, q)
      case None =>
        forall l ensures !Descriptor(s, p, l) {
          DescribeMeans(s, q, l);
        }
      case Some(l) =>
        DescribeMeans(s, q, l);
        DescribedBehind(s, q, l);
        ScanMeans(s, l.end);
        if Scan(s, l.end).Some? {
          CompleteFirst(s, i, p, l, Scan(s, l.end).value);
        } else {
          BrokenLater(s, i, l.end);
        }
    if Scan(s, i).Some? {
      CompleteWhole(s, i, Scan(s, i).value);
    }
  }

  lemma DescribedBehind(s: string, q: nat, l: Location)
    requires q < |s| && Describe(s, q) == Some(l)
    ensures q < l.end <= |s|
  {
  }

  lemma BrokenLater(s: string, i: nat, j: nat)
    requires Broken(s, j) && i <= j
    ensures Broken(s, i)
  {
    var p: nat :| j <= p && Candidate(s, p) && forall l :: !Descriptor(s, p, l);
  }

  lemma CompleteWhole(s: string, i: nat, ls: seq<Location>)
    requires Complete(s, i, ls)
    ensures !Broken(s, i)
  {
    hide Descriptor, Candidate;
  }

  // ---------------------------------------------------------------- texts and addresses

  /** Texts with addresses between them. */
  function Weave(texts: seq<string>, addrs: seq<string>): string
    requires |texts| == |addrs| + 1
  {
    if addrs == [] then texts[0] else texts[0] + addrs[0] + Weave(texts[1..], addrs[1..])
  }

  /** The addresses as they stand in the text. */
  function Originals(s: string, ls: seq<Location>): (r: seq<string>)
    requires forall k | 0 <= k < |ls| :: ls[k].start <= ls[k].end <= |s|
    ensures |r| == |ls|
  {
    if ls == [] then [] else [s[ls[0].start..ls[0].end]] + Originals(s, ls[1..])
  }

  function Printed(ds: seq<nat>): (r: seq<string>)
    ensures |r| == |ds|
  {
    if ds == [] then [] else [Print(ds[0])] + Printed(ds[1..])
  }

  /** The text is its stretches with the addresses between them; rewriting puts the printed new ones in their places. */
  lemma {:induction false} RewriteMeans(s: string, i: nat, ls: seq<Location>, ds: seq<nat>)
    requires Placed(s, i, ls) && |ds| == |ls|
    ensures forall k | 0 <= k < |ls| :: ls[k].start <= ls[k].end <= |s|
    ensures |Texts(s, i, ls)| == |ls| + 1 && s[i..] == Weave(Texts(s, i, ls), Originals(s, ls))
    ensures Rewrite(s, i, ls, ds) == Weave(Texts(s, i, ls), Printed(ds))
    decreases ls
  {
    hide Print;
    PlacedOrder(s, i, ls);
    if ls != [] {
      var l, rest := ls[0], ls[1..];
      RewriteMeans(s, l.end, rest, ds[1..]);
      assert s[i..] == s[i..l.start] + s[l.start..l.end] + s[l.end..];
    }
  }
}
