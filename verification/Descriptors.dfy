/**
 Location descriptors in message text, `location: N bytes at A`: finding them, and rewriting their
 addresses so that scanning the result finds the same descriptors with the new addresses.
 */
module Descriptors {
  import opened Options
  import opened Numerals

  const PREFIX := "location: "
  const BYTES_AT := " bytes at "

  predicate Starts(s: string, i: nat, t: string) { i + |t| <= |s| && s[i..i + |t|] == t }

  /** `strstr`: the first occurrence of the prefix at or after `i`, or the end. */
  function Find(s: string, i: nat): (p: nat)
    requires i <= |s|
    ensures i <= p <= |s| && (p < |s| ==> Starts(s, p, PREFIX))
    ensures forall k | i <= k < p :: !Starts(s, k, PREFIX)
    decreases |s| - i
  {
    if i == |s| || Starts(s, i, PREFIX) then i else Find(s, i + 1)
  }

  /** Where the byte count of the next numeric descriptor starts. */
  function Next(s: string, i: nat): (r: Option<nat>)
    requires i <= |s|
    ensures r.Some? ==> i + 10 <= r.value < |s| && IsDigit(s[r.value], 10)
    decreases |s| - i
  {
    var p := Find(s, i);
    if p == |s| then None
    else
      var q := p + |PREFIX|;
      if q < |s| && IsDigit(s[q], 10) then Some(q) else Next(s, q)
  }

  /** A descriptor: the span of its address in the text, the byte count and the address. */
  datatype Location = Location(start: nat, end: nat, size: nat, addr: nat)

  /** Reads a descriptor from its byte count on; none when it is malformed or out of range. */
  function Describe(s: string, q: nat): (r: Option<Location>)
    requires q < |s|
    ensures r.Some? ==> q < r.value.start < r.value.end <= |s| && r.value.size < SIZE && r.value.addr < SIZE
  {
    var e := Run(s, q, 10);
    var size := Value(s[q..e], 10);
    var a := e + |BYTES_AT|;
    if size >= SIZE || !Starts(s, e, BYTES_AT) || a >= |s| || !(IsDigit(s[a], 10) || s[a] == '-') then None
    else
      match ReadAddress(s, a)
      case Nothing => None
      case Number(v, t) => Some(Location(a, t, size, v))
  }

  /** All descriptors from position `i` on; none when one is malformed. */
  function Scan(s: string, i: nat): (r: Option<seq<Location>>)
    requires i <= |s|
    ensures r.Some? ==> Placed(s, i, r.value)
    decreases |s| - i
  {
    match Next(s, i)
    case None => Some([])
    case Some(q) =>
      match Describe(s, q)
      case None => None
      case Some(l) =>
        match Scan(s, l.end)
        case None => None
        case Some(ls) => Some([l] + ls)
  }

  /** The address spans come one after another, with text before each. */
  predicate Placed(s: string, i: nat, ls: seq<Location>)
    decreases ls
  {
    i <= |s| &&
    (ls != [] ==>
      && i + |PREFIX| < ls[0].start < ls[0].end <= |s| && ls[0].size < SIZE && ls[0].addr < SIZE
      && Placed(s, ls[0].end, ls[1..]))
  }

  /** The text from `i` on, with the addresses replaced. */
  function Rewrite(s: string, i: nat, ls: seq<Location>, ds: seq<nat>): string
    requires Placed(s, i, ls) && |ds| == |ls|
    decreases ls
  {
    if ls == [] then s[i..] else s[i..ls[0].start] + Print(ds[0]) + Rewrite(s, ls[0].end, ls[1..], ds[1..])
  }

  /** Everything but the addresses: the stretches of text around them. */
  function Texts(s: string, i: nat, ls: seq<Location>): seq<string>
    requires Placed(s, i, ls)
    decreases ls
  {
    if ls == [] then [s[i..]] else [s[i..ls[0].start]] + Texts(s, ls[0].end, ls[1..])
  }

  /** No address is followed by what would extend a rewritten one. */
  predicate Separated(s: string, ls: seq<Location>) {
    forall k | 0 <= k < |ls| :: ls[k].end <= |s| && Stops(s, ls[k].end)
  }

  /** The descriptors of the rewritten text, where the text from `i` now stands at `j`. */
  function Moved(i: nat, j: nat, ls: seq<Location>, ds: seq<nat>): seq<Location>
    requires |ds| == |ls| && (ls != [] ==> i <= ls[0].start)
    requires forall k | 0 < k < |ls| :: ls[k - 1].end <= ls[k].start
    decreases ls
  {
    if ls == [] then []
    else
      var a := ls[0].start - i + j;
      var t := a + |Print(ds[0])|;
      [Location(a, t, ls[0].size, ds[0])] + Moved(ls[0].end, t, ls[1..], ds[1..])
  }

  lemma {:induction false} PlacedOrder(s: string, i: nat, ls: seq<Location>)
    requires Placed(s, i, ls)
    ensures forall k | 0 < k < |ls| :: ls[k - 1].end <= ls[k].start
    ensures forall k | 0 <= k < |ls| :: i < ls[k].start < ls[k].end <= |s| && ls[k].size < SIZE && ls[k].addr < SIZE
    decreases ls
  {
    if ls != [] {
      var rest := ls[1..];
      PlacedOrder(s, ls[0].end, rest);
      forall k | 0 < k < |ls| ensures ls[k - 1].end <= ls[k].start && ls[k] == rest[k - 1] {
        if k > 1 {
          assert ls[k - 1] == rest[k - 2];
        }
      }
    }
  }

  // ---------------------------------------------------------------- text that stands elsewhere

  /** `w` characters of `s` from `i` stand at `j` in `t`. */
  predicate Window(s: string, i: nat, t: string, j: nat, w: nat) {
    i + w <= |s| && j + w <= |t| && s[i..i + w] == t[j..j + w]
  }

  lemma WindowAt(s: string, i: nat, t: string, j: nat, w: nat, k: nat)
    requires Window(s, i, t, j, w) && k <= w
    ensures Window(s, i + k, t, j + k, w - k) && Window(s, i, t, j, k) && (k < w ==> s[i + k] == t[j + k])
  {
    assert s[i + k..i + w] == s[i..i + w][k..] && t[j + k..j + w] == t[j..j + w][k..];
    assert s[i..i + k] == s[i..i + w][..k] && t[j..j + k] == t[j..j + w][..k];
    if k < w {
      assert s[i + k] == s[i..i + w][k] && t[j + k] == t[j..j + w][k];
    }
  }

  lemma StartsAt(s: string, i: nat, t: string, j: nat, w: nat, u: string)
    requires Window(s, i, t, j, w) && |u| <= w
    ensures Starts(s, i, u) <==> Starts(t, j, u)
  {
    WindowAt(s, i, t, j, w, |u|);
  }

  lemma {:induction false} FindAt(s: string, i: nat, t: string, j: nat, w: nat)
    requires Window(s, i, t, j, w) && Find(s, i) + |PREFIX| <= i + w
    ensures Find(t, j) == Find(s, i) - i + j
    decreases w
  {
    StartsAt(s, i, t, j, w, PREFIX);
    if !Starts(s, i, PREFIX) && i < |s| {
      WindowAt(s, i, t, j, w, 1);
      FindAt(s, i + 1, t, j + 1, w - 1);
    }
  }

  lemma NextStep(s: string, i: nat, p: nat)
    requires i <= |s| && p == Find(s, i)
    ensures p == |s| ==> Next(s, i) == None
    ensures p < |s| ==> p + 10 <= |s| && |PREFIX| == 10
    ensures p < |s| && p + 10 < |s| && IsDigit(s[p + 10], 10) ==> Next(s, i) == Some(p + 10)
    ensures p < |s| && !(p + 10 < |s| && IsDigit(s[p + 10], 10)) ==> Next(s, i) == Next(s, p + 10)
  {
    hide IsDigit;
  }

  lemma {:induction false} NextAt(s: string, i: nat, t: string, j: nat, w: nat)
    requires Window(s, i, t, j, w) && Next(s, i).Some? && Next(s, i).value < i + w
    ensures Next(t, j) == Some(Next(s, i).value - i + j)
    decreases w
  {
    hide Find, Next, Starts, IsDigit;
    var p := Find(s, i);
    NextStep(s, i, p);
    FindAt(s, i, t, j, w);
    NextStep(t, j, p - i + j);
    WindowAt(s, i, t, j, w, p + 10 - i);
    if !IsDigit(s[p + 10], 10) {
      NextAt(s, p + 10, t, p + 10 - i + j, w - (p + 10 - i));
    }
  }

  /** The same rest of the text has no more descriptors wherever it stands. */
  lemma {:induction false} FindEnd(s: string, i: nat, t: string, j: nat)
    requires i <= |s| && j <= |t| && s[i..] == t[j..]
    ensures Find(t, j) - j == Find(s, i) - i
    decreases |s| - i
  {
    assert |s| - i == |t| - j;
    if i < |s| {
      SuffixStarts(s, i, t, j, PREFIX);
      assert s[i + 1..] == s[i..][1..] && t[j + 1..] == t[j..][1..];
      FindEnd(s, i + 1, t, j + 1);
    }
  }

  lemma SuffixStarts(s: string, i: nat, t: string, j: nat, u: string)
    requires i <= |s| && j <= |t| && s[i..] == t[j..]
    ensures Starts(s, i, u) <==> Starts(t, j, u)
  {
    assert |s| - i == |s[i..]| == |t| - j;
    if i + |u| <= |s| {
      assert s[i..i + |u|] == s[i..][..|u|] && t[j..j + |u|] == t[j..][..|u|];
    }
  }

  lemma SuffixAt(s: string, i: nat, t: string, j: nat, k: nat)
    requires i <= |s| && j <= |t| && s[i..] == t[j..] && i + k <= |s|
    ensures |s| - i == |t| - j && s[i + k..] == t[j + k..] && (i + k < |s| ==> s[i + k] == t[j + k])
  {
    assert |s| - i == |s[i..]| == |t| - j;
    assert s[i + k..] == s[i..][k..] && t[j + k..] == t[j..][k..];
    if i + k < |s| {
      assert s[i + k] == s[i..][k] && t[j + k] == t[j..][k];
    }
  }

  lemma {:induction false} NextEnd(s: string, i: nat, t: string, j: nat)
    requires i <= |s| && j <= |t| && s[i..] == t[j..] && Next(s, i).None?
    ensures Next(t, j).None?
    decreases |s| - i
  {
    hide Find, Next, Starts, IsDigit;
    var p := Find(s, i);
    SuffixAt(s, i, t, j, 0);
    FindEnd(s, i, t, j);
    NextStep(s, i, p);
    NextStep(t, j, p - i + j);
    if p < |s| {
      var k := p + 10 - i;
      SuffixAt(s, i, t, j, k);
      NextEnd(s, i + k, t, j + k);
    }
  }

  // ---------------------------------------------------------------- scanning what was rewritten

  lemma RewriteHead(s: string, i: nat, ls: seq<Location>, ds: seq<nat>)
    requires Placed(s, i, ls) && |ds| == |ls|
    ensures Heads(s, i, Rewrite(s, i, ls, ds))
  {
    hide Print;
  }

  /** A rewritten address starts like an address. */
  lemma PrintStart(v: nat)
    ensures IsDigit(Print(v)[0], 10) || Print(v)[0] == '-'
  {
  }

  lemma DescribeParts(s: string, q: nat, l: Location)
    requires q < |s| && IsDigit(s[q], 10) && Describe(s, q) == Some(l)
    ensures |BYTES_AT| == 10
    ensures var e := Run(s, q, 10);
      q < e < |s| && e + 10 == l.start && Starts(s, e, BYTES_AT) && l.size == Value(s[q..e], 10) < SIZE
  {
  }

  lemma DescribeFrom(s: string, q: nat, size: nat, v: nat, e: nat, t: nat)
    requires q < e <= |s| && e == Run(s, q, 10) && Starts(s, e, BYTES_AT) && |BYTES_AT| == 10
    requires size == Value(s[q..e], 10) < SIZE
    requires e + 10 < |s| && (IsDigit(s[e + 10], 10) || s[e + 10] == '-') && ReadAddress(s, e + 10) == Number(v, t)
    ensures Describe(s, q) == Some(Location(e + 10, t, size, v))
  {
    hide Run, Value, Starts, IsDigit, ReadAddress;
  }

  /** A descriptor whose address was replaced reads as the same byte count with the new address. */
  lemma DescribeAt(s: string, q: nat, l: Location, t: string, p: nat, v: nat)
    requires q < |s| && IsDigit(s[q], 10) && Describe(s, q) == Some(l) && v < SIZE
    requires Window(s, q, t, p, l.start - q)
    requires var a := p + (l.start - q); var e := a + |Print(v)|;
      e <= |t| && t[a..e] == Print(v) && Stops(t, e)
    ensures var a := p + (l.start - q); Describe(t, p) == Some(Location(a, a + |Print(v)|, l.size, v))
  {
    hide Run, Value, IsDigit, ReadAddress, Print, Stops, Describe;
    DescribeParts(s, q, l);
    var e := Run(s, q, 10);
    var w := l.start - q;
    var f, a := p + (e - q), p + w;
    WindowAt(s, q, t, p, w, e - q);
    StartsAt(s, e, t, f, 10, BYTES_AT);
    assert t[p..f] == s[q..e];
    RunTo(t, p, f, 10);
    PrintStart(v);
    assert t[a] == t[a..a + |Print(v)|][0] == Print(v)[0];
    PrintedReadsBack(t, a, v);
    DescribeFrom(t, p, l.size, v, f, a + |Print(v)|);
  }

  lemma ScanStep(s: string, i: nat)
    requires i <= |s|
    ensures Next(s, i).None? ==> Scan(s, i) == Some([])
    ensures Next(s, i).Some? && Describe(s, Next(s, i).value).None? ==> Scan(s, i) == None
    ensures Next(s, i).Some? && Describe(s, Next(s, i).value).Some? ==>
      var l := Describe(s, Next(s, i).value).value;
      match Scan(s, l.end) case None => Scan(s, i) == None case Some(ls) => Scan(s, i) == Some([l] + ls)
  {
    hide Next, Describe, Placed;
  }

  /** The place where rewriting puts the text before the first address, that address and the rest. */
  lemma RewriteParts(s: string, i: nat, ls: seq<Location>, ds: seq<nat>, t: string, j: nat)
    requires Placed(s, i, ls) && |ds| == |ls| && ls != [] && j <= |t| && t[j..] == Rewrite(s, i, ls, ds)
    ensures Window(s, i, t, j, ls[0].start - i)
    ensures var a := j + (ls[0].start - i); var e := a + |Print(ds[0])|;
      e <= |t| && t[a..e] == Print(ds[0]) && t[e..] == Rewrite(s, ls[0].end, ls[1..], ds[1..])
  {
    hide Rewrite, Print, Placed;
    RewriteUnfold(s, i, ls, ds);
    PlacedFirst(s, i, ls);
    var head, p, rest := s[i..ls[0].start], Print(ds[0]), Rewrite(s, ls[0].end, ls[1..], ds[1..]);
    Parts(t, j, head, p, rest);
  }

  lemma PlacedFirst(s: string, i: nat, ls: seq<Location>)
    requires Placed(s, i, ls) && ls != []
    ensures i + |PREFIX| < ls[0].start < ls[0].end <= |s| && Placed(s, ls[0].end, ls[1..])
  {
  }

  lemma Parts(t: string, j: nat, x: string, y: string, z: string)
    requires j <= |t| && t[j..] == x + y + z
    ensures j + |x| + |y| <= |t| && t[j..j + |x|] == x && t[j + |x|..j + |x| + |y|] == y && t[j + |x| + |y|..] == z
  {
    var r := t[j..];
    assert |r| == |t| - j;
    assert t[j..j + |x|] == r[..|x|];
    assert t[j + |x|..j + |x| + |y|] == r[|x|..|x| + |y|];
    assert t[j + |x| + |y|..] == r[|x| + |y|..];
  }

  lemma RewriteUnfold(s: string, i: nat, ls: seq<Location>, ds: seq<nat>)
    requires Placed(s, i, ls) && |ds| == |ls| && ls != []
    ensures Rewrite(s, i, ls, ds) == s[i..ls[0].start] + Print(ds[0]) + Rewrite(s, ls[0].end, ls[1..], ds[1..])
  {
  }

  lemma MovedStep(i: nat, j: nat, l: Location, ls: seq<Location>, ds: seq<nat>)
    requires |ds| == |ls| + 1 && i <= l.start <= l.end
    requires forall k | 0 < k < |ls| :: ls[k - 1].end <= ls[k].start
    requires ls != [] ==> l.end <= ls[0].start
    ensures forall k | 0 < k < |[l] + ls| :: ([l] + ls)[k - 1].end <= ([l] + ls)[k].start
    ensures var a := l.start - i + j; var t := a + |Print(ds[0])|;
      Moved(i, j, [l] + ls, ds) == [Location(a, t, l.size, ds[0])] + Moved(l.end, t, ls, ds[1..])
  {
    var all := [l] + ls;
    assert all[1..] == ls;
    forall k | 0 < k < |all| ensures all[k - 1].end <= all[k].start {
      if k > 1 {
        assert all[k - 1] == ls[k - 2] && all[k] == ls[k - 1];
      }
    }
  }

  /** Scanning rewritten text finds the moved descriptors, and nothing else. */
  lemma {:induction false} Rescan(s: string, i: nat, ls: seq<Location>, ds: seq<nat>, t: string, j: nat)
    requires i <= |s| && Scan(s, i) == Some(ls) && |ds| == |ls| && (forall k | 0 <= k < |ds| :: ds[k] < SIZE)
    requires Separated(s, ls) && j <= |t| && t[j..] == Rewrite(s, i, ls, ds)
    ensures forall k | 0 < k < |ls| :: ls[k - 1].end <= ls[k].start
    ensures ls != [] ==> i <= ls[0].start
    ensures Scan(t, j) == Some(Moved(i, j, ls, ds))
    decreases |ls|
  {
    hide Next, Describe, Print, Stops, Moved, Window, Scan, Rewrite;
    PlacedOrder(s, i, ls);
    ScanStep(s, i);
    ScanStep(t, j);
    if ls == [] {
      RewriteNone(s, i);
      MovedNone(i, j);
      NextEnd(s, i, t, j);
    } else {
      var q := Next(s, i).value;
      var l := Describe(s, q).value;
      var rest := Scan(s, l.end).value;
      assert ls[1..] == rest && ls[0] == l;
      RewriteParts(s, i, ls, ds, t, j);
      var w := l.start - i;
      var a := j + w;
      var e := a + |Print(ds[0])|;
      NextAt(s, i, t, j, w);
      WindowAt(s, i, t, j, w, q - i);
      RewriteHead(s, l.end, rest, ds[1..]);
      StopsAfter(s, ls, t, l.end, e, Rewrite(s, l.end, rest, ds[1..]));
      DescribeAt(s, q, l, t, q - i + j, ds[0]);
      SeparatedTail(s, ls);
      Rescan(s, l.end, rest, ds[1..], t, e);
      MovedStep(i, j, l, rest, ds);
      assert [l] + rest == ls;
    }
  }

  lemma RewriteNone(s: string, i: nat)
    requires i <= |s|
    ensures Rewrite(s, i, [], []) == s[i..]
  {
  }

  lemma MovedNone(i: nat, j: nat)
    ensures Moved(i, j, [], []) == []
  {
  }

  lemma SeparatedTail(s: string, ls: seq<Location>)
    requires Separated(s, ls) && ls != []
    ensures Separated(s, ls[1..])
  {
  }

  lemma StopsAfter(s: string, ls: seq<Location>, t: string, i: nat, e: nat, r: string)
    requires Separated(s, ls) && ls != [] && i == ls[0].end && e <= |t| && t[e..] == r && Heads(s, i, r)
    ensures Stops(t, e)
  {
    assert Stops(s, i);
    HeadsAt(s, i, t, e);
  }

  /** `r` starts with the two characters of `s` at `i`, as far as there are any. */
  predicate Heads(s: string, i: nat, r: string) {
    i <= |s| &&
    if i == |s| then r == ""
    else r != "" && r[0] == s[i] && if i + 1 == |s| then |r| == 1 else |r| > 1 && r[1] == s[i + 1]
  }

  lemma HeadsAt(s: string, i: nat, t: string, e: nat)
    requires e <= |t| && Heads(s, i, t[e..])
    ensures Stops(s, i) <==> Stops(t, e)
  {
    hide IsDigit;
    assert |t[e..]| == |t| - e;
    if e < |t| {
      assert t[e] == t[e..][0];
      if e + 1 < |t| {
        assert t[e + 1] == t[e..][1];
      }
    }
  }

  // ---------------------------------------------------------------- exactly when rewriting can be scanned again

  lemma DescribeReads(s: string, q: nat)
    requires q < |s|
    ensures var d := Describe(s, q);
      d.Some? ==> d.value.start < |s| && ReadAddress(s, d.value.start) == Number(d.value.addr, d.value.end)
  {
    hide Run, Value, Starts, IsDigit, ReadAddress;
  }

  /** Every scanned address was read where it stands. */
  lemma {:induction false} ScanReads(s: string, i: nat, ls: seq<Location>)
    requires i <= |s| && Scan(s, i) == Some(ls)
    ensures forall k | 0 <= k < |ls| ::
      ls[k].start < |s| && ReadAddress(s, ls[k].start) == Number(ls[k].addr, ls[k].end)
    decreases |ls|
  {
    hide Next, Describe, Scan, ReadAddress;
    ScanStep(s, i);
    if ls != [] {
      var q := Next(s, i).value;
      DescribeReads(s, q);
      var l := Describe(s, q).value;
      var rest := Scan(s, l.end).value;
      ScanReads(s, l.end, rest);
      assert forall k | 0 < k < |ls| :: ls[k] == rest[k - 1];
    }
  }

  /** Where the moved addresses stand, and what follows each. */
  lemma {:induction false} MovedAt(s: string, i: nat, ls: seq<Location>, ds: seq<nat>, t: string, j: nat)
    requires Placed(s, i, ls) && |ds| == |ls| && j <= |t| && t[j..] == Rewrite(s, i, ls, ds)
    ensures forall k | 0 < k < |ls| :: ls[k - 1].end <= ls[k].start
    ensures ls != [] ==> i <= ls[0].start
    ensures var ms := Moved(i, j, ls, ds);
      |ms| == |ls| && forall k | 0 <= k < |ls| :: ShowsAt(s, ls[k].end, t, ms[k], ds[k])
    decreases ls
  {
    hide Rewrite, Print, Placed, Moved, ShowsAt;
    PlacedOrder(s, i, ls);
    if ls == [] {
      MovedNone(i, j);
    } else {
      var l, rest, more := ls[0], ls[1..], ds[1..];
      assert ls == [l] + rest;
      PlacedFirst(s, i, ls);
      RewriteParts(s, i, ls, ds, t, j);
      var a := j + (l.start - i);
      var e := a + |Print(ds[0])|;
      RewriteHead(s, l.end, rest, more);
      MovedAt(s, l.end, rest, more, t, e);
      MovedStep(i, j, l, rest, ds);
      ShownHere(s, l.end, t, Location(a, e, l.size, ds[0]), ds[0]);
      assert forall k | 0 < k < |ls| :: ls[k] == rest[k - 1] && ds[k] == more[k - 1];
    }
  }

  /** Address `v` is printed at `m`, and what followed the original follows it. */
  predicate ShowsAt(s: string, end: nat, t: string, m: Location, v: nat) {
    m.addr == v && m.start <= m.end == m.start + |Print(v)| <= |t| && t[m.start..m.end] == Print(v)
      && Heads(s, end, t[m.end..])
  }

  lemma ShownHere(s: string, end: nat, t: string, m: Location, v: nat)
    requires m.addr == v && m.end == m.start + |Print(v)| <= |t| && t[m.start..m.end] == Print(v)
      && Heads(s, end, t[m.end..])
    ensures ShowsAt(s, end, t, m, v)
  {
  }

  const SIXTEEN := "0x10"

  /** Reading back 16 and 0 unchanged rules out every character that could extend an address. */
  lemma ReadsTell(s: string, end: nat, t: string, m: Location, u: string, n: Location)
    requires ShowsAt(s, end, t, m, 16) && m.start < |t| && ReadAddress(t, m.start) == Number(16, m.end)
    requires ShowsAt(s, end, u, n, 0) && n.start < |u| && ReadAddress(u, n.start) == Number(0, n.end)
    ensures Stops(s, end)
  {
    SixteenEnds(t, m.start);
    ZeroEnds(u, n.start);
    assert |Print(16)| == 4 && |Print(0)| == 1 by { PrintedSixteen(); }
    HeadOne(s, end, t, m.end);
    HeadOne(s, end, u, n.end);
  }

  lemma PrintedSixteen()
    ensures Print(16) == SIXTEEN && Print(0) == "0"
  {
    assert Digits(16, 16) == "10";
  }

  lemma SixteenEnds(t: string, a: nat)
    requires a + 4 <= |t| && t[a..a + 4] == Print(16) && ReadAddress(t, a) == Number(16, a + 4)
    ensures a + 4 < |t| ==> !IsDigit(t[a + 4], 16)
  {
    PrintedSixteen();
    hide Value, Run;
    assert t[a] == t[a..a + 4][0] && t[a + 1] == t[a..a + 4][1] && t[a + 2] == t[a..a + 4][2];
    assert HexPrefixed(t, a);
  }

  lemma ZeroEnds(t: string, a: nat)
    requires a + 1 <= |t| && t[a..a + 1] == Print(0) && ReadAddress(t, a) == Number(0, a + 1)
    ensures a + 2 < |t| ==> !(t[a + 1] in "xX" && IsDigit(t[a + 2], 16))
  {
    PrintedSixteen();
    hide Value;
    assert t[a] == t[a..a + 1][0];
    assert HexPrefixed(t, a) <==> a + 2 < |t| && t[a + 1] in "xX" && IsDigit(t[a + 2], 16);
  }

  lemma HeadOne(s: string, i: nat, t: string, e: nat)
    requires e <= |t| && Heads(s, i, t[e..])
    ensures i < |s| <==> e < |t|
    ensures i < |s| ==> s[i] == t[e] && (i + 1 < |s| <==> e + 1 < |t|)
    ensures i + 1 < |s| ==> s[i + 1] == t[e + 1]
  {
    assert |t[e..]| == |t| - e;
    if e < |t| {
      assert t[e] == t[e..][0];
      if e + 1 < |t| {
        assert t[e + 1] == t[e..][1];
      }
    }
  }

  function Repeat(v: nat, n: nat): (ds: seq<nat>)
    ensures |ds| == n && forall k | 0 <= k < n :: ds[k] == v
  {
    seq(n, k => v)
  }

  /** Rewriting with any addresses scans back to exactly the moved descriptors. */
  ghost predicate RescansAlways(s: string, ls: seq<Location>)
    requires Placed(s, 0, ls)
    requires forall k | 0 < k < |ls| :: ls[k - 1].end <= ls[k].start
  {
    forall ds: seq<nat> | |ds| == |ls| && (forall k | 0 <= k < |ds| :: ds[k] < SIZE) ::
      Scan(Rewrite(s, 0, ls, ds), 0) == Some(Moved(0, 0, ls, ds))
  }

  /**
   Rewriting and scanning are inverse for all addresses exactly when no address is followed by what could extend one.
   */
  lemma RescanExactly(s: string, ls: seq<Location>)
    requires Scan(s, 0) == Some(ls)
    ensures Placed(s, 0, ls) && forall k | 0 < k < |ls| :: ls[k - 1].end <= ls[k].start
    ensures Separated(s, ls) <==> RescansAlways(s, ls)
  {
    PlacedOrder(s, 0, ls);
    if Separated(s, ls) {
      forall ds: seq<nat> | |ds| == |ls| && (forall k | 0 <= k < |ds| :: ds[k] < SIZE)
        ensures Scan(Rewrite(s, 0, ls, ds), 0) == Some(Moved(0, 0, ls, ds))
      {
        var t := Rewrite(s, 0, ls, ds);
        assert t[0..] == t;
        Rescan(s, 0, ls, ds, t, 0);
      }
    }
    if RescansAlways(s, ls) {
      RescanTells(s, ls);
    }
  }

  lemma RescanTells(s: string, ls: seq<Location>)
    requires Placed(s, 0, ls) && forall k | 0 < k < |ls| :: ls[k - 1].end <= ls[k].start
    requires RescansAlways(s, ls)
    ensures Separated(s, ls)
  {
    hide Scan, Rewrite, Moved, ShowsAt, Stops, Placed, ReadAddress, Print;
    PlacedOrder(s, 0, ls);
    var xs, zs := Repeat(16, |ls|), Repeat(0, |ls|);
    var t, u := Rewrite(s, 0, ls, xs), Rewrite(s, 0, ls, zs);
    assert t[0..] == t && u[0..] == u;
    MovedAt(s, 0, ls, xs, t, 0);
    MovedAt(s, 0, ls, zs, u, 0);
    var ms, ns := Moved(0, 0, ls, xs), Moved(0, 0, ls, zs);
    assert Scan(t, 0) == Some(ms) && Scan(u, 0) == Some(ns);
    ScanReads(t, 0, ms);
    ScanReads(u, 0, ns);
    forall k | 0 <= k < |ls| ensures ls[k].end <= |s| && Stops(s, ls[k].end) {
      ShownAddress(s, ls[k].end, t, ms[k], 16);
      ShownAddress(s, ls[k].end, u, ns[k], 0);
      ReadsTell(s, ls[k].end, t, ms[k], u, ns[k]);
    }
  }

  lemma ShownAddress(s: string, end: nat, t: string, m: Location, v: nat)
    requires ShowsAt(s, end, t, m, v)
    ensures m.addr == v
  {
  }

  // ---------------------------------------------------------------- an address without a separator

  const GLUED := "location: 1 bytes at 5f"
  const GLUED_AFTER := "location: 1 bytes at 0x10f"

  lemma OneDescriptor(s: string, e: nat, v: nat)
    requires 22 <= e <= |s| && s[..10] == PREFIX && s[10] == '1' && s[11..21] == BYTES_AT && IsDigit(s[21], 10)
    requires ReadAddress(s, 21) == Number(v, e) && |s| < e + 10 && v < SIZE
    ensures Scan(s, 0) == Some([Location(21, e, 1, v)])
  {
    hide ReadAddress, Find, Next, Starts, Run, Value, Scan, Describe, IsDigit;
    StartsHere(s);
    NextStep(s, 0, 0);
    CountIsOne(s);
    DescribeFrom(s, 10, 1, v, 11, e);
    ScanStep(s, 0);
    Short(s, e);
    assert [Location(21, e, 1, v)] + [] == [Location(21, e, 1, v)];
  }

  lemma StartsHere(s: string)
    requires 22 <= |s| && s[..10] == PREFIX && s[10] == '1' && s[11..21] == BYTES_AT
    ensures Find(s, 0) == 0 && |PREFIX| == |BYTES_AT| == 10 && Starts(s, 11, BYTES_AT) && IsDigit(s[10], 10)
  {
    assert s[0..10] == PREFIX;
  }

  lemma CountIsOne(s: string)
    requires 22 <= |s| && s[10] == '1' && s[11..21] == BYTES_AT
    ensures Run(s, 10, 10) == 11 && AllDigits(s[10..11], 10) && Value(s[10..11], 10) == 1
  {
    assert s[11] == s[11..21][0] == ' ';
    AppendDigit("", '1', 10);
    assert "" + ['1'] == s[10..11];
    hide Run, Value;
    RunTo(s, 10, 11, 10);
  }

  lemma {:induction false} Short(s: string, i: nat)
    requires i <= |s| < i + 10
    ensures Scan(s, i) == Some([])
    decreases |s| - i
  {
    NoneLeft(s, i);
  }

  lemma {:induction false} NoneLeft(s: string, i: nat)
    requires i <= |s| < i + 10
    ensures Find(s, i) == |s|
    decreases |s| - i
  {
    if i < |s| { NoneLeft(s, i + 1); }
  }

  lemma ReadsFive()
    ensures ReadAddress(GLUED, 21) == Number(5, 22)
  {
    AppendDigit("", '5', 10);
    assert "" + ['5'] == GLUED[21..22];
    hide Run, Value;
    RunTo(GLUED, 21, 22, 10);
  }

  lemma ReadsGlued()
    ensures ReadAddress(GLUED_AFTER, 21) == Number(0x10F, 26)
  {
    var t := GLUED_AFTER[23..26];
    AppendDigit("", '1', 16);
    AppendDigit("" + ['1'], '0', 16);
    AppendDigit("" + ['1'] + ['0'], 'f', 16);
    assert "" + ['1'] + ['0'] + ['f'] == t;
    hide Run, Value;
    RunTo(GLUED_AFTER, 23, 26, 16);
  }

  lemma RewritesGlued()
    ensures Placed(GLUED, 0, [Location(21, 22, 1, 5)])
      && Rewrite(GLUED, 0, [Location(21, 22, 1, 5)], [16]) == GLUED_AFTER
    ensures !Separated(GLUED, [Location(21, 22, 1, 5)])
  {
    var l := Location(21, 22, 1, 5);
    assert [l][1..] == [] && [16][1..] == [];
    assert Digits(16, 16) == "10";
    assert [l][0] == l;
  }

  lemma GluedForm()
    ensures GLUED[..10] == PREFIX && GLUED[11..21] == BYTES_AT && IsDigit(GLUED[21], 10) && GLUED[10] == '1'
      && |GLUED| == 23
    ensures GLUED_AFTER[..10] == PREFIX && GLUED_AFTER[11..21] == BYTES_AT && IsDigit(GLUED_AFTER[21], 10)
    ensures GLUED_AFTER[10] == '1' && |GLUED_AFTER| == 26
  {
  }

  /** An address glued to a letter: the rewritten address runs into it, and reads as another one. */
  lemma GluedAddressChanges()
    ensures var l := Location(21, 22, 1, 5);
      && Scan(GLUED, 0) == Some([l]) && !Separated(GLUED, [l]) && Placed(GLUED, 0, [l])
      && Scan(Rewrite(GLUED, 0, [l], [16]), 0) == Some([Location(21, 26, 1, 0x10F)])
  {
    hide ReadAddress, Scan, Rewrite, Placed, Separated, IsDigit;
    GluedForm();
    ReadsFive();
    OneDescriptor(GLUED, 22, 5);
    ReadsGlued();
    OneDescriptor(GLUED_AFTER, 26, 0x10F);
    RewritesGlued();
  }
}
