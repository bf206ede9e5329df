/**
 The conversion loops over buffers: a first pass measures the result, a second one prints character after character,
 each with a terminator behind it. Every write, the intermediate terminators included, stays inside the buffer.
 */
module UtfBuffers {
  import opened Utf

  predicate Scalars(s: seq<nat>) { forall i | 0 <= i < |s| :: Scalar(s[i]) }

  lemma Text8First(s: seq<nat>, rest: seq<Byte>)
    requires Scalars(s) && s != []
    ensures Scalar(s[0]) && Scalars(s[1..])
    ensures var t := Text8(s) + rest; var n := |Print8(s[0])|;
      t != [] && Char8(t) == s[0] && Size8(t) == n && n <= |t| && t[n..] == Text8(s[1..]) + rest
  {
    hide Char8, Size8, Print8;
    assert Scalar(s[0]);
    var tail := Text8(s[1..]) + rest;
    assert Text8(s) + rest == Print8(s[0]) + tail;
    Print8Reads(s[0], tail);
  }

  lemma Text16First(s: seq<nat>, rest: seq<Unit>)
    requires Scalars(s) && s != []
    ensures Scalar(s[0]) && Scalars(s[1..])
    ensures var u := Text16(s) + rest; var n := |Print16(s[0])|;
      u != [] && Char16(u) == s[0] && Size16(u) == n && n <= |u| && u[n..] == Text16(s[1..]) + rest
  {
    hide Char16, Size16, Print16;
    assert Scalar(s[0]);
    var tail := Text16(s[1..]) + rest;
    assert Text16(s) + rest == Print16(s[0]) + tail;
    Print16Reads(s[0], tail);
  }

  lemma EndFirst(junk: seq<Byte>, more: seq<Unit>)
    ensures var t: seq<Byte> := [0] + junk; Char8(t) == 0 && Size8(t) == 1
    ensures var u: seq<Unit> := [0] + more; Char16(u) == 0 && Size16(u) == 1
    ensures Print8(0) == [0] && Print16(0) == [0]
  {
  }

  lemma Sizes(c: nat)
    requires c < 0x11_0000
    ensures Units(c) == |Print16(c)| && ByteCount(c) == |Print8(c)|
  {
  }

  lemma Join(s: seq<nat>, done: nat)
    requires Scalars(s) && done < |s|
    ensures Scalars(s[..done]) && Scalars(s[..done + 1]) && Scalar(s[done])
    ensures Text8(s[..done + 1]) == Text8(s[..done]) + Print8(s[done])
    ensures Text16(s[..done + 1]) == Text16(s[..done]) + Print16(s[done])
    decreases s
  {
    hide Print8, Print16;
    if done == 0 {
      assert s[..1] == [s[0]] && s[..0] == [] && [s[0]][1..] == [];
      assert Scalar(s[0]) && Scalars([s[0]]);
    } else {
      Join(s[1..], done - 1);
      assert s[..done + 1][1..] == s[1..][..done] && s[..done][1..] == s[1..][..done - 1];
      assert Scalars(s[..done + 1]) && Scalars(s[..done]);
      assert Text8(s[..done + 1]) == Print8(s[0]) + Text8(s[1..][..done]);
      assert Text16(s[..done + 1]) == Print16(s[0]) + Text16(s[1..][..done]);
    }
  }

  // ---------------------------------------------------------------- UTF-8 to UTF-16

  /** Prints a character at `j`, with a terminator behind it. */
  method Sprint16(a: array<Unit>, j: nat, c: nat)
    requires c < 0x11_0000 && j + |Print16(c)| + (if c > 0 then 1 else 0) <= a.Length
    modifies a
    ensures a[..j] == old(a[..j]) && a[j..j + |Print16(c)|] == Print16(c)
    ensures c > 0 ==> a[j + |Print16(c)|] == 0
  {
    if c < 0x1_0000 {
      a[j] := c;
      if c > 0 {
        a[j + 1] := 0;
      }
    } else {
      a[j] := (c - 0x1_0000) / 1024 + 0xD800;
      a[j + 1] := c % 1024 + 0xDC00;
      a[j + 2] := 0;
    }
  }

  /** The number of units that the text takes. */
  method Length16(t: seq<Byte>, ghost s: seq<nat>, ghost junk: seq<Byte>) returns (count: nat)
    requires Scalars(s) && t == Text8(s) + [0] + junk
    ensures count == |Text16(s)|
  {
    hide Char8, Size8, Print8, Print16, Text8, Text16;
    var i: nat := 0;
    count := 0;
    ghost var left := s;
    Whole(s, junk, []);
    while t[i] != 0
      invariant i < |t| && Scalars(left) && t[i..] == Text8(left) + ([0] + junk)
      invariant count + |Text16(left)| == |Text16(s)|
      decreases |left|
    {
      if left == [] {
        NothingLeft(t, i, junk);
        assert false;
      }
      Text8First(left, [0] + junk);
      var c, n := Char8(t[i..]), Size8(t[i..]);
      Sizes(c);
      Text16First(left, []);
      assert Text16(left) + [] == Text16(left) && Text16(left[1..]) + [] == Text16(left[1..]);
      count := count + Units(c);
      assert t[i + n..] == t[i..][n..];
      i := i + n;
      left := left[1..];
    }
    if left != [] {
      NotZero(left, junk, t, i);
      assert false;
    }
    Empty();
  }

  lemma Whole(s: seq<nat>, junk: seq<Byte>, more: seq<Unit>)
    requires Scalars(s)
    ensures (Text8(s) + [0] + junk)[0..] == Text8(s) + ([0] + junk)
    ensures (Text16(s) + [0] + more)[0..] == Text16(s) + ([0] + more)
  {
    hide Text8, Text16;
  }

  lemma Empty()
    ensures Text8([]) == [] && Text16([]) == []
  {
  }

  lemma NothingLeft(t: seq<Byte>, i: nat, junk: seq<Byte>)
    requires i < |t| && t[i..] == Text8([]) + ([0] + junk)
    ensures t[i] == 0
  {
    assert t[i] == t[i..][0];
  }

  lemma NotZero(s: seq<nat>, junk: seq<Byte>, t: seq<Byte>, i: nat)
    requires Scalars(s) && s != [] && i < |t| && t[i..] == Text8(s) + ([0] + junk)
    ensures t[i] != 0
  {
    assert t[i] == t[i..][0];
    assert Scalar(s[0]);
    assert Text8(s)[0] == Print8(s[0])[0];
  }

  /** Converts valid text into a fresh buffer that fits exactly. */
  method Utf8ToUtf16(t: seq<Byte>, ghost text: seq<Byte>, ghost junk: seq<Byte>) returns (a: array<Unit>)
    requires Valid8(text) && t == text + [0] + junk
    ensures fresh(a) && a[..] == To16(t)
  {
    hide Char8, Size8, Print8, Print16, Text8, Text16, To16, Valid8, Characters8;
    ghost var s := Characters8(text);
    Valid8Text(text);
    To16Text(s, junk);
    var count := Length16(t, s, junk);
    a := new Unit[count + 1](_ => 0);
    var i: nat, j: nat, c: nat := 0, 0, 1;
    ghost var done := 0;
    Whole(s, junk, []);
    Empty();
    assert s[..0] == [] && s[0..] == s;
    while c != 0
      invariant done <= |s| && Scalars(s[..done]) && Scalars(s[done..])
      invariant c != 0 ==> i < |t| && t[i..] == Text8(s[done..]) + ([0] + junk)
      invariant j <= a.Length && |Text16(s[..done])| + |Text16(s[done..])| == count
      invariant c != 0 ==> j == |Text16(s[..done])| && a[..j] == Text16(s[..done])
      invariant c == 0 ==> a[..] == Text16(s) + [0]
      decreases |s| - done, c
    {
      ghost var left := s[done..];
      if done == |s| {
        assert left == [] && s[..done] == s;
        assert t[i..] == [0] + junk;
        EndFirst(junk, []);
      } else {
        Text8First(left, [0] + junk);
        Text16First(left, []);
        assert Text16(left) + [] == Text16(left) && Text16(left[1..]) + [] == Text16(left[1..]);
        Join(s, done);
        assert left[1..] == s[done + 1..] && left[0] == s[done];
        ScalarFacts(left[0]);
      }
      ghost var rest := t[i..];
      var n := Size8(t[i..]);
      c := Char8(t[i..]);
      Sizes(c);
      Sprint16(a, j, c);
      ghost var was := j;
      assert a[..was + |Print16(c)|] == a[..was] + a[was..was + |Print16(c)|];
      j := j + Units(c);
      i := i + n;
      if c != 0 {
        done := done + 1;
        assert rest[n..] == t[i..];
      } else {
        assert a[..] == a[..j];
      }
    }
  }

  // ---------------------------------------------------------------- UTF-16 to UTF-8

  method Sprint8(a: array<Byte>, j: nat, c: nat)
    requires c < 0x11_0000 && j + |Print8(c)| + (if c > 0 then 1 else 0) <= a.Length
    modifies a
    ensures a[..j] == old(a[..j]) && a[j..j + |Print8(c)|] == Print8(c)
    ensures c > 0 ==> a[j + |Print8(c)|] == 0
  {
    if c < 0x80 {
      a[j] := c;
      if c > 0 {
        a[j + 1] := 0;
      }
    } else if c < 0x800 {
      a[j + 1] := c % 64 + 0x80;
      a[j] := c / 64 + 0xC0;
      a[j + 2] := 0;
    } else if c < 0x1_0000 {
      a[j + 2] := c % 64 + 0x80;
      a[j + 1] := c / 64 % 64 + 0x80;
      a[j] := c / 4096 + 0xE0;
      a[j + 3] := 0;
    } else {
      a[j + 3] := c % 64 + 0x80;
      a[j + 2] := c / 64 % 64 + 0x80;
      a[j + 1] := c / 4096 % 64 + 0x80;
      a[j] := c / 262144 + 0xF0;
      a[j + 4] := 0;
    }
  }

  lemma NothingLeft16(u: seq<Unit>, i: nat, junk: seq<Unit>)
    requires i < |u| && u[i..] == Text16([]) + ([0] + junk)
    ensures u[i] == 0
  {
    assert u[i] == u[i..][0];
  }

  lemma NotZero16(s: seq<nat>, junk: seq<Unit>, u: seq<Unit>, i: nat)
    requires Scalars(s) && s != [] && i < |u| && u[i..] == Text16(s) + ([0] + junk)
    ensures u[i] != 0
  {
    assert u[i] == u[i..][0];
    assert Scalar(s[0]);
    assert Text16(s)[0] == Print16(s[0])[0];
  }

  /** The number of bytes that the text takes. */
  method Length8(u: seq<Unit>, ghost s: seq<nat>, ghost junk: seq<Unit>) returns (count: nat)
    requires Scalars(s) && u == Text16(s) + [0] + junk
    ensures count == |Text8(s)|
  {
    hide Char16, Size16, Print8, Print16, Text8, Text16;
    var i: nat := 0;
    count := 0;
    ghost var left := s;
    Whole(s, [], junk);
    while u[i] != 0
      invariant i < |u| && Scalars(left) && u[i..] == Text16(left) + ([0] + junk)
      invariant count + |Text8(left)| == |Text8(s)|
      decreases |left|
    {
      if left == [] {
        NothingLeft16(u, i, junk);
        assert false;
      }
      Text16First(left, [0] + junk);
      var c, n := Char16(u[i..]), Size16(u[i..]);
      ScalarFacts(c);
      Sizes(c);
      Text8First(left, []);
      assert Text8(left) + [] == Text8(left) && Text8(left[1..]) + [] == Text8(left[1..]);
      count := count + ByteCount(c);
      assert u[i + n..] == u[i..][n..];
      i := i + n;
      left := left[1..];
    }
    if left != [] {
      NotZero16(left, junk, u, i);
      assert false;
    }
    Empty();
  }

  /** Converts valid text into a fresh buffer that fits exactly. */
  method Utf16ToUtf8(u: seq<Unit>, ghost text: seq<Unit>, ghost junk: seq<Unit>) returns (a: array<Byte>)
    requires Valid16(text) && u == text + [0] + junk
    ensures fresh(a) && a[..] == To8(u)
  {
    hide Char16, Size16, Print8, Print16, Text8, Text16, To8, Valid16, Characters16;
    ghost var s := Characters16(text);
    Valid16Text(text);
    To8Text(s, junk);
    var count := Length8(u, s, junk);
    a := new Byte[count + 1](_ => 0);
    var i: nat, j: nat, c: nat := 0, 0, 1;
    ghost var done := 0;
    Whole(s, [], junk);
    Empty();
    assert s[..0] == [] && s[0..] == s;
    while c != 0
      invariant done <= |s| && Scalars(s[..done]) && Scalars(s[done..])
      invariant c != 0 ==> i < |u| && u[i..] == Text16(s[done..]) + ([0] + junk)
      invariant j <= a.Length && |Text8(s[..done])| + |Text8(s[done..])| == count
      invariant c != 0 ==> j == |Text8(s[..done])| && a[..j] == Text8(s[..done])
      invariant c == 0 ==> a[..] == Text8(s) + [0]
      decreases |s| - done, c
    {
      ghost var left := s[done..];
      if done == |s| {
        assert left == [] && s[..done] == s;
        assert u[i..] == [0] + junk;
        EndFirst([], junk);
      } else {
        Text16First(left, [0] + junk);
        Text8First(left, []);
        assert Text8(left) + [] == Text8(left) && Text8(left[1..]) + [] == Text8(left[1..]);
        Join(s, done);
        assert left[1..] == s[done + 1..] && left[0] == s[done];
        ScalarFacts(left[0]);
      }
      ghost var rest := u[i..];
      var n := Size16(u[i..]);
      c := Char16(u[i..]);
      Sizes(c);
      Sprint8(a, j, c);
      ghost var was := j;
      assert a[..was + |Print8(c)|] == a[..was] + a[was..was + |Print8(c)|];
      j := j + ByteCount(c);
      i := i + n;
      if c != 0 {
        done := done + 1;
        assert rest[n..] == u[i..];
      } else {
        assert a[..] == a[..j];
      }
    }
  }
}
