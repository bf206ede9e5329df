/**
 The byte streams that numbers are written to and read from: a buffer with a read position, and the loops over it.
 */
module ByteStream {
  import opened Options
  import opened Leb128

  lemma UnsignedByte(v: nat)
    ensures Unsigned(v) == if v / 128 > 0 then [v % 128 + 128] + Unsigned(v / 128) else [v % 128]
  {
  }

  lemma SignedByte(v: int)
    ensures var more := (v / 128 != 0 || v % 128 >= 64) && (v / 128 != -1 || v % 128 < 64);
      Signed(v) == (if more then [v % 128 + 128] + Signed(v / 128) else [v % 128])
        && (more ==> Magnitude(v / 128) < Magnitude(v))
  {
  }

  class Stream {
    var buf: seq<Byte>
    var pos: nat

    ghost predicate Valid()
      reads this
    {
      pos <= |buf|
    }

    /** What is still to be read. */
    function Ahead(): seq<Byte>
      requires Valid()
      reads this
    {
      buf[pos..]
    }

    constructor (bytes: seq<Byte>)
      ensures Valid() && buf == bytes && pos == 0
    {
      buf, pos := bytes, 0;
    }

    method WriteByte(b: Byte)
      modifies `buf
      ensures buf == old(buf) + [b]
    {
      buf := buf + [b];
    }

    method WriteUnsigned(number: nat)
      modifies `buf
      ensures buf == old(buf) + Unsigned(number)
    {
      hide Unsigned;
      var v := number;
      var b: Byte := 128;
      while b >= 128
        invariant buf + (if b >= 128 then Unsigned(v) else []) == old(buf) + Unsigned(number)
        decreases b >= 128, v
      {
        UnsignedByte(v);
        ghost var before, tail := buf, Unsigned(v / 128);
        b := v % 128;
        v := v / 128;
        if v > 0 {
          b := b + 128;
        }
        WriteByte(b);
        assert before + [b] + tail == before + ([b] + tail);
      }
    }

    method WriteSigned(number: int)
      modifies `buf
      ensures buf == old(buf) + Signed(number)
    {
      hide Signed;
      var v := number;
      var b: Byte := 128;
      while b >= 128
        invariant buf + (if b >= 128 then Signed(v) else []) == old(buf) + Signed(number)
        decreases b >= 128, Magnitude(v)
      {
        SignedByte(v);
        ghost var before, tail := buf, Signed(v / 128);
        b := v % 128;
        v := v / 128;
        if (v != 0 || b >= 64) && (v != -1 || b < 64) {
          b := b + 128;
        }
        WriteByte(b);
        assert before + [b] + tail == before + ([b] + tail);
      }
    }

    /** The next byte; none at the end. */
    method ReadByte() returns (b: Option<Byte>)
      requires Valid()
      modifies `pos
      ensures Valid() && (b.None? <==> old(Ahead()) == [])
      ensures b.Some? ==> [b.value] + Ahead() == old(Ahead())
      ensures b.None? ==> pos == old(pos)
    {
      if pos == |buf| {
        return None;
      }
      b := Some(buf[pos]);
      pos := pos + 1;
    }

    /** The accumulating loop shared by all readers. */
    method ReadGroups(width: nat, limit: nat) returns (r: Read)
      requires Valid()
      modifies `pos
      ensures Valid() && r == Accumulate(old(Ahead()), width, limit, 0, 0)
      ensures r.Read? ==> r.rest == Ahead()
    {
      hide Pow2;
      var value: nat, shift: nat, more := 0, 0, true;
      var b: Byte := 128;
      ghost var all := Accumulate(Ahead(), width, limit, 0, 0);
      while more
        invariant Valid() && more && all == Accumulate(Ahead(), width, limit, shift, value)
        decreases |buf| - pos
      {
        var next := ReadByte();
        if next.None? {
          return Stopped;
        }
        b := next.value;
        if shift >= limit {
          return Stopped;
        }
        if shift >= width {
          return Undefined;
        }
        value := (value + b % 128 * Pow2(shift)) % Pow2(width);
        shift := shift + 7;
        if b < 128 {
          return Read(value, Ahead(), shift, b);
        }
      }
    }

    /** The stream's readers of 32 and 64 bits. */
    method ReadNumber(width: nat, signed: bool) returns (r: Read)
      requires Valid()
      modifies `pos
      ensures Valid() && r == if signed then StreamSigned(old(Ahead()), width) else StreamUnsigned(old(Ahead()), width)
      ensures r.Read? ==> r.rest == Ahead()
    {
      r := ReadGroups(width, SHIFT_LIMIT);
      if signed {
        r := Extend(r, width);
      }
    }

    /** The parser's reader. */
    method ReadFileNumber(signed: bool) returns (r: Read)
      requires Valid()
      modifies `pos
      ensures Valid() && r == FileRead(old(Ahead()), signed)
      ensures r.Read? ==> r.rest == Ahead()
    {
      r := ReadGroups(64, |Ahead()| * 7 + 1);
      if r.Read? && signed && r.last % 128 >= 64 {
        r := if r.shift >= 64 then Undefined else Extend(r, 64);
      }
    }

    /** Moves the read position forwards; a move past the end fails and goes back to the start. */
    method Skip(n: nat) returns (ok: bool)
      requires Valid()
      modifies `pos
      ensures Valid() && ok == (n <= |old(Ahead())|)
      ensures if ok then Ahead() == old(Ahead())[n..] else pos == 0
    {
      pos := pos + n;
      ok := pos <= |buf|;
      if !ok {
        pos := 0;
      }
    }

    /** Moves the read position to `n`. */
    method Seek(n: nat) returns (ok: bool)
      modifies `pos
      ensures Valid() && ok == (n <= |buf|) && pos == if ok then n else 0
    {
      pos := n;
      ok := pos <= |buf|;
      if !ok {
        pos := 0;
      }
    }
  }
}
