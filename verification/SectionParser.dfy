/**
 The section parser as it runs: a file cursor moved by reads and skips inside loops. Input that it would read
 wrongly, past its end or with a number that does not fit, ends a method with `Malformed` or `Broken`.
 */
module SectionParser {
  import opened Options
  import opened Leb128
  import opened ByteStream
  import opened Sections

  const HEADER := 8

  method ReadNumberAt(f: Stream) returns (r: Parse<nat>)
    requires f.Valid()
    modifies f`pos
    ensures f.Valid() && r == ReadLeb(old(f.Ahead())) && (r.Parsed? ==> f.Ahead() == r.rest)
  {
    hide FileRead;
    var n := f.ReadFileNumber(false);
    match n
    case Read(v, rest, _, _) => r := Parsed(v, rest);
    case Stopped => r := Malformed;
    case Undefined => r := Malformed;
  }

  method ReadByteAt(f: Stream) returns (r: Parse<nat>)
    requires f.Valid()
    modifies f`pos
    ensures f.Valid() && r == ReadOne(old(f.Ahead())) && (r.Parsed? ==> f.Ahead() == r.rest)
  {
    ghost var t := f.Ahead();
    var b := f.ReadByte();
    if b.None? {
      r := Malformed;
    } else {
      assert t[1..] == f.Ahead();
      r := Parsed(b.value, f.Ahead());
    }
  }

  method SkipAt(f: Stream, n: nat) returns (r: Parse<nat>)
    requires f.Valid()
    modifies f`pos
    ensures f.Valid() && r == SkipBytes(old(f.Ahead()), n) && (r.Parsed? ==> f.Ahead() == r.rest)
  {
    var ok := f.Skip(n);
    r := if ok then Parsed(n, f.Ahead()) else Malformed;
  }

  method SkipNameAt(f: Stream) returns (r: Parse<nat>)
    requires f.Valid()
    modifies f`pos
    ensures f.Valid() && r == SkipName(old(f.Ahead())) && (r.Parsed? ==> f.Ahead() == r.rest)
  {
    r := ReadNumberAt(f);
    if r.Parsed? {
      r := SkipAt(f, r.value);
    }
  }

  /** Goes through the sections of the file from behind its header. */
  method JumpToSection(f: Stream, id: Byte) returns (r: Parse<nat>)
    modifies f`pos
    ensures |f.buf| >= HEADER ==> r == Jump(f.buf[HEADER..], id)
    ensures |f.buf| < HEADER ==> r == Malformed
    ensures r.Parsed? ==> f.Valid() && f.Ahead() == r.rest
  {
    hide ReadLeb;
    var ok := f.Seek(HEADER);
    if !ok {
      return Malformed;
    }
    ghost var all := Jump(f.buf[HEADER..], id);
    var more := true;
    while more
      invariant f.Valid() && more && all == Jump(f.Ahead(), id)
      decreases |f.Ahead()|
    {
      ghost var t := f.Ahead();
      var number := ReadByteAt(f);
      if number.Malformed? {
        return Malformed;
      }
      ReadLebShorter(t[1..]);
      var length := ReadNumberAt(f);
      if length.Malformed? || number.value == id {
        return length;
      }
      r := SkipAt(f, length.value);
      if r.Malformed? {
        return;
      }
      if f.pos == |f.buf| {
        return Parsed(0, []);
      }
    }
  }

  /** The compiler's search, with 32-bit sizes. */
  method SkipToSection(f: Stream, id: Byte) returns (r: Parse<nat>)
    modifies f`pos
    ensures |f.buf| >= HEADER ==> r == SkipTo(f.buf[HEADER..], id)
    ensures |f.buf| < HEADER ==> r == Malformed
    ensures r.Parsed? ==> f.Valid() && f.Ahead() == r.rest
  {
    hide StreamUnsigned;
    var ok := f.Seek(HEADER);
    if !ok {
      return Malformed;
    }
    ghost var all := SkipTo(f.buf[HEADER..], id);
    var more := true;
    while more
      invariant f.Valid() && more && all == SkipTo(f.Ahead(), id)
      decreases |f.Ahead()|
    {
      ghost var t := f.Ahead();
      var number := ReadByteAt(f);
      if number.Malformed? {
        return Malformed;
      }
      StreamShorter(t[1..]);
      var size := f.ReadNumber(32, false);
      if !size.Read? {
        return Malformed;
      }
      if number.value == id {
        return Parsed(size.value, size.rest);
      }
      r := SkipAt(f, size.value);
      if r.Malformed? {
        return;
      }
      if f.pos == |f.buf| {
        return Parsed(0, []);
      }
    }
  }

  lemma StreamShorter(t: seq<Byte>)
    ensures var r := StreamUnsigned(t, 32); r.Read? ==> |r.rest| < |t|
  {
  }

  method ReadMemoryTypeAt(f: Stream, imported: bool) returns (r: Parse<Info>)
    requires f.Valid()
    modifies f`pos
    ensures f.Valid() && r == ReadMemoryType(old(f.Ahead()), imported) && (r.Parsed? ==> f.Ahead() == r.rest)
  {
    hide ReadLeb;
    var flags := ReadNumberAt(f);
    if flags.Malformed? {
      return Malformed;
    }
    var base := ReadNumberAt(f);
    if base.Malformed? {
      return Malformed;
    }
    var bits := flags.value % PAGES;
    var info := Info(base.value % PAGES, 0, bits % 2 == 1, bits / 2 % 2 == 1, imported, bits / 4 % 2 == 1);
    if info.maxPresent {
      var max := ReadNumberAt(f);
      if max.Malformed? {
        return Malformed;
      }
      info := info.(maxPages := max.value % PAGES);
    }
    r := Parsed(info, f.Ahead());
  }

  method SkipTableTypeAt(f: Stream) returns (r: Parse<nat>)
    requires f.Valid()
    modifies f`pos
    ensures f.Valid() && r.Parsed? == SkipTableType(old(f.Ahead())).Parsed?
    ensures r.Parsed? ==> f.Ahead() == r.rest == SkipTableType(old(f.Ahead())).rest
  {
    hide ReadLeb;
    r := ReadByteAt(f);
    if r.Malformed? {
      return;
    }
    var flags := ReadNumberAt(f);
    if flags.Malformed? {
      return Malformed;
    }
    r := ReadNumberAt(f);
    if r.Parsed? && flags.value % PAGES % 2 == 1 {
      r := ReadNumberAt(f);
    }
  }

  /** Reads over the type of an import that is not a memory. */
  method SkipDescAt(f: Stream, kind: nat) returns (r: Parse<nat>)
    requires f.Valid() && kind != 2 && kind <= 4
    modifies f`pos
    ensures f.Valid() && r.Parsed? == SkipDesc(kind, old(f.Ahead())).Parsed?
    ensures r.Parsed? ==> f.Ahead() == r.rest == SkipDesc(kind, old(f.Ahead())).rest
  {
    hide ReadLeb, SkipTableType;
    if kind == 0 {
      r := ReadNumberAt(f);
    } else if kind == 1 {
      r := SkipTableTypeAt(f);
    } else if kind == 3 {
      ghost var t := f.Ahead();
      r := ReadByteAt(f);
      if r.Parsed? {
        r := ReadByteAt(f);
        if r.Parsed? {
          assert t[1..][1..] == t[2..];
        }
      }
    } else {
      r := ReadByteAt(f);
      if r.Parsed? {
        r := ReadNumberAt(f);
      }
    }
  }

  method ReadImportHeadAt(f: Stream) returns (r: Parse<nat>)
    requires f.Valid()
    modifies f`pos
    ensures f.Valid() && r == ReadImportHead(old(f.Ahead())) && (r.Parsed? ==> f.Ahead() == r.rest)
  {
    hide SkipName;
    r := SkipNameAt(f);
    if r.Parsed? {
      r := SkipNameAt(f);
      if r.Parsed? {
        r := ReadByteAt(f);
      }
    }
  }

  /** Goes through the imports until the first memory. */
  method SearchImportsAt(f: Stream, count: nat) returns (r: Search)
    requires f.Valid()
    modifies f`pos
    ensures f.Valid() && r == SearchImports(old(f.Ahead()), count)
  {
    hide ReadImportHead, ReadMemoryType, SkipDesc;
    ghost var all := SearchImports(f.Ahead(), count);
    for i := 0 to count
      invariant f.Valid() && all == SearchImports(f.Ahead(), count - i)
    {
      var kind := ReadImportHeadAt(f);
      if kind.Malformed? {
        return Broken;
      }
      if kind.value == 2 {
        var info := ReadMemoryTypeAt(f, true);
        return if info.Malformed? then Broken else Found(info.value);
      }
      if kind.value > 4 {
        return Rejected;
      }
      var skipped := SkipDescAt(f, kind.value);
      if skipped.Malformed? {
        return Broken;
      }
    }
    r := Absent;
  }

  /** The first memory of the module in the file. */
  method ReadMemoryInfo(f: Stream) returns (r: Search)
    requires |f.buf| >= HEADER
    modifies f`pos
    ensures r == MemoryInfo(f.buf[HEADER..])
  {
    hide Jump, ReadLeb, SearchImports, ReadMemoryType;
    var length := JumpToSection(f, 2);
    if length.Malformed? {
      return Broken;
    }
    if length.value != 0 {
      var imports := ReadNumberAt(f);
      if imports.Malformed? {
        return Broken;
      }
      r := SearchImportsAt(f, imports.value);
      if !r.Absent? {
        return;
      }
    }
    length := JumpToSection(f, 5);
    if length.Malformed? {
      return Broken;
    }
    if length.value == 0 {
      return Rejected;
    }
    var count := ReadNumberAt(f);
    if count.Malformed? {
      return Broken;
    }
    if count.value == 0 {
      return Rejected;
    }
    var info := ReadMemoryTypeAt(f, false);
    r := if info.Malformed? then Broken else Found(info.value);
  }

  /** Whether every data segment of the module is passive; none on malformed input. */
  method HasOnlyPassiveData(f: Stream) returns (r: Option<bool>)
    requires |f.buf| >= HEADER
    modifies f`pos
    ensures r == OnlyPassiveData(f.buf[HEADER..])
  {
    hide Jump, ReadLeb, SkipName;
    var length := JumpToSection(f, 11);
    if length.Malformed? {
      return None;
    }
    if length.value == 0 {
      return Some(true);
    }
    var count := ReadNumberAt(f);
    if count.Malformed? {
      return None;
    }
    ghost var all := AllPassive(f.Ahead(), count.value);
    for i := 0 to count.value
      invariant f.Valid() && all == AllPassive(f.Ahead(), count.value - i)
    {
      var mode := ReadNumberAt(f);
      if mode.Malformed? {
        return None;
      }
      if mode.value != 1 {
        return Some(false);
      }
      var skipped := SkipNameAt(f);
      if skipped.Malformed? {
        return None;
      }
    }
    r := Some(true);
  }
}
