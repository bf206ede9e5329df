/**
 The Wasm binary format's section list, imports, memory types and data segments (sections 5.5.2, 5.5.5, 5.5.8 and
 5.5.14 of the WebAssembly Core Specification 2.0), and the parser that answers two questions about a module.
 */
module Sections {
  import opened Options
  import opened Leb128

  // ---------------------------------------------------------------- the format

  const WIDE: nat := 0x1_0000_0000_0000_0000
  const PAGES: nat := 0x1_0000_0000

  /** An unsigned number as it stands in a file, in any encoding that section 5.2.2 allows: shortest or padded. */
  type Number = bs: seq<Byte> | WellFormed(bs) && |bs| <= 10 && UnsignedValue(bs) < WIDE witness [0]

  function Value(n: Number): nat { UnsignedValue(n) }

  /** An encoding that numbers of 32 bits may have. */
  predicate Fits32(n: Number) { |n| <= 5 && Value(n) < PAGES }

  datatype Limits = Limits(shared: bool, wide: bool, flags: Number, min: Number, max: Option<Number>)

  /** A string of bytes behind its length. */
  datatype Name = Name(length: Number, bytes: seq<Byte>)

  datatype Desc =
    | FuncDesc(index: Number)
    | TableDesc(ref: Byte, limits: Limits)
    | MemoryDesc(limits: Limits)
    | GlobalDesc(kind: Byte, mutable: Byte)
    | TagDesc(attribute: Byte, index: Number)

  datatype Import = Import(from: Name, name: Name, desc: Desc)

  /** A data segment; of an active one only its mode matters here. */
  datatype Segment = Passive(mode: Number, data: Name) | Active(mode: Number, content: seq<Byte>)

  datatype Body =
    | Imports(count: Number, imports: seq<Import>)
    | Memories(count: Number, memories: seq<Limits>)
    | Data(count: Number, segments: seq<Segment>)
    | Other(id: Byte, content: seq<Byte>)

  datatype Section = Section(size: Number, body: Body)

  function FlagBits(l: Limits): nat {
    (if l.max.Some? then 1 else 0) + (if l.shared then 2 else 0) + if l.wide then 4 else 0
  }

  function LimitsTail(l: Limits): seq<Byte> { if l.max.Some? then l.max.value else [] }

  function LimitsBytes(l: Limits): seq<Byte> { l.flags + l.min + LimitsTail(l) }

  function NameBytes(n: Name): seq<Byte> { n.length + n.bytes }

  function DescBytes(d: Desc): seq<Byte> {
    match d
    case FuncDesc(i) => [0] + i
    case TableDesc(t, l) => [1, t] + LimitsBytes(l)
    case MemoryDesc(l) => [2] + LimitsBytes(l)
    case GlobalDesc(t, m) => [3, t, m]
    case TagDesc(a, i) => [4, a] + i
  }

  function ImportBytes(i: Import): seq<Byte> {
    NameBytes(i.from) + NameBytes(i.name) + DescBytes(i.desc)
  }

  function SegmentBytes(s: Segment): seq<Byte> {
    match s
    case Passive(mode, data) => mode + NameBytes(data)
    case Active(mode, content) => mode + content
  }

  function ImportsBytes(ims: seq<Import>): seq<Byte> {
    if ims == [] then [] else ImportBytes(ims[0]) + ImportsBytes(ims[1..])
  }

  function MemoriesBytes(ms: seq<Limits>): seq<Byte> {
    if ms == [] then [] else LimitsBytes(ms[0]) + MemoriesBytes(ms[1..])
  }

  function SegmentsBytes(ss: seq<Segment>): seq<Byte> {
    if ss == [] then [] else SegmentBytes(ss[0]) + SegmentsBytes(ss[1..])
  }

  function SectionId(s: Section): Byte {
    match s.body
    case Imports(_, _) => 2
    case Memories(_, _) => 5
    case Data(_, _) => 11
    case Other(id, _) => id
  }

  function Content(s: Section): seq<Byte> {
    match s.body
    case Imports(count, ims) => count + ImportsBytes(ims)
    case Memories(count, ms) => count + MemoriesBytes(ms)
    case Data(count, ss) => count + SegmentsBytes(ss)
    case Other(_, content) => content
  }

  function SectionsBytes(ss: seq<Section>): seq<Byte> {
    if ss == [] then [] else [SectionId(ss[0])] + ss[0].size + Content(ss[0]) + SectionsBytes(ss[1..])
  }

  // What a well-formed file demands of its numbers: flags, lengths, counts and sizes say what follows them.

  predicate LimitsFit(l: Limits) { Value(l.flags) == FlagBits(l) }

  predicate NameFits(n: Name) { Value(n.length) == |n.bytes| }

  predicate DescFits(d: Desc) { d.TableDesc? || d.MemoryDesc? ==> LimitsFit(d.limits) }

  predicate ImportFits(i: Import) { NameFits(i.from) && NameFits(i.name) && DescFits(i.desc) }

  predicate SegmentFits(s: Segment) {
    match s
    case Passive(mode, data) => Value(mode) == 1 && NameFits(data)
    case Active(mode, _) => Value(mode) != 1
  }

  predicate SegmentsFit(ss: seq<Segment>) { forall i | 0 <= i < |ss| :: SegmentFits(ss[i]) }

  predicate BodyFits(b: Body) {
    match b
    case Imports(count, ims) => Value(count) == |ims| && forall i | 0 <= i < |ims| :: ImportFits(ims[i])
    case Memories(count, ms) => Value(count) == |ms| && forall i | 0 <= i < |ms| :: LimitsFit(ms[i])
    case Data(count, ss) => Value(count) == |ss| && SegmentsFit(ss)
    case Other(id, _) => id != 2 && id != 5 && id != 11
  }

  predicate SectionFits(s: Section) { Value(s.size) == |Content(s)| && BodyFits(s.body) }

  /** The sections of a well-formed module. */
  predicate SectionsFit(ss: seq<Section>) { forall i | 0 <= i < |ss| :: SectionFits(ss[i]) }

  // ---------------------------------------------------------------- the parser

  /** A parse: a value and what follows, or input that the parser reads wrongly or not at all. */
  datatype Parse<T> = Parsed(value: T, rest: seq<Byte>) | Malformed

  function ReadLeb(t: seq<Byte>): Parse<nat> {
    match FileRead(t, false)
    case Read(v, rest, _, _) => Parsed(v, rest)
    case _ => Malformed
  }

  function ReadOne(t: seq<Byte>): Parse<nat> {
    if t == [] then Malformed else Parsed(t[0], t[1..])
  }

  function SkipBytes(t: seq<Byte>, n: nat): Parse<nat> {
    if n > |t| then Malformed else Parsed(n, t[n..])
  }

  /** Goes to the first section with this number; length 0 when there is none. */
  function Jump(t: seq<Byte>, id: Byte): (r: Parse<nat>)
    decreases |t|
  {
    if t == [] then Malformed
    else
      match ReadLeb(t[1..])
      case Malformed => Malformed
      case Parsed(length, body) =>
        if t[0] == id then Parsed(length, body)
        else if length > |body| then Malformed
        else
          var rest := body[length..];
          assert |rest| < |t| by { ReadLebShorter(t[1..]); }
          if rest == [] then Parsed(0, []) else Jump(rest, id)
  }

  lemma ReadLebShorter(t: seq<Byte>)
    ensures var r := ReadLeb(t); r.Parsed? ==> |r.rest| < |t|
  {
  }

  function SkipName(t: seq<Byte>): Parse<nat> {
    match ReadLeb(t)
    case Malformed => Malformed
    case Parsed(n, rest) => SkipBytes(rest, n)
  }

  datatype Info = Info(basePages: nat, maxPages: nat, maxPresent: bool, shared: bool, imported: bool, memory64: bool)

  /** A memory type, with 32-bit flags and page counts. */
  function ReadMemoryType(t: seq<Byte>, imported: bool): Parse<Info> {
    match ReadLeb(t)
    case Malformed => Malformed
    case Parsed(flags, t1) =>
      match ReadLeb(t1)
      case Malformed => Malformed
      case Parsed(base, t2) =>
        var f := flags % PAGES;
        if f % 2 == 0 then Parsed(Info(base % PAGES, 0, false, f / 2 % 2 == 1, imported, f / 4 % 2 == 1), t2)
        else
          match ReadLeb(t2)
          case Malformed => Malformed
          case Parsed(max, t3) =>
            Parsed(Info(base % PAGES, max % PAGES, true, f / 2 % 2 == 1, imported, f / 4 % 2 == 1), t3)
  }

  function SkipTableType(t: seq<Byte>): Parse<nat> {
    match ReadOne(t)
    case Malformed => Malformed
    case Parsed(_, t0) =>
      match ReadLeb(t0)
      case Malformed => Malformed
      case Parsed(flags, t1) =>
        match ReadLeb(t1)
        case Malformed => Malformed
        case Parsed(_, t2) => if flags % PAGES % 2 == 1 then ReadLeb(t2) else Parsed(0, t2)
  }

  /** The type of an import that is not a memory. */
  function SkipDesc(kind: nat, t: seq<Byte>): Parse<nat> {
    if kind == 0 then ReadLeb(t)
    else if kind == 1 then SkipTableType(t)
    else if kind == 3 then SkipBytes(t, 2)
    else
      match ReadOne(t)
      case Malformed => Malformed
      case Parsed(_, t1) => ReadLeb(t1)
  }

  /** Names and kind of the next import. */
  function ReadImportHead(t: seq<Byte>): Parse<nat> {
    match SkipName(t)
    case Malformed => Malformed
    case Parsed(_, t1) =>
      match SkipName(t1)
      case Malformed => Malformed
      case Parsed(_, t2) => ReadOne(t2)
  }

  /** What a search among the imports gives: the first memory, none, or a failure on an unknown kind. */
  datatype Search = Found(info: Info) | Absent | Rejected | Broken

  function SearchImports(t: seq<Byte>, count: nat): Search
    decreases count
  {
    if count == 0 then Absent
    else
      match ReadImportHead(t)
      case Malformed => Broken
      case Parsed(kind, rest) =>
        if kind == 2 then
          (match ReadMemoryType(rest, true)
           case Malformed => Broken
           case Parsed(info, _) => Found(info))
        else if kind > 4 then Rejected
        else
          match SkipDesc(kind, rest)
          case Malformed => Broken
          case Parsed(_, next) => SearchImports(next, count - 1)
  }

  /** The module's first memory, imported before defined; `t` is the file behind its eight-byte header. */
  function MemoryInfo(t: seq<Byte>): Search {
    match Jump(t, 2)
    case Malformed => Broken
    case Parsed(length, body) =>
      if length == 0 then DefinedMemory(t)
      else
        match ReadLeb(body)
        case Malformed => Broken
        case Parsed(count, imports) =>
          var r := SearchImports(imports, count);
          if r.Absent? then DefinedMemory(t) else r
  }

  function DefinedMemory(t: seq<Byte>): Search {
    match Jump(t, 5)
    case Malformed => Broken
    case Parsed(length, body) =>
      if length == 0 then Rejected
      else
        match ReadLeb(body)
        case Malformed => Broken
        case Parsed(count, memories) =>
          if count == 0 then Rejected
          else
            match ReadMemoryType(memories, false)
            case Malformed => Broken
            case Parsed(info, _) => Found(info)
  }

  /** Whether all of `count` segments are passive. */
  function AllPassive(t: seq<Byte>, count: nat): Option<bool>
    decreases count
  {
    if count == 0 then Some(true)
    else
      match ReadLeb(t)
      case Malformed => None
      case Parsed(mode, t1) =>
        if mode != 1 then Some(false)
        else
          match SkipName(t1)
          case Malformed => None
          case Parsed(_, t2) => AllPassive(t2, count - 1)
  }

  function OnlyPassiveData(t: seq<Byte>): Option<bool> {
    match Jump(t, 11)
    case Malformed => None
    case Parsed(length, body) =>
      if length == 0 then Some(true)
      else
        match ReadLeb(body)
        case Malformed => None
        case Parsed(count, segments) => AllPassive(segments, count)
  }

  // ---------------------------------------------------------------- reading the format

  lemma LebReads(n: Number, rest: seq<Byte>)
    ensures ReadLeb(n + rest) == Parsed(Value(n), rest)
  {
    hide Accumulate, FileRead, UnsignedValue;
    Pow64();
    hide Pow2;
    FileUnsignedReads(n, rest);
  }

  lemma Pow4()
    ensures Pow2(4) == 16
  {
  }

  lemma Pow64()
    ensures Pow2(64) == WIDE && Pow2(32) == PAGES
  {
    hide Pow2;
    Pow4();
    PowAdd(4, 4);
    PowAdd(8, 8);
    PowAdd(16, 16);
    PowAdd(32, 32);
  }

  lemma NameReads(n: Name, rest: seq<Byte>)
    requires NameFits(n)
    ensures SkipName(NameBytes(n) + rest) == Parsed(|n.bytes|, rest)
  {
    hide ReadLeb, Value;
    assert NameBytes(n) + rest == n.length + (n.bytes + rest);
    LebReads(n.length, n.bytes + rest);
    assert (n.bytes + rest)[|n.bytes|..] == rest;
  }

  /** What a memory's limits say. */
  function InfoOf(l: Limits, imported: bool): Info {
    Info(Value(l.min), if l.max.Some? then Value(l.max.value) else 0, l.max.Some?, l.shared, imported, l.wide)
  }

  /** What is left of it in 32-bit page counts. */
  function Shown(i: Info): Info { i.(basePages := i.basePages % PAGES, maxPages := i.maxPages % PAGES) }

  lemma LimitsSplit(l: Limits, rest: seq<Byte>)
    ensures LimitsBytes(l) + rest == l.flags + (l.min + (LimitsTail(l) + rest))
  {
  }

  lemma LimitsReads(l: Limits, imported: bool, rest: seq<Byte>)
    requires LimitsFit(l)
    ensures ReadMemoryType(LimitsBytes(l) + rest, imported) == Parsed(Shown(InfoOf(l, imported)), rest)
  {
    hide ReadLeb, LimitsBytes, Value;
    var tail := LimitsTail(l) + rest;
    LimitsSplit(l, rest);
    LebReads(l.flags, l.min + tail);
    LebReads(l.min, tail);
    if l.max.Some? {
      LebReads(l.max.value, rest);
    } else {
      assert tail == rest;
    }
  }

  lemma TableReads(b: Byte, l: Limits, rest: seq<Byte>)
    requires LimitsFit(l)
    ensures var r := SkipTableType([b] + (LimitsBytes(l) + rest)); r.Parsed? && r.rest == rest
  {
    hide ReadLeb, LimitsBytes, Value;
    var tail := LimitsTail(l) + rest;
    LimitsSplit(l, rest);
    var t := [b] + (LimitsBytes(l) + rest);
    assert t[1..] == LimitsBytes(l) + rest;
    LebReads(l.flags, l.min + tail);
    LebReads(l.min, tail);
    if l.max.Some? {
      LebReads(l.max.value, rest);
    } else {
      assert tail == rest;
    }
  }

  /** Kind and type of an import. */
  lemma DescReads(d: Desc, rest: seq<Byte>)
    requires DescFits(d) && !d.MemoryDesc?
    ensures var t := DescBytes(d) + rest;
      t != [] && t[0] != 2 && t[0] <= 4 && SkipDesc(t[0], t[1..]).Parsed? && SkipDesc(t[0], t[1..]).rest == rest
  {
    hide ReadLeb, SkipTableType, LimitsBytes, SkipDesc, LimitsFit, Value;
    DescForm(d, rest);
    match d
    case FuncDesc(i) => IndexReads(i, rest);
    case TableDesc(b, l) => TableDescReads(b, l, rest);
    case GlobalDesc(k, m) => GlobalReads(k, m, rest);
    case TagDesc(a, i) => TagReads(a, i, rest);
  }

  lemma DescForm(d: Desc, rest: seq<Byte>)
    ensures var t := DescBytes(d) + rest;
      && t != []
      && match d
        case FuncDesc(i) => t[0] == 0 && t[1..] == i + rest
        case TableDesc(b, l) => t[0] == 1 && t[1..] == [b] + (LimitsBytes(l) + rest)
        case MemoryDesc(l) => t[0] == 2 && t[1..] == LimitsBytes(l) + rest
        case GlobalDesc(k, m) => t[0] == 3 && t[1..] == [k, m] + rest
        case TagDesc(a, i) => t[0] == 4 && t[1..] == [a] + (i + rest)
  {
    hide LimitsBytes;
    match d
    case FuncDesc(i) => Behind([0], i, rest);
    case TableDesc(b, l) =>
      Behind([1, b], LimitsBytes(l), rest);
      assert [1, b] + (LimitsBytes(l) + rest) == [1] + ([b] + (LimitsBytes(l) + rest));
    case MemoryDesc(l) => Behind([2], LimitsBytes(l), rest);
    case GlobalDesc(k, m) => assert [3, k, m] + rest == [3] + ([k, m] + rest);
    case TagDesc(a, i) =>
      Behind([4, a], i, rest);
      assert [4, a] + (i + rest) == [4] + ([a] + (i + rest));
  }

  lemma Behind(a: seq<Byte>, b: seq<Byte>, c: seq<Byte>)
    ensures a + b + c == a + (b + c)
  {
  }

  lemma IndexReads(i: Number, rest: seq<Byte>)
    ensures var r := SkipDesc(0, i + rest); r.Parsed? && r.rest == rest
  {
    hide ReadLeb;
    LebReads(i, rest);
  }

  lemma TableDescReads(b: Byte, l: Limits, rest: seq<Byte>)
    requires LimitsFit(l)
    ensures var r := SkipDesc(1, [b] + (LimitsBytes(l) + rest)); r.Parsed? && r.rest == rest
  {
    hide ReadLeb, SkipTableType, LimitsBytes, LimitsFit;
    TableReads(b, l, rest);
  }

  lemma GlobalReads(k: Byte, m: Byte, rest: seq<Byte>)
    ensures var r := SkipDesc(3, [k, m] + rest); r.Parsed? && r.rest == rest
  {
    hide ReadLeb, SkipTableType;
    assert ([k, m] + rest)[2..] == rest;
  }

  lemma TagReads(a: Byte, i: Number, rest: seq<Byte>)
    ensures var r := SkipDesc(4, [a] + (i + rest)); r.Parsed? && r.rest == rest
  {
    hide ReadLeb, SkipTableType;
    var t := [a] + (i + rest);
    assert t[0] == a && t[1..] == i + rest;
    LebReads(i, rest);
  }

  lemma HeadReads(i: Import, rest: seq<Byte>)
    requires ImportFits(i)
    ensures var t := DescBytes(i.desc) + rest;
      ReadImportHead(ImportBytes(i) + rest) == ReadOne(t)
  {
    hide SkipName, NameBytes, DescBytes, NameFits;
    var t := DescBytes(i.desc) + rest;
    assert ImportBytes(i) + rest == NameBytes(i.from) + (NameBytes(i.name) + t);
    NameReads(i.from, NameBytes(i.name) + t);
    NameReads(i.name, t);
  }

  /** The first memory among the imports. */
  function FirstMemory(ims: seq<Import>): Option<Limits> {
    if ims == [] then None else if ims[0].desc.MemoryDesc? then Some(ims[0].desc.limits) else FirstMemory(ims[1..])
  }

  lemma {:induction false} ImportsRead(ims: seq<Import>, rest: seq<Byte>)
    requires forall i | 0 <= i < |ims| :: ImportFits(ims[i])
    ensures SearchImports(ImportsBytes(ims) + rest, |ims|) ==
      match FirstMemory(ims) case None => Absent case Some(l) => Found(Shown(InfoOf(l, true)))
    decreases ims
  {
    hide ReadImportHead, ReadMemoryType, SkipDesc, ImportBytes, InfoOf, ImportFits, LimitsBytes, DescBytes, SkipName,
         DescFits, Shown;
    if ims != [] {
      var i, tail := ims[0], ImportsBytes(ims[1..]) + rest;
      assert ImportsBytes(ims) + rest == ImportBytes(i) + tail;
      HeadReads(i, tail);
      var t := DescBytes(i.desc) + tail;
      if i.desc.MemoryDesc? {
        DescForm(i.desc, tail);
        ImportParts(i);
        LimitsReads(i.desc.limits, true, tail);
      } else {
        ImportParts(i);
        DescReads(i.desc, tail);
        ImportsRead(ims[1..], rest);
      }
    }
  }

  lemma ImportParts(i: Import)
    requires ImportFits(i)
    ensures DescFits(i.desc) && (i.desc.MemoryDesc? ==> LimitsFit(i.desc.limits))
  {
  }

  /** The first section with this number. */
  function Section1(ss: seq<Section>, id: Byte): Option<Section> {
    if ss == [] then None else if SectionId(ss[0]) == id then Some(ss[0]) else Section1(ss[1..], id)
  }

  /** Jumping finds the first section with the number and stops before its content, in any module with a section. */
  lemma {:induction false} JumpFinds(ss: seq<Section>, id: Byte)
    requires ss != [] && SectionsFit(ss)
    ensures var r := Jump(SectionsBytes(ss), id);
      match Section1(ss, id)
      case None => r == Parsed(0, [])
      case Some(s) =>
        && r.Parsed? && r.value == |Content(s)| && |Content(s)| <= |r.rest|
        && r.rest[..|Content(s)|] == Content(s)
    ensures forall s :: Section1(ss, id) == Some(s) ==> SectionFits(s) && SectionId(s) == id
    decreases ss
  {
    hide ReadLeb, Content, SectionId, SectionFits, Value;
    var s, tail := ss[0], SectionsBytes(ss[1..]);
    var t := SectionsBytes(ss);
    var c := Content(s);
    SectionForm(ss);
    assert t[1..] == s.size + (c + tail);
    FitLength(s);
    LebReads(s.size, c + tail);
    assert (c + tail)[..|c|] == c && (c + tail)[|c|..] == tail;
    if SectionId(s) != id {
      if |ss| > 1 {
        TailNonEmpty(ss[1..]);
        JumpFinds(ss[1..], id);
      } else {
        assert tail == [];
      }
    }
  }

  lemma SectionForm(ss: seq<Section>)
    requires ss != []
    ensures SectionsBytes(ss) == [SectionId(ss[0])] + (ss[0].size + (Content(ss[0]) + SectionsBytes(ss[1..])))
  {
    hide Content, SectionId;
  }

  lemma FitLength(s: Section)
    requires SectionFits(s)
    ensures Value(s.size) == |Content(s)|
  {
    hide Content, Value;
  }

  lemma TailNonEmpty(ss: seq<Section>)
    requires ss != []
    ensures SectionsBytes(ss) != []
  {
  }

  // ---------------------------------------------------------------- the promises

  /** What the module imports, defines as memories and has as data: the contents of the first such sections. */
  function ImportsOf(ss: seq<Section>): seq<Import> {
    if ss == [] then [] else if ss[0].body.Imports? then ss[0].body.imports else ImportsOf(ss[1..])
  }

  function MemoriesOf(ss: seq<Section>): seq<Limits> {
    if ss == [] then [] else if ss[0].body.Memories? then ss[0].body.memories else MemoriesOf(ss[1..])
  }

  function SegmentsOf(ss: seq<Section>): seq<Segment> {
    if ss == [] then [] else if ss[0].body.Data? then ss[0].body.segments else SegmentsOf(ss[1..])
  }

  /** Their section numbers find them. */
  lemma {:induction false} FoundById(ss: seq<Section>)
    requires SectionsFit(ss)
    ensures ImportsOf(ss) ==
      if Section1(ss, 2).Some? && Section1(ss, 2).value.body.Imports? then Section1(ss, 2).value.body.imports else []
    ensures MemoriesOf(ss) ==
      if Section1(ss, 5).Some? && Section1(ss, 5).value.body.Memories? then Section1(ss, 5).value.body.memories else []
    ensures SegmentsOf(ss) ==
      if Section1(ss, 11).Some? && Section1(ss, 11).value.body.Data? then Section1(ss, 11).value.body.segments else []
    decreases ss
  {
    hide Content, Value, SectionFits;
    if ss != [] {
      KindOf(ss[0]);
      IdOf(ss[0]);
      FoundById(ss[1..]);
    }
  }

  lemma IdOf(s: Section)
    ensures s.body.Imports? ==> SectionId(s) == 2
    ensures s.body.Memories? ==> SectionId(s) == 5
    ensures s.body.Data? ==> SectionId(s) == 11
  {
  }

  /** The limits of the module's first memory, with where it comes from. */
  function ModuleMemory(ss: seq<Section>): Option<Info> {
    match FirstMemory(ImportsOf(ss))
    case Some(l) => Some(InfoOf(l, true))
    case None => if MemoriesOf(ss) == [] then None else Some(InfoOf(MemoriesOf(ss)[0], false))
  }

  lemma KindOf(s: Section)
    requires SectionFits(s)
    ensures BodyFits(s.body)
    ensures SectionId(s) == 2 ==> s.body.Imports?
    ensures SectionId(s) == 5 ==> s.body.Memories?
    ensures SectionId(s) == 11 ==> s.body.Data?
  {
    hide Content, Value;
  }

  /** A count in front of items, at the start of a section's content. */
  lemma CountFirst(n: Number, items: seq<Byte>, body: seq<Byte>)
    requires |n + items| <= |body| && body[..|n + items|] == n + items
    ensures exists rest :: ReadLeb(body) == Parsed(Value(n), items + rest)
  {
    hide ReadLeb, Value;
    var rest := body[|n + items|..];
    assert body == n + (items + rest);
    LebReads(n, items + rest);
  }

  lemma CountReads(s: Section, body: seq<Byte>)
    requires |Content(s)| <= |body| && body[..|Content(s)|] == Content(s)
    ensures s.body.Imports? ==>
      exists rest :: ReadLeb(body) == Parsed(Value(s.body.count), ImportsBytes(s.body.imports) + rest)
    ensures s.body.Memories? ==>
      exists rest :: ReadLeb(body) == Parsed(Value(s.body.count), MemoriesBytes(s.body.memories) + rest)
    ensures s.body.Data? ==>
      exists rest :: ReadLeb(body) == Parsed(Value(s.body.count), SegmentsBytes(s.body.segments) + rest)
    ensures !s.body.Other? ==> |Content(s)| > 0
  {
    hide ReadLeb, Value, ImportsBytes, MemoriesBytes, SegmentsBytes;
    match s.body
    case Imports(count, ims) => CountFirst(count, ImportsBytes(ims), body);
    case Memories(count, ms) => CountFirst(count, MemoriesBytes(ms), body);
    case Data(count, ss) => CountFirst(count, SegmentsBytes(ss), body);
    case Other(_, _) =>
  }

  lemma DefinedMemoryReads(ss: seq<Section>)
    requires ss != [] && SectionsFit(ss)
    ensures DefinedMemory(SectionsBytes(ss)) ==
      if MemoriesOf(ss) == [] then Rejected else Found(Shown(InfoOf(MemoriesOf(ss)[0], false)))
  {
    hide Jump, ReadLeb, SectionsBytes, Content, SectionFits, ReadMemoryType, LimitsFit, InfoOf, SectionId, Section1,
         Shown, Value, MemoriesOf, ImportsOf, SegmentsOf, LimitsBytes;
    FoundById(ss);
    JumpFinds(ss, 5);
    var s := Section1(ss, 5);
    if s.Some? {
      KindOf(s.value);
      var ms := s.value.body.memories;
      var body := Jump(SectionsBytes(ss), 5).rest;
      CountReads(s.value, body);
      var rest :| ReadLeb(body) == Parsed(|ms|, MemoriesBytes(ms) + rest);
      if ms != [] {
        assert MemoriesBytes(ms) + rest == LimitsBytes(ms[0]) + (MemoriesBytes(ms[1..]) + rest);
        LimitsReads(ms[0], false, MemoriesBytes(ms[1..]) + rest);
      }
    }
  }

  /** Page counts of 32 bits. */
  predicate PagesFit(i: Info) { i.basePages < PAGES && i.maxPages < PAGES }

  /**
   For every well-formed module with at least one section, in whatever encoding its numbers are, the parser reports
   the limits and flags of the first memory, an imported one before a defined one, and reports failure exactly when
   there is none. Page counts are reported modulo 2^32, so exactly those below are reported right.
   */
  lemma MemoryInfoReads(ss: seq<Section>)
    requires ss != [] && SectionsFit(ss)
    ensures var r := MemoryInfo(SectionsBytes(ss));
      match ModuleMemory(ss)
      case None => r == Rejected
      case Some(info) => r == Found(Shown(info)) && (r == Found(info) <==> PagesFit(info))
  {
    hide Jump, ReadLeb, SectionsBytes, Content, SectionFits, InfoOf, SectionId, Section1, DefinedMemory, SearchImports,
         FirstMemory, ImportFits, Value, Shown, MemoriesOf, ImportsOf, SegmentsOf;
    DefinedMemoryReads(ss);
    FoundById(ss);
    JumpFinds(ss, 2);
    var s := Section1(ss, 2);
    if s.Some? {
      KindOf(s.value);
      var ims := s.value.body.imports;
      var body := Jump(SectionsBytes(ss), 2).rest;
      CountReads(s.value, body);
      var rest :| ReadLeb(body) == Parsed(|ims|, ImportsBytes(ims) + rest);
      ImportsRead(ims, rest);
    } else {
      NoImports();
    }
    if ModuleMemory(ss).Some? {
      ShownRight(ModuleMemory(ss).value);
    }
  }

  lemma ShownRight(i: Info)
    ensures Shown(i) == i <==> PagesFit(i)
  {
  }

  lemma NoImports()
    ensures FirstMemory([]) == None
  {
  }

  predicate Passives(ss: seq<Segment>) { forall i | 0 <= i < |ss| :: ss[i].Passive? }

  lemma {:induction false} SegmentsRead(ss: seq<Segment>, rest: seq<Byte>)
    requires SegmentsFit(ss)
    ensures AllPassive(SegmentsBytes(ss) + rest, |ss|) == Some(Passives(ss))
    decreases ss
  {
    hide *;
    if ss == [] {
      NoSegments(rest);
    } else {
      var s, tail := ss[0], SegmentsBytes(ss[1..]) + rest;
      SegmentForm(ss, rest);
      SegmentsSplit(ss);
      match s
      case Passive(mode, data) =>
        LebReads(mode, NameBytes(data) + tail);
        NameReads(data, tail);
        SegmentsRead(ss[1..], rest);
        PassiveStep(mode + (NameBytes(data) + tail), |ss|, NameBytes(data) + tail, tail);
      case Active(mode, content) =>
        LebReads(mode, content + tail);
        ActiveStep(mode + (content + tail), |ss|, content + tail);
    }
  }

  lemma NoSegments(t: seq<Byte>)
    ensures SegmentsBytes([]) + t == t && AllPassive(t, 0) == Some(Passives([]))
  {
  }

  lemma SegmentsSplit(ss: seq<Segment>)
    requires SegmentsFit(ss) && ss != []
    ensures SegmentsFit(ss[1..]) && (Passives(ss) <==> ss[0].Passive? && Passives(ss[1..]))
    ensures match ss[0]
      case Passive(mode, data) => Value(mode) == 1 && NameFits(data)
      case Active(mode, _) => Value(mode) != 1
  {
    hide Value, NameFits;
    assert SegmentFits(ss[0]);
    assert forall i | 0 < i < |ss| :: ss[i] == ss[1..][i - 1];
  }

  lemma PassiveStep(t: seq<Byte>, count: nat, t1: seq<Byte>, t2: seq<Byte>)
    requires count > 0 && ReadLeb(t) == Parsed(1, t1) && SkipName(t1).Parsed? && SkipName(t1).rest == t2
    ensures AllPassive(t, count) == AllPassive(t2, count - 1)
  {
    hide ReadLeb, SkipName;
  }

  lemma ActiveStep(t: seq<Byte>, count: nat, t1: seq<Byte>)
    requires count > 0 && ReadLeb(t).Parsed? && ReadLeb(t).value != 1 && ReadLeb(t).rest == t1
    ensures AllPassive(t, count) == Some(false)
  {
    hide ReadLeb, SkipName;
  }

  lemma SegmentForm(ss: seq<Segment>, rest: seq<Byte>)
    requires ss != []
    ensures var tail := SegmentsBytes(ss[1..]) + rest;
      SegmentsBytes(ss) + rest == match ss[0]
        case Passive(mode, data) => mode + (NameBytes(data) + tail)
        case Active(mode, content) => mode + (content + tail)
  {
    hide NameBytes;
  }

  /** The passive-data test is true exactly when every data segment is passive. */
  lemma OnlyPassiveReads(ss: seq<Section>)
    requires ss != [] && SectionsFit(ss)
    ensures OnlyPassiveData(SectionsBytes(ss)) == Some(Passives(SegmentsOf(ss)))
  {
    hide Jump, ReadLeb, SectionsBytes, Content, SectionFits, SectionId, Section1, AllPassive, SegmentsFit, Value,
         SegmentsOf, ImportsOf, MemoriesOf;
    FoundById(ss);
    JumpFinds(ss, 11);
    var s := Section1(ss, 11);
    if s.Some? {
      KindOf(s.value);
      var segments := s.value.body.segments;
      var body := Jump(SectionsBytes(ss), 11).rest;
      CountReads(s.value, body);
      var rest :| ReadLeb(body) == Parsed(|segments|, SegmentsBytes(segments) + rest);
      SegmentsRead(segments, rest);
    }
  }

  /** A module without sections is read past its end. */
  lemma NoSections()
    ensures MemoryInfo(SectionsBytes([])) == Broken && ModuleMemory([]) == None
    ensures OnlyPassiveData(SectionsBytes([])) == None && SegmentsOf([]) == []
  {
  }

  // ---------------------------------------------------------------- the compiler's own search

  /** The compiler's stream skips to a section with 32-bit sizes. */
  function SkipTo(t: seq<Byte>, id: Byte): Parse<nat>
    decreases |t|
  {
    if t == [] then Malformed
    else
      match StreamUnsigned(t[1..], 32)
      case Read(size, body, _, _) =>
        if t[0] == id then Parsed(size, body)
        else if size > |body| then Malformed
        else
          var rest := body[size..];
          if rest == [] then Parsed(0, []) else SkipTo(rest, id)
      case _ => Malformed
  }

  lemma SizeReads(n: Number, rest: seq<Byte>)
    requires Fits32(n)
    ensures var r := StreamUnsigned(n + rest, 32); r.Read? && r.value == Value(n) && r.rest == rest
  {
    hide Accumulate, StreamUnsigned, UnsignedValue;
    Pow64();
    hide Pow2;
    StreamUnsignedReads(n, rest, 32);
  }

  /** Both searches agree on every list of sections whose sizes are 32-bit numbers, in any encoding of those. */
  lemma {:induction false} SearchesAgree(ss: seq<Section>, id: Byte)
    requires SectionsFit(ss) && forall i | 0 <= i < |ss| :: Fits32(ss[i].size)
    ensures SkipTo(SectionsBytes(ss), id) == Jump(SectionsBytes(ss), id)
    decreases ss
  {
    hide ReadLeb, Content, SectionId, SectionFits, StreamUnsigned, Value, Fits32;
    if ss != [] {
      var s, tail := ss[0], SectionsBytes(ss[1..]);
      var t, c := SectionsBytes(ss), Content(s);
      SectionForm(ss);
      assert t[1..] == s.size + (c + tail);
      FitLength(s);
      LebReads(s.size, c + tail);
      SizeReads(s.size, c + tail);
      assert (c + tail)[|c|..] == tail;
      SearchesAgree(ss[1..], id);
    }
  }

  /** A size padded to two bytes, which no writer of shortest encodings gives. */
  lemma PaddedSize()
    ensures WellFormed([0x83, 0]) && UnsignedValue([0x83, 0]) == 3
    ensures
      var ss := [Section([0x83, 0], Memories([1], [Limits(false, false, [0], [1], None)]))];
      SectionsFit(ss) && SectionsBytes(ss) == [5, 0x83, 0, 1, 0, 1]
  {
    assert [0x83, 0][1..] == [0];
    var l := Limits(false, false, [0], [1], None);
    assert LimitsBytes(l) == [0, 1];
    assert [l][1..] == [] && MemoriesBytes([l]) == [0, 1];
    var s := Section([0x83, 0], Memories([1], [l]));
    assert Content(s) == [1, 0, 1];
    assert [s][1..] == [];
  }
}
