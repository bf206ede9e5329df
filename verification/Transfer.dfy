/**
 Relocation of a message from one module to another: resolving each location descriptor in the source
 module's address space, choosing how the destination reaches its bytes, laying out one allocation for the
 rewritten text and the copied payloads, and filling it.
 */
module Transfer {
  import opened Options
  import opened Numerals
  import opened Descriptors

  /** Addressable memory of the process. */
  type Host = nat -> char

  datatype Kind = Native | Runtime | Translated

  /** A module: what runs it, its address width, its active linear memory (base 0: none) and its reservation. */
  datatype Module = Module(kind: Kind, bits: nat, base: nat, size: nat, reserve: nat) {
    predicate ReachesHost() { kind.Native? || (kind.Translated? && bits == 64) }

    /** Its memory is an object of the process, below the top half of the address space. */
    predicate Valid() { base + size < SIZE && size < HOST_BIT }

    predicate Holds(addr: nat, n: nat) { base != 0 && addr <= size && n <= size - addr }
  }

  /** Host bytes that an address stands for, and whether they were named by an offset in linear memory. */
  datatype Span = Span(ptr: nat, inside: bool)

  predicate HostRange(addr: nat, n: nat) { !(addr == 0 && n > 0) && addr + n < SIZE }

  /** The host bytes behind an address of a module, or of the host itself. */
  function Resolve(m: Option<Module>, addr: nat, n: nat): Option<Span>
  {
    if m.None? || m.value.kind.Native? then
      if HostRange(addr, n) then Some(Span(addr, false)) else None
    else if m.value.Holds(addr, n) then Some(Span(m.value.base + addr, true))
    else if m.value.kind.Translated? && m.value.bits == 64 && HOST_BIT <= addr then
      if HostRange(addr - HOST_BIT, n) then Some(Span(addr - HOST_BIT, false)) else None
    else None
  }

  /** The length of the message at host address `p`, `len` characters before its terminator, if it may be read. */
  function Measure(m: Option<Module>, p: nat, len: nat): Option<nat> {
    if m.None? || m.value.base == 0 || m.value.kind.Native? then Some(len)
    else
      var start := m.value.base;
      if start + m.value.size < SIZE && start <= p < start + m.value.size then
        if len < m.value.size - (p - start) then Some(len) else None
      else
        var guard := 0x2_0001_0000;
        var reach := if m.value.reserve > guard then m.value.reserve else guard;
        var fromRuntime := m.value.kind.Translated? && m.value.bits == 32 && (p < start || p - start >= reach);
        if !m.value.ReachesHost() && !fromRuntime then None else Some(len)
  }

  /** A descriptor with the bytes it stands for and its delivery. */
  datatype Entry = Entry(loc: Location, ptr: nat, dst: nat, packed: bool, offset: nat)

  /** How a destination reaches the bytes: same memory, host pointer, or a copy behind the message. */
  function Prepare(src: Option<Module>, dst: Module, l: Location): Option<Entry> {
    match Resolve(src, l.addr, l.size)
    case None => None
    case Some(p) =>
      if l.size == 0 then Some(Entry(l, p.ptr, 0, false, 0))
      else if p.inside && src.value.base == dst.base && l.addr <= dst.size && l.size <= dst.size - l.addr then
        Some(Entry(l, p.ptr, l.addr, false, 0))
      else if dst.ReachesHost() then
        if dst.kind.Translated? then
          if p.ptr >= HOST_BIT then None else Some(Entry(l, p.ptr, p.ptr + HOST_BIT, false, 0))
        else Some(Entry(l, p.ptr, p.ptr, false, 0))
      else Some(Entry(l, p.ptr, 0, true, 0))
  }

  const MAX_ADDRESS_LEN := 26
  const PAYLOAD_ALIGNMENT := 16

  /** Extra text room for an address that may grow. */
  function Growth(l: Location): nat
    requires l.start <= l.end
  {
    if l.end - l.start < MAX_ADDRESS_LEN then MAX_ADDRESS_LEN - (l.end - l.start) else 0
  }

  datatype Collected = Collected(entries: seq<Entry>, capacity: nat)

  /** The scanning loop from position `i`, with the text capacity reserved so far. */
  function Collect(src: Option<Module>, dst: Module, s: string, i: nat, capacity: nat): Option<Collected>
    requires i <= |s|
    decreases |s| - i
  {
    match Next(s, i)
    case None => Some(Collected([], capacity))
    case Some(q) =>
      match Describe(s, q)
      case None => None
      case Some(l) =>
        match Prepare(src, dst, l)
        case None => None
        case Some(e) =>
          if capacity + Growth(l) >= SIZE then None
          else
            match Collect(src, dst, s, l.end, capacity + Growth(l))
            case None => None
            case Some(c) => Some(Collected([e] + c.entries, c.capacity))
  }

  /** Rounding up to the payload alignment, unless the addition would overflow. */
  function Align(v: nat): (r: Option<nat>)
  {
    if v > SIZE - PAYLOAD_ALIGNMENT then None
    else Some((v + PAYLOAD_ALIGNMENT - 1) / PAYLOAD_ALIGNMENT * PAYLOAD_ALIGNMENT)
  }

  datatype Layout = Layout(entries: seq<Entry>, size: nat)

  /** Gives each packed payload its place behind the first `size` bytes. */
  function Pack(es: seq<Entry>, size: nat): Option<Layout>
    decreases es
  {
    if es == [] then Some(Layout([], size))
    else if !es[0].packed then
      match Pack(es[1..], size)
      case None => None
      case Some(p) => Some(Layout([es[0]] + p.entries, p.size))
    else
      match Align(size)
      case None => None
      case Some(offset) =>
        if offset + es[0].loc.size >= SIZE then None
        else
          match Pack(es[1..], offset + es[0].loc.size)
          case None => None
          case Some(p) => Some(Layout([es[0].(offset := offset)] + p.entries, p.size))
  }

  /** What is known before anything is allocated. */
  datatype Plan = Plan(entries: seq<Entry>, capacity: nat, size: nat)

  function MakePlan(src: Option<Module>, dst: Module, s: string): Option<Plan> {
    if |s| + 1 >= SIZE then None
    else
      match Collect(src, dst, s, 0, |s| + 1)
      case None => None
      case Some(c) =>
        match Align(c.capacity)
        case None => None
        case Some(size) =>
          match Pack(c.entries, size)
          case None => None
          case Some(p) => Some(Plan(p.entries, c.capacity, p.size))
  }

  function Locations(es: seq<Entry>): (ls: seq<Location>)
    ensures |ls| == |es| && forall k | 0 <= k < |es| :: ls[k] == es[k].loc
  {
    seq(|es|, k requires 0 <= k < |es| => es[k].loc)
  }

  /** The rewritten addresses, once the allocation stands at `block`. */
  function Addresses(es: seq<Entry>, block: nat): (ds: seq<nat>)
    ensures |ds| == |es|
    ensures forall k | 0 <= k < |es| :: ds[k] == if es[k].packed then block + es[k].offset else es[k].dst
  {
    seq(|es|, k requires 0 <= k < |es| => if es[k].packed then block + es[k].offset else es[k].dst)
  }

  /** Host bytes `a` to `a + n`. */
  function Bytes(h: Host, a: nat, n: nat): (t: string)
    ensures |t| == n && forall k | 0 <= k < n :: t[k] == h(a + k)
  {
    seq(n, k requires 0 <= k < n => h(a + k))
  }

  function Store(h: Host, a: nat, t: string): Host {
    (x: nat) => if a <= x < a + |t| then t[x - a] else h(x)
  }

  /** Copies the packed payloads, one after another, into the allocation at host address `at`. */
  function CopyPayloads(h: Host, at: nat, es: seq<Entry>): Host
    decreases es
  {
    if es == [] then h
    else
      var e := es[0];
      CopyPayloads(if e.packed && e.loc.size > 0 then Store(h, at + e.offset, Bytes(h, e.ptr, e.loc.size))
        else h, at, es[1..])
  }

  /** The text sent for `s`. */
  function Text(s: string, plan: Plan, block: nat): string
    requires Placed(s, 0, Locations(plan.entries))
  {
    Rewrite(s, 0, Locations(plan.entries), Addresses(plan.entries, block))
  }

  const NUL: char := '\0'

  /** How a transfer ends; after `Released` the destination has its block back. */
  datatype Outcome = Refused | NoMemory | Released | Delivered(at: nat, host: Host)

  /** Where an allocation of the destination stands in the host, if it is one. */
  function Place(dst: Module, block: nat, size: nat): Option<nat> {
    if dst.kind.Native? then Some(block)
    else if dst.Holds(block, size) then Some(dst.base + block)
    else None
  }

  /** Packed addresses that do not fit a pointer. */
  predicate Unrepresentable(es: seq<Entry>, block: nat) {
    exists k | 0 <= k < |es| :: es[k].packed && block + es[k].offset >= SIZE
  }

  /** The part of a transfer after the destination's allocator answered `block` (0: failure). */
  ghost function Finish(h: Host, s: string, plan: Plan, dst: Module, block: nat): Outcome
    requires Placed(s, 0, Locations(plan.entries))
  {
    if block == 0 then NoMemory
    else
      match Place(dst, block, plan.size)
      case None => Released
      case Some(at) =>
        if Unrepresentable(plan.entries, block) then Released
        else Delivered(at, CopyPayloads(Store(h, at, Text(s, plan, block) + [NUL]), at, plan.entries))
  }

  // ---------------------------------------------------------------- what the parts promise

  /** An address and a byte of linear memory have one offset between them; nothing else of it is in reach. */
  predicate InMemory(m: Module, addr: nat, n: nat) { m.base != 0 && addr + n <= m.size }

  /** Where one byte of a module's address space is in the host. */
  function ByteAt(m: Option<Module>, a: nat): Option<nat> {
    if m.None? || m.value.kind.Native? then (if 0 < a < SIZE - 1 then Some(a) else None)
    else if InMemory(m.value, a, 1) then Some(m.value.base + a)
    else if m.value.kind.Translated? && m.value.bits == 64 && HOST_BIT < a < HOST_BIT + SIZE - 1 then Some(a - HOST_BIT)
    else None
  }

  /**
   A range of bytes resolves exactly when each of its bytes is in the module's address space, and then its bytes
   stand in the host one after another, all inside linear memory or all outside.
   */
  lemma ResolveMeans(m: Option<Module>, addr: nat, n: nat)
    requires (m.Some? ==> m.value.Valid()) && n > 0 && addr < SIZE
    ensures var r := Resolve(m, addr, n);
      && (r.Some? <==> forall a | addr <= a < addr + n :: ByteAt(m, a).Some?)
      && (r.Some? ==> forall a | addr <= a < addr + n :: ByteAt(m, a) == Some(r.value.ptr + (a - addr)))
      && (r.Some? ==> (r.value.inside <==> m.Some? && !m.value.kind.Native? && InMemory(m.value, addr, n)))
  {
    if forall a | addr <= a < addr + n :: ByteAt(m, a).Some? {
      assert ByteAt(m, addr).Some? && ByteAt(m, addr + n - 1).Some?;
      if m.Some? && addr < m.value.size < addr + n {
        assert ByteAt(m, m.value.size).Some?;
      }
    } else {
      var a :| addr <= a < addr + n && ByteAt(m, a).None?;
    }
  }

  /** An empty range resolves wherever an address may point to, the end of the memory included. */
  lemma ResolveEmpty(m: Option<Module>, addr: nat)
    requires (m.Some? ==> m.value.Valid()) && addr < SIZE
    ensures Resolve(m, addr, 0).Some? <==>
      || m.None? || m.value.kind.Native? || InMemory(m.value, addr, 0)
      || (m.value.kind.Translated? && m.value.bits == 64 && HOST_BIT <= addr)
  {
  }

  /** The bytes are in a linear memory that the destination shares, at an offset that is valid there, too. */
  predicate Shared(src: Option<Module>, dst: Module, l: Location) {
    && src.Some? && !src.value.kind.Native? && InMemory(src.value, l.addr, l.size)
    && src.value.base == dst.base && l.addr + l.size <= dst.size
  }

  /**
   The descriptor names no bytes, or bytes in the half of the host's memory that 64-bit translated code cannot name.
   */
  predicate Undeliverable(src: Option<Module>, dst: Module, l: Location) {
    var r := Resolve(src, l.addr, l.size);
    || r.None?
    || (l.size > 0 && !Shared(src, dst, l) && dst.kind.Translated? && dst.bits == 64 && r.value.ptr >= HOST_BIT)
  }

  /** Native modules and 64-bit translated ones may hold pointers into the host. */
  predicate HostPointers(m: Module) { m.kind == Native || (m.kind == Translated && m.bits == 64) }

  /**
   A descriptor is refused exactly when it is undeliverable; its bytes are copied exactly when there are any, they are
   in no shared memory and the destination does not reach the host; an empty one is delivered as address 0.
   */
  lemma PrepareMeans(src: Option<Module>, dst: Module, l: Location)
    ensures var p := Prepare(src, dst, l);
      && (p.None? <==> Undeliverable(src, dst, l))
      && (p.Some? ==> (p.value.packed <==> l.size > 0 && !Shared(src, dst, l) && !HostPointers(dst)))
      && (p.Some? && l.size == 0 ==> p.value.dst == 0)
  {
  }

  /** A message is measured up to its terminator, which must be in linear memory when the text starts there. */
  lemma MeasureInside(m: Module, p: nat, len: nat)
    requires m.base + m.size < SIZE && m.base != 0 && !m.kind.Native? && m.base <= p < m.base + m.size
    ensures Measure(Some(m), p, len) == if p + len + 1 <= m.base + m.size then Some(len) else None
  {
  }

  /**
   A message elsewhere is measured exactly when the module may hold host pointers, or is translated 32-bit code and the
   message is before its memory, or behind both its reservation and what two 32-bit numbers and a page can add up to.
   */
  lemma MeasureOutside(m: Module, p: nat, len: nat)
    requires m.base != 0 && !m.kind.Native? && !(m.base + m.size < SIZE && m.base <= p < m.base + m.size)
    ensures Measure(Some(m), p, len) ==
      if || HostPointers(m)
         || (m.kind.Translated? && m.bits == 32
             && (p < m.base || (p >= m.base + m.reserve && p >= m.base + 0x2_0001_0000)))
      then Some(len) else None
  {
  }

  /** Rounding gives the least aligned size, and fails only when there is none. */
  lemma AlignMeans(v: nat)
    ensures match Align(v)
      case Some(r) => v <= r < SIZE && r % 16 == 0 && r < v + 16
      case None => forall x | v <= x < SIZE :: x % 16 != 0
  {
  }

  function Reserve(ls: seq<Location>): nat
    requires forall k | 0 <= k < |ls| :: ls[k].start <= ls[k].end
  {
    if ls == [] then 0 else Growth(ls[0]) + Reserve(ls[1..])
  }

  /** The entries deliver exactly these descriptors, and the text capacity was added up. */
  predicate Gathered(src: Option<Module>, dst: Module, ls: seq<Location>, capacity: nat, c: Collected) {
    && Locations(c.entries) == ls
    && (forall k | 0 <= k < |ls| :: ls[k].start <= ls[k].end)
    && (forall k | 0 <= k < |ls| :: Prepare(src, dst, ls[k]) == Some(c.entries[k]))
    && c.capacity == capacity + Reserve(ls) < SIZE
  }

  /** Some descriptor cannot be delivered, or the text capacity overflows. */
  predicate Hopeless(src: Option<Module>, dst: Module, ls: seq<Location>, capacity: nat) {
    && (forall k | 0 <= k < |ls| :: ls[k].start <= ls[k].end)
    && ((exists k | 0 <= k < |ls| :: Undeliverable(src, dst, ls[k])) || capacity + Reserve(ls) >= SIZE)
  }

  lemma GatheredFirst(src: Option<Module>, dst: Module, l: Location, e: Entry, ls: seq<Location>,
      capacity: nat, c: Collected)
    requires l.start <= l.end && Prepare(src, dst, l) == Some(e) && Gathered(src, dst, ls, capacity + Growth(l), c)
    ensures Gathered(src, dst, [l] + ls, capacity, Collected([e] + c.entries, c.capacity))
  {
    hide Prepare, Growth, Reserve, Locations;
    PrepareLocation(src, dst, l);
    var all := [l] + ls;
    assert forall k | 0 < k < |all| :: all[k] == ls[k - 1] && ([e] + c.entries)[k] == c.entries[k - 1];
    ReserveFirst(l, ls);
    LocationsFirst(e, c.entries);
  }

  lemma ReserveFirst(l: Location, ls: seq<Location>)
    requires forall k | 0 <= k < |[l] + ls| :: ([l] + ls)[k].start <= ([l] + ls)[k].end
    requires forall k | 0 <= k < |ls| :: ls[k].start <= ls[k].end
    ensures l.start <= l.end && Reserve([l] + ls) == Growth(l) + Reserve(ls)
  {
    hide Growth;
    assert ([l] + ls)[0] == l && ([l] + ls)[1..] == ls;
  }

  lemma LocationsFirst(e: Entry, es: seq<Entry>)
    ensures Locations([e] + es) == [e.loc] + Locations(es)
  {
  }

  lemma HopelessFirst(src: Option<Module>, dst: Module, l: Location, ls: seq<Location>, capacity: nat)
    requires l.start <= l.end && forall k | 0 <= k < |ls| :: ls[k].start <= ls[k].end
    requires Undeliverable(src, dst, l) || capacity + Growth(l) >= SIZE || Hopeless(src, dst, ls, capacity + Growth(l))
    ensures Hopeless(src, dst, [l] + ls, capacity)
  {
    hide Undeliverable, Growth;
    var all := [l] + ls;
    assert all[1..] == ls && all[0] == l;
    assert forall k | 0 <= k < |ls| :: all[k + 1] == ls[k];
  }

  /** The loop succeeds exactly when the text scans, every descriptor can be delivered, and the capacity fits. */
  lemma {:induction false} CollectMeans(src: Option<Module>, dst: Module, s: string, i: nat, capacity: nat)
    requires i <= |s| && capacity < SIZE
    ensures match Collect(src, dst, s, i, capacity)
      case Some(c) => Scan(s, i).Some? && Gathered(src, dst, Scan(s, i).value, capacity, c)
      case None => Scan(s, i).Some? ==> Hopeless(src, dst, Scan(s, i).value, capacity)
    decreases |s| - i
  {
    hide Next, Describe, Prepare, Undeliverable, Placed, Gathered, Hopeless, Growth, Scan;
    ScanStep(s, i);
    if Next(s, i).None? {
      GatheredNone(src, dst, capacity);
    } else if Describe(s, Next(s, i).value).Some? {
      var l := Describe(s, Next(s, i).value).value;
      var more := capacity + Growth(l);
      var p, tail := Prepare(src, dst, l), Scan(s, l.end);
      PrepareMeans(src, dst, l);
      if tail.Some? {
        PlacedOrder(s, l.end, tail.value);
      }
      if p.Some? && more < SIZE {
        CollectMeans(src, dst, s, l.end, more);
        var c := Collect(src, dst, s, l.end, more);
        if c.Some? {
          GatheredFirst(src, dst, l, p.value, tail.value, capacity, c.value);
        } else if tail.Some? {
          HopelessFirst(src, dst, l, tail.value, capacity);
        }
      } else if tail.Some? {
        HopelessFirst(src, dst, l, tail.value, capacity);
      }
    }
  }

  lemma GatheredNone(src: Option<Module>, dst: Module, capacity: nat)
    requires capacity < SIZE
    ensures Gathered(src, dst, [], capacity, Collected([], capacity))
  {
    assert Locations([]) == [];
  }

  lemma PrepareLocation(src: Option<Module>, dst: Module, l: Location)
    ensures var p := Prepare(src, dst, l); p.Some? ==> p.value.loc == l
  {
  }

  /** The layout with unbounded numbers. */
  function IdealSize(es: seq<Entry>, size: nat): nat
    decreases es
  {
    if es == [] then size
    else if !es[0].packed then IdealSize(es[1..], size)
    else
      IdealSize(es[1..], (size + PAYLOAD_ALIGNMENT - 1) / PAYLOAD_ALIGNMENT * PAYLOAD_ALIGNMENT + es[0].loc.size)
  }

  /** Payloads are packed tightly: beside their bytes they take at most 15 bytes each. */
  lemma {:induction false} IdealTight(es: seq<Entry>, size: nat)
    ensures IdealSize(es, size) <= size + Needed(es)
    decreases es
  {
    if es != [] {
      var more := if es[0].packed then (size + PAYLOAD_ALIGNMENT - 1) / PAYLOAD_ALIGNMENT * PAYLOAD_ALIGNMENT
        + es[0].loc.size else size;
      IdealTight(es[1..], more);
    }
  }

  function Needed(es: seq<Entry>): nat
    decreases es
  {
    if es == [] then 0 else (if es[0].packed then es[0].loc.size + 15 else 0) + Needed(es[1..])
  }

  /** The reservation has room for 26 characters for each address, or for the address itself if it is longer. */
  lemma {:induction false} ReserveMeans(ls: seq<Location>)
    requires forall k | 0 <= k < |ls| :: ls[k].start <= ls[k].end
    ensures Reserve(ls) + Spans(ls) == Rooms(ls)
    decreases ls
  {
    if ls != [] {
      ReserveMeans(ls[1..]);
    }
  }

  /** The characters of all addresses, and the room for all addresses. */
  function Spans(ls: seq<Location>): int { if ls == [] then 0 else ls[0].end - ls[0].start + Spans(ls[1..]) }

  function Rooms(ls: seq<Location>): int {
    if ls == [] then 0 else (if ls[0].end - ls[0].start > 26 then ls[0].end - ls[0].start else 26) + Rooms(ls[1..])
  }

  lemma {:induction false} IdealGrows(es: seq<Entry>, size: nat)
    ensures IdealSize(es, size) >= size
    decreases es
  {
    if es != [] {
      IdealGrows(es[1..], if es[0].packed then (size + PAYLOAD_ALIGNMENT - 1) / PAYLOAD_ALIGNMENT * PAYLOAD_ALIGNMENT
        + es[0].loc.size else size);
    }
  }

  /** Payloads stand behind the first `lo` bytes, aligned, inside the allocation, one behind the other. */
  predicate LaidOut(es: seq<Entry>, lo: nat, hi: nat) {
    && (forall k | 0 <= k < |es| && es[k].packed ::
          lo <= es[k].offset && es[k].offset % PAYLOAD_ALIGNMENT == 0 && es[k].offset + es[k].loc.size <= hi)
    && (forall j, k | 0 <= j < k < |es| && es[j].packed
       && es[k].packed :: es[j].offset + es[j].loc.size <= es[k].offset)
  }

  /** Only the offsets of packed entries change. */
  predicate Same(es: seq<Entry>, fs: seq<Entry>) {
    |es| == |fs| && forall k | 0 <= k < |es| :: fs[k] == if es[k].packed then es[k].(offset := fs[k].offset) else es[k]
  }

  lemma LaidOutFirst(e: Entry, rest: seq<Entry>, lo: nat, mid: nat, hi: nat)
    requires LaidOut(rest, mid, hi) && lo <= mid <= hi
    requires e.packed ==> lo <= e.offset && e.offset % PAYLOAD_ALIGNMENT == 0 && e.offset + e.loc.size <= mid
    ensures LaidOut([e] + rest, lo, hi)
  {
    var es := [e] + rest;
    assert forall k | 0 < k < |es| :: es[k] == rest[k - 1];
  }

  /** The checked layout fails exactly when the unbounded one does not fit, and is otherwise the same size. */
  lemma {:induction false} PackMeans(es: seq<Entry>, size: nat)
    requires size < SIZE
    ensures match Pack(es, size)
      case Some(p) => p.size == IdealSize(es, size) < SIZE && size <= p.size && Same(es, p.entries)
        && LaidOut(p.entries, size, p.size)
      case None => IdealSize(es, size) >= SIZE
    decreases es
  {
    hide LaidOut;
    if es == [] {
      LaidOutNone(size);
    } else if !es[0].packed {
      PackMeans(es[1..], size);
      if Pack(es[1..], size).Some? {
        var p := Pack(es[1..], size).value;
        LaidOutFirst(es[0], p.entries, size, size, p.size);
      }
    } else {
      AlignMeans(size);
      var a := (size + PAYLOAD_ALIGNMENT - 1) / PAYLOAD_ALIGNMENT * PAYLOAD_ALIGNMENT;
      var end := a + es[0].loc.size;
      IdealGrows(es[1..], end);
      if Align(size).Some? && end < SIZE {
        PackMeans(es[1..], end);
        if Pack(es[1..], end).Some? {
          var p := Pack(es[1..], end).value;
          LaidOutFirst(es[0].(offset := a), p.entries, size, end, p.size);
        }
      }
    }
  }

  lemma LaidOutNone(size: nat)
    ensures LaidOut([], size, size)
  {
  }
}
