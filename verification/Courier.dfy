/**
 The relocation loops as the program runs them: scanning with a cursor and a growing list of descriptors,
 laying out payloads, writing the text with a read and a write position, and copying payloads.
 Each is proved equal to the functions of `Transfer`.
 */
module Courier {
  import opened Options
  import opened Numerals
  import opened Descriptors
  import opened Transfer
  import opened Relocation

  /** The process's memory. */
  class Memory {
    var bytes: Host

    constructor (h: Host)
      ensures bytes == h
    {
      bytes := h;
    }

    method Write(a: nat, t: string)
      modifies this
      ensures bytes == Store(old(bytes), a, t)
    {
      bytes := Store(bytes, a, t);
    }
  }

  function Joined(es: seq<Entry>, c: Option<Collected>): Option<Collected> {
    if c.None? then None else Some(Collected(es + c.value.entries, c.value.capacity))
  }

  /** One turn of the scanning loop. */
  lemma CollectStep(src: Option<Module>, dst: Module, s: string, i: nat, capacity: nat, q: nat, done: seq<Entry>)
    requires i <= |s| && Descriptors.Next(s, i) == Some(q)
    ensures var now := Collect(src, dst, s, i, capacity);
      var d := Describe(s, q);
      if d.None? || Prepare(src, dst, d.value).None? || capacity + Growth(d.value) >= SIZE then now.None?
      else
        var e := Prepare(src, dst, d.value).value;
        Joined(done, now) == Joined(done + [e], Collect(src, dst, s, d.value.end, capacity + Growth(d.value)))
  {
    hide Descriptors.Next, Describe, Prepare, Growth;
    var d := Describe(s, q);
    if d.Some? && Prepare(src, dst, d.value).Some? {
      var e := Prepare(src, dst, d.value).value;
      var rest := Collect(src, dst, s, d.value.end, capacity + Growth(d.value));
      assert rest.Some? ==> done + ([e] + rest.value.entries) == done + [e] + rest.value.entries;
    }
  }

  method ScanMessage(src: Option<Module>, dst: Module, s: string) returns (r: Option<Collected>)
    requires |s| + 1 < SIZE
    ensures r == Collect(src, dst, s, 0, |s| + 1)
  {
    hide Descriptors.Next, Describe, Prepare, Collect;
    var entries: seq<Entry>, capacity: nat, search: nat := [], |s| + 1, 0;
    ghost var all := Collect(src, dst, s, 0, |s| + 1);
    assert all == Joined([], all) by {
      if all.Some? { assert [] + all.value.entries == all.value.entries; }
    }
    while search < |s|
      invariant search <= |s| && capacity < SIZE
      invariant all == Joined(entries, Collect(src, dst, s, search, capacity))
    {
      var q := Descriptors.Next(s, search);
      if q.None? {
        break;
      }
      CollectStep(src, dst, s, search, capacity, q.value, entries);
      var d := Describe(s, q.value);
      if d.None? {
        return None;
      }
      var e := Prepare(src, dst, d.value);
      if e.None? {
        return None;
      }
      var added := Growth(d.value);
      if capacity > SIZE - 1 - added {
        return None;
      }
      entries, capacity, search := entries + [e.value], capacity + added, d.value.end;
    }
    NoneAtEnd(src, dst, s, search, capacity);
    assert entries + [] == entries;
    r := Some(Collected(entries, capacity));
  }

  lemma NoneAtEnd(src: Option<Module>, dst: Module, s: string, i: nat, capacity: nat)
    requires i <= |s| && (i == |s| || Descriptors.Next(s, i).None?)
    ensures Collect(src, dst, s, i, capacity) == Some(Collected([], capacity))
  {
  }

  function Continued(es: seq<Entry>, p: Option<Layout>): Option<Layout> {
    if p.None? then None else Some(Layout(es + p.value.entries, p.value.size))
  }

  lemma PackStep(es: seq<Entry>, i: nat, size: nat, done: seq<Entry>)
    requires i < |es|
    ensures !es[i].packed ==> Continued(done, Pack(es[i..], size)) == Continued(done + [es[i]], Pack(es[i + 1..], size))
    ensures es[i].packed && Align(size).None? ==> Pack(es[i..], size).None?
    ensures es[i].packed && Align(size).Some? ==>
      var o := Align(size).value;
      if o + es[i].loc.size >= SIZE then Pack(es[i..], size).None?
      else
        Continued(done, Pack(es[i..], size))
        == Continued(done + [es[i].(offset := o)], Pack(es[i + 1..], o + es[i].loc.size))
  {
    hide Align;
    var tail := es[i..];
    assert tail[1..] == es[i + 1..] && tail[0] == es[i];
    var o := if Align(size).Some? then Align(size).value else 0;
    var plain, moved := Pack(es[i + 1..], size), Pack(es[i + 1..], o + es[i].loc.size);
    assert plain.Some? ==> done + ([es[i]] + plain.value.entries) == done + [es[i]] + plain.value.entries;
    var f := es[i].(offset := o);
    assert moved.Some? ==> done + ([f] + moved.value.entries) == done + [f] + moved.value.entries;
  }

  method LayoutPayloads(es: seq<Entry>, size: nat) returns (r: Option<Layout>)
    requires size < SIZE
    ensures r == Pack(es, size)
  {
    hide Pack, Align;
    var entries: seq<Entry>, end: nat := es, size;
    var i: nat := 0;
    assert es[0..] == es;
    ghost var all := Pack(es, size);
    assert all == Continued([], all) by {
      if all.Some? { assert [] + all.value.entries == all.value.entries; }
    }
    while i < |es|
      invariant 0 <= i <= |es| == |entries| && end < SIZE
      invariant entries[i..] == es[i..]
      invariant all == Continued(entries[..i], Pack(es[i..], end))
    {
      PackStep(es, i, end, entries[..i]);
      var e := entries[i];
      assert e == entries[i..][0] == es[i..][0] == es[i];
      assert entries[i + 1..] == entries[i..][1..] && es[i + 1..] == es[i..][1..];
      if e.packed {
        var a := Align(end);
        if a.None? {
          return None;
        }
        if e.loc.size > SIZE - 1 - a.value {
          return None;
        }
        entries := entries[i := e.(offset := a.value)];
        end := a.value + e.loc.size;
      }
      assert entries[..i + 1] == entries[..i] + [entries[i]];
      i := i + 1;
    }
    PackNone(end);
    assert entries[..i] + [] == entries && es[i..] == [];
    r := Some(Layout(entries, end));
  }

  lemma PackNone(size: nat)
    ensures Pack([], size) == Some(Layout([], size))
  {
  }

  // ---------------------------------------------------------------- writing the text

  /** The text from the `i`-th descriptor on, read from position `p`. */
  function Tail(s: string, p: nat, es: seq<Entry>, block: nat): string
    requires Placed(s, p, Locations(es))
  {
    Rewrite(s, p, Locations(es), Addresses(es, block))
  }

  lemma TailStep(s: string, p: nat, es: seq<Entry>, block: nat)
    requires Placed(s, p, Locations(es)) && es != []
    ensures var l := es[0].loc;
      var d := if es[0].packed then block + es[0].offset else es[0].dst;
      p <= l.start < l.end <= |s| && Placed(s, l.end, Locations(es[1..]))
      && Tail(s, p, es, block) == s[p..l.start] + Print(d) + Tail(s, l.end, es[1..], block)
  {
    assert Locations(es)[1..] == Locations(es[1..]) && Addresses(es, block)[1..] == Addresses(es[1..], block);
  }

  lemma TailNone(s: string, p: nat, block: nat)
    requires p <= |s|
    ensures Placed(s, p, Locations([])) && Tail(s, p, [], block) == s[p..]
  {
  }

  /** Host memories that hold the same bytes. */
  ghost predicate Alike(h: Host, g: Host) { forall x: nat :: g(x) == h(x) }

  /** `t` stands at `a`, and nothing outside `a` to `a + room` changed. */
  ghost predicate Wrote(h: Host, g: Host, a: nat, t: string, room: nat) {
    && (forall x: nat | a <= x < a + |t| :: g(x) == t[x - a])
    && (forall x: nat | x < a || x >= a + room :: g(x) == h(x))
  }

  lemma WroteMore(h: Host, g: Host, a: nat, t: string, u: string, room: nat, more: nat)
    requires Wrote(h, g, a, t, room) && room <= more && |t| + |u| <= more
    ensures Wrote(h, Store(g, a + |t|, u), a, t + u, more)
  {
  }

  lemma WroteLess(h: Host, g: Host, a: nat, t: string, u: string, room: nat)
    requires Wrote(h, g, a, t + u, room)
    ensures Wrote(h, g, a, t, room)
  {
    forall x: nat | a <= x < a + |t| ensures g(x) == t[x - a] {
      assert g(x) == (t + u)[x - a];
    }
  }

  /** The text written so far, and what is left of it. */
  ghost predicate Progress(h: Host, g: Host, at: nat, s: string, text: string, w: string, p: nat, es: seq<Entry>,
      block: nat, capacity: nat)
  {
    && Placed(s, p, Locations(es)) && Fit(Addresses(es, block)) && p <= |s|
    && (forall k | 0 <= k < |es| :: es[k].loc.start <= es[k].loc.end)
    && text == w + Tail(s, p, es, block)
    && |w| + (|s| - p) + 1 + Reserve(Locations(es)) <= capacity
    && Wrote(h, g, at, w, |w| + 1)
  }

  /** The address that the text gets for an entry. */
  function NewAddress(e: Entry, block: nat): nat { if e.packed then block + e.offset else e.dst }

  lemma ProgressRoom(h: Host, g: Host, at: nat, s: string, text: string, w: string, p: nat, es: seq<Entry>,
      block: nat, capacity: nat)
    requires Progress(h, g, at, s, text, w, p, es, block, capacity) && es != []
    ensures p <= es[0].loc.start < es[0].loc.end <= |s|
    ensures |w| + (es[0].loc.start - p) + |Print(NewAddress(es[0], block))| < capacity
  {
    hide Print, Placed, Tail, Wrote, Reserve, Growth, Fit;
    TailStep(s, p, es, block);
    ReserveStep(es);
    FitStep(es, block);
  }

  lemma ProgressStep(h: Host, g: Host, at: nat, s: string, text: string, w: string, p: nat, es: seq<Entry>,
      block: nat, capacity: nat)
    requires Progress(h, g, at, s, text, w, p, es, block, capacity) && es != []
    ensures var e := es[0];
      p <= e.loc.start < e.loc.end <= |s| &&
      var plain, address := s[p..e.loc.start], Print(NewAddress(e, block));
      var k := Store(Store(g, at + |w|, plain), at + |w| + |plain|, address + [NUL]);
      Progress(h, k, at, s, text, w + plain + address, e.loc.end, es[1..], block, capacity)
  {
    hide Print, Placed, Tail, Wrote, Reserve, Growth, Fit, Store;
    var e := es[0];
    TailStep(s, p, es, block);
    ReserveStep(es);
    FitStep(es, block);
    var plain, address := s[p..e.loc.start], Print(NewAddress(e, block));
    WroteMore(h, g, at, w, plain, |w| + 1, |w| + |plain| + 1);
    WroteMore(h, Store(g, at + |w|, plain), at, w + plain, address + [NUL], |w| + |plain| + 1,
        |w| + |plain| + |address| + 1);
    Regroup(w, plain, address, Tail(s, e.loc.end, es[1..], block));
    WroteLess(h, Store(Store(g, at + |w|, plain), at + |w| + |plain|, address + [NUL]), at, w + plain + address, [NUL],
      |w| + |plain| + |address| + 1);
  }

  lemma ProgressEnd(h: Host, g: Host, at: nat, s: string, text: string, w: string, p: nat, block: nat, capacity: nat)
    requires Progress(h, g, at, s, text, w, p, [], block, capacity)
    ensures p <= |s| && |w| + (|s| - p) + 1 <= capacity
    ensures Alike(Store(h, at, text + [NUL]), Store(g, at + |w|, s[p..] + [NUL]))
  {
    hide Placed, Tail, Wrote, Fit, Store, Alike;
    TailNone(s, p, block);
    var tail := s[p..] + [NUL];
    WroteMore(h, g, at, w, tail, |w| + 1, |w| + |tail|);
    assert w + tail == text + [NUL];
    WroteAll(h, Store(g, at + |w|, tail), at, w + tail);
  }

  /** Writes the text with its terminator; the late capacity checks never fire. */
  method WriteText(mem: Memory, at: nat, s: string, es: seq<Entry>, block: nat, capacity: nat)
    requires Placed(s, 0, Locations(es)) && Fit(Addresses(es, block))
    requires forall k | 0 <= k < |es| :: es[k].loc.start <= es[k].loc.end
    requires capacity == |s| + 1 + Reserve(Locations(es))
    modifies mem
    ensures Alike(Store(old(mem.bytes), at, Tail(s, 0, es, block) + [NUL]), mem.bytes)
  {
    hide Print, Placed, Wrote, Reserve, Fit, Store, Alike, Progress;
    var readPos: nat, writePos: nat := 0, 0;
    var i: nat := 0;
    ghost var h, w := mem.bytes, "";
    ghost var text := Tail(s, 0, es, block);
    assert es[0..] == es;
    ProgressStart(h, at, s, es, block, capacity);
    while i < |es|
      invariant i <= |es| && |w| == writePos
      invariant Progress(h, mem.bytes, at, s, text, w, readPos, es[i..], block, capacity)
    {
      ghost var rest := es[i..];
      var e := es[i];
      assert rest[0] == e && rest[1..] == es[i + 1..];
      ProgressRoom(h, mem.bytes, at, s, text, w, readPos, rest, block, capacity);
      ProgressStep(h, mem.bytes, at, s, text, w, readPos, rest, block, capacity);
      var plain := s[readPos..e.loc.start];
      mem.Write(at + writePos, plain);
      writePos := writePos + |plain|;
      var address := Print(NewAddress(e, block));
      if |address| >= capacity - writePos {
        assert false;
      }
      mem.Write(at + writePos, address + [NUL]);
      w := w + plain + address;
      writePos := writePos + |address|;
      readPos := e.loc.end;
      i := i + 1;
    }
    assert es[i..] == [];
    ProgressEnd(h, mem.bytes, at, s, text, w, readPos, block, capacity);
    var tail := s[readPos..] + [NUL];
    if |tail| > capacity - writePos {
      assert false;
    }
    mem.Write(at + writePos, tail);
  }

  lemma ProgressStart(h: Host, at: nat, s: string, es: seq<Entry>, block: nat, capacity: nat)
    requires Placed(s, 0, Locations(es)) && Fit(Addresses(es, block))
    requires forall k | 0 <= k < |es| :: es[k].loc.start <= es[k].loc.end
    requires capacity == |s| + 1 + Reserve(Locations(es))
    ensures Progress(h, h, at, s, Tail(s, 0, es, block), "", 0, es, block, capacity)
  {
    WroteNothing(h, at);
  }

  lemma Regroup(w: string, x: string, y: string, z: string)
    ensures w + x + (y + [NUL]) == w + x + y + [NUL] && w + (x + y + z) == w + x + y + z
  {
  }

  lemma WroteNothing(h: Host, a: nat)
    ensures Wrote(h, h, a, "", 1)
  {
  }

  lemma WroteAll(h: Host, g: Host, a: nat, t: string)
    requires Wrote(h, g, a, t, |t|)
    ensures Alike(Store(h, a, t), g)
  {
  }

  lemma ReserveStep(es: seq<Entry>)
    requires es != [] && forall k | 0 <= k < |es| :: es[k].loc.start <= es[k].loc.end
    ensures Reserve(Locations(es)) == Growth(es[0].loc) + Reserve(Locations(es[1..]))
    ensures es[0].loc.end - es[0].loc.start + Growth(es[0].loc) >= MAX_ADDRESS_LEN == 26
  {
    assert Locations(es)[1..] == Locations(es[1..]);
  }

  lemma FitStep(es: seq<Entry>, block: nat)
    requires es != [] && Fit(Addresses(es, block))
    ensures |Print(if es[0].packed then block + es[0].offset else es[0].dst)| <= 20 && Fit(Addresses(es[1..], block))
  {
    hide Print;
    PrintLength(Addresses(es, block)[0]);
    assert Addresses(es, block)[1..] == Addresses(es[1..], block);
  }

  // ---------------------------------------------------------------- the whole transfer

  /** Copies the payloads behind the text, in order. */
  method CopyBehind(mem: Memory, at: nat, es: seq<Entry>)
    modifies mem
    ensures mem.bytes == CopyPayloads(old(mem.bytes), at, es)
  {
    hide Store, Bytes;
    var i: nat := 0;
    assert es[0..] == es;
    while i < |es|
      invariant i <= |es|
      invariant CopyPayloads(mem.bytes, at, es[i..]) == CopyPayloads(old(mem.bytes), at, es)
    {
      var e := es[i];
      assert es[i..][0] == e && es[i..][1..] == es[i + 1..];
      if e.packed && e.loc.size > 0 {
        var payload := Bytes(mem.bytes, e.ptr, e.loc.size);
        mem.Write(at + e.offset, payload);
      }
      i := i + 1;
    }
  }

  lemma {:induction false} CopyAlike(h: Host, g: Host, at: nat, es: seq<Entry>)
    requires Alike(h, g)
    ensures Alike(CopyPayloads(h, at, es), CopyPayloads(g, at, es))
    decreases es
  {
    if es != [] {
      var e := es[0];
      assert Bytes(h, e.ptr, e.loc.size) == Bytes(g, e.ptr, e.loc.size);
      CopyAlike(Copied(h, at, e), Copied(g, at, e), at, es[1..]);
    }
  }

  datatype Result = Failed | NoBlock | Freed(block: nat) | Sent(at: nat)

  /** A result, and the memory it leaves, are the specified ones. */
  ghost predicate Ended(r: Result, h: Host, g: Host, block: nat, o: Outcome) {
    match o
    case Refused => r == Failed && g == h
    case NoMemory => r == NoBlock && g == h
    case Released => r == Freed(block) && g == h
    case Delivered(at, k) => r == Sent(at) && Alike(k, g)
  }

  /** The outcome that `Transfer` prescribes, when the allocator answers `malloc(size)`. */
  ghost function Prescribed(h: Host, src: Option<Module>, s: string, dst: Module, malloc: nat -> (nat, Module)): Outcome
  {
    var p := MakePlan(src, dst, s);
    if p.None? || !Placed(s, 0, Locations(p.value.entries)) then Refused
    else Finish(h, s, p.value, malloc(p.value.size).1, malloc(p.value.size).0)
  }

  method PlanMessage(src: Option<Module>, dst: Module, s: string) returns (r: Option<Plan>)
    ensures r == MakePlan(src, dst, s)
    ensures r.Some? ==> Sound(src, dst, s, r.value) && Placed(s, 0, Locations(r.value.entries))
  {
    hide Pack, Collect, Align, Scan, Sound, Placed;
    PlanSound(src, dst, s);
    if |s| + 1 >= SIZE {
      return None;
    }
    var c := ScanMessage(src, dst, s);
    if c.None? {
      return None;
    }
    var size := Align(c.value.capacity);
    if size.None? {
      return None;
    }
    AlignMeans(c.value.capacity);
    var p := LayoutPayloads(c.value.entries, size.value);
    if p.None? {
      return None;
    }
    r := Some(Plan(p.value.entries, c.value.capacity, p.value.size));
    SoundParts(src, dst, s, r.value);
  }

  lemma SoundParts(src: Option<Module>, dst: Module, s: string, plan: Plan)
    requires Sound(src, dst, s, plan)
    ensures Placed(s, 0, Locations(plan.entries)) && plan.capacity == |s| + 1 + Reserve(Locations(plan.entries))
    ensures forall k | 0 <= k < |plan.entries| :: plan.entries[k].loc.start <= plan.entries[k].loc.end
  {
  }

  method CopyMessage(mem: Memory, src: Option<Module>, s: string, dst: Module, malloc: nat -> (nat, Module))
      returns (r: Result, ghost block: nat)
    requires src.Some? ==> src.value.Valid()
    modifies mem
    ensures Ended(r, old(mem.bytes), mem.bytes, block, Prescribed(old(mem.bytes), src, s, dst, malloc))
  {
    hide MakePlan, Placed, Sound, Reserve, Place, Store, CopyPayloads, Unrepresentable;
    block := 0;
    var p := PlanMessage(src, dst, s);
    if p.None? {
      return Failed, 0;
    }
    var plan := p.value;
    var answer := malloc(plan.size);
    block := answer.0;
    if answer.0 == 0 {
      return NoBlock, 0;
    }
    var at := Place(answer.1, answer.0, plan.size);
    if at.None? {
      return Freed(answer.0), answer.0;
    }
    var representable := Representable(plan.entries, answer.0);
    if !representable {
      return Freed(answer.0), answer.0;
    }
    AddressesBelow(src, dst, s, plan, block);
    SoundParts(src, dst, s, plan);
    WriteText(mem, at.value, s, plan.entries, answer.0, plan.capacity);
    CopyAlike(Store(old(mem.bytes), at.value, Tail(s, 0, plan.entries, block) + [NUL]), mem.bytes,
        at.value, plan.entries);
    CopyBehind(mem, at.value, plan.entries);
    r := Sent(at.value);
  }

  method Representable(es: seq<Entry>, block: nat) returns (ok: bool)
    ensures ok == !Unrepresentable(es, block)
  {
    for i := 0 to |es|
      invariant forall k | 0 <= k < i :: es[k].packed ==> block + es[k].offset < SIZE
    {
      if es[i].packed && block + es[i].offset > SIZE - 1 {
        return false;
      }
    }
    ok := true;
  }
}
