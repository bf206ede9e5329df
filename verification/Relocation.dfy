/**
 What relocation promises: the layout holds everything, every rewritten address denotes the original bytes
 in the destination, and so over any number of hops.
 */
module Relocation {
  import opened Options
  import opened Numerals
  import opened Descriptors
  import opened Transfer

  // ---------------------------------------------------------------- the text stays in its reservation

  predicate Fit(ds: seq<nat>) { forall k | 0 <= k < |ds| :: ds[k] < SIZE }

  /** Characters written before the k-th address. */
  function Before(s: string, i: nat, ls: seq<Location>, ds: seq<nat>, k: nat): nat
    requires Placed(s, i, ls) && |ds| == |ls| && k < |ls|
    decreases ls
  {
    ls[0].start - i + if k == 0 then 0 else |Print(ds[0])| + Before(s, ls[0].end, ls[1..], ds[1..], k - 1)
  }

  /** Every write of the text leaves room for a terminator, so both late capacity checks always pass. */
  lemma {:induction false} TextFits(s: string, i: nat, ls: seq<Location>, ds: seq<nat>)
    requires Placed(s, i, ls) && |ds| == |ls| && Fit(ds)
    ensures forall k | 0 <= k < |ls| :: ls[k].start <= ls[k].end
    ensures |Rewrite(s, i, ls, ds)| <= |s| - i + Reserve(ls)
    ensures forall k | 0 <= k < |ls| :: Before(s, i, ls, ds, k) + |Print(ds[k])| <= |s| - i + Reserve(ls)
    decreases ls
  {
    hide Print;
    PlacedOrder(s, i, ls);
    if ls != [] {
      var rest, more := ls[1..], ds[1..];
      TextFits(s, ls[0].end, rest, more);
      PrintLength(ds[0]);
      forall k | 0 <= k < |ls| ensures Before(s, i, ls, ds, k) + |Print(ds[k])| <= |s| - i + Reserve(ls) {
        if k > 0 {
          assert rest[k - 1] == ls[k] && more[k - 1] == ds[k];
          assert Before(s, ls[0].end, rest, more, k - 1) + |Print(more[k - 1])| <= |s| - ls[0].end + Reserve(rest);
        }
      }
    }
  }

  // ---------------------------------------------------------------- the destination sees the same bytes

  /** A module after its allocator ran: its memory may have grown in place. */
  predicate Grows(m: Module, n: Module) { n == m.(size := n.size) && m.size <= n.size && n.Valid() }

  /** A linear memory and a host reservation of a native module are never the same object. */
  predicate Apart(src: Option<Module>, dst: Module) {
    src.Some? && !src.value.kind.Native? && src.value.base != 0 && src.value.base == dst.base ==> !dst.kind.Native?
  }

  /** Where the destination finds the bytes of an entry. */
  function Where(e: Entry, at: nat): nat { if e.packed then at + e.offset else e.ptr }

  /** Each of the three deliveries gives an address that the destination resolves to the intended bytes. */
  lemma DeliveredAddress(src: Option<Module>, dst: Module, e: Entry, grown: Module, block: nat, at: nat,
      size: nat, offset: nat)
    requires Prepare(src, dst, e.loc) == Some(e) && e.loc.addr < SIZE
    requires (src.Some? ==> src.value.Valid()) && Grows(dst, grown) && Apart(src, dst)
    requires block > 0 && Place(grown, block, size) == Some(at)
    requires e.packed ==> offset + e.loc.size <= size && block + offset < SIZE
    requires !e.packed ==> offset == 0
    ensures var f := e.(offset := offset);
      var d := if f.packed then block + f.offset else f.dst;
      var r := Resolve(Some(grown), d, f.loc.size);
      d < SIZE && r.Some? && (f.loc.size > 0 ==> r.value.ptr == Where(f, at))
    ensures var r := Resolve(src, e.loc.addr, e.loc.size); r.Some? && r.value.ptr == e.ptr
  {
  }

  // ---------------------------------------------------------------- copying leaves everything else alone

  /** Two stretches of host memory have no byte in common. */
  predicate Disjoint(a: nat, n: nat, b: nat, m: nat) { n == 0 || m == 0 || a + n <= b || b + m <= a }

  lemma StoreBytes(h: Host, a: nat, t: string, b: nat, n: nat)
    ensures Bytes(Store(h, a, t), a, |t|) == t
    ensures Disjoint(a, |t|, b, n) ==> Bytes(Store(h, a, t), b, n) == Bytes(h, b, n)
  {
  }

  function Behind(e: Entry, lo: nat): nat { if e.packed then e.offset + e.loc.size else lo }

  lemma LaidOutRest(es: seq<Entry>, lo: nat, hi: nat)
    requires LaidOut(es, lo, hi) && es != []
    ensures LaidOut(es[1..], Behind(es[0], lo), hi)
    ensures es[0].packed ==> lo <= es[0].offset && es[0].offset + es[0].loc.size <= hi
  {
    var rest := es[1..];
    assert forall k | 0 <= k < |rest| :: rest[k] == es[k + 1];
  }

  /** One payload copied. */
  function Copied(h: Host, at: nat, e: Entry): Host {
    if e.packed && e.loc.size > 0 then Store(h, at + e.offset, Bytes(h, e.ptr, e.loc.size)) else h
  }

  /** Bytes outside the payload area keep their value. */
  lemma {:induction false} CopyOutside(h: Host, at: nat, es: seq<Entry>, lo: nat, hi: nat, b: nat, n: nat)
    requires LaidOut(es, lo, hi) && lo <= hi && Disjoint(at + lo, hi - lo, b, n)
    ensures Bytes(CopyPayloads(h, at, es), b, n) == Bytes(h, b, n)
    decreases es
  {
    hide LaidOut;
    if es != [] {
      var e := es[0];
      LaidOutRest(es, lo, hi);
      CopyOutside(Copied(h, at, e), at, es[1..], Behind(e, lo), hi, b, n);
      StoreBytes(h, at + e.offset, Bytes(h, e.ptr, e.loc.size), b, n);
    }
  }

  /** No payload source overlaps the new allocation. */
  predicate Fresh(es: seq<Entry>, at: nat, size: nat) {
    forall k | 0 <= k < |es| :: Disjoint(es[k].ptr, es[k].loc.size, at, size)
  }

  lemma CopyFirst(h: Host, at: nat, es: seq<Entry>)
    requires es != []
    ensures CopyPayloads(h, at, es) == CopyPayloads(Copied(h, at, es[0]), at, es[1..])
  {
  }

  lemma CopiedBytes(h: Host, at: nat, e: Entry, b: nat, n: nat)
    ensures e.packed ==> Bytes(Copied(h, at, e), at + e.offset, e.loc.size) == Bytes(h, e.ptr, e.loc.size)
    ensures e.packed && Disjoint(at + e.offset, e.loc.size, b, n) ==> Bytes(Copied(h, at, e), b, n) == Bytes(h, b, n)
    ensures !e.packed ==> Copied(h, at, e) == h
  {
    hide Store, Bytes, Disjoint;
    StoreBytes(h, at + e.offset, Bytes(h, e.ptr, e.loc.size), b, n);
  }

  lemma FreshRest(es: seq<Entry>, at: nat, size: nat, k: nat)
    requires Fresh(es, at, size) && k < |es|
    ensures Fresh(es[1..], at, size) && Disjoint(es[k].ptr, es[k].loc.size, at, size)
  {
    assert forall k | 0 < k < |es| :: es[1..][k - 1] == es[k];
  }

  lemma Inside(a: nat, n: nat, at: nat, hi: nat, offset: nat, size: nat)
    requires Disjoint(a, n, at, hi) && offset + size <= hi
    ensures Disjoint(at + offset, size, a, n)
  {
  }

  /** Every packed payload ends up at its offset. */
  lemma {:induction false} CopyInside(h: Host, at: nat, es: seq<Entry>, lo: nat, hi: nat, k: nat)
    requires LaidOut(es, lo, hi) && lo <= hi && Fresh(es, at, hi) && k < |es| && es[k].packed
    ensures Bytes(CopyPayloads(h, at, es), at + es[k].offset, es[k].loc.size) == Bytes(h, es[k].ptr, es[k].loc.size)
    decreases es
  {
    hide LaidOut, Bytes, CopyPayloads, Copied, Fresh, Disjoint;
    var e, rest := es[0], es[1..];
    LaidOutRest(es, lo, hi);
    FreshRest(es, at, hi, k);
    CopyFirst(h, at, es);
    CopiedBytes(h, at, e, es[k].ptr, es[k].loc.size);
    if k == 0 {
      After(at, e, lo, hi);
      CopyOutside(Copied(h, at, e), at, rest, Behind(e, lo), hi, at + e.offset, e.loc.size);
    } else {
      CopyInside(Copied(h, at, e), at, rest, Behind(e, lo), hi, k - 1);
      if e.packed {
        Inside(es[k].ptr, es[k].loc.size, at, hi, e.offset, e.loc.size);
      }
    }
  }

  lemma After(at: nat, e: Entry, lo: nat, hi: nat)
    requires e.packed && e.offset + e.loc.size <= hi
    ensures Disjoint(at + Behind(e, lo), hi - Behind(e, lo), at + e.offset, e.loc.size)
  {
  }

  // ---------------------------------------------------------------- one transfer

  /** A plan is sound: its entries deliver the text's descriptors, and its layout holds text and payloads. */
  ghost predicate Sound(src: Option<Module>, dst: Module, s: string, plan: Plan) {
    && Scan(s, 0) == Some(Locations(plan.entries))
    && (forall k | 0 <= k < |plan.entries| :: Delivers(src, dst, plan.entries[k]))
    && (forall k | 0 <= k < |plan.entries| ::
          plan.entries[k].loc.start <= plan.entries[k].loc.end && plan.entries[k].loc.addr < SIZE)
    && plan.capacity == |s| + 1 + Reserve(Locations(plan.entries))
    && plan.capacity <= plan.size < SIZE
    && LaidOut(plan.entries, plan.capacity, plan.size)
  }

  predicate Delivers(src: Option<Module>, dst: Module, e: Entry) {
    Prepare(src, dst, e.loc) == Some(e.(offset := 0)) && (!e.packed ==> e.offset == 0)
  }

  lemma PreparedOffset(src: Option<Module>, dst: Module, l: Location)
    ensures var p := Prepare(src, dst, l); p.Some? ==> p.value.offset == 0
  {
  }

  lemma LaidOutLower(es: seq<Entry>, lo: nat, mid: nat, hi: nat)
    requires LaidOut(es, mid, hi) && lo <= mid
    ensures LaidOut(es, lo, hi)
  {
  }

  /** Whatever is planned, for any number of descriptors, is sound; no size computation wraps. */
  lemma PlanSound(src: Option<Module>, dst: Module, s: string)
    ensures var p := MakePlan(src, dst, s); p.Some? ==> Sound(src, dst, s, p.value)
  {
    hide Scan, Collect, Pack, LaidOut, Prepare, Placed;
    var p := MakePlan(src, dst, s);
    if p.Some? {
      CollectMeans(src, dst, s, 0, |s| + 1);
      var c := Collect(src, dst, s, 0, |s| + 1).value;
      AlignMeans(c.capacity);
      var size := Align(c.capacity).value;
      PackMeans(c.entries, size);
      var es := p.value.entries;
      LaidOutLower(es, c.capacity, size, p.value.size);
      PlacedOrder(s, 0, Locations(c.entries));
      assert Locations(es) == Locations(c.entries);
      forall k | 0 <= k < |es|
        ensures Delivers(src, dst, es[k]) && es[k].loc.start <= es[k].loc.end && es[k].loc.addr < SIZE
      {
        assert es[k].loc == Locations(c.entries)[k];
        PreparedOffset(src, dst, es[k].loc);
      }
    }
  }

  /** Planning is refused only for a reason: see `CollectMeans` and `PackMeans`. */
  lemma PlanRefused(src: Option<Module>, dst: Module, s: string)
    requires MakePlan(src, dst, s).None? && Scan(s, 0).Some?
    ensures var ls := Scan(s, 0).value;
      && (forall k | 0 <= k < |ls| :: ls[k].start <= ls[k].end)
      && (|| (exists k | 0 <= k < |ls| :: Undeliverable(src, dst, ls[k]))
          || |s| + 1 + Reserve(ls) > SIZE - 16
          || exists es: seq<Entry> ::
             && Locations(es) == ls
             && (forall k | 0 <= k < |ls| :: Prepare(src, dst, ls[k]) == Some(es[k]))
             && IdealSize(es, (|s| + 1 + Reserve(ls) + 15) / 16 * 16) >= SIZE)
  {
    hide Scan, Collect, Pack, LaidOut, Prepare, Placed, Undeliverable;
    var ls := Scan(s, 0).value;
    PlacedOrder(s, 0, ls);
    if |s| + 1 < SIZE {
      CollectMeans(src, dst, s, 0, |s| + 1);
      var r := Collect(src, dst, s, 0, |s| + 1);
      if r.Some? && Align(r.value.capacity).Some? {
        AlignMeans(r.value.capacity);
        PackMeans(r.value.entries, Align(r.value.capacity).value);
      }
    }
  }

  /** The address that a packed payload gets fits a pointer. */
  predicate PayloadsFit(es: seq<Entry>, block: nat) {
    forall k | 0 <= k < |es| :: es[k].packed ==> block + es[k].offset < SIZE
  }

  /**
   Behind a plan, a transfer fails exactly when the destination allocates nothing, or something outside its memory, or
   a payload's address fits no pointer; otherwise the text stands where the destination's allocation is.
   */
  lemma FinishMeans(h: Host, s: string, plan: Plan, dst: Module, block: nat)
    requires Placed(s, 0, Locations(plan.entries))
    ensures var o := Finish(h, s, plan, dst, block);
      var inside := dst.kind.Native? || InMemory(dst, block, plan.size);
      && (o == NoMemory <==> block == 0)
      && (o == Released <==> block != 0 && !(inside && PayloadsFit(plan.entries, block)))
      && (o.Delivered? <==> block != 0 && inside && PayloadsFit(plan.entries, block))
      && (o.Delivered? ==> o.at == if dst.kind.Native? then block else dst.base + block)
  {
    hide Rewrite, CopyPayloads, Placed, Store;
    if PayloadsFit(plan.entries, block) {
      assert !Unrepresentable(plan.entries, block);
    } else {
      assert Unrepresentable(plan.entries, block);
    }
  }

  /** The bytes that the descriptors of a text denote in a module; none when one of them denotes nothing. */
  function Payloads(h: Host, m: Option<Module>, ls: seq<Location>): Option<seq<string>>
  {
    if exists k | 0 <= k < |ls| :: Resolve(m, ls[k].addr, ls[k].size).None? then None
    else
      Some(seq(|ls|, k requires 0 <= k < |ls| && Resolve(m, ls[k].addr, ls[k].size).Some? =>
        Bytes(h, Resolve(m, ls[k].addr, ls[k].size).value.ptr, ls[k].size)))
  }

  /** What a hop relies on: valid modules, a block apart from the payloads' sources. */
  ghost predicate Proper(src: Option<Module>, dst: Module, grown: Module, plan: Plan, at: nat) {
    && (src.Some? ==> src.value.Valid()) && Grows(dst, grown) && Apart(src, dst) && Fresh(plan.entries, at, plan.size)
  }

  lemma AddressesFit(src: Option<Module>, dst: Module, s: string, plan: Plan, grown: Module, block: nat, at: nat)
    requires Sound(src, dst, s, plan) && Proper(src, dst, grown, plan, at)
    requires block > 0 && Place(grown, block, plan.size) == Some(at) && !Unrepresentable(plan.entries, block)
    ensures Fit(Addresses(plan.entries, block))
    ensures forall k | 0 <= k < |plan.entries| ::
      var e := plan.entries[k];
      var r := Resolve(Some(grown), Addresses(plan.entries, block)[k], e.loc.size);
      r.Some? && (e.loc.size > 0 ==> r.value.ptr == Where(e, at))
    ensures forall k | 0 <= k < |plan.entries| ::
      var e := plan.entries[k];
      var r := Resolve(src, e.loc.addr, e.loc.size);
      r.Some? && r.value.ptr == e.ptr
  {
    hide Resolve, Prepare, Scan;
    var es, ds := plan.entries, Addresses(plan.entries, block);
    forall k | 0 <= k < |es|
      ensures var e := es[k]; var r := Resolve(Some(grown), ds[k], e.loc.size);
        ds[k] < SIZE && r.Some? && (e.loc.size > 0 ==> r.value.ptr == Where(e, at))
      ensures var e := es[k]; var r := Resolve(src, e.loc.addr, e.loc.size); r.Some? && r.value.ptr == e.ptr
    {
      var e := es[k];
      assert Delivers(src, dst, e);
      var f := e.(offset := 0);
      assert f.(offset := e.offset) == e;
      DeliveredAddress(src, dst, f, grown, block, at, plan.size, e.offset);
    }
  }

  /** The text stored at `p`, with its terminator. */
  ghost predicate TextAt(h: Host, p: nat, t: string) { Bytes(h, p, |t| + 1) == t + [NUL] }

  /** One transfer: the text arrives, and every rewritten address denotes the original bytes. */
  lemma TransferPreserves(h: Host, src: Option<Module>, s: string, dst: Module, grown: Module, block: nat, plan: Plan,
      at: nat, g: Host)
    requires MakePlan(src, dst, s) == Some(plan) && Placed(s, 0, Locations(plan.entries))
    requires Finish(h, s, plan, grown, block) == Delivered(at, g) && Proper(src, dst, grown, plan, at)
    ensures Scan(s, 0) == Some(Locations(plan.entries)) && Fit(Addresses(plan.entries, block))
    ensures TextAt(g, at, Text(s, plan, block))
    ensures forall k | 0 <= k < |plan.entries| ::
      var l := plan.entries[k].loc;
      var from, to := Resolve(src, l.addr, l.size), Resolve(Some(grown), Addresses(plan.entries, block)[k], l.size);
      from.Some? && to.Some? && Bytes(g, to.value.ptr, l.size) == Bytes(h, from.value.ptr, l.size)
  {
    PlanSound(src, dst, s);
    hide MakePlan, Resolve, Prepare, Scan, Rewrite, CopyPayloads, LaidOut, Placed, Store, Reserve;
    AddressesFit(src, dst, s, plan, grown, block, at);
    var es, ds, t := plan.entries, Addresses(plan.entries, block), Text(s, plan, block) + [NUL];
    TextFits(s, 0, Locations(es), ds);
    var m := Store(h, at, t);
    assert g == CopyPayloads(m, at, es);
    StoreBytes(h, at, t, 0, 0);
    CopyOutside(m, at, es, plan.capacity, plan.size, at, |t|);
    forall k | 0 <= k < |es|
      ensures Bytes(g, Where(es[k], at), es[k].loc.size) == Bytes(h, es[k].ptr, es[k].loc.size)
    {
      var e := es[k];
      StoreBytes(h, at, t, e.ptr, e.loc.size);
      if e.packed {
        CopyInside(m, at, es, plan.capacity, plan.size, k);
      } else {
        CopyOutside(m, at, es, plan.capacity, plan.size, e.ptr, e.loc.size);
      }
    }
  }

  /** Rewritten addresses fit a pointer. */
  lemma AddressesBelow(src: Option<Module>, dst: Module, s: string, plan: Plan, block: nat)
    requires Sound(src, dst, s, plan) && (src.Some? ==> src.value.Valid()) && !Unrepresentable(plan.entries, block)
    ensures Fit(Addresses(plan.entries, block))
  {
    hide Prepare, Scan, LaidOut, Reserve;
    var es, ds := plan.entries, Addresses(plan.entries, block);
    forall k | 0 <= k < |es| ensures ds[k] < SIZE {
      assert Delivers(src, dst, es[k]);
      DirectBelow(src, dst, es[k].loc);
    }
  }

  lemma DirectBelow(src: Option<Module>, dst: Module, l: Location)
    requires (src.Some? ==> src.value.Valid()) && l.addr < SIZE
    ensures var p := Prepare(src, dst, l); p.Some? && !p.value.packed ==> p.value.dst < SIZE
  {
  }

  lemma PrintClean(v: nat)
    ensures NUL !in Print(v)
  {
    if HOST_BIT <= v < SIZE {
      DigitsValue(SIZE - v, 10);
    } else if v > 0 {
      DigitsValue(v, 16);
    }
  }

  lemma {:induction false} RewriteClean(s: string, i: nat, ls: seq<Location>, ds: seq<nat>)
    requires Placed(s, i, ls) && |ds| == |ls| && NUL !in s
    ensures NUL !in Rewrite(s, i, ls, ds)
    decreases ls
  {
    hide Print;
    if ls != [] {
      PrintClean(ds[0]);
      RewriteClean(s, ls[0].end, ls[1..], ds[1..]);
    }
  }

  /** The destination can measure, and so send on, the message it received. */
  lemma DeliveredReadable(h: Host, src: Option<Module>, s: string, dst: Module, grown: Module, block: nat, plan: Plan,
      at: nat, g: Host)
    requires MakePlan(src, dst, s) == Some(plan) && Placed(s, 0, Locations(plan.entries)) && NUL !in s
    requires Finish(h, s, plan, grown, block) == Delivered(at, g) && (src.Some? ==> src.value.Valid()) && grown.Valid()
    ensures var t := Text(s, plan, block); NUL !in t && Measure(Some(grown), at, |t|) == Some(|t|)
  {
    PlanSound(src, dst, s);
    AddressesBelow(src, dst, s, plan, block);
    hide MakePlan, Resolve, Prepare, Scan, Rewrite, CopyPayloads, LaidOut, Placed, Store, Reserve;
    TextFits(s, 0, Locations(plan.entries), Addresses(plan.entries, block));
    RewriteClean(s, 0, Locations(plan.entries), Addresses(plan.entries, block));
  }

  // ---------------------------------------------------------------- any number of hops

  /** A message in some module: its text, and the memory behind it. */
  datatype Site = Site(m: Option<Module>, text: string, host: Host)

  /** A transfer of the message at a site, and what the module's memory has become when it is sent on. */
  datatype Hop = Hop(dst: Module, grown: Module, block: nat, at: nat, host: Host, next: Site)

  ghost predicate Undisturbed(h: Host, g: Host, m: Module, ls: seq<Location>) {
    forall k | 0 <= k < |ls| && Resolve(Some(m), ls[k].addr, ls[k].size).Some? ::
      var p := Resolve(Some(m), ls[k].addr, ls[k].size).value.ptr;
      Bytes(g, p, ls[k].size) == Bytes(h, p, ls[k].size)
  }

  ghost predicate Follows(a: Site, hop: Hop) {
    var p := MakePlan(a.m, hop.dst, a.text);
    && p.Some? && Placed(a.text, 0, Locations(p.value.entries))
    && Finish(a.host, a.text, p.value, hop.grown, hop.block) == Delivered(hop.at, hop.host)
    && Proper(a.m, hop.dst, hop.grown, p.value, hop.at)
    && hop.next.text == Text(a.text, p.value, hop.block)
    && hop.next.m.Some? && Grows(hop.grown, hop.next.m.value)
    && (Scan(hop.next.text, 0).Some? ==> Undisturbed(hop.host, hop.next.host, hop.grown, Scan(hop.next.text, 0).value))
  }

  /** What a message means: the text around its addresses, the byte counts, and the bytes themselves. */
  datatype Meaning = Meaning(texts: seq<string>, sizes: seq<nat>, payloads: seq<string>)

  function Sizes(ls: seq<Location>): (ns: seq<nat>)
    ensures |ns| == |ls| && forall k | 0 <= k < |ls| :: ns[k] == ls[k].size
  {
    seq(|ls|, k requires 0 <= k < |ls| => ls[k].size)
  }

  ghost function Means(a: Site): Option<Meaning> {
    var r := Scan(a.text, 0);
    if r.None? then None
    else
      var p := Payloads(a.host, a.m, r.value);
      if p.None? then None else Some(Meaning(Texts(a.text, 0, r.value), Sizes(r.value), p.value))
  }

  lemma {:induction false} MovedFields(i: nat, j: nat, ls: seq<Location>, ds: seq<nat>)
    requires |ds| == |ls| && (ls != [] ==> i <= ls[0].start)
    requires forall k | 0 < k < |ls| :: ls[k - 1].end <= ls[k].start
    requires forall k | 0 <= k < |ls| :: ls[k].start <= ls[k].end
    ensures var ms := Moved(i, j, ls, ds);
      |ms| == |ls| && forall k | 0 <= k < |ls| :: ms[k].size == ls[k].size && ms[k].addr == ds[k]
    decreases ls
  {
    hide Print, Moved;
    if ls == [] {
      MovedNone(i, j);
    } else {
      var l, rest, more := ls[0], ls[1..], ds[1..];
      var a := l.start - i + j;
      assert [l] + rest == ls;
      assert forall k | 0 < k < |ls| :: rest[k - 1] == ls[k] && more[k - 1] == ds[k];
      assert forall k | 0 < k < |rest| :: rest[k - 1].end <= rest[k].start;
      MovedStep(i, j, l, rest, ds);
      MovedFields(l.end, a + |Print(ds[0])|, rest, more);
    }
  }

  lemma Head(l: Location, ls: seq<Location>, s: string)
    requires Separated(s, ls) && l.end <= |s| && Stops(s, l.end)
    ensures Separated(s, [l] + ls)
  {
    assert forall k | 0 < k < |[l] + ls| :: ([l] + ls)[k] == ls[k - 1];
  }

  lemma TextsFirst(s: string, i: nat, l: Location, ls: seq<Location>)
    requires Placed(s, i, [l] + ls)
    ensures Placed(s, l.end, ls) && i <= l.start <= |s|
      && Texts(s, i, [l] + ls) == [s[i..l.start]] + Texts(s, l.end, ls)
  {
    assert ([l] + ls)[1..] == ls;
  }

  lemma PlacedMoved(s: string, i: nat, l: Location, ls: seq<Location>)
    requires i + |PREFIX| < l.start < l.end <= |s| && l.size < SIZE && l.addr < SIZE && Placed(s, l.end, ls)
    ensures Placed(s, i, [l] + ls)
  {
    assert ([l] + ls)[1..] == ls;
  }

  /** Rewriting keeps all other text, and the result can be rewritten again. */
  lemma {:induction false} MovedTexts(s: string, i: nat, ls: seq<Location>, ds: seq<nat>, t: string, j: nat)
    requires Placed(s, i, ls) && |ds| == |ls| && Fit(ds) && Separated(s, ls) && j <= |t|
      && t[j..] == Rewrite(s, i, ls, ds)
    ensures forall k | 0 < k < |ls| :: ls[k - 1].end <= ls[k].start
    ensures ls != [] ==> i <= ls[0].start
    ensures var ms := Moved(i, j, ls, ds); Placed(t, j, ms) && Texts(t, j, ms) == Texts(s, i, ls) && Separated(t, ms)
    decreases ls
  {
    hide Rewrite, Print, Stops, Placed, Texts, Moved, Separated;
    PlacedOrder(s, i, ls);
    PlacedStart(s, i, ls);
    if ls != [] {
      PlacedFirst(s, i, ls);
    }
    if ls == [] {
      RewriteNone(s, i);
      MovedNone(i, j);
      TextsNone(s, i);
      TextsNone(t, j);
    } else {
      var l, rest, more := ls[0], ls[1..], ds[1..];
      assert ls == [l] + rest;
      TextsFirst(s, i, l, rest);
      RewriteParts(s, i, ls, ds, t, j);
      var a := j + (l.start - i);
      var e := a + |Print(ds[0])|;
      RewriteHead(s, l.end, rest, more);
      StopsAfter(s, ls, t, l.end, e, Rewrite(s, l.end, rest, more));
      SeparatedTail(s, ls);
      MovedTexts(s, l.end, rest, more, t, e);
      MovedStep(i, j, l, rest, ds);
      var m, ms := Location(a, e, l.size, ds[0]), Moved(l.end, e, rest, more);
      PlacedMoved(t, j, m, ms);
      TextsFirst(t, j, m, ms);
      Head(m, ms, t);
      assert t[j..a] == s[i..l.start];
    }
  }

  lemma PlacedStart(s: string, i: nat, ls: seq<Location>)
    requires Placed(s, i, ls)
    ensures i <= |s|
  {
  }

  lemma TextsNone(s: string, i: nat)
    requires i <= |s|
    ensures Placed(s, i, []) && Texts(s, i, []) == [s[i..]] && Separated(s, [])
  {
  }

  lemma Resolved(m: Module, n: Module, addr: nat, size: nat)
    requires Grows(m, n) && Resolve(Some(m), addr, size).Some?
    ensures Resolve(Some(n), addr, size) == Resolve(Some(m), addr, size)
  {
  }

  /** One hop keeps the meaning of the message, and the next hop may start from it. */
  lemma HopPreserves(a: Site, hop: Hop)
    requires Follows(a, hop) && Scan(a.text, 0).Some? && Separated(a.text, Scan(a.text, 0).value)
    ensures Means(a).Some? && Means(hop.next) == Means(a)
    ensures Scan(hop.next.text, 0).Some? && Separated(hop.next.text, Scan(hop.next.text, 0).value)
    ensures TextAt(hop.host, hop.at, hop.next.text)
  {
    hide MakePlan, Resolve, Prepare, Scan, Rewrite, CopyPayloads, Placed, Store, Reserve, Moved, Texts, Separated,
         Finish, TextAt, Bytes, Sound, Payloads, Undisturbed, Proper;
    var s, t, plan := a.text, hop.next.text, MakePlan(a.m, hop.dst, a.text).value;
    TransferPreserves(a.host, a.m, s, hop.dst, hop.grown, hop.block, plan, hop.at, hop.host);
    var ls, ds := Locations(plan.entries), Addresses(plan.entries, hop.block);
    assert t[0..] == t;
    Rescan(s, 0, ls, ds, t, 0);
    MovedTexts(s, 0, ls, ds, t, 0);
    PlacedOrder(s, 0, ls);
    MovedFields(0, 0, ls, ds);
    var ms := Moved(0, 0, ls, ds);
    assert Sizes(ms) == Sizes(ls);
    SamePayloads(a, hop, plan, ls, ms);
  }

  /** The payloads of the moved descriptors in the destination are those of the original ones. */
  lemma SamePayloads(a: Site, hop: Hop, plan: Plan, ls: seq<Location>, ms: seq<Location>)
    requires ls == Locations(plan.entries) && |ms| == |ls| && hop.next.m.Some? && Grows(hop.grown, hop.next.m.value)
    requires forall k | 0 <= k < |ls| :: ms[k].size == ls[k].size && ms[k].addr == Addresses(plan.entries, hop.block)[k]
    requires Undisturbed(hop.host, hop.next.host, hop.grown, ms)
    requires forall k | 0 <= k < |plan.entries| ::
      var l := plan.entries[k].loc;
      var from, to := Resolve(a.m, l.addr, l.size),
          Resolve(Some(hop.grown), Addresses(plan.entries, hop.block)[k], l.size);
      from.Some? && to.Some? && Bytes(hop.host, to.value.ptr, l.size) == Bytes(a.host, from.value.ptr, l.size)
    ensures Payloads(a.host, a.m, ls).Some? && Payloads(hop.next.host, hop.next.m, ms) == Payloads(a.host, a.m, ls)
  {
    hide Resolve, Bytes, Grows;
    forall k | 0 <= k < |ls|
      ensures Resolve(a.m, ls[k].addr, ls[k].size).Some? && Resolve(hop.next.m, ms[k].addr, ms[k].size).Some?
      ensures Bytes(hop.next.host, Resolve(hop.next.m, ms[k].addr, ms[k].size).value.ptr, ms[k].size)
        == Bytes(a.host, Resolve(a.m, ls[k].addr, ls[k].size).value.ptr, ls[k].size)
    {
      var l := plan.entries[k].loc;
      assert ls[k] == l;
      Resolved(hop.grown, hop.next.m.value, ms[k].addr, ms[k].size);
    }
    assert Payloads(hop.next.host, hop.next.m, ms).value == Payloads(a.host, a.m, ls).value;
  }

  /** A run of hops from a site. */
  ghost predicate Run(a: Site, hops: seq<Hop>)
    decreases hops
  {
    hops != [] ==> Follows(a, hops[0]) && Run(hops[0].next, hops[1..])
  }

  function Last(a: Site, hops: seq<Hop>): Site
    decreases hops
  {
    if hops == [] then a else Last(hops[0].next, hops[1..])
  }

  /** However often a message is passed on, its text, byte counts and payloads arrive unchanged. */
  lemma {:induction false} HopsPreserve(a: Site, hops: seq<Hop>)
    requires Run(a, hops) && hops != [] && Scan(a.text, 0).Some? && Separated(a.text, Scan(a.text, 0).value)
    ensures Means(a).Some? && Means(Last(a, hops)) == Means(a)
    decreases hops
  {
    hide Follows, Means, Scan, Separated;
    HopPreserves(a, hops[0]);
    if |hops| > 1 {
      HopsPreserve(hops[0].next, hops[1..]);
    }
  }
}
