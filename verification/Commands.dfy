/**
 Who owns which message while commands and chains run: every block that is allocated for a message, and every
 one that is released, with callbacks that run further commands to any depth.
 */
module Commands {

  /** A block of a module's heap. */
  datatype Block = Block(owner: nat, id: nat)

  /**
   What an address can be: nothing, an allocated block, the base of an `Init memory` reservation, or a result that
   a module's function returned and that the module keeps.
   */
  datatype Addr = Null | Own(block: Block) | Base(owner: nat) | Borrowed(owner: nat)

  /** What happens to blocks, and the calls of modules' functions with their inputs. */
  datatype Event = Took(block: Block) | Gave(block: Block) | Entered(m: nat, input: Addr)

  /** The heaps of all modules, the input address that each order of each chain remembers, and what happened so far. */
  datatype Heap = Heap(live: set<Block>, next: nat, fault: bool, slots: map<(nat, nat), Addr>, log: seq<Event>)

  /**
   What a command does: either a command processor takes the whole message, or each line is offered to the
   registrations that answer it, one attempt after another.
   */
  datatype Command =
    | Processed(target: nat, sent: bool, body: seq<Command>, replied: bool, copied: bool)
    | Lines(lines: seq<Line>)

  /** The registrations that a line is offered to, in order. */
  datatype Line = Line(attempts: seq<Attempt>)

  /** One registration's answer to a line; flags say which transfers and allocations succeed. */
  datatype Attempt =
    | ToModule(target: nat, sent: bool, body: seq<Command>, replied: bool, copied: bool)
    | Declined                                  // not handled: the next registration is tried
    | Quiet(ends: bool)                         // handled, or handled and returns, without a reply
    | TextReply(ends: bool, stored: bool)
    | InitMemory
    | RunChain(chain: nat, orders: seq<Order>, copied: bool)

  datatype Input = NoInput | Sent | Failed

  /** An execution order of a chain: where its function lives, its input, and the commands the function runs. */
  datatype Order = Order(target: nat, input: Input, body: seq<Command>, replied: bool)

  // ---------------------------------------------------------------- heaps

  function Allocate(h: Heap, m: nat): (Heap, Addr) {
    var b := Block(m, h.next);
    (h.(live := h.live + {b}, next := h.next + 1, log := h.log + [Took(b)]), Own(b))
  }

  /** A function of module `m` is called with an input address. */
  function Enter(h: Heap, m: nat, input: Addr): Heap { h.(log := h.log + [Entered(m, input)]) }

  /** What a module's function returns: an address that stays the module's. */
  function Returned(m: nat, replied: bool): Addr { if replied then Borrowed(m) else Null }

  /** A copy that may fail. */
  function Copy(h: Heap, m: nat, ok: bool): (Heap, Addr) {
    if ok then Allocate(h, m) else (h, Null)
  }

  /** Releasing nothing is fine; releasing what is not a live block is a fault. */
  function Release(h: Heap, a: Addr): Heap {
    match a
    case Null => h
    case Own(b) => if b in h.live then h.(live := h.live - {b}, log := h.log + [Gave(b)]) else h.(fault := true)
    case Base(_) => h.(fault := true)
    case Borrowed(_) => h.(fault := true)
  }

  /** A release faults exactly when there is something to release and it is no live block; a block is then gone. */
  lemma ReleaseMeans(h: Heap, a: Addr)
    ensures Release(h, a).fault <==> h.fault || (a != Null && !(a.Own? && a.block in h.live))
    ensures forall b :: b in Release(h, a).live <==> b in h.live && a != Own(b)
  {
  }

  function Slot(h: Heap, chain: nat, i: nat): Addr {
    if (chain, i) in h.slots then h.slots[(chain, i)] else Null
  }

  function SetSlot(h: Heap, chain: nat, i: nat, a: Addr): Heap {
    h.(slots := h.slots[(chain, i) := a])
  }

  // ---------------------------------------------------------------- execution

  /** The result of a line: the heap, the reply so far, and whether the command returns. */
  datatype Outcome = Outcome(heap: Heap, reply: Addr, ends: bool)

  /** A command issued by `caller`, and its reply. */
  function Run(h: Heap, caller: nat, c: Command): (Heap, Addr)
    decreases c, 0
  {
    match c
    case Processed(target, sent, body, replied, copied) =>
      if !sent then (h, Null)
      else
        var (h1, input) := Allocate(h, target);
        var h2 := Release(RunBody(Enter(h1, target, input), target, body), input);
        var response := Returned(target, replied);
        if response != Null then Copy(h2, caller, copied) else (h2, Null)
    case Lines(lines) => RunLines(h, caller, lines, Null)
  }

  function RunLines(h: Heap, caller: nat, lines: seq<Line>, reply: Addr): (Heap, Addr)
    decreases lines, 0
  {
    if lines == [] then (h, reply)
    else
      var o := RunLine(h, caller, lines[0].attempts, reply);
      if o.ends then (o.heap, o.reply) else RunLines(o.heap, caller, lines[1..], o.reply)
  }

  /** Replaces the reply, releasing the one it supersedes. */
  function Supersede(h: Heap, reply: Addr, now: Addr): Heap {
    if reply != Null && reply != now then Release(h, reply) else h
  }

  function RunLine(h: Heap, caller: nat, line: seq<Attempt>, reply: Addr): Outcome
    decreases line, 0
  {
    if line == [] then Outcome(h, reply, false)
    else
      match line[0]
      case ToModule(target, sent, body, replied, copied) =>
        if !sent then Outcome(Release(h, reply), Null, true)
        else
          var (h1, input) := Allocate(h, target);
          var h2 := Release(RunBody(Enter(h1, target, input), target, body), input);
          var response := Returned(target, replied);
          if response != Null then
            var (h3, now) := Copy(h2, caller, copied);
            Outcome(Release(h3, reply), now, true)
          else Outcome(h2, reply, true)
      case Declined => RunLine(h, caller, line[1..], reply)
      case Quiet(ends) => Outcome(h, reply, ends)
      case TextReply(ends, stored) =>
        var (h1, now) := Copy(h, caller, stored);
        Outcome(Supersede(h1, reply, now), now, ends)
      case InitMemory => Outcome(Supersede(h, reply, Base(caller)), Base(caller), true)
      case RunChain(chain, orders, copied) =>
        var (h1, last) := RunOrders(h, chain, orders, 0, Null);
        if last != Null then
          var (h2, now) := Copy(h1, caller, copied);
          Outcome(Supersede(h2, reply, now), now, true)
        else Outcome(h1, reply, true)
  }

  /** The orders of a chain from the i-th on, and what the last call returned. */
  function RunOrders(h: Heap, chain: nat, orders: seq<Order>, i: nat, last: Addr): (Heap, Addr)
    decreases orders, 0
  {
    if orders == [] then (h, last)
    else
      var o := orders[0];
      var h0 := SetSlot(h, chain, i, Null);
      if o.input.Failed? then RunOrders(h0, chain, orders[1..], i + 1, Null)
      else
        var h1 := if o.input.Sent? then
                    var (g, input) := Allocate(h0, o.target);
                    SetSlot(g, chain, i, input)
                  else h0;
        var h2 := RunBody(Enter(h1, o.target, Slot(h1, chain, i)), o.target, o.body);
        var h3 := SetSlot(Release(h2, Slot(h2, chain, i)), chain, i, Null);
        RunOrders(h3, chain, orders[1..], i + 1, Returned(o.target, o.replied))
  }

  /** A callback of module `m`: it runs commands, and releases the text replies it was given. */
  function RunBody(h: Heap, m: nat, body: seq<Command>): Heap
    decreases body, 0
  {
    if body == [] then h
    else
      var (h1, reply) := Run(h, m, body[0]);
      RunBody(if reply.Own? then Release(h1, reply) else h1, m, body[1..])
  }

  // ---------------------------------------------------------------- re-entered chains

  /** Whether the command returns at this line. */
  function Ends(line: seq<Attempt>): bool {
    if line == [] then false
    else
      match line[0]
      case Declined => Ends(line[1..])
      case Quiet(ends) => ends
      case TextReply(ends, _) => ends
      case _ => true
  }

  /** Whether the command runs the i-th order of a chain, directly or in callbacks. */
  predicate Touches(c: Command, chain: nat, i: nat)
    decreases c, 0
  {
    match c
    case Processed(_, sent, body, _, _) => sent && BodyTouches(body, chain, i)
    case Lines(lines) => LinesTouch(lines, chain, i)
  }

  predicate LinesTouch(lines: seq<Line>, chain: nat, i: nat)
    decreases lines, 0
  {
    lines != [] && (LineTouches(lines[0].attempts, chain, i)
      || (!Ends(lines[0].attempts) && LinesTouch(lines[1..], chain, i)))
  }

  predicate LineTouches(line: seq<Attempt>, chain: nat, i: nat)
    decreases line, 0
  {
    line != [] &&
    match line[0]
    case ToModule(_, sent, body, _, _) => sent && BodyTouches(body, chain, i)
    case Declined => LineTouches(line[1..], chain, i)
    case RunChain(c, orders, _) => OrdersTouch(c, orders, 0, chain, i)
    case _ => false
  }

  predicate OrdersTouch(c: nat, orders: seq<Order>, j: nat, chain: nat, i: nat)
    decreases orders, 0
  {
    orders != [] &&
    ((c == chain && j == i) || (!orders[0].input.Failed? && BodyTouches(orders[0].body, chain, i))
      || OrdersTouch(c, orders[1..], j + 1, chain, i))
  }

  predicate BodyTouches(body: seq<Command>, chain: nat, i: nat)
    decreases body, 0
  {
    body != [] && (Touches(body[0], chain, i) || BodyTouches(body[1..], chain, i))
  }

  /** How many inputs are forgotten: inputs of orders that are run again while they are being served. */
  function Leaks(c: Command): nat
    decreases c, 0
  {
    match c
    case Processed(_, sent, body, _, _) => if sent then BodyLeaks(body) else 0
    case Lines(lines) => LinesLeak(lines)
  }

  function LinesLeak(lines: seq<Line>): nat
    decreases lines, 0
  {
    if lines == [] then 0 else LineLeaks(lines[0].attempts) + if Ends(lines[0].attempts) then 0
      else LinesLeak(lines[1..])
  }

  function LineLeaks(line: seq<Attempt>): nat
    decreases line, 0
  {
    if line == [] then 0
    else
      match line[0]
      case ToModule(_, sent, body, _, _) => if sent then BodyLeaks(body) else 0
      case Declined => LineLeaks(line[1..])
      case RunChain(chain, orders, _) => OrdersLeak(chain, orders, 0)
      case _ => 0
  }

  function OrdersLeak(chain: nat, orders: seq<Order>, i: nat): nat
    decreases orders, 0
  {
    if orders == [] then 0
    else
      var o := orders[0];
      (if o.input.Failed? then 0 else BodyLeaks(o.body) + if o.input.Sent? && BodyTouches(o.body, chain, i) then 1
        else 0)
      + OrdersLeak(chain, orders[1..], i + 1)
  }

  function BodyLeaks(body: seq<Command>): nat
    decreases body, 0
  {
    if body == [] then 0 else Leaks(body[0]) + BodyLeaks(body[1..])
  }

  // ---------------------------------------------------------------- accounts

  /** No fault so far, and block numbers ahead are unused. */
  ghost predicate Sane(h: Heap) { !h.fault && forall b | b in h.live :: b.id < h.next }

  /** Whatever was live still is, and `extra` more blocks are. */
  ghost predicate Grew(h: Heap, g: Heap, extra: nat) {
    Sane(g) && h.live <= g.live && |g.live| == |h.live| + extra
  }

  function Count(a: Addr): nat { if a.Own? then 1 else 0 }

  /**
   The heap holds `rest`, the caller's reply if it is a block, and `extra` forgotten blocks, and nothing else; the
   reply is nothing that a module only lent.
   */
  ghost predicate Account(h: Heap, rest: set<Block>, caller: nat, reply: Addr, extra: nat) {
    && Sane(h) && rest <= h.live && |h.live| == |rest| + extra + Count(reply) && !reply.Borrowed?
    && (reply.Own? ==> reply.block in h.live && reply.block !in rest && reply.block.owner == caller)
  }

  lemma AccountGrew(h: Heap, g: Heap, rest: set<Block>, caller: nat, reply: Addr, extra: nat, more: nat)
    requires Account(h, rest, caller, reply, extra) && Grew(h, g, more)
    ensures Account(g, rest, caller, reply, extra + more)
  {
  }

  /** A new reply takes the place of the old one, whether or not it could be copied. */
  lemma AccountReplace(h: Heap, rest: set<Block>, caller: nat, reply: Addr, extra: nat, ok: bool)
    requires Account(h, rest, caller, reply, extra) && !reply.Base?
    ensures var (g, now) := Copy(h, caller, ok);
      Account(Release(g, reply), rest, caller, now, extra) && Release(g, reply) == Supersede(g, reply, now)
        && !now.Base?
      && Release(g, reply).slots == h.slots
  {
  }

  lemma AccountDrop(h: Heap, rest: set<Block>, caller: nat, reply: Addr, extra: nat, now: Addr)
    requires Account(h, rest, caller, reply, extra) && !reply.Base? && !now.Own? && !now.Borrowed?
    ensures Account(Release(h, reply), rest, caller, now, extra) && Release(h, reply).slots == h.slots
    ensures Supersede(h, reply, now) == Release(h, reply)
  {
  }

  /** Input allocated, callback run, input released. */
  lemma Called(h: Heap, target: nat, g: Heap, extra: nat)
    requires Sane(h) && Grew(Enter(Allocate(h, target).0, target, Allocate(h, target).1), g, extra)
    ensures Grew(h, Release(g, Allocate(h, target).1), extra) && Release(g, Allocate(h, target).1).slots == g.slots
  {
  }

  // ---------------------------------------------------------------- what execution does to the heaps

  /** A command adds its reply and the forgotten inputs to the live blocks, and takes none away. */
  lemma {:induction false} RunAccount(h: Heap, caller: nat, c: Command)
    requires Sane(h)
    ensures var (g, reply) := Run(h, caller, c);
      Account(g, h.live, caller, reply, Leaks(c)) && forall k, i :: Slot(g, k, i) == if Touches(c, k, i) then Null
        else Slot(h, k, i)
    decreases c, 0
  {
    hide Grew;
    match c
    case Processed(target, sent, body, replied, copied) =>
      if sent {
        var (h1, input) := Allocate(h, target);
        BodyAccount(Enter(h1, target, input), target, body);
        var h2 := RunBody(Enter(h1, target, input), target, body);
        Called(h, target, h2, BodyLeaks(body));
        AccountGrew(h, Release(h2, input), h.live, caller, Null, 0, BodyLeaks(body));
        AccountReplace(Release(h2, input), h.live, caller, Null, BodyLeaks(body), copied);
      }
    case Lines(lines) =>
      LinesAccount(h, caller, lines, Null, h.live, 0);
  }

  lemma {:induction false} LinesAccount(h: Heap, caller: nat, lines: seq<Line>, reply: Addr,
      rest: set<Block>, extra: nat)
    requires Account(h, rest, caller, reply, extra) && !reply.Base?
    ensures var (g, now) := RunLines(h, caller, lines, reply);
      Account(g, rest, caller, now, extra + LinesLeak(lines))
      && forall k, i :: Slot(g, k, i) == if LinesTouch(lines, k, i) then Null else Slot(h, k, i)
    decreases lines, 0
  {
    hide Account;
    if lines != [] {
      LineAccount(h, caller, lines[0].attempts, reply, rest, extra);
      var o := RunLine(h, caller, lines[0].attempts, reply);
      if !o.ends {
        LinesAccount(o.heap, caller, lines[1..], o.reply, rest, extra + LineLeaks(lines[0].attempts));
      }
    }
  }

  lemma {:induction false} LineAccount(h: Heap, caller: nat, line: seq<Attempt>, reply: Addr,
      rest: set<Block>, extra: nat)
    requires Account(h, rest, caller, reply, extra) && !reply.Base?
    ensures var o := RunLine(h, caller, line, reply);
      && Account(o.heap, rest, caller, o.reply, extra + LineLeaks(line)) && o.ends == Ends(line)
         && (!o.ends ==> !o.reply.Base?)
      && forall k, i :: Slot(o.heap, k, i) == if LineTouches(line, k, i) then Null else Slot(h, k, i)
    decreases line, 0
  {
    hide Account, Grew, Release, Supersede, Copy, RunOrders, RunBody, OrdersLeak, OrdersTouch, BodyLeaks, BodyTouches;
    if line != [] {
      match line[0]
      case ToModule(target, sent, body, replied, copied) =>
        if sent {
          AccountSane(h, rest, caller, reply, extra);
          BodyAccount(Enter(Allocate(h, target).0, target, Allocate(h, target).1), target, body);
        }
        ModuleAccount(h, caller, line, reply, rest, extra);
      case Declined => LineAccount(h, caller, line[1..], reply, rest, extra);
      case Quiet(_) =>
      case TextReply(_, stored) => AccountReplace(h, rest, caller, reply, extra, stored);
      case InitMemory => AccountDrop(h, rest, caller, reply, extra, Base(caller));
      case RunChain(chain, orders, copied) =>
        AccountSane(h, rest, caller, reply, extra);
        OrdersAccount(h, chain, orders, 0, Null);
        ChainAccount(h, caller, line, reply, rest, extra);
    }
  }

  /** A line that runs a chain, given what the chain's orders do. */
  lemma ChainAccount(h: Heap, caller: nat, line: seq<Attempt>, reply: Addr, rest: set<Block>, extra: nat)
    requires Account(h, rest, caller, reply, extra) && !reply.Base? && line != [] && line[0].RunChain?
    requires var a := line[0];
      var g := RunOrders(h, a.chain, a.orders, 0, Null).0;
      && Grew(h, g, OrdersLeak(a.chain, a.orders, 0))
      && forall k, j :: Slot(g, k, j) == if OrdersTouch(a.chain, a.orders, 0, k, j) then Null else Slot(h, k, j)
    ensures var o := RunLine(h, caller, line, reply);
      && Account(o.heap, rest, caller, o.reply, extra + LineLeaks(line)) && o.ends == Ends(line)
      && forall k, i :: Slot(o.heap, k, i) == if LineTouches(line, k, i) then Null else Slot(h, k, i)
  {
    hide Account, Grew, Release, Supersede, Copy, RunOrders, OrdersLeak, OrdersTouch;
    var a := line[0];
    var (h1, last) := RunOrders(h, a.chain, a.orders, 0, Null);
    AccountGrew(h, h1, rest, caller, reply, extra, OrdersLeak(a.chain, a.orders, 0));
    if last != Null {
      AccountReplace(h1, rest, caller, reply, extra + OrdersLeak(a.chain, a.orders, 0), a.copied);
    }
  }

  /** A line served by a module, given what its callback does. */
  lemma ModuleAccount(h: Heap, caller: nat, line: seq<Attempt>, reply: Addr, rest: set<Block>, extra: nat)
    requires Account(h, rest, caller, reply, extra) && !reply.Base? && line != [] && line[0].ToModule?
    requires line[0].sent ==>
      var h1 := Enter(Allocate(h, line[0].target).0, line[0].target, Allocate(h, line[0].target).1);
      var g := RunBody(h1, line[0].target, line[0].body);
      && Grew(h1, g, BodyLeaks(line[0].body))
      && forall k, i :: Slot(g, k, i) == if BodyTouches(line[0].body, k, i) then Null else Slot(h1, k, i)
    ensures var o := RunLine(h, caller, line, reply);
      && Account(o.heap, rest, caller, o.reply, extra + LineLeaks(line)) && o.ends == Ends(line)
      && forall k, i :: Slot(o.heap, k, i) == if LineTouches(line, k, i) then Null else Slot(h, k, i)
  {
    hide Account, Grew, Release, Supersede, Copy;
    var a := line[0];
    if a.sent {
      AccountSane(h, rest, caller, reply, extra);
      var h1 := Enter(Allocate(h, a.target).0, a.target, Allocate(h, a.target).1);
      Called(h, a.target, RunBody(h1, a.target, a.body), BodyLeaks(a.body));
      var h2 := Release(RunBody(h1, a.target, a.body), Allocate(h, a.target).1);
      AccountGrew(h, h2, rest, caller, reply, extra, BodyLeaks(a.body));
      if a.replied {
        AccountReplace(h2, rest, caller, reply, extra + BodyLeaks(a.body), a.copied);
      }
    } else {
      AccountDrop(h, rest, caller, reply, extra, Null);
    }
  }

  lemma AccountSane(h: Heap, rest: set<Block>, caller: nat, reply: Addr, extra: nat)
    requires Account(h, rest, caller, reply, extra)
    ensures Sane(h)
    ensures forall m ::
      var g := Enter(Allocate(h, m).0, m, Allocate(h, m).1); Sane(g) && g.slots == h.slots
  {
  }

  lemma {:induction false} OrdersAccount(h: Heap, chain: nat, orders: seq<Order>, i: nat, last: Addr)
    requires Sane(h)
    ensures var g := RunOrders(h, chain, orders, i, last).0;
      Grew(h, g, OrdersLeak(chain, orders, i))
      && forall k, j :: Slot(g, k, j) == if OrdersTouch(chain, orders, i, k, j) then Null else Slot(h, k, j)
    decreases orders, 0
  {
    if orders != [] {
      var o := orders[0];
      var h0 := SetSlot(h, chain, i, Null);
      if o.input.Failed? {
        OrdersAccount(h0, chain, orders[1..], i + 1, Null);
      } else {
        OrderAccount(h, chain, o, i);
        var g := AfterOrder(h, chain, o, i);
        OrdersAccount(g, chain, orders[1..], i + 1, Returned(o.target, o.replied));
      }
    }
  }

  /** The heap after one order whose input did not fail. */
  function AfterOrder(h: Heap, chain: nat, o: Order, i: nat): Heap
    decreases o, 1
  {
    var h0 := SetSlot(h, chain, i, Null);
    var h1 := if o.input.Sent? then
                var (g, input) := Allocate(h0, o.target);
                SetSlot(g, chain, i, input)
              else h0;
    var h2 := RunBody(Enter(h1, o.target, Slot(h1, chain, i)), o.target, o.body);
    SetSlot(Release(h2, Slot(h2, chain, i)), chain, i, Null)
  }

  lemma {:induction false} OrderAccount(h: Heap, chain: nat, o: Order, i: nat)
    requires Sane(h) && !o.input.Failed?
    ensures var g := AfterOrder(h, chain, o, i);
      Grew(h, g, BodyLeaks(o.body) + if o.input.Sent? && BodyTouches(o.body, chain, i) then 1 else 0)
      && forall k, j :: Slot(g, k, j) == if (k == chain && j == i) || BodyTouches(o.body, k, j) then Null
         else Slot(h, k, j)
    decreases o, 1
  {
    var h0 := SetSlot(h, chain, i, Null);
    if o.input.Sent? {
      var (h1, input) := Allocate(h0, o.target);
      var h2 := SetSlot(h1, chain, i, input);
      var h3 := Enter(h2, o.target, Slot(h2, chain, i));
      BodyAccount(h3, o.target, o.body);
      SentOrder(h, chain, i, o.target, RunBody(h3, o.target, o.body), BodyLeaks(o.body), BodyTouches(o.body, chain, i));
    } else {
      BodyAccount(Enter(h0, o.target, Slot(h0, chain, i)), o.target, o.body);
    }
    hide RunBody, BodyTouches, BodyLeaks;
  }

  /** The input is released through the slot, unless the slot was cleared meanwhile. */
  lemma SentOrder(h: Heap, chain: nat, i: nat, target: nat, g: Heap, extra: nat, touched: bool)
    requires Sane(h)
    requires var (h1, input) := Allocate(SetSlot(h, chain, i, Null), target);
      Grew(SetSlot(h1, chain, i, input), g, extra) && Slot(g, chain, i) == if touched then Null else input
    ensures var k := SetSlot(Release(g, Slot(g, chain, i)), chain, i, Null);
      Grew(h, k, extra + if touched then 1 else 0) && k.slots == g.slots[(chain, i) := Null]
  {
  }

  lemma {:induction false} BodyAccount(h: Heap, m: nat, body: seq<Command>)
    requires Sane(h)
    ensures var g := RunBody(h, m, body);
      Grew(h, g, BodyLeaks(body)) && forall k, i :: Slot(g, k, i) == if BodyTouches(body, k, i) then Null
        else Slot(h, k, i)
    decreases body, 0
  {
    if body != [] {
      RunAccount(h, m, body[0]);
      var (h1, reply) := Run(h, m, body[0]);
      var h2 := if reply.Own? then Release(h1, reply) else h1;
      BodyAccount(h2, m, body[1..]);
      hide Run, Touches, Leaks, RunBody;
    }
  }

  // ---------------------------------------------------------------- the promises

  /** Blocks that a reply adds. */
  function Blocks(a: Addr): set<Block> { if a.Own? then {a.block} else {} }

  lemma SameSize(a: set<Block>, b: set<Block>)
    requires a <= b
    ensures |a| <= |b| && (|a| == |b| <==> a == b)
  {
    assert b == a + (b - a);
    if b - a != {} {
      assert |b - a| > 0;
    }
  }

  /**
   Nothing is released that is not a live block, so no borrowed result and no reservation, and the caller never gets
   a borrowed result for a reply. The caller ends with exactly its text reply as a new block, and no module loses or
   keeps anything else, if and only if no order with an input was run again while it was served.
   */
  lemma Conserves(h: Heap, caller: nat, c: Command)
    requires Sane(h)
    ensures var (g, reply) := Run(h, caller, c);
      && !g.fault && !reply.Borrowed?
      && (reply.Own? ==> reply.block !in h.live && reply.block.owner == caller)
      && (g.live == h.live + Blocks(reply) <==> Leaks(c) == 0)
      && h.live + Blocks(reply) <= g.live && |g.live| == |h.live + Blocks(reply)| + Leaks(c)
  {
    hide Run, Leaks, Touches;
    RunAccount(h, caller, c);
    var (g, reply) := Run(h, caller, c);
    SameSize(h.live + Blocks(reply), g.live);
  }

  const AGAIN := Lines([Line([RunChain(7, [Order(1, NoInput, [], false)], false)])])
  const REENTERING := Lines([Line([RunChain(7, [Order(1, Sent, [AGAIN], false)], false)])])

  /** A callback that runs its own chain again makes the outer run forget the input it sent. */
  lemma ReentryForgetsInput()
    ensures var (g, reply) := Run(Heap({}, 0, false, map[], []), 0, REENTERING);
      reply == Null && g.live != {} && !g.fault
  {
    var inner := [Order(1, NoInput, [], false)];
    var outer := [Order(1, Sent, [AGAIN], false)];
    assert inner[1..] == [] && outer[1..] == [];
    assert OrdersTouch(7, inner, 0, 7, 0);
    assert LineTouches([RunChain(7, inner, false)], 7, 0);
    assert Touches(AGAIN, 7, 0);
    assert BodyTouches([AGAIN], 7, 0);
    assert OrdersLeak(7, outer, 0) >= 1;
    assert LineLeaks([RunChain(7, outer, false)]) >= 1;
    assert Leaks(REENTERING) >= 1;
    Conserves(Heap({}, 0, false, map[], []), 0, REENTERING);
    assert RunOrders(Heap({}, 0, false, map[], []), 7, outer, 0, Null).1 == Null by {
      assert RunOrders(AfterOrder(Heap({}, 0, false, map[], []), 7, outer[0], 0), 7, [], 1, Null).1 == Null;
    }
    hide Leaks, RunOrders;
    assert RunLine(Heap({}, 0, false, map[], []), 0, [RunChain(7, outer, false)], Null).reply == Null;
  }
}
