/**
 What commands answer and whom they call, told from the commands alone, and that no function is ever called with an
 input that is not a live block of its own module.
 */
module Replies {
  import opened Commands

  // ---------------------------------------------------------------- what an attempt says

  /** What an answer does to the reply: leaves it, takes it away, stores a text, or reserves memory. */
  datatype Word = Silent | Nothing | Text | Room

  /** The attempt that answers a line: the first that is not declined, if there is one. */
  function Answer(line: seq<Attempt>): (a: Attempt)
    ensures forall k | 0 <= k < |line| && !line[k].Declined?
      && (forall j | 0 <= j < k :: line[j].Declined?) :: a == line[k]
    ensures (forall k | 0 <= k < |line| :: line[k].Declined?) ==> a == Declined
    decreases line
  {
    if line == [] then Declined
    else if line[0].Declined? then
      assert forall j | 0 < j < |line| :: line[j] == line[1..][j - 1];
      Answer(line[1..])
    else line[0]
  }

  predicate Returns(a: Attempt) {
    match a
    case Declined => false
    case Quiet(ends) => ends
    case TextReply(ends, _) => ends
    case _ => true
  }

  /** The last order of a chain was called and returned a message. */
  predicate LastReplies(orders: seq<Order>) {
    orders != [] && !orders[|orders| - 1].input.Failed? && orders[|orders| - 1].replied
  }

  function Says(a: Attempt): Word {
    match a
    case ToModule(_, sent, _, replied, copied) =>
      if !sent then Nothing else if !replied then Silent else if copied then Text else Nothing
    case TextReply(_, stored) => if stored then Text else Nothing
    case InitMemory => Room
    case RunChain(_, orders, copied) => if !LastReplies(orders) then Silent else if copied then Text else Nothing
    case _ => Silent
  }

  /** What kind of address a reply is. */
  function Kind(a: Addr): Word { if a.Own? then Text else if a.Base? then Room else Nothing }

  /** A chain returns what its last order's function returned, and nothing when that order got no input. */
  lemma {:induction false} ChainReturns(h: Heap, chain: nat, orders: seq<Order>, i: nat, last: Addr)
    requires orders != []
    ensures var o := orders[|orders| - 1];
      RunOrders(h, chain, orders, i, last).1 == if o.input.Failed? then Null else Returned(o.target, o.replied)
    decreases |orders|
  {
    hide RunOrders;
    var g := OrderNext(h, chain, orders, i, last);
    if |orders| == 1 {
      assert orders[1..] == [];
      NoOrders(g, chain, i + 1, if orders[0].input.Failed? then Null
        else Returned(orders[0].target, orders[0].replied));
    } else {
      ChainReturns(g, chain, orders[1..], i + 1,
          if orders[0].input.Failed? then Null else Returned(orders[0].target, orders[0].replied));
    }
  }

  lemma NoOrders(h: Heap, chain: nat, i: nat, last: Addr)
    ensures RunOrders(h, chain, [], i, last) == (h, last)
  {
  }

  /** One order is served; then come the others. */
  lemma OrderNext(h: Heap, chain: nat, orders: seq<Order>, i: nat, last: Addr) returns (g: Heap)
    requires orders != []
    ensures RunOrders(h, chain, orders, i, last) == RunOrders(g, chain, orders[1..], i + 1,
        if orders[0].input.Failed? then Null else Returned(orders[0].target, orders[0].replied))
  {
    g := if orders[0].input.Failed? then SetSlot(h, chain, i, Null) else AfterOrder(h, chain, orders[0], i);
  }

  /** What a line's answer does to the reply; a line that nothing answers leaves it. */
  lemma {:induction false} LineReply(h: Heap, caller: nat, line: seq<Attempt>, reply: Addr)
    ensures var o, a := RunLine(h, caller, line, reply), Answer(line);
      && o.ends == Returns(a)
      && (if Says(a) == Silent then o.reply == reply else Kind(o.reply) == Says(a) && !o.reply.Borrowed?)
    decreases line
  {
    hide RunBody, Release, Supersede, RunOrders, Enter;
    if line != [] {
      if line[0].Declined? {
        LineReply(h, caller, line[1..], reply);
      } else {
        if line[0].RunChain? && line[0].orders != [] {
          ChainReturns(h, line[0].chain, line[0].orders, 0, Null);
        }
        ChainOfNone(h, line[0]);
      }
    }
  }

  lemma ChainOfNone(h: Heap, a: Attempt)
    ensures a.RunChain? && a.orders == [] ==> RunOrders(h, a.chain, a.orders, 0, Null) == (h, Null)
  {
  }

  // ---------------------------------------------------------------- which line decides

  /** No line before the n-th makes the command return. */
  predicate Reached(lines: seq<Line>, n: nat) {
    n < |lines| && forall j | 0 <= j < n :: !Returns(Answer(lines[j].attempts))
  }

  /** The n-th line is the last reached line whose answer says something to the reply. */
  predicate Decides(lines: seq<Line>, n: nat) {
    && Reached(lines, n) && Says(Answer(lines[n].attempts)) != Silent
    && forall m | n < m < |lines| && Reached(lines, m) :: Says(Answer(lines[m].attempts)) == Silent
  }

  lemma ReachedNext(lines: seq<Line>, n: nat)
    requires lines != []
    ensures Reached(lines, n + 1) <==> !Returns(Answer(lines[0].attempts)) && Reached(lines[1..], n)
  {
    hide Answer, Returns;
    var rest := lines[1..];
    forall j | 0 < j < |lines| ensures Answer(lines[j].attempts) == Answer(rest[j - 1].attempts) {
      assert rest[j - 1] == lines[j];
    }
    if !Returns(Answer(lines[0].attempts)) && Reached(rest, n) {
      assert Reached(lines, n + 1);
    }
    if Reached(lines, n + 1) {
      forall j | 0 <= j < n ensures !Returns(Answer(rest[j].attempts)) {
        assert rest[j] == lines[j + 1];
      }
      assert !Returns(Answer(lines[0].attempts));
      assert Reached(rest, n);
    }
  }

  lemma DecidesNext(lines: seq<Line>, n: nat)
    requires lines != [] && Decides(lines, n + 1)
    ensures Decides(lines[1..], n) && !Returns(Answer(lines[0].attempts))
  {
    hide Answer, Returns, Says;
    var rest := lines[1..];
    ReachedNext(lines, n);
    assert forall j | 0 <= j < |rest| :: rest[j] == lines[j + 1];
    forall m | n < m < |rest| && Reached(rest, m) ensures Says(Answer(rest[m].attempts)) == Silent {
      ReachedNext(lines, m);
    }
  }

  lemma ReachedFirst(lines: seq<Line>)
    requires lines != []
    ensures Reached(lines, 0) && !Reached([], 0)
    ensures Returns(Answer(lines[0].attempts)) ==> forall n: nat | Reached(lines, n) :: n == 0
  {
    hide Answer, Returns;
  }

  lemma DecidesReached(lines: seq<Line>, n: nat)
    requires Decides(lines, n)
    ensures Reached(lines, n) && Says(Answer(lines[n].attempts)) != Silent
  {
    hide Answer, Says, Reached;
  }

  /** If all reached lines behind the first are silent, so are all reached lines of the rest. */
  lemma SilentRest(lines: seq<Line>)
    requires lines != [] && !Returns(Answer(lines[0].attempts))
    requires forall m | 0 < m < |lines| && Reached(lines, m) :: Says(Answer(lines[m].attempts)) == Silent
    ensures forall n: nat | Reached(lines[1..], n) :: Says(Answer(lines[1..][n].attempts)) == Silent
  {
    hide Answer, Says, Returns;
    forall n: nat | Reached(lines[1..], n) ensures Says(Answer(lines[1..][n].attempts)) == Silent {
      ReachedNext(lines, n);
      assert lines[1..][n] == lines[n + 1];
    }
  }

  /** All reached lines are silent. */
  ghost predicate Mute(lines: seq<Line>) {
    forall n: nat | Reached(lines, n) :: Says(Answer(lines[n].attempts)) == Silent
  }

  lemma MuteParts(lines: seq<Line>)
    requires lines != [] && Mute(lines)
    ensures Says(Answer(lines[0].attempts)) == Silent && (Returns(Answer(lines[0].attempts)) || Mute(lines[1..]))
  {
    hide Answer, Says, Returns;
    ReachedFirst(lines);
    if !Returns(Answer(lines[0].attempts)) {
      SilentRest(lines);
    }
  }

  lemma DecidesFirst(lines: seq<Line>)
    requires Decides(lines, 0)
    ensures Returns(Answer(lines[0].attempts)) || Mute(lines[1..])
  {
    hide Answer, Says, Returns;
    if !Returns(Answer(lines[0].attempts)) {
      SilentRest(lines);
    }
  }

  /** The reply is as the deciding line says, and as it was when there is none. */
  lemma {:induction false} LinesReply(h: Heap, caller: nat, lines: seq<Line>, reply: Addr)
    ensures var now := RunLines(h, caller, lines, reply).1;
      && (forall n: nat | Decides(lines, n) :: Kind(now) == Says(Answer(lines[n].attempts)) && !now.Borrowed?)
      && (Mute(lines) ==> now == reply)
    decreases lines
  {
    hide Answer, Returns, Says, RunLine, Kind, Mute;
    if lines == [] {
      forall n: nat | Decides(lines, n) ensures false {
        DecidesReached(lines, n);
        NoneReached(n);
      }
    } else {
      LineReply(h, caller, lines[0].attempts, reply);
      var o, rest := RunLine(h, caller, lines[0].attempts, reply), lines[1..];
      var now := RunLines(h, caller, lines, reply).1;
      if !o.ends {
        LinesReply(o.heap, caller, rest, o.reply);
      }
      if Mute(lines) {
        MuteParts(lines);
      }
      forall n: nat | Decides(lines, n) ensures Kind(now) == Says(Answer(lines[n].attempts)) && !now.Borrowed? {
        DecidesReached(lines, n);
        ReachedFirst(lines);
        if n == 0 {
          DecidesFirst(lines);
        } else {
          DecidesNext(lines, n - 1);
          assert rest[n - 1] == lines[n];
        }
      }
    }
  }

  lemma NoneReached(n: nat)
    ensures !Reached([], n)
  {
  }

  lemma {:induction false} SomeDecides(lines: seq<Line>, n: nat) returns (d: nat)
    requires Reached(lines, n) && Says(Answer(lines[n].attempts)) != Silent
    ensures Decides(lines, d)
    decreases |lines| - n
  {
    hide Answer, Says, Reached;
    if exists m :: n < m < |lines| && Reached(lines, m) && Says(Answer(lines[m].attempts)) != Silent {
      var m :| n < m < |lines| && Reached(lines, m) && Says(Answer(lines[m].attempts)) != Silent;
      d := SomeDecides(lines, m);
    } else {
      d := n;
    }
  }

  /**
   What a command answers, from the command alone: its processor's reply if that could be sent, made and copied, or
   what the last reached line with something to say says; otherwise nothing.
   */
  lemma ReplyMeans(h: Heap, caller: nat, c: Command)
    ensures var reply := Run(h, caller, c).1;
      match c
      case Processed(_, sent, _, replied, copied) => Kind(reply) == if sent && replied && copied then Text else Nothing
      case Lines(lines) =>
        && (forall n: nat | Decides(lines, n) :: Kind(reply) == Says(Answer(lines[n].attempts)))
        && ((forall n: nat :: !Decides(lines, n)) ==> reply == Null)
  {
    match c
    case Processed(_, _, _, _, _) => hide RunBody, Release, Enter;
    case Lines(lines) =>
      hide Answer, Says, Returns, RunLines, Reached, Decides, Kind;
      LinesReply(h, caller, lines, Null);
      if forall n: nat :: !Decides(lines, n) {
        forall n: nat | Reached(lines, n) ensures Says(Answer(lines[n].attempts)) == Silent {
          if Says(Answer(lines[n].attempts)) != Silent {
            var d := SomeDecides(lines, n);
          }
        }
      }
  }

  // ---------------------------------------------------------------- whom a command calls

  /** The modules whose functions a command calls, in order, with all calls that their callbacks make. */
  function Calls(c: Command): seq<nat>
    decreases c, 0
  {
    match c
    case Processed(target, sent, body, _, _) => if sent then [target] + BodyCalls(body) else []
    case Lines(lines) => LinesCalls(lines)
  }

  function LinesCalls(lines: seq<Line>): seq<nat>
    decreases lines, 0
  {
    if lines == [] then []
    else LineCalls(lines[0].attempts) + if Returns(Answer(lines[0].attempts)) then [] else LinesCalls(lines[1..])
  }

  function LineCalls(line: seq<Attempt>): seq<nat>
    decreases line, 0
  {
    if line == [] then []
    else
      match line[0]
      case ToModule(target, sent, body, _, _) => if sent then [target] + BodyCalls(body) else []
      case Declined => LineCalls(line[1..])
      case RunChain(_, orders, _) => OrdersCalls(orders)
      case _ => []
  }

  function OrdersCalls(orders: seq<Order>): seq<nat>
    decreases orders, 0
  {
    if orders == [] then []
    else
      (if orders[0].input.Failed? then [] else [orders[0].target] + BodyCalls(orders[0].body))
        + OrdersCalls(orders[1..])
  }

  function BodyCalls(body: seq<Command>): seq<nat>
    decreases body, 0
  {
    if body == [] then [] else Calls(body[0]) + BodyCalls(body[1..])
  }

  /** The calls that a history records. */
  function CalledIn(log: seq<Event>): seq<nat> {
    if log == [] then []
    else
      var e := log[|log| - 1];
      CalledIn(log[..|log| - 1]) + if e.Entered? then [e.m] else []
  }

  /** The blocks that are live after a history. */
  function LiveAfter(log: seq<Event>): set<Block> {
    if log == [] then {}
    else
      var e := log[|log| - 1];
      var live := LiveAfter(log[..|log| - 1]);
      if e.Took? then live + {e.block} else if e.Gave? then live - {e.block} else live
  }

  /** A call's input is nothing, or a live block of the called module. */
  predicate InputOk(live: set<Block>, e: Event) {
    e.Entered? ==> e.input.Null? || (e.input.Own? && e.input.block in live && e.input.block.owner == e.m)
  }

  /** Every call of a history had a sound input when it was made. */
  predicate CallsSafe(log: seq<Event>) { forall k | 0 <= k < |log| :: InputOk(LiveAfter(log[..k]), log[k]) }

  /** The history tells what is live, and all its calls were safe. */
  ghost predicate Logged(h: Heap) { h.live == LiveAfter(h.log) && CallsSafe(h.log) }

  lemma LogMore(log: seq<Event>, e: Event)
    requires CallsSafe(log) && InputOk(LiveAfter(log), e)
    ensures CallsSafe(log + [e]) && CalledIn(log + [e]) == CalledIn(log) + if e.Entered? then [e.m] else []
    ensures var live := LiveAfter(log);
      LiveAfter(log + [e]) == if e.Took? then live + {e.block} else if e.Gave? then live - {e.block} else live
  {
    var more := log + [e];
    assert more[..|log|] == log;
    forall k | 0 <= k < |more| ensures InputOk(LiveAfter(more[..k]), more[k]) {
      if k < |log| {
        assert more[..k] == log[..k];
      }
    }
  }

  lemma AllocateLogged(h: Heap, m: nat)
    requires Logged(h)
    ensures var (g, a) := Allocate(h, m);
      Logged(g) && CalledIn(g.log) == CalledIn(h.log) && a.Own? && a.block in g.live && a.block.owner == m
  {
    LogMore(h.log, Took(Block(m, h.next)));
  }

  lemma CopyLogged(h: Heap, m: nat, ok: bool)
    requires Logged(h)
    ensures var g := Copy(h, m, ok).0; Logged(g) && CalledIn(g.log) == CalledIn(h.log)
  {
    if ok {
      AllocateLogged(h, m);
    }
  }

  lemma ReleaseLogged(h: Heap, a: Addr)
    requires Logged(h)
    ensures var g := Release(h, a); Logged(g) && CalledIn(g.log) == CalledIn(h.log)
  {
    if a.Own? && a.block in h.live {
      LogMore(h.log, Gave(a.block));
    }
  }

  lemma EnterLogged(h: Heap, m: nat, input: Addr)
    requires Logged(h) && InputOk(h.live, Entered(m, input))
    ensures Logged(Enter(h, m, input)) && CalledIn(Enter(h, m, input).log) == CalledIn(h.log) + [m]
  {
    LogMore(h.log, Entered(m, input));
  }

  /** Call, callback and release of the input, given what the callback does. */
  lemma CallLogged(h: Heap, target: nat, body: seq<Command>)
    requires Logged(h)
    requires var (h1, input) := Allocate(h, target);
      var g := Enter(h1, target, input);
      Logged(g) ==>
        Logged(RunBody(g, target, body)) && CalledIn(RunBody(g, target, body).log) == CalledIn(g.log) + BodyCalls(body)
    ensures var (h1, input) := Allocate(h, target);
      var h2 := Release(RunBody(Enter(h1, target, input), target, body), input);
      Logged(h2) && CalledIn(h2.log) == CalledIn(h.log) + ([target] + BodyCalls(body))
  {
    hide Logged, CalledIn, RunBody, BodyCalls, Enter, Allocate, Release;
    var (h1, input) := Allocate(h, target);
    AllocateLogged(h, target);
    InputLive(h1, target, input);
    EnterLogged(h1, target, input);
    ReleaseLogged(RunBody(Enter(h1, target, input), target, body), input);
    assert CalledIn(h.log) + [target] + BodyCalls(body) == CalledIn(h.log) + ([target] + BodyCalls(body));
  }

  lemma InputLive(h: Heap, m: nat, input: Addr)
    requires input.Own? && input.block in h.live && input.block.owner == m
    ensures InputOk(h.live, Entered(m, input))
  {
  }

  /**
   A command calls exactly these modules' functions, each with no input or one that its module owns and that lives.
   */
  lemma {:induction false} RunLogged(h: Heap, caller: nat, c: Command)
    requires Logged(h)
    ensures var g := Run(h, caller, c).0; Logged(g) && CalledIn(g.log) == CalledIn(h.log) + Calls(c)
    decreases c, 0
  {
    hide Logged, CalledIn, Copy, Release, RunBody, BodyCalls, LinesCalls, RunLines, Enter, Allocate;
    match c
    case Processed(target, sent, body, replied, copied) =>
      if sent {
        var (h1, input) := Allocate(h, target);
        if Logged(Enter(h1, target, input)) {
          BodyLogged(Enter(h1, target, input), target, body);
        }
        CallLogged(h, target, body);
        CopyLogged(Release(RunBody(Enter(h1, target, input), target, body), input), caller, copied);
      } else {
        assert CalledIn(h.log) + [] == CalledIn(h.log);
      }
    case Lines(lines) => LinesLogged(h, caller, lines, Null);
  }

  lemma {:induction false} LinesLogged(h: Heap, caller: nat, lines: seq<Line>, reply: Addr)
    requires Logged(h)
    ensures var g := RunLines(h, caller, lines, reply).0;
      Logged(g) && CalledIn(g.log) == CalledIn(h.log) + LinesCalls(lines)
    decreases lines, 0
  {
    hide Logged, CalledIn, RunLine, LineCalls, Answer, Returns;
    if lines == [] {
      assert CalledIn(h.log) + [] == CalledIn(h.log);
    } else {
      LineLogged(h, caller, lines[0].attempts, reply);
      LineReply(h, caller, lines[0].attempts, reply);
      var o := RunLine(h, caller, lines[0].attempts, reply);
      var calls := LineCalls(lines[0].attempts);
      if o.ends {
        assert calls + [] == calls;
      } else {
        LinesLogged(o.heap, caller, lines[1..], o.reply);
        assert CalledIn(h.log) + calls + LinesCalls(lines[1..]) == CalledIn(h.log) + (calls + LinesCalls(lines[1..]));
      }
    }
  }

  lemma SupersedeLogged(h: Heap, reply: Addr, now: Addr)
    requires Logged(h)
    ensures var g := Supersede(h, reply, now); Logged(g) && CalledIn(g.log) == CalledIn(h.log)
  {
    hide Logged, CalledIn, Release;
    ReleaseLogged(h, reply);
  }

  lemma {:induction false} LineLogged(h: Heap, caller: nat, line: seq<Attempt>, reply: Addr)
    requires Logged(h)
    ensures var g := RunLine(h, caller, line, reply).heap;
      Logged(g) && CalledIn(g.log) == CalledIn(h.log) + LineCalls(line)
    decreases line, 0
  {
    hide Logged, CalledIn, Copy, Release, Supersede, RunBody, BodyCalls, OrdersCalls, RunOrders, Enter, Allocate;
    assert CalledIn(h.log) + [] == CalledIn(h.log);
    if line != [] {
      match line[0]
      case ToModule(target, sent, body, replied, copied) =>
        if sent {
          var (h1, input) := Allocate(h, target);
          if Logged(Enter(h1, target, input)) {
            BodyLogged(Enter(h1, target, input), target, body);
          }
          CallLogged(h, target, body);
          var h2 := Release(RunBody(Enter(h1, target, input), target, body), input);
          CopyLogged(h2, caller, copied);
          ReleaseLogged(Copy(h2, caller, copied).0, reply);
        } else {
          ReleaseLogged(h, reply);
        }
      case Declined => LineLogged(h, caller, line[1..], reply);
      case Quiet(_) =>
      case TextReply(_, stored) =>
        var (h1, now) := Copy(h, caller, stored);
        CopyLogged(h, caller, stored);
        SupersedeLogged(h1, reply, now);
      case InitMemory => SupersedeLogged(h, reply, Base(caller));
      case RunChain(chain, orders, copied) =>
        OrdersLogged(h, chain, orders, 0, Null);
        var h1 := RunOrders(h, chain, orders, 0, Null).0;
        var (h2, now) := Copy(h1, caller, copied);
        CopyLogged(h1, caller, copied);
        SupersedeLogged(h2, reply, now);
    }
  }

  lemma {:induction false} OrdersLogged(h: Heap, chain: nat, orders: seq<Order>, i: nat, last: Addr)
    requires Logged(h)
    ensures var g := RunOrders(h, chain, orders, i, last).0;
      Logged(g) && CalledIn(g.log) == CalledIn(h.log) + OrdersCalls(orders)
    decreases orders, 0
  {
    hide Logged, CalledIn, AfterOrder, SetSlot, BodyCalls;
    if orders == [] {
      assert CalledIn(h.log) + [] == CalledIn(h.log);
    } else {
      var o := orders[0];
      OrderForm(h, chain, orders, i, last);
      if o.input.Failed? {
        SlotLogged(h, chain, i, Null);
        OrdersLogged(SetSlot(h, chain, i, Null), chain, orders[1..], i + 1, Null);
        assert [] + OrdersCalls(orders[1..]) == OrdersCalls(orders[1..]);
      } else {
        OrderLogged(h, chain, o, i);
        OrdersLogged(AfterOrder(h, chain, o, i), chain, orders[1..], i + 1, Returned(o.target, o.replied));
        var calls := [o.target] + BodyCalls(o.body);
        assert CalledIn(h.log) + calls + OrdersCalls(orders[1..]) == CalledIn(h.log)
          + (calls + OrdersCalls(orders[1..]));
      }
    }
  }

  lemma OrderForm(h: Heap, chain: nat, orders: seq<Order>, i: nat, last: Addr)
    requires orders != []
    ensures RunOrders(h, chain, orders, i, last) ==
      if orders[0].input.Failed? then RunOrders(SetSlot(h, chain, i, Null), chain, orders[1..], i + 1, Null)
      else RunOrders(AfterOrder(h, chain, orders[0], i), chain, orders[1..], i + 1,
                     Returned(orders[0].target, orders[0].replied))
  {
  }

  lemma SlotLogged(h: Heap, chain: nat, i: nat, a: Addr)
    requires Logged(h)
    ensures Logged(SetSlot(h, chain, i, a)) && CalledIn(SetSlot(h, chain, i, a).log) == CalledIn(h.log)
    ensures SetSlot(h, chain, i, a).live == h.live && Slot(SetSlot(h, chain, i, a), chain, i) == a
  {
  }

  lemma {:induction false} OrderLogged(h: Heap, chain: nat, o: Order, i: nat)
    requires Logged(h) && !o.input.Failed?
    ensures var g := AfterOrder(h, chain, o, i);
      Logged(g) && CalledIn(g.log) == CalledIn(h.log) + ([o.target] + BodyCalls(o.body))
    decreases o, 1
  {
    hide Logged, CalledIn, Release, RunBody, BodyCalls, Enter, Allocate, SetSlot, Slot;
    SlotLogged(h, chain, i, Null);
    var h0 := SetSlot(h, chain, i, Null);
    var h1 := h0;
    if o.input.Sent? {
      var (g, input) := Allocate(h0, o.target);
      AllocateLogged(h0, o.target);
      SlotLogged(g, chain, i, input);
      h1 := SetSlot(g, chain, i, input);
    }
    var e := Enter(h1, o.target, Slot(h1, chain, i));
    EnterLogged(h1, o.target, Slot(h1, chain, i));
    BodyLogged(e, o.target, o.body);
    var h2 := RunBody(e, o.target, o.body);
    ReleaseLogged(h2, Slot(h2, chain, i));
    SlotLogged(Release(h2, Slot(h2, chain, i)), chain, i, Null);
    assert CalledIn(h.log) + [o.target] + BodyCalls(o.body) == CalledIn(h.log) + ([o.target] + BodyCalls(o.body));
  }

  lemma {:induction false} BodyLogged(h: Heap, m: nat, body: seq<Command>)
    requires Logged(h)
    ensures var g := RunBody(h, m, body); Logged(g) && CalledIn(g.log) == CalledIn(h.log) + BodyCalls(body)
    decreases body, 0
  {
    hide Logged, CalledIn, Run, Calls, Release;
    if body == [] {
      assert CalledIn(h.log) + [] == CalledIn(h.log);
    } else {
      RunLogged(h, m, body[0]);
      var (h1, reply) := Run(h, m, body[0]);
      ReleaseLogged(h1, reply);
      BodyLogged(if reply.Own? then Release(h1, reply) else h1, m, body[1..]);
      assert CalledIn(h.log) + Calls(body[0]) + BodyCalls(body[1..])
        == CalledIn(h.log) + (Calls(body[0]) + BodyCalls(body[1..]));
    }
  }

  /**
   From a clean start, every function that a command or any callback calls gets no input or a block that is its
   module's own and has not been released, and the calls are those that the command prescribes.
   */
  lemma CallsAreSafe(caller: nat, c: Command)
    ensures var g := Run(Heap({}, 0, false, map[], []), caller, c).0;
      CallsSafe(g.log) && g.live == LiveAfter(g.log) && CalledIn(g.log) == Calls(c)
  {
    hide Run, Calls;
    var h := Heap({}, 0, false, map[], []);
    assert Logged(h);
    RunLogged(h, caller, c);
    assert CalledIn([]) + Calls(c) == Calls(c);
  }
}
