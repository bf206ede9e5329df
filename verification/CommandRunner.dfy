/**
 Running commands and chains as the program does: loops over the lines of a message, over the registrations that
 answer a line, and over the orders of a chain, with reply and input addresses kept in variables.
 */
module CommandRunner {
  import opened Commands

  class Memory {
    var live: set<Block>
    var next: nat
    var fault: bool
    var slots: map<(nat, nat), Addr>
    ghost var log: seq<Event>

    ghost function Value(): Heap
      reads this
    {
      Heap(live, next, fault, slots, log)
    }

    constructor ()
      ensures Value() == Heap({}, 0, false, map[], [])
    {
      live, next, fault, slots, log := {}, 0, false, map[], [];
    }

    method Take(m: nat) returns (a: Addr)
      modifies this
      ensures (Value(), a) == Allocate(old(Value()), m)
    {
      a := Own(Block(m, next));
      log := log + [Took(Block(m, next))];
      live, next := live + {Block(m, next)}, next + 1;
    }

    method TakeCopy(m: nat, ok: bool) returns (a: Addr)
      modifies this
      ensures (Value(), a) == Copy(old(Value()), m, ok)
    {
      if ok {
        a := Take(m);
      } else {
        a := Null;
      }
    }

    method Give(a: Addr)
      modifies this
      ensures Value() == Release(old(Value()), a)
    {
      match a
      case Null =>
      case Own(b) =>
        if b in live {
          live, log := live - {b}, log + [Gave(b)];
        } else {
          fault := true;
        }
      case Base(_) => fault := true;
      case Borrowed(_) => fault := true;
    }

    method Remember(chain: nat, i: nat, a: Addr)
      modifies this
      ensures Value() == SetSlot(old(Value()), chain, i, a)
    {
      slots := slots[(chain, i) := a];
    }

    /** Runs a command for a module; the reply is the caller's. */
    method RunCommand(caller: nat, c: Command) returns (reply: Addr)
      modifies this
      ensures (Value(), reply) == Run(old(Value()), caller, c)
      decreases c, 1
    {
      reply := Null;
      match c
      case Processed(target, sent, body, replied, copied) =>
        if !sent {
          return;
        }
        var input := Take(target);
        Callback(target, input, body);
        Give(input);
        var response := Returned(target, replied);
        if response != Null {
          reply := TakeCopy(caller, copied);
        }
      case Lines(lines) =>
        var n := 0;
        ghost var all := RunLines(Value(), caller, lines, Null);
        assert lines[0..] == lines;
        while n < |lines|
          invariant 0 <= n <= |lines|
          invariant all == RunLines(Value(), caller, lines[n..], reply)
        {
          var ends := false;
          assert lines[n..][0] == lines[n] && lines[n..][1..] == lines[n + 1..];
          reply, ends := RunOneLine(caller, lines[n].attempts, reply);
          if ends {
            return;
          }
          n := n + 1;
        }
    }

    /** Offers a line to one registration after another. */
    method RunOneLine(caller: nat, line: seq<Attempt>, earlier: Addr) returns (reply: Addr, ends: bool)
      modifies this
      ensures Outcome(Value(), reply, ends) == RunLine(old(Value()), caller, line, earlier)
      decreases line, 1
    {
      reply, ends := earlier, false;
      var n := 0;
      assert line[0..] == line;
      while n < |line|
        invariant 0 <= n <= |line| && reply == earlier && !ends
        invariant RunLine(old(Value()), caller, line, earlier) == RunLine(Value(), caller, line[n..], earlier)
      {
        assert line[n..][0] == line[n] && line[n..][1..] == line[n + 1..];
        var previous := reply;
        match line[n] {
          case ToModule(target, sent, body, replied, copied) =>
            if !sent {
              Give(reply);
              return Null, true;
            }
            var input := Take(target);
            Callback(target, input, body);
            Give(input);
            var response := Returned(target, replied);
            if response != Null {
              var responseCopy := TakeCopy(caller, copied);
              Give(reply);
              reply := responseCopy;
            }
            return reply, true;
          case Declined =>
          case Quiet(stop) =>
            return reply, stop;
          case TextReply(stop, stored) =>
            reply := TakeCopy(caller, stored);
            if previous != Null && previous != reply {
              Give(previous);
            }
            return reply, stop;
          case InitMemory =>
            reply := Base(caller);
            if previous != Null && previous != reply {
              Give(previous);
            }
            return reply, true;
          case RunChain(chain, orders, copied) =>
            var last := ExecuteChain(chain, orders);
            if last != Null {
              reply := TakeCopy(caller, copied);
            }
            if previous != Null && previous != reply {
              Give(previous);
            }
            return reply, true;
        }
        n := n + 1;
      }
    }

    /** Executes the orders of a chain; gives what the last call returned. */
    method ExecuteChain(chain: nat, orders: seq<Order>) returns (last: Addr)
      modifies this
      ensures (Value(), last) == RunOrders(old(Value()), chain, orders, 0, Null)
      decreases orders, 1
    {
      last := Null;
      var i := 0;
      ghost var all := RunOrders(Value(), chain, orders, 0, Null);
      assert orders[0..] == orders;
      while i < |orders|
        invariant 0 <= i <= |orders|
        invariant all == RunOrders(Value(), chain, orders[i..], i, last)
      {
        assert orders[i..][0] == orders[i] && orders[i..][1..] == orders[i + 1..];
        var o := orders[i];
        Remember(chain, i, Null);
        if o.input.Failed? {
          last := Null;
        } else {
          if o.input.Sent? {
            var input := Take(o.target);
            Remember(chain, i, input);
          }
          Callback(o.target, if (chain, i) in slots then slots[(chain, i)] else Null, o.body);
          last := Returned(o.target, o.replied);
          Give(if (chain, i) in slots then slots[(chain, i)] else Null);
          Remember(chain, i, Null);
        }
        i := i + 1;
      }
    }

    /** A module's function is called with an input: it runs commands and releases the text replies it gets. */
    method Callback(m: nat, input: Addr, body: seq<Command>)
      modifies this
      ensures Value() == RunBody(Enter(old(Value()), m, input), m, body)
      decreases body, 1
    {
      log := log + [Entered(m, input)];
      var i := 0;
      ghost var entered := Value();
      assert body[0..] == body;
      while i < |body|
        invariant 0 <= i <= |body|
        invariant RunBody(entered, m, body) == RunBody(Value(), m, body[i..])
      {
        assert body[i..][0] == body[i] && body[i..][1..] == body[i + 1..];
        var reply := RunCommand(m, body[i]);
        if reply.Own? {
          Give(reply);
        }
        i := i + 1;
      }
    }
  }
}
