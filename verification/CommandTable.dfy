/**
 The command registry as the group keeps it: a growable array of registrations that is appended to, deleted from by
 moving its end down, and searched backwards, with the line's prefixes hashed into a fixed table of sixteen.
 */
module CommandTable {
  import opened Options
  import opened Routes

  const NO_REGISTRATION := Registration("", 0, false, HostTarget(0))

  class Table {
    var reg: array<Registration>
    var count: nat
    var counter: nat
    var maxWords: nat

    ghost predicate Valid()
      reads this
    {
      count <= reg.Length
    }

    ghost function Value(): Registry
      requires Valid()
      reads this, reg
    {
      Registry(reg[..count], counter, maxWords)
    }

    ghost function Repr(): set<object>
      reads this
    {
      {this, reg}
    }

    constructor ()
      ensures Valid() && fresh(Repr()) && Value() == EMPTY
    {
      reg := new Registration[0];
      count, counter, maxWords := 0, 0, 0;
    }

    /** Makes room for one more registration. */
    method Grow()
      requires Valid()
      modifies this`reg
      ensures Valid() && fresh(Repr() - old(Repr())) && count < reg.Length && Value() == old(Value())
    {
      if count == reg.Length {
        var larger := new Registration[(6 * (count + 1) + 4) / 5](_ => NO_REGISTRATION);
        var i := 0;
        while i < count
          invariant 0 <= i <= count == reg.Length < larger.Length && reg == old(reg) && larger[..i] == reg[..i]
        {
          larger[i] := reg[i];
          i := i + 1;
        }
        reg := larger;
      }
    }

    /** Registers a command. */
    method Append(command: string, runtime: bool, target: Target)
      requires Valid()
      modifies Repr()
      ensures Valid() && fresh(Repr() - old(Repr()))
      ensures Value() == Add(old(Value()), command, runtime, target)
    {
      Grow();
      counter := counter + 1;
      reg[count] := Registration(command, counter, runtime, target);
      count := count + 1;
      maxWords := if Words(command) > maxWords then Words(command) else maxWords;
    }

    /** Moves everything from position `i` on down by one. */
    method CloseGap(i: nat)
      requires Valid() && 0 < i <= count
      modifies this`count, reg
      ensures Valid() && reg == old(reg)
      ensures Value() == old(Value()).(regs := old(reg[..i - 1]) + old(reg[i..count]))
    {
      var j := i;
      while j < count
        invariant i <= j <= count == old(count) && reg == old(reg) && count <= reg.Length
        invariant reg[..j - 1] == old(reg[..i - 1]) + old(reg[i..j])
        invariant reg[j..count] == old(reg[j..count])
      {
        ghost var rest := old(reg[j..count]);
        assert reg[j] == reg[j..count][0] == rest[0] == old(reg[j]);
        reg[j - 1] := reg[j];
        assert reg[j + 1..count] == reg[j..count][1..] == rest[1..];
        j := j + 1;
      }
      count := count - 1;
    }

    /** Registers an override of a module, or takes back its newest one. */
    method ChangeRuntime(id: int, command: string, add: bool)
      requires Valid()
      modifies Repr()
      ensures Valid() && fresh(Repr() - old(Repr()))
      ensures Value() == if add then Add(old(Value()), command, true, ModuleTarget(id))
        else Remove(old(Value()), id, command)
    {
      if add {
        Append(command, true, ModuleTarget(id));
        return;
      }
      ghost var regs := reg[..count];
      var i := count;
      while i > 0
        invariant 0 <= i <= count && count == |regs| && reg == old(reg) && Valid() && reg[..count] == regs
          && Value() == old(Value())
        invariant Newest(regs, |regs|, id, command) == Newest(regs, i, id, command)
      {
        assert regs[i - 1] == reg[i - 1];
        if Override(reg[i - 1], id, command) {
          assert regs[..i - 1] == reg[..i - 1] && regs[i..] == reg[i..count];
          CloseGap(i);
          return;
        }
        i := i - 1;
      }
    }

    /** The prefixes that the line offers, one per word count. */
    method Hash(line: string) returns (hashes: array<Option<string>>)
      ensures fresh(hashes) && hashes.Length == MAX_WORDS
      ensures var n := if maxWords < MAX_WORDS then maxWords else MAX_WORDS;
        var prefixes := WordPrefixes(line, 0, n);
        |prefixes| <= MAX_WORDS && forall k | 0 <= k < MAX_WORDS ::
          hashes[k] == if k < |prefixes| then Some(prefixes[k]) else None
    {
      hashes := new Option<string>[MAX_WORDS](_ => None);
      var n := if maxWords < MAX_WORDS then maxWords else MAX_WORDS;
      ghost var prefixes := WordPrefixes(line, 0, n);
      PrefixCount(line, 0, n);
      var p, i := 0, 0;
      while i < n && p < |line|
        invariant 0 <= i <= n && p <= |line| && i <= |prefixes|
        invariant prefixes[i..] == WordPrefixes(line, p, n - i)
        invariant forall k | 0 <= k < MAX_WORDS :: hashes[k] == if k < i then Some(prefixes[k]) else None
      {
        ghost var rest := prefixes[i..];
        assert rest != [] && rest[0] == prefixes[i] && rest[1..] == prefixes[i + 1..];
        p := SpaceFrom(line, p);
        hashes[i] := Some(line[..p]);
        if p < |line| {
          p := p + 1;
        }
        i := i + 1;
      }
      assert prefixes[i..] == [];
    }

    /** The newest registration below `before` that answers the line, other than the caller's own. */
    method Lookup(line: string, caller: int, before: nat) returns (found: Option<Registration>)
      requires Valid()
      ensures found == Find(Value(), line, caller, before)
    {
      var hashes := Hash(line);
      ghost var n := if maxWords < MAX_WORDS then maxWords else MAX_WORDS;
      ghost var prefixes := WordPrefixes(line, 0, n);
      ghost var regs := reg[..count];
      var i := count;
      while i > 0
        invariant 0 <= i <= count
        invariant Find(Value(), line, caller, before) == Search(regs, i, prefixes, caller, before)
      {
        var r := reg[i - 1];
        assert regs[i - 1] == r;
        if Serves(r, caller, before) && hashes[Words(r.command) - 1] == Some(r.command) {
          return Some(r);
        }
        i := i - 1;
      }
      found := None;
    }
  }

  lemma {:induction false} PrefixCount(line: string, p: nat, n: nat)
    requires p <= |line|
    ensures |WordPrefixes(line, p, n)| <= n
    decreases n
  {
    if n > 0 && p < |line| {
      var q := SpaceFrom(line, p);
      PrefixCount(line, if q < |line| then q + 1 else q, n - 1);
    }
  }
}
