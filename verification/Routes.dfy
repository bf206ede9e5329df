/**
 The command registry of a module group: prefix matching of command lines, lookup by sequence number, and
 registrations that modules add and remove while lookups go on.
 */
module Routes {
  import opened Options

  const MAX_SEQUENCE: nat := 0xFFFF_FFFF_FFFF_FFFF
  const MAX_WORDS := 16

  // ---------------------------------------------------------------- words of a line

  /** One more than the number of spaces. */
  function Words(s: string): nat {
    Spaces(s) + 1
  }

  function Spaces(s: string): nat {
    if s == "" then 0 else Spaces(s[..|s| - 1]) + if s[|s| - 1] == ' ' then 1 else 0
  }

  /** The first space at or after `p`, or the end of the line. */
  function SpaceFrom(line: string, p: nat): (q: nat)
    requires p <= |line|
    ensures p <= q <= |line| && (q < |line| ==> line[q] == ' ') && forall k | p <= k < q :: line[k] != ' '
    decreases |line| - p
  {
    if p == |line| || line[p] == ' ' then p else SpaceFrom(line, p + 1)
  }

  /** The prefixes of the line that end after one word, two words and so on, at most `n`, scanning from `p`. */
  function WordPrefixes(line: string, p: nat, n: nat): seq<string>
    requires p <= |line|
    decreases n
  {
    if n == 0 || p >= |line| then []
    else
      var q := SpaceFrom(line, p);
      [line[..q]] + WordPrefixes(line, if q < |line| then q + 1 else q, n - 1)
  }

  /** Whether a command of at most `max` words is one of the line's word prefixes. */
  predicate Hit(command: string, prefixes: seq<string>) {
    Words(command) <= |prefixes| && prefixes[Words(command) - 1] == command
  }

  /** What matching means: the line is the command, or continues it with a space. */
  predicate Continues(line: string, command: string) {
    |command| <= |line| && line[..|command|] == command &&
    if |command| == |line| then command != "" && command[|command| - 1] != ' ' else line[|command|] == ' '
  }

  lemma SpacesStep(line: string, p: nat)
    requires p < |line|
    ensures Spaces(line[..p + 1]) == Spaces(line[..p]) + if line[p] == ' ' then 1 else 0
  {
    assert line[..p + 1][..p] == line[..p];
  }

  lemma {:induction false} SpacesAcross(line: string, p: nat, q: nat)
    requires p <= q <= |line|
    ensures Spaces(line[..q]) >= Spaces(line[..p])
    ensures (forall k | p <= k < q :: line[k] != ' ') ==> Spaces(line[..q]) == Spaces(line[..p])
    decreases q - p
  {
    if p < q {
      SpacesAcross(line, p, q - 1);
      SpacesStep(line, q - 1);
    }
  }

  /** The k-th prefix from a word start `p` is the only continued prefix with that many spaces. */
  lemma {:induction false} PrefixMeans(line: string, p: nat, n: nat, c: string)
    requires p <= |line| && (p == 0 || line[p - 1] == ' ') && p <= |c| <= |line| && line[..|c|] == c
    requires Spaces(c) - Spaces(line[..p]) < n
    ensures Spaces(c) >= Spaces(line[..p])
    ensures var k := Spaces(c) - Spaces(line[..p]);
      (k < |WordPrefixes(line, p, n)| && WordPrefixes(line, p, n)[k] == c) <==> Continues(line, c)
    decreases n
  {
    hide *;
    SpacesAcross(line, p, |c|);
    if p == |line| {
      NoPrefix(line, n, c);
    } else {
      var q := SpaceFrom(line, p);
      if |c| <= q {
        FirstPrefix(line, p, n, c);
      } else {
        SpacesAcross(line, p, q);
        SpacesStep(line, q);
        SpacesAcross(line, q + 1, |c|);
        PrefixMeans(line, q + 1, n - 1, c);
        LaterPrefix(line, p, n, Spaces(c) - Spaces(line[..p]));
      }
    }
  }

  lemma NoPrefix(line: string, n: nat, c: string)
    requires |c| == |line| && line[..|c|] == c && (line == "" || line[|line| - 1] == ' ')
    ensures c == line && line[..|line|] == line && WordPrefixes(line, |line|, n) == [] && !Continues(line, c)
  {
  }

  /** The prefixes after the first are those from the next word on. */
  lemma LaterPrefix(line: string, p: nat, n: nat, k: nat)
    requires p < |line| && n > 0 && k > 0 && SpaceFrom(line, p) < |line|
    ensures var w, t := WordPrefixes(line, p, n), WordPrefixes(line, SpaceFrom(line, p) + 1, n - 1);
      |w| == |t| + 1 && (k < |w| ==> w[k] == t[k - 1])
  {
  }

  /** A command that ends before the next space. */
  lemma FirstPrefix(line: string, p: nat, n: nat, c: string)
    requires p < |line| && (p == 0 || line[p - 1] == ' ') && p <= |c| <= SpaceFrom(line, p) && line[..|c|] == c && n > 0
    ensures Spaces(c) == Spaces(line[..p])
    ensures WordPrefixes(line, p, n) != [] && (WordPrefixes(line, p, n)[0] == c <==> Continues(line, c))
  {
    hide Spaces;
    var q := SpaceFrom(line, p);
    assert forall j | p <= j < |c| :: line[j] != ' ';
    SpacesAcross(line, p, |c|);
    assert WordPrefixes(line, p, n)[0] == line[..q];
    assert |c| < q ==> line[|c|] != ' ';
  }

  lemma {:induction false} PrefixIsPrefix(line: string, p: nat, n: nat, k: nat)
    requires p <= |line| && k < |WordPrefixes(line, p, n)|
    ensures var c := WordPrefixes(line, p, n)[k]; p <= |c| <= |line| && line[..|c|] == c
    decreases n
  {
    var q := SpaceFrom(line, p);
    if k > 0 {
      PrefixIsPrefix(line, if q < |line| then q + 1 else q, n - 1, k - 1);
    }
  }

  /** The hashing loop finds a command exactly when the line is the command or continues it with a space. */
  lemma HitMeans(line: string, c: string, n: nat)
    requires Words(c) <= n
    ensures Hit(c, WordPrefixes(line, 0, n)) <==> Continues(line, c)
  {
    assert Spaces(line[..0]) == 0;
    if Hit(c, WordPrefixes(line, 0, n)) {
      PrefixIsPrefix(line, 0, n, Words(c) - 1);
    }
    if |c| <= |line| && line[..|c|] == c {
      PrefixMeans(line, 0, n, c);
    }
  }

  // ---------------------------------------------------------------- the registry

  datatype Target = ModuleTarget(id: int) | HostTarget(handler: nat)

  datatype Registration = Registration(command: string, sequence: nat, runtime: bool, target: Target)

  datatype Registry = Registry(regs: seq<Registration>, counter: nat, maxWords: nat)

  const EMPTY := Registry([], 0, 0)

  function Add(r: Registry, command: string, runtime: bool, target: Target): Registry {
    Registry(r.regs + [Registration(command, r.counter + 1, runtime, target)], r.counter + 1,
             if Words(command) > r.maxWords then Words(command) else r.maxWords)
  }

  /** A module's own runtime registration of this command. */
  predicate Override(reg: Registration, id: int, command: string) {
    reg.runtime && reg.target == ModuleTarget(id) && reg.command == command
  }

  /** The position after the newest override among the first `n`, or 0. */
  function Newest(regs: seq<Registration>, n: nat, id: int, command: string): (i: nat)
    requires n <= |regs|
    ensures i <= n && (i > 0 ==> Override(regs[i - 1], id, command))
    ensures forall k | i <= k < n :: !Override(regs[k], id, command)
  {
    if n == 0 || Override(regs[n - 1], id, command) then n else Newest(regs, n - 1, id, command)
  }

  function Remove(r: Registry, id: int, command: string): Registry {
    var i := Newest(r.regs, |r.regs|, id, command);
    if i == 0 then r else r.(regs := r.regs[..i - 1] + r.regs[i..])
  }

  /** Registrations that may serve a line of a caller. */
  predicate Serves(reg: Registration, caller: int, before: nat) {
    reg.sequence < before && 1 <= Words(reg.command) <= MAX_WORDS && reg.target != ModuleTarget(caller)
  }

  /** The last of the first `n` registrations that serves the line. */
  function Search(regs: seq<Registration>, n: nat, prefixes: seq<string>, caller: int,
      before: nat): Option<Registration>
    requires n <= |regs|
  {
    if n == 0 then None
    else if Serves(regs[n - 1], caller, before) && Hit(regs[n - 1].command, prefixes) then Some(regs[n - 1])
    else Search(regs, n - 1, prefixes, caller, before)
  }

  function Find(r: Registry, line: string, caller: int, before: nat): Option<Registration> {
    var n := if r.maxWords < MAX_WORDS then r.maxWords else MAX_WORDS;
    Search(r.regs, |r.regs|, WordPrefixes(line, 0, n), caller, before)
  }

  /** Strictly sorted by sequence number, and the bookkeeping covers every registration. */
  predicate Valid(r: Registry) {
    && (forall i, j | 0 <= i < j < |r.regs| :: r.regs[i].sequence < r.regs[j].sequence)
    && (forall i | 0 <= i < |r.regs| :: 0 < r.regs[i].sequence <= r.counter && Words(r.regs[i].command) <= r.maxWords)
  }

  /** The registrations that answer a line of a caller. */
  predicate Answers(reg: Registration, line: string, caller: int) {
    Words(reg.command) <= MAX_WORDS && reg.target != ModuleTarget(caller) && Continues(line, reg.command)
  }

  /** Lookup gives the newest answering registration below `before`, and fails only when there is none. */
  lemma FindMeans(r: Registry, line: string, caller: int, before: nat)
    requires Valid(r)
    ensures match Find(r, line, caller, before)
      case Some(reg) => reg in r.regs && reg.sequence < before && Answers(reg, line, caller)
        && forall other | other in r.regs && reg.sequence < other.sequence < before :: !Answers(other, line, caller)
      case None => forall other | other in r.regs && other.sequence < before :: !Answers(other, line, caller)
  {
    var n := if r.maxWords < MAX_WORDS then r.maxWords else MAX_WORDS;
    SearchMeans(r, |r.regs|, line, n, caller, before);
  }

  lemma {:induction false} SearchMeans(r: Registry, m: nat, line: string, n: nat, caller: int, before: nat)
    requires Valid(r) && m <= |r.regs| && n == if r.maxWords < MAX_WORDS then r.maxWords else MAX_WORDS
    ensures match Search(r.regs, m, WordPrefixes(line, 0, n), caller, before)
      case Some(reg) => exists i ::
        (&& 0 <= i < m && r.regs[i] == reg && reg.sequence < before && Answers(reg, line, caller)
         && forall k | i < k < m && r.regs[k].sequence < before :: !Answers(r.regs[k], line, caller))
      case None => forall k | 0 <= k < m && r.regs[k].sequence < before :: !Answers(r.regs[k], line, caller)
    decreases m
  {
    hide WordPrefixes, Hit, Continues, Spaces;
    if m > 0 {
      var reg := r.regs[m - 1];
      if Words(reg.command) <= MAX_WORDS {
        HitMeans(line, reg.command, n);
      }
      SearchMeans(r, m - 1, line, n, caller, before);
    }
  }

  lemma AddValid(r: Registry, command: string, runtime: bool, target: Target)
    requires Valid(r)
    ensures Valid(Add(r, command, runtime, target))
  {
    hide Words;
  }

  lemma RemoveValid(r: Registry, id: int, command: string)
    requires Valid(r)
    ensures Valid(Remove(r, id, command)) && Remove(r, id, command).counter == r.counter
    ensures forall reg | reg in r.regs && !Override(reg, id, command) :: reg in Remove(r, id, command).regs
    ensures forall reg | reg in Remove(r, id, command).regs :: reg in r.regs
  {
    hide Words;
    var i := Newest(r.regs, |r.regs|, id, command);
    if i > 0 {
      Without(r.regs, i - 1);
    }
  }

  /** Deleting one element. */
  lemma Without(regs: seq<Registration>, i: nat)
    requires i < |regs|
    ensures var t := regs[..i] + regs[i + 1..];
      && |t| == |regs| - 1 && (forall k | 0 <= k < |t| :: t[k] == regs[if k < i then k else k + 1])
      && (forall reg | reg in regs && reg != regs[i] :: reg in t) && forall reg | reg in t :: reg in regs
  {
    var t := regs[..i] + regs[i + 1..];
    forall reg | reg in regs && reg != regs[i] ensures reg in t {
      var k :| 0 <= k < |regs| && regs[k] == reg;
      assert reg == t[if k < i then k else k - 1];
    }
  }

  // ---------------------------------------------------------------- a traversal among changes

  /** What happens to the registry: a lookup of the line being served, or a change by anyone. */
  datatype Event = Look | Register(command: string, runtime: bool, target: Target) | Unregister(id: int, name: string)

  /** One line's progress: the registry now, the bound for the next lookup, what was visited, and whether it ended. */
  datatype Walk = Walk(r: Registry, before: nat, visited: seq<Registration>, over: bool)

  function Happen(w: Walk, line: string, caller: int, e: Event): Walk {
    match e
    case Look =>
      (match Find(w.r, line, caller, w.before)
       case None => w.(over := true)
       case Some(reg) => w.(before := reg.sequence, visited := w.visited + [reg]))
    case Register(command, runtime, target) => w.(r := Add(w.r, command, runtime, target))
    case Unregister(id, name) => w.(r := Remove(w.r, id, name))
  }

  function Walked(w: Walk, line: string, caller: int, es: seq<Event>): Walk
    decreases es
  {
    if es == [] then w else Walked(Happen(w, line, caller, es[0]), line, caller, es[1..])
  }

  /** The registration is there at every moment. */
  predicate Stays(w: Walk, line: string, caller: int, es: seq<Event>, reg: Registration)
    decreases es
  {
    reg in w.r.regs && (es != [] ==> Stays(Happen(w, line, caller, es[0]), line, caller, es[1..], reg))
  }

  /** Visits so far: strictly downwards, none of the caller's own, all answering, down to the bound. */
  predicate Ordered(w: Walk, line: string, caller: int) {
    && Valid(w.r) && w.before <= MAX_SEQUENCE
    && (forall i, j | 0 <= i < j < |w.visited| :: w.visited[j].sequence < w.visited[i].sequence)
    && (forall i | 0 <= i < |w.visited| ::
          && 0 < w.visited[i].sequence < MAX_SEQUENCE && w.before <= w.visited[i].sequence
          && Answers(w.visited[i], line, caller))
  }

  /** Nothing was missed: an answering registration that is there was visited or is still below the bound. */
  predicate Accounted(w: Walk, line: string, caller: int, reg: Registration) {
    reg in w.r.regs && Answers(reg, line, caller) ==> reg in w.visited || (reg.sequence < w.before && !w.over)
  }

  lemma HappenOrdered(w: Walk, line: string, caller: int, e: Event)
    requires Ordered(w, line, caller)
    ensures Ordered(Happen(w, line, caller, e), line, caller)
    ensures Happen(w, line, caller, e).before <= w.before
  {
    hide Words, Continues, Find, Valid, Add, Remove;
    match e
    case Look =>
      FindMeans(w.r, line, caller, w.before);
      PositiveSequences(w.r);
    case Register(c, rt, t) => AddValid(w.r, c, rt, t);
    case Unregister(id, c) => RemoveValid(w.r, id, c);
  }

  /**
   A look visits the newest answering registration below the bound, which becomes the bound, and ends the traversal
   exactly when there is none.
   */
  lemma LookMeans(w: Walk, line: string, caller: int)
    requires Valid(w.r)
    ensures var next := Happen(w, line, caller, Look);
      && next.r == w.r
      && (next.visited == w.visited <==> forall reg | reg in w.r.regs && reg.sequence < w.before ::
            !Answers(reg, line, caller))
      && (next.visited == w.visited ==> next.over && next.before == w.before)
      && (next.visited != w.visited ==>
          && next.over == w.over && |next.visited| == |w.visited| + 1 && next.visited[..|w.visited|] == w.visited
          && var reg := next.visited[|w.visited|];
          && reg in w.r.regs && reg.sequence == next.before < w.before && Answers(reg, line, caller)
          && forall other | other in w.r.regs && next.before < other.sequence < w.before ::
            !Answers(other, line, caller))
  {
    FindMeans(w.r, line, caller, w.before);
    hide Find, Valid, Answers;
  }

  lemma PositiveSequences(r: Registry)
    requires Valid(r)
    ensures forall reg | reg in r.regs :: 0 < reg.sequence
  {
    hide Words;
  }

  /** A strictly falling list of positive numbers is no longer than its first. */
  lemma {:induction false} FallingBound(regs: seq<Registration>, n: nat)
    requires 0 < n <= |regs| && (forall i | 0 <= i < |regs| :: 0 < regs[i].sequence)
    requires forall i, j | 0 <= i < j < |regs| :: regs[j].sequence < regs[i].sequence
    ensures regs[n - 1].sequence + n - 1 <= regs[0].sequence
    decreases n
  {
    if n > 1 {
      FallingBound(regs, n - 1);
    }
  }

  lemma SameSequence(r: Registry, a: Registration, b: Registration)
    requires Valid(r) && a in r.regs && b in r.regs && a.sequence == b.sequence
    ensures a == b
  {
    hide Words;
  }

  lemma HappenAccounts(w: Walk, line: string, caller: int, e: Event, reg: Registration)
    requires Ordered(w, line, caller) && Accounted(w, line, caller, reg) && reg in w.r.regs
    ensures Accounted(Happen(w, line, caller, e), line, caller, reg)
  {
    hide Words, Continues, Find, Valid, Add, Remove, Answers;
    if e.Look? {
      FindMeans(w.r, line, caller, w.before);
      var f := Find(w.r, line, caller, w.before);
      if f.Some? && f.value.sequence == reg.sequence {
        SameSequence(w.r, f.value, reg);
      }
    }
  }

  /** A line's traversal, with any changes between its lookups. */
  lemma {:induction false} TraversalOrdered(w: Walk, line: string, caller: int, es: seq<Event>)
    requires Ordered(w, line, caller)
    ensures Ordered(Walked(w, line, caller, es), line, caller) && Walked(w, line, caller, es).before <= w.before
    decreases es
  {
    hide Ordered, Happen;
    if es != [] {
      HappenOrdered(w, line, caller, es[0]);
      TraversalOrdered(Happen(w, line, caller, es[0]), line, caller, es[1..]);
    }
  }

  lemma {:induction false} TraversalAccounts(w: Walk, line: string, caller: int, es: seq<Event>, reg: Registration)
    requires Ordered(w, line, caller) && Accounted(w, line, caller, reg) && Stays(w, line, caller, es, reg)
    ensures Accounted(Walked(w, line, caller, es), line, caller, reg) && reg in Walked(w, line, caller, es).r.regs
    decreases es
  {
    hide Ordered, Happen, Accounted;
    if es != [] {
      HappenOrdered(w, line, caller, es[0]);
      HappenAccounts(w, line, caller, es[0], reg);
      TraversalAccounts(Happen(w, line, caller, es[0]), line, caller, es[1..], reg);
    }
  }

  /**
   A whole traversal visits in strictly decreasing sequence, so nothing twice and never the caller's own; it makes at
   most as many visits as the first visited registration's number, whatever is registered meanwhile; when it ends, it
   has visited every answering registration that was there throughout.
   */
  lemma TraversalComplete(r: Registry, line: string, caller: int, es: seq<Event>, reg: Registration)
    requires Valid(r)
    ensures var w := Walked(Walk(r, MAX_SEQUENCE, [], false), line, caller, es);
      && (forall i, j | 0 <= i < j < |w.visited| :: w.visited[j].sequence < w.visited[i].sequence)
      && (forall i | 0 <= i < |w.visited| :: Answers(w.visited[i], line, caller))
      && (w.visited != [] ==> |w.visited| <= w.visited[0].sequence < MAX_SEQUENCE)
      && (w.over && Answers(reg, line, caller) && reg.sequence < MAX_SEQUENCE &&
            Stays(Walk(r, MAX_SEQUENCE, [], false), line, caller, es, reg)
          ==> reg in w.visited)
  {
    var w := Walk(r, MAX_SEQUENCE, [], false);
    hide Words, Continues, Find, Valid, Walked, Answers;
    TraversalOrdered(w, line, caller, es);
    var v := Walked(w, line, caller, es).visited;
    if v != [] {
      FallingBound(v, |v|);
    }
    if Answers(reg, line, caller) && reg.sequence < MAX_SEQUENCE && Stays(w, line, caller, es, reg) {
      TraversalAccounts(w, line, caller, es, reg);
    }
  }

  // ---------------------------------------------------------------- overrides are stacks

  function Change(r: Registry, e: Event): Registry {
    match e
    case Look => r
    case Register(command, runtime, target) => Add(r, command, runtime, target)
    case Unregister(id, name) => Remove(r, id, name)
  }

  function Changed(r: Registry, es: seq<Event>): Registry
    decreases |es|
  {
    if es == [] then r else Change(Changed(r, es[..|es| - 1]), es[|es| - 1])
  }

  /** The overrides of one module for one command, oldest first. */
  function Overrides(regs: seq<Registration>, id: int, command: string): seq<Registration> {
    if regs == [] then []
    else
      var last := regs[|regs| - 1];
      Overrides(regs[..|regs| - 1], id, command) + if Override(last, id, command) then [last] else []
  }

  /** Everything that is not an override of a module. */
  function Startup(regs: seq<Registration>): seq<Registration> {
    if regs == [] then []
    else
      var last := regs[|regs| - 1];
      Startup(regs[..|regs| - 1]) + if last.runtime && last.target.ModuleTarget? then [] else [last]
  }

  /** The stack of one module and command over a history: registering pushes, unregistering pops. */
  function Stack(es: seq<Event>, id: int, command: string): seq<Registration>
    decreases |es|
  {
    if es == [] then []
    else
      var rest, e := es[..|es| - 1], es[|es| - 1];
      var s := Stack(rest, id, command);
      match e
      case Look => s
      case Register(c, runtime, target) =>
        if c == command && runtime && target == ModuleTarget(id)
        then s + [Registration(c, Adds(rest) + 1, runtime, target)] else s
      case Unregister(m, c) => if m == id && c == command && s != [] then s[..|s| - 1] else s
  }

  /** How many registrations a history makes. */
  function Adds(es: seq<Event>): nat
    decreases |es|
  {
    if es == [] then 0 else Adds(es[..|es| - 1]) + if es[|es| - 1].Register? then 1 else 0
  }

  /** The startup routes of a history, in order. */
  function Routes(es: seq<Event>): seq<Registration>
    decreases |es|
  {
    if es == [] then []
    else
      var rest, e := es[..|es| - 1], es[|es| - 1];
      match e
      case Register(c, runtime, target) =>
        if runtime && target.ModuleTarget? then Routes(rest)
          else Routes(rest) + [Registration(c, Adds(rest) + 1, runtime, target)]
      case _ => Routes(rest)
  }

  lemma {:induction false} OverridesSplit(a: seq<Registration>, b: seq<Registration>, id: int, command: string)
    ensures Overrides(a + b, id, command) == Overrides(a, id, command) + Overrides(b, id, command)
    ensures Startup(a + b) == Startup(a) + Startup(b)
    decreases |b|
  {
    if b == [] {
      assert a + b == a;
    } else {
      var c := b[..|b| - 1];
      assert (a + b)[..|a + b| - 1] == a + c;
      OverridesSplit(a, c, id, command);
    }
  }

  lemma {:induction false} NoOverrides(regs: seq<Registration>, id: int, command: string)
    requires forall k | 0 <= k < |regs| :: !Override(regs[k], id, command)
    ensures Overrides(regs, id, command) == []
  {
    if regs != [] {
      NoOverrides(regs[..|regs| - 1], id, command);
    }
  }

  lemma OneOverride(reg: Registration, id: int, command: string)
    ensures Overrides([reg], id, command) == if Override(reg, id, command) then [reg] else []
    ensures Startup([reg]) == if reg.runtime && reg.target.ModuleTarget? then [] else [reg]
  {
    assert [reg][..0] == [];
  }

  /** Removing pops the newest override of that module and command, and touches no other route. */
  lemma RemovePops(r: Registry, m: int, name: string, id: int, command: string)
    ensures var s, t := Overrides(r.regs, id, command), Overrides(Remove(r, m, name).regs, id, command);
      t == if id == m && command == name && s != [] then s[..|s| - 1] else s
    ensures Startup(Remove(r, m, name).regs) == Startup(r.regs)
  {
    hide Overrides, Startup;
    var regs := r.regs;
    var i := Newest(regs, |regs|, m, name);
    if i == 0 {
      NoOverrides(regs, m, name);
    } else {
      var a, x, b := regs[..i - 1], regs[i - 1], regs[i..];
      assert regs == a + ([x] + b);
      OverridesSplit(a, [x] + b, id, command);
      OverridesSplit([x], b, id, command);
      OverridesSplit(a, b, id, command);
      OneOverride(x, id, command);
      if id == m && command == name {
        NoOverrides(b, id, command);
      }
    }
  }

  /**
   Over any history by any modules, the registry is the startup routes overlaid with one stack per module and command.
   */
  lemma {:induction false} RegistryIsStacks(es: seq<Event>, id: int, command: string)
    ensures var r := Changed(EMPTY, es);
      && Valid(r) && r.counter == Adds(es)
      && Overrides(r.regs, id, command) == Stack(es, id, command)
      && Startup(r.regs) == Routes(es)
    decreases |es|
  {
    hide Words, Valid, Overrides, Startup, Remove, Newest;
    if es == [] {
      EmptyRegistry(id, command);
    } else {
      var rest, e := es[..|es| - 1], es[|es| - 1];
      var r := Changed(EMPTY, rest);
      RegistryIsStacks(rest, id, command);
      match e
      case Look =>
      case Register(c, runtime, target) =>
        var reg := Registration(c, r.counter + 1, runtime, target);
        AddValid(r, c, runtime, target);
        OverridesSplit(r.regs, [reg], id, command);
        OneOverride(reg, id, command);
      case Unregister(m, c) =>
        RemoveValid(r, m, c);
        RemovePops(r, m, c, id, command);
    }
  }

  lemma EmptyRegistry(id: int, command: string)
    ensures Valid(EMPTY) && Overrides([], id, command) == [] && Startup([]) == []
  {
  }

  /** A registration that is removed again leaves every route as it was. */
  lemma PairRestores(r: Registry, id: int, command: string)
    ensures Remove(Add(r, command, true, ModuleTarget(id)), id, command).regs == r.regs
  {
    var a := Add(r, command, true, ModuleTarget(id));
    assert a.regs[..|r.regs|] + a.regs[|a.regs|..] == r.regs;
  }

  /** So lookups answer as before, for every line and caller. */
  lemma PairRestoresLookups(r: Registry, id: int, command: string, line: string, caller: int, before: nat)
    requires Valid(r)
    ensures Find(Remove(Add(r, command, true, ModuleTarget(id)), id, command), line, caller, before)
      == Find(r, line, caller, before)
  {
    var t := Remove(Add(r, command, true, ModuleTarget(id)), id, command);
    hide Words, Continues, Find, Valid, Add, Remove, Answers;
    PairRestores(r, id, command);
    AddValid(r, command, true, ModuleTarget(id));
    RemoveValid(Add(r, command, true, ModuleTarget(id)), id, command);
    FindMeans(r, line, caller, before);
    FindMeans(t, line, caller, before);
    var f, g := Find(r, line, caller, before), Find(t, line, caller, before);
    if f.Some? && g.Some? {
      assert f.value.sequence == g.value.sequence;
      SameSequence(r, f.value, g.value);
    }
  }
}
