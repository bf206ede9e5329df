/**
 Paths through the C of one function, and what is assigned along them: every arm, every target of a
 switch and every number of rounds, whatever the values are.
 */
module Paths {
  import opened Options
  import opened Wasm
  import opened CLang
  import opened Layout
  import opened Scoping
  import opened Steps

  // ---------------------------------------------------------------- one statement

  /** The variables whose values a statement uses. */
  function Reads(s: CStmt): set<nat> {
    match s
    case Assign(_, e) => ExprVars(e)
    case AssignVia(_, _, e) => ExprVars(e)
    case AssignGlobal(_, e) => ExprVars(e)
    case StoreBytes(_, a, e) => ExprVars(a) + ExprVars(e)
    case Discard(v) => {v}
    case CallTo(_, _, args) => set v | v in args
    case IfOpen(c) => {c}
    case Switch(c, _, _) => {c}
    case Ret(v) => if v.Some? then {v.value} else {}
    case _ => {}
  }

  /** The variables to which a statement gives values. */
  function Sets(s: CStmt): set<nat> {
    match s
    case DeclareZero(v, _) => {v}
    case Assign(d, _) => {d.v}
    case AssignVia(d, via, _) => {d.v, via}
    case CallTo(to, _, _) => if to.Some? then {to.value.v} else {}
    case _ => {}
  }

  /** The assigned variables behind a statement that control falls through. */
  function Filled(s: CStmt, vs: set<nat>): set<nat> { if s.Declare? then vs - {s.v} else vs + Sets(s) }

  predicate Falls(s: CStmt) {
    !s.ElseOpen? && !s.Close? && !s.Goto? && !s.Switch? && !s.Ret? && !s.Abort?
  }

  /** Where control may go from a statement other than to the next one. */
  function Jumps(code: seq<CStmt>, pc: nat): (ps: set<nat>)
    requires pc < |code|
    ensures forall p | p in ps :: p <= |code|
  {
    match code[pc]
    case IfOpen(_) =>
      var j := SkipArm(code, pc + 1, 0);
      if j == |code| then {} else {if code[j].ElseOpen? then j + 1 else j}
    case ElseOpen => {SkipArm(code, pc + 1, 0)}
    case Close => {pc + 1}
    case Goto(l) => {FindLabel(code, l, 0)}
    case Switch(_, ls, dflt) => (set l | l in ls :: FindLabel(code, l, 0)) + {FindLabel(code, dflt, 0)}
    case _ => {}
  }

  // ---------------------------------------------------------------- paths

  /** A point on a path: the position and the variables assigned so far that are still in scope. */
  datatype Spot = Spot(pc: nat, filled: set<nat>)

  /** One step of a path. A jump forgets what is not in scope where it lands. */
  predicate Moves(f: CFunc, s: Spot, t: Spot) {
    && s.pc < |f.body| && t.pc <= |f.body|
    && (|| (Falls(f.body[s.pc]) && t == Spot(s.pc + 1, Filled(f.body[s.pc], s.filled)))
        || (t.pc in Jumps(f.body, s.pc) && t.filled == s.filled * ScopeAt(f, t.pc).Keys))
  }

  function Entrance(f: CFunc): Spot { Spot(0, ParamScope(f.params)[0].Keys) }

  /** A path from the start of the function. */
  predicate Path(f: CFunc, ss: seq<Spot>) {
    |ss| > 0 && ss[0] == Entrance(f) && forall i | 0 < i < |ss| :: Moves(f, ss[i - 1], ss[i])
  }

  predicate ReadsAssigned(f: CFunc, s: Spot) {
    s.pc < |f.body| ==> Reads(f.body[s.pc]) <= s.filled
  }

  /** From here on, no path of up to `k` steps reads a variable before it is assigned. */
  ghost predicate Safe(f: CFunc, pc: nat, vs: set<nat>, k: nat)
    decreases k
  {
    k == 0 || pc >= |f.body| ||
    (&& Reads(f.body[pc]) <= vs
     && (Falls(f.body[pc]) ==> Safe(f, pc + 1, Filled(f.body[pc], vs), k - 1))
     && forall to | to in Jumps(f.body, pc) :: Safe(f, to, vs * ScopeAt(f, to).Keys, k - 1))
  }

  lemma {:induction false} SafeMore(f: CFunc, pc: nat, vs: set<nat>, ws: set<nat>, k: nat, n: nat)
    requires Safe(f, pc, vs, k) && vs <= ws && n <= k
    ensures Safe(f, pc, ws, n)
    decreases n
  {
    hide ScopeAt, Jumps, Reads, Sets;
    if n > 0 && pc < |f.body| {
      if Falls(f.body[pc]) {
        SafeMore(f, pc + 1, Filled(f.body[pc], vs), Filled(f.body[pc], ws), k - 1, n - 1);
      }
      forall to | to in Jumps(f.body, pc) ensures Safe(f, to, ws * ScopeAt(f, to).Keys, n - 1) {
        SafeMore(f, to, vs * ScopeAt(f, to).Keys, ws * ScopeAt(f, to).Keys, k - 1, n - 1);
      }
    }
  }

  /** Safety is what it says of paths. */
  lemma {:induction false} SafeAlong(f: CFunc, ss: seq<Spot>, i: nat, k: nat)
    requires Path(f, ss) && i < |ss| && Safe(f, 0, Entrance(f).filled, k + i)
    ensures Safe(f, ss[i].pc, ss[i].filled, k)
    decreases i
  {
    hide ScopeAt, Jumps, Reads, Sets, Filled, Falls;
    if i > 0 {
      SafeAlong(f, ss, i - 1, k + 1);
      assert Moves(f, ss[i - 1], ss[i]);
    }
  }

  lemma SafeReads(f: CFunc, s: Spot)
    requires Safe(f, s.pc, s.filled, 1)
    ensures ReadsAssigned(f, s)
  {
  }

  // ---------------------------------------------------------------- steps at a position

  ghost predicate SafeAt(a: Place, pc: nat, vs: set<nat>, k: nat) { a.fn < |a.p| && Safe(a.p[a.fn], pc, vs, k) }

  lemma SafeWith(a: Place, pc: nat, vs: set<nat>, ws: set<nat>, k: nat, n: nat)
    requires SafeAt(a, pc, vs, k) && vs <= ws && n <= k
    ensures SafeAt(a, pc, ws, n)
  {
    SafeMore(a.p[a.fn], pc, vs, ws, k, n);
  }

  lemma NamesAre(a: Place, pc: nat)
    requires a.fn < |a.p| && pc <= |a.Body()|
    ensures ScopeAt(a.p[a.fn], pc) == Names(a, pc)
  {
    hide ScopeFold, Visible, ParamScope;
  }

  /** A statement that control only falls through. */
  lemma SafeFall(a: Place, pc: nat, s: CStmt, vs: set<nat>, k: nat)
    requires a.fn < |a.p| && CodeAt(a, pc, [s]) && Falls(s) && !s.IfOpen? && Reads(s) <= vs
    requires k > 0 ==> SafeAt(a, pc + 1, Filled(s, vs), k - 1)
    ensures SafeAt(a, pc, vs, k)
  {
    hide Reads, Filled, ScopeAt, Sets;
    StmtAt(a, pc, s);
    assert Jumps(a.Body(), pc) == {};
  }

  lemma SafeNext(a: Place, pc: nat, s: CStmt, vs: set<nat>, ws: set<nat>, k: nat)
    requires a.fn < |a.p| && CodeAt(a, pc, [s]) && Falls(s) && !s.IfOpen? && Reads(s) <= vs
    requires ws <= Filled(s, vs) && SafeAt(a, pc + 1, ws, k)
    ensures SafeAt(a, pc, vs, k)
  {
    hide *;
    if k > 0 {
      SafeWith(a, pc + 1, ws, Filled(s, vs), k, k - 1);
    }
    SafeFall(a, pc, s, vs, k);
  }

  /** A statement with one place to go on at. */
  lemma SafeJump(a: Place, pc: nat, to: nat, vs: set<nat>, ws: set<nat>, k: nat)
    requires a.fn < |a.p| && pc < |a.Body()| && Jumps(a.Body(), pc) == {to} && !Falls(a.Body()[pc])
      && Reads(a.Body()[pc]) <= vs
    requires ws <= vs && ws <= Names(a, to).Keys && SafeAt(a, to, ws, k)
    ensures SafeAt(a, pc, vs, k)
  {
    hide Reads, ScopeAt, Sets, Jumps, Falls, Names;
    NamesAre(a, to);
    if k > 0 {
      SafeWith(a, to, ws, vs * Names(a, to).Keys, k, k - 1);
    }
  }

  lemma SafeGoto(a: Place, pc: nat, l: nat, at: nat, vs: set<nat>, ws: set<nat>, k: nat)
    requires a.fn < |a.p| && UniqueLabels(a.Body()) && CodeAt(a, pc, [Goto(l)]) && CodeAt(a, at, [LabelHere(l)])
    requires ws <= vs && ws <= Names(a, at).Keys && SafeAt(a, at, ws, k)
    ensures SafeAt(a, pc, vs, k)
  {
    hide Names;
    StmtAt(a, pc, Goto(l));
    StmtAt(a, at, LabelHere(l));
    LabelFound(a.Body(), l, at, 0);
    SafeJump(a, pc, at, vs, ws, k);
  }

  lemma SafeClose(a: Place, pc: nat, vs: set<nat>, ws: set<nat>, k: nat)
    requires a.fn < |a.p| && CodeAt(a, pc, [Close])
    requires ws <= vs && ws <= Names(a, pc + 1).Keys && SafeAt(a, pc + 1, ws, k)
    ensures SafeAt(a, pc, vs, k)
  {
    hide Names;
    StmtAt(a, pc, Close);
    SafeJump(a, pc, pc + 1, vs, ws, k);
  }

  lemma SafeElse(a: Place, pc: nat, s: seq<CStmt>, vs: set<nat>, ws: set<nat>, k: nat)
    requires a.fn < |a.p| && CodeAt(a, pc, [ElseOpen] + s + [Close]) && Balanced(s)
    requires ws <= vs && ws <= Names(a, pc + 1 + |s|).Keys && SafeAt(a, pc + 1 + |s|, ws, k)
    ensures SafeAt(a, pc, vs, k)
  {
    hide Names, Balanced, CodeAt;
    ArmAt(a, pc, ElseOpen, s, Close);
    SkipFinds(a.Body(), pc + 1, s);
    SafeJump(a, pc, pc + 1 + |s|, vs, ws, k);
  }

  /** Both ways on from a condition. */
  lemma SafeIf(a: Place, pc: nat, c: nat, s: seq<CStmt>, brace: CStmt, vs: set<nat>, ws: set<nat>, k: nat)
    requires a.fn < |a.p| && CodeAt(a, pc, [IfOpen(c)] + s + [brace]) && Balanced(s)
      && (brace.Close? || brace.ElseOpen?) && c in vs
    requires SafeAt(a, pc + 1, vs, k)
    requires
      var to := pc + 1 + |s| + if brace.ElseOpen? then 1 else 0;
      ws <= vs && ws <= Names(a, to).Keys && SafeAt(a, to, ws, k)
    ensures SafeAt(a, pc, vs, k)
  {
    hide Names, Balanced, CodeAt, ScopeAt;
    var to := pc + 1 + |s| + if brace.ElseOpen? then 1 else 0;
    ArmAt(a, pc, IfOpen(c), s, brace);
    SkipFinds(a.Body(), pc + 1, s);
    assert Jumps(a.Body(), pc) == {to};
    NamesAre(a, to);
    if k > 0 {
      assert Filled(IfOpen(c), vs) == vs;
      SafeWith(a, pc + 1, vs, vs, k, k - 1);
      SafeWith(a, to, ws, vs * Names(a, to).Keys, k, k - 1);
    }
  }

  /** Every target of a switch. */
  lemma SafeSwitch(a: Place, pc: nat, c: nat, ls: seq<nat>, dflt: nat, vs: set<nat>, k: nat)
    requires a.fn < |a.p| && CodeAt(a, pc, [Switch(c, ls, dflt)]) && c in vs
    requires forall l | l in ls || l == dflt ::
      SafeAt(a, FindLabel(a.Body(), l, 0), vs * Names(a, FindLabel(a.Body(), l, 0)).Keys, k)
    ensures SafeAt(a, pc, vs, k)
  {
    hide Names, ScopeAt;
    StmtAt(a, pc, Switch(c, ls, dflt));
    forall to | to in Jumps(a.Body(), pc)
      ensures k > 0 ==> Safe(a.p[a.fn], to, vs * ScopeAt(a.p[a.fn], to).Keys, k - 1)
    {
      var l :| (l in ls || l == dflt) && to == FindLabel(a.Body(), l, 0);
      NamesAre(a, to);
      if k > 0 {
        SafeWith(a, to, vs * Names(a, to).Keys, vs * Names(a, to).Keys, k, k - 1);
      }
    }
  }

  /** The function ends here. */
  lemma SafeLast(a: Place, pc: nat, s: CStmt, vs: set<nat>, k: nat)
    requires a.fn < |a.p| && CodeAt(a, pc, [s]) && (s.Ret? || s.Abort?) && Reads(s) <= vs
    ensures SafeAt(a, pc, vs, k)
  {
    hide ScopeAt;
    StmtAt(a, pc, s);
  }

  lemma SafeDone(a: Place, vs: set<nat>, k: nat)
    requires a.fn < |a.p|
    ensures SafeAt(a, |a.Body()|, vs, k)
  {
  }

  // ---------------------------------------------------------------- what a statement reads

  /** Two environments that hold the same values, or none, for these variables. */
  predicate Alike(vs: set<nat>, a: Env, b: Env) {
    forall v | v in vs :: (v in a <==> v in b) && (v in a ==> a[v] == b[v])
  }

  lemma {:induction false} EvalDepends(e: CExpr, a: Env, b: Env, s: Store)
    requires Alike(ExprVars(e), a, b)
    ensures Eval(e, a, s) == Eval(e, b, s)
    decreases e
  {
    match e
    case Var(v) => assert v in ExprVars(e);
    case NotE(x) => EvalDepends(x, a, b, s);
    case NegE(x) => EvalDepends(x, a, b, s);
    case Cast(_, x) => EvalDepends(x, a, b, s);
    case BinE(_, x, y) =>
      EvalDepends(x, a, b, s);
      EvalDepends(y, a, b, s);
    case CondE(c, x, y) =>
      EvalDepends(c, a, b, s);
      EvalDepends(x, a, b, s);
      EvalDepends(y, a, b, s);
    case MemByte(x) => EvalDepends(x, a, b, s);
    case LoadFn(_, x) => EvalDepends(x, a, b, s);
    case _ =>
  }

  /** Both machines are at the same place with the same store, or in the same state. */
  predicate SameCourse(a: Machine, b: Machine) {
    a == b || (a.Running? && b.Running? && a.fr.fn == b.fr.fn && a.fr.pc == b.fr.pc && a.store == b.store)
  }

  /** Running a plain statement. */
  lemma PlainDepends(s: CStmt, scope: map<nat, ValType>, a: Env, b: Env, store: Store)
    requires IsPlain(s) && Alike(Reads(s), a, b)
    ensures var x, y := Plain(s, scope, a, store), Plain(s, scope, b, store);
      (x.None? <==> y.None?) && (x.Some? ==> x.value.1 == y.value.1)
  {
    hide Eval, ExprVars, Bytes, Write, Convert, Conv, Zero;
    match s
    case Assign(_, e) => EvalDepends(e, a, b, store);
    case AssignVia(_, _, e) => EvalDepends(e, a, b, store);
    case AssignGlobal(_, e) => EvalDepends(e, a, b, store);
    case StoreBytes(_, x, e) =>
      EvalDepends(x, a, b, store);
      EvalDepends(e, a, b, store);
    case _ =>
  }

  /** A statement's course depends on the variables it reads and on no others: they are all that it reads. */
  lemma StepDepends(p: seq<CFunc>, fr: Frame, env: Env, callers: Callers, store: Store)
    requires fr.fn < |p| && fr.pc < |p[fr.fn].body| && Alike(Reads(p[fr.fn].body[fr.pc]), fr.env, env)
    ensures SameCourse(Step(p, Running(fr, callers, store)), Step(p, Running(fr.(env := env), callers, store)))
  {
    var f := p[fr.fn];
    var s := f.body[fr.pc];
    if IsPlain(s) {
      PlainDepends(s, ScopeAt(f, fr.pc), fr.env, env, store);
      PlainSteps(p, fr, callers, store);
      PlainSteps(p, fr.(env := env), callers, store);
      hide *;
      assert fr.(env := env).fn == fr.fn;
      CourseForm();
    } else if s.CallTo? {
      CallDepends(p, fr, env, callers, store, s.to, s.f, s.args);
    } else {
      hide ScopeAt, SkipArm, FindLabel, Restrict, Plain, Convert;
    }
  }

  lemma CourseForm()
    ensures forall a: Machine, b: Machine ::
      SameCourse(a, b) <==>
        a == b || (a.Running? && b.Running? && a.fr.fn == b.fr.fn && a.fr.pc == b.fr.pc && a.store == b.store)
  {
  }

  lemma PlainSteps(p: seq<CFunc>, fr: Frame, callers: Callers, store: Store)
    requires fr.fn < |p| && fr.pc < |p[fr.fn].body| && IsPlain(p[fr.fn].body[fr.pc])
    ensures var f := p[fr.fn];
      var r := Plain(f.body[fr.pc], ScopeAt(f, fr.pc), fr.env, store);
      Step(p, Running(fr, callers, store)) ==
        if r.None? then Stuck else Running(Frame(fr.fn, fr.pc + 1, r.value.0), callers, r.value.1)
  {
    hide ScopeAt, Plain;
  }

  lemma CallDepends(p: seq<CFunc>, fr: Frame, env: Env, callers: Callers, store: Store, to: Option<Dst>, g: nat,
      args: seq<nat>)
    requires fr.fn < |p| && fr.pc < |p[fr.fn].body| && p[fr.fn].body[fr.pc] == CallTo(to, g, args)
    requires Alike((set v | v in args), fr.env, env)
    ensures SameCourse(Step(p, Running(fr, callers, store)), Step(p, Running(fr.(env := env), callers, store)))
  {
    forall i | 0 <= i < |args| ensures (args[i] in fr.env <==> args[i] in env)
      && (args[i] in env ==> env[args[i]] == fr.env[args[i]])
    {
      assert args[i] in (set v | v in args);
    }
  }
}
