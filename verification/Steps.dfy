/** Steps of the C machine inside one translated function, by position. */
module Steps {
  import opened Options
  import opened Wasm
  import opened CLang
  import opened Translator
  import opened Layout
  import opened Scoping

  /** A running activation of function `fn` of program `p`, with the frames of its callers. */
  datatype Place = Place(p: seq<CFunc>, fn: nat, cx: Context, callers: Callers) {
    function Body(): seq<CStmt> { if fn < |p| then p[fn].body else [] }
  }

  function RetOf(results: seq<ValType>): Option<ValType> { if results == [] then None else Some(results[0]) }

  /** The C function that a function is translated to. */
  function Compiled(m: Module, f: Func): CFunc
    requires f.ty < |m.types|
  {
    CFunc(m.types[f.ty].params, RetOf(m.types[f.ty].results), if TransFunc(m, f).Emit? then TransFunc(m, f).out else [])
  }

  predicate Translated(m: Module, p: seq<CFunc>) {
    |p| == |m.funcs| && forall i | 0 <= i < |p| :: m.funcs[i].ty < |m.types| && p[i] == Compiled(m, m.funcs[i])
  }

  predicate PlaceOk(a: Place) {
    && a.fn < |a.p| && Translated(a.cx.m, a.p) && UniqueLabels(a.Body())
    && a.cx == FuncContext(a.cx.m, a.cx.m.funcs[a.fn])
  }

  predicate CodeAt(a: Place, pc: nat, s: seq<CStmt>) {
    pc + |s| <= |a.Body()| && a.Body()[pc..pc + |s|] == s
  }

  function ScopeOf(a: Place, pc: nat): Scope {
    if a.fn < |a.p| && pc <= |a.Body()| then ScopeFold(ParamScope(a.p[a.fn].params), a.Body()[..pc]) else []
  }

  /** The variables in scope at a position. */
  function Names(a: Place, pc: nat): map<nat, ValType> { Visible(ScopeOf(a, pc)) }

  function At(a: Place, pc: nat, env: Env, store: Store): Machine { Running(Frame(a.fn, pc, env), a.callers, store) }

  lemma CodeSplit(a: Place, pc: nat, s: seq<CStmt>, t: seq<CStmt>)
    requires CodeAt(a, pc, s + t)
    ensures CodeAt(a, pc, s) && CodeAt(a, pc + |s|, t)
  {
    assert (s + t)[..|s|] == s && (s + t)[|s|..] == t;
    assert a.Body()[pc..pc + |s|] == a.Body()[pc..pc + |s + t|][..|s|];
    assert a.Body()[pc + |s|..pc + |s + t|] == a.Body()[pc..pc + |s + t|][|s|..];
  }

  lemma ScopeNext(a: Place, pc: nat, s: seq<CStmt>)
    requires a.fn < |a.p| && CodeAt(a, pc, s)
    ensures ScopeOf(a, pc + |s|) == ScopeFold(ScopeOf(a, pc), s)
  {
    assert a.Body()[..pc + |s|] == a.Body()[..pc] + s;
    ScopedConcat(ParamScope(a.p[a.fn].params), a.Body()[..pc], s);
  }

  lemma StmtAt(a: Place, pc: nat, s: CStmt)
    requires CodeAt(a, pc, [s])
    ensures pc < |a.Body()| && a.Body()[pc] == s
  {
    assert a.Body()[pc..pc + 1][0] == s;
  }

  // ---------------------------------------------------------------- single steps

  lemma StepPlain(a: Place, pc: nat, s: CStmt, env: Env, store: Store, env': Env, store': Store)
    requires a.fn < |a.p| && CodeAt(a, pc, [s]) && IsPlain(s)
    requires Plain(s, Names(a, pc), env, store) == Some((env', store'))
    ensures Leads(a.p, At(a, pc, env, store), At(a, pc + 1, env', store'))
  {
    StmtAt(a, pc, s);
    assert ScopeAt(a.p[a.fn], pc) == Names(a, pc);
    PlainStep(a.p, s, Frame(a.fn, pc, env), a.callers, store);
    LeadsStep(a.p, At(a, pc, env, store));
  }

  /** A plain statement whose evaluation is undefined. */
  lemma StepFault(a: Place, pc: nat, s: CStmt, env: Env, store: Store)
    requires a.fn < |a.p| && CodeAt(a, pc, [s]) && IsPlain(s) && Plain(s, Names(a, pc), env, store) == None
    ensures Leads(a.p, At(a, pc, env, store), Stuck)
  {
    StmtAt(a, pc, s);
    assert ScopeAt(a.p[a.fn], pc) == Names(a, pc);
    PlainStep(a.p, s, Frame(a.fn, pc, env), a.callers, store);
    LeadsStep(a.p, At(a, pc, env, store));
  }

  lemma PlainStep(m: seq<CFunc>, s: CStmt, fr: Frame, callers: Callers, store: Store)
    requires fr.fn < |m| && fr.pc < |m[fr.fn].body| && IsPlain(s)
    ensures StepStmt(m, s, fr, callers, store) ==
      match Plain(s, ScopeAt(m[fr.fn], fr.pc), fr.env, store)
      case None => Stuck
      case Some((env', store')) => Running(Frame(fr.fn, fr.pc + 1, env'), callers, store')
  {
    hide Plain, ScopeAt;
  }

  lemma StepLabel(a: Place, pc: nat, l: nat, env: Env, store: Store)
    requires a.fn < |a.p| && CodeAt(a, pc, [LabelHere(l)])
    ensures Leads(a.p, At(a, pc, env, store), At(a, pc + 1, env, store))
  {
    StmtAt(a, pc, LabelHere(l));
    LeadsStep(a.p, At(a, pc, env, store));
  }

  lemma {:induction false} LabelFound(code: seq<CStmt>, l: nat, at: nat, i: nat)
    requires UniqueLabels(code) && i <= at < |code| && code[at] == LabelHere(l)
    ensures FindLabel(code, l, i) == at
    decreases at - i
  {
    if i < at {
      LabelFound(code, l, at, i + 1);
    }
  }

  /** The environment after a jump to `pc`: what is not in scope there is gone. */
  function Landed(a: Place, pc: nat, env: Env): Env { Restrict(env, Names(a, pc)) }

  lemma JumpLands(a: Place, pc: nat, to: nat, env: Env, store: Store)
    requires a.fn < |a.p| && to <= |a.Body()|
    ensures Jump(a.p, Frame(a.fn, pc, env), to, a.callers, store) == At(a, to, Landed(a, to, env), store)
  {
    hide Visible, ScopeFold;
  }

  lemma StepGoto(a: Place, pc: nat, l: nat, at: nat, env: Env, store: Store)
    requires a.fn < |a.p| && UniqueLabels(a.Body()) && CodeAt(a, pc, [Goto(l)]) && CodeAt(a, at, [LabelHere(l)])
    ensures Leads(a.p, At(a, pc, env, store), At(a, at, Landed(a, at, env), store))
  {
    StmtAt(a, pc, Goto(l));
    StmtAt(a, at, LabelHere(l));
    LabelFound(a.Body(), l, at, 0);
    JumpLands(a, pc, at, env, store);
    LeadsStep(a.p, At(a, pc, env, store));
  }

  lemma StepClose(a: Place, pc: nat, env: Env, store: Store)
    requires a.fn < |a.p| && CodeAt(a, pc, [Close])
    ensures Leads(a.p, At(a, pc, env, store), At(a, pc + 1, Landed(a, pc + 1, env), store))
  {
    StmtAt(a, pc, Close);
    JumpLands(a, pc, pc + 1, env, store);
    LeadsStep(a.p, At(a, pc, env, store));
  }

  lemma StepIfTrue(a: Place, pc: nat, c: nat, env: Env, store: Store)
    requires a.fn < |a.p| && CodeAt(a, pc, [IfOpen(c)]) && c in env && env[c].n != 0
    ensures Leads(a.p, At(a, pc, env, store), At(a, pc + 1, env, store))
  {
    StmtAt(a, pc, IfOpen(c));
    LeadsStep(a.p, At(a, pc, env, store));
  }

  /** Skipping from the inside of an arm finds the brace that ends it. */
  lemma SkipFinds(code: seq<CStmt>, i: nat, s: seq<CStmt>)
    requires i + |s| < |code| && code[i..i + |s|] == s && Balanced(s)
    requires code[i + |s|].Close? || code[i + |s|].ElseOpen?
    ensures SkipArm(code, i, 0) == i + |s|
  {
    SkipBalanced(code, i, s, 0);
  }

  /** A false condition skips the arm: to its `}`, or past its `} else {`. */
  lemma StepIfFalse(a: Place, pc: nat, c: nat, s: seq<CStmt>, brace: CStmt, env: Env, store: Store)
    requires a.fn < |a.p| && CodeAt(a, pc, [IfOpen(c)] + s + [brace]) && c in env && env[c].n == 0
    requires Balanced(s) && (brace.Close? || brace.ElseOpen?)
    ensures var to := pc + 1 + |s| + if brace.ElseOpen? then 1 else 0;
      && to <= |a.Body()|
      && Leads(a.p, At(a, pc, env, store), At(a, to, Landed(a, to, env), store))
  {
    hide SkipArm, Jump, Landed, Leads, CodeAt, Balanced;
    ArmAt(a, pc, IfOpen(c), s, brace);
    SkipFinds(a.Body(), pc + 1, s);
    JumpLands(a, pc, pc + 1 + |s| + if brace.ElseOpen? then 1 else 0, env, store);
    FalseStep(a, pc, c, env, store);
    LeadsStep(a.p, At(a, pc, env, store));
  }

  lemma FalseStep(a: Place, pc: nat, c: nat, env: Env, store: Store)
    requires a.fn < |a.p| && pc < |a.Body()| && a.Body()[pc] == IfOpen(c) && c in env && env[c].n == 0
    requires SkipArm(a.Body(), pc + 1, 0) < |a.Body()|
    ensures var j := SkipArm(a.Body(), pc + 1, 0);
      Step(a.p, At(a, pc, env, store)) == Jump(a.p, Frame(a.fn, pc, env), if a.Body()[j].ElseOpen? then j + 1
        else j, a.callers, store)
  {
    hide SkipArm, Jump;
  }

  lemma ElseStep(a: Place, pc: nat, env: Env, store: Store)
    requires a.fn < |a.p| && pc < |a.Body()| && a.Body()[pc] == ElseOpen
    ensures Step(a.p, At(a, pc, env, store))
      == Jump(a.p, Frame(a.fn, pc, env), SkipArm(a.Body(), pc + 1, 0), a.callers, store)
  {
    hide SkipArm, Jump;
  }

  /** At `} else {` control goes to the end of the other arm. */
  lemma StepElse(a: Place, pc: nat, s: seq<CStmt>, env: Env, store: Store)
    requires a.fn < |a.p| && CodeAt(a, pc, [ElseOpen] + s + [Close]) && Balanced(s)
    ensures pc + 1 + |s| <= |a.Body()|
    ensures Leads(a.p, At(a, pc, env, store), At(a, pc + 1 + |s|, Landed(a, pc + 1 + |s|, env), store))
  {
    hide SkipArm, Jump, Landed, Leads, CodeAt, Balanced;
    ArmAt(a, pc, ElseOpen, s, Close);
    SkipFinds(a.Body(), pc + 1, s);
    JumpLands(a, pc, pc + 1 + |s|, env, store);
    ElseStep(a, pc, env, store);
    LeadsStep(a.p, At(a, pc, env, store));
  }

  lemma ArmAt(a: Place, pc: nat, first: CStmt, s: seq<CStmt>, last: CStmt)
    requires CodeAt(a, pc, [first] + s + [last])
    ensures pc + 1 + |s| < |a.Body()| && a.Body()[pc] == first && a.Body()[pc + 1 + |s|] == last
    ensures a.Body()[pc + 1..pc + 1 + |s|] == s
  {
    CodeSplit(a, pc, [first] + s, [last]);
    CodeSplit(a, pc, [first], s);
    StmtAt(a, pc, first);
    StmtAt(a, pc + 1 + |s|, last);
  }

  lemma StepSwitch(a: Place, pc: nat, c: nat, ls: seq<nat>, dflt: nat, at: nat, env: Env, store: Store)
    requires a.fn < |a.p| && UniqueLabels(a.Body()) && CodeAt(a, pc, [Switch(c, ls, dflt)]) && c in env
    requires CodeAt(a, at, [LabelHere(if env[c].n < |ls| then ls[env[c].n] else dflt)])
    ensures Leads(a.p, At(a, pc, env, store), At(a, at, Landed(a, at, env), store))
  {
    var l := if env[c].n < |ls| then ls[env[c].n] else dflt;
    StmtAt(a, pc, Switch(c, ls, dflt));
    StmtAt(a, at, LabelHere(l));
    LabelFound(a.Body(), l, at, 0);
    JumpLands(a, pc, at, env, store);
    LeadsStep(a.p, At(a, pc, env, store));
  }

  lemma StepAbort(a: Place, pc: nat, env: Env, store: Store)
    requires a.fn < |a.p| && CodeAt(a, pc, [Abort])
    ensures Leads(a.p, At(a, pc, env, store), MAborted)
  {
    StmtAt(a, pc, Abort);
    LeadsStep(a.p, At(a, pc, env, store));
  }

  lemma StepRet(a: Place, pc: nat, v: Option<nat>, env: Env, store: Store)
    requires a.fn < |a.p| && CodeAt(a, pc, [Ret(v)])
    requires v.Some? == a.p[a.fn].ret.Some? && (v.Some? ==> v.value in env)
    ensures
      var r := if v.None? then None else Some(Convert(a.p[a.fn].ret.value, env[v.value].n));
      Leads(a.p, At(a, pc, env, store), GiveBack(a.p, r, a.callers, store))
  {
    StmtAt(a, pc, Ret(v));
    LeadsStep(a.p, At(a, pc, env, store));
  }

  lemma StepCall(a: Place, pc: nat, to: Option<Dst>, f: nat, args: seq<nat>, xs: seq<Val>, env: Env, store: Store)
    requires a.fn < |a.p| && CodeAt(a, pc, [CallTo(to, f, args)]) && |xs| == |args|
    requires forall i | 0 <= i < |args| :: args[i] in env && env[args[i]] == xs[i]
    ensures Leads(a.p, At(a, pc, env, store), Enter(a.p, f, xs, Caller(Frame(a.fn, pc + 1, env), to, a.callers), store))
  {
    StmtAt(a, pc, CallTo(to, f, args));
    assert seq(|args|, (i: nat) requires i < |args| && args[i] in env => env[args[i]]) == xs;
    LeadsStep(a.p, At(a, pc, env, store));
  }
}
