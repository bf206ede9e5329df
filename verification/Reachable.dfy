/**
 Every state the translator passes through: after any number of tokens of checked code, live or dead,
 the allocator's invariant holds.
 */
module Reachable {
  import opened Wasm
  import opened CLang
  import opened Translator
  import opened OnePass
  import opened Allocator
  import opened CodeSound
  import opened Scoping
  import opened Blocks
  import opened Braces
  import opened Functions

  // ---------------------------------------------------------------- dead code

  /** Tokens that all fall in dead code of depth `ud`, brackets and all. */
  predicate Silent(ts: seq<Token>, ud: nat)
    decreases ts
  {
    ts == [] ||
    match ts[0]
    case Simple(_) => ud >= 1 && Silent(ts[1..], ud)
    case Begin(_, _) => ud >= 1 && Silent(ts[1..], ud + 1)
    case Else => ud >= 2 && Silent(ts[1..], ud)
    case End => ud >= 2 && Silent(ts[1..], ud - 1)
  }

  function DepthIn(ts: seq<Token>, ud: nat): nat
    requires Silent(ts, ud)
    decreases ts
  {
    if ts == [] then ud
    else DepthIn(ts[1..], if ts[0].Begin? then ud + 1 else if ts[0].End? then ud - 1 else ud)
  }

  lemma {:induction false} SilentConcat(a: seq<Token>, b: seq<Token>, ud: nat)
    requires Silent(a, ud) && Silent(b, DepthIn(a, ud))
    ensures Silent(a + b, ud) && DepthIn(a + b, ud) == DepthIn(b, DepthIn(a, ud))
    decreases a
  {
    if a == [] {
      assert a + b == b;
    } else {
      assert (a + b)[0] == a[0] && (a + b)[1..] == a[1..] + b;
      SilentConcat(a[1..], b, if a[0].Begin? then ud + 1 else if a[0].End? then ud - 1 else ud);
    }
  }

  lemma {:induction false} SilentPrefix(ts: seq<Token>, ud: nat, k: nat)
    requires Silent(ts, ud) && k <= |ts|
    ensures Silent(ts[..k], ud)
    decreases ts
  {
    if k > 0 {
      assert ts[..k][0] == ts[0] && ts[..k][1..] == ts[1..][..k - 1];
      SilentPrefix(ts[1..], if ts[0].Begin? then ud + 1 else if ts[0].End? then ud - 1 else ud, k - 1);
    }
  }

  lemma SilentOne(t: Token, ud: nat)
    requires ud >= 1 && (t.Else? || t.End? ==> ud >= 2)
    ensures Silent([t], ud) && DepthIn([t], ud) == if t.Begin? then ud + 1 else if t.End? then ud - 1 else ud
  {
  }

  lemma {:induction false} CodeSilent(c: Code, ud: nat)
    requires ud >= 1
    ensures Silent(Flatten(c), ud) && DepthIn(Flatten(c), ud) == ud
    decreases c, 1
  {
    match c
    case Nil =>
    case Cons(i, rest) =>
      InstrSilent(i, ud);
      CodeSilent(rest, ud);
      SilentConcat(FlattenInstr(i), Flatten(rest), ud);
  }

  lemma {:induction false} BracketSilent(kind: int, bt: int, inner: seq<Token>, ud: nat)
    requires ud >= 1 && Silent(inner, ud + 1) && DepthIn(inner, ud + 1) == ud + 1
    ensures Silent([Begin(kind, bt)] + inner + [End], ud) && DepthIn([Begin(kind, bt)] + inner + [End], ud) == ud
  {
    SilentOne(Begin(kind, bt), ud);
    SilentOne(End, ud + 1);
    hide Silent, DepthIn;
    SilentConcat([Begin(kind, bt)], inner, ud);
    SilentConcat([Begin(kind, bt)] + inner, [End], ud);
  }

  lemma {:induction false} InstrSilent(i: Instr, ud: nat)
    requires ud >= 1
    ensures Silent(FlattenInstr(i), ud) && DepthIn(FlattenInstr(i), ud) == ud
    decreases i, 4
  {
    hide Silent, DepthIn, Flatten;
    match i
    case Block(bt, body) =>
      CodeSilent(body, ud + 1);
      BracketSilent(KBlock, bt, Flatten(body), ud);
    case Loop(bt, body) =>
      CodeSilent(body, ud + 1);
      BracketSilent(KLoop, bt, Flatten(body), ud);
    case If(bt, thn, hasElse, els) =>
      CodeSilent(thn, ud + 1);
      CodeSilent(els, ud + 1);
      IfSilent(bt, Flatten(thn), hasElse, Flatten(els), ud);
      IfTokens(bt, thn, hasElse, els);
    case _ => SilentOne(Simple(i), ud);
  }

  lemma ArmsSilent(thn: seq<Token>, hasElse: bool, els: seq<Token>, ud: nat)
    requires ud >= 2 && Silent(thn, ud) && DepthIn(thn, ud) == ud && Silent(els, ud) && DepthIn(els, ud) == ud
    ensures Silent(ArmTokens(thn, hasElse, els), ud) && DepthIn(ArmTokens(thn, hasElse, els), ud) == ud
  {
    SilentOne(Else, ud);
    hide Silent, DepthIn;
    if hasElse {
      SilentConcat([Else], els, ud);
      SilentConcat(thn, [Else] + els, ud);
    }
  }

  lemma IfSilent(bt: int, thn: seq<Token>, hasElse: bool, els: seq<Token>, ud: nat)
    requires ud >= 1 && Silent(thn, ud + 1) && DepthIn(thn, ud + 1) == ud + 1
    requires Silent(els, ud + 1) && DepthIn(els, ud + 1) == ud + 1
    ensures var ts := [Begin(KIf, bt)] + ArmTokens(thn, hasElse, els) + [End]; Silent(ts, ud) && DepthIn(ts, ud) == ud
  {
    hide Silent, DepthIn, ArmTokens;
    ArmsSilent(thn, hasElse, els, ud + 1);
    BracketSilent(KIf, bt, ArmTokens(thn, hasElse, els), ud);
  }

  lemma {:induction false} SilentEmits(cx: Context, g: Gen, ts: seq<Token>, ud: nat)
    requires Silent(ts, ud) && forall t | t in ts :: TokenOk(t)
    ensures EmitTokens(cx, g, ud, ts) == Emit(g, DepthIn(ts, ud), [])
    decreases ts
  {
    if ts != [] {
      SilentEmits(cx, g, ts[1..], if ts[0].Begin? then ud + 1 else if ts[0].End? then ud - 1 else ud);
    }
  }

  // ---------------------------------------------------------------- all prefixes

  predicate TokensOk(ts: seq<Token>) { forall t | t in ts :: TokenOk(t) }

  /** The state after a run of tokens is sound. */
  predicate Passes(cx: Context, g: Gen, ud: nat, ts: seq<Token>) {
    TokensOk(ts) && EmitTokens(cx, g, ud, ts).Emit? && Sound(cx, EmitTokens(cx, g, ud, ts).g)
  }

  /** A sound state is passed before every token of the stretch and after it. */
  predicate PassesAll(cx: Context, g: Gen, ud: nat, ts: seq<Token>) {
    forall k | 0 <= k <= |ts| :: Passes(cx, g, ud, ts[..k])
  }

  lemma PassesDead(cx: Context, g: Gen, ud: nat, c: Code)
    requires ud >= 1 && Sound(cx, g)
    ensures PassesAll(cx, g, ud, Flatten(c))
  {
    hide Sound;
    CodeSilent(c, ud);
    forall k | 0 <= k <= |Flatten(c)| ensures Passes(cx, g, ud, Flatten(c)[..k]) {
      SilentPrefix(Flatten(c), ud, k);
      SilentEmits(cx, g, Flatten(c)[..k], ud);
    }
  }

  /** One stretch after another. */
  lemma PassesThen(cx: Context, g: Gen, ud: nat, a: seq<Token>, b: seq<Token>)
    requires PassesAll(cx, g, ud, a) && TokensOk(a)
    requires EmitTokens(cx, g, ud, a).Emit? && PassesAll(cx, EmitTokens(cx, g, ud, a).g, EmitTokens(cx, g, ud, a).ud, b)
    ensures PassesAll(cx, g, ud, a + b)
  {
    hide Sound, EmitTokens, TokenOk;
    var e := EmitTokens(cx, g, ud, a);
    forall k | 0 <= k <= |a + b| ensures Passes(cx, g, ud, (a + b)[..k]) {
      if k <= |a| {
        assert (a + b)[..k] == a[..k];
      } else {
        assert (a + b)[..k] == a + b[..k - |a|];
        assert Passes(cx, e.g, e.ud, b[..k - |a|]);
        Compose(cx, g, ud, a, b[..k - |a|]);
      }
    }
  }

  lemma PassesOne(cx: Context, g: Gen, ud: nat, t: Token)
    requires Sound(cx, g) && TokenOk(t) && EmitToken(cx, g, ud, t).Emit? && Sound(cx, EmitToken(cx, g, ud, t).g)
    ensures PassesAll(cx, g, ud, [t])
  {
    hide Sound, EmitToken;
    forall k | 0 <= k <= 1 ensures Passes(cx, g, ud, [t][..k]) {
      if k == 0 {
        assert [t][..k] == [];
      } else {
        assert [t][..k] == [t];
        One(cx, g, ud, t);
      }
    }
  }

  lemma PassesNothing(cx: Context, g: Gen, ud: nat)
    requires Sound(cx, g)
    ensures PassesAll(cx, g, ud, [])
  {
    hide Sound;
    forall k | 0 <= k <= 0 ensures Passes(cx, g, ud, ([])[..k]) {
    }
  }

  // ---------------------------------------------------------------- live code

  lemma {:induction false} CodePasses(cx: Context, g: Gen, c: Code, ts: seq<ValType>, sc: Scope)
    requires GoodContext(cx) && Sound(cx, g) && Ops(g, ts) && CheckCode(cx, GenLabels(cx, g), c, ts) != Bad
    requires InView(cx, g, |ts|, Visible(sc)) && |sc| > 0
    ensures PassesAll(cx, g, 0, Flatten(c))
    decreases c, 1
  {
    hide Sound, Ops, InView, Visible, GenLabels, GoodContext, After, ScopedAfter, CheckInstr, TransInstr, Kept,
         PassesAll, FlattenInstr, TokenOk, EmitTokens;
    match c
    case Nil => PassesNothing(cx, g, 0);
    case Cons(i, rest) =>
      var labels := GenLabels(cx, g);
      var e, r := TransInstr(cx, g, i), CheckInstr(cx, labels, i, ts);
      InstrIsSound(cx, g, i, ts);
      AfterEmits(cx, g, ts, e, r);
      AfterSound(cx, g, ts, e, r);
      InstrScoped(cx, g, i, ts, sc);
      InstrPasses(cx, g, i, ts, sc);
      OnePassInstr(cx, g, i);
      if r.Live? {
        AfterStep(cx, g, ts, e, r);
        ScopedStep(cx, g, sc, e, r);
        CodePasses(cx, e.g, rest, r.ts, ScopeFold(sc, e.out));
      } else {
        PassesDead(cx, e.g, 1, rest);
      }
      PassesThen(cx, g, 0, FlattenInstr(i), Flatten(rest));
  }

  lemma AfterSound(cx: Context, g: Gen, ts: seq<ValType>, e: Emission, r: Check)
    requires After(cx, g, ts, e, r)
    ensures e.Emit? && Sound(cx, e.g)
  {
  }

  lemma {:induction false} InstrPasses(cx: Context, g: Gen, i: Instr, ts: seq<ValType>, sc: Scope)
    requires GoodContext(cx) && Sound(cx, g) && Ops(g, ts) && CheckInstr(cx, GenLabels(cx, g), i, ts) != Bad
    requires InView(cx, g, |ts|, Visible(sc)) && |sc| > 0
    ensures PassesAll(cx, g, 0, FlattenInstr(i))
    decreases i, 5
  {
    hide *;
    if IsBlock(i) {
      var b := SiteOf(cx, g, i, ts, sc);
      BlockCase(cx, g, i, ts);
      SiteMade(cx, g, i, ts, sc);
      BracketsOf(i);
      if i.If? {
        ArmsPass(b, i);
      } else {
        BodyPasses(b, i.body);
      }
    } else {
      PlainPasses(cx, g, i, ts);
    }
  }

  lemma PlainPasses(cx: Context, g: Gen, i: Instr, ts: seq<ValType>)
    requires GoodContext(cx) && Sound(cx, g) && Ops(g, ts) && CheckInstr(cx, GenLabels(cx, g), i, ts) != Bad
      && !IsBlock(i)
    ensures PassesAll(cx, g, 0, FlattenInstr(i))
  {
    hide Sound, Ops, GenLabels, CheckInstr, EmitPlain, PassesAll;
    PlainSound(cx, g, i, ts);
    PassesOne(cx, g, 0, Simple(i));
    assert FlattenInstr(i) == [Simple(i)];
  }

  lemma SiteMade(cx: Context, g: Gen, i: Instr, ts: seq<ValType>, sc: Scope)
    requires GoodContext(cx) && Sound(cx, g) && Ops(g, ts) && IsBlock(i) && SimpleBlock(cx.m.types, i.bt)
      && (i.If? ==> EndsWith(ts, [I32]))
    requires InView(cx, g, |ts|, Visible(sc)) && |sc| > 0
    ensures
      var b := SiteOf(cx, g, i, ts, sc);
      && SiteOk(b) && SimpleBlock(b.cx.m.types, b.bt) && b.cx == cx && b.g == g && b.bt == i.bt
      && (i.Block? ==> b.kind == KBlock) && (i.Loop? ==> b.kind == KLoop) && (i.If? <==> b.kind == KIf)
  {
    hide Sound, Ops, InView, Visible, GoodContext;
  }

  /** A block's tokens are its brackets around its arms. */
  function Arms(i: Instr): seq<Token>
    requires i.If?
  {
    Flatten(i.thn) + if i.hasElse then [Else] + Flatten(i.els) else []
  }

  lemma BracketsOf(i: Instr)
    requires IsBlock(i)
    ensures i.Block? ==> FlattenInstr(i) == [Begin(KBlock, i.bt)] + Flatten(i.body) + [End]
    ensures i.Loop? ==> FlattenInstr(i) == [Begin(KLoop, i.bt)] + Flatten(i.body) + [End]
    ensures i.If? ==> FlattenInstr(i) == [Begin(KIf, i.bt)] + Arms(i) + [End]
    ensures i.Block? || i.Loop? || i.If?
  {
    if i.If? {
      assert [Begin(KIf, i.bt)] + Arms(i) + [End] == [Begin(KIf, i.bt)] + Flatten(i.thn)
        + (if i.hasElse then [Else] + Flatten(i.els) else []) + [End];
    }
  }

  lemma FlattenOk(c: Code)
    ensures TokensOk(Flatten(c))
  {
  }

  /** The end of a block leads to a sound state. */
  lemma EndStateSound(b: BlockSite, g: Gen, ud: nat, sc: Scope)
    requires SiteOk(b) && ArmEnd(b, g, ud, sc)
    ensures EmitEnd(b.cx, g, ud).Emit? && Sound(b.cx, EmitEnd(b.cx, g, ud).g)
  {
    hide Sound, Ops, InView, Visible, SiteOk, EmitEnd, LeaveArm, Restored, Closed, TypesAgree, Deepens, StackPush;
    EndEmits(b, g, ud, sc);
    RestoredView(b, g, sc);
    if b.Results() != [] {
      PushChecked(b.cx, Restored(b, g), b.Rest(), b.Results()[0]);
    }
  }

  /** The opening bracket, the arms and the closing bracket of a block. */
  lemma BracketPasses(b: BlockSite, inner: seq<Token>, sc: Scope)
    requires SiteOk(b) && SimpleBlock(b.cx.m.types, b.bt)
    requires TokensOk(inner) && PassesAll(b.cx, b.Start(), 0, inner)
    requires
      var e := EmitTokens(b.cx, b.Start(), 0, inner);
      e.Emit? && e.ud <= 1 && ArmEnd(b, e.g, e.ud, sc)
    ensures PassesAll(b.cx, b.g, 0, [Begin(b.kind, b.bt)] + inner + [End])
  {
    hide Sound, Ops, InView, Visible, SiteOk, EmitEnd, EmitBegin, PassesAll, EmitTokens, SimpleBlock, ArmEnd;
    SiteView(b);
    SiteEmits(b);
    SiteOpened(b);
    var open := [Begin(b.kind, b.bt)];
    One(b.cx, b.g, 0, open[0]);
    PassesOne(b.cx, b.g, 0, open[0]);
    PassesThen(b.cx, b.g, 0, open, inner);
    Compose(b.cx, b.g, 0, open, inner);
    var e := EmitTokens(b.cx, b.Start(), 0, inner);
    EndStateSound(b, e.g, e.ud, sc);
    ArmIsSound(b, e.g, e.ud, sc);
    PassesOne(b.cx, e.g, e.ud, End);
    assert TokensOk(open + inner);
    PassesThen(b.cx, b.g, 0, open + inner, [End]);
  }

  lemma ArmIsSound(b: BlockSite, g: Gen, ud: nat, sc: Scope)
    requires ArmEnd(b, g, ud, sc)
    ensures Sound(b.cx, g) && InArm(b, g, sc)
  {
  }

  /** Code of an arm. */
  lemma {:induction false} ArmPasses(b: BlockSite, g: Gen, sc: Scope, c: Code)
    requires SiteOk(b) && InArm(b, g, sc) && InView(b.cx, g, 0, Visible(sc)) && BodyChecked(b, c)
    ensures PassesAll(b.cx, g, 0, Flatten(c)) && TokensOk(Flatten(c))
    ensures EmitTokens(b.cx, g, 0, Flatten(c)) == TransCode(b.cx, g, c)
    ensures
      var e := TransCode(b.cx, g, c);
      e.Emit? && e.ud <= 1 && ArmEnd(b, e.g, e.ud, ScopeFold(sc, e.out))
    decreases c, 2
  {
    hide Sound, Ops, InView, Visible, SiteOk, PassesAll, EmitTokens, TransCode, GenLabels, CheckCode, InArm, ArmEnd,
         ScopeFold, Scoped, GoodContext, Flatten;
    SiteView(b);
    ArmFacts(b, g, sc);
    ArmSees(b, g, sc);
    ArmInSound(b, g, sc);
    FlattenOk(c);
    CodePasses(b.cx, g, c, [], sc);
    OnePassCode(b.cx, g, c);
    CodeDepth(b.cx, g, c);
    ArmCodeScoped(b, g, sc, c);
  }

  lemma ArmInSound(b: BlockSite, g: Gen, sc: Scope)
    requires InArm(b, g, sc)
    ensures Sound(b.cx, g)
  {
  }

  lemma {:induction false} BodyPasses(b: BlockSite, c: Code)
    requires SiteOk(b) && SimpleBlock(b.cx.m.types, b.bt) && BodyChecked(b, c)
    ensures PassesAll(b.cx, b.g, 0, [Begin(b.kind, b.bt)] + Flatten(c) + [End])
    decreases c, 3
  {
    hide *;
    ArmStart(b);
    SiteScoped(b);
    ArmPasses(b, b.Start(), b.Inner(), c);
    BracketPasses(b, Flatten(c), ScopeFold(b.Inner(), TransCode(b.cx, b.Start(), c).out));
  }

  lemma {:induction false} ArmsPass(b: BlockSite, i: Instr)
    requires SiteOk(b) && SimpleBlock(b.cx.m.types, b.bt) && i.If? && b.kind == KIf && b.bt == i.bt
    requires BodyChecked(b, i.thn) && (i.hasElse ==> BodyChecked(b, i.els))
    ensures PassesAll(b.cx, b.g, 0, [Begin(KIf, i.bt)] + Arms(i) + [End])
    decreases i, 4
  {
    hide *;
    ArmsAre(i);
    if i.hasElse {
      ArmStart(b);
      SiteScoped(b);
      ArmPasses(b, b.Start(), b.Inner(), i.thn);
      var e := TransCode(b.cx, b.Start(), i.thn);
      var sc := ScopeFold(b.Inner(), e.out);
      ElsePasses(b, e.g, e.ud, sc);
      var x := EmitElse(b.cx, e.g, e.ud);
      ArmPasses(b, x.g, b.Inner(), i.els);
      BothArms(b, i, e, x);
      BracketPasses(b, Arms(i), ScopeFold(b.Inner(), TransCode(b.cx, x.g, i.els).out));
    } else {
      BodyPasses(b, i.thn);
    }
  }

  lemma ArmsAre(i: Instr)
    requires i.If?
    ensures !i.hasElse ==> Arms(i) == Flatten(i.thn)
    ensures i.hasElse ==> Arms(i) == Flatten(i.thn) + ([Else] + Flatten(i.els))
  {
  }

  lemma ElsePasses(b: BlockSite, g: Gen, ud: nat, sc: Scope)
    requires SiteOk(b) && ArmEnd(b, g, ud, sc) && b.kind == KIf && ud <= 1
    ensures EmitElse(b.cx, g, ud).Emit? && InArm(b, EmitElse(b.cx, g, ud).g, b.Inner())
    ensures InView(b.cx, EmitElse(b.cx, g, ud).g, 0, Visible(b.Inner()))
    ensures EmitTokens(b.cx, g, ud, [Else]) == Emit(EmitElse(b.cx, g, ud).g, 0, EmitElse(b.cx, g, ud).out)
    ensures PassesAll(b.cx, g, ud, [Else])
  {
    hide Sound, Ops, InView, Visible, SiteOk, EmitElse, PassesAll, EmitTokens, InArm, Scoped, ScopeFold, ArmEnd;
    ElseScoped(b, g, ud, sc);
    ArmIsSound(b, g, ud, sc);
    ArmInSound(b, EmitElse(b.cx, g, ud).g, b.Inner());
    One(b.cx, g, ud, Else);
    ElseDepth(b.cx, g, ud);
    PassesOne(b.cx, g, ud, Else);
  }

  lemma ElseDepth(cx: Context, g: Gen, ud: nat)
    ensures EmitElse(cx, g, ud).Emit? ==> EmitElse(cx, g, ud).ud == 0
  {
  }

  lemma BothArms(b: BlockSite, i: Instr, e: Emission, x: Emission)
    requires i.If? && i.hasElse && e == TransCode(b.cx, b.Start(), i.thn) && e.Emit?
      && x == EmitElse(b.cx, e.g, e.ud) && x.Emit?
    requires EmitTokens(b.cx, b.Start(), 0, Flatten(i.thn)) == e
      && EmitTokens(b.cx, e.g, e.ud, [Else]) == Emit(x.g, 0, x.out)
    requires PassesAll(b.cx, b.Start(), 0, Flatten(i.thn)) && PassesAll(b.cx, e.g, e.ud, [Else])
      && PassesAll(b.cx, x.g, 0, Flatten(i.els))
    requires EmitTokens(b.cx, x.g, 0, Flatten(i.els)) == TransCode(b.cx, x.g, i.els)
      && TransCode(b.cx, x.g, i.els).Emit?
    ensures TokensOk(Arms(i)) && PassesAll(b.cx, b.Start(), 0, Arms(i))
    ensures
      var d := EmitTokens(b.cx, b.Start(), 0, Arms(i));
      d.Emit? && d.g == TransCode(b.cx, x.g, i.els).g && d.ud == TransCode(b.cx, x.g, i.els).ud
  {
    hide PassesAll, EmitTokens, TransCode, EmitElse, Flatten;
    FlattenOk(i.thn);
    FlattenOk(i.els);
    var late := [Else] + Flatten(i.els);
    PassesThen(b.cx, e.g, e.ud, [Else], Flatten(i.els));
    Compose(b.cx, e.g, e.ud, [Else], Flatten(i.els));
    PassesThen(b.cx, b.Start(), 0, Flatten(i.thn), late);
    Compose(b.cx, b.Start(), 0, Flatten(i.thn), late);
    assert Arms(i) == Flatten(i.thn) + late;
  }

  // ---------------------------------------------------------------- a whole function

  /**
   In every state that the loop passes through while it translates a function of a valid module, the
   stack and the windows hold pairwise distinct temporaries of known types, none of them a parameter, a
   declared local, a block result or a label.
   */
  lemma EveryStateSound(m: Module, f: Func)
    requires ValidModule(m) && f in m.funcs
    ensures f.ty < |m.types| && PassesAll(FuncContext(m, f), FuncSite(m, f).Start(), 0, Flatten(f.body) + [End])
  {
    hide ValidModule, SiteOk, BodyChecked, PassesAll, EmitTokens, Sound, TransCode, EmitEnd, ArmEnd, Flatten, ScopeFold,
         InView, Visible;
    EntrySite(m, f);
    var b := FuncSite(m, f);
    SiteScoped(b);
    ArmStart(b);
    ArmPasses(b, b.Start(), b.Inner(), f.body);
    var e := TransCode(b.cx, b.Start(), f.body);
    EndStateSound(b, e.g, e.ud, ScopeFold(b.Inner(), e.out));
    ArmIsSound(b, e.g, e.ud, ScopeFold(b.Inner(), e.out));
    PassesOne(b.cx, e.g, e.ud, End);
    PassesThen(b.cx, b.Start(), 0, Flatten(f.body), [End]);
  }
}
