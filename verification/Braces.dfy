/**
 Scoping of whole functions: in everything the translator emits for checked code, each reference is in
 the scope of its declaration and no name is declared twice in a scope.
 */
module Braces {
  import opened Wasm
  import opened CLang
  import opened Translator
  import opened Allocator
  import opened CodeSound
  import opened Scoping
  import opened ScopeCode
  import opened Blocks

  lemma {:induction false} CodeScoped(cx: Context, g: Gen, c: Code, ts: seq<ValType>, sc: Scope)
    requires GoodContext(cx) && Sound(cx, g) && Ops(g, ts) && CheckCode(cx, GenLabels(cx, g), c, ts) != Bad
    requires InView(cx, g, |ts|, Visible(sc)) && |sc| > 0
    ensures ScopedAfter(cx, g, sc, TransCode(cx, g, c), CheckCode(cx, GenLabels(cx, g), c, ts))
    decreases c, 1
  {
    hide Sound, Ops, InView, Visible, GenLabels, GoodContext, After, ScopedAfter, CheckInstr, TransInstr, Kept;
    match c
    case Nil => NothingScoped(cx, g, ts, sc);
    case Cons(i, rest) =>
      var labels := GenLabels(cx, g);
      var e := TransInstr(cx, g, i);
      var r := CheckInstr(cx, labels, i, ts);
      InstrIsSound(cx, g, i, ts);
      AfterEmits(cx, g, ts, e, r);
      InstrScoped(cx, g, i, ts, sc);
      if r.Live? {
        AfterStep(cx, g, ts, e, r);
        ScopedStep(cx, g, sc, e, r);
        CodeScoped(cx, e.g, rest, r.ts, ScopeFold(sc, e.out));
        CodeIsSound(cx, e.g, rest, r.ts);
        ScopedThen(cx, g, sc, e, r, TransCode(cx, e.g, rest), CheckCode(cx, labels, rest, r.ts), |e.g.stack| - |r.ts|,
            |g.stack| - |ts|);
      }
  }

  lemma NothingScoped(cx: Context, g: Gen, ts: seq<ValType>, sc: Scope)
    requires InView(cx, g, |ts|, Visible(sc)) && |sc| > 0
    ensures ScopedAfter(cx, g, sc, Emit(g, 0, []), Live(ts))
  {
  }

  lemma ScopedStep(cx: Context, g: Gen, sc: Scope, e: Emission, r: Check)
    requires ScopedAfter(cx, g, sc, e, r) && r.Live?
    ensures e.Emit? && InView(cx, e.g, |r.ts|, Visible(ScopeFold(sc, e.out))) && |ScopeFold(sc, e.out)| > 0
  {
  }

  lemma ScopedThen(cx: Context, g: Gen, sc: Scope, e: Emission, r: Check, e': Emission, r': Check, h': nat, h: nat)
    requires ScopedAfter(cx, g, sc, e, r) && e.Emit? && ScopedAfter(cx, e.g, ScopeFold(sc, e.out), e', r')
    requires Kept(g, e.g, h) && r.Live? && After(cx, e.g, r.ts, e', r')
    ensures ScopedAfter(cx, g, sc, Prepend(e.out, e'), r')
  {
    hide Sound, Ops, InView, Visible, Scoped, ScopeFold, Deepens, TypesAgree;
    ScopedConcat(sc, e.out, e'.out);
    DeepensTrans(sc, ScopeFold(sc, e.out), ScopeFold(ScopeFold(sc, e.out), e'.out), |g.types|,
        |e.g.types|, |e'.g.types|);
  }

  lemma {:induction false} InstrScoped(cx: Context, g: Gen, i: Instr, ts: seq<ValType>, sc: Scope)
    requires GoodContext(cx) && Sound(cx, g) && Ops(g, ts) && CheckInstr(cx, GenLabels(cx, g), i, ts) != Bad
    requires InView(cx, g, |ts|, Visible(sc)) && |sc| > 0
    ensures ScopedAfter(cx, g, sc, TransInstr(cx, g, i), CheckInstr(cx, GenLabels(cx, g), i, ts))
    decreases i, 4
  {
    hide Sound, Ops, InView, Visible, GenLabels, ScopedAfter, EmitBegin, CheckCode, TransTail, TransArms, BlockType,
         EmitPlain;
    if !IsBlock(i) {
      PlainScoped(cx, g, i, ts, sc);
    } else {
      var b := SiteOf(cx, g, i, ts, sc);
      BlockCase(cx, g, i, ts);
      SiteEmits(b);
      if i.If? {
        ArmsScoped(b, i);
      } else {
        BodyScoped(b, i.body);
      }
      WholeScoped(b, if i.If? then TransArms(cx, b.Start(), i) else TransTail(cx, b.Start(), i.body));
    }
  }

  function SiteOf(cx: Context, g: Gen, i: Instr, ts: seq<ValType>, sc: Scope): BlockSite
    requires IsBlock(i)
  {
    BlockSite(cx, g, if i.Block? then KBlock else if i.Loop? then KLoop else KIf, i.bt, ts, sc)
  }

  /** The labels that validation gives the body of a block. */
  function BodyLabels(b: BlockSite): seq<Label> {
    [Label(b.kind == KLoop, b.Results())] + GenLabels(b.cx, b.g)
  }

  predicate BodyChecked(b: BlockSite, c: Code) {
    BodyOk(CheckCode(b.cx, BodyLabels(b), c, []), b.Results())
  }

  lemma BlockCase(cx: Context, g: Gen, i: Instr, ts: seq<ValType>)
    requires IsBlock(i) && CheckInstr(cx, GenLabels(cx, g), i, ts) != Bad
    ensures SimpleBlock(cx.m.types, i.bt) && (i.If? ==> EndsWith(ts, [I32]))
    ensures forall sc :: var b := SiteOf(cx, g, i, ts, sc);
      && CheckInstr(cx, GenLabels(cx, g), i, ts) == Live(b.Rest() + b.Results())
      && (if i.If? then BodyChecked(b, i.thn) && (if i.hasElse then BodyChecked(b, i.els) else b.Results() == [])
         else BodyChecked(b, i.body))
  {
  }

  /** From the start of an arm in scope `sc`, the block has been ended. */
  predicate SiteDone(b: BlockSite, sc: Scope, e: Emission) {
    && e.Emit? && Scoped(sc, e.out) && b.Lbl() + 1 <= |e.g.types|
    && Deepens(b.Base(), ScopeFold(sc, e.out), b.Lbl() + 1, |e.g.types|)
    && InView(b.cx, e.g, |b.Rest()| + |b.Results()|, Visible(ScopeFold(sc, e.out)))
  }

  lemma WholeScoped(b: BlockSite, e: Emission)
    requires SiteOk(b) && SiteDone(b, b.Inner(), e)
    ensures ScopedAfter(b.cx, b.g, b.sc, Prepend(b.Decls() + b.Opens(), e), Live(b.Rest() + b.Results()))
  {
    hide Sound, Ops, InView, Visible, SiteOk, Deepens, TypesAgree, Scoped, ScopeFold, DeclareResults;
    var out := b.Decls() + b.Opens();
    SiteOpens(b);
    SiteScoped(b);
    BaseScope(b);
    ScopedConcat(b.sc, out, e.out);
    var sc' := ScopeFold(b.Inner(), e.out);
    DeepensSizes(b.Base(), sc', b.Lbl() + 1, |e.g.types|);
    DeepensWeaken(b.sc, b.Base(), |b.g.types|, b.Lbl(), |b.g.types|, b.Lbl() + 1);
    WholeDeepens(b.sc, b.Base(), sc', |b.g.types|, b.Lbl() + 1, |e.g.types|);
    InViewTypes(b.cx, e.g, |b.Rest()| + |b.Results()|, Visible(sc'));
  }

  lemma DeepensSizes(sc: Scope, sc': Scope, lo: nat, hi: nat)
    requires Deepens(sc, sc', lo, hi)
    ensures |sc'| == |sc| > 0
  {
  }

  lemma WholeDeepens(a: Scope, b: Scope, c: Scope, lo: nat, mid: nat, hi: nat)
    requires Deepens(a, b, lo, mid) && Deepens(b, c, mid, hi) && lo <= mid <= hi
    ensures Deepens(a, c, lo, hi)
  {
  }

  /** The code of an arm, up to the point where the arm is left. */
  lemma {:induction false} ArmCodeScoped(b: BlockSite, g: Gen, sc: Scope, c: Code)
    requires SiteOk(b) && InArm(b, g, sc) && InView(b.cx, g, 0, Visible(sc)) && BodyChecked(b, c)
    ensures
      var e := TransCode(b.cx, g, c);
      e.Emit? && Scoped(sc, e.out) && ArmEnd(b, e.g, e.ud, ScopeFold(sc, e.out))
    decreases c, 2
  {
    hide Sound, Ops, InView, Visible, Deepens, TypesAgree, Scoped, ScopeFold, DeclareResults, GenLabels, ArmScope, Kept;
    ArmFacts(b, g, sc);
    ArmSees(b, g, sc);
    CodeScoped(b.cx, g, c, [], sc);
    CodeIsSound(b.cx, g, c, []);
    var e := TransCode(b.cx, g, c);
    ArmStep(b, g, e.g, sc, ScopeFold(sc, e.out));
  }

  lemma {:induction false} TailScoped(b: BlockSite, g: Gen, sc: Scope, c: Code)
    requires SiteOk(b) && InArm(b, g, sc) && InView(b.cx, g, 0, Visible(sc)) && BodyChecked(b, c)
    ensures SiteDone(b, sc, TransTail(b.cx, g, c))
    decreases c, 3
  {
    hide Sound, Ops, InView, Visible, Deepens, TypesAgree, Scoped, ScopeFold, DeclareResults, GenLabels, SiteOk, InArm,
         EmitEnd, TransCode, BodyChecked, ArmEnd;
    ArmCodeScoped(b, g, sc, c);
    var e := TransCode(b.cx, g, c);
    EndScoped(b, e.g, e.ud, ScopeFold(sc, e.out));
    ScopedConcat(sc, e.out, EmitEnd(b.cx, e.g, e.ud).out);
  }

  lemma {:induction false} BodyScoped(b: BlockSite, c: Code)
    requires SiteOk(b) && BodyChecked(b, c)
    ensures SiteDone(b, b.Inner(), TransTail(b.cx, b.Start(), c))
    decreases c, 4
  {
    hide *;
    ArmStart(b);
    SiteScoped(b);
    TailScoped(b, b.Start(), b.Inner(), c);
  }

  lemma {:induction false} ArmsScoped(b: BlockSite, i: Instr)
    requires SiteOk(b) && i.If? && b.kind == KIf && BodyChecked(b, i.thn) && (i.hasElse ==> BodyChecked(b, i.els))
    ensures SiteDone(b, b.Inner(), TransArms(b.cx, b.Start(), i))
    decreases i, 3
  {
    hide Sound, Ops, InView, Visible, Deepens, TypesAgree, Scoped, ScopeFold, DeclareResults, GenLabels, SiteOk, InArm,
         EmitElse, TransCode, BodyChecked, ArmEnd, TransTail;
    if !i.hasElse {
      BodyScoped(b, i.thn);
    } else {
      ArmStart(b);
      SiteScoped(b);
      ArmCodeScoped(b, b.Start(), b.Inner(), i.thn);
      var e := TransCode(b.cx, b.Start(), i.thn);
      var sc := ScopeFold(b.Inner(), e.out);
      ElseScoped(b, e.g, e.ud, sc);
      var d := EmitElse(b.cx, e.g, e.ud);
      TailScoped(b, d.g, b.Inner(), i.els);
      ScopedConcat(b.Inner(), e.out, d.out);
      ScopedConcat(b.Inner(), e.out + d.out, TransTail(b.cx, d.g, i.els).out);
    }
  }
}
