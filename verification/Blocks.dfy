/** A block being translated: the state and the scope before it, inside it and after it. */
module Blocks {
  import opened Wasm
  import opened CLang
  import opened Translator
  import opened Allocator
  import opened CodeSound
  import opened Forms
  import opened Scoping
  import opened ScopeCode

  /** Where a block starts: the state `g` with operand types `ts`, in the scope `sc`. */
  datatype BlockSite = BlockSite(cx: Context, g: Gen, kind: int, bt: int, ts: seq<ValType>, sc: Scope) {
    function Results(): seq<ValType> { ResultsOf(cx.m.types, bt) }

    /** The operands below the block. */
    function Rest(): seq<ValType> { if kind == KIf && |ts| > 0 then ts[..|ts| - 1] else ts }

    function Keep(): (k: nat)
      ensures k <= |g.stack|
    {
      if kind == KIf && |g.stack| > 0 then |g.stack| - 1 else |g.stack|
    }

    function Declared(): Gen { DeclareResults(g, Results()).0 }

    function Lbl(): nat { |Declared().types| }

    /** The state that the block's end goes back to. */
    function Before(): Gen { if kind == KIf && |Declared().stack| > 0 then StackPop(Declared()).0 else Declared() }

    function Start(): Gen {
      Before().(types := Before().types + [PackKind(kind, bt)], roles := Before().roles + [LabelRole],
                blocks := Before().blocks + [BlockRec(PackType(bt), Lbl(), |Before().stack|, |Before().reuse|)])
    }

    function Decls(): seq<CStmt> { if Results() == [] then [] else [Declare(|g.types|, Results()[0])] }

    /** The condition variable of an `if`. */
    function Cond(): nat { if |g.stack| > 0 then Top(g) else 0 }

    function Opens(): seq<CStmt> {
      (if kind == KIf then [IfOpen(Cond())] else []) + (if kind == KLoop then [Goto(Lbl()), LabelHere(Lbl())] else [])
    }

    function Base(): Scope {
      if Results() == [] || |sc| == 0 then sc else Entered(sc, New(|g.types|, Results()[0]))
    }

    function Inner(): Scope { if kind == KIf then Base() + [map[]] else Base() }
  }

  predicate SiteOk(b: BlockSite) {
    && GoodContext(b.cx) && Sound(b.cx, b.g) && Ops(b.g, b.ts)
    && JumpType(b.cx.m.types, b.bt, b.kind) && b.kind in {KBlock, KLoop, KIf}
    && (b.kind == KIf ==> EndsWith(b.ts, [I32]))
    && |b.sc| > 0 && InView(b.cx, b.g, |b.ts|, Visible(b.sc))
  }

  lemma SiteView(b: BlockSite)
    requires SiteOk(b)
    ensures InView(b.cx, b.g, |b.ts|, Visible(b.sc)) && Sound(b.cx, b.g) && Ops(b.g, b.ts) && GoodContext(b.cx)
    ensures forall x: nat | x < |b.cx.locals| :: x in Visible(b.sc)
  {
  }

  // ---------------------------------------------------------------- opening

  lemma SiteFacts(b: BlockSite)
    requires SiteOk(b)
    ensures SmallIndex(b.cx) && JumpType(b.cx.m.types, b.bt, b.kind)
    ensures |b.Results()| <= 1 && b.Results() == BlockType(b.cx.m.types, b.bt).value.results
    ensures |b.ts| <= |b.g.stack| && (b.kind == KIf ==> |b.ts| > 0 && b.ts[|b.ts| - 1] == I32)
    ensures StackFloor(b.g) + |b.ts| <= |b.g.stack| && |b.Rest()| + |b.g.stack| == |b.ts| + b.Keep()
  {
    hide ValidModule, Sound, InView;
    SmallContext(b.cx);
    if b.kind == KIf {
      assert b.ts[|b.ts| - 1..][0] == I32;
    }
  }

  /** The states on the way into a block. */
  lemma SiteOpens(b: BlockSite)
    requires SiteOk(b)
    ensures b.Declared().stack == b.g.stack && b.Declared().reuse == b.g.reuse && b.Declared().blocks == b.g.blocks
    ensures b.Lbl() == |b.g.types| + |b.Results()| && Sound(b.cx, b.Declared()) && Grows(b.g, b.Declared())
    ensures DeclareResults(b.g, b.Results()).1 == b.Decls()
    ensures b.Results() != [] ==> b.Declared().types[|b.g.types|] == b.Results()[0].Code()
    ensures b.Results() != [] ==> b.Declared().roles[|b.g.types|] == ResultRole
    ensures Sound(b.cx, b.Before()) && Ops(b.Before(), b.Rest())
    ensures b.Before().stack == b.g.stack[..b.Keep()] && b.g.reuse <= b.Before().reuse
    ensures b.Before().types == b.Declared().types && b.Before().roles == b.Declared().roles
      && b.Before().blocks == b.g.blocks
  {
    hide Sound, Ops, InView, BlockType, HasType;
    SiteFacts(b);
    ResultsOk(b.cx, b.g, b.Results());
    OpsGrow(b.g, b.Declared(), b.ts);
    if b.kind == KIf {
      PopOne(b.cx, b.Declared(), b.ts);
    }
  }

  lemma SoundRoles(cx: Context, g: Gen)
    requires Sound(cx, g)
    ensures |g.roles| == |g.types|
  {
  }

  lemma SiteOpened(b: BlockSite)
    requires SiteOk(b)
    ensures Opened(b.cx, b.g, b.Start(), b.kind, b.bt, b.Keep())
    ensures Sound(b.cx, b.Start()) && BlockAt(b.Start(), 0).lbl == b.Lbl() && |b.Start().types| == b.Lbl() + 1
  {
    hide Sound, Ops, InView, BlockType, HasType, Opened;
    SiteFacts(b);
    SiteOpens(b);
    SoundRoles(b.cx, b.Declared());
    BeginOpened(b.cx, b.g, b.Declared(), b.Before(), b.kind, b.bt, b.Keep());
    OpenedShape(b.cx, b.g, b.Start(), b.kind, b.bt, b.Keep());
  }

  /** What the opening of a block emits. */
  lemma SiteEmits(b: BlockSite)
    requires SiteOk(b) && SimpleBlock(b.cx.m.types, b.bt)
    ensures EmitBegin(b.cx, b.g, b.kind, b.bt) == Emit(b.Start(), 0, b.Decls() + b.Opens())
  {
    hide Sound, Ops, InView, BlockType, EmitBegin;
    SiteFacts(b);
    SiteOpens(b);
    BeginForm(b.cx, b.g, b.kind, b.bt);
  }

  // ---------------------------------------------------------------- scopes on the way in

  lemma TypesGrow(g: Gen, g': Gen, scope: map<nat, ValType>)
    requires TypesAgree(g, scope) && Grows(g, g')
    ensures TypesAgree(g', scope)
  {
  }

  lemma BaseScope(b: BlockSite)
    requires SiteOk(b)
    ensures Scoped(b.sc, b.Decls()) && ScopeFold(b.sc, b.Decls()) == b.Base()
    ensures Deepens(b.sc, b.Base(), |b.g.types|, b.Lbl()) && TypesAgree(b.Declared(), Visible(b.Base()))
    ensures forall v | v in Visible(b.sc) :: v in Visible(b.Base())
    ensures b.Results() != [] ==> |b.g.types| in Visible(b.Base())
  {
    hide Sound, Ops, InView, BlockType, Visible, Deepens, DeclareResults, Scoped, ScopeFold;
    SiteOpens(b);
    InViewTypes(b.cx, b.g, |b.ts|, Visible(b.sc));
    TypesGrow(b.g, b.Declared(), Visible(b.sc));
    if b.Results() == [] {
      FlatScoped(b.sc, []);
      DeepensSelf(b.sc, |b.g.types|, b.Lbl());
    } else {
      NotYet(b.g, Visible(b.sc));
      DeclareTop(b.sc, New(|b.g.types|, b.Results()[0]));
      OneScoped(b.sc, b.Decls(), New(|b.g.types|, b.Results()[0]));
    }
  }

  /** What is in view below the block, and what is in view at the start of its body. */
  lemma SiteScoped(b: BlockSite)
    requires SiteOk(b)
    ensures Scoped(b.sc, b.Decls() + b.Opens()) && ScopeFold(b.sc, b.Decls() + b.Opens()) == b.Inner()
    ensures InView(b.cx, b.Before(), |b.Rest()|, Visible(b.Base()))
    ensures InView(b.cx, b.Start(), 0, Visible(b.Inner())) && Visible(b.Inner()) == Visible(b.Base())
  {
    hide Sound, Ops, InView, Visible, Scoped, ScopeFold, Deepens;
    SiteOpens(b);
    BaseScope(b);
    BeforeView(b);
    VisibleEmpty(b.Base());
    StartView(b);
    ScopedConcat(b.sc, b.Decls(), b.Opens());
    if b.kind == KIf {
      CondInView(b);
      assert b.Opens() == [IfOpen(b.Cond())];
      OpenScoped(b.Base(), b.Cond());
    } else {
      FlatScoped(b.Base(), b.Opens());
    }
  }

  lemma CondInView(b: BlockSite)
    requires SiteOk(b) && b.kind == KIf
    ensures b.Cond() in Visible(b.Base())
  {
    hide Sound, Ops, InView, Visible, Deepens;
    SiteFacts(b);
    BaseScope(b);
    PopOneView(b.cx, b.g, |b.ts|, Visible(b.sc));
  }

  lemma BeforeView(b: BlockSite)
    requires SiteOk(b)
    ensures InView(b.cx, b.Before(), |b.Rest()|, Visible(b.Base()))
  {
    hide Sound, Ops, InView, Visible, Deepens, BlockType;
    SiteFacts(b);
    SiteOpens(b);
    BaseScope(b);
    InViewGrows(b.cx, b.g, b.Declared(), |b.ts|, Visible(b.sc), Visible(b.Base()));
    if b.kind == KIf {
      assert StackFloor(b.Declared()) == StackFloor(b.g);
      PopOneView(b.cx, b.Declared(), |b.ts|, Visible(b.Base()));
    }
  }

  lemma StartView(b: BlockSite)
    requires SiteOk(b) && InView(b.cx, b.Before(), |b.Rest()|, Visible(b.Base()))
    ensures InView(b.cx, b.Start(), 0, Visible(b.Base()))
  {
    hide Sound, Ops, Visible, Deepens, SiteOk;
    SiteFacts(b);
    SiteOpens(b);
    SiteOpened(b);
    BaseScope(b);
    TypesGrow(b.Declared(), b.Start(), Visible(b.Base()));
    OpenedShape(b.cx, b.g, b.Start(), b.kind, b.bt, b.Keep());
    hide Opened, HasResult, TypesAgree;
    forall k | 0 <= k < |b.Start().blocks| && HasResult(b.cx, b.Start(), b.Start().blocks[k])
      ensures b.Start().blocks[k].lbl > 0 && b.Start().blocks[k].lbl - 1 in Visible(b.Base())
    {
      if k < |b.g.blocks| {
        OuterResult(b, k);
      } else {
        OwnResult(b);
      }
    }
  }

  /** The result variable of a block that was open before is still in view. */
  lemma OuterResult(b: BlockSite, k: nat)
    requires SiteOk(b) && InView(b.cx, b.Before(), |b.Rest()|, Visible(b.Base())) && k < |b.g.blocks|
      && k < |b.Start().blocks|
    requires HasResult(b.cx, b.Start(), b.Start().blocks[k])
    ensures b.Start().blocks[k].lbl > 0 && b.Start().blocks[k].lbl - 1 in Visible(b.Base())
  {
    hide Sound, Ops, Visible, SiteOk, HasResult, TypesAgree;
    SiteFacts(b);
    SiteOpens(b);
    SiteOpened(b);
    OpenedShape(b.cx, b.g, b.Start(), b.kind, b.bt, b.Keep());
    BlockSame(b.cx, b.Before(), b.Start(), k);
  }

  /** So is the block's own. */
  lemma OwnResult(b: BlockSite)
    requires SiteOk(b) && |b.Start().blocks| == |b.g.blocks| + 1
    requires HasResult(b.cx, b.Start(), BlockAt(b.Start(), 0))
    ensures BlockAt(b.Start(), 0).lbl > 0 && BlockAt(b.Start(), 0).lbl - 1 in Visible(b.Base())
  {
    hide Sound, Ops, Visible, SiteOk, HasResult, InView;
    SiteFacts(b);
    SiteOpens(b);
    SiteOpened(b);
    OpenedShape(b.cx, b.g, b.Start(), b.kind, b.bt, b.Keep());
    BaseScope(b);
    OpenedType(b);
  }

  lemma BlockSame(cx: Context, g: Gen, g': Gen, k: nat)
    requires Sound(cx, g) && Grows(g, g') && k < |g.blocks| && k < |g'.blocks| && g'.blocks[k] == g.blocks[k]
    ensures HasResult(cx, g', g'.blocks[k]) == HasResult(cx, g, g.blocks[k])
  {
    BlockGrows(cx, g, g', g.blocks[k]);
  }

  lemma OpenedType(b: BlockSite)
    requires SiteOk(b)
    ensures HasResult(b.cx, b.Start(), BlockAt(b.Start(), 0)) ==> b.Results() != []
    ensures b.Results() != [] ==> b.Lbl() == |b.g.types| + 1
  {
    hide Sound, Ops, InView, BlockType;
    SiteFacts(b);
    SiteOpens(b);
    SiteOpened(b);
  }

  // ---------------------------------------------------------------- inside an arm

  predicate ArmScope(b: BlockSite, sc: Scope, hi: nat) {
    if b.kind == KIf
    then |sc| == |b.Base()| + 1 && sc[..|b.Base()|] == b.Base() && forall v | v in sc[|b.Base()|] ::
      b.Lbl() + 1 <= v < hi
    else Deepens(b.Base(), sc, b.Lbl() + 1, hi)
  }

  /** A state and a scope between the instructions of an arm of the block. */
  predicate InArm(b: BlockSite, g: Gen, sc: Scope) {
    && Sound(b.cx, g) && Kept(b.Start(), g, b.Keep())
    && ArmScope(b, sc, |g.types|) && TypesAgree(g, Visible(sc))
  }

  lemma ArmStart(b: BlockSite)
    requires SiteOk(b)
    ensures InArm(b, b.Start(), b.Inner())
  {
    hide Sound, Ops, InView, Visible, Kept, BlockType, DeclareResults, PackKind, PackType, ResultsOf, TypesAgree,
         SiteOk, ArmScope;
    SiteOpened(b);
    SiteScoped(b);
    SiteOpens(b);
    InViewTypes(b.cx, b.Start(), 0, Visible(b.Inner()));
    KeptSame(b.cx, b.Start(), b.Keep());
    InnerShape(b, |b.Start().types|);
  }

  lemma InnerShape(b: BlockSite, hi: nat)
    requires SiteOk(b)
    ensures ArmScope(b, b.Inner(), hi)
  {
    BaseNotEmpty(b);
    hide SiteOk;
    if b.kind == KIf {
      assert b.Inner()[..|b.Base()|] == b.Base();
    } else {
      DeepensSelf(b.Base(), b.Lbl() + 1, hi);
    }
  }

  lemma BaseNotEmpty(b: BlockSite)
    requires SiteOk(b)
    ensures |b.Base()| == |b.sc| > 0
  {
    hide Sound, Ops, InView, Visible;
  }

  lemma ArmFacts(b: BlockSite, g: Gen, sc: Scope)
    requires SiteOk(b) && InArm(b, g, sc)
    ensures g.blocks != [] && BlockAt(g, 0) == BlockAt(b.Start(), 0) && BlockAt(g, 0).lbl == b.Lbl()
    ensures g.blocks[..|g.blocks| - 1] == b.g.blocks
    ensures BlockOk(b.cx, g, BlockAt(g, 0)) && KindOf(g, BlockAt(g, 0)) == b.kind
    ensures GenLabel(b.cx, g, BlockAt(g, 0)) == Label(b.kind == KLoop, b.Results())
    ensures GenLabels(b.cx, g) == [Label(b.kind == KLoop, b.Results())] + GenLabels(b.cx, b.g)
    ensures StackFloor(g) == b.Keep() && Ops(g, []) && BlockAt(g, 0).stackBase == b.Keep() && b.Keep() <= |g.stack|
  {
    hide Sound, Ops, InView, Visible, Deepens, Kept, GenLabels, Opened, GenLabel, BlockOk, KindOf, TypeIndexOf;
    SiteFacts(b);
    SiteOpened(b);
    BodyState(b.cx, b.g, b.Start(), g, b.kind, b.bt, b.Keep());
    SameBlock(b.cx, b.g, b.Start(), g, b.kind, b.bt, b.Keep());
    KeptStack(b.Start(), g, b.Keep());
    StartBlock(b);
  }

  lemma KeptStack(g: Gen, g': Gen, h: nat)
    requires Kept(g, g', h)
    ensures Grows(g, g') && g'.blocks == g.blocks && h <= |g'.stack| && h <= |g.stack| && g'.stack[..h] == g.stack[..h]
  {
  }

  lemma StartBlock(b: BlockSite)
    requires SiteOk(b)
    ensures |b.Start().blocks| == |b.g.blocks| + 1 && b.Start().blocks[|b.g.blocks|].stackBase == b.Keep()
    ensures b.Start().blocks[|b.g.blocks|].lbl == b.Lbl()
  {
    hide Sound, Ops, InView, BlockType;
    SiteFacts(b);
    SiteOpens(b);
  }

  lemma ArmSees(b: BlockSite, g: Gen, sc: Scope)
    requires SiteOk(b) && InArm(b, g, sc)
    ensures |sc| > 0 && forall v | v in Visible(b.Base()) :: v in Visible(sc)
  {
    hide Sound, Ops, InView, Kept, TypesAgree, SiteOk;
    BaseNotEmpty(b);
    if b.kind == KIf {
      var k := |b.Base()|;
      assert sc == b.Base() + [sc[k]];
      VisibleTop(b.Base(), sc[k]);
    } else {
      DeepensSees(b.Base(), sc, b.Lbl() + 1, |g.types|);
    }
  }

  lemma DeepensSees(sc: Scope, sc': Scope, lo: nat, hi: nat)
    requires Deepens(sc, sc', lo, hi)
    ensures |sc'| == |sc| > 0 && forall v | v in Visible(sc) :: v in Visible(sc')
  {
    var k := |sc| - 1;
    assert Visible(sc) == Visible(sc[..k]) + sc[k];
    assert Visible(sc') == Visible(sc'[..k]) + sc'[k];
  }

  /** Code of an arm leads from one state inside it to another. */
  lemma ArmStep(b: BlockSite, g: Gen, g': Gen, sc: Scope, sc': Scope)
    requires SiteOk(b) && InArm(b, g, sc) && Sound(b.cx, g') && Kept(g, g', |g.stack|)
    requires Deepens(sc, sc', |g.types|, |g'.types|) && TypesAgree(g', Visible(sc'))
    ensures InArm(b, g', sc')
  {
    hide Sound, Ops, InView, Kept, TypesAgree, SiteOk, Visible, Deepens;
    SiteOpened(b);
    BodyKept(b.Start(), g, g', b.Keep());
    KeptStack(g, g', |g.stack|);
    ArmDeepens(b, g, g', sc, sc');
  }

  lemma StartBelow(b: BlockSite, g: Gen)
    requires SiteOk(b) && Kept(b.Start(), g, b.Keep())
    ensures b.Lbl() + 1 <= |g.types|
  {
    hide Sound, SiteOk, BlockType;
    SiteOpened(b);
  }

  lemma ArmDeepens(b: BlockSite, g: Gen, g': Gen, sc: Scope, sc': Scope)
    requires SiteOk(b) && InArm(b, g, sc) && Grows(g, g')
    requires Deepens(sc, sc', |g.types|, |g'.types|)
    ensures ArmScope(b, sc', |g'.types|)
  {
    hide Sound, Ops, InView, TypesAgree, Visible;
    SiteOpened(b);
    BaseNotEmpty(b);
    StartBelow(b, g);
    if b.kind == KIf {
      assert sc'[..|b.Base()|] == sc[..|b.Base()|];
    } else {
      DeepensTrans(b.Base(), sc, sc', b.Lbl() + 1, |g.types|, |g'.types|);
    }
  }

  // ---------------------------------------------------------------- leaving an arm

  /** The end of an arm: reached with the block's results on the stack, or not reached. */
  predicate ArmEnd(b: BlockSite, g: Gen, ud: nat, sc: Scope) {
    InArm(b, g, sc) && (ud == 0 ==> Ops(g, b.Results()) && InView(b.cx, g, |b.Results()|, Visible(sc)))
  }

  lemma LeaveScoped(b: BlockSite, g: Gen, ud: nat, sc: Scope)
    requires SiteOk(b) && ArmEnd(b, g, ud, sc)
    ensures LeaveArm(b.cx, g, ud).Emit? && AllFlat(LeaveArm(b.cx, g, ud).out, Visible(sc))
    ensures LeaveArm(b.cx, g, ud).out ==
      if ud > 0 || b.Results() == [] || |g.stack| == 0 then [] else [Assign(Old(|b.g.types|), Var(Top(g)))]
  {
    hide Sound, Ops, InView, Visible, GenLabel, LeaveArm, BlockType, SiteOk, GenLabels;
    SiteFacts(b);
    SiteOpens(b);
    ArmFacts(b, g, sc);
    ArmSees(b, g, sc);
    BaseScope(b);
    LeaveForm(b.cx, g, ud);
    if ud == 0 && b.Results() != [] {
      OpsFit(g, b.Results());
      PopOneView(b.cx, g, |b.Results()|, Visible(sc));
    }
  }

  lemma ElseScoped(b: BlockSite, g: Gen, ud: nat, sc: Scope)
    requires SiteOk(b) && ArmEnd(b, g, ud, sc) && b.kind == KIf
    ensures EmitElse(b.cx, g, ud).Emit?
    ensures
      var e := EmitElse(b.cx, g, ud);
      && e.out == LeaveArm(b.cx, g, ud).out + [ElseOpen]
      && Scoped(sc, e.out) && ScopeFold(sc, e.out) == b.Inner()
      && InArm(b, e.g, b.Inner()) && InView(b.cx, e.g, 0, Visible(b.Inner()))
  {
    hide Sound, Ops, InView, Visible, GenLabel, LeaveArm, BlockType, SiteOk, GenLabels, EmitElse, Scoped, ScopeFold,
         TypesAgree, Kept;
    var e := EmitElse(b.cx, g, ud);
    ArmFacts(b, g, sc);
    LeaveScoped(b, g, ud, sc);
    ElseSound(b.cx, g, ud);
    ElseOut(b.cx, g, ud);
    SiteScoped(b);
    ElseState(b, g, e.g, sc);
    FlatScoped(sc, LeaveArm(b.cx, g, ud).out);
    ScopedConcat(sc, LeaveArm(b.cx, g, ud).out, [ElseOpen]);
    assert sc == b.Base() + [sc[|b.Base()|]];
    CloseScoped(b.Base(), sc[|b.Base()|]);
  }

  lemma ElseOut(cx: Context, g: Gen, ud: nat)
    requires EmitElse(cx, g, ud).Emit?
    ensures LeaveArm(cx, g, ud).Emit? && EmitElse(cx, g, ud).out == LeaveArm(cx, g, ud).out + [ElseOpen]
  {
  }

  lemma ElseState(b: BlockSite, g: Gen, g': Gen, sc: Scope)
    requires SiteOk(b) && InArm(b, g, sc) && b.kind == KIf
    requires Sound(b.cx, g') && Kept(g, g', b.Keep()) && g'.types == g.types && ReuseTop(g') == |g'.reuse|
    requires InView(b.cx, b.Start(), 0, Visible(b.Inner()))
    ensures InArm(b, g', b.Inner()) && InView(b.cx, g', 0, Visible(b.Inner()))
  {
    hide Sound, Ops, Visible, SiteOk, BlockType, KindOf, TypeIndexOf;
    SiteOpened(b);
    BaseNotEmpty(b);
    KeptTrans(b.Start(), g, g', b.Keep());
    TypesGrow(b.Start(), g', Visible(b.Inner()));
    forall k | 0 <= k < |g'.blocks|
      ensures HasResult(b.cx, g', g'.blocks[k]) == HasResult(b.cx, b.Start(), b.Start().blocks[k])
    {
      BlockSame(b.cx, b.Start(), g', k);
    }
  }

  // ---------------------------------------------------------------- the end of the block

  /** The scope behind the block's closing brace. */
  function Closed(b: BlockSite, sc: Scope): Scope { if b.kind == KIf then b.Base() else sc }

  /** The state that the end of the block goes back to, with the numbers handed out so far. */
  function Restored(b: BlockSite, g: Gen): Gen { b.Before().(types := g.types, roles := g.roles) }

  lemma RestoredSound(b: BlockSite, g: Gen, sc: Scope)
    requires SiteOk(b) && InArm(b, g, sc)
    ensures Sound(b.cx, Restored(b, g)) && Ops(Restored(b, g), b.Rest()) && Grows(b.Before(), Restored(b, g))
    ensures Restored(b, g).blocks == b.g.blocks && |Restored(b, g).stack| == b.Keep()
  {
    hide Sound, Ops, InView, Visible, SiteOk, BlockType, Deepens, TypesAgree, Kept, DeclareResults, PackKind, PackType,
         ResultsOf;
    SiteOpened(b);
    SiteOpens(b);
    KeptStack(b.Start(), g, b.Keep());
    SoundRoles(b.cx, g);
    SoundGrows(b.cx, b.Before(), Restored(b, g));
    OpsGrow(b.Before(), Restored(b, g), b.Rest());
    assert |b.Start().stack| == b.Keep();
  }

  lemma RestoredTypes(b: BlockSite, g: Gen, sc: Scope)
    requires SiteOk(b) && InArm(b, g, sc)
    ensures TypesAgree(Restored(b, g), Visible(Closed(b, sc)))
    ensures Deepens(b.Base(), Closed(b, sc), b.Lbl() + 1, |g.types|)
    ensures forall v | v in Visible(b.Base()) :: v in Visible(Closed(b, sc))
  {
    hide Sound, Ops, InView, Visible, SiteOk, BlockType, Deepens, TypesAgree, Kept, DeclareResults, PackKind, PackType,
         ResultsOf;
    BaseScope(b);
    BaseNotEmpty(b);
    ArmSees(b, g, sc);
    DeepensSelf(b.Base(), b.Lbl() + 1, |g.types|);
    if b.kind == KIf {
      SiteOpens(b);
      RestoredSound(b, g, sc);
      TypesGrow(b.Declared(), Restored(b, g), Visible(b.Base()));
    } else {
      TypesGrow(g, Restored(b, g), Visible(sc));
    }
  }

  lemma RestoredView(b: BlockSite, g: Gen, sc: Scope)
    requires SiteOk(b) && InArm(b, g, sc)
    ensures Sound(b.cx, Restored(b, g)) && Ops(Restored(b, g), b.Rest())
    ensures InView(b.cx, Restored(b, g), |b.Rest()|, Visible(Closed(b, sc)))
    ensures Deepens(b.Base(), Closed(b, sc), b.Lbl() + 1, |g.types|)
  {
    hide Sound, Ops, InView, Visible, SiteOk, BlockType, Deepens, TypesAgree, Kept, DeclareResults, PackKind, PackType,
         ResultsOf, Closed, InArm;
    SiteOpens(b);
    SiteScoped(b);
    RestoredSound(b, g, sc);
    RestoredTypes(b, g, sc);
    InViewGrows(b.cx, b.Before(), Restored(b, g), |b.Rest()|, Visible(b.Base()), Visible(Closed(b, sc)));
  }

  /** What the end of a block emits and the state it leaves. */
  lemma EndEmits(b: BlockSite, g: Gen, ud: nat, sc: Scope)
    requires SiteOk(b) && ArmEnd(b, g, ud, sc)
    ensures LeaveArm(b.cx, g, ud).Emit? && (b.Results() != [] ==> b.Lbl() > 0)
    ensures
      var r := Restored(b, g);
      var (g', d) := if b.Results() == [] then (r, Old(0)) else StackPush(r, b.Results()[0]);
      EmitEnd(b.cx, g, ud) ==
        Emit(g', 0, LeaveArm(b.cx, g, ud).out + CloseStmts(b.Lbl(), b.kind)
                    + if b.Results() == [] then [] else [Assign(d, Var(b.Lbl() - 1))])
  {
    hide Sound, Ops, InView, Visible, SiteOk, BlockType, Deepens, TypesAgree, LeaveArm, EmitEnd, GenLabel, GenLabels,
         KindOf, TypeIndexOf, BlockOk, StackPush, BlockEnd;
    SiteFacts(b);
    SiteOpens(b);
    ArmFacts(b, g, sc);
    EndSound(b.cx, g, ud);
    LeaveSound(b.cx, g, ud);
    RestoredIs(b, g, sc);
    CloseForm(b.cx, LeaveArm(b.cx, g, ud).g);
    KindSame(LeaveArm(b.cx, g, ud).g, g, BlockAt(g, 0));
  }

  lemma KindSame(g: Gen, g': Gen, b: BlockRec)
    requires g.types == g'.types
    ensures KindOf(g, b) == KindOf(g', b)
  {
  }

  lemma RestoredIs(b: BlockSite, g: Gen, sc: Scope)
    requires SiteOk(b) && InArm(b, g, sc)
    ensures g.blocks != [] && BlockAt(g, 0).stackBase <= |g.stack| && BlockAt(g, 0).reuseBase <= |g.reuse|
    ensures Restored(b, g) ==
      Gen(g.types, g.roles, g.reuse[..BlockAt(g, 0).reuseBase], g.stack[..BlockAt(g, 0).stackBase],
          g.blocks[..|g.blocks| - 1])
  {
    hide Sound, Ops, InView, Visible, SiteOk, BlockType, Deepens, TypesAgree, GenLabel, GenLabels, KindOf, TypeIndexOf,
         BlockOk;
    SiteOpened(b);
    SiteOpens(b);
    ArmFacts(b, g, sc);
    assert b.Start().stack == b.g.stack[..b.Keep()];
    assert ReuseTop(b.Start()) == |b.Start().reuse|;
    assert BlockAt(b.Start(), 0).reuseBase == |b.Before().reuse|;
    assert b.Start().stack[..b.Keep()] == b.Start().stack;
  }

  lemma EndScoped(b: BlockSite, g: Gen, ud: nat, sc: Scope)
    requires SiteOk(b) && ArmEnd(b, g, ud, sc)
    ensures EmitEnd(b.cx, g, ud).Emit? && b.Lbl() + 1 <= |EmitEnd(b.cx, g, ud).g.types|
    ensures
      var e := EmitEnd(b.cx, g, ud);
      && Scoped(sc, e.out) && Deepens(b.Base(), ScopeFold(sc, e.out), b.Lbl() + 1, |e.g.types|)
      && InView(b.cx, e.g, |b.Rest()| + |b.Results()|, Visible(ScopeFold(sc, e.out)))
  {
    hide Sound, Ops, InView, Visible, SiteOk, BlockType, Deepens, TypesAgree, LeaveArm, EmitEnd, StackPush, Scoped,
         ScopeFold, CloseStmts;
    SiteFacts(b);
    EndEmits(b, g, ud, sc);
    var e := EmitEnd(b.cx, g, ud);
    var leave := LeaveArm(b.cx, g, ud).out;
    LeaveScoped(b, g, ud, sc);
    FlatScoped(sc, leave);
    CloseStmtsScoped(b, g, sc);
    RestoredView(b, g, sc);
    ScopedConcat(sc, leave, CloseStmts(b.Lbl(), b.kind));
    var push := if b.Results() == [] then []
      else [Assign(StackPush(Restored(b, g), b.Results()[0]).1, Var(b.Lbl() - 1))];
    ScopedConcat(sc, leave + CloseStmts(b.Lbl(), b.kind), push);
    StartBelow(b, g);
    if b.Results() == [] {
      FlatScoped(Closed(b, sc), []);
    } else {
      ResultPushScoped(b, g, sc);
    }
  }

  lemma CloseStmtsScoped(b: BlockSite, g: Gen, sc: Scope)
    requires SiteOk(b) && InArm(b, g, sc)
    ensures Scoped(sc, CloseStmts(b.Lbl(), b.kind)) && ScopeFold(sc, CloseStmts(b.Lbl(), b.kind)) == Closed(b, sc)
  {
    hide Sound, Ops, InView, Visible, SiteOk, BlockType, Deepens, TypesAgree, Kept, Scoped, ScopeFold;
    var jump := if b.kind != KLoop then [Goto(b.Lbl()), LabelHere(b.Lbl())] else [];
    FlatScoped(sc, jump);
    if b.kind == KIf {
      assert sc == b.Base() + [sc[|b.Base()|]];
      CloseScoped(b.Base(), sc[|b.Base()|]);
      ScopedConcat(sc, jump, [Close]);
    } else {
      assert jump + [] == jump;
    }
  }

  lemma ResultPushScoped(b: BlockSite, g: Gen, sc: Scope)
    requires SiteOk(b) && InArm(b, g, sc) && b.Results() != []
    ensures b.Lbl() > 0
    ensures
      var (g', d) := StackPush(Restored(b, g), b.Results()[0]);
      var out := [Assign(d, Var(b.Lbl() - 1))];
      && Scoped(Closed(b, sc), out) && ScopeFold(Closed(b, sc), out) == Entered(Closed(b, sc), d)
      && Deepens(b.Base(), Entered(Closed(b, sc), d), b.Lbl() + 1, |g'.types|) && |g.types| <= |g'.types|
      && InView(b.cx, g', |b.Rest()| + 1, Visible(Entered(Closed(b, sc), d)))
  {
    hide Sound, Ops, InView, Visible, SiteOk, BlockType, Deepens, TypesAgree, Kept, Scoped, ScopeFold, StackPush,
         Entered;
    SiteFacts(b);
    SiteOpens(b);
    BaseScope(b);
    RestoredView(b, g, sc);
    DeepensSees(b.Base(), Closed(b, sc), b.Lbl() + 1, |g.types|);
    PushView(b.cx, Restored(b, g), |b.Rest()|, b.Results()[0], Closed(b, sc));
    var (g', d) := StackPush(Restored(b, g), b.Results()[0]);
    OneScoped(Closed(b, sc), [Assign(d, Var(b.Lbl() - 1))], d);
    StartBelow(b, g);
    PushGrows(b.cx, Restored(b, g), b.Results()[0]);
    DeepensTrans(b.Base(), Closed(b, sc), Entered(Closed(b, sc), d), b.Lbl() + 1, |g.types|, |g'.types|);
  }
}
