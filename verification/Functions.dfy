/**
 Whole functions of a valid module: translation succeeds, names are used in scope only, braces
 balance, labels are defined once and every jump goes to one of them.
 */
module Functions {
  import opened Options
  import opened Wasm
  import opened CLang
  import opened Translator
  import opened OnePass
  import opened Allocator
  import opened CodeSound
  import opened Forms
  import opened Layout
  import opened Labels
  import opened Scoping
  import opened Blocks
  import opened Braces

  function Params(m: Module, f: Func): seq<ValType>
    requires f.ty < |m.types|
  {
    m.types[f.ty].params
  }

  /** The generator when the parameters and the declared locals have their numbers. */
  function Entry(m: Module, f: Func): Gen
    requires f.ty < |m.types|
  {
    AllocLocals(EmptyGen, Params(m, f) + f.locals)
  }

  /** The block that a function body is. */
  function FuncSite(m: Module, f: Func): BlockSite
    requires f.ty < |m.types|
  {
    BlockSite(FuncContext(m, f), Entry(m, f), KBlock, f.ty, [], ParamScope(Params(m, f) + f.locals))
  }

  function Zeros(m: Module, f: Func): seq<CStmt>
    requires f.ty < |m.types|
  {
    ZeroLocals(|Params(m, f)|, f.locals)
  }

  lemma ZerosStep(first: nat, ts: seq<ValType>)
    requires ts != []
    ensures ZeroLocals(first, ts) == [DeclareZero(first, ts[0])] + ZeroLocals(first + 1, ts[1..])
  {
  }

  lemma ParamStep(ps: seq<ValType>, t: ValType)
    ensures ScopeStep(ParamScope(ps), DeclareZero(|ps|, t)) == ParamScope(ps + [t])
    ensures StmtScoped(DeclareZero(|ps|, t), Visible(ParamScope(ps)))
  {
    ParamNames(ps);
    var m := map i: nat | i < |ps| :: i := ps[i];
    assert m[|ps| := t] == map i: nat | i < |ps + [t]| :: i := (ps + [t])[i];
    assert ParamScope(ps)[..0] + [m[|ps| := t]] == [m[|ps| := t]];
  }

  lemma ParamNames(ps: seq<ValType>)
    ensures Visible(ParamScope(ps)) == map i: nat | i < |ps| :: i := ps[i]
  {
    var m := map i: nat | i < |ps| :: i := ps[i];
    assert ParamScope(ps) == [] + [m];
    VisibleTop([], m);
    assert Visible([]) + m == m;
  }

  /** Declaring the locals extends the parameters' scope. */
  lemma {:induction false} ZeroScope(ps: seq<ValType>, ts: seq<ValType>)
    ensures Scoped(ParamScope(ps), ZeroLocals(|ps|, ts))
    ensures ScopeFold(ParamScope(ps), ZeroLocals(|ps|, ts)) == ParamScope(ps + ts)
    decreases ts
  {
    hide ParamScope;
    if ts == [] {
      assert ps + ts == ps;
    } else {
      ZerosStep(|ps|, ts);
      ParamStep(ps, ts[0]);
      ZeroScope(ps + [ts[0]], ts[1..]);
      assert ps + [ts[0]] + ts[1..] == ps + ts;
      ScopeOne(ParamScope(ps), DeclareZero(|ps|, ts[0]));
      ScopedConcat(ParamScope(ps), [DeclareZero(|ps|, ts[0])], ZeroLocals(|ps| + 1, ts[1..]));
    }
  }

  lemma EntrySite(m: Module, f: Func)
    requires ValidModule(m) && f in m.funcs
    ensures f.ty < |m.types| && SiteOk(FuncSite(m, f)) && BodyChecked(FuncSite(m, f), f.body)
  {
    hide CheckCode;
    assert ValidFunc(m, f);
    var b := FuncSite(m, f);
    ParamNames(Params(m, f) + f.locals);
    EntrySound(m, f);
    assert GenLabels(b.cx, b.g) == [];
    assert BodyLabels(b) == [Label(false, b.Results())];
  }

  lemma EntrySound(m: Module, f: Func)
    requires ValidFunc(m, f)
    ensures
      var b := FuncSite(m, f);
      && Sound(b.cx, b.g) && Ops(b.g, []) && JumpType(m.types, f.ty, KBlock) && b.Results() == m.types[f.ty].results
      && InView(b.cx, b.g, 0, Visible(b.sc))
  {
    hide CheckCode;
    ParamNames(Params(m, f) + f.locals);
  }

  // ---------------------------------------------------------------- what is emitted

  function Returns(b: BlockSite, g: Gen): seq<CStmt> {
    if b.Results() == [] || g.stack == [] then [] else [Ret(Some(Top(g)))]
  }

  lemma PrologueForm(m: Module, f: Func)
    requires ValidModule(m) && f in m.funcs
    ensures f.ty < |m.types| && Prologue(m, f) == Emit(FuncSite(m, f).Start(), 0, Zeros(m, f) + FuncSite(m, f).Decls())
  {
    hide DeclareResults, ZeroLocals, SiteOk, BodyChecked, ValidModule;
    EntrySite(m, f);
    var b := FuncSite(m, f);
    SiteFacts(b);
    SiteOpens(b);
    BlockBeginForm(b.Declared(), KBlock, f.ty);
    assert Zeros(m, f) + b.Decls() + [] == Zeros(m, f) + b.Decls();
  }

  lemma TailStack(m: Module, f: Func)
    requires ValidModule(m) && f in m.funcs
    ensures f.ty < |m.types|
    ensures
      var b := FuncSite(m, f);
      var e := TransTail(b.cx, b.Start(), f.body);
      e.Emit? && e.ud == 0 && |e.g.stack| == |b.Results()| <= 1 && Sound(b.cx, e.g) && Ops(e.g, b.Results())
  {
    hide SiteOk, BodyChecked, ValidModule, Sound, Ops, TransTail, CheckCode, GenLabels;
    EntrySite(m, f);
    var b := FuncSite(m, f);
    SiteFacts(b);
    SiteView(b);
    SiteOpened(b);
    KeptSame(b.cx, b.Start(), 0);
    BodyIs(b, f.body);
    TailIsSound(b.cx, b.g, b.Start(), b.Start(), KBlock, f.ty, f.body, [], [], 0);
    assert [] + b.Results() == b.Results();
  }

  lemma BodyIs(b: BlockSite, c: Code)
    requires SiteOk(b) && BodyChecked(b, c)
    ensures b.Results() == BlockType(b.cx.m.types, b.bt).value.results
    ensures BodyOk(CheckCode(b.cx, [Label(b.kind == KLoop, b.Results())] + GenLabels(b.cx, b.g), c, []), b.Results())
  {
    hide SiteOk, CheckCode;
    SiteFacts(b);
  }

  /** The translation of a function of a valid module never faults, and this is what it comes to. */
  lemma FuncEmits(m: Module, f: Func)
    requires ValidModule(m) && f in m.funcs
    ensures f.ty < |m.types| && TransFunc(m, f).Emit?
    ensures
      var b := FuncSite(m, f);
      var e := TransTail(b.cx, b.Start(), f.body);
      && e.Emit? && |e.g.stack| == |b.Results()| <= 1 && b.Results() == m.types[f.ty].results
      && TransFunc(m, f).out == Zeros(m, f) + b.Decls() + e.out + Returns(b, e.g)
  {
    hide SiteOk, BodyChecked, ValidModule, Sound, Ops, TransTail, Prologue, EmitTokens, Flatten, Zeros;
    EntrySite(m, f);
    PrologueForm(m, f);
    TailStack(m, f);
    var b := FuncSite(m, f);
    var e := TransTail(b.cx, b.Start(), f.body);
    SiteFacts(b);
    OnePassTail(b.cx, b.Start(), f.body);
    EpilogueForm(b, e.g);
    PrependForm(Zeros(m, f) + b.Decls() + e.out, Epilogue(e.g, |b.Results()|));
  }

  lemma EpilogueForm(b: BlockSite, g: Gen)
    requires |g.stack| == |b.Results()| <= 1
    ensures Epilogue(g, |b.Results()|).Emit? && Epilogue(g, |b.Results()|).out == Returns(b, g)
  {
  }

  lemma PrependForm(out: seq<CStmt>, e: Emission)
    requires e.Emit?
    ensures Prepend(out, e).Emit? && Prepend(out, e).out == out + e.out
  {
  }

  // ---------------------------------------------------------------- scoping of a function

  lemma FuncScoped(m: Module, f: Func)
    requires ValidModule(m) && f in m.funcs
    ensures f.ty < |m.types| && TransFunc(m, f).Emit? && Scoped(ParamScope(Params(m, f)), TransFunc(m, f).out)
  {
    hide SiteOk, BodyChecked, ValidModule, Sound, Ops, TransTail, Scoped, ScopeFold, ParamScope, Visible, InView,
         Returns, ZeroLocals;
    EntrySite(m, f);
    FuncEmits(m, f);
    var b := FuncSite(m, f);
    var e := TransTail(b.cx, b.Start(), f.body);
    var ps := ParamScope(Params(m, f));
    ZeroScope(Params(m, f), f.locals);
    BaseScope(b);
    BodyScoped(b, f.body);
    DoneScoped(b, e);
    ScopedConcat(ps, Zeros(m, f), b.Decls());
    ScopedConcat(ps, Zeros(m, f) + b.Decls(), e.out);
    ReturnsScoped(b, e.g, ScopeFold(b.Inner(), e.out));
    ScopedConcat(ps, Zeros(m, f) + b.Decls() + e.out, Returns(b, e.g));
  }

  lemma DoneScoped(b: BlockSite, e: Emission)
    requires SiteDone(b, b.Inner(), e)
    ensures e.Emit? && Scoped(b.Inner(), e.out)
    ensures InView(b.cx, e.g, |b.Rest()| + |b.Results()|, Visible(ScopeFold(b.Inner(), e.out)))
  {
  }

  lemma ReturnsScoped(b: BlockSite, g: Gen, sc: Scope)
    requires InView(b.cx, g, |b.Rest()| + |b.Results()|, Visible(sc)) && b.Rest() == []
    ensures Scoped(sc, Returns(b, g))
  {
    if Returns(b, g) != [] {
      ScopeOne(sc, Ret(Some(Top(g))));
    }
  }

  // ---------------------------------------------------------------- labels and braces of a function

  /** Every jump goes to a label that is there. */
  predicate JumpsHome(s: seq<CStmt>) {
    forall i, l | 0 <= i < |s| && l in Targets(s[i]) :: Defines(s, l)
  }

  /**
   The layout of a function: balanced braces, labels that are defined once and are no variable's number,
   jumps to labels that are there, and each label where its block has it: a loop's at its head, any other
   block's at its end.
   */
  lemma FuncLayout(m: Module, f: Func)
    requires ValidModule(m) && f in m.funcs
    ensures f.ty < |m.types| && TransFunc(m, f).Emit?
    ensures var s := TransFunc(m, f).out; Balanced(s) && UniqueLabels(s) && JumpsHome(s)
    ensures LaidFunc(f.body, TransFunc(m, f).out)
    ensures LabelsApart(TransFunc(m, f).out)
    ensures forall l: nat | Defines(TransFunc(m, f).out, l) :: l >= |Params(m, f)|
  {
    hide *;
    EntrySite(m, f);
    FuncEmits(m, f);
    FuncBraces(m, f);
    FuncLaid(m, f);
    FuncNumbers(m, f);
  }

  lemma FuncBraces(m: Module, f: Func)
    requires ValidModule(m) && f in m.funcs
    ensures f.ty < |m.types| && TransFunc(m, f).Emit?
    ensures var s := TransFunc(m, f).out; Balanced(s) && UniqueLabels(s) && JumpsHome(s)
  {
    hide SiteOk, BodyChecked, ValidModule, Sound, Ops, TransTail, ZeroLocals, Returns;
    EntrySite(m, f);
    FuncEmits(m, f);
    var b := FuncSite(m, f);
    var e := TransTail(b.cx, b.Start(), f.body);
    SiteOpened(b);
    StartKind(b);
    TailShape(b.cx, b.Start(), f.body, BlockAt(b.Start(), 0), KBlock);
    var front, back := Zeros(m, f) + b.Decls(), Returns(b, e.g);
    PlainEnds(m, f, e.g);
    OneBlock(m, f);
    FrameLayout(b.Start(), BlockAt(b.Start(), 0), front, e, back);
  }

  lemma FuncLaid(m: Module, f: Func)
    requires ValidModule(m) && f in m.funcs
    ensures f.ty < |m.types| && TransFunc(m, f).Emit? && LaidFunc(f.body, TransFunc(m, f).out)
  {
    hide SiteOk, BodyChecked, ValidModule, TransTail, TransCode, LaidCode, EndsWithLabel, EmitEnd, TransFunc,
         ZeroLocals;
    EntrySite(m, f);
    FuncEmits(m, f);
    var b := FuncSite(m, f);
    StartKind(b);
    TailForm(b.cx, b.Start(), f.body);
    CodeLaid(b.cx, b.Start(), f.body);
    CodeKeeps(b.cx, b.Start(), f.body, BlockAt(b.Start(), 0), KBlock);
    var c := TransCode(b.cx, b.Start(), f.body);
    EndLaid(b.cx, c.g, c.ud, BlockAt(b.Start(), 0), KBlock);
    var end := EmitEnd(b.cx, c.g, c.ud).out;
    var front, back := Zeros(m, f) + b.Decls(), Returns(b, TransTail(b.cx, b.Start(), f.body).g);
    FrontIs(m, f);
    assert front + (c.out + end) + back == front + c.out + end + back;
    BackIs(b, TransTail(b.cx, b.Start(), f.body).g);
    FuncLaidAs(f.body, front, c.out, end, back, BlockAt(b.Start(), 0).lbl);
  }

  lemma FuncLaidAs(c: Code, front: seq<CStmt>, b: seq<CStmt>, end: seq<CStmt>, back: seq<CStmt>, l: nat)
    requires Front(front) && LaidCode(c, b) && EndsWithLabel(end, l, false) && Back(back)
    ensures LaidFunc(c, front + b + end + back)
  {
    hide LaidCode, EndsWithLabel;
  }

  lemma BackIs(b: BlockSite, g: Gen)
    ensures Back(Returns(b, g))
  {
  }

  lemma FrontIs(m: Module, f: Func)
    requires f.ty < |m.types|
    ensures Front(Zeros(m, f) + FuncSite(m, f).Decls())
  {
  }

  lemma FuncNumbers(m: Module, f: Func)
    requires ValidModule(m) && f in m.funcs
    ensures f.ty < |m.types| && TransFunc(m, f).Emit? && LabelsApart(TransFunc(m, f).out)
    ensures forall l: nat | Defines(TransFunc(m, f).out, l) :: l >= |Params(m, f)|
  {
    hide SiteOk, BodyChecked, ValidModule, TransTail, TransFunc, LabelsApart, Scoped, ParamScope, ScopeVars, Numbered,
         Grows;
    EntrySite(m, f);
    FuncEmits(m, f);
    FuncScoped(m, f);
    var b := FuncSite(m, f);
    StartKind(b);
    var e := TransTail(b.cx, b.Start(), f.body);
    TailNumbers(b.cx, b.Start(), f.body, BlockAt(b.Start(), 0), KBlock);
    FrontNumbers(m, f, e.g);
    BackNumbers(b, e.g);
    NumberedJoin(e.g, Zeros(m, f) + b.Decls(), e.out);
    NumberedJoin(e.g, Zeros(m, f) + b.Decls() + e.out, Returns(b, e.g));
    NumberedApart(e.g, Params(m, f), TransFunc(m, f).out);
  }

  lemma NumberedJoin(g: Gen, s: seq<CStmt>, t: seq<CStmt>)
    requires Numbered(g, s) && Numbered(g, t)
    ensures Numbered(g, s + t)
  {
    hide IsVar, IsLabel;
  }

  lemma BackNumbers(b: BlockSite, g: Gen)
    ensures Numbered(g, Returns(b, g))
  {
  }

  lemma FrontNumbers(m: Module, f: Func, g: Gen)
    requires f.ty < |m.types| && SiteOk(FuncSite(m, f)) && FuncSite(m, f).Start().types <= g.types
    ensures Numbered(g, Zeros(m, f) + FuncSite(m, f).Decls()) && ScopeVars(g, ParamScope(Params(m, f)))
  {
    hide SiteOk;
    var b := FuncSite(m, f);
    SiteOpens(b);
    EntryTypes(m, f);
    var k := |Params(m, f) + f.locals|;
    assert forall j | 0 <= j < k :: g.types[j] == b.g.types[j];
    if b.Results() != [] {
      assert g.types[k] == b.Declared().types[k];
    }
  }

  lemma EntryTypes(m: Module, f: Func)
    requires f.ty < |m.types|
    ensures var ts := Params(m, f) + f.locals;
      |Entry(m, f).types| == |ts| && forall j | 0 <= j < |ts| :: Entry(m, f).types[j] == ts[j].Code()
  {
  }

  lemma StartKind(b: BlockSite)
    requires SiteOk(b)
    ensures b.Start().blocks != [] && KindOf(b.Start(), BlockAt(b.Start(), 0)) == b.kind
      && BlockAt(b.Start(), 0).lbl < |b.Start().types|
  {
    hide SiteOk, Sound, BlockType;
    SiteOpened(b);
  }

  lemma OneBlock(m: Module, f: Func)
    requires f.ty < |m.types|
    ensures FuncSite(m, f).g.blocks == []
    ensures SiteOk(FuncSite(m, f)) ==> |FuncSite(m, f).Start().blocks| == 1
  {
    var b := FuncSite(m, f);
    if SiteOk(b) {
      SiteOpens(b);
    }
  }

  lemma PlainEnds(m: Module, f: Func, g: Gen)
    requires f.ty < |m.types|
    ensures Straightforward(Zeros(m, f) + FuncSite(m, f).Decls()) && Straightforward(Returns(FuncSite(m, f), g))
  {
  }

  lemma FrameLayout(g: Gen, b: BlockRec, front: seq<CStmt>, e: Emission, back: seq<CStmt>)
    requires g.blocks == [b] && e.Emit? && ClosesBlock(g, b, KBlock, e) && Straightforward(front)
      && Straightforward(back)
    requires b.lbl < |g.types|
    ensures var s := front + e.out + back; Balanced(s) && UniqueLabels(s) && JumpsHome(s)
  {
    ScanPlain(front, 0);
    ScanPlain(back, 0);
    ScanConcat(front, e.out, 0);
    ScanConcat(front + e.out, back, 0);
    var s := front + e.out + back;
    assert forall l | Defines(e.out, l) :: Defines(s, l);
    forall i, l | 0 <= i < |s| && l in Targets(s[i]) ensures Defines(s, l) {
      if |front| <= i < |front| + |e.out| {
        assert l in Targets(e.out[i - |front|]);
        OnlyOpen(g.blocks, b, l);
      }
    }
  }

  lemma OnlyOpen(bs: seq<BlockRec>, b: BlockRec, l: nat)
    requires bs == [b]
    ensures OpenLabel(bs, l) ==> l == b.lbl
  {
  }
}
