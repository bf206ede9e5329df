/** Entering, leaving and ending a block: the emitted braces, labels and moves follow the source. */
module SimBlocks {
  import opened Options
  import opened Wasm
  import opened CLang
  import opened Translator
  import opened Allocator
  import opened CodeSound
  import opened Layout
  import opened Statements
  import opened Scoping
  import opened Blocks
  import opened Steps
  import opened Sim
  import opened SimPlain
  import opened SimJumps
  import opened SimControl

  /** The block `b` stands at position `pc` of the running function. */
  predicate Sited(a: Place, b: BlockSite, pc: nat) {
    && PlaceOk(a) && SiteOk(b) && b.cx == a.cx
    && pc <= |a.Body()| && b.sc == ScopeOf(a, pc)
    && LabelsReady(a, b.g, Visible(b.sc))
  }

  /** The operands below the block and its own results keep their values. */
  predicate Carried(b: BlockSite, env0: Env, env: Env) {
    Agrees(Outer(b), env0, env)
  }

  function Outer(b: BlockSite): set<nat> { Below(b.g, b.Keep(), Visible(b.sc)) }

  /** Everything that the code behind the block's label needs is in scope at `at`. */
  predicate Seen(a: Place, b: BlockSite, at: nat) {
    && (forall x: nat | x < |a.cx.locals| :: x in Names(a, at))
    && (b.Results() != [] ==> b.Lbl() > 0 && b.Lbl() - 1 in Names(a, at))
    && Outer(b) <= Names(a, at).Keys
  }

  predicate OwnLabel(a: Place, b: BlockSite, at: nat) {
    at < |a.Body()| && a.Body()[at] == LabelHere(b.Lbl()) && Seen(a, b, at)
  }

  // ---------------------------------------------------------------- scopes inside the block

  lemma BaseSeen(a: Place, b: BlockSite, pc: nat, at: nat)
    requires Sited(a, b, pc) && at <= |a.Body()|
    requires forall v | v in Visible(b.Base()) :: v in Names(a, at)
    ensures Seen(a, b, at)
  {
    hide Names, InView, Sound, Ops, PlaceOk, LabelsReady, GoodContext, JumpType, Deepens, Visible;
    BaseScope(b);
    SiteOpens(b);
    SiteView(b);
  }

  lemma ArmSeen(a: Place, b: BlockSite, pc: nat, g: Gen, sc: Scope, at: nat)
    requires Sited(a, b, pc) && InArm(b, g, sc) && at <= |a.Body()| && ScopeOf(a, at) == sc
    ensures Seen(a, b, at)
  {
    hide InArm, SiteOk, ScopeOf, Visible, LabelsReady, PlaceOk;
    ArmSees(b, g, sc);
    BaseSeen(a, b, pc, at);
  }

  /** Inside the block, only names handed out since its start are new. */
  lemma ArmWidens(b: BlockSite, g: Gen, sc: Scope)
    requires SiteOk(b) && InArm(b, g, sc)
    ensures Widens(Visible(b.sc), Visible(sc), |b.g.types|)
  {
    hide SiteOk, Sound, Kept, TypesAgree, InView;
    BaseScope(b);
    ArmSees(b, g, sc);
    SiteOpens(b);
    BaseNotEmpty(b);
    DeepensNew(b.sc, b.Base(), |b.g.types|, b.Lbl());
    ArmNew(b, g, sc);
  }

  lemma DeepensNew(sc: Scope, sc': Scope, lo: nat, hi: nat)
    requires Deepens(sc, sc', lo, hi)
    ensures forall v | v in Visible(sc') :: v in Visible(sc) || v >= lo
  {
    var k := |sc| - 1;
    assert Visible(sc) == Visible(sc[..k]) + sc[k];
    assert Visible(sc') == Visible(sc'[..k]) + sc'[k];
  }

  lemma ArmNew(b: BlockSite, g: Gen, sc: Scope)
    requires SiteOk(b) && InArm(b, g, sc)
    ensures forall v | v in Visible(sc) :: v in Visible(b.Base()) || v >= |b.g.types|
  {
    hide SiteOk, Sound, Kept, TypesAgree, InView, Visible, Deepens;
    SiteOpens(b);
    BaseNotEmpty(b);
    if b.kind == KIf {
      assert sc == b.Base() + [sc[|b.Base()|]];
      VisibleTop(b.Base(), sc[|b.Base()|]);
    } else {
      DeepensNew(b.Base(), sc, b.Lbl() + 1, |g.types|);
    }
  }

  lemma OuterSame(b: BlockSite, g: Gen, sc: Scope)
    requires SiteOk(b) && InArm(b, g, sc)
    ensures b.Keep() <= |g.stack| && g.stack[..b.Keep()] == b.g.stack[..b.Keep()]
    ensures Below(g, b.Keep(), Visible(sc)) == Outer(b)
  {
    hide SiteOk, Sound, TypesAgree, InView, ArmScope, Visible, Kept, Opened;
    SiteView(b);
    SiteOpens(b);
    KeptStack(b.Start(), g, b.Keep());
    assert b.Start().stack[..b.Keep()] == b.g.stack[..b.Keep()];
    ArmWidens(b, g, sc);
    BelowLater(b.cx, b.g, g, b.Keep(), Visible(b.sc), Visible(sc));
  }

  /** Code inside an arm starts in a state that the simulation can go on from. */
  lemma ArmPoised(a: Place, b: BlockSite, pc: nat, g: Gen, sc: Scope, at: nat, own: nat)
    requires Sited(a, b, pc) && InArm(b, g, sc) && InView(b.cx, g, 0, Visible(sc))
    requires at <= |a.Body()| && ScopeOf(a, at) == sc && OwnLabel(a, b, own)
    ensures Poised(a, g, [], at)
  {
    hide SiteOk, Sound, TypesAgree, InView, ArmScope, Visible, Kept, ScopeOf, LabelReady, OwnLabel, FuncContext,
         Translated;
    SiteView(b);
    ArmFacts(b, g, sc);
    ArmSees(b, g, sc);
    forall k | 0 <= k < |g.blocks| ensures LabelReady(a, g, g.blocks[k], LabelAt(a, g.blocks[k].lbl), Names(a, at)) {
      if k < |b.g.blocks| {
        OuterLabel(a, b, pc, g, sc, k);
      } else {
        assert g.blocks[k] == BlockAt(g, 0);
        InnerLabel(a, b, pc, g, sc, own);
      }
    }
  }

  lemma OuterLabel(a: Place, b: BlockSite, pc: nat, g: Gen, sc: Scope, k: nat)
    requires Sited(a, b, pc) && InArm(b, g, sc) && k < |b.g.blocks|
    ensures k < |g.blocks| && g.blocks[k] == b.g.blocks[k]
    ensures LabelReady(a, g, g.blocks[k], LabelAt(a, g.blocks[k].lbl), Visible(sc))
  {
    hide SiteOk, Sound, TypesAgree, InView, ArmScope, Visible, Kept, ScopeOf, LabelReady, FuncContext, Translated,
         UniqueLabels;
    SiteView(b);
    SiteFacts(b);
    SiteOpens(b);
    KeptStack(b.Start(), g, b.Keep());
    var blk := b.g.blocks[k];
    ArmWidens(b, g, sc);
    assert g.stack[..b.Keep()] == b.Start().stack[..b.Keep()] == b.g.stack[..b.Keep()];
    TopBelow(b.cx, b.g);
    StartPrefix(b, k);
    FrameLabel(a, b.g, g, blk, LabelAt(a, blk.lbl), b.Keep(), Visible(b.sc), Visible(sc));
  }

  lemma StartPrefix(b: BlockSite, k: nat)
    requires SiteOk(b) && k < |b.g.blocks|
    ensures k < |b.Start().blocks| && b.Start().blocks[k] == b.g.blocks[k]
  {
    hide SiteOk;
    SiteOpens(b);
  }

  lemma FrameLabel(a: Place, g: Gen, g': Gen, b: BlockRec, at: nat, h: nat, scope: map<nat, ValType>,
      scope': map<nat, ValType>)
    requires a.fn < |a.p| && Sound(a.cx, g) && LabelReady(a, g, b, at, scope) && b in g.blocks && b.stackBase <= h
    requires Grows(g, g') && h <= |g.stack| && h <= |g'.stack| && g'.stack[..h] == g.stack[..h]
    requires Widens(scope, scope', |g.types|)
    ensures LabelReady(a, g', b, at, scope')
  {
    hide Names;
    assert g'.stack[..b.stackBase] == g.stack[..h][..b.stackBase];
    assert g.stack[..b.stackBase] == g.stack[..h][..b.stackBase];
    BelowLater(a.cx, g, g', b.stackBase, scope, scope');
    BlockGrows(a.cx, g, g', b);
  }

  lemma InnerLabel(a: Place, b: BlockSite, pc: nat, g: Gen, sc: Scope, own: nat)
    requires Sited(a, b, pc) && InArm(b, g, sc) && OwnLabel(a, b, own)
    ensures g.blocks != [] && LabelAt(a, b.Lbl()) == own && BlockAt(g, 0).lbl == b.Lbl()
    ensures LabelReady(a, g, BlockAt(g, 0), own, Visible(sc))
  {
    hide SiteOk, Sound, TypesAgree, InView, ArmScope, Visible, Kept, ScopeOf, LabelsReady, FuncContext, Translated,
         Ops, GenLabels;
    ArmFacts(b, g, sc);
    OuterSame(b, g, sc);
    LabelFound(a.Body(), b.Lbl(), own, 0);
    ResultsHere(b, g);
  }

  lemma ResultsHere(b: BlockSite, g: Gen)
    requires g.blocks != [] && BlockOk(b.cx, g, BlockAt(g, 0))
      && GenLabel(b.cx, g, BlockAt(g, 0)).results == b.Results()
    ensures HasResult(b.cx, g, BlockAt(g, 0)) <==> b.Results() != []
  {
  }

  // ---------------------------------------------------------------- entering

  /** The declaration of a result variable touches nothing that is in use. */
  lemma DeclApart(b: BlockSite)
    requires SiteOk(b)
    ensures |b.g.types| >= |b.cx.locals| && forall j | 0 <= j < |b.g.stack| :: b.g.stack[j] != |b.g.types|
  {
    forall j | 0 <= j < |b.g.stack| ensures b.g.stack[j] != |b.g.types| {
      assert IsTemp(b.g, b.g.stack[j]);
    }
  }

  lemma SimDecls(a: Place, b: BlockSite, pc: nat, vals: seq<Val>, st: State, env: Env)
    returns (env': Env)
    requires Sited(a, b, pc) && CodeAt(a, pc, b.Decls()) && Rel(a.cx, b.g, vals, b.ts, st, env)
    ensures Leads(a.p, At(a, pc, env, st.store), At(a, pc + |b.Decls()|, env', st.store))
    ensures Rel(a.cx, b.g, vals, b.ts, st, env') && Carried(b, env, env')
    ensures pc + |b.Decls()| <= |a.Body()| && ScopeOf(a, pc + |b.Decls()|) == b.Base()
  {
    hide SiteOk, LabelsReady, PlaceOk, CodeAt, ScopeOf, Leads, LocalsHeld, ValidStore, Visible, Names, Rel;
    SitedPlace(a, b, pc);
    DeclApart(b);
    BaseScope(b);
    CodeFits(a, pc, b.Decls());
    ScopeNext(a, pc, b.Decls());
    env' := env;
    if b.Results() == [] {
      LeadsRefl(a.p, At(a, pc, env, st.store));
      AgreesSelf(Outer(b), env);
    } else {
      env' := env - {|b.g.types|};
      assert Plain(b.Decls()[0], Names(a, pc), env, st.store) == Some((env', st.store));
      assert b.Decls() == [b.Decls()[0]];
      StepPlain(a, pc, b.Decls()[0], env, st.store, env', st.store);
      var ws := {|b.g.types|};
      RelParts(a.cx, b.g, vals, b.ts, st, env);
      LocalsKept(a.cx, st, env, env', ws);
      assert b.g.stack == b.g.stack[..|b.g.stack| - 0];
      RelPop(a.cx, b.g, b.g, 0, b.ts, vals, st, st, env, env', ws);
      assert vals[..|vals| - 0] == vals && b.ts[..|b.ts| - 0] == b.ts;
      BelowKept(b.g, b.Keep(), 0, Visible(b.sc), env, env', ws);
    }
  }

  lemma SitedPlace(a: Place, b: BlockSite, pc: nat)
    requires Sited(a, b, pc)
    ensures a.fn < |a.p| && b.cx == a.cx && UniqueLabels(a.Body()) && Names(a, pc) == Visible(b.sc)
  {
    hide SiteOk, LabelsReady, ScopeOf, Visible, FuncContext, Translated;
  }

  lemma CodeFits(a: Place, pc: nat, s: seq<CStmt>)
    requires CodeAt(a, pc, s)
    ensures pc + |s| <= |a.Body()|
  {
  }

  /** The header of a loop: the jump into it and its label. */
  lemma LoopPlaces(a: Place, b: BlockSite, pc: nat)
    requires Sited(a, b, pc) && b.kind == KLoop
    requires CodeAt(a, pc + |b.Decls()|, b.Opens()) && ScopeOf(a, pc + |b.Decls()|) == b.Base()
    ensures
      var q := pc + |b.Decls()|;
      && CodeAt(a, q, [Goto(b.Lbl())]) && CodeAt(a, q + 1, [LabelHere(b.Lbl())]) && OwnLabel(a, b, q + 1)
      && ScopeOf(a, q + 1) == ScopeOf(a, q + 2) == b.Base()
  {
    hide SiteOk, LabelsReady, PlaceOk, CodeAt, ScopeOf, Visible, Outer, ScopeFold;
    SitedPlace(a, b, pc);
    var q := pc + |b.Decls()|;
    assert b.Opens() == [Goto(b.Lbl())] + [LabelHere(b.Lbl())];
    CodeSplit(a, q, [Goto(b.Lbl())], [LabelHere(b.Lbl())]);
    CodeFits(a, q, b.Opens());
    StmtAt(a, q + 1, LabelHere(b.Lbl()));
    ScopeNext(a, q, [Goto(b.Lbl())]);
    ScopeNext(a, q + 1, [LabelHere(b.Lbl())]);
    PlainScope(b.Base(), b.Lbl());
    assert Names(a, q + 1) == Visible(b.Base());
    BaseSeen(a, b, pc, q + 1);
  }

  /** From the header of a loop to its label. */
  lemma SimLoopEntry(a: Place, b: BlockSite, pc: nat, st: State, env: Env)
    returns (env': Env)
    requires Sited(a, b, pc) && b.kind == KLoop && Held(a.cx, st, env)
    requires CodeAt(a, pc + |b.Decls()|, b.Opens()) && ScopeOf(a, pc + |b.Decls()|) == b.Base()
    ensures OwnLabel(a, b, pc + |b.Decls()| + 1) && ScopeOf(a, pc + |b.Decls()| + 2) == b.Base()
    ensures Leads(a.p, At(a, pc + |b.Decls()|, env, st.store), At(a, pc + |b.Decls()| + 1, env', st.store))
    ensures Held(a.cx, st, env') && Carried(b, env, env')
  {
    hide SiteOk, LabelsReady, PlaceOk, CodeAt, ScopeOf, Leads, Held, Visible, Outer, Landed, ScopeFold;
    SitedPlace(a, b, pc);
    LoopPlaces(a, b, pc);
    var q := pc + |b.Decls()|;
    StepGoto(a, q, b.Lbl(), q + 1, env, st.store);
    env' := Landed(a, q + 1, env);
    LandedHeld(a, q + 1, st, env);
    LandedAgrees(a, q + 1, Outer(b), env);
  }

  lemma PlainScope(sc: Scope, l: nat)
    ensures ScopeFold(sc, [Goto(l)]) == sc && ScopeFold(sc, [LabelHere(l)]) == sc
  {
    ScopeOne(sc, Goto(l));
    ScopeOne(sc, LabelHere(l));
  }
}
