/** Putting runs one after another. */
module SimSeq {
  import opened Wasm
  import opened CLang
  import opened Translator
  import opened Allocator
  import opened CodeSound
  import opened Layout
  import opened Scoping
  import opened Blocks
  import opened Braces
  import opened Steps
  import opened Sim
  import opened SimBlocks
  import opened SimEnds
  import opened SimArms

  lemma DeepensWidens(sc: Scope, sc': Scope, lo: nat, hi: nat)
    requires Deepens(sc, sc', lo, hi)
    ensures Widens(Visible(sc), Visible(sc'), lo)
  {
    DeepensSees(sc, sc', lo, hi);
    DeepensNew(sc, sc', lo, hi);
  }

  /** The state behind an instruction is one to go on from. */
  lemma PoisedNext(a: Place, g: Gen, ts: seq<ValType>, pc: nat, e: Emission, r: Check)
    requires Poised(a, g, ts, pc) && After(a.cx, g, ts, e, r) && r.Live?
    requires ScopedAfter(a.cx, g, ScopeOf(a, pc), e, r) && CodeAt(a, pc, e.out)
    ensures Poised(a, e.g, r.ts, pc + |e.out|) && Widens(Names(a, pc), Names(a, pc + |e.out|), |g.types|)
    ensures |ts| <= |g.stack| && |r.ts| <= |e.g.stack| && |g.stack| - |ts| == |e.g.stack| - |r.ts|
    ensures Kept(g, e.g, |g.stack| - |ts|) && StackFloor(g) <= |g.stack| - |ts|
  {
    hide Visible, ScopeFold, Scoped, InView, Sound, Ops, GoodContext, LabelReady, Kept, TypesAgree, CodeAt, Widens,
         FuncContext, Translated, LabelsReady, UniqueLabels, Deepens;
    OpsFit(g, ts);
    CodeFits(a, pc, e.out);
    ScopeNext(a, pc, e.out);
    var sc, sc' := ScopeOf(a, pc), ScopeFold(ScopeOf(a, pc), e.out);
    DeepensWidens(sc, sc', |g.types|, |e.g.types|);
    DeepensSizes(sc, sc', |g.types|, |e.g.types|);
    LabelsLater(a, g, e.g, |g.stack| - |ts|, Visible(sc), Visible(sc'));
    OpsFit(e.g, r.ts);
  }

  /** A branch seen from further on is a branch seen from here. */
  lemma JumpedFrom(a: Place, g: Gen, g1: Gen, h: nat, l: nat, scope: map<nat, ValType>, scope1: map<nat, ValType>,
      start: Machine, start1: Machine, env: Env, env1: Env, vs: seq<Val>, st: State, env': Env)
    requires Sound(a.cx, g) && Kept(g, g1, h) && StackFloor(g) <= h && Widens(scope, scope1, |g.types|)
    requires Leads(a.p, start, start1) && Agrees(Below(g, h, scope), env, env1)
      && Jumped(a, g1, l, scope1, start1, env1, vs, st, env')
    ensures Jumped(a, g, l, scope, start, env, vs, st, env')
  {
    hide Sound, Leads, Below, Held, Widens, GenLabel, Agrees, AllTyped;
    TopBelow(a.cx, g);
    var blk := BlockAt(g, l);
    SoundBlocks(a.cx, g);
    SoundRoles(a.cx, g);
    assert blk in g.blocks;
    BlockGrows(a.cx, g, g1, blk);
    assert g1.stack[..blk.stackBase] == g1.stack[..h][..blk.stackBase] == g.stack[..blk.stackBase] by {
      assert g.stack[..blk.stackBase] == g.stack[..h][..blk.stackBase];
    }
    BelowLater(a.cx, g, g1, blk.stackBase, scope, scope1);
    BelowLower(g, h, blk.stackBase, scope);
    var s := Below(g, blk.stackBase, scope);
    AgreesSub(s, Below(g, h, scope), env, env1);
    AgreesTrans(s, env, env1, env');
    LeadsTrans(a.p, start, start1, At(a, LabelAt(a, blk.lbl), env', st.store));
  }

  /** One run after another. */
  lemma FollowsThen(a: Place, g: Gen, h: nat, pc: nat, env: Env, store: Store, vs1: seq<Val>, st1: State, r1: Check,
      g1: Gen, pc1: nat, env1: Env, h1: nat, o: Outcome, r: Check, g': Gen, pc': nat, env': Env)
    requires h <= |g.stack| && h1 == h <= |g1.stack|
    requires Follows(a, g, h, pc, env, store, Normal(vs1, st1), r1, g1, pc1, env1)
    requires Follows(a, g1, h1, pc1, env1, st1.store, o, r, g', pc', env')
    requires Sound(a.cx, g) && Kept(g, g1, h) && StackFloor(g) <= h && Widens(Names(a, pc), Names(a, pc1), |g.types|)
    ensures Follows(a, g, h, pc, env, store, o, r, g', pc', env')
  {
    hide Sound, Leads, Below, Held, Widens, Agrees, Rel, Names, Jumped, Gave, Halts;
    var start, start1 := At(a, pc, env, store), At(a, pc1, env1, st1.store);
    if o.Normal? {
      LeadsTrans(a.p, start, start1, At(a, pc', env', o.st.store));
      KeptStack(g, g1, h);
      BelowLater(a.cx, g, g1, h, Names(a, pc), Names(a, pc1));
      AgreesTrans(Below(g, h, Names(a, pc)), env, env1, env');
    } else if o.Branch? {
      JumpedFrom(a, g, g1, h, o.l, Names(a, pc), Names(a, pc1), start, start1, env, env1, o.vs, o.st, env');
    } else if o.Returned? {
      GaveBefore(a, start, start1, o.vs, o.store);
    } else if o.Aborted? {
      LeadsTrans(a.p, start, start1, MAborted);
    } else if o.Stopped? {
      HaltsBefore(a.p, start, start1, o.why);
    }
  }

  /** A run that does not fall through says nothing of where it would have gone on. */
  lemma FollowsAny(a: Place, g: Gen, h: nat, pc: nat, env: Env, store: Store, o: Outcome, r: Check, g1: Gen, pc1: nat,
      r': Check, g': Gen, pc': nat, env': Env)
    requires h <= |g.stack| && Follows(a, g, h, pc, env, store, o, r, g1, pc1, env') && !o.Normal?
    ensures Follows(a, g, h, pc, env, store, o, r', g', pc', env')
  {
  }

  lemma FollowsNothing(a: Place, g: Gen, ts: seq<ValType>, pc: nat, vals: seq<Val>, st: State, env: Env)
    requires Rel(a.cx, g, vals, ts, st, env)
    ensures |ts| <= |g.stack|
      && Follows(a, g, |g.stack| - |ts|, pc, env, st.store, Normal(vals, st), Live(ts), g, pc, env)
  {
    LeadsRefl(a.p, At(a, pc, env, st.store));
  }

  // ---------------------------------------------------------------- arms in place

  /** The last arm of a block, placed in the function with the block's end behind it. */
  lemma TailPlaced(a: Place, b: BlockSite, pc: nat, g: Gen, sc: Scope, at: nat, c: Code)
    requires Sited(a, b, pc) && InArm(b, g, sc) && InView(b.cx, g, 0, Visible(sc)) && BodyChecked(b, c)
    requires at <= |a.Body()| && ScopeOf(a, at) == sc && TransTail(b.cx, g, c).Emit?
      && CodeAt(a, at, TransTail(b.cx, g, c).out)
    ensures
      var e := TransCode(b.cx, g, c);
      var r := CheckCode(b.cx, GenLabels(b.cx, g), c, []);
      && e.Emit? && CodeAt(a, at, e.out) && ScopeOf(a, at + |e.out|) == ScopeFold(sc, e.out)
      && EndAt(a, b, e.g, e.ud, ScopeFold(sc, e.out), at + |e.out|)
      && TransTail(b.cx, g, c).g == EmitEnd(b.cx, e.g, e.ud).g
      && |TransTail(b.cx, g, c).out| == |e.out| + |EmitEnd(b.cx, e.g, e.ud).out|
      && BodyOk(r, b.Results()) && r != Bad && (r.Live? ==> e.ud == 0)
  {
    hide SiteOk, InArm, InView, Visible, ScopeFold, Scoped, ScopeOf, CodeAt, TransCode, EmitEnd, ArmEnd, LabelsReady,
         CheckCode, GenLabels, PlaceOk, After, Ops, Sound;
    SitedPlace(a, b, pc);
    SiteView(b);
    ArmFacts(b, g, sc);
    ArmSound(b, g, sc);
    ArmCodeScoped(b, g, sc, c);
    var e := TransCode(b.cx, g, c);
    CodeIsSound(b.cx, g, c, []);
    AfterEmits(b.cx, g, [], e, CheckCode(b.cx, GenLabels(b.cx, g), c, []));
    CodeSplit(a, at, e.out, EmitEnd(b.cx, e.g, e.ud).out);
    ScopeNext(a, at, e.out);
  }
}
