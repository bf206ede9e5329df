/** Running an arm of a block: each way of leaving it. */
module SimArms {
  import opened Wasm
  import opened CLang
  import opened Translator
  import opened Allocator
  import opened CodeSound
  import opened Forms
  import opened Layout
  import opened Statements
  import opened Scoping
  import opened Blocks
  import opened Steps
  import opened Sim
  import opened SimJumps
  import opened SimControl
  import opened SimBlocks
  import opened SimEnds

  // ---------------------------------------------------------------- falling out of an arm

  /** The moves at the end of an arm put its result in the block's variable. */
  lemma SimLeave(a: Place, b: BlockSite, pc: nat, g: Gen, sc: Scope, at: nat, st: State, vs: seq<Val>,
      env0: Env, env: Env)
    returns (env': Env)
    requires Sited(a, b, pc) && ArmEnd(b, g, 0, sc) && ScopeOf(a, at) == sc && at <= |a.Body()|
    requires CodeAt(a, at, LeaveOut(b, g, 0)) && Rel(a.cx, g, vs, b.Results(), st, env) && Carried(b, env0, env)
    ensures Leads(a.p, At(a, at, env, st.store), At(a, at + |LeaveOut(b, g, 0)|, env', st.store))
    ensures Held(a.cx, st, env') && Carried(b, env0, env') && ResultHeld(b.Results(), b.Lbl(), vs, env')
  {
    hide SiteOk, PlaceOk, LabelsReady, InView, CodeAt, ScopeOf, LeaveOut, Rel, Held, Leads, Outer, Agrees, ArmEnd,
         AllTyped, Typed;
    LeaveOuts(b, g, sc);
    env' := env;
    if b.Results() == [] {
      RelParts(a.cx, g, vs, b.Results(), st, env);
      LeadsRefl(a.p, At(a, at, env, st.store));
      TypedNone(vs);
    } else {
      env' := SimLeaveOne(a, b, pc, g, sc, at, st, vs, env0, env);
    }
  }

  lemma LeaveOuts(b: BlockSite, g: Gen, sc: Scope)
    requires SiteOk(b) && ArmEnd(b, g, 0, sc)
    ensures b.Results() == [] ==> LeaveOut(b, g, 0) == []
    ensures b.Results() != [] ==>
      b.Lbl() > 0 && |g.stack| > 0 && LeaveOut(b, g, 0) == [Assign(Old(b.Lbl() - 1), Var(Top(g)))]
    ensures |b.Results()| <= 1
  {
    hide SiteOk, InArm, LeaveArm, InView;
    LeaveScoped(b, g, 0, sc);
    SiteFacts(b);
    SiteOpens(b);
  }

  lemma SimLeaveOne(a: Place, b: BlockSite, pc: nat, g: Gen, sc: Scope, at: nat, st: State, vs: seq<Val>,
      env0: Env, env: Env)
    returns (env': Env)
    requires Sited(a, b, pc) && ArmEnd(b, g, 0, sc) && ScopeOf(a, at) == sc && at <= |a.Body()|
    requires b.Results() != [] && b.Lbl() > 0 && |g.stack| > 0 && CodeAt(a, at, [Assign(Old(b.Lbl() - 1), Var(Top(g)))])
    requires Rel(a.cx, g, vs, b.Results(), st, env) && Carried(b, env0, env)
    ensures Leads(a.p, At(a, at, env, st.store), At(a, at + 1, env', st.store))
    ensures Held(a.cx, st, env') && Carried(b, env0, env') && ResultHeld(b.Results(), b.Lbl(), vs, env')
  {
    hide SiteOk, InView, Ops, CodeAt, ScopeOf, LabelsReady, Rel, Held, Leads, Outer, Agrees, FuncContext, Translated,
         UniqueLabels, Visible, InArm, GenLabel, GenLabels, AllTyped, Typed;
    SiteFacts(b);
    SiteOpens(b);
    RelParts(a.cx, g, vs, b.Results(), st, env);
    ArmFacts(b, g, sc);
    ArmSound(b, g, sc);
    TopHeld(a.cx, g, vs, b.Results(), st, env);
    BlockIn(g);
    env' := MoveResult(a, g, |b.Results()|, BlockAt(g, 0), at, Top(g), vs[|vs| - 1], st, env);
    DeclApart(b);
    OuterUntouched(b, b.Lbl() - 1, env, env');
    AgreesTrans(Outer(b), env0, env, env');
    ResultIs(b.Results(), b.Lbl(), vs, env');
  }

  lemma ResultIs(rs: seq<ValType>, lbl: nat, vs: seq<Val>, env: Env)
    requires AllTyped(vs, rs) && |rs| > 0 && lbl > 0 && Holds(env, lbl - 1, vs[|vs| - 1])
    ensures ResultHeld(rs, lbl, vs, env)
  {
    assert Last(vs, |rs|) == vs;
  }

  lemma TypedNone(vs: seq<Val>)
    ensures AllTyped(Last(vs, 0), [])
  {
  }

  lemma BlockIn(g: Gen)
    requires g.blocks != []
    ensures BlockAt(g, 0) in g.blocks
  {
  }

  lemma ArmSound(b: BlockSite, g: Gen, sc: Scope)
    requires InArm(b, g, sc)
    ensures Sound(b.cx, g)
  {
  }

  /** Past the label to the closing brace. */
  lemma SimLabel(a: Place, b: BlockSite, pc: nat, g: Gen, ud: nat, sc: Scope, at: nat, start: Machine,
      store: Store, env: Env)
    requires Sited(a, b, pc) && EndAt(a, b, g, ud, sc, at) && b.kind != KLoop
    requires Leads(a.p, start, At(a, at + |LeaveOut(b, g, ud)| + 1, env, store))
    ensures Leads(a.p, start, At(a, CloseAt(b, g, ud, at), env, store))
  {
    hide Sited, EndAt, LeaveOut, CodeAt, Leads, OwnLabel;
    SitedPlace(a, b, pc);
    LabelPlaces(a, b, pc, g, ud, sc, at);
    var q := at + |LeaveOut(b, g, ud)| + 1;
    StepLabel(a, q, b.Lbl(), env, store);
    LeadsTrans(a.p, start, At(a, q, env, store), At(a, q + 1, env, store));
  }

  /** Falling through the end of the last arm. */
  lemma SimFall(a: Place, b: BlockSite, pc: nat, g: Gen, sc: Scope, at: nat, st: State, vs: seq<Val>,
      env0: Env, env: Env)
    returns (env': Env)
    requires Sited(a, b, pc) && EndAt(a, b, g, 0, sc, at) && Rel(a.cx, g, vs, b.Results(), st, env)
      && Carried(b, env0, env)
    ensures Leads(a.p, At(a, at, env, st.store), At(a, CloseAt(b, g, 0, at), env', st.store))
    ensures Held(a.cx, st, env') && Carried(b, env0, env') && ResultHeld(b.Results(), b.Lbl(), vs, env')
  {
    hide Sited, LeaveOut, CodeAt, Leads, ArmEnd, Held, Rel, ResultHeld, Carried, Seen, ScopeOf, EmitEnd, Landed;
    SitedPlace(a, b, pc);
    EndPlaces(a, b, pc, g, 0, sc, at);
    CodeFits(a, at, LeaveOut(b, g, 0));
    var env1 := SimLeave(a, b, pc, g, sc, at, st, vs, env0, env);
    env' := env1;
    if b.kind != KLoop {
      LabelPlaces(a, b, pc, g, 0, sc, at);
      var q := at + |LeaveOut(b, g, 0)|;
      StepGoto(a, q, b.Lbl(), q + 1, env1, st.store);
      env' := Landed(a, q + 1, env1);
      SeenLanded(a, b, q + 1, st, vs, env0, env1);
      LeadsTrans(a.p, At(a, at, env, st.store), At(a, q, env1, st.store), At(a, q + 1, env', st.store));
      SimLabel(a, b, pc, g, 0, sc, at, At(a, at, env, st.store), st.store, env');
    }
  }

  // ---------------------------------------------------------------- leaving by other ways

  /** A branch to the block itself arrives with its result at its label. */
  lemma JumpedHome(a: Place, b: BlockSite, pc: nat, g: Gen, sc: Scope, own: nat, start: Machine, env0: Env, env: Env,
      vs: seq<Val>, st: State, env': Env)
    requires Sited(a, b, pc) && InArm(b, g, sc) && OwnLabel(a, b, own) && Carried(b, env0, env)
    requires Jumped(a, g, 0, Visible(sc), start, env, vs, st, env')
    ensures Leads(a.p, start, At(a, own, env', st.store)) && Held(a.cx, st, env') && Carried(b, env0, env')
    ensures b.kind != KLoop ==> ResultHeld(b.Results(), b.Lbl(), vs, env')
  {
    hide SiteOk, InArm, Sound, Visible, LabelsReady, Leads, Held, Agrees, GenLabel, GenLabels, Outer, AllTyped, ScopeOf,
         Seen, FuncContext, Translated;
    ArmFacts(b, g, sc);
    OuterSame(b, g, sc);
    LabelFound(a.Body(), b.Lbl(), own, 0);
    AgreesTrans(Outer(b), env0, env, env');
  }

  /** A branch to a block further out. */
  lemma JumpedOut(a: Place, b: BlockSite, pc: nat, g: Gen, sc: Scope, l: nat, start0: Machine, start: Machine,
      env0: Env, env: Env, vs: seq<Val>, st: State, env': Env)
    requires Sited(a, b, pc) && InArm(b, g, sc) && Carried(b, env0, env) && Leads(a.p, start0, start)
    requires Jumped(a, g, l + 1, Visible(sc), start, env, vs, st, env')
    ensures Jumped(a, b.g, l, Visible(b.sc), start0, env0, vs, st, env')
  {
    hide SiteOk, InArm, Visible, LabelsReady, Leads, Held, Agrees, GenLabel, Outer, AllTyped, ScopeOf, PlaceOk, Below,
         Sound;
    OuterBlock(b, g, sc, l);
    var blk := BlockAt(b.g, l);
    OuterBelow(b, g, sc, blk);
    LeadsTrans(a.p, start0, start, At(a, LabelAt(a, blk.lbl), env', st.store));
    var s := Below(b.g, blk.stackBase, Visible(b.sc));
    AgreesSub(s, Outer(b), env0, env);
    AgreesTrans(s, env0, env, env');
  }

  lemma OuterBlock(b: BlockSite, g: Gen, sc: Scope, l: nat)
    requires SiteOk(b) && InArm(b, g, sc) && l + 1 < |g.blocks|
    ensures l < |b.g.blocks| && BlockAt(g, l + 1) == BlockAt(b.g, l)
    ensures GenLabel(b.cx, g, BlockAt(g, l + 1)) == GenLabel(b.cx, b.g, BlockAt(b.g, l))
    ensures BlockAt(b.g, l) in b.g.blocks
  {
    hide SiteOk, InArm, Sound, Visible, Opened, Ops, InView, GenLabel, GenLabels, BlockOk, KindOf, TypeIndexOf,
         GoodContext, Grows;
    ArmFacts(b, g, sc);
    SiteView(b);
    var n := |b.g.blocks|;
    assert g.blocks[n - 1 - l] == g.blocks[..n][n - 1 - l];
    ArmGrows(b, g, sc);
    SoundBlocks(b.cx, b.g);
    SoundRoles(b.cx, b.g);
    BlockGrows(b.cx, b.g, g, BlockAt(b.g, l));
  }

  lemma ArmGrows(b: BlockSite, g: Gen, sc: Scope)
    requires SiteOk(b) && InArm(b, g, sc)
    ensures Grows(b.g, g)
  {
    hide SiteOk, Sound, Visible;
    SiteOpens(b);
  }

  lemma OuterBelow(b: BlockSite, g: Gen, sc: Scope, blk: BlockRec)
    requires SiteOk(b) && InArm(b, g, sc) && blk in b.g.blocks && blk.stackBase <= |g.stack|
    ensures blk.stackBase <= b.Keep()
      && Below(g, blk.stackBase, Visible(sc)) == Below(b.g, blk.stackBase, Visible(b.sc)) <= Outer(b)
  {
    hide SiteOk, InArm, Visible, Below, Sound;
    SiteView(b);
    SiteFacts(b);
    TopBelow(b.cx, b.g);
    OuterSame(b, g, sc);
    ArmWidens(b, g, sc);
    var k :| 0 <= k < |b.g.blocks| && b.g.blocks[k] == blk;
    assert g.stack[..blk.stackBase] == g.stack[..b.Keep()][..blk.stackBase];
    assert b.g.stack[..blk.stackBase] == b.g.stack[..b.Keep()][..blk.stackBase];
    BelowLater(b.cx, b.g, g, blk.stackBase, Visible(b.sc), Visible(sc));
    BelowLower(b.g, b.Keep(), blk.stackBase, Visible(b.sc));
  }

  // ---------------------------------------------------------------- the block as a whole

  /** What a run of the whole block must come to, from the state `env0` in front of it. */
  ghost predicate BlockFollows(a: Place, b: BlockSite, pc: nat, env0: Env, store0: Store, o: Outcome, g': Gen,
      pc': nat, env': Env) {
    |b.ts| <= |b.g.stack| &&
    Follows(a, b.g, |b.g.stack| - |b.ts|, pc, env0, store0, o, Live(b.Rest() + b.Results()), g', pc', env')
  }

  lemma FollowsEnd(a: Place, b: BlockSite, pc: nat, env0: Env, store0: Store, vs: seq<Val>, st: State, g': Gen,
      pc': nat, env': Env)
    requires Sited(a, b, pc) && Leads(a.p, At(a, pc, env0, store0), At(a, pc', env', st.store))
    requires Rel(a.cx, g', vs, b.Rest() + b.Results(), st, env') && Carried(b, env0, env')
    ensures BlockFollows(a, b, pc, env0, store0, Normal(vs, st), g', pc', env')
  {
    hide SiteOk, Visible, LabelsReady, Leads, Rel, Agrees, ScopeOf, PlaceOk, Below;
    SitedPlace(a, b, pc);
    SiteFacts(b);
    var h := |b.g.stack| - |b.ts|;
    BelowLower(b.g, b.Keep(), h, Visible(b.sc));
    AgreesSub(Below(b.g, h, Visible(b.sc)), Outer(b), env0, env');
  }

  /** An arm's run ends the block by its label, a branch outward, a return, a trap or `unreachable`. */
  lemma SimExit(a: Place, b: BlockSite, pc: nat, g: Gen, sc: Scope, at: nat, gE: Gen, ud: nat, scE: Scope, end: nat,
                vals: seq<Val>, st0: State, env0: Env, store: Store, env: Env, o: Outcome, r: Check, g1: Gen,
                    pc1: nat, env1: Env)
    returns (env': Env)
    requires Sited(a, b, pc) && InArm(b, g, sc) && ScopeOf(a, at) == sc && EndAt(a, b, gE, ud, scE, end)
    requires Rel(a.cx, b.g, vals, b.ts, st0, env0)
    requires Leads(a.p, At(a, pc, env0, st0.store), At(a, at, env, store)) && Carried(b, env0, env)
    requires Follows(a, g, |g.stack|, at, env, store, o, r, g1, pc1, env1) && !o.Normal?
    requires b.kind == KLoop ==> !(o.Branch? && o.l == 0)
    ensures BlockFollows(a, b, pc, env0, st0.store, Leave(o, RestVals(b, vals), |b.Results()|),
                         EmitEnd(b.cx, gE, ud).g, end + |EmitEnd(b.cx, gE, ud).out|, env')
  {
    hide Sited, InArm, ArmEnd, CodeAt, Rel, Leads, Carried, Jumped, Gave, LeaveOut, EmitEnd, Visible, ScopeOf, Held,
         ResultHeld, BlockFollows, RestVals, Names, Halts;
    SitedPlace(a, b, pc);
    NamesIs(a, at);
    var start0, start := At(a, pc, env0, st0.store), At(a, at, env, store);
    env' := env1;
    var g', pc' := EmitEnd(b.cx, gE, ud).g, end + |EmitEnd(b.cx, gE, ud).out|;
    if o.Branch? {
      if o.l == 0 {
        env' := SimHome(a, b, pc, g, sc, at, gE, ud, scE, end, vals, st0, env0, store, env, o.vs, o.st, env1);
      } else {
        JumpedOut(a, b, pc, g, sc, o.l - 1, start0, start, env0, env, o.vs, o.st, env1);
        FollowsOut(a, b, pc, env0, st0.store, o.l - 1, o.vs, o.st, g', pc', env1);
      }
    } else if o.Returned? {
      GaveBefore(a, start0, start, o.vs, o.store);
      FollowsGave(a, b, pc, env0, st0.store, o.vs, o.store, g', pc', env1);
    } else {
      if o.Aborted? {
        LeadsTrans(a.p, start0, start, MAborted);
      } else if o.Stopped? {
        HaltsBefore(a.p, start0, start, o.why);
      }
      FollowsRest(a, b, pc, env0, st0.store, o, g', pc', env1);
    }
  }

  lemma NamesIs(a: Place, at: nat)
    ensures Names(a, at) == Visible(ScopeOf(a, at))
  {
  }

  lemma SimHome(a: Place, b: BlockSite, pc: nat, g: Gen, sc: Scope, at: nat, gE: Gen, ud: nat, scE: Scope, end: nat,
                vals: seq<Val>, st0: State, env0: Env, store: Store, env: Env, vs: seq<Val>, st: State, env1: Env)
    returns (env': Env)
    requires Sited(a, b, pc) && InArm(b, g, sc) && ScopeOf(a, at) == sc && EndAt(a, b, gE, ud, scE, end)
      && b.kind != KLoop
    requires Rel(a.cx, b.g, vals, b.ts, st0, env0)
    requires Leads(a.p, At(a, pc, env0, st0.store), At(a, at, env, store)) && Carried(b, env0, env)
    requires Jumped(a, g, 0, Visible(sc), At(a, at, env, store), env, vs, st, env1)
    ensures BlockFollows(a, b, pc, env0, st0.store, Leave(Branch(0, vs, st), RestVals(b, vals), |b.Results()|),
                         EmitEnd(b.cx, gE, ud).g, end + |EmitEnd(b.cx, gE, ud).out|, env')
  {
    hide Sited, InArm, ArmEnd, CodeAt, Rel, Leads, Carried, Jumped, LeaveOut, EmitEnd, Visible, ScopeOf, Held,
         BlockFollows, RestVals, OwnLabel, AllTyped;
    SitedPlace(a, b, pc);
    LabelPlaces(a, b, pc, gE, ud, scE, end);
    var own := end + |LeaveOut(b, gE, ud)| + 1;
    var start0, start := At(a, pc, env0, st0.store), At(a, at, env, store);
    JumpedHome(a, b, pc, g, sc, own, start, env0, env, vs, st, env1);
    LeadsTrans(a.p, start0, start, At(a, own, env1, st.store));
    SimLabel(a, b, pc, gE, ud, scE, end, start0, st.store, env1);
    env' := SimFinish(a, b, pc, gE, ud, scE, end, vals, st0, env0, start0, st, vs, env1);
    FollowsEnd(a, b, pc, env0, st0.store, RestVals(b, vals) + Last(vs, |b.Results()|), st, EmitEnd(b.cx, gE, ud).g,
               end + |EmitEnd(b.cx, gE, ud).out|, env');
  }

  lemma FollowsOut(a: Place, b: BlockSite, pc: nat, env0: Env, store0: Store, l: nat, vs: seq<Val>, st: State,
      g': Gen, pc': nat, env': Env)
    requires Sited(a, b, pc) && Jumped(a, b.g, l, Visible(b.sc), At(a, pc, env0, store0), env0, vs, st, env')
    ensures BlockFollows(a, b, pc, env0, store0, Branch(l, vs, st), g', pc', env')
  {
    hide SiteOk, Jumped, LabelsReady, ScopeOf, Visible, PlaceOk;
    SitedPlace(a, b, pc);
    SiteFacts(b);
  }

  lemma GaveBefore(a: Place, start0: Machine, start: Machine, vs: seq<Val>, store: Store)
    requires Leads(a.p, start0, start) && Gave(a, start, vs, store)
    ensures Gave(a, start0, vs, store)
  {
    hide Leads;
    LeadsTrans(a.p, start0, start, GiveBack(a.p, RetVal(a.cx.results, vs), a.callers, store));
  }

  lemma FollowsGave(a: Place, b: BlockSite, pc: nat, env0: Env, store0: Store, vs: seq<Val>, store: Store, g': Gen,
      pc': nat, env': Env)
    requires Sited(a, b, pc) && Gave(a, At(a, pc, env0, store0), vs, store)
    ensures BlockFollows(a, b, pc, env0, store0, Returned(vs, store), g', pc', env')
  {
    hide SiteOk, Gave, LabelsReady, ScopeOf, Visible, PlaceOk;
    SiteFacts(b);
  }

  lemma FollowsRest(a: Place, b: BlockSite, pc: nat, env0: Env, store0: Store, o: Outcome, g': Gen, pc': nat, env': Env)
    requires Sited(a, b, pc) && (o.Aborted? || o.OutOfFuel? || o.Stopped?)
    requires o.Stopped? ==> Halts(a.p, At(a, pc, env0, store0), o.why)
    requires o.Aborted? ==> Leads(a.p, At(a, pc, env0, store0), MAborted)
    ensures BlockFollows(a, b, pc, env0, store0, o, g', pc', env')
  {
    hide SiteOk, LabelsReady, ScopeOf, Visible, PlaceOk;
    SiteFacts(b);
  }

  /** The last arm of a block, run to the end of the block. */
  lemma SimTail(a: Place, b: BlockSite, pc: nat, g: Gen, sc: Scope, at: nat, gE: Gen, ud: nat, scE: Scope, end: nat,
                vals: seq<Val>, st0: State, env0: Env, store: Store, env: Env, o: Outcome, r: Check, env1: Env)
    returns (env': Env)
    requires Sited(a, b, pc) && InArm(b, g, sc) && ScopeOf(a, at) == sc && EndAt(a, b, gE, ud, scE, end)
    requires Rel(a.cx, b.g, vals, b.ts, st0, env0)
    requires Leads(a.p, At(a, pc, env0, st0.store), At(a, at, env, store)) && Carried(b, env0, env)
    requires Follows(a, g, |g.stack|, at, env, store, o, r, gE, end, env1) && BodyOk(r, b.Results())
      && (r.Live? ==> ud == 0)
    requires b.kind == KLoop ==> !(o.Branch? && o.l == 0)
    ensures BlockFollows(a, b, pc, env0, st0.store, Leave(o, RestVals(b, vals), |b.Results()|),
                         EmitEnd(b.cx, gE, ud).g, end + |EmitEnd(b.cx, gE, ud).out|, env')
  {
    hide Sited, InArm, ArmEnd, CodeAt, Rel, Leads, Carried, LeaveOut, EmitEnd, Visible, ScopeOf, Held, BlockFollows,
         RestVals, Follows;
    if o.Normal? {
      FollowsNormal(a, g, at, env, store, o.vs, o.st, r, gE, end, env1);
      ArmCarried(a, b, pc, g, sc, at, env0, env, env1);
      var start0 := At(a, pc, env0, st0.store);
      var env2 := SimFall(a, b, pc, gE, scE, end, o.st, o.vs, env0, env1);
      LeadsTrans(a.p, start0, At(a, at, env, store), At(a, end, env1, o.st.store));
      LeadsTrans(a.p, start0, At(a, end, env1, o.st.store), At(a, CloseAt(b, gE, 0, end), env2, o.st.store));
      env' := SimFinish(a, b, pc, gE, 0, scE, end, vals, st0, env0, start0, o.st, o.vs, env2);
      FollowsEnd(a, b, pc, env0, st0.store, RestVals(b, vals) + Last(o.vs, |b.Results()|), o.st,
          EmitEnd(b.cx, gE, ud).g, end + |EmitEnd(b.cx, gE, ud).out|, env');
    } else {
      env' := SimExit(a, b, pc, g, sc, at, gE, ud, scE, end, vals, st0, env0, store, env, o, r, gE, end, env1);
    }
  }

  lemma FollowsNormal(a: Place, g: Gen, pc: nat, env: Env, store: Store, vs: seq<Val>, st: State, r: Check, g': Gen,
      pc': nat, env': Env)
    requires Follows(a, g, |g.stack|, pc, env, store, Normal(vs, st), r, g', pc', env')
    ensures r.Live? && Leads(a.p, At(a, pc, env, store), At(a, pc', env', st.store))
      && Rel(a.cx, g', vs, r.ts, st, env')
    ensures Agrees(Below(g, |g.stack|, Names(a, pc)), env, env')
  {
  }

  /** What code in an arm keeps includes the operands below the block. */
  lemma ArmCarried(a: Place, b: BlockSite, pc: nat, g: Gen, sc: Scope, at: nat, env0: Env, env: Env, env1: Env)
    requires Sited(a, b, pc) && InArm(b, g, sc) && ScopeOf(a, at) == sc && Carried(b, env0, env)
    requires Agrees(Below(g, |g.stack|, Names(a, at)), env, env1)
    ensures Carried(b, env0, env1)
  {
    hide SiteOk, InArm, Below, Agrees, ScopeOf, PlaceOk, LabelsReady, Visible;
    OuterSame(b, g, sc);
    BelowLower(g, |g.stack|, b.Keep(), Visible(sc));
    AgreesSub(Outer(b), Below(g, |g.stack|, Visible(sc)), env, env1);
    AgreesTrans(Outer(b), env0, env, env1);
  }
}
