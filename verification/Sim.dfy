/** How a run of the emitted code follows a run of the source: the relation between their states. */
module Sim {
  import opened Options
  import opened Wasm
  import opened CLang
  import opened Translator
  import opened Allocator
  import opened CodeSound
  import opened Statements
  import opened Scoping
  import opened Steps

  // ---------------------------------------------------------------- related states

  predicate Held(cx: Context, st: State, env: Env) {
    LocalsHeld(cx, st, env) && ValidStore(cx.m, st.store)
  }

  /** The variables of the top `n` operands. */
  function Opnds(g: Gen, n: nat): seq<nat>
    requires n <= |g.stack|
  {
    g.stack[|g.stack| - n..]
  }

  /** The locals, the store and the operands of a source state, held by the C variables. */
  predicate Rel(cx: Context, g: Gen, vals: seq<Val>, ts: seq<ValType>, st: State, env: Env) {
    && Held(cx, st, env)
    && AllTyped(vals, ts)
    && |ts| <= |g.stack| && HoldsAll(env, Opnds(g, |ts|), vals)
  }

  /** The variables in scope among the lowest `h` stack entries. */
  function Below(g: Gen, h: nat, scope: map<nat, ValType>): set<nat>
    requires h <= |g.stack|
  {
    set v | v in g.stack[..h] && v in scope
  }

  predicate Agrees(s: set<nat>, env: Env, env': Env) {
    forall v | v in s && v in env :: v in env' && env'[v] == env[v]
  }

  lemma AgreesTrans(s: set<nat>, a: Env, b: Env, c: Env)
    requires Agrees(s, a, b) && Agrees(s, b, c)
    ensures Agrees(s, a, c)
  {
  }

  lemma AgreesSub(s: set<nat>, s': set<nat>, a: Env, b: Env)
    requires Agrees(s', a, b) && s <= s'
    ensures Agrees(s, a, b)
  {
  }

  // ---------------------------------------------------------------- labels

  function LabelAt(a: Place, l: nat): nat { FindLabel(a.Body(), l, 0) }

  /** The label of an open block is in the function, and what is needed there is in scope there. */
  predicate LabelReady(a: Place, g: Gen, b: BlockRec, at: nat, scope: map<nat, ValType>) {
    && at < |a.Body()| && a.Body()[at] == LabelHere(b.lbl)
    && (forall x: nat | x < |a.cx.locals| :: x in Names(a, at))
    && (HasResult(a.cx, g, b) ==> b.lbl > 0 && b.lbl - 1 in Names(a, at))
    && b.stackBase <= |g.stack| && Below(g, b.stackBase, scope) <= Names(a, at).Keys
  }

  predicate LabelsReady(a: Place, g: Gen, scope: map<nat, ValType>) {
    forall k | 0 <= k < |g.blocks| :: LabelReady(a, g, g.blocks[k], LabelAt(a, g.blocks[k].lbl), scope)
  }

  /** Everything that holds of the emitted code at the start of an instruction sequence. */
  predicate Poised(a: Place, g: Gen, ts: seq<ValType>, pc: nat) {
    && PlaceOk(a) && GoodContext(a.cx)
    && pc <= |a.Body()|
    && Sound(a.cx, g) && Ops(g, ts)
    && |ScopeOf(a, pc)| > 0 && InView(a.cx, g, |ts|, Names(a, pc))
    && LabelsReady(a, g, Names(a, pc))
  }

  /** The scope only gained names that were handed out after `lo`. */
  predicate Widens(scope: map<nat, ValType>, scope': map<nat, ValType>, lo: nat) {
    (forall v | v in scope :: v in scope') && forall v | v in scope' :: v in scope || v >= lo
  }

  /** Later code sees the same outer operands, and the labels stay ready. */
  lemma BelowLater(cx: Context, g: Gen, g': Gen, h: nat, scope: map<nat, ValType>, scope': map<nat, ValType>)
    requires Sound(cx, g) && h <= |g.stack| && h <= |g'.stack| && g'.stack[..h] == g.stack[..h]
    requires Widens(scope, scope', |g.types|)
    ensures Below(g', h, scope') == Below(g, h, scope)
  {
    hide BlockOk, LocalsOk, Bases;
    forall v | v in g.stack[..h] ensures v < |g.types| {
      var j :| 0 <= j < h && g.stack[..h][j] == v;
      assert IsTemp(g, g.stack[j]);
    }
  }

  lemma BelowLower(g: Gen, h: nat, k: nat, scope: map<nat, ValType>)
    requires k <= h <= |g.stack|
    ensures Below(g, k, scope) <= Below(g, h, scope)
  {
    assert g.stack[..k] == g.stack[..h][..k];
  }

  lemma LabelsLater(a: Place, g: Gen, g': Gen, h: nat, scope: map<nat, ValType>, scope': map<nat, ValType>)
    requires a.fn < |a.p| && Sound(a.cx, g) && LabelsReady(a, g, scope) && Kept(g, g', h) && StackFloor(g) <= h
    requires Widens(scope, scope', |g.types|)
    ensures LabelsReady(a, g', scope')
  {
    TopBelow(a.cx, g);
    forall k | 0 <= k < |g'.blocks| ensures LabelReady(a, g', g'.blocks[k], LabelAt(a, g'.blocks[k].lbl), scope') {
      LabelLater(a, g, g', g.blocks[k], LabelAt(a, g.blocks[k].lbl), h, scope, scope');
    }
  }

  lemma LabelLater(a: Place, g: Gen, g': Gen, b: BlockRec, at: nat, h: nat, scope: map<nat, ValType>,
      scope': map<nat, ValType>)
    requires a.fn < |a.p| && Sound(a.cx, g) && LabelReady(a, g, b, at, scope) && Kept(g, g', h) && b.stackBase <= h
    requires b in g.blocks && Widens(scope, scope', |g.types|)
    ensures LabelReady(a, g', b, at, scope')
  {
    hide Names;
    assert g'.stack[..b.stackBase] == g.stack[..h][..b.stackBase];
    assert g.stack[..b.stackBase] == g.stack[..h][..b.stackBase];
    BelowLater(a.cx, g, g', b.stackBase, scope, scope');
    BlockGrows(a.cx, g, g', b);
  }

  // ---------------------------------------------------------------- outcomes

  /** The run has jumped to the label of block `l`, with the block's value in its variable. */
  ghost predicate Jumped(a: Place, g: Gen, l: nat, scope: map<nat, ValType>, start: Machine, env: Env, vs: seq<Val>,
      st': State, env': Env) {
    && l < |g.blocks|
    && var b := BlockAt(g, l);
    && Leads(a.p, start, At(a, LabelAt(a, b.lbl), env', st'.store))
    && Held(a.cx, st', env')
    && b.stackBase <= |g.stack| && Agrees(Below(g, b.stackBase, scope), env, env')
    && var rs := GenLabel(a.cx, g, b).Types();
    && |rs| <= |vs| && AllTyped(Last(vs, |rs|), rs)
    && (rs != [] ==> b.lbl > 0 && Holds(env', b.lbl - 1, vs[|vs| - 1]))
  }

  function RetVal(results: seq<ValType>, vs: seq<Val>): Option<Val> {
    if results == [] || vs == [] then None else Some(vs[|vs| - 1])
  }

  /** The run has returned to the caller. */
  ghost predicate Gave(a: Place, start: Machine, vs: seq<Val>, store': Store) {
    && Leads(a.p, start, GiveBack(a.p, RetVal(a.cx.results, vs), a.callers, store'))
    && ValidStore(a.cx.m, store')
    && |a.cx.results| <= |vs| && AllTyped(Last(vs, |a.cx.results|), a.cx.results)
  }

  /** The run stops as the source does, unless an address that wraps around hides a trap. */
  ghost predicate Halts(p: seq<CFunc>, start: Machine, why: Why) {
    why != IllTyped && (why != Wrapped ==> Leads(p, start, Stuck))
  }

  lemma HaltsBefore(p: seq<CFunc>, start0: Machine, start: Machine, why: Why)
    requires Leads(p, start0, start) && Halts(p, start, why)
    ensures Halts(p, start0, why)
  {
    hide Leads;
    if why != Wrapped {
      LeadsTrans(p, start0, start, Stuck);
    }
  }

  /**
   From `pc`, the emitted code follows the source to the outcome `o`: it falls through to `pc'`, jumps,
   returns, aborts or stops, in step with the source, and the source never gets stuck on its types.
   */
  ghost predicate Follows(a: Place, g: Gen, h: nat, pc: nat, env: Env, store: Store, o: Outcome, r: Check, g': Gen,
      pc': nat, env': Env)
    requires h <= |g.stack|
  {
    var start := At(a, pc, env, store);
    match o
    case Normal(vs, st') =>
      && r.Live?
      && Leads(a.p, start, At(a, pc', env', st'.store))
      && Rel(a.cx, g', vs, r.ts, st', env')
      && Agrees(Below(g, h, Names(a, pc)), env, env')
    case Branch(l, vs, st') => Jumped(a, g, l, Names(a, pc), start, env, vs, st', env')
    case Returned(vs, store') => Gave(a, start, vs, store')
    case Aborted => Leads(a.p, start, MAborted)
    case Stopped(why) => Halts(a.p, start, why)
    case OutOfFuel => true
  }
}
