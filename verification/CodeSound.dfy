/**
 Translating checked code never faults, keeps the allocator invariant and leaves everything below the
 code's operands as it was.
 */
module CodeSound {
  import opened Bits
  import opened Options
  import opened Wasm
  import opened CLang
  import opened Translator
  import opened Allocator

  predicate SmallIndex(cx: Context) { |cx.m.types| <= 0x1_0000_0000 }

  /** The state after translating code with operand types `ts`, given how its check came out. */
  predicate After(cx: Context, g: Gen, ts: seq<ValType>, e: Emission, r: Check) {
    && e.Emit?
    && |ts| <= |g.stack|
    && Sound(cx, e.g)
    && Kept(g, e.g, |g.stack| - |ts|)
    && (r.Live? ==> e.ud == 0 && Ops(e.g, r.ts) && |e.g.stack| == |g.stack| - |ts| + |r.ts|)
    && (r.Dead? ==> e.ud == 1)
  }

  // ---------------------------------------------------------------- straight-line instructions

  /** The operand types that checking leaves behind an instruction's operands. */
  function Outs(cx: Context, g: Gen, i: Instr, ts: seq<ValType>): seq<ValType>
    requires Operands(i) <= |ts|
  {
    if MustPush(i) then (match Pushes(cx, g, i) case None => [] case Some(t) => [t])
    else if Peeks(i) && Operands(i) > 0 then [ts[|ts| - Operands(i)]]
    else []
  }

  /** How checking an instruction relates to the way the translator pops, peeks and pushes. */
  lemma CheckShape(cx: Context, g: Gen, i: Instr, ts: seq<ValType>)
    requires IsStraight(i) && CheckStraight(cx, i, ts).Live? && LocalsOk(cx, g)
    ensures Operands(i) <= |ts|
    ensures Peeks(i) ==> Operands(i) > 0 && !MustPush(i)
    ensures MustPush(i) ==> Pushes(cx, g, i).Some?
    ensures CheckStraight(cx, i, ts) == Live(ts[..|ts| - Operands(i)] + Outs(cx, g, i, ts))
  {
    if MustPush(i) {
      PushShape(cx, g, i, ts);
    } else if Peeks(i) {
      PeekShape(cx, g, i, ts);
    } else {
      PopShape(cx, g, i, ts);
    }
  }

  lemma PopPushLive(ts: seq<ValType>, us: seq<ValType>, out: seq<ValType>)
    requires PopPush(ts, us, out).Live?
    ensures |us| <= |ts| && PopPush(ts, us, out) == Live(ts[..|ts| - |us|] + out)
  {
  }

  /** The operand types that an instruction which pushes takes away. */
  lemma PushPops(cx: Context, g: Gen, i: Instr, ts: seq<ValType>) returns (us: seq<ValType>)
    requires IsStraight(i) && CheckStraight(cx, i, ts).Live? && LocalsOk(cx, g) && MustPush(i)
    ensures |us| == Operands(i) && !Peeks(i) && Pushes(cx, g, i).Some?
    ensures CheckStraight(cx, i, ts) == PopPush(ts, us, [Pushes(cx, g, i).value])
  {
    hide PopPush, Pow2, ValidAccess, Typed;
    us := [];
    match i
    case LocalGet(x) => assert g.types[x] == cx.locals[x].Code();
    case LoadInt(_, _, _, _, _) => us := [I32];
    case Eqz(ty) => us := [ty];
    case Compare(ty, _) => us := [ty, ty];
    case Wrap => us := [I64];
    case Extend(_) => us := [I32];
    case SignExt(ty, _) => us := [ty];
    case _ =>
  }

  lemma PushShape(cx: Context, g: Gen, i: Instr, ts: seq<ValType>)
    requires IsStraight(i) && CheckStraight(cx, i, ts).Live? && LocalsOk(cx, g) && MustPush(i)
    ensures Operands(i) <= |ts| && !Peeks(i) && Pushes(cx, g, i).Some?
    ensures CheckStraight(cx, i, ts) == Live(ts[..|ts| - Operands(i)] + [Pushes(cx, g, i).value])
  {
    hide *;
    var us := PushPops(cx, g, i, ts);
    PopPushLive(ts, us, [Pushes(cx, g, i).value]);
  }

  lemma PeekShape(cx: Context, g: Gen, i: Instr, ts: seq<ValType>)
    requires IsStraight(i) && CheckStraight(cx, i, ts).Live? && !MustPush(i) && Peeks(i)
    ensures 0 < Operands(i) <= |ts|
    ensures CheckStraight(cx, i, ts) == Live(ts[..|ts| - Operands(i)] + [ts[|ts| - Operands(i)]])
  {
    if i.Select? {
      assert ts[..|ts| - 2] == ts[..|ts| - 3] + [ts[|ts| - 3]];
    } else if Operands(i) == 1 {
      assert ts[|ts| - 1..] == [ts[|ts| - 1]];
    } else {
      assert ts[|ts| - 2..] == [ts[|ts| - 2], ts[|ts| - 1]];
    }
  }

  lemma PopShape(cx: Context, g: Gen, i: Instr, ts: seq<ValType>)
    requires IsStraight(i) && CheckStraight(cx, i, ts).Live? && !MustPush(i) && !Peeks(i)
    ensures Operands(i) <= |ts|
    ensures CheckStraight(cx, i, ts) == Live(ts[..|ts| - Operands(i)] + [])
  {
  }

  /** Dropping operands keeps the types of the rest. */
  lemma OpsPop(g: Gen, g': Gen, ts: seq<ValType>, n: nat)
    requires Ops(g, ts) && n <= |ts|
    requires Grows(g, g') && g'.blocks == g.blocks && g'.stack == g.stack[..|g.stack| - n]
    ensures Ops(g', ts[..|ts| - n])
  {
    var us := ts[..|ts| - n];
    forall i | 0 <= i < |us| ensures HasType(g', g'.stack[|g'.stack| - |us| + i], us[i]) {
      assert g'.stack[|g'.stack| - |us| + i] == g.stack[|g.stack| - |ts| + i];
    }
  }

  lemma OpsPush(g: Gen, g': Gen, ts: seq<ValType>, v: nat, ty: ValType)
    requires Ops(g, ts) && Grows(g, g') && g'.blocks == g.blocks && g'.stack == g.stack + [v]
    requires HasType(g', v, ty)
    ensures Ops(g', ts + [ty])
  {
    var us := ts + [ty];
    forall i | 0 <= i < |us| ensures HasType(g', g'.stack[|g'.stack| - |us| + i], us[i]) {
      if i < |ts| {
        assert g'.stack[|g'.stack| - |us| + i] == g.stack[|g.stack| - |ts| + i];
      }
    }
  }

  lemma PopChecked(cx: Context, g: Gen, ts: seq<ValType>, n: nat)
    requires Sound(cx, g) && Ops(g, ts) && n <= |ts|
    ensures var g1 := PopN(g, n).0;
      Sound(cx, g1) && Ops(g1, ts[..|ts| - n]) && Kept(g, g1, |g.stack| - |ts|) && |g1.stack| == |g.stack| - n
  {
    PopNShape(g, n);
    PopNOk(cx, g, n);
    KeptLower(g, PopN(g, n).0, |g.stack| - n, |g.stack| - |ts|);
    OpsPop(g, PopN(g, n).0, ts, n);
  }

  lemma PushChecked(cx: Context, g: Gen, ts: seq<ValType>, ty: ValType)
    requires Sound(cx, g) && Ops(g, ts)
    ensures var g1 := StackPush(g, ty).0;
      Sound(cx, g1) && Ops(g1, ts + [ty]) && Kept(g, g1, |g.stack| - |ts|) && |g1.stack| == |g.stack| + 1
  {
    var (g1, d) := StackPush(g, ty);
    PushOk(cx, g, ty);
    KeptLower(g, g1, |g.stack|, |g.stack| - |ts|);
    OpsPush(g, g1, ts, d.v, ty);
  }

  lemma StraightSound(cx: Context, g: Gen, i: Instr, ts: seq<ValType>)
    requires Sound(cx, g) && Ops(g, ts) && IsStraight(i)
    requires CheckStraight(cx, i, ts).Live?
    ensures After(cx, g, ts, EmitStraight(cx, g, i), CheckStraight(cx, i, ts))
  {
    CheckShape(cx, g, i, ts);
    if MustPush(i) {
      StraightPush(cx, g, i, ts);
    } else {
      StraightPop(cx, g, i, ts);
    }
  }

  lemma PushForm(cx: Context, g: Gen, i: Instr)
    requires IsStraight(i) && Operands(i) <= |g.stack| && MustPush(i) && !Peeks(i) && Pushes(cx, g, i).Some?
    ensures
      var (g', d) := StackPush(PopN(g, Operands(i)).0, Pushes(cx, g, i).value);
      EmitStraight(cx, g, i) == Emit(g', 0, StraightStmt(i, Args(g, i), d))
  {
  }

  lemma PopForm(cx: Context, g: Gen, i: Instr)
    requires IsStraight(i) && Operands(i) <= |g.stack| && !MustPush(i) && (Peeks(i) ==> Operands(i) > 0)
    ensures EmitStraight(cx, g, i) == Emit(PopN(g, Popped(i)).0, 0, StraightStmt(i, Args(g, i), Old(0)))
    ensures PopN(g, Popped(i)).0.types == g.types && PopN(g, Popped(i)).0.blocks == g.blocks
    ensures Popped(i) == Operands(i) - if Peeks(i) then 1 else 0
  {
    PopNShape(g, Popped(i));
  }

  lemma AfterMade(cx: Context, g: Gen, ts: seq<ValType>, e: Emission, us: seq<ValType>)
    requires e.Emit? && e.ud == 0 && |ts| <= |g.stack| && Sound(cx, e.g) && Ops(e.g, us)
    requires Kept(g, e.g, |g.stack| - |ts|) && |e.g.stack| == |g.stack| - |ts| + |us|
    ensures After(cx, g, ts, e, Live(us))
  {
  }

  lemma StraightPush(cx: Context, g: Gen, i: Instr, ts: seq<ValType>)
    requires Sound(cx, g) && Ops(g, ts) && IsStraight(i)
    requires Operands(i) <= |ts| && MustPush(i) && !Peeks(i) && Pushes(cx, g, i).Some?
    ensures After(cx, g, ts, EmitStraight(cx, g, i), Live(ts[..|ts| - Operands(i)] + [Pushes(cx, g, i).value]))
  {
    hide EmitStraight, EmitPush, StraightStmt, PopN, StackPush, Pushes, Sound, Kept, MustPush, Peeks, Operands, After,
         Ops, IsStraight;
    OpsFit(g, ts);
    var ty := Pushes(cx, g, i).value;
    var g1 := PopN(g, Operands(i)).0;
    PushForm(cx, g, i);
    var us := ts[..|ts| - Operands(i)];
    PopChecked(cx, g, ts, Operands(i));
    PushChecked(cx, g1, us, ty);
    KeptTrans(g, g1, StackPush(g1, ty).0, |g.stack| - |ts|);
    AfterMade(cx, g, ts, EmitStraight(cx, g, i), us + [ty]);
  }

  lemma StraightPop(cx: Context, g: Gen, i: Instr, ts: seq<ValType>)
    requires Sound(cx, g) && Ops(g, ts) && IsStraight(i)
    requires Operands(i) <= |ts| && !MustPush(i) && (Peeks(i) ==> Operands(i) > 0)
    ensures After(cx, g, ts, EmitStraight(cx, g, i), Live(ts[..|ts| - Operands(i)] + Outs(cx, g, i, ts)))
  {
    hide EmitStraight, StraightStmt, PopN, Sound, Kept, MustPush, After, Pushes, Operands, Ops;
    OpsFit(g, ts);
    PopForm(cx, g, i);
    PopChecked(cx, g, ts, Popped(i));
    OutsPopped(cx, g, i, ts);
    AfterMade(cx, g, ts, EmitStraight(cx, g, i), ts[..|ts| - Popped(i)]);
  }

  lemma SoundBlocks(cx: Context, g: Gen)
    requires Sound(cx, g)
    ensures forall k | 0 <= k < |g.blocks| :: BlockOk(cx, g, g.blocks[k])
  {
  }

  lemma OpsFit(g: Gen, ts: seq<ValType>)
    requires Ops(g, ts)
    ensures StackFloor(g) + |ts| <= |g.stack|
  {
  }

  lemma OutsPopped(cx: Context, g: Gen, i: Instr, ts: seq<ValType>)
    requires Operands(i) <= |ts| && !MustPush(i) && (Peeks(i) ==> Operands(i) > 0)
    ensures ts[..|ts| - Operands(i)] + Outs(cx, g, i, ts) == ts[..|ts| - Popped(i)]
  {
  }

  // ---------------------------------------------------------------- transfers and calls

  lemma LabelFacts(cx: Context, g: Gen, l: nat)
    requires Sound(cx, g) && l < |g.blocks|
    ensures GenLabels(cx, g)[l] == GenLabel(cx, g, BlockAt(g, l))
    ensures BlockOk(cx, g, BlockAt(g, l))
  {
  }

  lemma PopOne(cx: Context, g: Gen, ts: seq<ValType>)
    requires Sound(cx, g) && Ops(g, ts) && |ts| > 0
    ensures |g.stack| > 0
    ensures var g1 := StackPop(g).0;
      Sound(cx, g1) && Ops(g1, ts[..|ts| - 1]) && Kept(g, g1, |g.stack| - |ts|) && |g1.stack| == |g.stack| - 1
  {
    PopOk(cx, g);
    KeptLower(g, StackPop(g).0, |g.stack| - 1, |g.stack| - |ts|);
    OpsPop(g, StackPop(g).0, ts, 1);
  }

  lemma BrSound(cx: Context, g: Gen, l: nat, ts: seq<ValType>)
    requires Sound(cx, g) && Ops(g, ts) && l < |g.blocks|
    requires EndsWith(ts, GenLabels(cx, g)[l].Types())
    ensures After(cx, g, ts, EmitBr(cx, g, l), Dead)
  {
    LabelFacts(cx, g, l);
    KeptSame(cx, g, |g.stack| - |ts|);
    if GenLabels(cx, g)[l].Types() != [] {
      PopOne(cx, g, ts);
    }
  }

  lemma BrIfSound(cx: Context, g: Gen, l: nat, ts: seq<ValType>)
    requires Sound(cx, g) && Ops(g, ts) && l < |g.blocks|
    requires EndsWith(ts, [I32]) && EndsWith(ts[..|ts| - 1], GenLabels(cx, g)[l].Types())
    ensures After(cx, g, ts, EmitBrIf(cx, g, l), Live(ts[..|ts| - 1]))
  {
    LabelFacts(cx, g, l);
    PopOne(cx, g, ts);
  }

  lemma BrTableSound(cx: Context, g: Gen, ls: seq<nat>, dflt: nat, ts: seq<ValType>)
    requires Sound(cx, g) && Ops(g, ts) && EndsWith(ts, [I32])
    requires dflt < |g.blocks| && forall k | 0 <= k < |ls| :: ls[k] < |g.blocks|
    ensures After(cx, g, ts, EmitBrTable(g, ls, dflt), Dead)
  {
    PopOne(cx, g, ts);
  }

  lemma ReturnSound(cx: Context, g: Gen, ts: seq<ValType>)
    requires Sound(cx, g) && Ops(g, ts) && EndsWith(ts, cx.results) && |cx.results| <= 1
    ensures After(cx, g, ts, EmitReturn(cx, g), Dead)
  {
    KeptSame(cx, g, |g.stack| - |ts|);
    if |cx.results| > 0 {
      PopOne(cx, g, ts);
    }
  }

  lemma CallSound(cx: Context, g: Gen, f: nat, ts: seq<ValType>)
    requires Sound(cx, g) && Ops(g, ts) && CheckCall(cx, f, ts).Live?
    requires |cx.m.types[cx.m.funcs[f].ty].results| <= 1
    ensures After(cx, g, ts, EmitCall(cx, g, f), CheckCall(cx, f, ts))
  {
    hide *;
    CallPops(cx, f, ts);
    var ft := cx.m.types[cx.m.funcs[f].ty];
    var us := ts[..|ts| - |ft.params|];
    PopChecked(cx, g, ts, |ft.params|);
    CallCheck(cx, g, f, ts);
    if ft.results == [] {
      AfterMade(cx, g, ts, EmitCall(cx, g, f), us);
    } else {
      CallPush(cx, g, PopN(g, |ft.params|).0, |g.stack| - |ts|, us, ft.results[0]);
      AfterMade(cx, g, ts, EmitCall(cx, g, f), us + [ft.results[0]]);
    }
  }

  /** What a call leaves, given at most one result. */
  lemma CallCheck(cx: Context, g: Gen, f: nat, ts: seq<ValType>)
    requires CheckCall(cx, f, ts).Live? && |cx.m.types[cx.m.funcs[f].ty].results| <= 1 && Sound(cx, g) && Ops(g, ts)
    ensures var n := |cx.m.types[cx.m.funcs[f].ty].params|;
      n <= |ts| <= |g.stack| && EmitCall(cx, g, f).Emit? && EmitCall(cx, g, f).ud == 0
    ensures var ft := cx.m.types[cx.m.funcs[f].ty];
      var us, g1 := ts[..|ts| - |ft.params|], PopN(g, |ft.params|).0;
      if ft.results == [] then EmitCall(cx, g, f).g == g1 && CheckCall(cx, f, ts) == Live(us)
      else EmitCall(cx, g, f).g == StackPush(g1, ft.results[0]).0 && CheckCall(cx, f, ts) == Live(us + [ft.results[0]])
  {
    hide *;
    OpsFit(g, ts);
    CallPops(cx, f, ts);
    CallForm(cx, g, f);
    var ft := cx.m.types[cx.m.funcs[f].ty];
    if ft.results != [] {
      assert ft.results == [ft.results[0]];
    } else {
      assert ts[..|ts| - |ft.params|] + ft.results == ts[..|ts| - |ft.params|];
    }
  }

  lemma CallPops(cx: Context, f: nat, ts: seq<ValType>)
    requires CheckCall(cx, f, ts).Live?
    ensures f < |cx.m.funcs| && cx.m.funcs[f].ty < |cx.m.types|
    ensures var ft := cx.m.types[cx.m.funcs[f].ty];
      |ft.params| <= |ts| && CheckCall(cx, f, ts) == Live(ts[..|ts| - |ft.params|] + ft.results)
  {
    hide PopPush;
    PopPushLive(ts, cx.m.types[cx.m.funcs[f].ty].params, cx.m.types[cx.m.funcs[f].ty].results);
  }

  lemma CallForm(cx: Context, g: Gen, f: nat)
    requires f < |cx.m.funcs| && cx.m.funcs[f].ty < |cx.m.types|
    requires
      var ft := cx.m.types[cx.m.funcs[f].ty];
      |ft.params| <= |g.stack| && |ft.results| <= 1
    ensures
      var ft := cx.m.types[cx.m.funcs[f].ty];
      var (g1, args) := PopN(g, |ft.params|);
      EmitCall(cx, g, f) ==
        if ft.results == [] then Emit(g1, 0, [CallTo(None, f, args)])
        else Emit(StackPush(g1, ft.results[0]).0, 0, [CallTo(Some(StackPush(g1, ft.results[0]).1), f, args)])
  {
    hide PopN, StackPush;
  }
  lemma CallPush(cx: Context, g: Gen, g1: Gen, h: nat, us: seq<ValType>, ty: ValType)
    requires Sound(cx, g1) && Ops(g1, us) && Kept(g, g1, h) && h == |g1.stack| - |us|
    ensures var g2 := StackPush(g1, ty).0;
      Sound(cx, g2) && Ops(g2, us + [ty]) && Kept(g, g2, h) && |g2.stack| == |g1.stack| + 1
  {
    PushChecked(cx, g1, us, ty);
    KeptTrans(g, g1, StackPush(g1, ty).0, h);
  }

  // ---------------------------------------------------------------- blocks

  /** The packed kind and type of a block are read back exactly. */
  lemma PackRoundTrip(cx: Context, g: Gen, b: BlockRec, kind: int, bt: int)
    requires SmallIndex(cx) && BlockType(cx.m.types, bt).Some? && kind in {KBlock, KLoop, KIf}
    requires b.lbl < |g.types| && g.types[b.lbl] == PackKind(kind, bt) && b.ty == PackType(bt)
    ensures KindOf(g, b) == kind && TypeIndexOf(g, b) == bt
  {
  }

  /** The state in which the body of a new block is translated. */
  predicate Opened(cx: Context, g: Gen, g1: Gen, kind: int, bt: int, keep: nat) {
    && Sound(cx, g1)
    && Grows(g, g1)
    && |g1.blocks| == |g.blocks| + 1 && g1.blocks[..|g.blocks|] == g.blocks
    && keep <= |g.stack| && g1.stack == g.stack[..keep]
    && g.reuse <= g1.reuse
    && var b := g1.blocks[|g.blocks|];
    && b.stackBase == keep && b.reuseBase == |g1.reuse|
    && KindOf(g1, b) == kind && TypeIndexOf(g1, b) == bt
    && |g.types| <= b.lbl - |BlockType(cx.m.types, bt).value.results|
  }

  lemma ResultsOk(cx: Context, g: Gen, ts: seq<ValType>)
    requires Sound(cx, g) && |ts| <= 1
    ensures var (g1, out) := DeclareResults(g, ts);
      && Sound(cx, g1) && GenLabels(cx, g1) == GenLabels(cx, g) && Grows(g, g1)
      && g1.stack == g.stack && g1.reuse == g.reuse && g1.blocks == g.blocks
      && |g1.types| == |g.types| + |ts|
      && (ts != [] ==>
         && g1.types[|g.types|] == ts[0].Code() && g1.roles[|g.types|] == ResultRole
         && out == [Declare(|g.types|, ts[0])])
      && (ts == [] ==> out == [])
  {
    if ts != [] {
      var g1 := Alloc(g, ts[0].Code(), ResultRole).0;
      assert ts[..|ts| - 1] == [];
      SoundGrows(cx, g, g1);
      assert DeclareResults(g, ts) == (g1, [Declare(|g.types|, ts[0])] + []);
    }
  }

  lemma OpenBlock(cx: Context, g: Gen, kind: int, bt: int)
    requires SmallIndex(cx) && Sound(cx, g) && JumpType(cx.m.types, bt, kind)
    requires kind in {KBlock, KLoop, KIf}
    requires var rs := BlockType(cx.m.types, bt).value.results;
      rs != [] ==> |g.types| > 0 && g.types[|g.types| - 1] == rs[0].Code() && g.roles[|g.types| - 1] == ResultRole
    ensures var g2 := Alloc(g, PackKind(kind, bt), LabelRole).0;
      var b := BlockRec(PackType(bt), |g.types|, |g.stack|, |g.reuse|);
      var g3 := g2.(blocks := g.blocks + [b]);
      Sound(cx, g3) && KindOf(g3, b) == kind && TypeIndexOf(g3, b) == bt
  {
    var g2 := Alloc(g, PackKind(kind, bt), LabelRole).0;
    var b := BlockRec(PackType(bt), |g.types|, |g.stack|, |g.reuse|);
    var g3 := g2.(blocks := g.blocks + [b]);
    SoundGrows(cx, g, g2);
    PackRoundTrip(cx, g3, b, kind, bt);
    forall k | 0 <= k < |g3.blocks| ensures BlockOk(cx, g3, g3.blocks[k]) {
      if k < |g.blocks| {
        BlockGrows(cx, g2, g3, g.blocks[k]);
      }
    }
    TopBelow(cx, g);
  }

  /** The state and the statements with which a block opens, given the state with its results declared. */
  function OpenState(g1: Gen, kind: int, bt: int): Gen
    requires kind == KIf ==> |g1.stack| > 0
  {
    var g2 := if kind == KIf then StackPop(g1).0 else g1;
    var g3 := Alloc(g2, PackKind(kind, bt), LabelRole).0;
    g3.(blocks := g3.blocks + [BlockRec(PackType(bt), |g2.types|, |g3.stack|, |g3.reuse|)])
  }

  function OpenStmts(g1: Gen, kind: int): seq<CStmt>
    requires kind == KIf ==> |g1.stack| > 0
  {
    (if kind == KIf then [IfOpen(StackPop(g1).1)] else []) +
    (if kind == KLoop then [Goto(|g1.types|), LabelHere(|g1.types|)] else [])
  }

  lemma BeginForm(cx: Context, g: Gen, kind: int, bt: int)
    requires SimpleBlock(cx.m.types, bt) && Sound(cx, g) && (kind == KIf ==> |g.stack| > 0)
    ensures
      var (g1, decls) := DeclareResults(g, BlockType(cx.m.types, bt).value.results);
      && g1.stack == g.stack
      && EmitBegin(cx, g, kind, bt) == Emit(OpenState(g1, kind, bt), 0, decls + OpenStmts(g1, kind))
  {
    ResultsOk(cx, g, BlockType(cx.m.types, bt).value.results);
    var g1 := DeclareResults(g, BlockType(cx.m.types, bt).value.results).0;
    BlockBeginForm(g1, kind, bt);
    hide Sound, DeclareResults, BlockBegin, OpenState, OpenStmts, BlockType;
  }

  lemma BlockBeginForm(g: Gen, kind: int, bt: int)
    requires kind == KIf ==> |g.stack| > 0
    ensures BlockBegin(g, kind, bt) == Emit(OpenState(g, kind, bt), 0, OpenStmts(g, kind))
  {
  }

  lemma BeginSound(cx: Context, g: Gen, kind: int, bt: int, ts: seq<ValType>)
    requires SmallIndex(cx) && Sound(cx, g) && Ops(g, ts) && SimpleBlock(cx.m.types, bt)
    requires kind in {KBlock, KLoop, KIf} && (kind == KIf ==> EndsWith(ts, [I32]))
    ensures EmitBegin(cx, g, kind, bt).Emit?
    ensures Opened(cx, g, EmitBegin(cx, g, kind, bt).g, kind, bt, if kind == KIf then |g.stack| - 1 else |g.stack|)
  {
    hide Ops, DeclareResults, Sound, Opened, BlockType, HasType, EmitBegin;
    var rs := BlockType(cx.m.types, bt).value.results;
    var g1 := DeclareResults(g, rs).0;
    OpsFit(g, ts);
    ResultsOk(cx, g, rs);
    OpsGrow(g, g1, ts);
    BeginForm(cx, g, kind, bt);
    if kind == KIf {
      PopOne(cx, g1, ts);
      BeginOpened(cx, g, g1, StackPop(g1).0, kind, bt, |g.stack| - 1);
    } else {
      assert g.stack[..|g.stack|] == g.stack;
      BeginOpened(cx, g, g1, g1, kind, bt, |g.stack|);
    }
  }

  lemma BeginOpened(cx: Context, g: Gen, g1: Gen, g2: Gen, kind: int, bt: int, keep: nat)
    requires SmallIndex(cx) && Sound(cx, g2) && JumpType(cx.m.types, bt, kind) && kind in {KBlock, KLoop, KIf}
    requires Grows(g, g1) && g2.types == g1.types && g2.roles == g1.roles && g2.blocks == g.blocks
    requires keep <= |g.stack| && g2.stack == g.stack[..keep] && g.reuse <= g2.reuse
    requires var rs := BlockType(cx.m.types, bt).value.results;
      && |g1.types| == |g.types| + |rs| && |g1.roles| == |g1.types|
      && (rs != [] ==> g1.types[|g1.types| - 1] == rs[0].Code() && g1.roles[|g1.types| - 1] == ResultRole)
    ensures
      var g3 := Alloc(g2, PackKind(kind, bt), LabelRole).0;
      var g4 := g3.(blocks := g3.blocks + [BlockRec(PackType(bt), |g2.types|, |g3.stack|, |g3.reuse|)]);
      Opened(cx, g, g4, kind, bt, keep)
  {
    OpenBlock(cx, g2, kind, bt);
  }

  lemma OpenedLabels(cx: Context, g: Gen, g1: Gen, kind: int, bt: int, keep: nat)
    requires Sound(cx, g) && keep <= |g.stack| && JumpType(cx.m.types, bt, kind) && Opened(cx, g, g1, kind, bt, keep)
    ensures GenLabels(cx, g1) == [Label(kind == KLoop, BlockType(cx.m.types, bt).value.results)] + GenLabels(cx, g)
    ensures Ops(g1, []) && StackFloor(g1) == keep == |g1.stack| && ReuseTop(g1) == |g1.reuse|
  {
    hide Ops, Sound, Opened, JumpType;
    OpenedShape(cx, g, g1, kind, bt, keep);
    LabelsAfterOpen(cx, g, g1, kind, bt, keep);
  }

  lemma OpenedShape(cx: Context, g: Gen, g1: Gen, kind: int, bt: int, keep: nat)
    requires JumpType(cx.m.types, bt, kind) && Opened(cx, g, g1, kind, bt, keep)
    ensures Ops(g1, []) && StackFloor(g1) == keep == |g1.stack| && ReuseTop(g1) == |g1.reuse|
    ensures Sound(cx, g1) && |g1.blocks| == |g.blocks| + 1
  {
  }

  lemma LabelsAfterOpen(cx: Context, g: Gen, g1: Gen, kind: int, bt: int, keep: nat)
    requires Sound(cx, g) && JumpType(cx.m.types, bt, kind) && Opened(cx, g, g1, kind, bt, keep)
    ensures GenLabels(cx, g1) == [Label(kind == KLoop, BlockType(cx.m.types, bt).value.results)] + GenLabels(cx, g)
  {
    hide Ops, Apart, Bases, LocalsOk;
    var n := |g.blocks|;
    forall k | 0 <= k < n ensures GenLabel(cx, g1, g1.blocks[k]) == GenLabel(cx, g, g.blocks[k]) {
      assert g1.blocks[k] == g1.blocks[..n][k];
      BlockGrows(cx, g, g1, g.blocks[k]);
    }
    forall k | 0 <= k < n ensures GenLabels(cx, g1)[k + 1] == GenLabels(cx, g)[k] {
      assert BlockAt(g1, k + 1) == g1.blocks[n - 1 - k];
    }
  }

  /** The end of an arm, reached with its results on the stack or not reached at all. */
  lemma LeaveSound(cx: Context, g: Gen, ud: nat)
    requires Sound(cx, g) && g.blocks != []
    requires ud == 0 ==> Ops(g, GenLabel(cx, g, BlockAt(g, 0)).results)
    ensures LeaveArm(cx, g, ud).Emit?
    ensures var g1 := LeaveArm(cx, g, ud).g;
      && Sound(cx, g1) && g1.blocks == g.blocks && g1.types == g.types && g1.roles == g.roles
      && Kept(g, g1, StackFloor(g))
  {
    TopBelow(cx, g);
    var rs := GenLabel(cx, g, BlockAt(g, 0)).results;
    if ud == 0 && rs != [] {
      PopOne(cx, g, rs);
      KeptLower(g, StackPop(g).0, |g.stack| - |rs|, StackFloor(g));
    }
  }

  lemma ElseSound(cx: Context, g: Gen, ud: nat)
    requires Sound(cx, g) && g.blocks != []
    requires ud == 0 ==> Ops(g, GenLabel(cx, g, BlockAt(g, 0)).results)
    ensures EmitElse(cx, g, ud).Emit?
    ensures var g2 := EmitElse(cx, g, ud).g;
      Sound(cx, g2) && Kept(g, g2, StackFloor(g)) && Ops(g2, []) && StackFloor(g2) == StackFloor(g)
        && g2.types == g.types
      && ReuseTop(g2) == |g2.reuse|
  {
    LeaveSound(cx, g, ud);
    assert EmitElse(cx, g, ud) == ElseOf(LeaveArm(cx, g, ud));
    hide LeaveArm, EmitElse, GenLabel;
    ResetSound(cx, g, LeaveArm(cx, g, ud).g);
  }

  function ElseOf(e: Emission): Emission {
    match e
    case Fault => Fault
    case Emit(g, _, out) =>
      if ReuseTop(g) > |g.reuse| then Fault else Emit(g.(reuse := g.reuse[..ReuseTop(g)]), 0, out + [ElseOpen])
  }

  lemma ResetSound(cx: Context, g: Gen, g1: Gen)
    requires Sound(cx, g) && g.blocks != [] && Sound(cx, g1)
    requires g1.blocks == g.blocks && g1.types == g.types && g1.roles == g.roles && Kept(g, g1, StackFloor(g))
    ensures ReuseTop(g1) <= |g1.reuse|
    ensures var g2 := g1.(reuse := g1.reuse[..ReuseTop(g1)]);
      Sound(cx, g2) && Kept(g, g2, StackFloor(g)) && Ops(g2, []) && ReuseTop(g2) == |g2.reuse|
  {
    TopBelow(cx, g1);
    var g2 := g1.(reuse := g1.reuse[..ReuseTop(g1)]);
    BlocksGrow(cx, g1, g2);
  }

  lemma CloseSound(cx: Context, g: Gen)
    requires Sound(cx, g) && g.blocks != []
    ensures BlockEnd(g).Emit? && BlockAt(g, 0).stackBase <= |g.stack| && BlockAt(g, 0).reuseBase <= |g.reuse|
    ensures Sound(cx, BlockEnd(g).g) && Grows(g, BlockEnd(g).g)
    ensures BlockEnd(g).g ==
      Gen(g.types, g.roles, g.reuse[..BlockAt(g, 0).reuseBase], g.stack[..BlockAt(g, 0).stackBase],
          g.blocks[..|g.blocks| - 1])
  {
    TopBelow(cx, g);
    var g' := BlockEnd(g).g;
    forall k | 0 <= k < |g'.blocks| ensures BlockOk(cx, g', g'.blocks[k]) {
      BlockGrows(cx, g, g', g.blocks[k]);
    }
  }

  lemma EndSound(cx: Context, g: Gen, ud: nat)
    requires Sound(cx, g) && g.blocks != []
    requires ud == 0 ==> Ops(g, GenLabel(cx, g, BlockAt(g, 0)).results)
    ensures EmitEnd(cx, g, ud).Emit? && EmitEnd(cx, g, ud).ud == 0
    ensures
      var rs := GenLabel(cx, g, BlockAt(g, 0)).results;
      var b := BlockAt(g, 0);
      var g1 := LeaveArm(cx, g, ud).g;
      var g2 := BlockEnd(g1).g;
      && LeaveArm(cx, g, ud).Emit? && g1.blocks == g.blocks && BlockEnd(g1).Emit?
      && Sound(cx, g2)
      && b.stackBase <= |g.stack| && b.reuseBase <= |g.reuse|
      && g2 == Gen(g.types, g.roles, g.reuse[..b.reuseBase], g.stack[..b.stackBase], g.blocks[..|g.blocks| - 1])
      && EmitEnd(cx, g, ud).g == (if rs == [] then g2 else StackPush(g2, rs[0]).0)
      && EmitEnd(cx, g, ud).out == LeaveArm(cx, g, ud).out + BlockEnd(g1).out
           + (if rs == [] then [] else [Assign(StackPush(g2, rs[0]).1, Var(b.lbl - 1))])
  {
    hide LeaveArm, EmitEnd, BlockEnd, Sound, PushResults, Ops, Grows, HasType, Kept, BlockType, StackPush;
    LeaveSound(cx, g, ud);
    var g1 := LeaveArm(cx, g, ud).g;
    var b := BlockAt(g, 0);
    LabelFacts(cx, g, 0);
    CloseSound(cx, g1);
    TopBelow(cx, g);
    LeaveKeeps(g, g1);
    EndForm(cx, g, ud);
    assert |GenLabel(cx, g, b).results| <= 1;
    PushResult(BlockEnd(g1).g, b.lbl, GenLabel(cx, g, b).results);
  }

  lemma LeaveKeeps(g: Gen, g1: Gen)
    requires g.blocks != [] && g1.blocks == g.blocks && Kept(g, g1, StackFloor(g))
    ensures
      var b := BlockAt(g, 0);
      && b.stackBase <= |g.stack| && b.stackBase <= |g1.stack| && g1.stack[..b.stackBase] == g.stack[..b.stackBase]
      && b.reuseBase <= |g.reuse| && b.reuseBase <= |g1.reuse| && g1.reuse[..b.reuseBase] == g.reuse[..b.reuseBase]
  {
  }

  lemma EndForm(cx: Context, g: Gen, ud: nat)
    requires g.blocks != [] && BlockOk(cx, g, BlockAt(g, 0))
    requires var e := LeaveArm(cx, g, ud);
      e.Emit? && e.g.blocks == g.blocks && e.g.types == g.types && e.g.roles == g.roles && BlockEnd(e.g).Emit?
    ensures
      var a := LeaveArm(cx, g, ud);
      var b := BlockEnd(a.g);
      var rs := GenLabel(cx, g, BlockAt(g, 0)).results;
      && |rs| <= BlockAt(g, 0).lbl
      && var (g3, out3) := PushResults(b.g, BlockAt(g, 0).lbl - |rs|, rs);
      EmitEnd(cx, g, ud) == Emit(g3, 0, a.out + b.out + out3)
  {
    hide LeaveArm, BlockEnd, PushResults;
  }

  lemma PushResult(g: Gen, lbl: nat, rs: seq<ValType>)
    requires |rs| <= 1 && |rs| <= lbl
    ensures PushResults(g, lbl - |rs|, rs) ==
      if rs == [] then (g, []) else (StackPush(g, rs[0]).0, [Assign(StackPush(g, rs[0]).1, Var(lbl - 1))])
  {
    if rs != [] {
      var (g1, d) := StackPush(g, rs[0]);
      assert rs[1..] == [];
      assert PushResults(g1, lbl, []) == (g1, []);
      assert [Assign(d, Var(lbl - 1))] + [] == [Assign(d, Var(lbl - 1))];
    }
  }

  // ---------------------------------------------------------------- the induction

  /** The context of a function of a valid module. */
  predicate GoodContext(cx: Context) {
    ValidModule(cx.m) && |cx.results| <= 1
  }

  lemma SmallContext(cx: Context)
    requires GoodContext(cx)
    ensures SmallIndex(cx)
  {
    Pow2Values();
  }

  lemma KeptLabels(cx: Context, g: Gen, g': Gen, h: nat)
    requires Sound(cx, g) && Sound(cx, g') && Kept(g, g', h)
    ensures GenLabels(cx, g') == GenLabels(cx, g)
  {
    BlocksGrow(cx, g, g');
  }

  /** Plain instructions other than blocks. */
  lemma PlainSound(cx: Context, g: Gen, i: Instr, ts: seq<ValType>)
    requires GoodContext(cx) && Sound(cx, g) && Ops(g, ts) && !IsBlock(i)
    requires CheckInstr(cx, GenLabels(cx, g), i, ts) != Bad
    ensures After(cx, g, ts, EmitPlain(cx, g, i), CheckInstr(cx, GenLabels(cx, g), i, ts))
  {
    hide *;
    var labels := GenLabels(cx, g);
    LabelCount(cx, g);
    TransferOrCall(i);
    if IsStraight(i) {
      StraightCase(cx, g, labels, i, ts);
      StraightSound(cx, g, i, ts);
    } else if i.Br? {
      BrCase(cx, g, labels, i.l, ts);
      BrSound(cx, g, i.l, ts);
    } else if i.BrIf? {
      BrIfCase(cx, g, labels, i.l, ts);
      BrIfSound(cx, g, i.l, ts);
    } else if i.BrTable? {
      BrTableCase(cx, g, labels, i.ls, i.dflt, ts);
      BrTableSound(cx, g, i.ls, i.dflt, ts);
    } else if i.Return? {
      ReturnCase(cx, g, labels, ts);
      OneResult(cx);
      ReturnSound(cx, g, ts);
    } else if i.Call? {
      CallCase(cx, g, labels, i.f, ts);
      CallSound(cx, g, i.f, ts);
    } else {
      UnreachableCase(cx, g, labels, ts);
      UnreachableSound(cx, g, ts);
    }
  }

  lemma TransferOrCall(i: Instr)
    requires !IsBlock(i)
    ensures IsStraight(i) || i.Br? || i.BrIf? || i.BrTable? || i.Return? || i.Call? || i == Unreachable
  {
  }

  lemma OneResult(cx: Context)
    requires GoodContext(cx)
    ensures |cx.results| <= 1
  {
    hide ValidModule;
  }

  lemma UnreachableSound(cx: Context, g: Gen, ts: seq<ValType>)
    requires Sound(cx, g) && Ops(g, ts)
    ensures After(cx, g, ts, Emit(g, 1, [Abort]), Dead)
  {
    hide Sound, Kept;
    KeptSame(cx, g, |g.stack| - |ts|);
  }

  // ---------------------------------------------------------------- what is checked and emitted, case by case

  lemma StraightCase(cx: Context, g: Gen, labels: seq<Label>, i: Instr, ts: seq<ValType>)
    requires IsStraight(i)
    ensures !IsBlock(i) && EmitPlain(cx, g, i) == EmitStraight(cx, g, i)
    ensures CheckInstr(cx, labels, i, ts) == CheckStraight(cx, i, ts)
    ensures CheckStraight(cx, i, ts) != Bad ==> CheckStraight(cx, i, ts).Live?
  {
  }

  lemma BrCase(cx: Context, g: Gen, labels: seq<Label>, l: nat, ts: seq<ValType>)
    ensures EmitPlain(cx, g, Br(l)) == EmitBr(cx, g, l)
    ensures CheckInstr(cx, labels, Br(l), ts) == if l < |labels| && EndsWith(ts, labels[l].Types()) then Dead else Bad
  {
  }

  lemma BrIfCase(cx: Context, g: Gen, labels: seq<Label>, l: nat, ts: seq<ValType>)
    ensures EmitPlain(cx, g, BrIf(l)) == EmitBrIf(cx, g, l)
    ensures CheckInstr(cx, labels, BrIf(l), ts) ==
      if EndsWith(ts, [I32]) && l < |labels| && EndsWith(ts[..|ts| - 1], labels[l].Types())
      then Live(ts[..|ts| - 1]) else Bad
  {
  }

  lemma BrTableCase(cx: Context, g: Gen, labels: seq<Label>, ls: seq<nat>, dflt: nat, ts: seq<ValType>)
    ensures EmitPlain(cx, g, BrTable(ls, dflt)) == EmitBrTable(g, ls, dflt)
    ensures CheckInstr(cx, labels, BrTable(ls, dflt), ts) in {Dead, Bad}
    ensures CheckInstr(cx, labels, BrTable(ls, dflt), ts) == Dead ==>
      && EndsWith(ts, [I32]) && dflt < |labels| && labels[dflt].Types() == []
      && forall k | 0 <= k < |ls| :: ls[k] < |labels| && labels[ls[k]].Types() == []
  {
  }

  lemma ReturnCase(cx: Context, g: Gen, labels: seq<Label>, ts: seq<ValType>)
    ensures EmitPlain(cx, g, Return) == EmitReturn(cx, g)
    ensures CheckInstr(cx, labels, Return, ts) == if EndsWith(ts, cx.results) then Dead else Bad
  {
  }

  lemma CallCase(cx: Context, g: Gen, labels: seq<Label>, f: nat, ts: seq<ValType>)
    requires GoodContext(cx)
    ensures EmitPlain(cx, g, Call(f)) == EmitCall(cx, g, f)
    ensures CheckInstr(cx, labels, Call(f), ts) == CheckCall(cx, f, ts)
    ensures CheckCall(cx, f, ts) != Bad ==>
      && CheckCall(cx, f, ts).Live? && f < |cx.m.funcs| && ValidFunc(cx.m, cx.m.funcs[f])
      && cx.m.funcs[f].ty < |cx.m.types| && |cx.m.types[cx.m.funcs[f].ty].results| <= 1
      && EndsWith(ts, cx.m.types[cx.m.funcs[f].ty].params)
      && var ft := cx.m.types[cx.m.funcs[f].ty];
      CheckCall(cx, f, ts) == Live(ts[..|ts| - |ft.params|] + ft.results)
  {
    if f < |cx.m.funcs| {
      assert ValidFunc(cx.m, cx.m.funcs[f]);
    }
  }

  lemma UnreachableCase(cx: Context, g: Gen, labels: seq<Label>, ts: seq<ValType>)
    ensures EmitPlain(cx, g, Unreachable) == Emit(g, 1, [Abort])
    ensures CheckInstr(cx, labels, Unreachable, ts) == Dead
  {
  }

  lemma LabelCount(cx: Context, g: Gen)
    requires Sound(cx, g)
    ensures |GenLabels(cx, g)| == |g.blocks|
  {
  }

  lemma {:induction false} CodeIsSound(cx: Context, g: Gen, c: Code, ts: seq<ValType>)
    requires GoodContext(cx) && Sound(cx, g) && Ops(g, ts)
    requires CheckCode(cx, GenLabels(cx, g), c, ts) != Bad
    ensures After(cx, g, ts, TransCode(cx, g, c), CheckCode(cx, GenLabels(cx, g), c, ts))
    decreases c, 1
  {
    var labels := GenLabels(cx, g);
    hide Sound, Ops, Kept, After, GenLabels, CheckInstr, TransInstr, GoodContext;
    match c
    case Nil => AfterNothing(cx, g, ts);
    case Cons(i, rest) =>
      InstrIsSound(cx, g, i, ts);
      AfterEmits(cx, g, ts, TransInstr(cx, g, i), CheckInstr(cx, labels, i, ts));
      var e := TransInstr(cx, g, i);
      var r := CheckInstr(cx, labels, i, ts);
      if r.Live? {
        AfterStep(cx, g, ts, e, r);
        CodeIsSound(cx, e.g, rest, r.ts);
        AfterThen(cx, g, ts, e, r, TransCode(cx, e.g, rest), CheckCode(cx, labels, rest, r.ts));
      }
  }

  lemma AfterNothing(cx: Context, g: Gen, ts: seq<ValType>)
    requires Sound(cx, g) && Ops(g, ts)
    ensures |ts| <= |g.stack| && After(cx, g, ts, Emit(g, 0, []), Live(ts))
  {
    KeptSame(cx, g, |g.stack| - |ts|);
  }

  lemma AfterEmits(cx: Context, g: Gen, ts: seq<ValType>, e: Emission, r: Check)
    requires After(cx, g, ts, e, r)
    ensures e.Emit? && (r.Live? ==> e.ud == 0) && (r.Dead? ==> e.ud == 1)
  {
  }

  lemma AfterStep(cx: Context, g: Gen, ts: seq<ValType>, e: Emission, r: Check)
    requires Sound(cx, g) && After(cx, g, ts, e, r) && r.Live?
    ensures Sound(cx, e.g) && Ops(e.g, r.ts) && GenLabels(cx, e.g) == GenLabels(cx, g) && e.ud == 0
    ensures |ts| <= |g.stack| && |r.ts| <= |e.g.stack| && |g.stack| - |ts| == |e.g.stack| - |r.ts|
    ensures Kept(g, e.g, |g.stack| - |ts|)
  {
    hide Ops, Kept, GenLabels;
    KeptLabels(cx, g, e.g, |g.stack| - |ts|);
  }

  lemma AfterThen(cx: Context, g: Gen, ts: seq<ValType>, e: Emission, r: Check, e': Emission, r': Check)
    requires After(cx, g, ts, e, r) && r.Live? && After(cx, e.g, r.ts, e', r')
    ensures After(cx, g, ts, Prepend(e.out, e'), r')
  {
    hide Sound, Ops, Kept;
    KeptTrans(g, e.g, e'.g, |g.stack| - |ts|);
  }

  lemma {:induction false} InstrIsSound(cx: Context, g: Gen, i: Instr, ts: seq<ValType>)
    requires GoodContext(cx) && Sound(cx, g) && Ops(g, ts)
    requires CheckInstr(cx, GenLabels(cx, g), i, ts) != Bad
    ensures After(cx, g, ts, TransInstr(cx, g, i), CheckInstr(cx, GenLabels(cx, g), i, ts))
    decreases i, 4
  {
    if !IsBlock(i) {
      PlainSound(cx, g, i, ts);
    } else {
      match i
      case Block(bt, body) => BlockIsSound(cx, g, KBlock, bt, body, ts);
      case Loop(bt, body) => BlockIsSound(cx, g, KLoop, bt, body, ts);
      case If(bt, thn, hasElse, els) => IfIsSound(cx, g, i, ts);
    }
  }

  lemma {:induction false} BlockIsSound(cx: Context, g: Gen, kind: int, bt: int, body: Code, ts: seq<ValType>)
    requires GoodContext(cx) && Sound(cx, g) && Ops(g, ts)
    requires kind in {KBlock, KLoop} && SimpleBlock(cx.m.types, bt)
    requires var rs := BlockType(cx.m.types, bt).value.results;
      BodyOk(CheckCode(cx, [Label(kind == KLoop, rs)] + GenLabels(cx, g), body, []), rs)
    ensures After(cx, g, ts, TransBlock(cx, g, kind, bt, body), Live(ts + BlockType(cx.m.types, bt).value.results))
    decreases body, 3
  {
    SmallContext(cx);
    BeginSound(cx, g, kind, bt, ts);
    var g1 := EmitBegin(cx, g, kind, bt).g;
    OpenedLabels(cx, g, g1, kind, bt, |g.stack|);
    KeptSame(cx, g1, |g.stack|);
    TailIsSound(cx, g, g1, g1, kind, bt, body, ts, ts, |g.stack|);
  }

  /**
   The last arm of a block: its end restores the state `g` before the block, with more numbers, the
   operands `us` and the block's results pushed.
   */
  lemma {:induction false} TailIsSound(cx: Context, g: Gen, g1: Gen, g2: Gen, kind: int, bt: int, c: Code,
                                       ts: seq<ValType>, us: seq<ValType>, keep: nat)
    requires GoodContext(cx) && Sound(cx, g) && Ops(g, ts) && JumpType(cx.m.types, bt, kind)
    requires |us| <= |ts| && us == ts[..|us|] && keep <= |g.stack| && |g.stack| - |ts| == keep - |us|
    requires Opened(cx, g, g1, kind, bt, keep)
    requires Sound(cx, g2) && Kept(g1, g2, keep)
    requires var rs := BlockType(cx.m.types, bt).value.results;
      BodyOk(CheckCode(cx, [Label(kind == KLoop, rs)] + GenLabels(cx, g), c, []), rs)
    ensures TransTail(cx, g2, c).Emit? && TransTail(cx, g2, c).ud == 0
    ensures
      var rs := BlockType(cx.m.types, bt).value.results;
      var g' := TransTail(cx, g2, c).g;
      Sound(cx, g') && Kept(g, g', |g.stack| - |ts|) && Ops(g', us + rs) && |g'.stack| == keep + |rs|
    decreases c, 2
  {
    BodyState(cx, g, g1, g2, kind, bt, keep);
    CodeIsSound(cx, g2, c, []);
    var e := TransCode(cx, g2, c);
    BodyKept(g1, g2, e.g, keep);
    EndRestores(cx, g, g1, e.g, e.ud, kind, bt, ts, us, keep);
  }

  lemma BodyState(cx: Context, g: Gen, g1: Gen, g2: Gen, kind: int, bt: int, keep: nat)
    requires Sound(cx, g) && keep <= |g.stack| && JumpType(cx.m.types, bt, kind)
    requires Opened(cx, g, g1, kind, bt, keep) && Sound(cx, g2) && Kept(g1, g2, keep)
    ensures GenLabels(cx, g2) == [Label(kind == KLoop, BlockType(cx.m.types, bt).value.results)] + GenLabels(cx, g)
    ensures Ops(g2, [])
  {
    OpenedLabels(cx, g, g1, kind, bt, keep);
    KeptLabels(cx, g1, g2, keep);
    TopBelow(cx, g2);
  }

  lemma BodyKept(g1: Gen, g2: Gen, g3: Gen, keep: nat)
    requires Kept(g1, g2, keep) && Kept(g2, g3, |g2.stack|)
    ensures Kept(g1, g3, keep)
  {
    KeptLower(g2, g3, |g2.stack|, keep);
    KeptTrans(g1, g2, g3, keep);
  }

  /** The innermost block of every state between its opening and its end. */
  lemma SameBlock(cx: Context, g: Gen, g1: Gen, g2: Gen, kind: int, bt: int, keep: nat)
    requires Sound(cx, g) && keep <= |g.stack| && JumpType(cx.m.types, bt, kind)
    requires Opened(cx, g, g1, kind, bt, keep) && Sound(cx, g2) && Kept(g1, g2, keep)
    ensures g2.blocks != [] && BlockAt(g2, 0) == g1.blocks[|g.blocks|] && g2.blocks[..|g2.blocks| - 1] == g.blocks
    ensures BlockOk(cx, g2, BlockAt(g2, 0))
    ensures GenLabel(cx, g2, BlockAt(g2, 0)) == Label(kind == KLoop, BlockType(cx.m.types, bt).value.results)
    ensures KindOf(g2, BlockAt(g2, 0)) == kind && TypeIndexOf(g2, BlockAt(g2, 0)) == bt
    ensures StackFloor(g2) == keep
  {
    LabelFacts(cx, g1, 0);
    LabelFacts(cx, g2, 0);
    BlockGrows(cx, g1, g2, BlockAt(g1, 0));
  }

  lemma EndRestores(cx: Context, g: Gen, g1: Gen, g2: Gen, ud: nat, kind: int, bt: int,
                    ts: seq<ValType>, us: seq<ValType>, keep: nat)
    requires Sound(cx, g) && Ops(g, ts) && JumpType(cx.m.types, bt, kind)
    requires |us| <= |ts| && us == ts[..|us|] && keep <= |g.stack| && |g.stack| - |ts| == keep - |us|
    requires Opened(cx, g, g1, kind, bt, keep) && Sound(cx, g2) && Kept(g1, g2, keep)
    requires ud == 0 ==> Ops(g2, BlockType(cx.m.types, bt).value.results)
    ensures EmitEnd(cx, g2, ud).Emit? && EmitEnd(cx, g2, ud).ud == 0
    ensures
      var rs := BlockType(cx.m.types, bt).value.results;
      var g' := EmitEnd(cx, g2, ud).g;
      Sound(cx, g') && Kept(g, g', |g.stack| - |ts|) && Ops(g', us + rs) && |g'.stack| == keep + |rs|
  {
    hide Sound, Ops, Opened, Kept, BlockType, BlockEnd, LeaveArm, EmitEnd, GenLabel, BlockOk;
    var rs := BlockType(cx.m.types, bt).value.results;
    OpsFit(g, ts);
    SameBlock(cx, g, g1, g2, kind, bt, keep);
    EndSound(cx, g2, ud);
    var g3 := BlockEnd(LeaveArm(cx, g2, ud).g).g;
    EndLink(cx, g, g1, g2, g3, kind, bt, keep);
    RestoredState(cx, g, g3, ts, us, keep);
    if rs != [] {
      assert rs == [rs[0]];
      CallPush(cx, g, g3, |g.stack| - |ts|, us, rs[0]);
    } else {
      assert us + rs == us;
    }
  }

  lemma EndLink(cx: Context, g: Gen, g1: Gen, g2: Gen, g3: Gen, kind: int, bt: int, keep: nat)
    requires JumpType(cx.m.types, bt, kind) && Opened(cx, g, g1, kind, bt, keep) && Kept(g1, g2, keep)
    requires Sound(cx, g2) && g2.blocks != [] && BlockAt(g2, 0) == g1.blocks[|g.blocks|]
      && g2.blocks[..|g2.blocks| - 1] == g.blocks
    requires BlockAt(g2, 0).stackBase <= |g2.stack| && BlockAt(g2, 0).reuseBase <= |g2.reuse|
    requires g3 == Gen(g2.types, g2.roles, g2.reuse[..BlockAt(g2, 0).reuseBase],
        g2.stack[..BlockAt(g2, 0).stackBase], g.blocks)
    ensures Grows(g, g3) && g3.blocks == g.blocks && g3.stack == g.stack[..keep] && g3.reuse == g1.reuse
      && g.reuse <= g3.reuse
    ensures |BlockType(cx.m.types, bt).value.results| <= 1
  {
    hide Sound;
    assert g2.stack[..keep] == g1.stack[..keep];
    assert ReuseTop(g1) == |g1.reuse|;
  }

  lemma RestoredState(cx: Context, g: Gen, g3: Gen, ts: seq<ValType>, us: seq<ValType>, keep: nat)
    requires Sound(cx, g) && Ops(g, ts) && |us| <= |ts| && us == ts[..|us|] && keep <= |g.stack|
    requires |g.stack| - |ts| == keep - |us|
    requires Grows(g, g3) && g3.blocks == g.blocks && g3.stack == g.stack[..keep] && g.reuse <= g3.reuse
    ensures Kept(g, g3, |g.stack| - |ts|) && Ops(g3, us)
  {
    TopBelow(cx, g);
    OpsPop(g, g3, ts, |ts| - |us|);
  }

  lemma {:induction false} IfIsSound(cx: Context, g: Gen, i: Instr, ts: seq<ValType>)
    requires i.If?
    requires GoodContext(cx) && Sound(cx, g) && Ops(g, ts) && EndsWith(ts, [I32]) && SimpleBlock(cx.m.types, i.bt)
    requires
      var rs := BlockType(cx.m.types, i.bt).value.results;
      var labels := [Label(false, rs)] + GenLabels(cx, g);
      && BodyOk(CheckCode(cx, labels, i.thn, []), rs)
      && (i.hasElse ==> BodyOk(CheckCode(cx, labels, i.els, []), rs))
    ensures After(cx, g, ts, TransInstr(cx, g, i), Live(ts[..|ts| - 1] + BlockType(cx.m.types, i.bt).value.results))
    decreases i, 3
  {
    hide HasType, BlockType, Sound, CheckCode, TransArms, EmitBegin, Opened, GenLabels, ValidModule;
    SmallContext(cx);
    var keep := |g.stack| - 1;
    BeginSound(cx, g, KIf, i.bt, ts);
    var g1 := EmitBegin(cx, g, KIf, i.bt).g;
    ArmsAreSound(cx, g, g1, i, ts, keep);
  }

  lemma {:induction false} ArmsAreSound(cx: Context, g: Gen, g1: Gen, i: Instr, ts: seq<ValType>, keep: nat)
    requires i.If?
    requires GoodContext(cx) && Sound(cx, g) && Ops(g, ts) && |ts| > 0 && JumpType(cx.m.types, i.bt, KIf)
    requires
      var rs := BlockType(cx.m.types, i.bt).value.results;
      var labels := [Label(false, rs)] + GenLabels(cx, g);
      && BodyOk(CheckCode(cx, labels, i.thn, []), rs)
      && (i.hasElse ==> BodyOk(CheckCode(cx, labels, i.els, []), rs))
    requires keep == |g.stack| - 1 && Opened(cx, g, g1, KIf, i.bt, keep)
    ensures TransArms(cx, g1, i).Emit? && TransArms(cx, g1, i).ud == 0
    ensures
      var rs := BlockType(cx.m.types, i.bt).value.results;
      var g' := TransArms(cx, g1, i).g;
      Sound(cx, g') && Kept(g, g', |g.stack| - |ts|) && Ops(g', ts[..|ts| - 1] + rs) && |g'.stack| == keep + |rs|
    decreases i, 2
  {
    hide Ops, BlockType;
    OpenedLabels(cx, g, g1, KIf, i.bt, keep);
    if !i.hasElse {
      KeptSame(cx, g1, keep);
      TailIsSound(cx, g, g1, g1, KIf, i.bt, i.thn, ts, ts[..|ts| - 1], keep);
    } else {
      CodeIsSound(cx, g1, i.thn, []);
      var e := TransCode(cx, g1, i.thn);
      SameBlock(cx, g, g1, e.g, KIf, i.bt, keep);
      ElseSound(cx, e.g, e.ud);
      var g2 := EmitElse(cx, e.g, e.ud).g;
      KeptTrans(g1, e.g, g2, keep);
      TailIsSound(cx, g, g1, g2, KIf, i.bt, i.els, ts, ts[..|ts| - 1], keep);
    }
  }
}
