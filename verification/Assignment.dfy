/**
 Definite assignment in the emitted C: on every path through a function, whatever its conditions and
 however often its loops go round, each variable is assigned when it is read.
 */
module Assignment {
  import opened Options
  import opened Wasm
  import opened CLang
  import opened Translator
  import opened Allocator
  import opened CodeSound
  import opened Forms
  import opened Layout
  import opened Statements
  import opened Scoping
  import opened ScopeCode
  import opened Blocks
  import opened Braces
  import opened Functions
  import opened Steps
  import opened Sim
  import opened SimPlain
  import opened SimJumps
  import opened SimControl
  import opened SimCalls
  import opened SimBlocks
  import opened SimEnds
  import opened SimArms
  import opened SimSeq
  import opened Correct
  import opened Paths

  // ---------------------------------------------------------------- what is assigned

  /** The variables of the top `n` operands. */
  function Tops(g: Gen, n: nat): set<nat> {
    if n <= |g.stack| then set v | v in Opnds(g, n) else {}
  }

  /** The locals and the operands are assigned, and only variables in scope are. */
  predicate Stocked(a: Place, g: Gen, n: nat, pc: nat, vs: set<nat>) {
    && (forall x: nat | x < |a.cx.locals| :: x in vs)
    && n <= |g.stack| && Tops(g, n) <= vs && vs <= Names(a, pc).Keys
  }

  /** The variable that a branch to a block assigns on its way. */
  function Arriving(cx: Context, g: Gen, b: BlockRec): set<nat> {
    if b.lbl > 0 && GenLabel(cx, g, b).Types() != [] then {b.lbl - 1} else {}
  }

  /** The set `s` makes the code at the label of `b` safe, and a branch there provides it. */
  ghost predicate ExitSafe(a: Place, g: Gen, b: BlockRec, vs: set<nat>, s: set<nat>, k: nat) {
    var at := LabelAt(a, b.lbl);
    SafeAt(a, at, s, k) && s <= Names(a, at).Keys && s <= vs + Arriving(a.cx, g, b)
  }

  ghost predicate ExitsSafe(a: Place, g: Gen, vs: set<nat>, ss: seq<set<nat>>, k: nat) {
    |ss| == |g.blocks| && forall j | 0 <= j < |ss| :: ExitSafe(a, g, g.blocks[j], vs, ss[j], k)
  }

  /** Where an emission falls through, the code behind it is safe. */
  ghost predicate Onward(a: Place, pc: nat, vs: set<nat>, g: Gen, r: Check, k: nat) {
    r.Live? ==> SafeAt(a, pc, vs + Tops(g, |r.ts|), k)
  }

  lemma ExitsLater(a: Place, g: Gen, g': Gen, vs: set<nat>, vs': set<nat>, ss: seq<set<nat>>, k: nat, n: nat)
    requires Sound(a.cx, g) && Grows(g, g') && g'.blocks == g.blocks && vs <= vs' && n <= k
      && ExitsSafe(a, g, vs, ss, k)
    ensures ExitsSafe(a, g', vs', ss, n)
  {
    hide Names, SafeAt, GenLabel, Sound, LabelAt;
    SoundBlocks(a.cx, g);
    SoundRoles(a.cx, g);
    forall j | 0 <= j < |ss| ensures ExitSafe(a, g', g'.blocks[j], vs', ss[j], n) {
      BlockGrows(a.cx, g, g', g.blocks[j]);
      SafeWith(a, LabelAt(a, g.blocks[j].lbl), ss[j], ss[j], k, n);
    }
  }

  lemma TopsIn(g: Gen, n: nat, j: nat, vs: set<nat>)
    requires n <= |g.stack| && Tops(g, n) <= vs && |g.stack| - n <= j < |g.stack|
    ensures g.stack[j] in vs
  {
    assert Opnds(g, n)[j - (|g.stack| - n)] == g.stack[j];
    assert g.stack[j] in Opnds(g, n);
  }

  lemma TopIn(g: Gen, n: nat, vs: set<nat>)
    requires 0 < n <= |g.stack| && Tops(g, n) <= vs
    ensures Top(g) in vs && (n > 1 ==> g.stack[|g.stack| - 2] in vs)
  {
    hide Tops;
    TopsIn(g, n, |g.stack| - 1, vs);
    if n > 1 {
      TopsIn(g, n, |g.stack| - 2, vs);
    }
  }

  /** The operands of a state with `n` of them, when it has the lower operands of another and `w` on top. */
  lemma TopsAfter(g: Gen, n: nat, g': Gen, n': nat, low: nat, top: set<nat>)
    requires n <= |g.stack| && low <= |g.stack| && n' <= |g'.stack| && low <= |g'.stack|
      && g'.stack[..low] == g.stack[..low]
    requires |g.stack| - n <= |g'.stack| - n'
    requires forall j | low <= j < |g'.stack| :: g'.stack[j] in top
    ensures Tops(g', n') <= Tops(g, n) + top
  {
    forall v | v in Tops(g', n') ensures v in Tops(g, n) + top {
      var j :| 0 <= j < n' && Opnds(g', n')[j] == v;
      var i := |g'.stack| - n' + j;
      assert g'.stack[i] == v;
      if i < low {
        assert g.stack[..low][i] == g'.stack[..low][i];
        TopsIn(g, n, i, Tops(g, n));
      }
    }
  }

  // ---------------------------------------------------------------- branches

  lemma ExitOf(a: Place, g: Gen, l: nat, vs: set<nat>, ss: seq<set<nat>>, k: nat)
    requires ExitsSafe(a, g, vs, ss, k) && l < |g.blocks|
    ensures l < |ss| && ExitSafe(a, g, BlockAt(g, l), vs, ss[|ss| - 1 - l], k)
  {
    hide ExitSafe;
  }

  /** A goto to an open block, with what it needs. */
  lemma SafeBranch(a: Place, g: Gen, l: nat, pc: nat, scope: map<nat, ValType>, vs: set<nat>, ws: set<nat>,
      ss: seq<set<nat>>, k: nat)
    requires PlaceOk(a) && LabelsReady(a, g, scope) && l < |g.blocks| && CodeAt(a, pc, [Goto(BlockAt(g, l).lbl)])
    requires ExitsSafe(a, g, vs, ss, k) && vs + Arriving(a.cx, g, BlockAt(g, l)) <= ws
    ensures SafeAt(a, pc, ws, k)
  {
    hide Names, SafeAt, GenLabel, LabelsReady, CodeAt, Translated, FuncContext, UniqueLabels, Arriving, ExitsSafe;
    ExitOf(a, g, l, vs, ss, k);
    LabelOf(a, g, l, scope);
    var at := LabelAt(a, BlockAt(g, l).lbl);
    PlaceLabels(a, at, BlockAt(g, l).lbl);
    SafeGoto(a, pc, BlockAt(g, l).lbl, at, ws, ss[|ss| - 1 - l], k);
  }

  /** The move of a result, when there is one, and the goto. */
  lemma SafeMove(a: Place, g: Gen, l: nat, pc: nat, v: nat, scope: map<nat, ValType>, vs: set<nat>,
      ss: seq<set<nat>>, k: nat)
    requires PlaceOk(a) && LabelsReady(a, g, scope) && l < |g.blocks| && ExitsSafe(a, g, vs, ss, k)
    requires
      var b := BlockAt(g, l);
      if GenLabel(a.cx, g, b).Types() == [] then CodeAt(a, pc, [Goto(b.lbl)])
      else b.lbl > 0 && CodeAt(a, pc, [Assign(Old(b.lbl - 1), Var(v)), Goto(b.lbl)]) && v in vs
    ensures SafeAt(a, pc, vs, k)
  {
    hide SafeAt, GenLabel, LabelsReady, CodeAt, ExitsSafe, Translated, FuncContext, UniqueLabels;
    var b := BlockAt(g, l);
    if GenLabel(a.cx, g, b).Types() == [] {
      SafeBranch(a, g, l, pc, scope, vs, vs, ss, k);
    } else {
      var move := Assign(Old(b.lbl - 1), Var(v));
      assert [move, Goto(b.lbl)] == [move] + [Goto(b.lbl)];
      CodeSplit(a, pc, [move], [Goto(b.lbl)]);
      SafeBranch(a, g, l, pc + 1, scope, vs, vs + {b.lbl - 1}, ss, k);
      SafeNext(a, pc, move, vs, vs + {b.lbl - 1}, k);
    }
  }

  lemma SafeBr(a: Place, g: Gen, l: nat, ts: seq<ValType>, pc: nat, vs: set<nat>, ss: seq<set<nat>>, k: nat)
    requires Poised(a, g, ts, pc) && CheckInstr(a.cx, GenLabels(a.cx, g), Br(l), ts) != Bad && EmitBr(a.cx, g, l).Emit?
    requires CodeAt(a, pc, EmitBr(a.cx, g, l).out) && Stocked(a, g, |ts|, pc, vs) && ExitsSafe(a, g, vs, ss, k)
    ensures SafeAt(a, pc, vs, k)
  {
    hide Poised, CheckInstr, GenLabels, EmitBr, CodeAt, Names, Sound, Ops, InView, LabelsReady, PlaceOk, GoodContext,
         GenLabel, SafeAt, ExitsSafe, Tops;
    PoisedFacts(a, g, ts, pc);
    BrCase(a.cx, g, GenLabels(a.cx, g), l, ts);
    LabelCount(a.cx, g);
    BaseFits(a.cx, g, l);
    BrForm(a.cx, g, l, ts);
    if GenLabel(a.cx, g, BlockAt(g, l)).Types() != [] {
      SuffixFits(ts, GenLabel(a.cx, g, BlockAt(g, l)).Types());
      TopIn(g, |ts|, vs);
    }
    SafeMove(a, g, l, pc, if |g.stack| > 0 then Top(g) else 0, Names(a, pc), vs, ss, k);
  }

  lemma SafeBrIf(a: Place, g: Gen, l: nat, ts: seq<ValType>, pc: nat, vs: set<nat>, ss: seq<set<nat>>, k: nat)
    requires Poised(a, g, ts, pc) && CheckInstr(a.cx, GenLabels(a.cx, g), BrIf(l), ts) != Bad
      && EmitBrIf(a.cx, g, l).Emit?
    requires CodeAt(a, pc, EmitBrIf(a.cx, g, l).out) && Stocked(a, g, |ts|, pc, vs) && ExitsSafe(a, g, vs, ss, k)
    requires
      var e := EmitBrIf(a.cx, g, l);
      Onward(a, pc + |e.out|, vs, e.g, CheckInstr(a.cx, GenLabels(a.cx, g), BrIf(l), ts), k)
    ensures SafeAt(a, pc, vs, k)
  {
    hide Poised, CheckInstr, GenLabels, EmitBrIf, CodeAt, Names, Sound, Ops, InView, LabelsReady, PlaceOk, GoodContext,
         GenLabel, SafeAt, ExitsSafe, Tops, Balanced, AllFlat;
    PoisedFacts(a, g, ts, pc);
    SimControl.BrIfShape(a.cx, g, l, ts, Names(a, pc));
    TopIn(g, |ts|, vs);
    var mid := Taken(a.cx, g, l);
    ArmNames(a, pc, Top(g), mid);
    SafeMove(a, g, l, pc + 1, if |g.stack| > 1 then g.stack[|g.stack| - 2] else 0, Names(a, pc), vs, ss, k);
    DropTops(g, |ts|);
    var q := pc + 1 + |mid|;
    assert vs + Tops(StackPop(g).0, |ts| - 1) == vs;
    SafeClose(a, q, vs, vs, k);
    SafeIf(a, pc, Top(g), mid, Close, vs, vs, k);
  }

  lemma DropTops(g: Gen, n: nat)
    requires 0 < n <= |g.stack|
    ensures Tops(StackPop(g).0, n - 1) <= Tops(g, n)
  {
    TopsAfter(g, n, StackPop(g).0, n - 1, |g.stack| - 1, {});
  }

  lemma SafeBrTable(a: Place, g: Gen, ls: seq<nat>, dflt: nat, ts: seq<ValType>, pc: nat, vs: set<nat>,
      ss: seq<set<nat>>, k: nat)
    requires Poised(a, g, ts, pc) && CheckInstr(a.cx, GenLabels(a.cx, g), BrTable(ls, dflt), ts) != Bad
    requires EmitBrTable(g, ls, dflt).Emit? && CodeAt(a, pc, EmitBrTable(g, ls, dflt).out)
    requires Stocked(a, g, |ts|, pc, vs) && ExitsSafe(a, g, vs, ss, k)
    ensures SafeAt(a, pc, vs, k)
  {
    hide Poised, CheckInstr, CodeAt, Names, Sound, Ops, InView, LabelsReady, PlaceOk, GoodContext, GenLabel, SafeAt,
         ExitsSafe, Tops, GenLabels, LabelAt, EmitBrTable, LabelsOf;
    PoisedFacts(a, g, ts, pc);
    LabelCount(a.cx, g);
    BrTableCase(a.cx, g, GenLabels(a.cx, g), ls, dflt, ts);
    TableOut(g, ls, dflt);
    TopIn(g, |ts|, vs);
    var targets, last := LabelsOf(StackPop(g).0, ls), BlockAt(StackPop(g).0, dflt).lbl;
    forall t | t in targets || t == last ensures SafeAt(a, LabelAt(a, t), vs * Names(a, LabelAt(a, t)).Keys, k) {
      var l := TableTarget(g, ls, dflt, t);
      SafeTarget(a, g, l, vs, ss, k);
    }
    SafeTable(a, pc, Top(g), targets, last, vs, k);
  }

  /** The depth of a table's target. */
  lemma TableTarget(g: Gen, ls: seq<nat>, dflt: nat, t: nat) returns (l: nat)
    requires |g.stack| > 0 && dflt < |g.blocks| && forall k | 0 <= k < |ls| :: ls[k] < |g.blocks|
    requires t in LabelsOf(StackPop(g).0, ls) || t == BlockAt(StackPop(g).0, dflt).lbl
    ensures (l in ls || l == dflt) && l < |g.blocks| && BlockAt(g, l).lbl == t
  {
    l := dflt;
    if t != BlockAt(g, dflt).lbl {
      var k :| 0 <= k < |ls| && LabelsOf(StackPop(g).0, ls)[k] == t;
      l := ls[k];
    }
  }

  lemma TableOut(g: Gen, ls: seq<nat>, dflt: nat)
    requires EmitBrTable(g, ls, dflt).Emit?
    ensures |g.stack| > 0 && dflt < |g.blocks| && forall k | 0 <= k < |ls| :: ls[k] < |g.blocks|
    ensures EmitBrTable(g, ls, dflt).out
      == [Switch(Top(g), LabelsOf(StackPop(g).0, ls), BlockAt(StackPop(g).0, dflt).lbl)]
  {
  }

  lemma SafeTable(a: Place, pc: nat, c: nat, ls: seq<nat>, dflt: nat, vs: set<nat>, k: nat)
    requires a.fn < |a.p| && CodeAt(a, pc, [Switch(c, ls, dflt)]) && c in vs
    requires forall l | l in ls || l == dflt :: SafeAt(a, LabelAt(a, l), vs * Names(a, LabelAt(a, l)).Keys, k)
    ensures SafeAt(a, pc, vs, k)
  {
    hide Names, CodeAt, SafeAt;
    forall l | l in ls || l == dflt
      ensures SafeAt(a, FindLabel(a.Body(), l, 0), vs * Names(a, FindLabel(a.Body(), l, 0)).Keys, k)
    {
      assert SafeAt(a, LabelAt(a, l), vs * Names(a, LabelAt(a, l)).Keys, k);
    }
    SafeSwitch(a, pc, c, ls, dflt, vs, k);
  }

  lemma SafeTarget(a: Place, g: Gen, l: nat, vs: set<nat>, ss: seq<set<nat>>, k: nat)
    requires Sound(a.cx, g) && l < |g.blocks| && ExitsSafe(a, g, vs, ss, k) && GenLabels(a.cx, g)[l].Types() == []
    ensures SafeAt(a, LabelAt(a, BlockAt(g, l).lbl), vs * Names(a, LabelAt(a, BlockAt(g, l).lbl)).Keys, k)
  {
    hide Names, SafeAt, Sound, ExitsSafe, LabelAt;
    BaseFits(a.cx, g, l);
    ExitOf(a, g, l, vs, ss, k);
    var at := LabelAt(a, BlockAt(g, l).lbl);
    SafeWith(a, at, ss[|ss| - 1 - l], vs * Names(a, at).Keys, k, k);
  }

  lemma SafeReturn(a: Place, g: Gen, ts: seq<ValType>, pc: nat, vs: set<nat>, k: nat)
    requires Poised(a, g, ts, pc) && CheckInstr(a.cx, GenLabels(a.cx, g), Return, ts) != Bad
      && EmitReturn(a.cx, g).Emit?
    requires CodeAt(a, pc, EmitReturn(a.cx, g).out) && Stocked(a, g, |ts|, pc, vs)
    ensures SafeAt(a, pc, vs, k)
  {
    hide Poised, CheckInstr, GenLabels, CodeAt, Names, Sound, Ops, InView, LabelsReady, PlaceOk, GoodContext,
         EmitReturn, SafeAt, Tops;
    PoisedFacts(a, g, ts, pc);
    ReturnCase(a.cx, g, GenLabels(a.cx, g), ts);
    ReturnForm(a.cx, g, ts);
    if a.cx.results == [] {
      SafeLast(a, pc, Ret(None), vs, k);
    } else {
      TopIn(g, |ts|, vs);
      SafeLast(a, pc, Ret(Some(Top(g))), vs, k);
    }
  }

  // ---------------------------------------------------------------- straight-line instructions and calls

  /** A value is computed from assigned variables and put in its target. */
  lemma StraightReads(i: Instr, args: seq<nat>, d: Dst, vs: set<nat>)
    requires IsStraight(i) && |args| == Operands(i) && (Peeks(i) ==> Operands(i) > 0)
    requires (forall v | v in args :: v in vs) && (i.LocalGet? || i.LocalSet? || i.LocalTee? ==> i.x in vs)
    ensures
      var out := StraightStmt(i, args, d);
      && |out| <= 1 && (out == [] ==> !IsValue(i) && !i.LocalTee?)
      && (out != [] ==>
            && Falls(out[0]) && !out[0].IfOpen? && Reads(out[0]) <= vs && vs <= Filled(out[0], vs)
            && (IsValue(i) || i.LocalTee? ==> Target(i, args, d) in Filled(out[0], vs)))
  {
    var scope := map v | v in vs :: I32;
    assert scope.Keys == vs;
    assert AllIn(args, scope);
    if IsValue(i) {
      ValueForm(i, args, d);
      ValueRefs(i, args, scope);
    } else {
      OtherReads(i, args, d, vs, scope);
    }
  }

  lemma OtherReads(i: Instr, args: seq<nat>, d: Dst, vs: set<nat>, scope: map<nat, ValType>)
    requires IsStraight(i) && |args| == Operands(i) && !IsValue(i) && scope.Keys == vs && AllIn(args, scope)
    requires i.LocalSet? || i.LocalTee? ==> i.x in scope
    ensures
      var out := StraightStmt(i, args, d);
      && |out| <= 1 && (out == [] ==> !i.LocalTee?)
      && (out != [] ==>
            && Falls(out[0]) && !out[0].IfOpen? && Reads(out[0]) <= vs && vs <= Filled(out[0], vs)
            && (i.LocalTee? ==> Target(i, args, d) in vs))
  {
    OtherRefs(i, args, scope);
    assert StraightStmt(i, args, d) == StraightStmt(i, args, Old(0));
  }

  lemma SafeStraight(a: Place, g: Gen, i: Instr, ts: seq<ValType>, pc: nat, vs: set<nat>, k: nat)
    requires Poised(a, g, ts, pc) && IsStraight(i) && CheckStraight(a.cx, i, ts).Live? && EmitStraight(a.cx, g, i).Emit?
    requires CodeAt(a, pc, EmitStraight(a.cx, g, i).out) && Stocked(a, g, |ts|, pc, vs)
    requires
      var e := EmitStraight(a.cx, g, i);
      Onward(a, pc + |e.out|, vs, e.g, CheckStraight(a.cx, i, ts), k)
    ensures SafeAt(a, pc, vs, k)
  {
    hide Poised, CodeAt, Names, Sound, Ops, InView, LabelsReady, PlaceOk, GoodContext, EmitStraight, CheckStraight,
         StraightStmt, SafeAt, Tops, IsValue, Target, Peeks, MustPush, DstOf, Operands, IsStraight, Writes, ValueType,
         LocalsOk, Reads, Filled, Sets, Falls;
    PoisedFacts(a, g, ts, pc);
    StraightForm(a.cx, g, i, ts, Names(a, pc));
    CheckOuts(a.cx, g, i, ts);
    var e, r, d, args := EmitStraight(a.cx, g, i), CheckStraight(a.cx, i, ts), DstOf(a.cx, g, i), Args(g, i);
    LocalIndex(a.cx, i, ts);
    ArgsAssigned(g, i, |ts|, vs);
    StraightReads(i, args, d, vs);
    var top := if IsValue(i) || i.LocalTee? then {Target(i, args, d)} else {};
    TopsAfter(g, |ts|, e.g, |r.ts|, |g.stack| - Operands(i), top);
    if e.out == [] {
      SafeWith(a, pc, vs + Tops(e.g, |r.ts|), vs, k, k);
    } else {
      assert e.out == [e.out[0]];
      SafeNext(a, pc, e.out[0], vs, vs + Tops(e.g, |r.ts|), k);
    }
  }

  lemma ArgsAssigned(g: Gen, i: Instr, n: nat, vs: set<nat>)
    requires Operands(i) <= n <= |g.stack| && Tops(g, n) <= vs
    ensures forall v | v in Args(g, i) :: v in vs
  {
    hide Tops;
    forall v | v in Args(g, i) ensures v in vs {
      var j :| 0 <= j < Operands(i) && Args(g, i)[j] == v;
      TopsIn(g, n, |g.stack| - Operands(i) + j, vs);
    }
  }

  lemma SafeCall(a: Place, g: Gen, f: nat, ts: seq<ValType>, pc: nat, vs: set<nat>, k: nat)
    requires Poised(a, g, ts, pc) && CheckInstr(a.cx, GenLabels(a.cx, g), Call(f), ts) != Bad
      && EmitCall(a.cx, g, f).Emit?
    requires CodeAt(a, pc, EmitCall(a.cx, g, f).out) && Stocked(a, g, |ts|, pc, vs)
    requires
      var e := EmitCall(a.cx, g, f);
      Onward(a, pc + |e.out|, vs, e.g, CheckInstr(a.cx, GenLabels(a.cx, g), Call(f), ts), k)
    ensures SafeAt(a, pc, vs, k)
  {
    hide Poised, CheckInstr, GenLabels, EmitCall, CodeAt, Names, Sound, Ops, InView, LabelsReady, PlaceOk, GoodContext,
         SafeAt, Tops, CallDst, TypeAt, Callable, DstOk;
    PoisedFacts(a, g, ts, pc);
    CallShape(a.cx, g, f, ts, Names(a, pc));
    var n, to, e := |TypeAt(a.cx.m, f).params|, CallDst(a.cx, g, f), EmitCall(a.cx, g, f);
    var r := CheckInstr(a.cx, GenLabels(a.cx, g), Call(f), ts);
    var top := if to.Some? then {to.value.v} else {};
    OpndsAssigned(g, |ts|, n, vs);
    CallCount(a.cx, f, to);
    TopsAfter(g, |ts|, e.g, |r.ts|, |g.stack| - n, top);
    SafeNext(a, pc, CallTo(to, f, Opnds(g, n)), vs, vs + Tops(e.g, |r.ts|), k);
  }

  lemma CallCount(cx: Context, f: nat, to: Option<Dst>)
    requires Callable(cx.m, f) && (to.None? <==> TypeAt(cx.m, f).results == [])
    ensures |TypeAt(cx.m, f).results| == if to.None? then 0 else 1
  {
  }

  lemma OpndsAssigned(g: Gen, n: nat, m: nat, vs: set<nat>)
    requires m <= n <= |g.stack| && Tops(g, n) <= vs
    ensures forall v | v in Opnds(g, m) :: v in vs
  {
    hide Tops;
    forall v | v in Opnds(g, m) ensures v in vs {
      var j :| 0 <= j < m && Opnds(g, m)[j] == v;
      TopsIn(g, n, |g.stack| - m + j, vs);
    }
  }

  lemma SafePlain(a: Place, g: Gen, i: Instr, ts: seq<ValType>, pc: nat, vs: set<nat>, ss: seq<set<nat>>, k: nat)
    requires !IsBlock(i)
    requires Poised(a, g, ts, pc) && CheckInstr(a.cx, GenLabels(a.cx, g), i, ts) != Bad && EmitPlain(a.cx, g, i).Emit?
    requires CodeAt(a, pc, EmitPlain(a.cx, g, i).out) && Stocked(a, g, |ts|, pc, vs) && ExitsSafe(a, g, vs, ss, k)
    requires
      var e := EmitPlain(a.cx, g, i);
      Onward(a, pc + |e.out|, vs, e.g, CheckInstr(a.cx, GenLabels(a.cx, g), i, ts), k)
    ensures SafeAt(a, pc, vs, k)
  {
    hide Poised, GenLabels, CodeAt, CheckInstr, EmitPlain, Names, Sound, Ops, InView, LabelsReady, PlaceOk, GoodContext,
         EmitStraight, CheckStraight, ExitsSafe, Stocked, Onward, SafeAt;
    PoisedFacts(a, g, ts, pc);
    if IsStraight(i) {
      StraightCase(a.cx, g, GenLabels(a.cx, g), i, ts);
      SafeStraight(a, g, i, ts, pc, vs, k);
    } else if i.Call? {
      CallIs(a.cx, g, i.f, ts);
      SafeCall(a, g, i.f, ts, pc, vs, k);
    } else {
      SafeTransfer(a, g, i, ts, pc, vs, ss, k);
    }
  }

  lemma SafeTransfer(a: Place, g: Gen, i: Instr, ts: seq<ValType>, pc: nat, vs: set<nat>, ss: seq<set<nat>>, k: nat)
    requires !IsBlock(i) && !IsStraight(i) && !i.Call?
    requires Poised(a, g, ts, pc) && CheckInstr(a.cx, GenLabels(a.cx, g), i, ts) != Bad && EmitPlain(a.cx, g, i).Emit?
    requires CodeAt(a, pc, EmitPlain(a.cx, g, i).out) && Stocked(a, g, |ts|, pc, vs) && ExitsSafe(a, g, vs, ss, k)
    requires
      var e := EmitPlain(a.cx, g, i);
      Onward(a, pc + |e.out|, vs, e.g, CheckInstr(a.cx, GenLabels(a.cx, g), i, ts), k)
    ensures SafeAt(a, pc, vs, k)
  {
    hide *;
    PoisedFacts(a, g, ts, pc);
    TransferKinds(i);
    var labels := GenLabels(a.cx, g);
    if i.Br? {
      BrCase(a.cx, g, labels, i.l, ts);
      SafeBr(a, g, i.l, ts, pc, vs, ss, k);
    } else if i.BrIf? {
      BrIfCase(a.cx, g, labels, i.l, ts);
      SafeBrIf(a, g, i.l, ts, pc, vs, ss, k);
    } else if i.BrTable? {
      BrTableCase(a.cx, g, labels, i.ls, i.dflt, ts);
      SafeBrTable(a, g, i.ls, i.dflt, ts, pc, vs, ss, k);
    } else if i.Return? {
      ReturnCase(a.cx, g, labels, ts);
      SafeReturn(a, g, ts, pc, vs, k);
    } else {
      UnreachableCase(a.cx, g, labels, ts);
      AbortReads();
      SafeLast(a, pc, Abort, vs, k);
    }
  }

  lemma TransferKinds(i: Instr)
    requires !IsBlock(i) && !IsStraight(i) && !i.Call?
    ensures i.Br? || i.BrIf? || i.BrTable? || i.Return? || i == Unreachable
  {
  }

  lemma AbortReads()
    ensures Reads(Abort) == {}
  {
  }

  // ---------------------------------------------------------------- blocks

  /** What is known in front of a block. */
  ghost predicate Around(a: Place, b: BlockSite, pc: nat, vs: set<nat>, ss: seq<set<nat>>, k: nat) {
    && Sited(a, b, pc) && ExitsSafe(a, b.g, vs, ss, k)
    && (forall x: nat | x < |a.cx.locals| :: x in vs)
    && |b.ts| <= |b.g.stack| && Tops(b.g, |b.ts|) <= vs && vs <= Visible(b.sc).Keys
  }

  /** What is assigned at the block's end, however it is reached. */
  function Own(b: BlockSite, vs: set<nat>): set<nat> {
    if b.Results() != [] && b.Lbl() > 0 then vs + {b.Lbl() - 1} else vs
  }

  /** What is assigned at the block's label. */
  function AtLabel(b: BlockSite, vs: set<nat>): set<nat> { if b.kind == KLoop then vs else Own(b, vs) }

  /** The code behind the block is safe with the block's results. */
  ghost predicate Beyond(a: Place, b: BlockSite, pc: nat, g: Gen, vs: set<nat>, k: nat) {
    SafeAt(a, pc, vs + Tops(g, |b.Rest()| + |b.Results()|), k)
  }

  lemma AroundParts(a: Place, b: BlockSite, pc: nat, vs: set<nat>, ss: seq<set<nat>>, k: nat)
    requires Around(a, b, pc, vs, ss, k)
    ensures Sited(a, b, pc) && ExitsSafe(a, b.g, vs, ss, k) && vs <= Visible(b.sc).Keys
    ensures |b.ts| <= |b.g.stack| && Tops(b.g, |b.ts|) <= vs
    ensures forall x: nat | x < |a.cx.locals| :: x in vs
  {
  }

  lemma AroundLess(a: Place, b: BlockSite, pc: nat, vs: set<nat>, ss: seq<set<nat>>, k: nat, n: nat)
    requires Around(a, b, pc, vs, ss, k) && n <= k
    ensures Around(a, b, pc, vs, ss, n)
  {
    hide Sited, ExitsSafe, SiteOk, Tops, Visible;
    AroundParts(a, b, pc, vs, ss, k);
    SitedContext(a, b, pc);
    assert Sound(b.cx, b.g) by { SiteView(b); }
    ExitsLater(a, b.g, b.g, vs, vs, ss, k, n);
  }

  lemma BeyondLess(a: Place, b: BlockSite, pc: nat, g: Gen, vs: set<nat>, k: nat, n: nat)
    requires Beyond(a, b, pc, g, vs, k) && n <= k
    ensures Beyond(a, b, pc, g, vs, n)
  {
    hide SafeAt, Tops;
    var ws := vs + Tops(g, |b.Rest()| + |b.Results()|);
    SafeWith(a, pc, ws, ws, k, n);
  }

  /** Everything assigned stays in scope wherever the block's scope is. */
  lemma OwnSeen(b: BlockSite, vs: set<nat>, scope: map<nat, ValType>)
    requires SiteOk(b) && vs <= Visible(b.sc).Keys && forall v | v in Visible(b.Base()) :: v in scope
    ensures vs <= Own(b, vs) <= scope.Keys && AtLabel(b, vs) <= scope.Keys
  {
    hide SiteOk, Visible;
    SiteFacts(b);
    SiteOpens(b);
    BaseScope(b);
  }

  lemma ArmOwnSeen(a: Place, b: BlockSite, g: Gen, sc: Scope, at: nat, vs: set<nat>)
    requires SiteOk(b) && InArm(b, g, sc) && ScopeOf(a, at) == sc && vs <= Visible(b.sc).Keys
    ensures vs <= Own(b, vs) <= Names(a, at).Keys && AtLabel(b, vs) <= Names(a, at).Keys
  {
    hide SiteOk, InArm, Visible, ScopeOf;
    ArmSees(b, g, sc);
    OwnSeen(b, vs, Names(a, at));
  }

  /** The result goes to the operand that the code behind the block uses. */
  lemma SafePush(a: Place, b: BlockSite, pc: nat, g: Gen, ud: nat, sc: Scope, at: nat, vs: set<nat>, k: nat)
    requires Sited(a, b, pc) && EndAt(a, b, g, ud, sc, at) && |b.ts| <= |b.g.stack| && Tops(b.g, |b.ts|) <= vs
    requires Beyond(a, b, at + |EmitEnd(b.cx, g, ud).out|, EmitEnd(b.cx, g, ud).g, vs, k)
    ensures SafeAt(a, PushAt(b, g, ud, at), Own(b, vs), k)
  {
    hide *;
    SitedContext(a, b, pc);
    EndIs(a, b, g, ud, sc, at);
    EndArm(a, b, g, ud, sc, at);
    EndPlaces(a, b, pc, g, ud, sc, at);
    SiteFacts(b);
    RestoredStack(b, g);
    EndLength(b, g, ud, at);
    var q, n, r := PushAt(b, g, ud, at), |b.Rest()| + |b.Results()|, EndState(b, g);
    BeyondParts(a, b, at + |EmitEnd(b.cx, g, ud).out|, r, vs, k);
    if b.Results() == [] {
      NoPush(b, g);
      OwnNone(b, vs);
      TopsAfter(b.g, |b.ts|, r, n, b.Keep(), {});
      SafeWith(a, q, vs + Tops(r, n), vs, k, k);
    } else {
      OnePush(a, b, g, sc);
      OwnOne(b, vs);
      var d := ResultDst(b, g);
      TopsAfter(b.g, |b.ts|, r, n, b.Keep(), {d.v});
      MoveReads(d, b.Lbl() - 1, Own(b, vs));
      SafeNext(a, q, Assign(d, Var(b.Lbl() - 1)), Own(b, vs), vs + Tops(r, n), k);
    }
  }

  lemma BeyondParts(a: Place, b: BlockSite, pc: nat, g: Gen, vs: set<nat>, k: nat)
    requires Beyond(a, b, pc, g, vs, k)
    ensures SafeAt(a, pc, vs + Tops(g, |b.Rest()| + |b.Results()|), k)
  {
  }

  lemma OwnNone(b: BlockSite, vs: set<nat>)
    requires b.Results() == []
    ensures Own(b, vs) == vs
  {
  }

  lemma OwnOne(b: BlockSite, vs: set<nat>)
    requires b.Results() != [] && b.Lbl() > 0
    ensures Own(b, vs) == vs + {b.Lbl() - 1}
  {
  }

  lemma MoveReads(d: Dst, v: nat, vs: set<nat>)
    ensures Reads(Assign(d, Var(v))) == {v} && Filled(Assign(d, Var(v)), vs) == vs + {d.v}
    ensures Falls(Assign(d, Var(v))) && !Assign(d, Var(v)).IfOpen?
  {
  }

  lemma EndLength(b: BlockSite, g: Gen, ud: nat, at: nat)
    ensures at + |LeaveOut(b, g, ud)| + |CloseStmts(b.Lbl(), b.kind)| == PushAt(b, g, ud, at)
  {
  }

  lemma NoPush(b: BlockSite, g: Gen)
    requires b.Results() == []
    ensures PushStmts(b, g) == [] && EndState(b, g) == Restored(b, g)
  {
  }

  lemma OnePush(a: Place, b: BlockSite, g: Gen, sc: Scope)
    requires SiteOk(b) && InArm(b, g, sc) && b.Results() != []
    ensures b.Lbl() > 0 && PushStmts(b, g) == [Assign(ResultDst(b, g), Var(b.Lbl() - 1))]
    ensures EndState(b, g).stack == Restored(b, g).stack + [ResultDst(b, g).v]
  {
    hide SiteOk, InArm, Restored, StackPush;
    SiteFacts(b);
    SiteOpens(b);
    RestoredView(b, g, sc);
    PushResultDst(b.cx, Restored(b, g), b.Rest(), b.Results()[0], Visible(Closed(b, sc)));
  }

  /** From behind the label. */
  lemma SafeClosing(a: Place, b: BlockSite, pc: nat, g: Gen, ud: nat, sc: Scope, at: nat, vs: set<nat>, k: nat)
    requires Sited(a, b, pc) && EndAt(a, b, g, ud, sc, at) && |b.ts| <= |b.g.stack| && Tops(b.g, |b.ts|) <= vs
    requires vs <= Visible(b.sc).Keys
    requires Beyond(a, b, at + |EmitEnd(b.cx, g, ud).out|, EmitEnd(b.cx, g, ud).g, vs, k)
    ensures SafeAt(a, CloseAt(b, g, ud, at), Own(b, vs), k)
  {
    hide Sited, EndAt, SiteOk, EmitEnd, LeaveOut, CodeAt, SafeAt, Tops, ScopeOf, Visible, Own, Beyond;
    SitedContext(a, b, pc);
    SafePush(a, b, pc, g, ud, sc, at, vs, k);
    if b.kind == KIf {
      EndPlaces(a, b, pc, g, ud, sc, at);
      LabelPlaces(a, b, pc, g, ud, sc, at);
      OwnSeen(b, vs, Names(a, PushAt(b, g, ud, at)));
      SafeClose(a, CloseAt(b, g, ud, at), Own(b, vs), Own(b, vs), k);
    }
  }

  /** From the label of a block that is not a loop. */
  lemma SafeLabel(a: Place, b: BlockSite, pc: nat, g: Gen, ud: nat, sc: Scope, at: nat, vs: set<nat>, k: nat)
    requires Sited(a, b, pc) && EndAt(a, b, g, ud, sc, at) && b.kind != KLoop
    requires SafeAt(a, CloseAt(b, g, ud, at), Own(b, vs), k)
    ensures SafeAt(a, at + |LeaveOut(b, g, ud)| + 1, Own(b, vs), k)
  {
    hide Sited, EndAt, SiteOk, LeaveOut, CodeAt, SafeAt, ScopeOf, Own, OwnLabel;
    SitedContext(a, b, pc);
    LabelPlaces(a, b, pc, g, ud, sc, at);
    SafeNext(a, at + |LeaveOut(b, g, ud)| + 1, LabelHere(b.Lbl()), Own(b, vs), Own(b, vs), k);
  }

  /** The move of an arm's result. */
  lemma SafeLeave(a: Place, b: BlockSite, pc: nat, g: Gen, sc: Scope, at: nat, vs: set<nat>, k: nat)
    requires Sited(a, b, pc) && ArmEnd(b, g, 0, sc) && CodeAt(a, at, LeaveOut(b, g, 0))
    requires SafeAt(a, at + |LeaveOut(b, g, 0)|, Own(b, vs), k)
    ensures SafeAt(a, at, vs + Tops(g, |b.Results()|), k)
  {
    hide Sited, SiteOk, ArmEnd, LeaveOut, CodeAt, SafeAt, Tops;
    SitedContext(a, b, pc);
    LeaveOuts(b, g, sc);
    var ws := vs + Tops(g, |b.Results()|);
    if b.Results() == [] {
      SafeWith(a, at, Own(b, vs), ws, k, k);
    } else {
      ResultsFit(b, g, sc);
      TopIn(g, |b.Results()|, ws);
      SafeNext(a, at, Assign(Old(b.Lbl() - 1), Var(Top(g))), ws, Own(b, vs), k);
    }
  }

  lemma ResultsFit(b: BlockSite, g: Gen, sc: Scope)
    requires ArmEnd(b, g, 0, sc)
    ensures |b.Results()| <= |g.stack|
  {
    hide InArm, InView;
  }

  /** Falling off the end of the last arm. */
  lemma SafeOff(a: Place, b: BlockSite, pc: nat, g: Gen, sc: Scope, at: nat, vs: set<nat>, k: nat)
    requires Sited(a, b, pc) && EndAt(a, b, g, 0, sc, at) && vs <= Visible(b.sc).Keys
    requires SafeAt(a, CloseAt(b, g, 0, at), Own(b, vs), k)
    ensures SafeAt(a, at, vs + Tops(g, |b.Results()|), k)
  {
    hide *;
    SitedContext(a, b, pc);
    EndArm(a, b, g, 0, sc, at);
    EndPlaces(a, b, pc, g, 0, sc, at);
    if b.kind == KLoop {
      LoopClose(b, g, at);
    } else {
      var q := at + |LeaveOut(b, g, 0)|;
      LabelPlaces(a, b, pc, g, 0, sc, at);
      SafeLabel(a, b, pc, g, 0, sc, at, vs, k);
      ArmOwnSeen(a, b, g, sc, q + 1, vs);
      SafeGoto(a, q, b.Lbl(), q + 1, Own(b, vs), Own(b, vs), k);
    }
    SafeLeave(a, b, pc, g, sc, at, vs, k);
  }

  lemma LoopClose(b: BlockSite, g: Gen, at: nat)
    requires b.kind == KLoop
    ensures CloseAt(b, g, 0, at) == at + |LeaveOut(b, g, 0)|
  {
    hide LeaveOut;
  }

  /** Inside an arm, every open label is safe, the block's own included. */
  lemma ArmExits(a: Place, b: BlockSite, pc: nat, g: Gen, sc: Scope, own: nat, vs: set<nat>, ss: seq<set<nat>>, k: nat)
    requires Around(a, b, pc, vs, ss, k) && InArm(b, g, sc) && OwnLabel(a, b, own)
    requires SafeAt(a, own, AtLabel(b, vs), k) && AtLabel(b, vs) <= Names(a, own).Keys
    ensures ExitsSafe(a, g, vs, ss + [AtLabel(b, vs)], k)
  {
    hide Sited, SiteOk, InArm, Around, SafeAt, Names, Tops, Seen, ExitSafe, AtLabel, Own, LabelAt;
    AroundParts(a, b, pc, vs, ss, k);
    SitedContext(a, b, pc);
    ArmFacts(b, g, sc);
    var n := |b.g.blocks|;
    assert |g.blocks| == n + 1;
    forall j | 0 <= j < n + 1 ensures ExitSafe(a, g, g.blocks[j], vs, (ss + [AtLabel(b, vs)])[j], k) {
      if j < n {
        OuterBlock(b, g, sc, n - 1 - j);
        assert g.blocks[j] == BlockAt(g, n - j) == b.g.blocks[j];
        ExitSame(a, b.g, g, b.g.blocks[j], vs, ss[j], k);
      } else {
        OwnExit(a, b, g, sc, own, vs, k);
      }
    }
  }

  lemma ExitSame(a: Place, g: Gen, g': Gen, b: BlockRec, vs: set<nat>, s: set<nat>, k: nat)
    requires ExitSafe(a, g, b, vs, s, k) && GenLabel(a.cx, g', b) == GenLabel(a.cx, g, b)
    ensures ExitSafe(a, g', b, vs, s, k)
  {
    hide SafeAt, Names, LabelAt, GenLabel;
  }

  lemma OwnExit(a: Place, b: BlockSite, g: Gen, sc: Scope, own: nat, vs: set<nat>, k: nat)
    requires SiteOk(b) && b.cx == a.cx && InArm(b, g, sc) && UniqueLabels(a.Body()) && own < |a.Body()|
      && a.Body()[own] == LabelHere(b.Lbl())
    requires SafeAt(a, own, AtLabel(b, vs), k) && AtLabel(b, vs) <= Names(a, own).Keys
    ensures g.blocks != [] && ExitSafe(a, g, BlockAt(g, 0), vs, AtLabel(b, vs), k)
  {
    hide SiteOk, InArm, SafeAt, Names;
    ArmFacts(b, g, sc);
    LabelFound(a.Body(), b.Lbl(), own, 0);
  }

  // ---------------------------------------------------------------- the induction

  lemma {:induction false} SafeCode(a: Place, g: Gen, c: Code, ts: seq<ValType>, pc: nat, vs: set<nat>,
      ss: seq<set<nat>>, k: nat)
    requires Poised(a, g, ts, pc) && CheckCode(a.cx, GenLabels(a.cx, g), c, ts) != Bad && TransCode(a.cx, g, c).Emit?
    requires CodeAt(a, pc, TransCode(a.cx, g, c).out) && Stocked(a, g, |ts|, pc, vs) && ExitsSafe(a, g, vs, ss, k)
    requires
      var e := TransCode(a.cx, g, c);
      Onward(a, pc + |e.out|, vs, e.g, CheckCode(a.cx, GenLabels(a.cx, g), c, ts), k)
    ensures SafeAt(a, pc, vs, k)
    decreases k, c, 1
  {
    hide Poised, GenLabels, CodeAt, CheckInstr, TransInstr, After, ScopedAfter, Names, Sound, Ops, InView, LabelsReady,
         PlaceOk, GoodContext, Kept, Widens, ScopeOf, Stocked, ExitsSafe, Onward, SafeAt;
    PoisedFacts(a, g, ts, pc);
    match c
    case Nil => SafeNil(a, g, ts, pc, vs, k);
    case Cons(i, rest) =>
      var labels := GenLabels(a.cx, g);
      var e1, r1 := TransInstr(a.cx, g, i), CheckInstr(a.cx, labels, i, ts);
      InstrIsSound(a.cx, g, i, ts);
      AfterEmits(a.cx, g, ts, e1, r1);
      NamesIs(a, pc);
      InstrScoped(a.cx, g, i, ts, ScopeOf(a, pc));
      if r1.Live? {
        var e2 := TransCode(a.cx, e1.g, rest);
        CodeSplit(a, pc, e1.out, e2.out);
        PoisedNext(a, g, ts, pc, e1, r1);
        AfterStep(a.cx, g, ts, e1, r1);
        var ws := vs + Tops(e1.g, |r1.ts|);
        StockedNext(a, g, ts, pc, e1.g, r1.ts, pc + |e1.out|, vs);
        KeptStack(g, e1.g, |g.stack| - |ts|);
        ExitsLater(a, g, e1.g, vs, ws, ss, k, k);
        OnwardMore(a, pc + |e1.out| + |e2.out|, vs, ws, e2.g, CheckCode(a.cx, labels, rest, r1.ts), k);
        SafeCode(a, e1.g, rest, r1.ts, pc + |e1.out|, ws, ss, k);
      }
      OnwardTo(a, pc + |e1.out|, vs, e1.g, r1, k);
      SafeInstr(a, g, i, ts, pc, vs, ss, k);
  }

  lemma SafeNil(a: Place, g: Gen, ts: seq<ValType>, pc: nat, vs: set<nat>, k: nat)
    requires Stocked(a, g, |ts|, pc, vs) && Onward(a, pc, vs, g, Live(ts), k)
    ensures SafeAt(a, pc, vs, k)
  {
    hide SafeAt, Tops;
    assert vs + Tops(g, |ts|) == vs;
  }

  lemma StockedNext(a: Place, g: Gen, ts: seq<ValType>, pc: nat, g': Gen, us: seq<ValType>, pc': nat, vs: set<nat>)
    requires Stocked(a, g, |ts|, pc, vs) && Poised(a, g', us, pc') && Widens(Names(a, pc), Names(a, pc'), |g.types|)
    ensures Stocked(a, g', |us|, pc', vs + Tops(g', |us|))
  {
    hide Names, Sound, Ops, GoodContext, PlaceOk, LabelsReady;
    forall v | v in Tops(g', |us|) ensures v in Names(a, pc') {
      var j :| 0 <= j < |us| && Opnds(g', |us|)[j] == v;
      assert g'.stack[|g'.stack| - |us| + j] == v;
    }
  }

  lemma OnwardMore(a: Place, pc: nat, vs: set<nat>, ws: set<nat>, g: Gen, r: Check, k: nat)
    requires Onward(a, pc, vs, g, r, k) && vs <= ws
    ensures Onward(a, pc, ws, g, r, k)
  {
    hide SafeAt, Tops;
    if r.Live? {
      SafeWith(a, pc, vs + Tops(g, |r.ts|), ws + Tops(g, |r.ts|), k, k);
    }
  }

  lemma OnwardTo(a: Place, pc: nat, vs: set<nat>, g: Gen, r: Check, k: nat)
    requires r.Live? ==> SafeAt(a, pc, vs + Tops(g, |r.ts|), k)
    ensures Onward(a, pc, vs, g, r, k)
  {
  }

  lemma {:induction false} SafeInstr(a: Place, g: Gen, i: Instr, ts: seq<ValType>, pc: nat, vs: set<nat>,
      ss: seq<set<nat>>, k: nat)
    requires Poised(a, g, ts, pc) && CheckInstr(a.cx, GenLabels(a.cx, g), i, ts) != Bad && TransInstr(a.cx, g, i).Emit?
    requires CodeAt(a, pc, TransInstr(a.cx, g, i).out) && Stocked(a, g, |ts|, pc, vs) && ExitsSafe(a, g, vs, ss, k)
    requires
      var e := TransInstr(a.cx, g, i);
      Onward(a, pc + |e.out|, vs, e.g, CheckInstr(a.cx, GenLabels(a.cx, g), i, ts), k)
    ensures SafeAt(a, pc, vs, k)
    decreases k, i, 7
  {
    hide *;
    if IsBlock(i) {
      SafeBlock(a, g, i, ts, pc, vs, ss, k);
    } else {
      TransPlain(a.cx, g, i);
      SafePlain(a, g, i, ts, pc, vs, ss, k);
    }
  }

  /** The code of an arm, when its end and the block's label are safe. */
  lemma {:induction false} SafeArm(a: Place, b: BlockSite, pc: nat, g: Gen, sc: Scope, at: nat, c: Code, own: nat,
      vs: set<nat>, ss: seq<set<nat>>, k: nat)
    requires Around(a, b, pc, vs, ss, k) && InArm(b, g, sc) && InView(b.cx, g, 0, Visible(sc)) && BodyChecked(b, c)
    requires at <= |a.Body()| && ScopeOf(a, at) == sc && TransCode(b.cx, g, c).Emit?
      && CodeAt(a, at, TransCode(b.cx, g, c).out)
    requires OwnLabel(a, b, own) && SafeAt(a, own, AtLabel(b, vs), k) && AtLabel(b, vs) <= Names(a, own).Keys
    requires
      var e := TransCode(b.cx, g, c);
      e.ud == 0 ==> SafeAt(a, at + |e.out|, vs + Tops(e.g, |b.Results()|), k)
    ensures SafeAt(a, at, vs, k)
    decreases k, c, 2
  {
    hide *;
    AroundParts(a, b, pc, vs, ss, k);
    SitedContext(a, b, pc);
    ArmPoised(a, b, pc, g, sc, at, own);
    ArmExits(a, b, pc, g, sc, own, vs, ss, k);
    ArmChecked(b, g, sc, c);
    StockedArm(a, b, pc, g, sc, at, vs);
    var e, r := TransCode(b.cx, g, c), CheckCode(b.cx, GenLabels(b.cx, g), c, []);
    if r.Live? {
      LiveResults(r, b.Results());
    }
    OnwardTo(a, at + |e.out|, vs, e.g, r, k);
    SafeCode(a, g, c, [], at, vs, ss + [AtLabel(b, vs)], k);
  }

  lemma StockedArm(a: Place, b: BlockSite, pc: nat, g: Gen, sc: Scope, at: nat, vs: set<nat>)
    requires SiteOk(b) && InArm(b, g, sc) && ScopeOf(a, at) == sc && vs <= Visible(b.sc).Keys
    requires forall x: nat | x < |a.cx.locals| :: x in vs
    ensures Stocked(a, g, 0, at, vs)
  {
    hide SiteOk, InArm, Visible, ScopeOf;
    ArmOwnSeen(a, b, g, sc, at, vs);
  }

  /** The last arm of a block that is not a loop. */
  lemma {:induction false} SafeLastArm(a: Place, b: BlockSite, pc: nat, g: Gen, sc: Scope, at: nat, c: Code,
      vs: set<nat>, ss: seq<set<nat>>, k: nat)
    requires Around(a, b, pc, vs, ss, k) && InArm(b, g, sc) && InView(b.cx, g, 0, Visible(sc)) && BodyChecked(b, c)
      && b.kind != KLoop
    requires at <= |a.Body()| && ScopeOf(a, at) == sc && TransTail(b.cx, g, c).Emit?
      && CodeAt(a, at, TransTail(b.cx, g, c).out)
    requires Beyond(a, b, at + |TransTail(b.cx, g, c).out|, TransTail(b.cx, g, c).g, vs, k)
    ensures SafeAt(a, at, vs, k)
    decreases k, c, 3
  {
    hide *;
    AroundParts(a, b, pc, vs, ss, k);
    SitedContext(a, b, pc);
    TailPlaced(a, b, pc, g, sc, at, c);
    var e := TransCode(b.cx, g, c);
    var scE, end := ScopeFold(sc, e.out), at + |e.out|;
    EndArm(a, b, e.g, e.ud, scE, end);
    SafeClosing(a, b, pc, e.g, e.ud, scE, end, vs, k);
    SafeLabel(a, b, pc, e.g, e.ud, scE, end, vs, k);
    LabelPlaces(a, b, pc, e.g, e.ud, scE, end);
    var own := end + |LeaveOut(b, e.g, e.ud)| + 1;
    ArmOwnSeen(a, b, e.g, scE, own, vs);
    NotLoop(b, vs);
    if e.ud == 0 {
      SafeOff(a, b, pc, e.g, scE, end, vs, k);
    }
    SafeArm(a, b, pc, g, sc, at, c, own, vs, ss, k);
  }

  lemma NotLoop(b: BlockSite, vs: set<nat>)
    requires b.kind != KLoop
    ensures AtLabel(b, vs) == Own(b, vs)
  {
  }

  lemma {:induction false} SafeKBlock(a: Place, b: BlockSite, pc: nat, c: Code, vs: set<nat>, ss: seq<set<nat>>, k: nat)
    requires Around(a, b, pc, vs, ss, k) && b.kind == KBlock && BodyChecked(b, c) && TransTail(b.cx, b.Start(), c).Emit?
    requires ScopeOf(a, pc + |b.Decls()|) == b.Base() && pc + |b.Decls()| <= |a.Body()|
    requires CodeAt(a, pc + |b.Decls()|, TransTail(b.cx, b.Start(), c).out)
    requires Beyond(a, b, pc + |b.Decls()| + |TransTail(b.cx, b.Start(), c).out|,
        TransTail(b.cx, b.Start(), c).g, vs, k)
    ensures SafeAt(a, pc + |b.Decls()|, vs, k)
    decreases k, c, 4
  {
    hide *;
    Kinds();
    AroundParts(a, b, pc, vs, ss, k);
    SitedContext(a, b, pc);
    ArmStart(b);
    SiteScoped(b);
    InnerIs(b);
    SafeLastArm(a, b, pc, b.Start(), b.Inner(), pc + |b.Decls()|, c, vs, ss, k);
  }

  /** A loop from its label on, for every number of rounds. */
  lemma {:induction false} SafeLoop(a: Place, b: BlockSite, pc: nat, c: Code, own: nat, vs: set<nat>,
      ss: seq<set<nat>>, k: nat)
    requires Around(a, b, pc, vs, ss, k) && b.kind == KLoop && BodyChecked(b, c) && TransTail(b.cx, b.Start(), c).Emit?
    requires OwnLabel(a, b, own) && CodeAt(a, own, [LabelHere(b.Lbl())])
      && ScopeOf(a, own) == ScopeOf(a, own + 1) == b.Base()
    requires own + 1 <= |a.Body()| && CodeAt(a, own + 1, TransTail(b.cx, b.Start(), c).out)
    requires Beyond(a, b, own + 1 + |TransTail(b.cx, b.Start(), c).out|, TransTail(b.cx, b.Start(), c).g, vs, k)
    ensures SafeAt(a, own, vs, k)
    decreases k, c, 5
  {
    hide *;
    Kinds();
    AroundParts(a, b, pc, vs, ss, k);
    SitedContext(a, b, pc);
    SiteScoped(b);
    InnerIs(b);
    ArmStart(b);
    LabelFalls(b.Lbl(), vs);
    if k > 0 {
      var n := k - 1;
      AroundLess(a, b, pc, vs, ss, k, n);
      var t := TransTail(b.cx, b.Start(), c);
      BeyondLess(a, b, own + 1 + |t.out|, t.g, vs, k, n);
      SafeLoop(a, b, pc, c, own, vs, ss, n);
      TailPlaced(a, b, pc, b.Start(), b.Inner(), own + 1, c);
      var e := TransCode(b.cx, b.Start(), c);
      var scE, end := ScopeFold(b.Inner(), e.out), own + 1 + |e.out|;
      ArmOwnSeen(a, b, b.Start(), b.Inner(), own, vs);
      OnLoop(b, vs);
      if e.ud == 0 {
        SafeClosing(a, b, pc, e.g, e.ud, scE, end, vs, n);
        SafeOff(a, b, pc, e.g, scE, end, vs, n);
      }
      SafeArm(a, b, pc, b.Start(), b.Inner(), own + 1, c, own, vs, ss, n);
    }
    SafeFall(a, own, LabelHere(b.Lbl()), vs, k);
  }

  lemma OnLoop(b: BlockSite, vs: set<nat>)
    requires b.kind == KLoop
    ensures AtLabel(b, vs) == vs
  {
  }

  lemma LabelFalls(l: nat, vs: set<nat>)
    ensures Falls(LabelHere(l)) && !LabelHere(l).IfOpen? && Reads(LabelHere(l)) <= vs && Filled(LabelHere(l), vs) == vs
  {
  }

  /** An `if` without `else`, whose type has no results. */
  lemma {:induction false} SafeIfOnly(a: Place, b: BlockSite, pc: nat, i: Instr, vs: set<nat>,
      ss: seq<set<nat>>, k: nat)
    requires Around(a, b, pc, vs, ss, k) && i.If? && !i.hasElse && b.kind == KIf && BodyChecked(b, i.thn)
      && b.Results() == []
    requires TransTail(b.cx, b.Start(), i.thn).Emit?
    requires
      var q := pc + |b.Decls()|;
      && CodeAt(a, q, [IfOpen(b.Cond())]) && CodeAt(a, q + 1, TransTail(b.cx, b.Start(), i.thn).out)
         && q + 1 <= |a.Body()|
      && ScopeOf(a, q + 1) == b.Inner()
      && Beyond(a, b, q + 1 + |TransTail(b.cx, b.Start(), i.thn).out|, TransTail(b.cx, b.Start(), i.thn).g, vs, k)
    ensures SafeAt(a, pc + |b.Decls()|, vs, k)
    decreases k, i, 4
  {
    hide *;
    Kinds();
    AroundParts(a, b, pc, vs, ss, k);
    SitedContext(a, b, pc);
    ArmStart(b);
    SiteScoped(b);
    var q := pc + |b.Decls()|;
    SafeLastArm(a, b, pc, b.Start(), b.Inner(), q + 1, i.thn, vs, ss, k);
    TailPlaced(a, b, pc, b.Start(), b.Inner(), q + 1, i.thn);
    var e := TransCode(b.cx, b.Start(), i.thn);
    var sc, end := ScopeFold(b.Inner(), e.out), q + 1 + |e.out|;
    EndArm(a, b, e.g, e.ud, sc, end);
    ArmBrace(a, b, pc, b.Start(), sc, q + 1, i.thn);
    var s := e.out + LeaveOut(b, e.g, e.ud) + [Goto(b.Lbl()), LabelHere(b.Lbl())];
    CodeJoin(a, q, [IfOpen(b.Cond())], s + [Close]);
    assert [IfOpen(b.Cond())] + (s + [Close]) == [IfOpen(b.Cond())] + s + [Close];
    SafeClosing(a, b, pc, e.g, e.ud, sc, end, vs, k);
    BraceScope(a, b, pc, e.g, e.ud, sc, end, vs);
    CondAssigned(b, vs);
    OwnNone(b, vs);
    SafeIf(a, q, b.Cond(), s, Close, vs, vs, k);
  }

  lemma CondAssigned(b: BlockSite, vs: set<nat>)
    requires SiteOk(b) && b.kind == KIf && |b.ts| <= |b.g.stack| && Tops(b.g, |b.ts|) <= vs
    ensures b.Cond() in vs
  {
    hide SiteOk, Tops;
    SiteFacts(b);
    TopIn(b.g, |b.ts|, vs);
  }

  /** What is assigned at the end of the block is in scope at its closing brace. */
  lemma BraceScope(a: Place, b: BlockSite, pc: nat, g: Gen, ud: nat, sc: Scope, at: nat, vs: set<nat>)
    requires Sited(a, b, pc) && EndAt(a, b, g, ud, sc, at) && b.kind != KLoop && vs <= Visible(b.sc).Keys
    ensures vs <= Own(b, vs) <= Names(a, CloseAt(b, g, ud, at)).Keys
  {
    hide *;
    SitedContext(a, b, pc);
    EndArm(a, b, g, ud, sc, at);
    LabelPlaces(a, b, pc, g, ud, sc, at);
    CloseIs(b, g, ud, at);
    ArmOwnSeen(a, b, g, sc, CloseAt(b, g, ud, at), vs);
  }

  /** An `if` with both arms. */
  lemma {:induction false} SafeIfElse(a: Place, b: BlockSite, pc: nat, i: Instr, vs: set<nat>,
      ss: seq<set<nat>>, k: nat)
    requires Around(a, b, pc, vs, ss, k) && i.If? && i.hasElse && b.kind == KIf && BodyChecked(b, i.thn)
      && BodyChecked(b, i.els)
    requires TransArms(b.cx, b.Start(), i).Emit?
    requires
      var q := pc + |b.Decls()|;
      && CodeAt(a, q, [IfOpen(b.Cond())]) && CodeAt(a, q + 1, TransArms(b.cx, b.Start(), i).out) && q + 1 <= |a.Body()|
      && ScopeOf(a, q + 1) == b.Inner()
      && Beyond(a, b, q + 1 + |TransArms(b.cx, b.Start(), i).out|, TransArms(b.cx, b.Start(), i).g, vs, k)
    ensures SafeAt(a, pc + |b.Decls()|, vs, k)
    decreases k, i, 4
  {
    hide *;
    Kinds();
    AroundParts(a, b, pc, vs, ss, k);
    SitedContext(a, b, pc);
    var q := pc + |b.Decls()|;
    ThenPlaced(a, b, pc, i, q + 1);
    var e := TransCode(b.cx, b.Start(), i.thn);
    var leave, x := LeaveOut(b, e.g, e.ud), EmitElse(b.cx, e.g, e.ud);
    var at := q + 1 + |e.out| + |leave| + 1;
    SafeThen(a, b, pc, i, q + 1, vs, ss, k);
    SafeLastArm(a, b, pc, x.g, b.Inner(), at, i.els, vs, ss, k);
    CodeJoin(a, q + 1, e.out, leave);
    CodeJoin(a, q + 1, e.out + leave, [ElseOpen]);
    CodeJoin(a, q, [IfOpen(b.Cond())], e.out + leave + [ElseOpen]);
    assert [IfOpen(b.Cond())] + (e.out + leave + [ElseOpen]) == [IfOpen(b.Cond())] + (e.out + leave) + [ElseOpen];
    ArmOwnSeen(a, b, x.g, b.Inner(), at, vs);
    CondAssigned(b, vs);
    SafeIf(a, q, b.Cond(), e.out + leave, ElseOpen, vs, vs, k);
  }

  /** The then-arm, which ends behind the else-arm. */
  lemma {:induction false} SafeThen(a: Place, b: BlockSite, pc: nat, i: Instr, q: nat, vs: set<nat>,
      ss: seq<set<nat>>, k: nat)
    requires Around(a, b, pc, vs, ss, k) && i.If? && i.hasElse && b.kind == KIf && BodyChecked(b, i.thn)
      && BodyChecked(b, i.els)
    requires TransArms(b.cx, b.Start(), i).Emit?
    requires q <= |a.Body()| && ScopeOf(a, q) == b.Inner() && CodeAt(a, q, TransArms(b.cx, b.Start(), i).out)
    requires Beyond(a, b, q + |TransArms(b.cx, b.Start(), i).out|, TransArms(b.cx, b.Start(), i).g, vs, k)
    ensures SafeAt(a, q, vs, k)
    decreases k, i, 3
  {
    hide *;
    Kinds();
    AroundParts(a, b, pc, vs, ss, k);
    SitedContext(a, b, pc);
    ThenPlaced(a, b, pc, i, q);
    ArmStart(b);
    SiteScoped(b);
    var e := TransCode(b.cx, b.Start(), i.thn);
    var leave, x := LeaveOut(b, e.g, e.ud), EmitElse(b.cx, e.g, e.ud);
    var at := q + |e.out| + |leave| + 1;
    TailPlaced(a, b, pc, x.g, b.Inner(), at, i.els);
    var e2 := TransCode(b.cx, x.g, i.els);
    var sc2, end := ScopeFold(b.Inner(), e2.out), at + |e2.out|;
    EndArm(a, b, e2.g, e2.ud, sc2, end);
    SafeClosing(a, b, pc, e2.g, e2.ud, sc2, end, vs, k);
    SafeLabel(a, b, pc, e2.g, e2.ud, sc2, end, vs, k);
    LabelPlaces(a, b, pc, e2.g, e2.ud, sc2, end);
    var own := end + |LeaveOut(b, e2.g, e2.ud)| + 1;
    ArmOwnSeen(a, b, e2.g, sc2, own, vs);
    NotLoop(b, vs);
    if e.ud == 0 {
      ArmBrace(a, b, pc, x.g, sc2, at, i.els);
      var s := e2.out + LeaveOut(b, e2.g, e2.ud) + [Goto(b.Lbl()), LabelHere(b.Lbl())];
      CodeJoin(a, at - 1, [ElseOpen], s + [Close]);
      assert [ElseOpen] + (s + [Close]) == [ElseOpen] + s + [Close];
      BraceScope(a, b, pc, e2.g, e2.ud, sc2, end, vs);
      SafeElse(a, at - 1, s, Own(b, vs), Own(b, vs), k);
      SafeLeave(a, b, pc, e.g, ScopeFold(b.Inner(), e.out), q + |e.out|, vs, k);
    }
    SafeArm(a, b, pc, b.Start(), b.Inner(), q, i.thn, own, vs, ss, k);
  }

  lemma {:induction false} SafeBlock(a: Place, g: Gen, i: Instr, ts: seq<ValType>, pc: nat, vs: set<nat>,
      ss: seq<set<nat>>, k: nat)
    requires IsBlock(i)
    requires Poised(a, g, ts, pc) && CheckInstr(a.cx, GenLabels(a.cx, g), i, ts) != Bad && TransInstr(a.cx, g, i).Emit?
    requires CodeAt(a, pc, TransInstr(a.cx, g, i).out) && Stocked(a, g, |ts|, pc, vs) && ExitsSafe(a, g, vs, ss, k)
    requires
      var e := TransInstr(a.cx, g, i);
      Onward(a, pc + |e.out|, vs, e.g, CheckInstr(a.cx, GenLabels(a.cx, g), i, ts), k)
    ensures SafeAt(a, pc, vs, k)
    decreases k, i, 6
  {
    hide *;
    Kinds();
    var b := SiteOf(a.cx, g, i, ts, ScopeOf(a, pc));
    SiteParts(a.cx, g, i, ts, ScopeOf(a, pc));
    BlockSited(a, g, i, ts, pc);
    SitedContext(a, b, pc);
    NamesIs(a, pc);
    AroundFirst(a, b, pc, vs, ss, k);
    AroundParts(a, b, pc, vs, ss, k);
    BeyondFirst(a, b, pc + |TransInstr(a.cx, g, i).out|, TransInstr(a.cx, g, i).g, vs, k);
    BaseScope(b);
    ScopeNext(a, pc, b.Decls());
    CodeFits(a, pc, b.Decls());
    InnerIs(b);
    RestIs(b, i);
    var q := pc + |b.Decls()|;
    if i.Block? {
      SafeKBlock(a, b, pc, i.body, vs, ss, k);
    } else if i.Loop? {
      OpensTwo(b);
      LoopPlaces(a, b, pc);
      StmtAt(a, q + 1, LabelHere(b.Lbl()));
      SafeLoop(a, b, pc, i.body, q + 1, vs, ss, k);
      NamesIs(a, q + 1);
      OwnSeen(b, vs, Names(a, q + 1));
      SafeGoto(a, q, b.Lbl(), q + 1, vs, vs, k);
    } else {
      IfScope(a, b, pc);
      if i.hasElse {
        SafeIfElse(a, b, pc, i, vs, ss, k);
      } else {
        ArmsOnly(b, i);
        SafeIfOnly(a, b, pc, i, vs, ss, k);
      }
    }
    SafeDecls(a, b, pc, vs, k);
  }

  lemma AroundFirst(a: Place, b: BlockSite, pc: nat, vs: set<nat>, ss: seq<set<nat>>, k: nat)
    requires Sited(a, b, pc) && Stocked(a, b.g, |b.ts|, pc, vs) && ExitsSafe(a, b.g, vs, ss, k)
    ensures Around(a, b, pc, vs, ss, k)
  {
    hide SiteOk, ExitsSafe, Tops, Visible, ScopeOf, LabelsReady, PlaceOk;
  }

  lemma BeyondFirst(a: Place, b: BlockSite, pc: nat, g: Gen, vs: set<nat>, k: nat)
    requires Onward(a, pc, vs, g, Live(b.Rest() + b.Results()), k)
    ensures Beyond(a, b, pc, g, vs, k)
  {
    hide SafeAt, Tops;
  }

  /** The result variable that is declared has not been assigned before. */
  lemma SafeDecls(a: Place, b: BlockSite, pc: nat, vs: set<nat>, k: nat)
    requires Sited(a, b, pc) && CodeAt(a, pc, b.Decls()) && vs <= Visible(b.sc).Keys
      && SafeAt(a, pc + |b.Decls()|, vs, k)
    ensures SafeAt(a, pc, vs, k)
  {
    hide SiteOk, CodeAt, SafeAt, Visible, ScopeOf, PlaceOk, LabelsReady;
    SitedContext(a, b, pc);
    if b.Results() != [] {
      SiteView(b);
      InViewTypes(b.cx, b.g, |b.ts|, Visible(b.sc));
      NotYet(b.g, Visible(b.sc));
      assert b.Decls() == [b.Decls()[0]];
      SafeNext(a, pc, b.Decls()[0], vs, vs, k);
    }
  }

  // ---------------------------------------------------------------- functions

  /** The declarations of the locals. */
  lemma {:induction false} SafeZeros(a: Place, first: nat, ts: seq<ValType>, i: nat, vs: set<nat>, k: nat)
    requires a.fn < |a.p| && CodeAt(a, 0, ZeroLocals(first, ts)) && i <= |ts|
    requires forall j | 0 <= j < first + i :: j in vs
    requires forall ws: set<nat> | (forall j | 0 <= j < first + |ts| :: j in ws) :: SafeAt(a, |ts|, ws, k)
    ensures SafeAt(a, i, vs, k)
    decreases |ts| - i
  {
    hide SafeAt;
    if i < |ts| {
      ZeroAt(a, first, ts, i);
      var s := DeclareZero(first + i, ts[i]);
      SafeZeros(a, first, ts, i + 1, vs + {first + i}, k);
      SafeNext(a, i, s, vs, vs + {first + i}, k);
    }
  }

  /** No path through a function of the program reads a variable before it is assigned. */
  lemma FuncSafe(m: Module, p: seq<CFunc>, f: nat, k: nat)
    requires ValidModule(m) && Translated(m, p) && f < |m.funcs| && m.funcs[f].ty < |m.types|
    ensures f < |p| && Safe(p[f], 0, Entrance(p[f]).filled, k)
  {
    hide *;
    var fn, a, b := m.funcs[f], Activation(m, p, f, NoCaller), FuncSite(m, m.funcs[f]);
    FuncPlaced(m, p, f, NoCaller);
    SiteIs(m, p, f, NoCaller);
    var n := |Zeros(m, fn)|;
    ZerosAre(m, fn);
    FuncNames(m, fn, p[f]);
    forall ws: set<nat> | (forall j | 0 <= j < |Params(m, fn)| + |fn.locals| :: j in ws) ensures SafeAt(a, n, ws, k) {
      SafeBody(m, p, f, ws, k);
    }
    SafeZeros(a, |Params(m, fn)|, fn.locals, 0, Entrance(p[f]).filled, k);
    SafeIs(a, 0, Entrance(p[f]).filled, k);
  }

  lemma SafeIs(a: Place, pc: nat, vs: set<nat>, k: nat)
    requires SafeAt(a, pc, vs, k)
    ensures a.fn < |a.p| && Safe(a.p[a.fn], pc, vs, k)
  {
  }

  lemma ZerosAre(m: Module, f: Func)
    requires f.ty < |m.types|
    ensures Zeros(m, f) == ZeroLocals(|Params(m, f)|, f.locals) && |Zeros(m, f)| == |f.locals|
  {
  }

  lemma FuncNames(m: Module, f: Func, c: CFunc)
    requires f.ty < |m.types| && c.params == m.types[f.ty].params
    ensures Params(m, f) == c.params && forall j: nat :: j in Entrance(c).filled <==> j < |c.params|
  {
  }

  /** The body of a function, from behind the declarations of its locals. */
  lemma SafeBody(m: Module, p: seq<CFunc>, f: nat, ws: set<nat>, k: nat)
    requires ValidModule(m) && Translated(m, p) && f < |m.funcs| && m.funcs[f].ty < |m.types|
    requires forall j | 0 <= j < |Params(m, m.funcs[f])| + |m.funcs[f].locals| :: j in ws
    ensures SafeAt(Activation(m, p, f, NoCaller), |Zeros(m, m.funcs[f])|, ws, k)
  {
    hide *;
    var fn, a, b := m.funcs[f], Activation(m, p, f, NoCaller), FuncSite(m, m.funcs[f]);
    FuncPlaced(m, p, f, NoCaller);
    SiteIs(m, p, f, NoCaller);
    SitedContext(a, b, |Zeros(m, fn)|);
    var n, t := |Zeros(m, fn)|, TransTail(b.cx, b.Start(), fn.body);
    LocalNumbers(Params(m, fn) + fn.locals);
    var vs := ParamScope(Params(m, fn) + fn.locals)[0].Keys;
    FuncAround(m, p, f, n, vs, k);
    AroundParts(a, b, n, vs, [], k);
    SafeReturns(a, b, n + |b.Decls()| + |t.out|, t.g, vs, k);
    BaseScope(b);
    ScopeNext(a, n, b.Decls());
    CodeFits(a, n, b.Decls());
    SitedPlace(a, b, n);
    SiteFirst(a, b, n);
    SafeKBlock(a, b, n, fn.body, vs, [], k);
    SafeDecls(a, b, n, vs, k);
    SafeWith(a, n, vs, ws, k, k);
  }

  lemma LocalNumbers(ts: seq<ValType>)
    ensures |ParamScope(ts)| == 1 && forall j: nat :: j in ParamScope(ts)[0].Keys <==> j < |ts|
  {
  }

  lemma SiteFirst(a: Place, b: BlockSite, pc: nat)
    requires Sited(a, b, pc)
    ensures b.sc == ScopeOf(a, pc)
  {
    hide SiteOk, LabelsReady, ScopeOf, Visible, PlaceOk;
  }

  lemma FuncAround(m: Module, p: seq<CFunc>, f: nat, n: nat, vs: set<nat>, k: nat)
    requires f < |m.funcs| && m.funcs[f].ty < |m.types|
    requires Sited(Activation(m, p, f, NoCaller), FuncSite(m, m.funcs[f]), n)
    requires forall j: nat :: j in vs <==> j < |Params(m, m.funcs[f])| + |m.funcs[f].locals|
    ensures Around(Activation(m, p, f, NoCaller), FuncSite(m, m.funcs[f]), n, vs, [], k)
  {
    hide Sited, SafeAt, Visible, ParamScope;
    var fn := m.funcs[f];
    ParamNames(Params(m, fn) + fn.locals);
    assert FuncSite(m, fn).g.blocks == [];
  }

  lemma SafeReturns(a: Place, b: BlockSite, at: nat, g: Gen, vs: set<nat>, k: nat)
    requires a.fn < |a.p| && CodeAt(a, at, Returns(b, g)) && |a.Body()| == at + |Returns(b, g)|
      && |g.stack| == |b.Results()| <= 1
    requires b.Rest() == []
    ensures Beyond(a, b, at, g, vs, k)
  {
    hide *;
    var ws := vs + Tops(g, |b.Rest()| + |b.Results()|);
    if b.Results() == [] {
      ReturnsNone(b, g);
      SafeDone(a, ws, k);
    } else {
      ReturnsOne(b, g);
      TopIn(g, 1, ws);
      RetReads(Top(g));
      SafeLast(a, at, Ret(Some(Top(g))), ws, k);
    }
    BeyondIs(a, b, at, g, vs, k);
  }

  lemma RetReads(v: nat)
    ensures Reads(Ret(Some(v))) == {v}
  {
  }

  lemma BeyondIs(a: Place, b: BlockSite, at: nat, g: Gen, vs: set<nat>, k: nat)
    requires SafeAt(a, at, vs + Tops(g, |b.Rest()| + |b.Results()|), k)
    ensures Beyond(a, b, at, g, vs, k)
  {
  }

  /**
   Definite assignment: on every path through the C of any function of a valid module, taking either arm
   of every condition, any target of every switch and any number of rounds, each statement reads only
   variables that were assigned on the path and whose scope it did not leave since.
   */
  lemma DefinitelyAssigned(m: Module, f: nat, ss: seq<Spot>)
    requires ValidModule(m) && f < |m.funcs|
    ensures forall fn | fn in m.funcs :: fn.ty < |m.types|
    ensures
      var c := TranslateModule(m)[f];
      Path(c, ss) ==> forall i | 0 <= i < |ss| :: ReadsAssigned(c, ss[i])
  {
    hide *;
    ModuleTranslated(m);
    var p := TranslateModule(m);
    TranslatedAll(m);
    if Path(p[f], ss) {
      forall i | 0 <= i < |ss| ensures ReadsAssigned(p[f], ss[i]) {
        FuncSafe(m, p, f, 1 + i);
        SafeAlong(p[f], ss, i, 1);
        SafeReads(p[f], ss[i]);
      }
    }
  }

  lemma TranslatedAll(m: Module)
    requires forall f | f in m.funcs :: f.ty < |m.types|
    ensures |TranslateModule(m)| == |m.funcs| && forall f | 0 <= f < |m.funcs| :: m.funcs[f].ty < |m.types|
  {
    hide TransFunc;
  }

  // ---------------------------------------------------------------- runs

  /** A frame that reads assigned variables only, however long it runs on with the values `vs` added. */
  ghost predicate FrameSafe(p: seq<CFunc>, fr: Frame, vs: set<nat>) {
    fr.fn < |p| && forall k: nat :: Safe(p[fr.fn], fr.pc, fr.env.Keys + vs, k)
  }

  ghost predicate CallersSafe(p: seq<CFunc>, c: Callers) {
    match c
    case NoCaller => true
    case Caller(fr, to, rest) => FrameSafe(p, fr, if to.Some? then {to.value.v} else {}) && CallersSafe(p, rest)
  }

  ghost predicate MachineSafe(p: seq<CFunc>, st: Machine) {
    st.Running? ==> FrameSafe(p, st.fr, {}) && CallersSafe(p, st.callers)
  }

  ghost predicate FuncsSafe(p: seq<CFunc>) {
    forall f: nat, k: nat | f < |p| :: Safe(p[f], 0, Entrance(p[f]).filled, k)
  }

  /** Where a frame goes next, with at least the variables that a path would have there. */
  lemma FrameMoves(p: seq<CFunc>, fr: Frame, fr': Frame)
    requires FrameSafe(p, fr, {}) && fr'.fn == fr.fn && fr.pc < |p[fr.fn].body|
    requires
      var f := p[fr.fn];
      || (Falls(f.body[fr.pc]) && fr'.pc == fr.pc + 1 && Filled(f.body[fr.pc], fr.env.Keys) <= fr'.env.Keys)
      || (fr'.pc in Jumps(f.body, fr.pc) && fr.env.Keys * ScopeAt(f, fr'.pc).Keys <= fr'.env.Keys)
    ensures FrameSafe(p, fr', {})
  {
    hide ScopeAt, Reads, Sets;
    var f := p[fr.fn];
    forall k: nat ensures Safe(f, fr'.pc, fr'.env.Keys + {}, k) {
      assert Safe(f, fr.pc, fr.env.Keys + {}, k + 1);
      assert fr.env.Keys + {} == fr.env.Keys;
      if fr'.pc in Jumps(f.body, fr.pc) && fr.env.Keys * ScopeAt(f, fr'.pc).Keys <= fr'.env.Keys {
        SafeMore(f, fr'.pc, fr.env.Keys * ScopeAt(f, fr'.pc).Keys, fr'.env.Keys + {}, k, k);
      } else {
        SafeMore(f, fr'.pc, Filled(f.body[fr.pc], fr.env.Keys), fr'.env.Keys + {}, k, k);
      }
    }
  }

  lemma FrameFits(p: seq<CFunc>, fr: Frame)
    requires FrameSafe(p, fr, {})
    ensures fr.fn < |p|
  {
  }

  lemma FrameReads(p: seq<CFunc>, fr: Frame)
    requires FrameSafe(p, fr, {}) && fr.pc < |p[fr.fn].body|
    ensures Reads(p[fr.fn].body[fr.pc]) <= fr.env.Keys
  {
    assert Safe(p[fr.fn], fr.pc, fr.env.Keys + {}, 1);
  }

  lemma JumpSafe(p: seq<CFunc>, fr: Frame, to: nat, callers: Callers, store: Store)
    requires FrameSafe(p, fr, {}) && CallersSafe(p, callers) && fr.pc < |p[fr.fn].body|
      && to in Jumps(p[fr.fn].body, fr.pc)
    ensures MachineSafe(p, Jump(p, fr, to, callers, store))
  {
    hide FrameSafe, ScopeAt, Jumps;
    FrameFits(p, fr);
    if to <= |p[fr.fn].body| {
      FrameMoves(p, fr, Frame(fr.fn, to, Restrict(fr.env, ScopeAt(p[fr.fn], to))));
    }
  }

  lemma GiveSafe(p: seq<CFunc>, v: Option<Val>, callers: Callers, store: Store)
    requires CallersSafe(p, callers)
    ensures MachineSafe(p, GiveBack(p, v, callers, store))
  {
    hide ScopeAt, Safe;
    var st := GiveBack(p, v, callers, store);
    if st.Running? && callers.to.Some? {
      assert st.fr.env.Keys + {} == callers.frame.env.Keys + {callers.to.value.v};
    }
  }

  lemma EnterSafe(p: seq<CFunc>, f: nat, args: seq<Val>, callers: Callers, store: Store)
    requires FuncsSafe(p) && CallersSafe(p, callers)
    ensures MachineSafe(p, Enter(p, f, args, callers, store))
  {
    hide CallersSafe, Safe;
    var st := Enter(p, f, args, callers, store);
    if st.Running? {
      assert st.fr.env.Keys + {} == Entrance(p[f]).filled;
    }
  }

  /** While a callee runs, its caller waits where it will have the result. */
  lemma CallerSafe(p: seq<CFunc>, fr: Frame, to: Option<Dst>, callers: Callers)
    requires FrameSafe(p, fr, {}) && CallersSafe(p, callers) && fr.pc < |p[fr.fn].body| && p[fr.fn].body[fr.pc].CallTo?
    requires to == p[fr.fn].body[fr.pc].to
    ensures CallersSafe(p, Caller(fr.(pc := fr.pc + 1), to, callers))
  {
    hide ScopeAt, Reads, Jumps;
    var f, s := p[fr.fn], p[fr.fn].body[fr.pc];
    var vs := if to.Some? then {to.value.v} else {};
    var next := fr.pc + 1;
    forall k: nat ensures Safe(f, next, fr.env.Keys + vs, k) {
      assert Safe(f, fr.pc, fr.env.Keys + {}, k + 1);
      assert Filled(s, fr.env.Keys + {}) == fr.env.Keys + vs;
    }
  }

  lemma PlainFills(s: CStmt, scope: map<nat, ValType>, env: Env, store: Store)
    requires IsPlain(s) && Plain(s, scope, env, store).Some?
    ensures Filled(s, env.Keys) <= Plain(s, scope, env, store).value.0.Keys
  {
    hide Eval;
  }

  lemma PlainSafe(p: seq<CFunc>, fr: Frame, callers: Callers, store: Store)
    requires FrameSafe(p, fr, {}) && CallersSafe(p, callers) && fr.pc < |p[fr.fn].body| && IsPlain(p[fr.fn].body[fr.pc])
    ensures MachineSafe(p, StepStmt(p, p[fr.fn].body[fr.pc], fr, callers, store))
  {
    hide FrameSafe, ScopeAt, Jumps, Plain, CallersSafe, Filled, StepStmt;
    FrameFits(p, fr);
    var s := p[fr.fn].body[fr.pc];
    PlainStep(p, s, fr, callers, store);
    var r := Plain(s, ScopeAt(p[fr.fn], fr.pc), fr.env, store);
    if r.Some? {
      PlainFills(s, ScopeAt(p[fr.fn], fr.pc), fr.env, store);
      FrameMoves(p, fr, Frame(fr.fn, fr.pc + 1, r.value.0));
    }
  }

  lemma LabelSafe(p: seq<CFunc>, fr: Frame, callers: Callers, store: Store)
    requires FrameSafe(p, fr, {}) && CallersSafe(p, callers) && fr.pc < |p[fr.fn].body|
    requires p[fr.fn].body[fr.pc].LabelHere? || p[fr.fn].body[fr.pc].IfOpen?
    ensures MachineSafe(p, Running(fr.(pc := fr.pc + 1), callers, store))
  {
    hide FrameSafe, ScopeAt, Jumps, CallersSafe;
    FrameMoves(p, fr, fr.(pc := fr.pc + 1));
  }

  lemma StmtSafe(p: seq<CFunc>, fr: Frame, callers: Callers, store: Store)
    requires FuncsSafe(p) && FrameSafe(p, fr, {}) && CallersSafe(p, callers) && fr.pc < |p[fr.fn].body|
    ensures MachineSafe(p, StepStmt(p, p[fr.fn].body[fr.pc], fr, callers, store))
  {
    hide FrameSafe, ScopeAt, CallersSafe, MachineSafe, Jump, Enter, GiveBack, FuncsSafe, Plain, SkipArm, FindLabel;
    StuckSafe(p);
    FrameFits(p, fr);
    var f, s := p[fr.fn], p[fr.fn].body[fr.pc];
    if IsPlain(s) {
      PlainSafe(p, fr, callers, store);
    } else {
      match s
      case IfOpen(c) =>
        var j := SkipArm(f.body, fr.pc + 1, 0);
        LabelSafe(p, fr, callers, store);
        if j < |f.body| {
          JumpSafe(p, fr, if f.body[j].ElseOpen? then j + 1 else j, callers, store);
        }
      case ElseOpen => JumpSafe(p, fr, SkipArm(f.body, fr.pc + 1, 0), callers, store);
      case Close => JumpSafe(p, fr, fr.pc + 1, callers, store);
      case Goto(l) => JumpSafe(p, fr, FindLabel(f.body, l, 0), callers, store);
      case LabelHere(_) => LabelSafe(p, fr, callers, store);
      case Switch(c, targets, dflt) =>
        if c in fr.env {
          var l := if fr.env[c].n < |targets| then targets[fr.env[c].n] else dflt;
          JumpSafe(p, fr, FindLabel(f.body, l, 0), callers, store);
        }
      case Ret(v) =>
        GiveSafe(p, None, callers, store);
        if v.Some? && f.ret.Some? && v.value in fr.env {
          GiveSafe(p, Some(Convert(f.ret.value, fr.env[v.value].n)), callers, store);
        }
      case CallTo(to, g, args) =>
        if forall i | 0 <= i < |args| :: args[i] in fr.env {
          CallerSafe(p, fr, to, callers);
          EnterSafe(p, g, seq(|args|, (i: nat) requires i < |args| && args[i] in fr.env => fr.env[args[i]]),
                    Caller(fr.(pc := fr.pc + 1), to, callers), store);
        }
      case _ =>
    }
  }

  lemma StuckSafe(p: seq<CFunc>)
    ensures MachineSafe(p, Stuck) && MachineSafe(p, MAborted)
  {
  }

  lemma StepSafe(p: seq<CFunc>, st: Machine)
    requires FuncsSafe(p) && MachineSafe(p, st)
    ensures MachineSafe(p, Step(p, st))
  {
    hide FrameSafe, CallersSafe, FuncsSafe, StepStmt, GiveBack;
    if st.Running? {
      FrameFits(p, st.fr);
      var f := p[st.fr.fn];
      if st.fr.pc < |f.body| {
        StmtSafe(p, st.fr, st.callers, st.store);
      } else {
        GiveSafe(p, None, st.callers, st.store);
      }
    }
  }

  lemma {:induction false} RunSafe(p: seq<CFunc>, st: Machine, n: nat)
    requires FuncsSafe(p) && MachineSafe(p, st)
    ensures MachineSafe(p, Run(p, st, n))
    decreases n
  {
    hide FuncsSafe, MachineSafe, Step;
    if n > 0 {
      StepSafe(p, st);
      RunSafe(p, Step(p, st), n - 1);
    }
  }

  /**
   The emitted program never reads an unassigned variable: however many steps a call runs, also when it
   never ends or ends in undefined behaviour, the statement that it is at reads assigned variables only.
   */
  lemma NeverReadsUnassigned(m: Module, f: nat, args: seq<Val>, store: Store, n: nat)
    requires ValidModule(m)
    ensures forall fn | fn in m.funcs :: fn.ty < |m.types|
    ensures
      var p := TranslateModule(m);
      match Run(p, Enter(p, f, args, NoCaller, store), n)
      case Running(fr, _, _) => fr.fn < |p| && (fr.pc < |p[fr.fn].body| ==> Reads(p[fr.fn].body[fr.pc]) <= fr.env.Keys)
      case _ => true
  {
    hide *;
    ModuleTranslated(m);
    var p := TranslateModule(m);
    TranslatedAll(m);
    forall i: nat, k: nat | i < |p| ensures Safe(p[i], 0, Entrance(p[i]).filled, k) {
      FuncSafe(m, p, i, k);
    }
    AllSafe(p);
    CallersNone(p);
    EnterSafe(p, f, args, NoCaller, store);
    var st := Enter(p, f, args, NoCaller, store);
    RunSafe(p, st, n);
    var st' := Run(p, st, n);
    if st'.Running? {
      MachineFrame(p, st');
      FrameFits(p, st'.fr);
      if st'.fr.pc < |p[st'.fr.fn].body| {
        FrameReads(p, st'.fr);
      }
    }
  }

  lemma AllSafe(p: seq<CFunc>)
    requires forall i: nat, k: nat | i < |p| :: Safe(p[i], 0, Entrance(p[i]).filled, k)
    ensures FuncsSafe(p)
  {
    hide Safe;
  }

  lemma CallersNone(p: seq<CFunc>)
    ensures CallersSafe(p, NoCaller)
  {
  }

  lemma MachineFrame(p: seq<CFunc>, st: Machine)
    requires MachineSafe(p, st) && st.Running?
    ensures FrameSafe(p, st.fr, {})
  {
  }
}
