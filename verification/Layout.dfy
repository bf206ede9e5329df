/** The shape of emitted code: balanced braces, labels defined once, jumps only to open blocks. */
module Layout {
  import opened Options
  import opened Wasm
  import opened CLang
  import opened Translator
  import opened OnePass
  import opened Allocator

  // ---------------------------------------------------------------- blocks and numbers

  lemma {:induction false} PopNSame(g: Gen, n: nat)
    requires n <= |g.stack|
    ensures PopN(g, n).0.blocks == g.blocks && PopN(g, n).0.types == g.types && PopN(g, n).0.roles == g.roles
    decreases n
  {
    if n > 0 {
      PopNSame(StackPop(g).0, n - 1);
    }
  }

  predicate Extends(g: Gen, g': Gen) { g'.blocks == g.blocks && Grows(g, g') }

  lemma {:induction false} PopMovesSame(g: Gen, lhs: nat, n: nat)
    ensures var e := PopMoves(g, lhs, n);
      e.Emit? ==> Extends(g, e.g) && forall i | 0 <= i < |e.out| :: e.out[i].Assign? && e.out[i].dst.Old?
    decreases n
  {
    if n > 0 && |g.stack| > 0 {
      PopMovesSame(StackPop(g).0, lhs + 1, n - 1);
    }
  }

  lemma {:induction false} PeekMovesSame(g: Gen, lhs: nat, n: nat, i: nat)
    ensures var e := PeekMoves(g, lhs, n, i);
      e.Emit? ==> e.g == g && forall k | 0 <= k < |e.out| :: e.out[k].Assign? && e.out[k].dst.Old?
    decreases n - i
  {
    if i < n {
      PeekMovesSame(g, lhs + 1, n, i + 1);
    }
  }

  lemma {:induction false} EndStoresSame(g: Gen, first: nat, n: nat)
    ensures var e := EndStores(g, first, n);
      e.Emit? ==> Extends(g, e.g) && forall k | 0 <= k < |e.out| :: e.out[k].Assign? && e.out[k].dst.Old?
    decreases n
  {
    if n > 0 && |g.stack| > 0 {
      EndStoresSame(StackPop(g).0, first, n - 1);
    }
  }

  lemma {:induction false} DeclareResultsSame(g: Gen, ts: seq<ValType>)
    ensures var (g', out) := DeclareResults(g, ts);
      Extends(g, g') && forall k | 0 <= k < |out| :: out[k].Declare?
    decreases |ts|
  {
    if ts != [] {
      var g1 := Alloc(g, ts[|ts| - 1].Code(), ResultRole).0;
      DeclareResultsSame(g1, ts[..|ts| - 1]);
    }
  }

  lemma {:induction false} PushResultsSame(g: Gen, first: nat, ts: seq<ValType>)
    ensures var (g', out) := PushResults(g, first, ts);
      Extends(g, g') && forall k | 0 <= k < |out| :: out[k].Assign?
    decreases |ts|
  {
    if ts != [] {
      PushResultsSame(StackPush(g, ts[0]).0, first + 1, ts[1..]);
    }
  }

  // ---------------------------------------------------------------- braces

  /** The depth after scanning code, or None when a brace would close an arm it did not open. */
  function Scan(s: seq<CStmt>, d: nat): Option<nat>
    decreases s
  {
    if s == [] then Some(d)
    else if DepthAfter(s[0], d).None? then None
    else Scan(s[1..], DepthAfter(s[0], d).value)
  }

  predicate Balanced(s: seq<CStmt>) { Scan(s, 0) == Some(0) }

  predicate IsBrace(s: CStmt) { s.IfOpen? || s.ElseOpen? || s.Close? }

  lemma {:induction false} ScanPlain(s: seq<CStmt>, d: nat)
    requires forall i | 0 <= i < |s| :: !IsBrace(s[i])
    ensures Scan(s, d) == Some(d)
    decreases s
  {
    if s != [] {
      ScanPlain(s[1..], d);
    }
  }

  lemma {:induction false} ScanConcat(a: seq<CStmt>, b: seq<CStmt>, d: nat)
    ensures Scan(a + b, d) == match Scan(a, d) case None => None case Some(k) => Scan(b, k)
    decreases a
  {
    if a == [] {
      assert a + b == b;
    } else {
      assert (a + b)[0] == a[0] && (a + b)[1..] == a[1..] + b;
      if DepthAfter(a[0], d).Some? {
        ScanConcat(a[1..], b, DepthAfter(a[0], d).value);
      }
    }
  }

  lemma {:induction false} ScanDeeper(s: seq<CStmt>, d: nat, k: nat)
    requires Scan(s, d).Some?
    ensures Scan(s, d + k) == Some(Scan(s, d).value + k)
    decreases s
  {
    if s != [] {
      ScanDeeper(s[1..], DepthAfter(s[0], d).value, k);
    }
  }

  lemma BalancedConcat(a: seq<CStmt>, b: seq<CStmt>)
    requires Balanced(a) && Balanced(b)
    ensures Balanced(a + b)
  {
    ScanConcat(a, b, 0);
  }

  /** An arm of balanced code wrapped in its braces is balanced. */
  lemma BalancedArm(a: seq<CStmt>, c: nat, s: seq<CStmt>)
    requires Balanced(a) && Balanced(s)
    ensures Balanced(a + [IfOpen(c)] + s + [Close])
  {
    ScanConcat(a, [IfOpen(c)], 0);
    ScanConcat(a + [IfOpen(c)], s, 0);
    ScanDeeper(s, 0, 1);
    ScanConcat(a + [IfOpen(c)] + s, [Close], 0);
  }

  /** Looking for the end of an arm skips balanced code. */
  lemma {:induction false} SkipBalanced(code: seq<CStmt>, i: nat, s: seq<CStmt>, d: nat)
    requires i + |s| <= |code| && code[i..i + |s|] == s && Scan(s, d).Some?
    ensures SkipArm(code, i, d) == SkipArm(code, i + |s|, Scan(s, d).value)
    decreases s
  {
    if s != [] {
      assert code[i] == s[0];
      assert code[i + 1..i + 1 + |s[1..]|] == s[1..];
      SkipBalanced(code, i + 1, s[1..], DepthAfter(s[0], d).value);
    }
  }

  // ---------------------------------------------------------------- labels

  /** The labels a segment defines are distinct and within the numbers it handed out. */
  predicate LabelsWithin(s: seq<CStmt>, lo: nat, hi: nat) {
    && (forall i | 0 <= i < |s| && s[i].LabelHere? :: lo <= s[i].l < hi)
    && (forall i, j | 0 <= i < j < |s| && s[i].LabelHere? && s[j].LabelHere? :: s[i].l != s[j].l)
  }

  predicate UniqueLabels(s: seq<CStmt>) {
    forall i, j | 0 <= i < j < |s| && s[i].LabelHere? && s[j].LabelHere? :: s[i].l != s[j].l
  }

  predicate Defines(s: seq<CStmt>, l: nat) { LabelHere(l) in s }

  function Targets(s: CStmt): set<nat> {
    match s
    case Goto(l) => {l}
    case Switch(_, ls, dflt) => (set l | l in ls) + {dflt}
    case _ => {}
  }

  predicate OpenLabel(bs: seq<BlockRec>, l: nat) {
    exists k :: 0 <= k < |bs| && bs[k].lbl == l
  }

  /** Every jump goes to a block that is open or to a label of the segment itself. */
  predicate JumpsOk(g: Gen, s: seq<CStmt>) {
    forall i, l | 0 <= i < |s| && l in Targets(s[i]) :: OpenLabel(g.blocks, l) || Defines(s, l)
  }

  predicate Straightforward(s: seq<CStmt>) {
    forall i | 0 <= i < |s| :: !s[i].LabelHere? && !s[i].Goto? && !s[i].Switch? && !IsBrace(s[i])
  }

  lemma LabelsConcat(a: seq<CStmt>, b: seq<CStmt>, lo: nat, mid: nat, hi: nat)
    requires LabelsWithin(a, lo, mid) && LabelsWithin(b, mid, hi) && lo <= mid <= hi
    ensures LabelsWithin(a + b, lo, hi)
  {
  }

  lemma JumpsConcat(g: Gen, g': Gen, a: seq<CStmt>, b: seq<CStmt>)
    requires JumpsOk(g, a) && JumpsOk(g', b) && g'.blocks == g.blocks
    ensures JumpsOk(g, a + b)
  {
    forall i, l | 0 <= i < |a + b| && l in Targets((a + b)[i])
      ensures OpenLabel(g.blocks, l) || Defines(a + b, l)
    {
      if i < |a| {
        assert l in Targets(a[i]);
        assert OpenLabel(g.blocks, l) || Defines(a, l);
      } else {
        assert l in Targets(b[i - |a|]);
        assert OpenLabel(g'.blocks, l) || Defines(b, l);
      }
    }
  }

  /** What holds of an emission: its braces balance, its labels are its own, its jumps have targets. */
  predicate Shapely(g: Gen, e: Emission) {
    e.Emit? ==>
      && Extends(g, e.g)
      && Balanced(e.out)
      && LabelsWithin(e.out, |g.types|, |e.g.types|)
      && JumpsOk(g, e.out)
  }

  lemma ShapelyConcat(g: Gen, a: Emission, b: Emission)
    requires a.Emit? && Shapely(g, a) && Shapely(a.g, b)
    ensures Shapely(g, Prepend(a.out, b))
  {
    if b.Emit? {
      BalancedConcat(a.out, b.out);
      LabelsConcat(a.out, b.out, |g.types|, |a.g.types|, |b.g.types|);
      JumpsConcat(g, a.g, a.out, b.out);
    }
  }

  lemma StraightforwardShape(g: Gen, g': Gen, ud: nat, s: seq<CStmt>)
    requires Extends(g, g') && Straightforward(s)
    ensures Shapely(g, Emit(g', ud, s))
  {
    ScanPlain(s, 0);
  }

  lemma PlainShape(cx: Context, g: Gen, i: Instr)
    requires !IsBlock(i)
    ensures Shapely(g, EmitPlain(cx, g, i))
  {
    if IsStraight(i) {
      StraightShape(cx, g, i);
    } else {
      match i
      case Br(l) => BrShape(cx, g, l);
      case BrIf(l) => BrIfShape(cx, g, l);
      case BrTable(ls, dflt) => BrTableShape(g, ls, dflt);
      case Return =>
        var e := EmitReturn(cx, g);
        if e.Emit? { StraightforwardShape(g, e.g, e.ud, e.out); }
      case Call(f) =>
        var e := EmitCall(cx, g, f);
        if e.Emit? {
          PopNSame(g, |cx.m.types[cx.m.funcs[f].ty].params|);
          StraightforwardShape(g, e.g, e.ud, e.out);
        }
      case Unreachable => StraightforwardShape(g, g, 1, [Abort]);
    }
  }

  lemma StraightShape(cx: Context, g: Gen, i: Instr)
    requires IsStraight(i)
    ensures Shapely(g, EmitStraight(cx, g, i))
  {
    var e := EmitStraight(cx, g, i);
    if e.Emit? {
      PopNSame(g, Popped(i));
      StraightStmtShape(cx, g, i);
      StraightforwardShape(g, e.g, e.ud, e.out);
    }
  }

  lemma StmtIsPlain(i: Instr, args: seq<nat>, d: Dst)
    requires IsStraight(i) && |args| == Operands(i)
    ensures var s := StraightStmt(i, args, d);
      |s| <= 1 && Straightforward(s) && (s == [] <==> i.Nop?) && (s != [] ==> IsPlain(s[0]))
  {
  }

  lemma StraightStmtShape(cx: Context, g: Gen, i: Instr)
    requires IsStraight(i) && EmitStraight(cx, g, i).Emit?
    ensures Straightforward(EmitStraight(cx, g, i).out)
  {
    if MustPush(i) {
      StmtIsPlain(i, Args(g, i), StackPush(PopN(g, Popped(i)).0, Pushes(cx, g, i).value).1);
    } else {
      StmtIsPlain(i, Args(g, i), Old(0));
    }
  }

  lemma OpenAt(g: Gen, l: nat)
    requires l < |g.blocks|
    ensures OpenLabel(g.blocks, BlockAt(g, l).lbl)
  {
    assert g.blocks[|g.blocks| - 1 - l].lbl == BlockAt(g, l).lbl;
  }

  lemma BrShape(cx: Context, g: Gen, l: nat)
    ensures Shapely(g, EmitBr(cx, g, l))
  {
    var e := EmitBr(cx, g, l);
    if e.Emit? {
      OpenAt(g, l);
      var ft := BlockType(cx.m.types, TypeIndexOf(g, BlockAt(g, l))).value;
      var loop := KindOf(g, BlockAt(g, l)) == KLoop;
      PopMovesSame(g, BlockAt(g, l).lbl - (|ft.results| + if loop then |ft.params| else 0),
                   if loop then |ft.params| else |ft.results|);
      ScanPlain(e.out, 0);
    }
  }

  lemma BrIfShape(cx: Context, g: Gen, l: nat)
    ensures Shapely(g, EmitBrIf(cx, g, l))
  {
    var e := EmitBrIf(cx, g, l);
    if e.Emit? {
      OpenAt(g, l);
      var b := BlockAt(g, l);
      var ft := BlockType(cx.m.types, TypeIndexOf(g, b)).value;
      var loop := KindOf(g, b) == KLoop;
      var (g1, c) := StackPop(g);
      var lhs := b.lbl - (|ft.results| + if loop then |ft.params| else 0);
      var n := if loop then |ft.params| else |ft.results|;
      PeekMovesSame(g1, lhs, n, 0);
      var moves := PeekMoves(g1, lhs, n, 0).out;
      ScanPlain(moves + [Goto(b.lbl)], 0);
      BalancedArm([], c, moves + [Goto(b.lbl)]);
      assert e.out == [] + [IfOpen(c)] + (moves + [Goto(b.lbl)]) + [Close];
    }
  }

  lemma BrTableShape(g: Gen, ls: seq<nat>, dflt: nat)
    ensures Shapely(g, EmitBrTable(g, ls, dflt))
  {
    var e := EmitBrTable(g, ls, dflt);
    if e.Emit? {
      ScanPlain(e.out, 0);
      var g1 := StackPop(g).0;
      forall l | l in Targets(e.out[0]) ensures OpenLabel(g.blocks, l) {
        if l == BlockAt(g1, dflt).lbl {
          OpenAt(g, dflt);
        } else {
          var k :| 0 <= k < |ls| && LabelsOf(g1, ls)[k] == l;
          OpenAt(g, ls[k]);
        }
      }
    }
  }

  // ---------------------------------------------------------------- blocks

  function Braces(kind: int): nat { if kind == KIf then 1 else 0 }

  /** The rest of an open block `b`, from somewhere inside an arm to the end of the block. */
  predicate ClosesBlock(g: Gen, b: BlockRec, kind: int, e: Emission) {
    e.Emit? ==>
      && |g.blocks| > 0 && e.g.blocks == g.blocks[..|g.blocks| - 1] && Grows(g, e.g)
      && Scan(e.out, Braces(kind)) == Some(0)
      && (forall i | 0 <= i < |e.out| && e.out[i].LabelHere? ::
            (kind != KLoop && e.out[i].l == b.lbl) || |g.types| <= e.out[i].l < |e.g.types|)
      && (forall i, j | 0 <= i < j < |e.out| && e.out[i].LabelHere? && e.out[j].LabelHere? :: e.out[i].l != e.out[j].l)
      && (kind != KLoop ==> Defines(e.out, b.lbl))
      && JumpsOk(g, e.out)
  }

  lemma LeaveShape(cx: Context, g: Gen, ud: nat)
    ensures var e := LeaveArm(cx, g, ud); e.Emit? ==> Extends(g, e.g) && Straightforward(e.out)
  {
    var e := LeaveArm(cx, g, ud);
    if e.Emit? && ud == 0 {
      var b := BlockAt(g, 0);
      var n := |BlockType(cx.m.types, TypeIndexOf(g, b)).value.results|;
      EndStoresSame(g, b.lbl - n, n);
    }
  }

  lemma ScanEnd(a: seq<CStmt>, lbl: nat, kind: int, d: seq<CStmt>)
    requires Straightforward(a) && Straightforward(d)
    ensures
      var close := (if kind != KLoop then [Goto(lbl), LabelHere(lbl)] else []) + (if kind == KIf then [Close] else []);
      Scan(a + close + d, Braces(kind)) == Some(0)
  {
    var jump := if kind != KLoop then [Goto(lbl), LabelHere(lbl)] else [];
    var brace := if kind == KIf then [Close] else [];
    ScanPlain(a, Braces(kind));
    ScanPlain(jump, Braces(kind));
    ScanPlain(d, 0);
    ScanConcat(a, jump + brace, Braces(kind));
    ScanConcat(jump, brace, Braces(kind));
    ScanConcat(a + (jump + brace), d, Braces(kind));
  }

  lemma EndShape(cx: Context, g: Gen, ud: nat, b: BlockRec, kind: int)
    requires g.blocks != [] ==> BlockAt(g, 0) == b && KindOf(g, b) == kind && b.lbl < |g.types|
    ensures ClosesBlock(g, b, kind, EmitEnd(cx, g, ud))
  {
    var e := EmitEnd(cx, g, ud);
    if e.Emit? {
      LeaveShape(cx, g, ud);
      var a := LeaveArm(cx, g, ud);
      var c := BlockEnd(a.g);
      var rs := BlockType(cx.m.types, TypeIndexOf(a.g, b)).value.results;
      PushResultsSame(c.g, b.lbl - |rs|, rs);
      var d := PushResults(c.g, b.lbl - |rs|, rs).1;
      assert KindOf(a.g, b) == kind;
      EndLabels(g, e, b, kind, a.out, d);
      ScanEnd(a.out, b.lbl, kind, d);
    }
  }

  lemma EndLabels(g: Gen, e: Emission, b: BlockRec, kind: int, a: seq<CStmt>, d: seq<CStmt>)
    requires g.blocks != [] && BlockAt(g, 0) == b && e.Emit? && Straightforward(a)
    requires forall k | 0 <= k < |d| :: d[k].Assign?
    requires e.out == a + ((if kind != KLoop then [Goto(b.lbl), LabelHere(b.lbl)] else [])
      + (if kind == KIf then [Close] else [])) + d
    ensures forall i | 0 <= i < |e.out| && e.out[i].LabelHere? :: kind != KLoop && e.out[i].l == b.lbl
    ensures forall i, j | 0 <= i < j < |e.out| && e.out[i].LabelHere? && e.out[j].LabelHere? :: e.out[i].l != e.out[j].l
    ensures kind != KLoop ==> Defines(e.out, b.lbl)
    ensures JumpsOk(g, e.out)
  {
    if kind != KLoop {
      assert e.out[|a| + 1] == LabelHere(b.lbl);
    }
    forall i, l | 0 <= i < |e.out| && l in Targets(e.out[i]) ensures OpenLabel(g.blocks, l) {
      assert l == b.lbl;
      assert g.blocks[|g.blocks| - 1].lbl == l;
    }
  }

  lemma ClosesAfter(g: Gen, a: Emission, b: BlockRec, kind: int, e: Emission)
    requires a.Emit? && Extends(g, a.g) && JumpsOk(g, a.out) && LabelsWithin(a.out, |g.types|, |a.g.types|)
    requires Scan(a.out, Braces(kind)) == Some(Braces(kind)) && b.lbl < |g.types|
    requires ClosesBlock(a.g, b, kind, e)
    ensures ClosesBlock(g, b, kind, Prepend(a.out, e))
  {
    if e.Emit? {
      ScanConcat(a.out, e.out, Braces(kind));
      var r := Prepend(a.out, e);
      forall i, l | 0 <= i < |r.out| && l in Targets(r.out[i]) ensures OpenLabel(g.blocks, l) || Defines(r.out, l) {
        if i < |a.out| {
          assert l in Targets(a.out[i]);
        } else {
          assert l in Targets(e.out[i - |a.out|]);
        }
      }
      if kind != KLoop {
        assert r.out[|a.out|..] == e.out;
      }
    }
  }

  lemma {:induction false} CodeShape(cx: Context, g: Gen, c: Code)
    ensures Shapely(g, TransCode(cx, g, c))
    decreases c, 1
  {
    match c
    case Nil => StraightforwardShape(g, g, 0, []);
    case Cons(i, rest) =>
      InstrShape(cx, g, i);
      var e := TransInstr(cx, g, i);
      if e.Emit? && e.ud == 0 {
        CodeShape(cx, e.g, rest);
        ShapelyConcat(g, e, TransCode(cx, e.g, rest));
      }
  }

  lemma {:induction false} TailShape(cx: Context, g: Gen, c: Code, b: BlockRec, kind: int)
    requires g.blocks != [] && BlockAt(g, 0) == b && KindOf(g, b) == kind && b.lbl < |g.types|
    ensures ClosesBlock(g, b, kind, TransTail(cx, g, c))
    decreases c, 2
  {
    CodeShape(cx, g, c);
    var e := TransCode(cx, g, c);
    if e.Emit? {
      assert KindOf(e.g, b) == kind;
      EndShape(cx, e.g, e.ud, b, kind);
      ScanDeeper(e.out, 0, Braces(kind));
      ClosesAfter(g, e, b, kind, EmitEnd(cx, e.g, e.ud));
    }
  }

  lemma ElseShape(cx: Context, g: Gen, ud: nat)
    ensures var e := EmitElse(cx, g, ud);
      e.Emit? ==>
        && Extends(g, e.g) && JumpsOk(g, e.out) && LabelsWithin(e.out, |g.types|, |e.g.types|)
        && Scan(e.out, 1) == Some(1)
  {
    var e := EmitElse(cx, g, ud);
    if e.Emit? {
      LeaveShape(cx, g, ud);
      var a := LeaveArm(cx, g, ud).out;
      ScanPlain(a, 1);
      ScanConcat(a, [ElseOpen], 1);
    }
  }

  lemma {:induction false} ArmsShape(cx: Context, g: Gen, i: Instr, b: BlockRec)
    requires i.If? && g.blocks != [] && BlockAt(g, 0) == b && KindOf(g, b) == KIf && b.lbl < |g.types|
    ensures ClosesBlock(g, b, KIf, TransArms(cx, g, i))
    decreases i, 2
  {
    if !i.hasElse {
      TailShape(cx, g, i.thn, b, KIf);
    } else {
      CodeShape(cx, g, i.thn);
      var e := TransCode(cx, g, i.thn);
      if e.Emit? {
        ElseShape(cx, e.g, e.ud);
        var d := EmitElse(cx, e.g, e.ud);
        if d.Emit? {
          assert KindOf(d.g, b) == KIf;
          TailShape(cx, d.g, i.els, b, KIf);
          var t := TransTail(cx, d.g, i.els);
          ScanDeeper(e.out, 0, 1);
          ClosesAfter(e.g, d, b, KIf, t);
          ClosesAfter(g, e, b, KIf, Prepend(d.out, t));
          PrependTwice(e.out, d.out, t);
        }
      }
    }
  }

  /** Opening a block: its brace, and for a loop its label. */
  predicate OpensBlock(g: Gen, b: BlockRec, kind: int, e: Emission) {
    e.Emit? ==>
      && e.g.blocks == g.blocks + [b] && Grows(g, e.g)
      && |g.types| <= b.lbl && |e.g.types| == b.lbl + 1
      && Scan(e.out, 0) == Some(Braces(kind))
      && (forall i | 0 <= i < |e.out| && e.out[i].LabelHere? :: kind == KLoop && e.out[i].l == b.lbl)
      && (forall i, j | 0 <= i < j < |e.out| && e.out[i].LabelHere? && e.out[j].LabelHere? :: e.out[i].l != e.out[j].l)
      && (kind == KLoop ==> Defines(e.out, b.lbl))
      && (forall i, l | 0 <= i < |e.out| && l in Targets(e.out[i]) :: kind == KLoop && l == b.lbl)
  }

  lemma BeginShape(cx: Context, g: Gen, kind: int, bt: int)
    requires kind in {KBlock, KLoop, KIf}
    ensures var e := EmitBegin(cx, g, kind, bt);
      e.Emit? ==> e.g.blocks != [] && OpensBlock(g, BlockAt(e.g, 0), kind, e) && KindOf(e.g, BlockAt(e.g, 0)) == kind
  {
    var e := EmitBegin(cx, g, kind, bt);
    if e.Emit? {
      var ft := BlockType(cx.m.types, bt).value;
      DeclareResultsSame(g, ft.results);
      var (g1, decls) := DeclareResults(g, ft.results);
      var c := BlockBegin(g1, kind, bt);
      BlockBeginFacts(g1, kind, bt);
      BeginStmts(decls, c.out, kind, |g1.types|);
    }
  }

  lemma BlockBeginFacts(g: Gen, kind: int, bt: int)
    requires kind in {KBlock, KLoop, KIf} && BlockBegin(g, kind, bt).Emit?
    ensures
      var e := BlockBegin(g, kind, bt);
      && |e.g.blocks| == |g.blocks| + 1 && e.g.blocks == g.blocks + [BlockAt(e.g, 0)] && Grows(g, e.g)
      && BlockAt(e.g, 0).lbl == |g.types| && |e.g.types| == |g.types| + 1
      && KindOf(e.g, BlockAt(e.g, 0)) == kind
      && (kind == KBlock ==> e.out == [])
      && (kind == KLoop ==> e.out == [Goto(|g.types|), LabelHere(|g.types|)])
      && (kind == KIf ==> |e.out| == 1 && e.out[0].IfOpen?)
  {
  }

  lemma BeginStmts(decls: seq<CStmt>, out: seq<CStmt>, kind: int, lbl: nat)
    requires forall k | 0 <= k < |decls| :: decls[k].Declare?
    requires kind == KBlock ==> out == []
    requires kind == KLoop ==> out == [Goto(lbl), LabelHere(lbl)]
    requires kind == KIf ==> |out| == 1 && out[0].IfOpen?
    requires kind in {KBlock, KLoop, KIf}
    ensures var s := decls + out;
      && Scan(s, 0) == Some(Braces(kind))
      && (forall i | 0 <= i < |s| && s[i].LabelHere? :: kind == KLoop && s[i].l == lbl)
      && (forall i, j | 0 <= i < j < |s| && s[i].LabelHere? && s[j].LabelHere? :: s[i].l != s[j].l)
      && (kind == KLoop ==> Defines(s, lbl))
      && (forall i, l | 0 <= i < |s| && l in Targets(s[i]) :: kind == KLoop && l == lbl)
  {
    ScanPlain(decls, 0);
    ScanConcat(decls, out, 0);
    if kind == KLoop {
      ScanPlain(out, 0);
      assert (decls + out)[|decls| + 1] == LabelHere(lbl);
    } else if kind == KIf {
      assert Scan(out, 0) == Scan(out[1..], 1);
    }
  }

  lemma BlockShapely(g: Gen, a: Emission, b: BlockRec, kind: int, t: Emission)
    requires a.Emit? && OpensBlock(g, b, kind, a) && ClosesBlock(a.g, b, kind, t)
    ensures Shapely(g, Prepend(a.out, t))
  {
    if t.Emit? {
      ScanConcat(a.out, t.out, 0);
      assert a.g.blocks[..|a.g.blocks| - 1] == g.blocks;
      BlockJumps(g, a, b, kind, t);
    }
  }

  lemma BlockJumps(g: Gen, a: Emission, b: BlockRec, kind: int, t: Emission)
    requires a.Emit? && t.Emit? && OpensBlock(g, b, kind, a) && ClosesBlock(a.g, b, kind, t)
    ensures JumpsOk(g, a.out + t.out)
  {
    var r := a.out + t.out;
    assert forall l | Defines(t.out, l) || Defines(a.out, l) :: Defines(r, l);
    assert Defines(r, b.lbl);
    forall i, l | 0 <= i < |r| && l in Targets(r[i]) ensures OpenLabel(g.blocks, l) || Defines(r, l) {
      if i < |a.out| {
        assert l in Targets(a.out[i]);
      } else {
        assert l in Targets(t.out[i - |a.out|]);
        if !Defines(t.out, l) {
          OpenBelow(g, a.g, b, l);
        }
      }
    }
  }

  lemma OpenBelow(g: Gen, g1: Gen, b: BlockRec, l: nat)
    requires g1.blocks == g.blocks + [b] && OpenLabel(g1.blocks, l)
    ensures l == b.lbl || OpenLabel(g.blocks, l)
  {
    var k :| 0 <= k < |g1.blocks| && g1.blocks[k].lbl == l;
    if k < |g.blocks| {
      assert g.blocks[k].lbl == l;
    }
  }

  lemma {:induction false} InstrShape(cx: Context, g: Gen, i: Instr)
    ensures Shapely(g, TransInstr(cx, g, i))
    decreases i, 4
  {
    if !IsBlock(i) {
      PlainShape(cx, g, i);
    } else {
      match i
      case Block(bt, body) => BlockShape(cx, g, KBlock, bt, body);
      case Loop(bt, body) => BlockShape(cx, g, KLoop, bt, body);
      case If(bt, _, _, _) =>
        BeginShape(cx, g, KIf, bt);
        var a := EmitBegin(cx, g, KIf, bt);
        if a.Emit? {
          ArmsShape(cx, a.g, i, BlockAt(a.g, 0));
          BlockShapely(g, a, BlockAt(a.g, 0), KIf, TransArms(cx, a.g, i));
        }
    }
  }

  lemma {:induction false} BlockShape(cx: Context, g: Gen, kind: int, bt: int, body: Code)
    requires kind in {KBlock, KLoop}
    ensures Shapely(g, TransBlock(cx, g, kind, bt, body))
    decreases body, 3
  {
    BeginShape(cx, g, kind, bt);
    var a := EmitBegin(cx, g, kind, bt);
    if a.Emit? {
      TailShape(cx, a.g, body, BlockAt(a.g, 0), kind);
      BlockShapely(g, a, BlockAt(a.g, 0), kind, TransTail(cx, a.g, body));
    }
  }
}
