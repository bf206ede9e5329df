/**
 The flat, one-pass translation agrees with the translation of the structured code, and instructions
 that cannot be reached leave no trace in the output.
 */
module OnePass {
  import opened Wasm
  import opened CLang
  import opened Translator

  function Continue(cx: Context, e: Emission, ts: seq<Token>): Emission
    requires forall t | t in ts :: TokenOk(t)
  {
    match e
    case Fault => Fault
    case Emit(g, ud, out) => Prepend(out, EmitTokens(cx, g, ud, ts))
  }

  lemma {:induction false} Compose(cx: Context, g: Gen, ud: nat, a: seq<Token>, b: seq<Token>)
    requires forall t | t in a :: TokenOk(t)
    requires forall t | t in b :: TokenOk(t)
    ensures forall t | t in a + b :: TokenOk(t)
    ensures EmitTokens(cx, g, ud, a + b) == Continue(cx, EmitTokens(cx, g, ud, a), b)
    decreases a
  {
    if a == [] {
      assert a + b == b;
      PrependNone(EmitTokens(cx, g, ud, b));
    } else {
      assert (a + b)[0] == a[0] && (a + b)[1..] == a[1..] + b;
      var e := EmitToken(cx, g, ud, a[0]);
      if e.Emit? {
        Compose(cx, e.g, e.ud, a[1..], b);
        var e1 := EmitTokens(cx, e.g, e.ud, a[1..]);
        if e1.Emit? {
          PrependTwice(e.out, e1.out, EmitTokens(cx, e1.g, e1.ud, b));
        }
      }
    }
  }

  lemma PrependNone(e: Emission)
    ensures Prepend([], e) == e
  {
    if e.Emit? {
      assert [] + e.out == e.out;
    }
  }

  lemma PrependTwice(a: seq<CStmt>, b: seq<CStmt>, e: Emission)
    ensures Prepend(a, Prepend(b, e)) == Prepend(a + b, e)
  {
    if e.Emit? {
      assert a + (b + e.out) == a + b + e.out;
    }
  }

  lemma One(cx: Context, g: Gen, ud: nat, t: Token)
    requires TokenOk(t)
    ensures EmitTokens(cx, g, ud, [t]) == EmitToken(cx, g, ud, t)
  {
    var e := EmitToken(cx, g, ud, t);
    if e.Emit? {
      assert EmitTokens(cx, e.g, e.ud, []) == Emit(e.g, e.ud, []);
      assert e.out + [] == e.out;
    }
  }

  /** `unreachable_depth` comes back to where it was at exactly the matching bracket. */
  lemma {:induction false} DeadCode(cx: Context, g: Gen, ud: nat, c: Code)
    requires ud > 0
    ensures EmitTokens(cx, g, ud, Flatten(c)) == Emit(g, ud, [])
    decreases c, 1
  {
    match c
    case Nil =>
    case Cons(i, rest) =>
      DeadInstr(cx, g, ud, i);
      DeadCode(cx, g, ud, rest);
      Compose(cx, g, ud, FlattenInstr(i), Flatten(rest));
  }

  lemma {:induction false} DeadInstr(cx: Context, g: Gen, ud: nat, i: Instr)
    requires ud > 0
    ensures EmitTokens(cx, g, ud, FlattenInstr(i)) == Emit(g, ud, [])
    decreases i, 4
  {
    match i
    case Block(bt, body) => DeadBlock(cx, g, ud, KBlock, bt, body);
    case Loop(bt, body) => DeadBlock(cx, g, ud, KLoop, bt, body);
    case If(_, _, _, _) => DeadIf(cx, g, ud, i);
    case _ => One(cx, g, ud, Simple(i));
  }

  lemma {:induction false} DeadIf(cx: Context, g: Gen, ud: nat, i: Instr)
    requires ud > 0 && i.If?
    ensures EmitTokens(cx, g, ud, FlattenInstr(i)) == Emit(g, ud, [])
    decreases i, 3
  {
    var front := [Begin(KIf, i.bt)] + Flatten(i.thn);
    DeadCode(cx, g, ud + 1, i.thn);
    One(cx, g, ud, Begin(KIf, i.bt));
    Compose(cx, g, ud, [Begin(KIf, i.bt)], Flatten(i.thn));
    One(cx, g, ud + 1, End);
    if i.hasElse {
      DeadCode(cx, g, ud + 1, i.els);
      One(cx, g, ud + 1, Else);
      Compose(cx, g, ud + 1, [Else], Flatten(i.els));
      Compose(cx, g, ud, front, [Else] + Flatten(i.els));
      Compose(cx, g, ud, front + ([Else] + Flatten(i.els)), [End]);
    } else {
      assert front + [] == front;
      Compose(cx, g, ud, front, [End]);
    }
  }

  lemma {:induction false} DeadBlock(cx: Context, g: Gen, ud: nat, kind: int, bt: int, body: Code)
    requires ud > 0
    ensures EmitTokens(cx, g, ud, [Begin(kind, bt)] + Flatten(body) + [End]) == Emit(g, ud, [])
    decreases body, 2
  {
    DeadCode(cx, g, ud + 1, body);
    One(cx, g, ud, Begin(kind, bt));
    Compose(cx, g, ud, [Begin(kind, bt)], Flatten(body));
    One(cx, g, ud + 1, End);
    Compose(cx, g, ud, [Begin(kind, bt)] + Flatten(body), [End]);
  }

  lemma LiveDepth(cx: Context, g: Gen, i: Instr)
    ensures TransInstr(cx, g, i).Emit? && IsBlock(i) ==> TransInstr(cx, g, i).ud == 0
  {
    match i
    case Block(bt, body) =>
      var a := EmitBegin(cx, g, KBlock, bt);
      if a.Emit? { TailDepth(cx, a.g, body); }
    case Loop(bt, body) =>
      var a := EmitBegin(cx, g, KLoop, bt);
      if a.Emit? { TailDepth(cx, a.g, body); }
    case If(bt, _, _, _) =>
      var a := EmitBegin(cx, g, KIf, bt);
      if a.Emit? { ArmsDepth(cx, a.g, i); }
    case _ =>
  }

  lemma EndDepth(cx: Context, g: Gen, ud: nat)
    ensures EmitEnd(cx, g, ud).Emit? ==> EmitEnd(cx, g, ud).ud == 0
  {
  }

  lemma TailDepth(cx: Context, g: Gen, c: Code)
    ensures TransTail(cx, g, c).Emit? ==> TransTail(cx, g, c).ud == 0
  {
    var e := TransCode(cx, g, c);
    if e.Emit? {
      EndDepth(cx, e.g, e.ud);
    }
  }

  lemma ArmsDepth(cx: Context, g: Gen, i: Instr)
    requires i.If?
    ensures TransArms(cx, g, i).Emit? ==> TransArms(cx, g, i).ud == 0
  {
    if !i.hasElse {
      TailDepth(cx, g, i.thn);
    } else {
      var e := TransCode(cx, g, i.thn);
      if e.Emit? {
        var d := EmitElse(cx, e.g, e.ud);
        if d.Emit? {
          TailDepth(cx, d.g, i.els);
        }
      }
    }
  }

  /** The one-pass translation of the flat code is the structured translation. */
  lemma {:induction false} OnePassCode(cx: Context, g: Gen, c: Code)
    ensures EmitTokens(cx, g, 0, Flatten(c)) == TransCode(cx, g, c)
    decreases c, 1
  {
    match c
    case Nil =>
    case Cons(i, rest) =>
      OnePassInstr(cx, g, i);
      Compose(cx, g, 0, FlattenInstr(i), Flatten(rest));
      var e := TransInstr(cx, g, i);
      if e.Emit? {
        if e.ud > 0 {
          DeadCode(cx, e.g, e.ud, rest);
          assert e.out + [] == e.out;
        } else {
          OnePassCode(cx, e.g, rest);
        }
      }
  }

  lemma {:induction false} OnePassInstr(cx: Context, g: Gen, i: Instr)
    ensures EmitTokens(cx, g, 0, FlattenInstr(i)) == TransInstr(cx, g, i)
    decreases i, 4
  {
    match i
    case Block(bt, body) => OnePassBlock(cx, g, KBlock, bt, body);
    case Loop(bt, body) => OnePassBlock(cx, g, KLoop, bt, body);
    case If(bt, thn, hasElse, els) => OnePassIf(cx, g, i);
    case _ => One(cx, g, 0, Simple(i));
  }

  lemma EndStep(cx: Context, g: Gen, ts: seq<Token>, e: Emission)
    requires forall t | t in ts :: TokenOk(t)
    requires EmitTokens(cx, g, 0, ts) == e
    requires e.Emit? ==> e.ud <= 1
    ensures forall t | t in ts + [End] :: TokenOk(t)
    ensures EmitTokens(cx, g, 0, ts + [End]) == if e.Fault? then Fault else Prepend(e.out, EmitEnd(cx, e.g, e.ud))
  {
    Compose(cx, g, 0, ts, [End]);
    if e.Emit? {
      One(cx, e.g, e.ud, End);
    }
  }

  lemma CodeDepth(cx: Context, g: Gen, c: Code)
    ensures TransCode(cx, g, c).Emit? ==> TransCode(cx, g, c).ud <= 1
    decreases c
  {
    match c
    case Nil =>
    case Cons(i, rest) =>
      LiveDepth(cx, g, i);
      var e := TransInstr(cx, g, i);
      if e.Emit? && e.ud == 0 {
        CodeDepth(cx, e.g, rest);
      }
  }

  lemma {:induction false} OnePassBlock(cx: Context, g: Gen, kind: int, bt: int, body: Code)
    ensures EmitTokens(cx, g, 0, [Begin(kind, bt)] + Flatten(body) + [End]) == TransBlock(cx, g, kind, bt, body)
    decreases body, 3
  {
    var a := EmitBegin(cx, g, kind, bt);
    assert [Begin(kind, bt)] + Flatten(body) + [End] == [Begin(kind, bt)] + (Flatten(body) + [End]);
    One(cx, g, 0, Begin(kind, bt));
    Compose(cx, g, 0, [Begin(kind, bt)], Flatten(body) + [End]);
    if a.Emit? {
      OnePassTail(cx, a.g, body);
    }
  }

  lemma {:induction false} OnePassTail(cx: Context, g: Gen, c: Code)
    ensures forall t | t in Flatten(c) + [End] :: TokenOk(t)
    ensures EmitTokens(cx, g, 0, Flatten(c) + [End]) == TransTail(cx, g, c)
    decreases c, 2
  {
    OnePassCode(cx, g, c);
    CodeDepth(cx, g, c);
    EndStep(cx, g, Flatten(c), TransCode(cx, g, c));
  }

  lemma {:induction false} OnePassIf(cx: Context, g: Gen, i: Instr)
    requires i.If?
    ensures EmitTokens(cx, g, 0, FlattenInstr(i)) == TransInstr(cx, g, i)
    decreases i, 3
  {
    var a := EmitBegin(cx, g, KIf, i.bt);
    var arms := Flatten(i.thn) + (if i.hasElse then [Else] + Flatten(i.els) else []) + [End];
    assert FlattenInstr(i) == [Begin(KIf, i.bt)] + arms;
    One(cx, g, 0, Begin(KIf, i.bt));
    Compose(cx, g, 0, [Begin(KIf, i.bt)], arms);
    if a.Emit? {
      if i.hasElse {
        assert arms == Flatten(i.thn) + ([Else] + (Flatten(i.els) + [End]));
        OnePassElse(cx, a.g, i);
      } else {
        assert arms == Flatten(i.thn) + [End];
        OnePassTail(cx, a.g, i.thn);
      }
    }
  }

  lemma {:induction false} OnePassElse(cx: Context, g: Gen, i: Instr)
    requires i.If? && i.hasElse
    ensures forall t | t in Flatten(i.thn) + ([Else] + (Flatten(i.els) + [End])) :: TokenOk(t)
    ensures EmitTokens(cx, g, 0, Flatten(i.thn) + ([Else] + (Flatten(i.els) + [End]))) == TransArms(cx, g, i)
    decreases i, 2
  {
    OnePassCode(cx, g, i.thn);
    CodeDepth(cx, g, i.thn);
    var rest := Flatten(i.els) + [End];
    Compose(cx, g, 0, Flatten(i.thn), [Else] + rest);
    var b := TransCode(cx, g, i.thn);
    if b.Emit? {
      One(cx, b.g, b.ud, Else);
      Compose(cx, b.g, b.ud, [Else], rest);
      var d := EmitElse(cx, b.g, b.ud);
      if d.Emit? {
        OnePassTail(cx, d.g, i.els);
        PrependTwice(b.out, d.out, TransTail(cx, d.g, i.els));
      }
    }
  }

  // ---------------------------------------------------------------- deleting dead code

  /** The tokens between the brackets of an `if`. */
  function ArmTokens(thn: seq<Token>, hasElse: bool, els: seq<Token>): seq<Token> {
    if hasElse then thn + ([Else] + els) else thn
  }

  lemma IfTokens(bt: int, thn: Code, hasElse: bool, els: Code)
    ensures FlattenInstr(If(bt, thn, hasElse, els)) == [Begin(KIf, bt)]
      + ArmTokens(Flatten(thn), hasElse, Flatten(els)) + [End]
  {
    hide Flatten;
  }

  predicate IsJump(i: Instr) { i.Unreachable? || i.Br? || i.BrTable? || i.Return? }

  /** Deletes everything between an unconditional transfer and its matching `else` or `end`. */
  function Prune(c: Code): Code
    decreases c, 1
  {
    match c
    case Nil => Nil
    case Cons(i, rest) => Cons(PruneInstr(i), if IsJump(i) then Nil else Prune(rest))
  }

  function PruneInstr(i: Instr): Instr
    decreases i, 4
  {
    match i
    case Block(bt, body) => Block(bt, Prune(body))
    case Loop(bt, body) => Loop(bt, Prune(body))
    case If(bt, thn, hasElse, els) => If(bt, Prune(thn), hasElse, Prune(els))
    case _ => i
  }

  lemma {:induction false} PruneSame(cx: Context, g: Gen, c: Code)
    ensures TransCode(cx, g, Prune(c)) == TransCode(cx, g, c)
    decreases c, 1
  {
    match c
    case Nil =>
    case Cons(i, rest) =>
      PruneInstrSame(cx, g, i);
      var e := TransInstr(cx, g, i);
      if e.Emit? && e.ud == 0 {
        JumpsAreDead(cx, g, i);
        PruneSame(cx, e.g, rest);
      }
  }

  lemma JumpsAreDead(cx: Context, g: Gen, i: Instr)
    ensures IsJump(i) && TransInstr(cx, g, i).Emit? ==> TransInstr(cx, g, i).ud == 1
  {
  }

  lemma {:induction false} PruneInstrSame(cx: Context, g: Gen, i: Instr)
    ensures TransInstr(cx, g, PruneInstr(i)) == TransInstr(cx, g, i)
    decreases i, 4
  {
    match i
    case Block(bt, body) =>
      var a := EmitBegin(cx, g, KBlock, bt);
      if a.Emit? { PruneTailSame(cx, a.g, body); }
    case Loop(bt, body) =>
      var a := EmitBegin(cx, g, KLoop, bt);
      if a.Emit? { PruneTailSame(cx, a.g, body); }
    case If(bt, thn, hasElse, els) =>
      var a := EmitBegin(cx, g, KIf, bt);
      if a.Emit? { PruneArmsSame(cx, a.g, i); }
    case _ =>
  }

  lemma {:induction false} PruneTailSame(cx: Context, g: Gen, c: Code)
    ensures TransTail(cx, g, Prune(c)) == TransTail(cx, g, c)
    decreases c, 2
  {
    PruneSame(cx, g, c);
  }

  lemma {:induction false} PruneArmsSame(cx: Context, g: Gen, i: Instr)
    requires i.If?
    ensures TransArms(cx, g, PruneInstr(i)) == TransArms(cx, g, i)
    decreases i, 3
  {
    PruneSame(cx, g, i.thn);
    var b := TransCode(cx, g, i.thn);
    if b.Emit? && i.hasElse {
      var d := EmitElse(cx, b.g, b.ud);
      if d.Emit? { PruneTailSame(cx, d.g, i.els); }
    }
  }

  /** Dead code is invisible: the flat translation of the pruned code emits the same statements. */
  lemma DeadCodeInvisible(cx: Context, g: Gen, c: Code)
    ensures EmitTokens(cx, g, 0, Flatten(Prune(c))) == EmitTokens(cx, g, 0, Flatten(c))
  {
    OnePassCode(cx, g, c);
    OnePassCode(cx, g, Prune(c));
    PruneSame(cx, g, c);
  }

  lemma FunctionPrune(m: Module, f: Func)
    requires f.ty < |m.types|
    ensures TransFunc(m, f.(body := Prune(f.body))) == TransFunc(m, f)
  {
    var cx := FuncContext(m, f);
    assert FuncContext(m, f.(body := Prune(f.body))) == cx;
    var p := Prologue(m, f);
    assert Prologue(m, f.(body := Prune(f.body))) == p;
    if p.Emit? {
      DeadCodeInvisible(cx, p.g, f.body);
      Compose(cx, p.g, 0, Flatten(f.body), [End]);
      Compose(cx, p.g, 0, Flatten(Prune(f.body)), [End]);
    }
  }
}
