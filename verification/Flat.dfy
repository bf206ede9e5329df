/**
 The flat form of code, opcodes with brackets, stands for exactly one structured form.
 */
module Flat {
  import opened Options
  import opened Wasm
  import opened Translator

  /** Code, and the opcodes behind it. */
  datatype Parsed = Parsed(code: Code, rest: seq<Token>)

  /** Reads instructions up to an `else` or `end` that is not theirs, or to the end of the opcodes. */
  function Parse(ts: seq<Token>): (r: Option<Parsed>)
    ensures r.Some? ==> |r.value.rest| <= |ts|
    decreases |ts|
  {
    if ts == [] || ts[0].Else? || ts[0].End? then Some(Parsed(Nil, ts))
    else if ts[0].Simple? then More(ts[0].i, ts[1..], Parse(ts[1..]))
    else
      match Parse(ts[1..])
      case None => None
      case Some(body) =>
        if body.rest == [] then None
        else if body.rest[0].End? then
          var after := body.rest[1..];
          if ts[0].kind == KBlock then More(Block(ts[0].bt, body.code), after, Parse(after))
          else if ts[0].kind == KLoop then More(Loop(ts[0].bt, body.code), after, Parse(after))
          else if ts[0].kind == KIf then More(If(ts[0].bt, body.code, false, Nil), after, Parse(after))
          else None
        else
          match Parse(body.rest[1..])
          case None => None
          case Some(els) =>
            if ts[0].kind != KIf || els.rest == [] || !els.rest[0].End? then None
            else More(If(ts[0].bt, body.code, true, els.code), els.rest[1..], Parse(els.rest[1..]))
  }

  /** An instruction in front of the code behind it. */
  function More(i: Instr, ts: seq<Token>, r: Option<Parsed>): (q: Option<Parsed>)
    requires r.Some? ==> |r.value.rest| <= |ts|
    ensures q.Some? ==> |q.value.rest| <= |ts|
  {
    if r.None? then None else Some(Parsed(Cons(i, r.value.code), r.value.rest))
  }

  /** An `if` without an `else` has no other arm. */
  predicate Tidy(c: Code)
    decreases c, 1
  {
    c.Cons? ==> TidyInstr(c.head) && Tidy(c.tail)
  }

  predicate TidyInstr(i: Instr)
    decreases i, 0
  {
    match i
    case Block(_, body) => Tidy(body)
    case Loop(_, body) => Tidy(body)
    case If(_, thn, hasElse, els) => Tidy(thn) && (if hasElse then Tidy(els) else els == Nil)
    case _ => true
  }

  predicate Closes(ts: seq<Token>) { ts == [] || ts[0].Else? || ts[0].End? }

  /** Flattened code parses back to itself, up to whatever closes it. */
  lemma {:induction false} FlatOnce(c: Code, rest: seq<Token>)
    requires Tidy(c) && Closes(rest)
    ensures Parse(Flatten(c) + rest) == Some(Parsed(c, rest))
    decreases c, 1
  {
    if c == Nil {
      assert Flatten(c) + rest == rest;
    } else {
      var i, after := c.head, Flatten(c.tail) + rest;
      FlatOnce(c.tail, rest);
      assert Flatten(c) + rest == FlattenInstr(i) + after;
      InstrOnce(i, c.tail, after, rest);
    }
  }

  lemma {:induction false} InstrOnce(i: Instr, tail: Code, after: seq<Token>, rest: seq<Token>)
    requires TidyInstr(i) && Parse(after) == Some(Parsed(tail, rest)) && |rest| <= |after|
    ensures Parse(FlattenInstr(i) + after) == Some(Parsed(Cons(i, tail), rest))
    decreases i, 3
  {
    hide Parse, Tidy, Flatten;
    match i
    case Block(bt, body) => BlockOnce(KBlock, bt, body, i, after, tail, rest);
    case Loop(bt, body) => BlockOnce(KLoop, bt, body, i, after, tail, rest);
    case If(bt, thn, hasElse, els) =>
      if hasElse {
        IfOnce(bt, thn, els, after, tail, rest);
      } else {
        BlockOnce(KIf, bt, thn, i, after, tail, rest);
      }
    case _ =>
      assert [Simple(i)] + after == FlattenInstr(i) + after && ([Simple(i)] + after)[1..] == after;
      ParseSimple([Simple(i)] + after, i, after);
  }

  lemma {:induction false} IfOnce(bt: int, thn: Code, els: Code, after: seq<Token>, tail: Code, rest: seq<Token>)
    requires Tidy(thn) && Tidy(els) && Parse(after) == Some(Parsed(tail, rest)) && |rest| <= |after|
    ensures Parse(FlattenInstr(If(bt, thn, true, els)) + after)
      == Some(Parsed(Cons(If(bt, thn, true, els), tail), rest))
    decreases If(bt, thn, true, els), 0
  {
    hide Parse, Tidy, Flatten;
    var closed := [End] + after;
    var middle := [Else] + (Flatten(els) + closed);
    var ts := [Begin(KIf, bt)] + (Flatten(thn) + middle);
    assert FlattenInstr(If(bt, thn, true, els)) + after == ts;
    FlatOnce(thn, middle);
    FlatOnce(els, closed);
    assert ts[1..] == Flatten(thn) + middle && middle[1..] == Flatten(els) + closed && closed[1..] == after;
    ParseElse(ts, bt, thn, middle, els, closed, after);
  }

  lemma {:induction false} BlockOnce(kind: int, bt: int, body: Code, i: Instr, after: seq<Token>, tail: Code,
      rest: seq<Token>)
    requires kind in {KBlock, KLoop, KIf} && Tidy(body) && Parse(after) == Some(Parsed(tail, rest)) && |rest| <= |after|
    requires i == if kind == KBlock then Block(bt, body) else if kind == KLoop then Loop(bt, body)
      else If(bt, body, false, Nil)
    ensures Parse(FlattenInstr(i) + after) == Some(Parsed(Cons(i, tail), rest))
    decreases body, 2
  {
    hide Parse, Tidy, Flatten;
    var closed := [End] + after;
    var ts := [Begin(kind, bt)] + (Flatten(body) + closed);
    assert FlattenInstr(i) + after == ts;
    FlatOnce(body, closed);
    assert ts[1..] == Flatten(body) + closed && closed[1..] == after;
    ParseBlock(ts, kind, bt, body, closed, after);
  }

  lemma ParseSimple(ts: seq<Token>, i: Instr, after: seq<Token>)
    requires ts != [] && ts[0] == Simple(i) && ts[1..] == after && Parse(after).Some?
    ensures Parse(ts) == Some(Parsed(Cons(i, Parse(after).value.code), Parse(after).value.rest))
  {
  }

  lemma ParseBlock(ts: seq<Token>, kind: int, bt: int, body: Code, closed: seq<Token>, after: seq<Token>)
    requires ts != [] && ts[0] == Begin(kind, bt) && kind in {KBlock, KLoop, KIf}
    requires Parse(ts[1..]) == Some(Parsed(body, closed)) && closed != [] && closed[0] == End && closed[1..] == after
    requires Parse(after).Some?
    ensures var i := if kind == KBlock then Block(bt, body) else if kind == KLoop then Loop(bt, body)
        else If(bt, body, false, Nil);
      Parse(ts) == Some(Parsed(Cons(i, Parse(after).value.code), Parse(after).value.rest))
  {
  }

  lemma ParseElse(ts: seq<Token>, bt: int, thn: Code, middle: seq<Token>, els: Code, closed: seq<Token>,
      after: seq<Token>)
    requires ts != [] && ts[0] == Begin(KIf, bt) && Parse(ts[1..]) == Some(Parsed(thn, middle))
    requires middle != [] && middle[0] == Else && Parse(middle[1..]) == Some(Parsed(els, closed))
    requires closed != [] && closed[0] == End && closed[1..] == after && Parse(after).Some?
    ensures Parse(ts) == Some(Parsed(Cons(If(bt, thn, true, els), Parse(after).value.code), Parse(after).value.rest))
  {
  }

  /** Two pieces of code with the same opcodes are the same. */
  lemma FlatDetermines(c: Code, d: Code)
    requires Tidy(c) && Tidy(d) && Flatten(c) == Flatten(d)
    ensures c == d
  {
    hide Parse, Tidy, Flatten;
    FlatOnce(c, []);
    FlatOnce(d, []);
  }
}
