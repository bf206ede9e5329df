/**
 Soundness of the temporary-reuse allocator: in every state the translator reaches on checked code,
 the locals on the operand stack and in the reuse windows are pairwise distinct temporaries of known
 type, and what lies below the innermost block is untouched when the block ends.
 */
module Allocator {
  import opened Wasm
  import opened Translator

  // ---------------------------------------------------------------- the invariant

  predicate IsTemp(g: Gen, v: nat) {
    v < |g.roles| && v < |g.types| && g.roles[v] == TempRole && g.types[v] in {-1, -2}
  }

  /** Stack and reuse entries are distinct temporaries: no parameter, local, block result or label. */
  predicate Apart(g: Gen) {
    && (forall i | 0 <= i < |g.stack| :: IsTemp(g, g.stack[i]))
    && (forall j | 0 <= j < |g.reuse| :: IsTemp(g, g.reuse[j]))
    && (forall i, j | 0 <= i < j < |g.stack| :: g.stack[i] != g.stack[j])
    && (forall i, j | 0 <= i < j < |g.reuse| :: g.reuse[i] != g.reuse[j])
    && (forall i, j | 0 <= i < |g.stack| && 0 <= j < |g.reuse| :: g.stack[i] != g.reuse[j])
  }

  /** A block type that jumps and ends can handle; parameters matter to loops only. */
  predicate JumpType(types: seq<FuncType>, bt: int, kind: int) {
    && BlockType(types, bt).Some?
    && |BlockType(types, bt).value.results| <= 1
    && (kind == KLoop ==> BlockType(types, bt).value.params == [])
  }

  predicate BlockOk(cx: Context, g: Gen, b: BlockRec) {
    && b.lbl < |g.types| && b.lbl < |g.roles|
    && g.roles[b.lbl] == LabelRole
    && KindOf(g, b) in {KBlock, KLoop, KIf}
    && JumpType(cx.m.types, TypeIndexOf(g, b), KindOf(g, b))
    && var rs := BlockType(cx.m.types, TypeIndexOf(g, b)).value.results;
    rs != [] ==> b.lbl > 0 && g.roles[b.lbl - 1] == ResultRole && g.types[b.lbl - 1] == rs[0].Code()
  }

  predicate Bases(g: Gen) {
    && (forall k | 0 <= k < |g.blocks| :: g.blocks[k].stackBase <= |g.stack| && g.blocks[k].reuseBase <= |g.reuse|)
    && (forall j, k | 0 <= j < k < |g.blocks| ::
          g.blocks[j].stackBase <= g.blocks[k].stackBase && g.blocks[j].reuseBase <= g.blocks[k].reuseBase)
  }

  predicate LocalsOk(cx: Context, g: Gen) {
    && |cx.locals| <= |g.types|
    && forall x | 0 <= x < |cx.locals| :: g.types[x] == cx.locals[x].Code() && x < |g.roles| && g.roles[x] == LocalRole
  }

  predicate Sound(cx: Context, g: Gen) {
    && |g.roles| == |g.types|
    && Apart(g)
    && (forall k | 0 <= k < |g.blocks| :: BlockOk(cx, g, g.blocks[k]))
    && Bases(g)
    && LocalsOk(cx, g)
  }

  function StackFloor(g: Gen): nat {
    if g.blocks == [] then 0 else g.blocks[|g.blocks| - 1].stackBase
  }

  /** The operands above the innermost label have the types `ts`. */
  predicate Ops(g: Gen, ts: seq<ValType>) {
    && StackFloor(g) + |ts| <= |g.stack|
    && forall i | 0 <= i < |ts| :: HasType(g, g.stack[|g.stack| - |ts| + i], ts[i])
  }

  /** The labels of the open blocks, innermost first, as validation sees them. */
  function GenLabels(cx: Context, g: Gen): seq<Label> {
    seq(|g.blocks|, (k: nat) requires k < |g.blocks| => GenLabel(cx, g, BlockAt(g, k)))
  }

  function GenLabel(cx: Context, g: Gen, b: BlockRec): Label {
    Label(KindOf(g, b) == KLoop, ResultsOf(cx.m.types, TypeIndexOf(g, b)))
  }

  function ResultsOf(types: seq<FuncType>, bt: int): seq<ValType> {
    match BlockType(types, bt)
    case None => []
    case Some(ft) => ft.results
  }

  /** Numbers are only ever added. */
  predicate Grows(g: Gen, g': Gen) {
    g.types <= g'.types && g.roles <= g'.roles
  }

  /** What code with `h` stack entries below its operands leaves alone. */
  predicate Kept(g: Gen, g': Gen, h: nat) {
    && Grows(g, g')
    && g'.blocks == g.blocks
    && h <= |g.stack| && h <= |g'.stack| && g'.stack[..h] == g.stack[..h]
    && ReuseTop(g) <= |g.reuse| && ReuseTop(g) <= |g'.reuse| && g'.reuse[..ReuseTop(g)] == g.reuse[..ReuseTop(g)]
  }

  lemma KeptTrans(a: Gen, b: Gen, c: Gen, h: nat)
    requires Kept(a, b, h) && Kept(b, c, h)
    ensures Kept(a, c, h)
  {
  }

  lemma KeptLower(a: Gen, b: Gen, h: nat, k: nat)
    requires Kept(a, b, h) && k <= h
    ensures Kept(a, b, k)
  {
    assert a.stack[..k] == a.stack[..h][..k];
    assert b.stack[..k] == b.stack[..h][..k];
  }

  // ---------------------------------------------------------------- growing the numbering

  lemma BlockGrows(cx: Context, g: Gen, g': Gen, b: BlockRec)
    requires Grows(g, g') && BlockOk(cx, g, b) && |g.roles| == |g.types|
    ensures BlockOk(cx, g', b) && GenLabel(cx, g', b) == GenLabel(cx, g, b)
    ensures KindOf(g', b) == KindOf(g, b) && TypeIndexOf(g', b) == TypeIndexOf(g, b)
  {
    assert g'.types[b.lbl] == g.types[b.lbl];
    if b.lbl > 0 {
      assert g'.types[b.lbl - 1] == g.types[b.lbl - 1];
      assert g'.roles[b.lbl - 1] == g.roles[b.lbl - 1];
    }
  }

  lemma BlocksGrow(cx: Context, g: Gen, g': Gen)
    requires Grows(g, g') && |g.roles| == |g.types| && g'.blocks == g.blocks
    requires forall k | 0 <= k < |g.blocks| :: BlockOk(cx, g, g.blocks[k])
    ensures forall k | 0 <= k < |g'.blocks| :: BlockOk(cx, g', g'.blocks[k])
    ensures GenLabels(cx, g') == GenLabels(cx, g)
  {
    forall k | 0 <= k < |g.blocks|
      ensures BlockOk(cx, g', g.blocks[k]) && GenLabel(cx, g', g.blocks[k]) == GenLabel(cx, g, g.blocks[k])
    {
      BlockGrows(cx, g, g', g.blocks[k]);
    }
  }

  lemma SoundGrows(cx: Context, g: Gen, g': Gen)
    requires Sound(cx, g) && Grows(g, g') && |g'.roles| == |g'.types|
    requires g'.stack == g.stack && g'.reuse == g.reuse && g'.blocks == g.blocks
    ensures Sound(cx, g') && GenLabels(cx, g') == GenLabels(cx, g)
  {
    BlocksGrow(cx, g, g');
    forall x | 0 <= x < |cx.locals| ensures g'.types[x] == g.types[x] && g'.roles[x] == g.roles[x] {
    }
    forall v: nat | IsTemp(g, v) ensures IsTemp(g', v) {
    }
  }

  lemma OpsGrow(g: Gen, g': Gen, ts: seq<ValType>)
    requires Ops(g, ts) && Grows(g, g') && g'.stack == g.stack && g'.blocks == g.blocks
    ensures Ops(g', ts)
  {
  }

  // ---------------------------------------------------------------- popping and pushing

  lemma PopOk(cx: Context, g: Gen)
    requires Sound(cx, g) && StackFloor(g) < |g.stack|
    ensures Sound(cx, StackPop(g).0)
    ensures Kept(g, StackPop(g).0, |g.stack| - 1)
  {
    var g' := StackPop(g).0;
    BlocksGrow(cx, g, g');
    assert forall j | 0 <= j < |g.reuse| :: g'.reuse[j] == g.reuse[j];
    forall k | 0 <= k < |g.blocks|
      ensures g.blocks[k].stackBase <= StackFloor(g) && g.blocks[k].reuseBase <= ReuseTop(g)
    {
    }
  }

  lemma {:induction false} PopNShape(g: Gen, n: nat)
    requires n <= |g.stack|
    ensures var (g', vs) := PopN(g, n);
      && vs == g.stack[|g.stack| - n..]
      && g'.stack == g.stack[..|g.stack| - n]
      && g'.types == g.types && g'.roles == g.roles && g'.blocks == g.blocks
      && g.reuse <= g'.reuse
      && (forall j | |g.reuse| <= j < |g'.reuse| :: g'.reuse[j] in vs)
    decreases n
  {
    if n > 0 {
      var (g1, v) := StackPop(g);
      PopNShape(g1, n - 1);
      var (g2, vs) := PopN(g1, n - 1);
      assert g1.stack == g.stack[..|g.stack| - 1];
      assert vs + [v] == g.stack[|g.stack| - n..];
      assert g1.reuse[|g.reuse|] == v && g2.reuse[|g.reuse|] == v;
    } else {
      assert g.stack[..|g.stack|] == g.stack;
    }
  }

  lemma {:induction false} PopNOk(cx: Context, g: Gen, n: nat)
    requires Sound(cx, g) && StackFloor(g) + n <= |g.stack|
    ensures Sound(cx, PopN(g, n).0)
    ensures Kept(g, PopN(g, n).0, |g.stack| - n)
    decreases n
  {
    hide Sound, Kept;
    if n == 0 {
      KeptSame(cx, g, |g.stack|);
    } else {
      var g1 := StackPop(g).0;
      PopOk(cx, g);
      PopNOk(cx, g1, n - 1);
      KeptLower(g, g1, |g.stack| - 1, |g.stack| - n);
      KeptTrans(g, g1, PopN(g1, n - 1).0, |g.stack| - n);
    }
  }

  lemma KeptSame(cx: Context, g: Gen, h: nat)
    requires Sound(cx, g) && h <= |g.stack|
    ensures Kept(g, g, h)
  {
    TopBelow(cx, g);
  }

  lemma TopBelow(cx: Context, g: Gen)
    requires Sound(cx, g)
    ensures ReuseTop(g) <= |g.reuse| && StackFloor(g) <= |g.stack|
    ensures forall k | 0 <= k < |g.blocks| ::
      g.blocks[k].reuseBase <= ReuseTop(g) && g.blocks[k].stackBase <= StackFloor(g)
  {
  }

  lemma PushOk(cx: Context, g: Gen, ty: ValType)
    requires Sound(cx, g)
    ensures var (g', d) := StackPush(g, ty);
      && Sound(cx, g')
      && g'.stack == g.stack + [d.v]
      && HasType(g', d.v, ty)
      && Kept(g, g', |g.stack|)
      && (d.New? ==> d.v == |g.types| && d.ty == ty && g'.types == g.types + [ty.Code()])
      && (d.Old? ==> d.v in g.reuse[ReuseTop(g)..] && HasType(g, d.v, ty) && g'.types == g.types)
  {
    TopBelow(cx, g);
    var j := FindFree(g, ty, ReuseTop(g));
    if j < |g.reuse| {
      PushOld(cx, g, ty, j);
    } else {
      PushNew(cx, g, ty);
    }
  }

  lemma PushNew(cx: Context, g: Gen, ty: ValType)
    requires Sound(cx, g) && ReuseTop(g) <= |g.reuse|
    ensures var g1 := Alloc(g, ty.Code(), TempRole).0; var g' := g1.(stack := g1.stack + [|g.types|]);
      Sound(cx, g') && Kept(g, g', |g.stack|)
  {
    var g1 := Alloc(g, ty.Code(), TempRole).0;
    var g' := g1.(stack := g1.stack + [|g.types|]);
    SoundGrows(cx, g, g1);
    BlocksGrow(cx, g1, g');
  }

  lemma PushOld(cx: Context, g: Gen, ty: ValType, j: nat)
    requires Sound(cx, g) && ReuseTop(g) <= j < |g.reuse| && HasType(g, g.reuse[j], ty)
    ensures var g' := g.(reuse := SwapRemove(g.reuse, j), stack := g.stack + [g.reuse[j]]);
      Sound(cx, g') && Kept(g, g', |g.stack|) && g.reuse[j] in g.reuse[ReuseTop(g)..]
  {
    var g' := g.(reuse := SwapRemove(g.reuse, j), stack := g.stack + [g.reuse[j]]);
    SwapRemoveParts(g.reuse, j);
    BlocksGrow(cx, g, g');
    TopBelow(cx, g);
    assert g.reuse[ReuseTop(g)..][j - ReuseTop(g)] == g.reuse[j];
    assert g'.reuse[..ReuseTop(g)] == g.reuse[..ReuseTop(g)];
  }

  lemma SwapRemoveParts(s: seq<nat>, j: nat)
    requires j < |s|
    ensures var r := SwapRemove(s, j);
      |r| == |s| - 1 && forall i | 0 <= i < |r| :: r[i] == if i == j then s[|s| - 1] else s[i]
  {
  }

  // ---------------------------------------------------------------- reuse

  lemma {:induction false} FindFreeFirst(g: Gen, ty: ValType, i: nat)
    requires i <= |g.reuse|
    ensures forall k | i <= k < FindFree(g, ty, i) :: !HasType(g, g.reuse[k], ty)
    decreases |g.reuse| - i
  {
    if i < |g.reuse| && !HasType(g, g.reuse[i], ty) {
      FindFreeFirst(g, ty, i + 1);
    }
  }

  lemma SwapRemoveBag(s: seq<nat>, j: nat)
    requires j < |s|
    ensures multiset(SwapRemove(s, j)) == multiset(s) - multiset{s[j]}
  {
    var n := |s| - 1;
    assert s == s[..n] + [s[n]];
    assert multiset(s) == multiset(s[..n]) + multiset{s[n]};
    if j < n {
      assert SwapRemove(s, j) == s[..n][j := s[n]];
      assert multiset(s[..n][j := s[n]]) == multiset(s[..n]) - multiset{s[j]} + multiset{s[n]};
    } else {
      assert SwapRemove(s, j) == s[..n];
    }
  }

  /**
   A push declares a new variable exactly when no free one of the type is in the top window; otherwise it takes one out
   of the windows, and nothing else.
   */
  lemma PushReuses(cx: Context, g: Gen, ty: ValType)
    requires Sound(cx, g)
    ensures var (g', d) := StackPush(g, ty);
      && (d.New? <==> forall k | ReuseTop(g) <= k < |g.reuse| :: !HasType(g, g.reuse[k], ty))
      && multiset(g'.reuse) == if d.New? then multiset(g.reuse) else multiset(g.reuse) - multiset{d.v}
  {
    TopBelow(cx, g);
    FindFreeFirst(g, ty, ReuseTop(g));
    var j := FindFree(g, ty, ReuseTop(g));
    if j < |g.reuse| {
      SwapRemoveBag(g.reuse, j);
    }
    hide Sound, SwapRemove, HasType;
  }

  function Mirror(vs: seq<nat>): seq<nat> { if vs == [] then [] else [vs[|vs| - 1]] + Mirror(vs[..|vs| - 1]) }

  /** All popped variables are free afterwards, in the top window, in the order in which they were popped. */
  lemma {:induction false} PopNFrees(g: Gen, n: nat)
    requires n <= |g.stack|
    ensures PopN(g, n).0.reuse == g.reuse + Mirror(PopN(g, n).1)
    decreases n
  {
    if n == 0 {
      assert g.reuse + [] == g.reuse;
    } else {
      var (g1, v) := StackPop(g);
      var vs := PopN(g1, n - 1).1;
      PopNFrees(g1, n - 1);
      assert (vs + [v])[..|vs|] == vs;
      assert g.reuse + [v] + Mirror(vs) == g.reuse + ([v] + Mirror(vs));
    }
  }
}
