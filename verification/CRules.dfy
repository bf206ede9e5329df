/**
 The rules of C that the model of the emitted language follows: conversions and promotions of sections 6.3.1.1 to
 6.3.1.8 of the C standard, and what a variable's value is when its declaration is reached or its scope is left.
 */
module CRules {
  import opened Bits
  import opened Options
  import opened Wasm
  import opened CLang

  /** The numbers of an integer type. */
  predicate InRange(t: CType, x: int)
    requires t.bits > 0
  {
    if t.signed then 0 - Pow2(t.bits - 1) <= x < Pow2(t.bits - 1) else 0 <= x < Pow2(t.bits)
  }

  lemma Halves(n: nat)
    requires n > 0
    ensures Pow2(n) == 2 * Pow2(n - 1)
  {
  }

  /** Conversion gives the one number of the type that is congruent modulo 2^bits. */
  lemma ConvMeans(t: CType, x: int)
    requires t.bits > 0
    ensures InRange(t, Conv(t, x)) && Conv(t, x) % Pow2(t.bits) == x % Pow2(t.bits)
    ensures Conv(t, x) == x <==> InRange(t, x)
  {
    Halves(t.bits);
    var m := Pow2(t.bits);
    hide Pow2;
    var r := x % m;
    ModUnique(x, m, x / m, r);
    ModUnique(r, m, 0, r);
    ModUnique(r - m, m, -1, r);
    if InRange(t, x) {
      if x < 0 {
        ModUnique(x, m, -1, x + m);
      } else {
        ModUnique(x, m, 0, x);
      }
    }
  }

  /** A result outside a signed type is undefined; any other is converted. */
  lemma ArithMeans(t: CType, x: int)
    requires t.bits > 0
    ensures Arith(t, x) == if t.signed && !InRange(t, x) then None else Some(CVal(t, Conv(t, x)))
    ensures InRange(t, x) ==> Arith(t, x) == Some(CVal(t, x))
  {
    ConvMeans(t, x);
    hide Conv, Pow2;
  }

  /** Operands of at most 64 bits meet in int, or in the wider type, the unsigned one of two equally wide types. */
  lemma CommonMeans(s: CType, t: CType)
    ensures s.bits < 32 && t.bits < 32 ==> Common(s, t) == CType(32, true)
    ensures s.bits >= 32 && t.bits < 32 && (s.bits > 32 || !s.signed) ==> Common(s, t) == s && Common(t, s) == s
    ensures s.bits >= 32 && t.bits >= 32 && s.bits > t.bits ==> Common(s, t) == s && Common(t, s) == s
    ensures s.bits >= 32 && t.bits == s.bits ==> Common(s, t) == CType(s.bits, s.signed && t.signed)
  {
  }

  /** Where control may go without passing through what is between, only variables in scope there keep their values. */
  lemma JumpForgets(m: seq<CFunc>, fr: Frame, pc: nat, callers: Callers, store: Store)
    requires fr.fn < |m| && pc <= |m[fr.fn].body|
    ensures var to := Jump(m, fr, pc, callers, store);
      && to.Running? && to.fr.fn == fr.fn && to.fr.pc == pc && to.callers == callers && to.store == store
      && forall v :: (v in to.fr.env <==> v in fr.env && v in ScopeAt(m[fr.fn], pc))
                     && (v in to.fr.env ==> to.fr.env[v] == fr.env[v])
  {
    hide ScopeAt;
  }

  /** These statements make such a jump: every goto, switch and brace, and a condition that is false. */
  lemma StepForgets(m: seq<CFunc>, fr: Frame, callers: Callers, store: Store)
    requires fr.fn < |m| && fr.pc < |m[fr.fn].body|
    requires var s := m[fr.fn].body[fr.pc];
      s.Goto? || s.Switch? || s.Close? || s.ElseOpen? || (s.IfOpen? && s.c in fr.env && fr.env[s.c].n == 0)
    ensures var to := Step(m, Running(fr, callers, store));
      to.Running? ==> forall v | v in to.fr.env ::
        to.fr.fn == fr.fn && to.fr.pc <= |m[fr.fn].body| && v in ScopeAt(m[fr.fn], to.fr.pc) && v in fr.env
  {
    hide ScopeAt, SkipArm, FindLabel;
  }

  /** A declaration without a value leaves its variable without one, also when an earlier round had given it one. */
  lemma DeclareForgets(v: nat, ty: ValType, scope: map<nat, ValType>, env: Env, store: Store)
    ensures Plain(Declare(v, ty), scope, env, store) == Some((env - {v}, store))
    ensures Eval(Var(v), env - {v}, store) == None
  {
  }

  /** A jump goes to the first place where its label stands, and nowhere exactly when it stands nowhere. */
  lemma {:induction false} LabelFound(code: seq<CStmt>, l: nat, i: nat)
    requires i <= |code|
    ensures var j := FindLabel(code, l, i);
      (forall k | i <= k < j :: code[k] != LabelHere(l)) && (j == |code| ==> LabelHere(l) !in code[i..])
    decreases |code| - i
  {
    if i < |code| && code[i] != LabelHere(l) {
      LabelFound(code, l, i + 1);
      assert code[i..] == [code[i]] + code[i + 1..];
    }
  }
}
