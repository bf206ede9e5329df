/**
 The C that the translator emits: integer expressions with C's promotions and conversions on a
 platform with 32-bit int, statements as one flat list with braces and labels, and a machine that
 runs it with an explicit call stack.
 */
module CLang {
  import opened Bits
  import opened Options
  import opened Wasm

  // ---------------------------------------------------------------- expressions

  datatype CType = CType(bits: nat, signed: bool)

  const CInt := CType(32, true)

  function Unsigned(bits: nat): CType { CType(bits, false) }

  function TypeOf(t: ValType): CType { Unsigned(t.Width()) }

  datatype CVal = CVal(ty: CType, x: int)

  datatype COp = CAdd | CSub | CMul | CDiv | CRem | CAnd | COr | CXor | CShl | CShr
               | CEq | CNe | CLt | CGt | CLe | CGe

  datatype CExpr =
    | Var(v: nat)
    | GlobalVar(g: nat)
    | Lit(ty: CType, x: int)
    | NotE(e: CExpr)
    | NegE(e: CExpr)
    | Cast(ty: CType, e: CExpr)
    | BinE(op: COp, a: CExpr, b: CExpr)
    | CondE(c: CExpr, a: CExpr, b: CExpr)
    | MemByte(addr: CExpr)
    | LoadFn(bytes: nat, addr: CExpr)
    | Pages

  // Conversion to an integer type keeps the value modulo 2^bits.
  function Conv(t: CType, x: int): int {
    var m := x % Pow2(t.bits);
    if t.signed && t.bits > 0 && m >= Pow2(t.bits - 1) then m - Pow2(t.bits) else m
  }

  predicate Fits(t: CType, x: int) { Conv(t, x) == x }

  function Promote(t: CType): CType { if t.bits < 32 then CInt else t }

  /** The usual arithmetic conversions on promoted types. */
  function Common(s: CType, t: CType): CType {
    var a, b := Promote(s), Promote(t);
    if a.signed == b.signed then (if a.bits >= b.bits then a else b)
    else if a.signed then (if b.bits >= a.bits then b else a)
    else (if a.bits >= b.bits then a else b)
  }

  // A result outside a signed type is undefined; an unsigned result wraps.
  function Arith(t: CType, x: int): Option<CVal> {
    if t.signed && !Fits(t, x) then None else Some(CVal(t, Conv(t, x)))
  }

  function CBool(b: bool): CVal { CVal(CInt, if b then 1 else 0) }

  function Bitwise(op: COp, t: CType, a: int, b: int): CVal {
    var x, y := a % Pow2(t.bits), b % Pow2(t.bits);
    CVal(t, Conv(t, if op.CAnd? then BAnd(x, y) else if op.COr? then BOr(x, y) else BXor(x, y)))
  }

  function Shift(op: COp, l: CVal, r: CVal): Option<CVal> {
    var t := Promote(l.ty);
    if r.x < 0 || r.x >= t.bits then None
    else if op.CShl? then Arith(t, l.x * Pow2(r.x))
    else Some(CVal(t, l.x / Pow2(r.x)))
  }

  function BinVal(op: COp, l: CVal, r: CVal): Option<CVal> {
    var t := Common(l.ty, r.ty);
    var a, b := Conv(t, l.x), Conv(t, r.x);
    match op
    case CAdd => Arith(t, a + b)
    case CSub => Arith(t, a - b)
    case CMul => Arith(t, a * b)
    case CDiv => if b == 0 then None else Arith(t, TruncDiv(a, b))
    case CRem => if b == 0 || (t.signed && !Fits(t, TruncDiv(a, b))) then None else Arith(t, TruncRem(a, b))
    case CShl | CShr => Shift(op, l, r)
    case CEq => Some(CBool(a == b))
    case CNe => Some(CBool(a != b))
    case CLt => Some(CBool(a < b))
    case CGt => Some(CBool(a > b))
    case CLe => Some(CBool(a <= b))
    case CGe => Some(CBool(a >= b))
    case _ => Some(Bitwise(op, t, a, b))
  }

  type Env = map<nat, Val>

  function OfVal(v: Val): CVal { CVal(TypeOf(v.ty), v.n) }

  /** None is undefined behaviour: an unassigned variable, a bad address, a bad operand. */
  function Eval(e: CExpr, env: Env, s: Store): Option<CVal> {
    match e
    case Var(v) => if v in env then Some(OfVal(env[v])) else None
    case GlobalVar(g) => if g < |s.globals| then Some(OfVal(s.globals[g])) else None
    case Lit(ty, x) => Some(CVal(ty, x))
    case NotE(a) => (match Eval(a, env, s) case None => None case Some(v) => Some(CBool(v.x == 0)))
    case NegE(a) => (match Eval(a, env, s) case None => None case Some(v) => Arith(Promote(v.ty), -v.x))
    case Cast(ty, a) => (match Eval(a, env, s) case None => None case Some(v) => Some(CVal(ty, Conv(ty, v.x))))
    case BinE(op, a, b) =>
      (match (Eval(a, env, s), Eval(b, env, s))
       case (Some(l), Some(r)) => BinVal(op, l, r)
       case _ => None)
    case CondE(c, a, b) =>
      (match Eval(c, env, s)
       case None => None
       case Some(v) => if v.x != 0 then Eval(a, env, s) else Eval(b, env, s))
    case MemByte(a) =>
      (match Eval(a, env, s)
       case None => None
       case Some(v) => if 0 <= v.x < |s.mem| then Some(CVal(Unsigned(8), s.mem[v.x])) else None)
    case LoadFn(bytes, a) =>
      (match Eval(a, env, s)
       case None => None
       case Some(v) =>
         if 0 <= v.x && v.x + bytes <= |s.mem| then Some(CVal(Unsigned(8 * bytes), Little(s.mem, v.x, bytes)))
           else None)
    case Pages => Some(CVal(Unsigned(32), |s.mem| / 0x1_0000))
  }

  // ---------------------------------------------------------------- statements and scopes

  /** The left side of an assignment, with or without the declaration in front. */
  datatype Dst = New(v: nat, ty: ValType) | Old(v: nat)

  datatype CStmt =
    | Declare(v: nat, ty: ValType)
    | DeclareZero(v: nat, ty: ValType)
    | Assign(dst: Dst, e: CExpr)
    | AssignVia(dst: Dst, via: nat, e: CExpr)      // dst = via = e
    | AssignGlobal(g: nat, e: CExpr)
    | StoreBytes(bytes: nat, addr: CExpr, e: CExpr)
    | Discard(v: nat)
    | CallTo(to: Option<Dst>, f: nat, args: seq<nat>)
    | IfOpen(c: nat)
    | ElseOpen
    | Close
    | Goto(l: nat)
    | LabelHere(l: nat)
    | Switch(c: nat, targets: seq<nat>, dflt: nat)
    | Ret(value: Option<nat>)
    | Abort

  datatype CFunc = CFunc(params: seq<ValType>, ret: Option<ValType>, body: seq<CStmt>)

  /** The variables declared so far at each level of open braces, innermost last. */
  type Scope = seq<map<nat, ValType>>

  /** The variable that a statement declares, if any. */
  function Declares(s: CStmt): Option<(nat, ValType)> {
    match s
    case Declare(v, ty) => Some((v, ty))
    case DeclareZero(v, ty) => Some((v, ty))
    case Assign(d, _) => DeclaresDst(d)
    case AssignVia(d, _, _) => DeclaresDst(d)
    case CallTo(to, _, _) => if to.Some? then DeclaresDst(to.value) else None
    case _ => None
  }

  function DeclaresDst(d: Dst): Option<(nat, ValType)> {
    if d.New? then Some((d.v, d.ty)) else None
  }

  function ScopeStep(sc: Scope, s: CStmt): Scope {
    if s.IfOpen? then sc + [map[]]
    else if |sc| == 0 then sc
    else
      var k := |sc| - 1;
      if s.ElseOpen? then sc[..k] + [map[]]
      else if s.Close? then sc[..k]
      else
        var d := Declares(s);
        if d.Some? then sc[..k] + [sc[k][d.value.0 := d.value.1]] else sc
  }

  function ScopeFold(sc: Scope, code: seq<CStmt>): Scope
    decreases code
  {
    if code == [] then sc else ScopeFold(ScopeStep(sc, code[0]), code[1..])
  }

  /** The variables in scope, with their declared types. */
  function Visible(sc: Scope): map<nat, ValType> {
    if sc == [] then map[] else Visible(sc[..|sc| - 1]) + sc[|sc| - 1]
  }

  function ParamScope(params: seq<ValType>): Scope {
    [map i: nat | i < |params| :: i := params[i]]
  }

  function ScopeAt(f: CFunc, pc: nat): map<nat, ValType>
    requires pc <= |f.body|
  {
    Visible(ScopeFold(ParamScope(f.params), f.body[..pc]))
  }

  /** The brace depth after a statement, or None when it ends the arm that the scan began in. */
  function DepthAfter(s: CStmt, depth: nat): Option<nat> {
    match s
    case IfOpen(_) => Some(depth + 1)
    case Close => if depth == 0 then None else Some(depth - 1)
    case ElseOpen => if depth == 0 then None else Some(depth)
    case _ => Some(depth)
  }

  /** From inside an arm, the end of it: its matching `} else {` or `}`. */
  function SkipArm(code: seq<CStmt>, i: nat, depth: nat): (j: nat)
    requires i <= |code|
    ensures i <= j <= |code|
    decreases |code| - i
  {
    if i == |code| || DepthAfter(code[i], depth).None? then i
    else SkipArm(code, i + 1, DepthAfter(code[i], depth).value)
  }

  function FindLabel(code: seq<CStmt>, l: nat, i: nat): (j: nat)
    requires i <= |code|
    ensures i <= j <= |code|
    ensures j < |code| ==> code[j] == LabelHere(l)
    decreases |code| - i
  {
    if i == |code| || code[i] == LabelHere(l) then i else FindLabel(code, l, i + 1)
  }

  // ---------------------------------------------------------------- the machine

  datatype Frame = Frame(fn: nat, pc: nat, env: Env)

  datatype Callers = NoCaller | Caller(frame: Frame, to: Option<Dst>, rest: Callers)

  datatype Machine =
    | Running(fr: Frame, callers: Callers, store: Store)
    | Finished(ret: Option<Val>, store: Store)
    | MAborted
    | Stuck

  /** Variables whose scope is left lose their values. */
  function Restrict(env: Env, scope: map<nat, ValType>): Env {
    map v | v in env && v in scope :: env[v]
  }

  function Convert(t: ValType, x: int): Val {
    Val(t, x % Pow2(t.Width()))
  }

  /** Assigning to a variable that is not in scope does not compile. */
  function SetVar(d: Dst, x: int, scope: map<nat, ValType>, env: Env): Option<Env> {
    match d
    case New(v, ty) => Some(env[v := Convert(ty, x)])
    case Old(v) => if v in scope then Some(env[v := Convert(scope[v], x)]) else None
  }

  function SetGlobal(g: nat, x: int, s: Store): Option<Store> {
    if g < |s.globals| then Some(s.(globals := s.globals[g := Convert(s.globals[g].ty, x)])) else None
  }

  /** The statements that neither transfer control nor open or close braces. */
  predicate IsPlain(s: CStmt) {
    s.Declare? || s.DeclareZero? || s.Assign? || s.AssignVia? || s.AssignGlobal? || s.StoreBytes? || s.Discard?
  }

  function Plain(s: CStmt, scope: map<nat, ValType>, env: Env, store: Store): Option<(Env, Store)>
    requires IsPlain(s)
  {
    match s
    case Declare(v, _) => Some((env - {v}, store))
    case DeclareZero(v, ty) => Some((env[v := Zero(ty)], store))
    case Assign(d, e) =>
      (match Eval(e, env, store)
       case None => None
       case Some(cv) => match SetVar(d, cv.x, scope, env) case None => None case Some(env') => Some((env', store)))
    case AssignVia(d, via, e) =>
      (match Eval(e, env, store)
       case None => None
       case Some(cv) =>
         match SetVar(Old(via), cv.x, scope, env)
         case None => None
         case Some(env1) =>
           match SetVar(d, OfVal(env1[via]).x, scope, env1)
           case None => None
           case Some(env2) => Some((env2, store)))
    case AssignGlobal(g, e) =>
      (match Eval(e, env, store)
       case None => None
       case Some(cv) => match SetGlobal(g, cv.x, store) case None => None case Some(s') => Some((env, s')))
    case StoreBytes(bytes, addr, e) =>
      (match (Eval(addr, env, store), Eval(e, env, store))
       case (Some(a), Some(cv)) =>
         if 0 <= a.x && a.x + bytes <= |store.mem|
         then Some((env, store.(mem := Write(store.mem, a.x, Bytes(Conv(Unsigned(8 * bytes), cv.x), bytes)))))
         else None
       case _ => None)
    case Discard(v) => if v in env then Some((env, store)) else None
  }

  /** Transfers control within the current function. */
  function Jump(m: seq<CFunc>, fr: Frame, pc: nat, callers: Callers, store: Store): Machine
    requires fr.fn < |m|
  {
    if pc > |m[fr.fn].body| then Stuck
    else Running(Frame(fr.fn, pc, Restrict(fr.env, ScopeAt(m[fr.fn], pc))), callers, store)
  }

  function JumpTo(m: seq<CFunc>, fr: Frame, l: nat, callers: Callers, store: Store): Machine
    requires fr.fn < |m|
  {
    var pc := FindLabel(m[fr.fn].body, l, 0);
    if pc == |m[fr.fn].body| then Stuck else Jump(m, fr, pc, callers, store)
  }

  function GiveBack(m: seq<CFunc>, v: Option<Val>, callers: Callers, store: Store): Machine {
    match callers
    case NoCaller => Finished(v, store)
    case Caller(fr, to, rest) =>
      if to.None? then Running(fr, rest, store)
      else if v.None? || fr.fn >= |m| || fr.pc > |m[fr.fn].body| then Stuck
      else
        match SetVar(to.value, v.value.n, ScopeAt(m[fr.fn], fr.pc), fr.env)
        case None => Stuck
        case Some(env') => Running(fr.(env := env'), rest, store)
  }

  function Enter(m: seq<CFunc>, f: nat, args: seq<Val>, callers: Callers, store: Store): Machine {
    if f >= |m| || |args| != |m[f].params| then Stuck
    else Running(Frame(f, 0, map i: nat | i < |args| :: i := Convert(m[f].params[i], args[i].n)), callers, store)
  }

  function Step(m: seq<CFunc>, st: Machine): Machine {
    match st
    case Running(fr, callers, store) =>
      if fr.fn >= |m| || fr.pc > |m[fr.fn].body| then Stuck
      else
        var f := m[fr.fn];
        if fr.pc == |f.body| then (if f.ret.None? then GiveBack(m, None, callers, store) else Stuck)
        else StepStmt(m, f.body[fr.pc], fr, callers, store)
    case _ => st
  }

  function StepStmt(m: seq<CFunc>, s: CStmt, fr: Frame, callers: Callers, store: Store): Machine
    requires fr.fn < |m| && fr.pc < |m[fr.fn].body|
  {
    var f := m[fr.fn];
    match s
    case IfOpen(c) =>
      if c !in fr.env then Stuck
      else if fr.env[c].n != 0 then Running(fr.(pc := fr.pc + 1), callers, store)
      else
        var j := SkipArm(f.body, fr.pc + 1, 0);
        if j == |f.body| then Stuck
        else Jump(m, fr, if f.body[j].ElseOpen? then j + 1 else j, callers, store)
    case ElseOpen =>
      Jump(m, fr, SkipArm(f.body, fr.pc + 1, 0), callers, store)
    case Close => Jump(m, fr, fr.pc + 1, callers, store)
    case Goto(l) => JumpTo(m, fr, l, callers, store)
    case LabelHere(_) => Running(fr.(pc := fr.pc + 1), callers, store)
    case Switch(c, targets, dflt) =>
      if c !in fr.env then Stuck
      else JumpTo(m, fr, if fr.env[c].n < |targets| then targets[fr.env[c].n] else dflt, callers, store)
    case Ret(value) =>
      if value.None? then (if f.ret.None? then GiveBack(m, None, callers, store) else Stuck)
      else if f.ret.None? || value.value !in fr.env then Stuck
      else GiveBack(m, Some(Convert(f.ret.value, fr.env[value.value].n)), callers, store)
    case Abort => MAborted
    case CallTo(to, g, args) =>
      if exists i | 0 <= i < |args| :: args[i] !in fr.env then Stuck
      else
        Enter(m, g, seq(|args|, (i: nat) requires i < |args| && args[i] in fr.env => fr.env[args[i]]),
              Caller(fr.(pc := fr.pc + 1), to, callers), store)
    case _ =>
      match Plain(s, ScopeAt(f, fr.pc), fr.env, store)
      case None => Stuck
      case Some((env', store')) => Running(Frame(fr.fn, fr.pc + 1, env'), callers, store')
  }

  function Run(m: seq<CFunc>, st: Machine, n: nat): Machine
    decreases n
  {
    if n == 0 then st else Run(m, Step(m, st), n - 1)
  }

  ghost predicate Leads(m: seq<CFunc>, a: Machine, b: Machine) {
    exists n: nat :: Run(m, a, n) == b
  }

  lemma {:induction false} RunAdds(m: seq<CFunc>, a: Machine, n: nat, k: nat)
    ensures Run(m, a, n + k) == Run(m, Run(m, a, n), k)
    decreases n
  {
    if n > 0 {
      RunAdds(m, Step(m, a), n - 1, k);
    }
  }

  lemma LeadsTrans(m: seq<CFunc>, a: Machine, b: Machine, c: Machine)
    requires Leads(m, a, b) && Leads(m, b, c)
    ensures Leads(m, a, c)
  {
    var n: nat :| Run(m, a, n) == b;
    var k: nat :| Run(m, b, k) == c;
    RunAdds(m, a, n, k);
  }

  lemma LeadsRefl(m: seq<CFunc>, a: Machine)
    ensures Leads(m, a, a)
  {
    assert Run(m, a, 0) == a;
  }

  lemma LeadsStep(m: seq<CFunc>, a: Machine)
    ensures Leads(m, a, Step(m, a))
  {
    assert Run(m, Step(m, a), 0) == Step(m, a);
    assert Run(m, a, 1) == Step(m, a);
  }
}
