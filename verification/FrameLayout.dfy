/** The slots of a frame: arguments and variables first, and above them the marks of conditions
    (pl-comp.c, compileClause() and compileBody()). */
module FrameLayout {
  import opened Clauses
  import opened Decompiler
  import opened ArgumentRoundTrip
  import opened Bodies
  import opened BodyRoundTrip
  import opened HeadRoundTrip
  import opened Variables
  import opened ArgumentCode
  import Initialisation

  /** The number of arguments and variables, the size of the frame, and the predicates that are
      called without a frame. */
  datatype Layout = Layout(vars: nat, size: nat, inline: set<Functor>)

  // ---------- instructions

  predicate IsVariable(x: Codes, n: nat, f: Layout) {
    var i := Number(x, n);
    i.Some? && i.value < f.vars
  }

  predicate IsMark(x: Codes, f: Layout) {
    var v := Number(x, 1);
    v.Some? && f.vars <= v.value < f.size
  }

  predicate IsOffset(x: Codes, n: nat) {
    Number(x, n).Some?
  }

  /** Procedures that are called by I_CALL: the others have instructions of their own. */
  predicate IsOrdinary(f: Functor) {
    !(f.name == CallName && f.arity > 1) && f !in {Functor(Apply, 2), Functor(CutBlock, 1), Functor(Exit, 2), Functor(Throw, 1)}
  }

  predicate CallsInline(x: Codes, n: nat, f: Layout) {
    && |x| >= 2 + n && x[1].Func? && x[1].functor in f.inline && x[1].functor.arity == n
    && forall k :: 2 <= k < 2 + n ==> IsVariable(x, k, f)
  }

  /** The slot of a variable that an instruction for arguments uses. */
  function SlotUsed(i: Instruction): Option<nat> {
    match i
    case HeadVar(n) => Some(n)
    case HeadFirst(n) => Some(n)
    case BodyVar(n) => Some(n)
    case BodyFirst(n) => Some(n)
    case BodyArgVar(n) => Some(n)
    case BodyArgFirst(n) => Some(n)
    case _ => None
  }

  /** The length of the first instruction, if its operands are what they should be; 0 if not. */
  function Placed(x: Codes, f: Layout): nat
    requires x != []
  {
    if Decode(x).Some? then
      var d := Decode(x).value;
      if SlotUsed(d.instruction).Some? ==> SlotUsed(d.instruction).value < f.vars then d.size else 0
    else if !x[0].Op? then 0
    else
      match x[0].op
      case I_ENTER | I_EXIT | I_EXITFACT | I_USERCALL0 | I_APPLY | I_CUT_BLOCK | B_EXIT | B_THROW | I_CATCH | I_CUT | I_TRUE | I_FAIL | C_END | C_FAIL => 1
      case I_CALL | I_DEPART => if |x| >= 2 && x[1].Func? && IsOrdinary(x[1].functor) then 2 else 0
      case I_USERCALLN | C_OR | C_JMP => if IsOffset(x, 1) then 2 else 0
      case C_VAR => if IsVariable(x, 1, f) then 2 else 0
      case C_MARK | C_CUT | C_SOFTCUT | C_LCUT => if IsMark(x, f) then 2 else 0
      case C_NOT | C_IFTHENELSE | C_SOFTIF => if IsMark(x, f) && IsOffset(x, 2) then 3 else 0
      case I_CALL_FV0 => if CallsInline(x, 0, f) then 2 else 0
      case I_CALL_FV1 => if CallsInline(x, 1, f) then 3 else 0
      case I_CALL_FV2 => if CallsInline(x, 2, f) then 4 else 0
      case _ => 0
  }

  lemma PlacedSize(x: Codes, f: Layout)
    requires x != []
    ensures Placed(x, f) <= |x|
  {
    hide Decode, IsOrdinary;
    if Decode(x).Some? {
      DecodedSize(x);
    }
  }

  /** All instructions use slots as the layout says: those for variables one of a variable, and those
      for marks one above them. */
  predicate Laid(x: Codes, f: Layout)
    decreases |x|
  {
    x == [] || (
      var n := Placed(x, f);
      n > 0 && (PlacedSize(x, f); Laid(x[n..], f)))
  }

  lemma {:induction false} PlacedPrefix(x: Codes, y: Codes, f: Layout)
    requires x != [] && Placed(x, f) > 0
    ensures Placed(x + y, f) == Placed(x, f)
  {
    hide Decode, IsOrdinary;
    var z := x + y;
    assert z[0] == x[0];
    if Decode(x).Some? {
      DecodePrefix(x, y);
    } else {
      NotDecoded(x, y, f);
      OperandsPrefix(x, y, f);
      hide CallsInline, IsVariable, IsMark, IsOffset;
    }
  }

  lemma {:induction false} OperandsPrefix(x: Codes, y: Codes, f: Layout)
    ensures IsVariable(x, 1, f) ==> IsVariable(x + y, 1, f)
    ensures IsMark(x, f) ==> IsMark(x + y, f)
    ensures IsOffset(x, 1) ==> IsOffset(x + y, 1)
    ensures IsOffset(x, 2) ==> IsOffset(x + y, 2)
    ensures forall n: nat :: CallsInline(x, n, f) ==> CallsInline(x + y, n, f)
    ensures |x| >= 2 ==> (x + y)[1] == x[1]
  {
    var z := x + y;
    assert forall k :: 0 <= k < |x| ==> z[k] == x[k];
    forall k: nat | Number(x, k).Some?
      ensures Number(z, k) == Number(x, k)
    {
    }
    forall n: nat | CallsInline(x, n, f)
      ensures CallsInline(z, n, f)
    {
      forall k | 2 <= k < 2 + n
        ensures IsVariable(z, k, f)
      {
        assert IsVariable(x, k, f);
      }
    }
  }

  lemma {:induction false} NotDecoded(x: Codes, y: Codes, f: Layout)
    requires x != [] && Decode(x).None? && Placed(x, f) > 0
    ensures Decode(x + y).None?
  {
    var z := x + y;
    assert z[0] == x[0];
  }

  lemma {:induction false} LaidJoin(x: Codes, y: Codes, f: Layout)
    requires Laid(x, f) && Laid(y, f)
    ensures Laid(x + y, f)
    decreases |x|
  {
    hide Placed;
    if x == [] {
      assert x + y == y;
    } else {
      PlacedPrefix(x, y, f);
      PlacedSize(x, f);
      var n := Placed(x, f);
      assert (x + y)[n..] == x[n..] + y;
      LaidJoin(x[n..], y, f);
    }
  }

  lemma {:induction false} LaidOne(x: Codes, f: Layout)
    requires x != [] && Placed(x, f) == |x|
    ensures Laid(x, f)
  {
    hide Placed;
    assert x[|x|..] == [];
  }

  // ---------- arguments

  predicate Inside(vars: set<nat>, n: nat) {
    forall i :: i in vars ==> i < n
  }

  lemma {:induction false} SimpleLaid(t: Term, w: Where, arity: nat, used: set<nat>, f: Layout)
    requires Proper(t) && !t.Struct? && Inside(VarsOf(t), f.vars)
    ensures Laid(CompileArgument(t, w, arity, used).code, f)
  {
    var x := CompileArgument(t, w, arity, used).code;
    if IsConstant(t) {
      ConstantCode(t, w, arity, used);
      hide Decode, Laid;
    } else {
      assert t.Var? ==> t.index in VarsOf(t);
      hide Laid;
    }
    LaidOne(x, f);
  }

  lemma OpeningDecodes(g: Functor, w: Where)
    ensures Decode(Opening(g, w)) == Some(Decoded(if w.body then BodyOpen(g, w.right) else HeadOpen(g, w.right), |Opening(g, w)|))
  {
  }

  lemma OpeningLaid(g: Functor, w: Where, f: Layout)
    ensures Laid(Opening(g, w), f)
  {
    hide Laid, Decode, Opening;
    OpeningDecodes(g, w);
    DecodedSize(Opening(g, w));
    LaidOne(Opening(g, w), f);
  }

  lemma EndingLaid(w: Where, f: Layout)
    ensures Laid(Ending(w), f)
  {
    hide Laid;
    if w.right {
      NothingLaid(f);
    } else {
      LaidOne(Ending(w), f);
    }
  }

  lemma NothingLaid(f: Layout)
    ensures Laid([], f)
  {
  }

  lemma {:induction false} PartsLaid(g: Functor, w: Where, x: Codes, f: Layout)
    requires Laid(x, f)
    ensures Laid(Parts(g, w, x), f)
  {
    hide Laid, Opening, Ending;
    OpeningLaid(g, w, f);
    EndingLaid(w, f);
    LaidJoin(Opening(g, w), x, f);
    LaidJoin(Opening(g, w) + x, Ending(w), f);
  }

  lemma {:induction false} ArgInside(t: Term, n: nat, limit: nat)
    requires t.Struct? && n < |t.args| && Inside(VarsOf(t), limit)
    ensures Inside(VarsOf(t.args[n]), limit)
  {
    forall i | i in VarsOf(t.args[n])
      ensures i in VarsOf(t)
    {
    }
  }

  lemma {:induction false} ArgumentsLaid(t: Term, n: nat, w: Where, arity: nat, used: set<nat>, f: Layout)
    requires Proper(t) && t.Struct? && n <= |t.args| && Inside(VarsOf(t), f.vars)
    ensures Laid(CompileArguments(t, n, w, arity, used).code, f)
    decreases t, 0, n
  {
    hide CompileArgument, CompileArguments, Laid, VarsOf;
    ArgumentsStep(t, if n == 0 then 0 else n - 1, w, arity, used);
    if n == 0 {
      NothingLaid(f);
    } else {
      var a := CompileArguments(t, n - 1, w, arity, used);
      var r := CompileArgument(t.args[n - 1], w, arity, a.used);
      ArgumentsLaid(t, n - 1, w, arity, used, f);
      ArgInside(t, n - 1, f.vars);
      ArgumentLaid(t.args[n - 1], w, arity, a.used, f);
      LaidJoin(a.code, r.code, f);
    }
  }

  lemma {:induction false} ArgumentLaid(t: Term, w: Where, arity: nat, used: set<nat>, f: Layout)
    requires Proper(t) && Inside(VarsOf(t), f.vars)
    ensures Laid(CompileArgument(t, w, arity, used).code, f)
    decreases t, 1, 0
  {
    hide *;
    if !t.Struct? {
      SimpleLaid(t, w, arity, used, f);
    } else {
      ArgumentsThere(t);
      var n, v, z := |t.args| - 1, Where(w.body, true, false), Where(w.body, true, true);
      if t.args[n].Void? && !w.body {
        var k := TrimmedCode(t, w, arity, used);
        var x := CompileArguments(t, k, v, arity, used).code;
        ArgumentsLaid(t, k, v, arity, used, f);
        PartsLaid(t.functor, w, x, f);
      } else {
        WholeCode(t, w, arity, used);
        var a := CompileArguments(t, n, v, arity, used);
        var last := CompileArgument(t.args[n], z, arity, a.used);
        ArgumentsLaid(t, n, v, arity, used, f);
        ArgInside(t, n, f.vars);
        ArgumentLaid(t.args[n], z, arity, a.used, f);
        LaidJoin(a.code, last.code, f);
        PartsLaid(t.functor, w, a.code + last.code, f);
      }
    }
  }

  lemma {:induction false} HeadLaid(h: Term, f: Layout)
    requires IsHead(h) && Inside(VarsOf(h), f.vars)
    ensures Laid(CompileHead(h).code, f)
  {
    hide CompileArguments, Laid, VarsOf;
    if h.Atom? {
      NothingLaid(f);
    } else {
      var k := KeptCode(h, |h.args|, HEAD, |h.args|, {});
      ArgumentsLaid(h, k, HEAD, |h.args|, {}, f);
    }
  }

  // ---------- goals

  lemma VarLaid(i: nat, f: Layout)
    requires i < f.vars
    ensures Laid([Op(C_VAR), Num(i)], f)
  {
    hide Laid;
    LaidOne([Op(C_VAR), Num(i)], f);
  }

  lemma MarkLaid(op: Opcode, v: nat, f: Layout)
    requires op in {C_MARK, C_CUT, C_SOFTCUT, C_LCUT} && f.vars <= v < f.size
    ensures Laid([Op(op), Num(v)], f)
  {
    hide Laid;
    LaidOne([Op(op), Num(v)], f);
  }

  lemma ForkLaid(op: Opcode, v: nat, n: nat, f: Layout)
    requires op in {C_NOT, C_IFTHENELSE, C_SOFTIF} && f.vars <= v < f.size
    ensures Laid([Op(op), Num(v), Num(n)], f)
  {
    hide Laid;
    LaidOne([Op(op), Num(v), Num(n)], f);
  }

  lemma JumpLaid(op: Opcode, n: nat, f: Layout)
    requires op in {C_OR, C_JMP}
    ensures Laid([Op(op), Num(n)], f)
  {
    hide Laid;
    LaidOne([Op(op), Num(n)], f);
  }

  lemma WordLaid(op: Opcode, f: Layout)
    requires op in {I_ENTER, I_EXIT, I_EXITFACT, I_APPLY, I_CUT_BLOCK, B_EXIT, B_THROW, I_CATCH, I_CUT, I_TRUE, I_FAIL, C_END, C_FAIL}
    ensures Laid([Op(op)], f)
  {
    hide Laid;
    LaidOne([Op(op)], f);
  }

  lemma {:induction false} FirstVarsLaid(args: seq<Term>, used: set<nat>, f: Layout)
    requires AllVars(args) && forall i :: 0 <= i < |args| ==> args[i].index < f.vars
    ensures Laid(FirstVars(args, used), f)
    decreases |args|
  {
    if args == [] {
      NothingLaid(f);
    } else {
      var i := args[0].index;
      var one: Codes := if i in used then [] else [Op(C_VAR), Num(i)];
      FirstVarsLaid(args[1..], used + {i}, f);
      hide Laid, Placed;
      if one == [] {
        NothingLaid(f);
      } else {
        VarLaid(one[1].n, f);
      }
      LaidJoin(one, FirstVars(args[1..], used + {i}), f);
    }
  }

  lemma {:induction false} BalanceLaid(here: set<nat>, there: set<nat>, limit: nat, f: Layout)
    requires limit <= f.vars
    ensures Laid(Balance(here, there, limit), f)
    decreases limit
  {
    if limit == 0 {
      NothingLaid(f);
    } else {
      var one: Codes := if limit - 1 in there && limit - 1 !in here then [Op(C_VAR), Num(limit - 1)] else [];
      BalanceLaid(here, there, limit - 1, f);
      hide Laid, Placed;
      if one == [] {
        NothingLaid(f);
      } else {
        VarLaid(one[1].n, f);
      }
      LaidJoin(Balance(here, there, limit - 1), one, f);
    }
  }

  lemma ProcedureLaid(op: Opcode, g: Functor, f: Layout)
    requires op in {I_CALL, I_DEPART} && IsOrdinary(g)
    ensures Laid([Op(op), Func(g)], f)
  {
    hide Laid, IsOrdinary;
    LaidOne([Op(op), Func(g)], f);
  }

  lemma CallLaid(g: Functor, last: bool, f: Layout)
    ensures Laid(CallCode(g, last), f)
  {
    hide Laid, Placed;
    var x := CallCode(g, last);
    if g.name == CallName && g.arity > 1 {
      ArityLaid(g.arity - 1, f);
    } else if |x| == 1 {
      WordLaid(x[0].op, f);
    } else {
      ProcedureLaid(if last then I_DEPART else I_CALL, g, f);
    }
  }

  lemma ArityLaid(n: nat, f: Layout)
    ensures Laid([Op(I_USERCALLN), Num(n)], f)
  {
    hide Laid;
    LaidOne([Op(I_USERCALLN), Num(n)], f);
  }

  lemma {:induction false} InlineLaid(t: Term, ci: Info, f: Layout)
    requires Proper(t) && IsInline(t, ci) && f.inline == ci.inline && Inside(VarsOf(t), f.vars)
    ensures Laid(InlineCode(t, ci), f)
  {
    var x := InlineCode(t, ci);
    forall k | 2 <= k < |x|
      ensures IsVariable(x, k, f)
    {
      assert t.args[k - 2].index in VarsOf(t.args[k - 2]);
      assert t.args[k - 2].index in VarsOf(t);
    }
    hide Laid, VarsOf;
    LaidOne(x, f);
  }

  lemma {:induction false} SubClauseLaid(t: Term, last: bool, ci: Info, cutvar: Option<nat>, used: set<nat>, f: Layout)
    requires Proper(t) && CompileSubClause(t, last, ci, cutvar, used).Some? && Inside(VarsOf(t), f.vars) && f.inline == ci.inline
    requires cutvar.Some? ==> f.vars <= cutvar.value < f.size
    ensures Laid(CompileSubClause(t, last, ci, cutvar, used).value.code, f)
  {
    hide Laid, Placed, Decode, CompileArgument, CompileArguments, FirstVars, VarOperands, CallCode, InlineCode, VarsOf;
    match t
    case Var(_) => MetaLaid(t, ci, used, f);
    case Struct(g, args) =>
      if g == Functor(Module, 2) {
        MetaLaid(t, ci, used, f);
      } else if IsInline(t, ci) {
        InlineWhole(t, ci, used);
        InlineVarsInside(t, f.vars);
        FirstVarsLaid(args, used, f);
        InlineLaid(t, ci, f);
        LaidJoin(FirstVars(args, used), InlineCode(t, ci), f);
      } else {
        ArgumentsLaid(t, |args|, PLAIN, ci.arity, used, f);
        CallLaid(g, last, f);
        LaidJoin(CompileArguments(t, |args|, PLAIN, ci.arity, used).code, CallCode(g, last), f);
      }
    case Atom(name) => AtomLaid(name, last, ci, cutvar, f);
    case _ =>
  }

  lemma {:induction false} AtomLaid(name: Name, last: bool, ci: Info, cutvar: Option<nat>, f: Layout)
    requires f.inline == ci.inline && (cutvar.Some? ==> f.vars <= cutvar.value < f.size)
    ensures Laid(AtomCode(name, last, ci, cutvar), f)
  {
    hide Laid, Placed;
    var x := AtomCode(name, last, ci, cutvar);
    if |x| == 1 {
      WordLaid(x[0].op, f);
    } else if name == Cut {
      MarkLaid(C_LCUT, cutvar.value, f);
    } else if Functor(name, 0) in ci.inline {
      InlineAtomLaid(Functor(name, 0), f);
    } else {
      ProcedureLaid(if last then I_DEPART else I_CALL, Functor(name, 0), f);
    }
  }

  lemma InlineAtomLaid(g: Functor, f: Layout)
    requires g in f.inline && g.arity == 0
    ensures Laid([Op(I_CALL_FV0), Func(g)], f)
  {
    hide Laid;
    LaidOne([Op(I_CALL_FV0), Func(g)], f);
  }

  lemma {:induction false} InlineVarsInside(t: Term, limit: nat)
    requires t.Struct? && AllVars(t.args) && Inside(VarsOf(t), limit)
    ensures forall i :: 0 <= i < |t.args| ==> t.args[i].index < limit
  {
    forall i | 0 <= i < |t.args|
      ensures t.args[i].index in VarsOf(t)
    {
      assert t.args[i].index in VarsOf(t.args[i]);
    }
  }

  lemma {:induction false} MetaLaid(t: Term, ci: Info, used: set<nat>, f: Layout)
    requires Proper(t) && Inside(VarsOf(t), f.vars)
    ensures Laid(CompileArgument(t, PLAIN, ci.arity, used).code + [Op(I_USERCALL0)], f)
  {
    hide Laid, CompileArgument, VarsOf;
    ArgumentLaid(t, PLAIN, ci.arity, used, f);
    LaidOne([Op(I_USERCALL0)], f);
    LaidJoin(CompileArgument(t, PLAIN, ci.arity, used).code, [Op(I_USERCALL0)], f);
  }

  // ---------- control

  lemma {:induction false} EitherLaid(a: Codes, b: Codes, f: Layout)
    requires Laid(a, f) && Laid(b, f)
    ensures Laid(Either(a, b), f)
  {
    hide Laid;
    var x, z := [Op(C_OR), Num(|a| + 2)], [Op(C_JMP), Num(|b|)];
    JumpLaid(C_OR, |a| + 2, f);
    JumpLaid(C_JMP, |b|, f);
    LaidJoin(x, a, f);
    LaidJoin(x + a, z, f);
    LaidJoin(x + a + z, b, f);
  }

  lemma {:induction false} IfThenElseLaid(soft: bool, v: nat, a: Codes, b: Codes, c: Codes, f: Layout)
    requires Laid(a, f) && Laid(b, f) && Laid(c, f) && f.vars <= v < f.size
    ensures Laid(IfThenElse(soft, v, a, b, c), f)
  {
    hide Laid;
    var x, y, z := [Op(if soft then C_SOFTIF else C_IFTHENELSE), Num(v), Num(|a| + 2 + |b| + 2)], [Op(if soft then C_SOFTCUT else C_CUT), Num(v)], [Op(C_JMP), Num(|c|)];
    ForkLaid(if soft then C_SOFTIF else C_IFTHENELSE, v, |a| + 2 + |b| + 2, f);
    MarkLaid(if soft then C_SOFTCUT else C_CUT, v, f);
    JumpLaid(C_JMP, |c|, f);
    LaidJoin(x, a, f);
    LaidJoin(x + a, y, f);
    LaidJoin(x + a + y, b, f);
    LaidJoin(x + a + y + b, z, f);
    LaidJoin(x + a + y + b + z, c, f);
  }

  lemma {:induction false} IfThenLaid(v: nat, a: Codes, b: Codes, f: Layout)
    requires Laid(a, f) && Laid(b, f) && f.vars <= v < f.size
    ensures Laid(IfThen(v, a, b), f)
  {
    hide Laid;
    var x, y := [Op(C_MARK), Num(v)], [Op(C_CUT), Num(v)];
    MarkLaid(C_MARK, v, f);
    MarkLaid(C_CUT, v, f);
    WordLaid(C_END, f);
    LaidJoin(x, a, f);
    LaidJoin(x + a, y, f);
    LaidJoin(x + a + y, b, f);
    LaidJoin(x + a + y + b, [Op(C_END)], f);
  }

  lemma {:induction false} NotLaid(v: nat, a: Codes, f: Layout)
    requires Laid(a, f) && f.vars <= v < f.size
    ensures Laid(Not(v, a), f)
  {
    hide Laid;
    var x, y := [Op(C_NOT), Num(v), Num(|a| + 3)], [Op(C_CUT), Num(v)];
    ForkLaid(C_NOT, v, |a| + 3, f);
    MarkLaid(C_CUT, v, f);
    WordLaid(C_FAIL, f);
    LaidJoin(x, a, f);
    LaidJoin(y, [Op(C_FAIL)], f);
    LaidJoin(x + a, y + [Op(C_FAIL)], f);
    assert Not(v, a) == x + a + (y + [Op(C_FAIL)]);
  }

  /** A body whose code is to have this layout: its marks are numbered from next on. */
  ghost predicate Suits(t: Term, ci: Info, cutvar: Option<nat>, next: nat, f: Layout) {
    && Inside(VarsOf(t), f.vars) && ci.limit == f.vars && ci.inline == f.inline && f.vars <= next
    && (cutvar.Some? ==> f.vars <= cutvar.value < f.size)
  }

  lemma {:induction false} BodyLaid(t: Term, last: bool, ci: Info, cutvar: Option<nat>, used: set<nat>, next: nat, f: Layout)
    requires Proper(t) && CompileBody(t, last, ci, cutvar, used, next).Some? && Suits(t, ci, cutvar, next, f)
    requires CompileBody(t, last, ci, cutvar, used, next).value.next <= f.size
    ensures Laid(CompileBody(t, last, ci, cutvar, used, next).value.code, f)
    decreases t, 1
  {
    hide Laid, CompileSubClause, Either, IfThenElse, IfThen, Not, VarsOf, Inside, Balance;
    if IsTerm(t, Comma, 2) {
      ArgInside(t, 0, f.vars);
      ArgInside(t, 1, f.vars);
      var a := CompileBody(t.args[0], false, ci, cutvar, used, next).value;
      NextGrows(t.args[0], false, ci, cutvar, used, next);
      NextGrows(t.args[1], last, ci, cutvar, a.used, a.next);
      BodyLaid(t.args[0], false, ci, cutvar, used, next, f);
      BodyLaid(t.args[1], last, ci, cutvar, a.used, a.next, f);
      LaidJoin(a.code, CompileBody(t.args[1], last, ci, cutvar, a.used, a.next).value.code, f);
    } else if IsOr(t) {
      OrLaid(t, last, ci, cutvar, used, next, f);
    } else if IsTerm(t, Arrow, 2) {
      ArgInside(t, 0, f.vars);
      ArgInside(t, 1, f.vars);
      var a := CompileBody(t.args[0], false, ci, Some(next), used, next + 1).value;
      NextGrows(t.args[0], false, ci, Some(next), used, next + 1);
      NextGrows(t.args[1], last, ci, cutvar, a.used, a.next);
      BodyLaid(t.args[0], false, ci, Some(next), used, next + 1, f);
      BodyLaid(t.args[1], last, ci, cutvar, a.used, a.next, f);
      IfThenLaid(next, a.code, CompileBody(t.args[1], last, ci, cutvar, a.used, a.next).value.code, f);
    } else if IsTerm(t, NotProvable, 1) {
      ArgInside(t, 0, f.vars);
      var a := CompileBody(t.args[0], false, ci, Some(next), used, next + 1).value;
      NextGrows(t.args[0], false, ci, Some(next), used, next + 1);
      BodyLaid(t.args[0], false, ci, Some(next), used, next + 1, f);
      NotLaid(next, a.code, f);
    } else {
      SubClauseLaid(t, last, ci, cutvar, used, f);
    }
  }

  lemma {:induction false} OrLaid(t: Term, last: bool, ci: Info, cutvar: Option<nat>, used: set<nat>, next: nat, f: Layout)
    requires Proper(t) && IsOr(t) && CompileBody(t, last, ci, cutvar, used, next).Some? && Suits(t, ci, cutvar, next, f)
    requires CompileBody(t, last, ci, cutvar, used, next).value.next <= f.size
    ensures Laid(CompileBody(t, last, ci, cutvar, used, next).value.code, f)
    decreases t, 0
  {
    hide Laid, CompileSubClause, Either, IfThenElse, VarsOf, Inside, Balance;
    var left, right := used + VarsOf(t.args[0]), used + VarsOf(t.args[1]);
    var v, w := Balance(left, right, ci.limit), Balance(right, left, ci.limit);
    BalanceLaid(left, right, ci.limit, f);
    BalanceLaid(right, left, ci.limit, f);
    ArgInside(t, 0, f.vars);
    ArgInside(t, 1, f.vars);
    if IsCondition(t.args[0]) {
      assert Proper(t.args[0]);
      var p, q := t.args[0].args[0], t.args[0].args[1];
      ArgInside(t.args[0], 0, f.vars);
      ArgInside(t.args[0], 1, f.vars);
      var a := CompileBody(p, false, ci, Some(next), used, next + 1).value;
      NextGrows(p, false, ci, Some(next), used, next + 1);
      var b := CompileBody(q, last, ci, cutvar, a.used, a.next).value;
      NextGrows(q, last, ci, cutvar, a.used, a.next);
      var c := CompileBody(t.args[1], last, ci, cutvar, used, b.next).value;
      NextGrows(t.args[1], last, ci, cutvar, used, b.next);
      BodyLaid(p, false, ci, Some(next), used, next + 1, f);
      BodyLaid(q, last, ci, cutvar, a.used, a.next, f);
      BodyLaid(t.args[1], last, ci, cutvar, used, b.next, f);
      LaidJoin(b.code, v, f);
      LaidJoin(c.code, w, f);
      IfThenElseLaid(IsTerm(t.args[0], SoftArrow, 2), next, a.code, b.code + v, c.code + w, f);
    } else {
      var a := CompileBody(t.args[0], false, ci, cutvar, used, next).value;
      NextGrows(t.args[0], false, ci, cutvar, used, next);
      var b := CompileBody(t.args[1], last, ci, cutvar, used, a.next).value;
      NextGrows(t.args[1], last, ci, cutvar, used, a.next);
      BodyLaid(t.args[0], false, ci, cutvar, used, next, f);
      BodyLaid(t.args[1], last, ci, cutvar, used, a.next, f);
      LaidJoin(a.code, v, f);
      LaidJoin(b.code, w, f);
      EitherLaid(a.code + v, b.code + w, f);
    }
  }

  // ---------- clauses

  /** The size of the frame of a clause: clause->variables. */
  function FrameSize(h: Term, body: Term, inline: set<Functor>): nat
    requires IsHead(h) && Proper(body)
  {
    var d, arity := Analysed(h, body), HeadFunctor(h).arity;
    ReplaceKeeps(h, (x: nat) => Numbered(d, arity, x));
    ReplaceKeeps(body, (x: nat) => Numbered(d, arity, x));
    ClauseVariables(NumberedTerm(h, d, arity), NumberedTerm(body, d, arity), VarCount(d, arity), inline)
  }

  lemma {:induction false} CompiledLaid(g: Term, body: Term, vars: nat, inline: set<Functor>)
    requires IsHead(g) && Proper(body) && Inside(VarsOf(g), vars) && Inside(VarsOf(body), vars)
    requires CompileClause(g, body, vars, inline).Some?
    ensures vars <= ClauseVariables(g, body, vars, inline)
    ensures Laid(CompileClause(g, body, vars, inline).value, Layout(vars, ClauseVariables(g, body, vars, inline), inline))
  {
    hide Laid, Placed, CompileHead, CompileBody, Inside, VarsOf;
    var f := Layout(vars, ClauseVariables(g, body, vars, inline), inline);
    var head := CompileHead(g);
    HeadLaid(g, f);
    if body == TRUE {
      WordLaid(I_EXITFACT, f);
      LaidJoin(head.code, [Op(I_EXITFACT)], f);
    } else {
      var ci := Info(HeadFunctor(g).arity, vars, inline);
      var b := CompileBody(body, true, ci, None, head.used, vars).value;
      NextGrows(body, true, ci, None, head.used, vars);
      BodyLaid(body, true, ci, None, head.used, vars, f);
      WordLaid(I_ENTER, f);
      WordLaid(I_EXIT, f);
      LaidJoin(head.code, [Op(I_ENTER)], f);
      LaidJoin(head.code + [Op(I_ENTER)], b.code, f);
      LaidJoin(head.code + [Op(I_ENTER)] + b.code, [Op(I_EXIT)], f);
    }
  }

  /** In the code of any clause every mark has a slot above those of all arguments and variables and
      inside the frame, and no other instruction uses such a slot. */
  lemma {:induction false} ClauseIsLaid(h: Term, body: Term, inline: set<Functor>)
    requires IsHead(h) && Proper(body) && ClauseCode(h, body, inline).Some?
    ensures var n := VarCount(Analysed(h, body), HeadFunctor(h).arity);
            && HeadFunctor(h).arity <= n <= FrameSize(h, body, inline)
            && Laid(ClauseCode(h, body, inline).value, Layout(n, FrameSize(h, body, inline), inline))
  {
    hide Laid, Analysed, CompileClause, ClauseVariables, Numbered, Replace, VarsOf;
    var d, arity := Analysed(h, body), HeadFunctor(h).arity;
    Initialisation.NumberedIsKnown(h, body);
    Initialisation.ClauseCodeIs(h, body, inline);
    CompiledLaid(NumberedTerm(h, d, arity), NumberedTerm(body, d, arity), VarCount(d, arity), inline);
    Analyses(h, body);
    OffsetRange(d, arity, |d.slots|);
  }
}
