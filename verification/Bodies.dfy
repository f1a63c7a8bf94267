/** The code of clause bodies (pl-comp.c, compileBody() and compileSubClause()). */
module Bodies {
  import opened Clauses
  import opened Decompiler

  /** What stays the same while a clause is compiled: the arity of its head, the number of
      variables to balance, and the predicates that are called without a frame. */
  datatype Info = Info(arity: nat, limit: nat, inline: set<Functor>)

  /** Code, the variables used so far, and the number of the next variable. */
  datatype Part = Part(code: Codes, used: set<nat>, next: nat)

  predicate IsTerm(t: Term, name: Name, arity: nat) {
    t.Struct? && t.functor == Functor(name, arity)
  }

  predicate IsOr(t: Term) {
    IsTerm(t, Semicolon, 2) || IsTerm(t, Bar, 2)
  }

  /** A condition with an alternative: A -> B or A *-> B, as the first argument of `;`. */
  predicate IsCondition(t: Term) {
    IsTerm(t, Arrow, 2) || IsTerm(t, SoftArrow, 2)
  }

  predicate IsControl(t: Term) {
    IsTerm(t, Comma, 2) || IsOr(t) || IsTerm(t, Arrow, 2) || IsTerm(t, NotProvable, 1)
  }

  // ---------- subgoals

  /** The instruction that calls a goal whose arguments are in place. */
  function CallCode(f: Functor, last: bool): Codes {
    if f.name == CallName && f.arity > 1 then [Op(I_USERCALLN), Num(f.arity - 1)]
    else if f == Functor(Apply, 2) then [Op(I_APPLY)]
    else if f == Functor(CutBlock, 1) then [Op(I_CUT_BLOCK)]
    else if f == Functor(Exit, 2) then [Op(B_EXIT)]
    else if f == Functor(Throw, 1) then [Op(B_THROW)]
    else [Op(if last then I_DEPART else I_CALL), Func(f)]
  }

  predicate AllVars(args: seq<Term>) {
    forall i :: 0 <= i < |args| ==> args[i].Var?
  }

  /** C_VAR for the variables that occur here first. */
  function FirstVars(args: seq<Term>, used: set<nat>): Codes
    requires AllVars(args)
  {
    if args == [] then []
    else
      var i := args[0].index;
      (if i in used then [] else [Op(C_VAR), Num(i)]) + FirstVars(args[1..], used + {i})
  }

  function VarOperands(args: seq<Term>): Codes
    requires AllVars(args)
  {
    seq(|args|, i requires 0 <= i < |args| => Num(args[i].index))
  }

  function InlineOp(arity: nat): Opcode
    requires arity <= 2
  {
    if arity == 0 then I_CALL_FV0 else if arity == 1 then I_CALL_FV1 else I_CALL_FV2
  }

  predicate IsInline(t: Term, ci: Info) {
    t.Struct? && t.functor in ci.inline && |t.args| <= 2 && AllVars(t.args)
  }

  const PLAIN := Where(true, false, false)

  /** pl-comp.c, compileSubClause(); None is NOT_CALLABLE. */
  function CompileSubClause(t: Term, last: bool, ci: Info, cutvar: Option<nat>, used: set<nat>): Option<Part>
    requires Proper(t)
  {
    match t
    case Var(i) =>
      var r := CompileArgument(t, PLAIN, ci.arity, used);
      Some(Part(r.code + [Op(I_USERCALL0)], r.used, 0))
    case Struct(f, args) =>
      if f == Functor(Module, 2) then
        var r := CompileArgument(t, PLAIN, ci.arity, used);
        Some(Part(r.code + [Op(I_USERCALL0)], r.used, 0))
      else if IsInline(t, ci) then
        Some(Part(FirstVars(args, used) + [Op(InlineOp(|args|)), Func(f)] + VarOperands(args), used + VarsOf(t), 0))
      else
        var r := CompileArguments(t, |args|, PLAIN, ci.arity, used);
        Some(Part(r.code + CallCode(f, last), r.used, 0))
    case Atom(name) =>
      var code :=
        if name == Cut then (if cutvar.Some? then [Op(C_LCUT), Num(cutvar.value)] else [Op(I_CUT)])
        else if name == True then [Op(I_TRUE)]
        else if name == Fail then [Op(I_FAIL)]
        else if name == Catch then [Op(I_CATCH)]
        else if Functor(name, 0) in ci.inline then [Op(I_CALL_FV0), Func(Functor(name, 0))]
        else [Op(if last then I_DEPART else I_CALL), Func(Functor(name, 0))];
      Some(Part(code, used, 0))
    case _ => None
  }

  // ---------- control

  /** C_VAR for the variables that the other branch has and this one has not
      (pl-comp.c, balanceVars()). */
  function Balance(here: set<nat>, there: set<nat>, limit: nat): Codes {
    if limit == 0 then []
    else
      var i := limit - 1;
      Balance(here, there, i) + (if i in there && i !in here then [Op(C_VAR), Num(i)] else [])
  }

  /** pl-comp.c, compileBody(). */
  function CompileBody(t: Term, last: bool, ci: Info, cutvar: Option<nat>, used: set<nat>, next: nat): Option<Part>
    requires Proper(t)
    decreases t
  {
    if IsTerm(t, Comma, 2) then
      var a := CompileBody(t.args[0], false, ci, cutvar, used, next);
      if a.None? then None
      else
        var b := CompileBody(t.args[1], last, ci, cutvar, a.value.used, a.value.next);
        if b.None? then None else Some(Part(a.value.code + b.value.code, b.value.used, b.value.next))
    else if IsOr(t) then
      var left, right := used + VarsOf(t.args[0]), used + VarsOf(t.args[1]);
      var balanced, back := Balance(left, right, ci.limit), Balance(right, left, ci.limit);
      if IsCondition(t.args[0]) then
        assert Proper(t.args[0]);
        var soft := IsTerm(t.args[0], SoftArrow, 2);
        var a := CompileBody(t.args[0].args[0], false, ci, Some(next), used, next + 1);
        if a.None? then None
        else
          var b := CompileBody(t.args[0].args[1], last, ci, cutvar, a.value.used, a.value.next);
          if b.None? then None
          else
            var c := CompileBody(t.args[1], last, ci, cutvar, used, b.value.next);
            if c.None? then None
            else Some(Part(IfThenElse(soft, next, a.value.code, b.value.code + balanced, c.value.code + back), left + right, c.value.next))
      else
        var a := CompileBody(t.args[0], false, ci, cutvar, used, next);
        if a.None? then None
        else
          var b := CompileBody(t.args[1], last, ci, cutvar, used, a.value.next);
          if b.None? then None
          else Some(Part(Either(a.value.code + balanced, b.value.code + back), left + right, b.value.next))
    else if IsTerm(t, Arrow, 2) then
      var a := CompileBody(t.args[0], false, ci, Some(next), used, next + 1);
      if a.None? then None
      else
        var b := CompileBody(t.args[1], last, ci, cutvar, a.value.used, a.value.next);
        if b.None? then None
        else Some(Part(IfThen(next, a.value.code, b.value.code), b.value.used, b.value.next))
    else if IsTerm(t, NotProvable, 1) then
      var a := CompileBody(t.args[0], false, ci, Some(next), used, next + 1);
      if a.None? then None else Some(Part(Not(next, a.value.code), used, a.value.next))
    else
      var s := CompileSubClause(t, last, ci, cutvar, used);
      if s.None? then None else Some(s.value.(next := next))
  }

  /** A body of goals: no number or string is called. */
  predicate Callable(t: Term)
    requires Proper(t)
    decreases t
  {
    if IsTerm(t, Comma, 2) || IsTerm(t, Arrow, 2) then Callable(t.args[0]) && Callable(t.args[1])
    else if IsOr(t) then
      && Callable(t.args[1])
      && if IsCondition(t.args[0]) then
           assert Proper(t.args[0]);
           Callable(t.args[0].args[0]) && Callable(t.args[0].args[1])
         else Callable(t.args[0])
    else if IsTerm(t, NotProvable, 1) then Callable(t.args[0])
    else t.Var? || t.Atom? || t.Struct?
  }

  /** A body compiles just if it is callable. */
  lemma {:induction false} CompilesIfCallable(t: Term, last: bool, ci: Info, cutvar: Option<nat>, used: set<nat>, next: nat)
    requires Proper(t)
    ensures CompileBody(t, last, ci, cutvar, used, next).Some? <==> Callable(t)
    decreases t, 1
  {
    hide Balance, VarsOf, Either, IfThenElse, IfThen, Not, CompileArgument, CompileArguments, FirstVars, VarOperands, CallCode;
    if IsTerm(t, Comma, 2) {
      CompilesIfCallable(t.args[0], false, ci, cutvar, used, next);
      var a := CompileBody(t.args[0], false, ci, cutvar, used, next);
      if a.Some? {
        CompilesIfCallable(t.args[1], last, ci, cutvar, a.value.used, a.value.next);
      }
    } else if IsOr(t) {
      OrCompiles(t, last, ci, cutvar, used, next);
    } else if IsTerm(t, Arrow, 2) {
      CompilesIfCallable(t.args[0], false, ci, Some(next), used, next + 1);
      var a := CompileBody(t.args[0], false, ci, Some(next), used, next + 1);
      if a.Some? {
        CompilesIfCallable(t.args[1], last, ci, cutvar, a.value.used, a.value.next);
      }
    } else if IsTerm(t, NotProvable, 1) {
      CompilesIfCallable(t.args[0], false, ci, Some(next), used, next + 1);
    }
  }

  lemma {:induction false} OrCompiles(t: Term, last: bool, ci: Info, cutvar: Option<nat>, used: set<nat>, next: nat)
    requires Proper(t) && IsOr(t)
    ensures CompileBody(t, last, ci, cutvar, used, next).Some? <==> Callable(t)
    decreases t, 0
  {
    hide Balance, VarsOf, Either, IfThenElse, CompileSubClause;
    if IsCondition(t.args[0]) {
      assert Proper(t.args[0]);
      var c, d := t.args[0].args[0], t.args[0].args[1];
      CompilesIfCallable(c, false, ci, Some(next), used, next + 1);
      var a := CompileBody(c, false, ci, Some(next), used, next + 1);
      if a.Some? {
        CompilesIfCallable(d, last, ci, cutvar, a.value.used, a.value.next);
        var b := CompileBody(d, last, ci, cutvar, a.value.used, a.value.next);
        if b.Some? {
          CompilesIfCallable(t.args[1], last, ci, cutvar, used, b.value.next);
        }
      }
    } else {
      CompilesIfCallable(t.args[0], false, ci, cutvar, used, next);
      var a := CompileBody(t.args[0], false, ci, cutvar, used, next);
      if a.Some? {
        CompilesIfCallable(t.args[1], last, ci, cutvar, used, a.value.next);
      }
    }
  }

  /** A ; B: C_OR skips A, and the C_JMP at the end of A skips B. */
  function Either(a: Codes, b: Codes): Codes {
    [Op(C_OR), Num(|a| + 2)] + a + [Op(C_JMP), Num(|b|)] + b
  }

  /** A -> B ; C and A *-> B ; C. */
  function IfThenElse(soft: bool, v: nat, a: Codes, b: Codes, c: Codes): Codes {
    [Op(if soft then C_SOFTIF else C_IFTHENELSE), Num(v), Num(|a| + 2 + |b| + 2)] + a +
    [Op(if soft then C_SOFTCUT else C_CUT), Num(v)] + b + [Op(C_JMP), Num(|c|)] + c
  }

  /** A -> B */
  function IfThen(v: nat, a: Codes, b: Codes): Codes {
    [Op(C_MARK), Num(v)] + a + [Op(C_CUT), Num(v)] + b + [Op(C_END)]
  }

  /** \+ A */
  function Not(v: nat, a: Codes): Codes {
    [Op(C_NOT), Num(v), Num(|a| + 3)] + a + [Op(C_CUT), Num(v), Op(C_FAIL)]
  }
}
