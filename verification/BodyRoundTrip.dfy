/** The decompiler reads the code of a body back (pl-comp.c, compileBody() and
    decompileBody()). */
module BodyRoundTrip {
  import opened Clauses
  import opened Decompiler
  import opened ArgumentRoundTrip
  import opened Bodies
  import opened BodyDecompiler

  // ---------- what comes back

  /** A conjunction, associated to the right. */
  function Joined(gs: seq<Term>): Term
    requires |gs| >= 1
  {
    if |gs| == 1 then gs[0] else Struct(COMMA, [gs[0], Joined(gs[1..])])
  }

  /** The goals that t is a conjunction of, as they are decompiled. */
  function Goals(t: Term): (gs: seq<Term>)
    requires Proper(t)
    ensures |gs| >= 1
    decreases t, 1
  {
    if IsTerm(t, Comma, 2) then Goals(t.args[0]) + Goals(t.args[1]) else [Shown(t)]
  }

  /** A goal as it is decompiled: `|` becomes `;`, and conjunctions inside associate to the
      right. */
  function Shown(t: Term): Term
    requires Proper(t)
    decreases t, 0
  {
    if IsOr(t) then
      if IsCondition(t.args[0]) then
        assert Proper(t.args[0]);
        Struct(Functor(Semicolon, 2), [
          Struct(t.args[0].functor, [Joined(Goals(t.args[0].args[0])), Joined(Goals(t.args[0].args[1]))]),
          Joined(Goals(t.args[1]))])
      else Struct(Functor(Semicolon, 2), [Joined(Goals(t.args[0])), Joined(Goals(t.args[1]))])
    else if IsTerm(t, Arrow, 2) then Struct(t.functor, [Joined(Goals(t.args[0])), Joined(Goals(t.args[1]))])
    else if IsTerm(t, NotProvable, 1) then Struct(t.functor, [Joined(Goals(t.args[0]))])
    else t
  }

  function Extend(b: Building, ts: seq<Term>): Building {
    b.(done := b.done + ts)
  }

  lemma ExtendTwice(b: Building, x: seq<Term>, z: seq<Term>)
    ensures Extend(Extend(b, x), z) == Extend(b, x + z)
  {
    assert b.done + x + z == b.done + (x + z);
  }

  lemma ExtendPair(b: Building, x: Term, z: Term)
    ensures Extend(Extend(b, [x]), [z]) == Extend(b, [x, z])
  {
    ExtendTwice(b, [x], [z]);
    assert [x] + [z] == [x, z];
  }

  lemma PutExtend(b: Building, t: Term)
    requires b.open == []
    ensures Put(b, t) == Extend(b, [t])
  {
  }

  lemma {:induction false} JoinedEnd(gs: seq<Term>, x: Term, z: Term)
    ensures Joined(gs + [x, z]) == Joined(gs + [Struct(COMMA, [x, z])])
    decreases |gs|
  {
    if gs != [] {
      JoinedEnd(gs[1..], x, z);
      assert (gs + [x, z])[1..] == gs[1..] + [x, z];
      assert (gs + [Struct(COMMA, [x, z])])[1..] == gs[1..] + [Struct(COMMA, [x, z])];
    } else {
      assert [x, z][1..] == [z];
    }
  }

  lemma BuildExtend(b: Building, f: Functor, ts: seq<Term>)
    requires b.open == [] && |ts| == f.arity
    ensures Build(Extend(b, ts), f) == Some(Extend(b, [if f.arity == 0 then Atom(f.name) else Struct(f, ts)]))
  {
    var c := Extend(b, ts);
    if f.arity == 0 {
      assert ts == [] && b.done + ts == b.done;
    } else {
      assert c.done[|b.done|..] == ts && c.done[..|b.done|] == b.done;
    }
  }

  lemma {:induction false} JoinGoals(b: Building, gs: seq<Term>)
    requires b.open == [] && |gs| >= 1
    ensures Join(Extend(b, gs), |gs|) == Some(Extend(b, [Joined(gs)]))
    decreases |gs|
  {
    var n := |gs|;
    if n == 1 {
      assert gs == [gs[0]];
    } else {
      var rest, x, z := gs[..n - 2], gs[n - 2], gs[n - 1];
      assert gs == rest + [x, z];
      ExtendTwice(b, rest, [x, z]);
      BuildExtend(Extend(b, rest), COMMA, [x, z]);
      ExtendTwice(b, rest, [Struct(COMMA, [x, z])]);
      JoinGoals(b, rest + [Struct(COMMA, [x, z])]);
      JoinedEnd(rest, x, z);
    }
  }

  // ---------- the loop

  /** The loop has not come to its end. */
  predicate GoesOn(code: Codes, pc: nat, end: Option<Opcode>, until: Option<nat>) {
    pc < |code| && until != Some(pc) && !(end.Some? && code[pc] == Op(end.value))
  }

  predicate IsEnd(end: Option<Opcode>) {
    end.Some? ==> end.value in {C_CUT, C_SOFTCUT, C_END, I_EXIT}
  }

  predicate Before(until: Option<nat>, pc: nat) {
    until.Some? ==> pc <= until.value
  }

  lemma {:induction false} LoopTurn(code: Codes, pc: nat, end: Option<Opcode>, until: Option<nat>, b: Building, pushed: nat, r: Read)
    requires GoesOn(code, pc, end, until) && Construct(code, pc, b, pushed) == Some(r)
    ensures Loop(code, pc, end, until, b, pushed) == Loop(code, r.pc, end, until, r.b, r.pushed)
  {
  }

  /** The instructions that decompileBody() and decompile_head() read for an argument. */
  predicate IsArgumentOp(op: Opcode) {
    op in {H_VOID, H_VAR, H_FIRSTVAR, H_CONST, H_NIL, H_INTEGER, H_FLOAT, H_INDIRECT, H_FUNCTOR, H_RFUNCTOR, H_LIST, H_RLIST,
           B_VOID, B_VAR, B_VAR0, B_VAR1, B_VAR2, B_FIRSTVAR, B_ARGVAR, B_ARGFIRSTVAR, B_CONST, B_NIL, B_INTEGER, B_FLOAT,
           B_INDIRECT, B_FUNCTOR, B_RFUNCTOR, B_LIST, B_RLIST, I_POPF}
  }

  lemma StepIsArgument(code: Codes, pc: nat, b: Building)
    requires pc < |code| && Step(code, pc, b).Some?
    ensures code[pc].Op? && IsArgumentOp(code[pc].op)
  {
    hide Pop, ReadVar, ReadText, ReadFloat, ReadFunctor, ReadList, ReadConstant, ReadInteger;
  }

  lemma ArgumentGoal(code: Codes, pc: nat, b: Building, pushed: nat)
    requires pc < |code| && code[pc].Op? && IsArgumentOp(code[pc].op)
    ensures SubGoal(code, pc, b, pushed) == Argument(code, pc, b, pushed)
  {
    hide Argument;
  }

  lemma {:induction false} ArgumentTurn(code: Codes, pc: nat, b: Building, pushed: nat)
    requires pc < |code| && Step(code, pc, b).Some?
    ensures Construct(code, pc, b, pushed) == Some(Read(Step(code, pc, b).value.pc, Step(code, pc, b).value.b, pushed))
    ensures code[pc].Op? && code[pc].op !in {C_CUT, C_SOFTCUT, C_END, I_EXIT}
  {
    hide Step, SubGoal;
    StepAdvances(code, pc, b);
    StepIsArgument(code, pc, b);
    ArgumentGoal(code, pc, b, pushed);
  }

  lemma {:induction false} RunLoop(code: Codes, pc: nat, q: nat, b: Building, end: Option<Opcode>, until: Option<nat>, pushed: nat)
    requires pc <= q <= |code| && Run(code, pc, q, b).Some? && IsEnd(end) && Before(until, q)
    ensures Loop(code, pc, end, until, b, pushed) == Loop(code, q, end, until, Run(code, pc, q, b).value, pushed)
    decreases q - pc
  {
    if pc < q {
      var s := Step(code, pc, b);
      StepAdvances(code, pc, b);
      ArgumentTurn(code, pc, b, pushed);
      hide Step, Construct, Loop;
      LoopTurn(code, pc, end, until, b, pushed, Read(s.value.pc, s.value.b, pushed));
      RunLoop(code, s.value.pc, q, s.value.b, end, until, pushed);
    }
  }

  /** The code of the arguments of a goal puts them on the stack. */
  lemma {:induction false} ReadGoalArguments(t: Term, n: nat, arity: nat, used: set<nat>, code: Codes, pc: nat, b: Building)
    requires Proper(t) && t.Struct? && n <= |t.args| && b.open == []
    requires At(code, pc, CompileArguments(t, n, PLAIN, arity, used).code)
    ensures Run(code, pc, pc + |CompileArguments(t, n, PLAIN, arity, used).code|, b) == Some(Extend(b, t.args[..n]))
    decreases n
  {
    hide Run, Step, CompileArgument, CompileArguments;
    ArgumentsStep(t, if n == 0 then 0 else n - 1, PLAIN, arity, used);
    if n == 0 {
      RunNothing(code, pc, b);
      assert Extend(b, t.args[..0]) == b;
    } else {
      var a := CompileArguments(t, n - 1, PLAIN, arity, used);
      var r := CompileArgument(t.args[n - 1], PLAIN, arity, a.used);
      AtSplit(code, pc, a.code, r.code);
      ReadGoalArguments(t, n - 1, arity, used, code, pc, b);
      var c := Extend(b, t.args[..n - 1]);
      ReadArgument(t.args[n - 1], PLAIN, arity, a.used, code, pc + |a.code|, c);
      BodyNotVoid(t.args[n - 1], arity, a.used);
      PutExtend(c, t.args[n - 1]);
      ExtendTwice(b, t.args[..n - 1], [t.args[n - 1]]);
      assert t.args[..n - 1] + [t.args[n - 1]] == t.args[..n];
      RunSplit(code, pc, pc + |a.code|, pc + |a.code| + |r.code|, b);
    }
  }

  lemma {:induction false} BodyNotVoid(t: Term, arity: nat, used: set<nat>)
    requires Proper(t)
    ensures !CompileArgument(t, PLAIN, arity, used).void
  {
  }

  // ---------- instructions that build nothing

  /** C_VARs. */
  predicate IsVars(x: Codes)
    decreases |x|
  {
    x == [] || (|x| >= 2 && x[0] == Op(C_VAR) && x[1].Num? && x[1].n >= 0 && IsVars(x[2..]))
  }

  /** Pairs of words that the loop steps over: C_VAR or C_JMP and an operand. */
  predicate IsPadding(x: Codes)
    decreases |x|
  {
    x == [] || (|x| >= 2 && x[0] in {Op(C_VAR), Op(C_JMP)} && IsPadding(x[2..]))
  }

  lemma {:induction false} VarsJoin(x: Codes, z: Codes)
    requires IsVars(x) && IsVars(z)
    ensures IsVars(x + z)
    decreases |x|
  {
    if x == [] {
      assert x + z == z;
    } else {
      VarsJoin(x[2..], z);
      assert (x + z)[2..] == x[2..] + z;
    }
  }

  /** C_VARs and perhaps a C_JMP behind them. */
  lemma {:induction false} VarsArePadding(x: Codes, n: int)
    requires IsVars(x)
    ensures IsPadding(x) && IsPadding(x + [Op(C_JMP), Num(n)])
    decreases |x|
  {
    var one := [Op(C_JMP), Num(n)];
    if x == [] {
      assert x + one == one && one[2..] == [];
    } else {
      VarsArePadding(x[2..], n);
      assert (x + one)[2..] == x[2..] + one;
    }
  }

  lemma {:induction false} BalanceIsVars(here: set<nat>, there: set<nat>, limit: nat)
    ensures IsVars(Balance(here, there, limit))
  {
    if limit > 0 {
      BalanceIsVars(here, there, limit - 1);
      var one := [Op(C_VAR), Num(limit - 1)];
      assert one[2..] == [];
      assert IsVars(one);
      VarsJoin(Balance(here, there, limit - 1), if limit - 1 in there && limit - 1 !in here then one else []);
    }
  }

  lemma {:induction false} FirstVarsAreVars(args: seq<Term>, used: set<nat>)
    requires AllVars(args)
    ensures IsVars(FirstVars(args, used))
    decreases |args|
  {
    if args != [] {
      var i := args[0].index;
      FirstVarsAreVars(args[1..], used + {i});
      var one := [Op(C_VAR), Num(i)];
      assert one[2..] == [];
      VarsJoin(if i in used then [] else one, FirstVars(args[1..], used + {i}));
    }
  }

  lemma {:induction false} SkipPadding(x: Codes, code: Codes, pc: nat, b: Building, end: Option<Opcode>, until: Option<nat>, pushed: nat)
    requires IsPadding(x) && At(code, pc, x) && IsEnd(end) && Before(until, pc + |x|)
    ensures Loop(code, pc, end, until, b, pushed) == Loop(code, pc + |x|, end, until, b, pushed)
    decreases |x|
  {
    hide At, Loop;
    if x != [] {
      AtWord(code, pc, x, 0);
      AtWord(code, pc, x, 1);
      assert x == x[..2] + x[2..];
      AtSplit(code, pc, x[..2], x[2..]);
      PaddingTurn(code, pc, b, pushed);
      LoopTurn(code, pc, end, until, b, pushed, Read(pc + 2, b, pushed));
      SkipPadding(x[2..], code, pc + 2, b, end, until, pushed);
    }
  }

  lemma {:induction false} PaddingTurn(code: Codes, pc: nat, b: Building, pushed: nat)
    requires pc + 1 < |code| && code[pc] in {Op(C_VAR), Op(C_JMP)}
    ensures Construct(code, pc, b, pushed) == Some(Read(pc + 2, b, pushed))
  {
    hide SubGoal;
  }

  // ---------- subgoals

  /** A turn of the loop that reads one goal. */
  lemma GoalTurn(code: Codes, pc: nat, q: nat, b: Building, c: Building, end: Option<Opcode>, until: Option<nat>, pushed: nat)
    requires pc < q <= |code| && code[pc].Op? && IsGoalOp(code[pc].op)
    requires SubGoal(code, pc, b, pushed) == Some(Read(q, c, pushed + 1)) && IsEnd(end) && Before(until, q)
    ensures Loop(code, pc, end, until, b, pushed) == Loop(code, q, end, until, c, pushed + 1)
  {
    assert Construct(code, pc, b, pushed) == SubGoal(code, pc, b, pushed) by { hide SubGoal; }
    hide SubGoal, Construct;
    LoopTurn(code, pc, end, until, b, pushed, Read(q, c, pushed + 1));
  }

  predicate IsGoalOp(op: Opcode) {
    op in {I_CALL, I_DEPART, I_USERCALL0, I_USERCALLN, I_APPLY, I_CUT_BLOCK, B_EXIT, B_THROW, I_CATCH, I_CUT, I_TRUE, I_FAIL,
           I_CALL_FV0, I_CALL_FV1, I_CALL_FV2, C_LCUT}
  }

  /** A call instruction takes its arguments from the stack. */
  lemma {:induction false} ReadCall(t: Term, last: bool, code: Codes, pc: nat, b: Building, pushed: nat)
    requires Proper(t) && t.Struct? && b.open == [] && At(code, pc, CallCode(t.functor, last))
    ensures var q := pc + |CallCode(t.functor, last)|;
            && pc < q <= |code| && code[pc].Op? && IsGoalOp(code[pc].op)
            && SubGoal(code, pc, Extend(b, t.args), pushed) == Some(Read(q, Extend(b, [t]), pushed + 1))
  {
    hide Build;
    var x := CallCode(t.functor, last);
    AtWord(code, pc, x, 0);
    if |x| == 2 {
      AtWord(code, pc, x, 1);
    }
    BuildExtend(b, t.functor, t.args);
    InBounds(code, pc, x);
  }

  /** A goal with its arguments. */
  lemma ReadPlainGoal(t: Term, last: bool, ci: Info, used: set<nat>, code: Codes, pc: nat, b: Building, end: Option<Opcode>, until: Option<nat>, pushed: nat)
    requires Proper(t) && t.Struct? && b.open == [] && IsEnd(end)
    requires var x := CompileArguments(t, |t.args|, PLAIN, ci.arity, used).code + CallCode(t.functor, last);
             At(code, pc, x) && Before(until, pc + |x|)
    ensures var x := CompileArguments(t, |t.args|, PLAIN, ci.arity, used).code + CallCode(t.functor, last);
            Loop(code, pc, end, until, b, pushed) == Loop(code, pc + |x|, end, until, Extend(b, [t]), pushed + 1)
  {
    hide Loop, Run, CompileArguments, CallCode, At, SubGoal;
    var a, c := CompileArguments(t, |t.args|, PLAIN, ci.arity, used).code, CallCode(t.functor, last);
    InBounds(code, pc, a + c);
    AtSplit(code, pc, a, c);
    ReadGoalArguments(t, |t.args|, ci.arity, used, code, pc, b);
    assert t.args[..|t.args|] == t.args;
    RunLoop(code, pc, pc + |a|, b, end, until, pushed);
    ReadCall(t, last, code, pc + |a|, b, pushed);
    GoalTurn(code, pc + |a|, pc + |a| + |c|, Extend(b, t.args), Extend(b, [t]), end, until, pushed);
  }

  /** A variable or Module:Goal: its term, and I_USERCALL0. */
  lemma ReadMetaCall(t: Term, ci: Info, used: set<nat>, code: Codes, pc: nat, b: Building, end: Option<Opcode>, until: Option<nat>, pushed: nat)
    requires Proper(t) && b.open == [] && IsEnd(end)
    requires var x := CompileArgument(t, PLAIN, ci.arity, used).code + [Op(I_USERCALL0)]; At(code, pc, x) && Before(until, pc + |x|)
    ensures var x := CompileArgument(t, PLAIN, ci.arity, used).code + [Op(I_USERCALL0)];
            Loop(code, pc, end, until, b, pushed) == Loop(code, pc + |x|, end, until, Extend(b, [t]), pushed + 1)
  {
    hide Loop, Run, CompileArgument, At;
    var a := CompileArgument(t, PLAIN, ci.arity, used).code;
    InBounds(code, pc, a + [Op(I_USERCALL0)]);
    AtSplit(code, pc, a, [Op(I_USERCALL0)]);
    ReadArgument(t, PLAIN, ci.arity, used, code, pc, b);
    BodyNotVoid(t, ci.arity, used);
    PutExtend(b, t);
    RunLoop(code, pc, pc + |a|, b, end, until, pushed);
    AtWord(code, pc + |a|, [Op(I_USERCALL0)], 0);
    GoalTurn(code, pc + |a|, pc + |a| + 1, Extend(b, [t]), Extend(b, [t]), end, until, pushed);
  }

  lemma {:induction false} ReadVarOperands(args: seq<Term>, code: Codes, pc: nat, b: Building)
    requires AllVars(args) && At(code, pc, VarOperands(args)) && b.open == []
    ensures PutVars(code, pc, |args|, b) == Some(Extend(b, args))
    decreases |args|
  {
    if args == [] {
      assert Extend(b, args) == b;
    } else {
      AtWord(code, pc, VarOperands(args), 0);
      var rest := args[1..];
      assert VarOperands(args) == [Num(args[0].index)] + VarOperands(rest);
      AtSplit(code, pc, [Num(args[0].index)], VarOperands(rest));
      ReadVarOperands(rest, code, pc + 1, Extend(b, [args[0]]));
      ExtendTwice(b, [args[0]], rest);
      assert [args[0]] + rest == args;
    }
  }

  /** The instruction that calls t without a frame. */
  function InlineCode(t: Term, ci: Info): Codes
    requires IsInline(t, ci)
  {
    [Op(InlineOp(|t.args|)), Func(t.functor)] + VarOperands(t.args)
  }

  lemma {:induction false} ReadInlineCall(t: Term, ci: Info, code: Codes, pc: nat, b: Building, pushed: nat)
    requires Proper(t) && IsInline(t, ci) && b.open == [] && At(code, pc, InlineCode(t, ci))
    ensures var q := pc + |InlineCode(t, ci)|;
            && pc < q <= |code| && code[pc].Op? && IsGoalOp(code[pc].op)
            && SubGoal(code, pc, b, pushed) == Some(Read(q, Extend(b, [t]), pushed + 1))
  {
    hide VarOperands, At, Build, PutVars;
    var g, v := [Op(InlineOp(|t.args|)), Func(t.functor)], VarOperands(t.args);
    InBounds(code, pc, g + v);
    AtSplit(code, pc, g, v);
    AtWord(code, pc, g, 0);
    AtWord(code, pc, g, 1);
    ReadVarOperands(t.args, code, pc + 2, b);
    BuildExtend(b, t.functor, t.args);
    OperandCount(t.args);
  }

  /** A predicate that is called without a frame, behind the C_VARs for its new variables. */
  lemma ReadInline(t: Term, ci: Info, used: set<nat>, code: Codes, pc: nat, b: Building, end: Option<Opcode>, until: Option<nat>, pushed: nat)
    requires Proper(t) && IsInline(t, ci) && b.open == [] && IsEnd(end)
    requires var x := FirstVars(t.args, used) + InlineCode(t, ci); At(code, pc, x) && Before(until, pc + |x|)
    ensures var x := FirstVars(t.args, used) + InlineCode(t, ci);
            Loop(code, pc, end, until, b, pushed) == Loop(code, pc + |x|, end, until, Extend(b, [t]), pushed + 1)
  {
    hide Loop, FirstVars, InlineCode, At, SubGoal, IsVars, IsPadding;
    var f, g := FirstVars(t.args, used), InlineCode(t, ci);
    InBounds(code, pc, f + g);
    AtSplit(code, pc, f, g);
    FirstVarsAreVars(t.args, used);
    VarsArePadding(f, 0);
    SkipPadding(f, code, pc, b, end, until, pushed);
    ReadInlineCall(t, ci, code, pc + |f|, b, pushed);
    GoalTurn(code, pc + |f|, pc + |f| + |g|, b, Extend(b, [t]), end, until, pushed);
  }

  lemma OperandCount(args: seq<Term>)
    requires AllVars(args)
    ensures |VarOperands(args)| == |args|
  {
  }

  /** The code of a goal that is an atom. */
  function AtomCode(name: Name, last: bool, ci: Info, cutvar: Option<nat>): Codes {
    CompileSubClause(Atom(name), last, ci, cutvar, {}).value.code
  }

  lemma ReadAtomGoal(t: Term, last: bool, ci: Info, cutvar: Option<nat>, code: Codes, pc: nat, b: Building, pushed: nat)
    requires t.Atom? && b.open == [] && At(code, pc, AtomCode(t.name, last, ci, cutvar))
    ensures var q := pc + |AtomCode(t.name, last, ci, cutvar)|;
            && pc < q <= |code| && code[pc].Op? && IsGoalOp(code[pc].op)
            && SubGoal(code, pc, b, pushed) == Some(Read(q, Extend(b, [t]), pushed + 1))
  {
    hide At, Build;
    var x := AtomCode(t.name, last, ci, cutvar);
    AtWord(code, pc, x, 0);
    if |x| == 2 {
      AtWord(code, pc, x, 1);
    }
    InBounds(code, pc, x);
    assert Extend(b, []) == b;
    BuildExtend(b, Functor(t.name, 0), []);
    PutExtend(b, t);
  }

  lemma {:induction false} InlineWhole(t: Term, ci: Info, used: set<nat>)
    requires Proper(t) && IsInline(t, ci)
    ensures FirstVars(t.args, used) + [Op(InlineOp(|t.args|)), Func(t.functor)] + VarOperands(t.args) == FirstVars(t.args, used) + InlineCode(t, ci)
  {
  }

  /** Reading the code of a subgoal pushes the subgoal. */
  lemma ReadSubClause(t: Term, last: bool, ci: Info, cutvar: Option<nat>, used: set<nat>, code: Codes, pc: nat, b: Building,
      end: Option<Opcode>, until: Option<nat>, pushed: nat)
    requires Proper(t) && CompileSubClause(t, last, ci, cutvar, used).Some? && b.open == [] && IsEnd(end)
    requires var x := CompileSubClause(t, last, ci, cutvar, used).value.code; At(code, pc, x) && Before(until, pc + |x|)
    ensures var x := CompileSubClause(t, last, ci, cutvar, used).value.code;
            Loop(code, pc, end, until, b, pushed) == Loop(code, pc + |x|, end, until, Extend(b, [t]), pushed + 1)
  {
    hide Loop, At, CompileArgument, CompileArguments, CallCode, FirstVars, VarOperands, SubGoal;
    match t
    case Var(_) => ReadMetaCall(t, ci, used, code, pc, b, end, until, pushed);
    case Atom(_) =>
      ReadAtomGoal(t, last, ci, cutvar, code, pc, b, pushed);
      GoalTurn(code, pc, pc + |AtomCode(t.name, last, ci, cutvar)|, b, Extend(b, [t]), end, until, pushed);
    case Struct(f, _) =>
      if f == Functor(Module, 2) {
        ReadMetaCall(t, ci, used, code, pc, b, end, until, pushed);
      } else if IsInline(t, ci) {
        InlineWhole(t, ci, used);
        ReadInline(t, ci, used, code, pc, b, end, until, pushed);
      } else {
        ReadPlainGoal(t, last, ci, used, code, pc, b, end, until, pushed);
      }
    case _ =>
  }

  // ---------- control

  /** A body to compile, and the state of the compiler. */
  datatype Job = Job(t: Term, last: bool, ci: Info, cutvar: Option<nat>, used: set<nat>, next: nat)

  /** The job compiles to the code x. */
  predicate Gives(j: Job, x: Codes) {
    Proper(j.t) && var p := CompileBody(j.t, j.last, j.ci, j.cutvar, j.used, j.next); p.Some? && p.value.code == x
  }

  /** The variables used after j. */
  function UsedBy(j: Job): set<nat> {
    if !Proper(j.t) then {}
    else
      var p := CompileBody(j.t, j.last, j.ci, j.cutvar, j.used, j.next);
      if p.None? then {} else p.value.used
  }

  function Result(t: Term): Term
    requires Proper(t)
  {
    Joined(Goals(t))
  }

  /** a is a part of j that a cut leaves together with j. */
  predicate Scoped(a: Job, j: Job) {
    a.cutvar == j.cutvar && a.next >= j.next
  }

  /** a is a condition in j. */
  predicate Condition(a: Job, j: Job) {
    a.cutvar == Some(j.next) && a.next == j.next + 1 && !a.last
  }

  /** Every mark gets a number of its own. */
  lemma {:induction false} NextGrows(t: Term, last: bool, ci: Info, cutvar: Option<nat>, used: set<nat>, next: nat)
    requires Proper(t) && CompileBody(t, last, ci, cutvar, used, next).Some?
    ensures CompileBody(t, last, ci, cutvar, used, next).value.next >= next
    decreases t
  {
    hide CompileSubClause, Balance, Either, IfThenElse, IfThen, Not, VarsOf;
    if IsTerm(t, Comma, 2) {
      NextGrows(t.args[0], false, ci, cutvar, used, next);
      var a := CompileBody(t.args[0], false, ci, cutvar, used, next).value;
      NextGrows(t.args[1], last, ci, cutvar, a.used, a.next);
    } else if IsOr(t) {
      if IsCondition(t.args[0]) {
        assert Proper(t.args[0]);
        NextGrows(t.args[0].args[0], false, ci, Some(next), used, next + 1);
        var a := CompileBody(t.args[0].args[0], false, ci, Some(next), used, next + 1).value;
        NextGrows(t.args[0].args[1], last, ci, cutvar, a.used, a.next);
        var b := CompileBody(t.args[0].args[1], last, ci, cutvar, a.used, a.next).value;
        NextGrows(t.args[1], last, ci, cutvar, used, b.next);
      } else {
        NextGrows(t.args[0], false, ci, cutvar, used, next);
        var a := CompileBody(t.args[0], false, ci, cutvar, used, next).value;
        NextGrows(t.args[1], last, ci, cutvar, used, a.next);
      }
    } else if IsTerm(t, Arrow, 2) {
      NextGrows(t.args[0], false, ci, Some(next), used, next + 1);
      var a := CompileBody(t.args[0], false, ci, Some(next), used, next + 1).value;
      NextGrows(t.args[1], last, ci, cutvar, a.used, a.next);
    } else if IsTerm(t, NotProvable, 1) {
      NextGrows(t.args[0], false, ci, Some(next), used, next + 1);
    }
  }

  lemma CommaParts(j: Job, x: Codes) returns (a: Job, b: Job, y: Codes, z: Codes)
    requires Proper(j.t) && Gives(j, x) == true && IsTerm(j.t, Comma, 2)
    ensures Gives(a, y) == true && Gives(b, z) == true && Proper(a.t) && Proper(b.t) && a.t == j.t.args[0] && b.t == j.t.args[1] && x == y + z
    ensures Scoped(a, j) && Scoped(b, j) && !a.last && b.last == j.last
    ensures a.used == j.used && b.used == UsedBy(a) && a.ci == b.ci == j.ci
  {
    a := j.(t := j.t.args[0], last := false);
    var p := CompileBody(a.t, a.last, a.ci, a.cutvar, a.used, a.next).value;
    NextGrows(a.t, a.last, a.ci, a.cutvar, a.used, a.next);
    b := j.(t := j.t.args[1], used := p.used, next := p.next);
    y, z := p.code, CompileBody(b.t, b.last, b.ci, b.cutvar, b.used, b.next).value.code;
  }

  lemma OrParts(j: Job, x: Codes) returns (a: Job, b: Job, y: Codes, z: Codes, v: Codes, w: Codes)
    requires Proper(j.t) && Gives(j, x) == true && IsOr(j.t) && !IsCondition(j.t.args[0])
    ensures Gives(a, y) == true && Gives(b, z) == true && Proper(a.t) && Proper(b.t) && a.t == j.t.args[0] && b.t == j.t.args[1]
    ensures IsVars(v) && IsVars(w) && x == Either(y + v, z + w)
    ensures Scoped(a, j) && Scoped(b, j) && !a.last && b.last == j.last
    ensures a.used == b.used == j.used && a.ci == b.ci == j.ci
    ensures var left, right := j.used + VarsOf(j.t.args[0]), j.used + VarsOf(j.t.args[1]);
            v == Balance(left, right, j.ci.limit) && w == Balance(right, left, j.ci.limit)
  {
    hide Either, IsVars, Balance;
    a := j.(t := j.t.args[0], last := false);
    var p := CompileBody(a.t, a.last, a.ci, a.cutvar, a.used, a.next).value;
    NextGrows(a.t, a.last, a.ci, a.cutvar, a.used, a.next);
    b := j.(t := j.t.args[1], next := p.next);
    y, z := p.code, CompileBody(b.t, b.last, b.ci, b.cutvar, b.used, b.next).value.code;
    var left, right := j.used + VarsOf(j.t.args[0]), j.used + VarsOf(j.t.args[1]);
    v, w := Balance(left, right, j.ci.limit), Balance(right, left, j.ci.limit);
    BalanceIsVars(left, right, j.ci.limit);
    BalanceIsVars(right, left, j.ci.limit);
  }

  lemma IfThenElseParts(j: Job, x: Codes) returns (a: Job, b: Job, c: Job, y: Codes, z: Codes, u: Codes, v: Codes, w: Codes)
    requires Proper(j.t) && Gives(j, x) == true && IsOr(j.t) && IsCondition(j.t.args[0])
    ensures Gives(a, y) == true && Gives(b, z) == true && Gives(c, u) == true && Proper(a.t) && Proper(b.t) && Proper(c.t) && Proper(j.t.args[0])
    ensures a.t == j.t.args[0].args[0] && b.t == j.t.args[0].args[1] && c.t == j.t.args[1]
    ensures IsVars(v) && IsVars(w) && x == IfThenElse(IsTerm(j.t.args[0], SoftArrow, 2), j.next, y, z + v, u + w)
    ensures Condition(a, j) && Scoped(b, j) && Scoped(c, j) && b.last == c.last == j.last
    ensures a.used == c.used == j.used && b.used == UsedBy(a) && a.ci == b.ci == c.ci == j.ci
    ensures var left, right := j.used + VarsOf(j.t.args[0]), j.used + VarsOf(j.t.args[1]);
            v == Balance(left, right, j.ci.limit) && w == Balance(right, left, j.ci.limit)
  {
    hide IfThenElse, IsVars, Balance;
    assert Proper(j.t.args[0]);
    a := j.(t := j.t.args[0].args[0], last := false, cutvar := Some(j.next), next := j.next + 1);
    var p := CompileBody(a.t, a.last, a.ci, a.cutvar, a.used, a.next).value;
    NextGrows(a.t, a.last, a.ci, a.cutvar, a.used, a.next);
    b := j.(t := j.t.args[0].args[1], used := p.used, next := p.next);
    var q := CompileBody(b.t, b.last, b.ci, b.cutvar, b.used, b.next).value;
    NextGrows(b.t, b.last, b.ci, b.cutvar, b.used, b.next);
    c := j.(t := j.t.args[1], next := q.next);
    y, z, u := p.code, q.code, CompileBody(c.t, c.last, c.ci, c.cutvar, c.used, c.next).value.code;
    var left, right := j.used + VarsOf(j.t.args[0]), j.used + VarsOf(j.t.args[1]);
    v, w := Balance(left, right, j.ci.limit), Balance(right, left, j.ci.limit);
    BalanceIsVars(left, right, j.ci.limit);
    BalanceIsVars(right, left, j.ci.limit);
  }

  lemma IfThenParts(j: Job, x: Codes) returns (a: Job, b: Job, y: Codes, z: Codes)
    requires Proper(j.t) && Gives(j, x) == true && IsTerm(j.t, Arrow, 2)
    ensures Gives(a, y) == true && Gives(b, z) == true && Proper(a.t) && Proper(b.t) && a.t == j.t.args[0] && b.t == j.t.args[1] && x == IfThen(j.next, y, z)
    ensures Condition(a, j) && Scoped(b, j) && b.last == j.last
    ensures a.used == j.used && b.used == UsedBy(a) && a.ci == b.ci == j.ci
  {
    hide IfThen;
    a := j.(t := j.t.args[0], last := false, cutvar := Some(j.next), next := j.next + 1);
    var p := CompileBody(a.t, a.last, a.ci, a.cutvar, a.used, a.next).value;
    NextGrows(a.t, a.last, a.ci, a.cutvar, a.used, a.next);
    b := j.(t := j.t.args[1], used := p.used, next := p.next);
    y, z := p.code, CompileBody(b.t, b.last, b.ci, b.cutvar, b.used, b.next).value.code;
  }

  lemma NotParts(j: Job, x: Codes) returns (a: Job, y: Codes)
    requires Proper(j.t) && Gives(j, x) == true && IsTerm(j.t, NotProvable, 1)
    ensures Gives(a, y) == true && Proper(a.t) && a.t == j.t.args[0] && x == Not(j.next, y)
    ensures Condition(a, j)
    ensures a.used == j.used && a.ci == j.ci
  {
    hide Not;
    a := j.(t := j.t.args[0], last := false, cutvar := Some(j.next), next := j.next + 1);
    y := CompileBody(a.t, a.last, a.ci, a.cutvar, a.used, a.next).value.code;
  }

  lemma SubClauseCode(j: Job, x: Codes)
    requires Proper(j.t) && Gives(j, x) == true && !IsControl(j.t)
    ensures CompileSubClause(j.t, j.last, j.ci, j.cutvar, j.used).Some? && CompileSubClause(j.t, j.last, j.ci, j.cutvar, j.used).value.code == x
    ensures Shown(j.t) == j.t && Goals(j.t) == [j.t]
  {
    hide CompileSubClause;
  }

  /** All goals of j, and what follows, up to an address. */
  lemma {:induction false} ReadUntil(j: Job, x: Codes, tail: Codes, code: Codes, pc: nat, b: Building)
    requires Proper(j.t) && Gives(j, x) == true && At(code, pc, x + tail) && IsPadding(tail) && b.open == []
    ensures DecompileBody(code, pc, None, Some(pc + |x + tail|), b) == Some(Next(pc + |x + tail|, Extend(b, [Result(j.t)])))
    decreases j.t, 4
  {
    hide Loop, Gives, At, Goals, Joined, IsPadding;
    var q := pc + |x + tail|;
    InBounds(code, pc, x + tail);
    AtSplit(code, pc, x, tail);
    ReadBody(j, x, code, pc, b, None, Some(q), 0);
    var gs := Goals(j.t);
    SkipPadding(tail, code, pc + |x|, Extend(b, gs), None, Some(q), |gs|);
    LoopEnds(code, q, None, Some(q), Extend(b, gs), |gs|);
    JoinGoals(b, gs);
  }

  lemma {:induction false} LoopEnds(code: Codes, pc: nat, end: Option<Opcode>, until: Option<nat>, b: Building, pushed: nat)
    requires pc <= |code| && (until == Some(pc) || (pc < |code| && end.Some? && code[pc] == Op(end.value)))
    ensures Loop(code, pc, end, until, b, pushed) == Some(Read(pc, b, pushed))
  {
  }

  /** All goals of j, up to an instruction. */
  lemma {:induction false} ReadTo(j: Job, x: Codes, e: Opcode, code: Codes, pc: nat, b: Building)
    requires Proper(j.t) && Gives(j, x) == true && At(code, pc, x) && pc + |x| < |code| && code[pc + |x|] == Op(e) && IsEnd(Some(e)) && b.open == []
    ensures DecompileBody(code, pc, Some(e), None, b) == Some(Next(pc + |x|, Extend(b, [Result(j.t)])))
    decreases j.t, 4
  {
    hide Loop, Gives, At, Goals, Joined;
    ReadBody(j, x, code, pc, b, Some(e), None, 0);
    var gs := Goals(j.t);
    LoopEnds(code, pc + |x|, Some(e), None, Extend(b, gs), |gs|);
    JoinGoals(b, gs);
  }

  lemma {:induction false} ReadToJump(j: Job, x: Codes, tail: Codes, code: Codes, pc: nat, b: Building)
    requires Proper(j.t) && Gives(j, x) == true && At(code, pc + 1, x + tail) && IsPadding(tail) && b.open == [] && pc < |code| && code[pc] == Num(|x + tail|)
    ensures ToJump(code, pc, b) == Some(Next(pc + 1 + |x + tail|, Extend(b, [Result(j.t)])))
    decreases j.t, 5
  {
    hide DecompileBody, Gives, At, IsPadding;
    ReadUntil(j, x, tail, code, pc + 1, b);
  }

  lemma {:induction false} ReadOrBack(j: Job, x: Codes, code: Codes, pc: nat, b: Building, pushed: nat)
    requires Proper(j.t) && Gives(j, x) == true && IsOr(j.t) && !IsCondition(j.t.args[0]) && At(code, pc, x) && b.open == []
    ensures code[pc] == Op(C_OR) && ReadOr(code, pc + 1, b, pushed) == Some(Read(pc + |x|, Extend(b, [Shown(j.t)]), pushed + 1))
    decreases j.t, 1
  {
    hide ToJump, Gives, At, Goals, Joined, IsPadding, IsVars, Build;
    var p, q, y, z, v, w := OrParts(j, x);
    EitherAt(y, v, z, w, code, pc);
    VarsArePadding(v, |z + w|);
    VarsArePadding(w, 0);
    ReadToJump(p, y, v + [Op(C_JMP), Num(|z + w|)], code, pc + 1, b);
    var c := Extend(b, [Result(p.t)]);
    ReadToJump(q, z, w, code, pc + 3 + |y + v|, c);
    ExtendPair(b, Result(p.t), Result(q.t));
    BuildExtend(b, Functor(Semicolon, 2), [Result(p.t), Result(q.t)]);
  }

  /** Where the parts of the code of a disjunction are. */
  lemma EitherAt(y: Codes, v: Codes, z: Codes, w: Codes, code: Codes, pc: nat)
    requires At(code, pc, Either(y + v, z + w))
    ensures var tail := v + [Op(C_JMP), Num(|z + w|)];
            && |Either(y + v, z + w)| == 4 + |y + v| + |z + w| && |tail| == |v| + 2
            && pc + |Either(y + v, z + w)| <= |code|
            && code[pc] == Op(C_OR) && code[pc + 1] == Num(|y + tail|) && At(code, pc + 2, y + tail)
            && code[pc + 3 + |y + v|] == Num(|z + w|) && At(code, pc + 4 + |y + v|, z + w)
  {
    hide At;
    var tail, open := v + [Op(C_JMP), Num(|z + w|)], [Op(C_OR), Num(|y + v| + 2)];
    assert Either(y + v, z + w) == open + (y + tail) + (z + w);
    InBounds(code, pc, Either(y + v, z + w));
    AtSplit(code, pc, open + (y + tail), z + w);
    AtSplit(code, pc, open, y + tail);
    AtWord(code, pc, open, 0);
    AtWord(code, pc, open, 1);
    AtWord(code, pc + 2, y + tail, |y + v| + 1);
  }

  lemma {:induction false} ReadIfThenElseBack(j: Job, x: Codes, code: Codes, pc: nat, b: Building, pushed: nat)
    requires Proper(j.t) && Gives(j, x) == true && IsOr(j.t) && IsCondition(j.t.args[0]) && At(code, pc, x) && b.open == []
    ensures var soft := IsTerm(j.t.args[0], SoftArrow, 2);
            && code[pc] == Op(if soft then C_SOFTIF else C_IFTHENELSE)
            && ReadIfThenElse(code, pc + 1, b, pushed, if soft then C_SOFTCUT else C_CUT, j.t.args[0].functor) ==
               Some(Read(pc + |x|, Extend(b, [Shown(j.t)]), pushed + 1))
    decreases j.t, 1
  {
    hide ToJump, DecompileBody, Gives, At, Goals, Joined, IsPadding, IsVars, Build;
    var soft := IsTerm(j.t.args[0], SoftArrow, 2);
    var cut, f := if soft then C_SOFTCUT else C_CUT, j.t.args[0].functor;
    var p, q, r, y, z, u, v, w := IfThenElseParts(j, x);
    ConditionAt(soft, j.next, y, z, v, u, w, code, pc);
    VarsArePadding(v, |u + w|);
    VarsArePadding(w, 0);
    var tail := v + [Op(C_JMP), Num(|u + w|)];
    ReadTo(p, y, cut, code, pc + 3, b);
    var c := Extend(b, [Result(p.t)]);
    ReadUntil(q, z, tail, code, pc + 5 + |y|, c);
    ExtendPair(b, Result(p.t), Result(q.t));
    BuildExtend(b, f, [Result(p.t), Result(q.t)]);
    var d := Struct(f, [Result(p.t), Result(q.t)]);
    ReadToJump(r, u, w, code, pc + 6 + |y| + |z + v|, Extend(b, [d]));
    ExtendPair(b, d, Result(r.t));
    BuildExtend(b, Functor(Semicolon, 2), [d, Result(r.t)]);
  }

  /** Where the parts of the code of a conditional are. */
  lemma ConditionAt(soft: bool, n: nat, y: Codes, z: Codes, v: Codes, u: Codes, w: Codes, code: Codes, pc: nat)
    requires At(code, pc, IfThenElse(soft, n, y, z + v, u + w))
    ensures var tail := v + [Op(C_JMP), Num(|u + w|)];
            && |IfThenElse(soft, n, y, z + v, u + w)| == 7 + |y| + |z + v| + |u + w| && |tail| == |v| + 2
            && pc + |IfThenElse(soft, n, y, z + v, u + w)| <= |code|
            && code[pc] == Op(if soft then C_SOFTIF else C_IFTHENELSE) && code[pc + 1] == Num(n) && code[pc + 2] == Num(|y| + 2 + |z + tail|)
            && At(code, pc + 3, y) && code[pc + 3 + |y|] == Op(if soft then C_SOFTCUT else C_CUT) && code[pc + 4 + |y|] == Num(n)
            && At(code, pc + 5 + |y|, z + tail)
            && code[pc + 6 + |y| + |z + v|] == Num(|u + w|) && At(code, pc + 7 + |y| + |z + v|, u + w)
  {
    hide At;
    var tail := v + [Op(C_JMP), Num(|u + w|)];
    var open := [Op(if soft then C_SOFTIF else C_IFTHENELSE), Num(n), Num(|y| + 2 + |z + v| + 2)];
    var cut := [Op(if soft then C_SOFTCUT else C_CUT), Num(n)];
    var all := IfThenElse(soft, n, y, z + v, u + w);
    assert all == open + y + cut + (z + tail) + (u + w);
    InBounds(code, pc, all);
    AtSplit(code, pc, open + y + cut + (z + tail), u + w);
    AtSplit(code, pc, open + y + cut, z + tail);
    AtSplit(code, pc, open + y, cut);
    AtSplit(code, pc, open, y);
    AtWord(code, pc, open, 0);
    AtWord(code, pc, open, 1);
    AtWord(code, pc, open, 2);
    AtWord(code, pc + 3 + |y|, cut, 0);
    AtWord(code, pc + 3 + |y|, cut, 1);
    AtWord(code, pc + 5 + |y|, z + tail, |z + v| + 1);
  }

  /** Where the parts of the code of A -> B are. */
  lemma IfThenAt(n: nat, y: Codes, z: Codes, code: Codes, pc: nat)
    requires At(code, pc, IfThen(n, y, z))
    ensures && |IfThen(n, y, z)| == 5 + |y| + |z| && pc + |IfThen(n, y, z)| <= |code|
            && code[pc] == Op(C_MARK) && code[pc + 1] == Num(n) && At(code, pc + 2, y)
            && code[pc + 2 + |y|] == Op(C_CUT) && code[pc + 3 + |y|] == Num(n) && At(code, pc + 4 + |y|, z)
            && code[pc + 4 + |y| + |z|] == Op(C_END)
  {
    hide At;
    var open, cut := [Op(C_MARK), Num(n)], [Op(C_CUT), Num(n)];
    var x := IfThen(n, y, z);
    assert x == open + y + cut + z + [Op(C_END)];
    InBounds(code, pc, x);
    AtSplit(code, pc, open + y + cut + z, [Op(C_END)]);
    AtSplit(code, pc, open + y + cut, z);
    AtSplit(code, pc, open + y, cut);
    AtSplit(code, pc, open, y);
    AtWord(code, pc, open, 0);
    AtWord(code, pc, open, 1);
    AtWord(code, pc + 2 + |y|, cut, 0);
    AtWord(code, pc + 2 + |y|, cut, 1);
    AtWord(code, pc + 4 + |y| + |z|, [Op(C_END)], 0);
  }

  lemma {:induction false} ReadIfThenBack(j: Job, x: Codes, code: Codes, pc: nat, b: Building, pushed: nat)
    requires Proper(j.t) && Gives(j, x) == true && IsTerm(j.t, Arrow, 2) && At(code, pc, x) && b.open == []
    ensures code[pc] == Op(C_MARK) && ReadIfThen(code, pc + 1, b, pushed) == Some(Read(pc + |x|, Extend(b, [Shown(j.t)]), pushed + 1))
    decreases j.t, 1
  {
    hide DecompileBody, Gives, At, Goals, Joined, Build;
    var p, q, y, z := IfThenParts(j, x);
    IfThenAt(j.next, y, z, code, pc);
    ReadTo(p, y, C_CUT, code, pc + 2, b);
    var c := Extend(b, [Result(p.t)]);
    ReadTo(q, z, C_END, code, pc + 4 + |y|, c);
    ExtendPair(b, Result(p.t), Result(q.t));
    BuildExtend(b, Functor(Arrow, 2), [Result(p.t), Result(q.t)]);
  }

  /** Where the parts of the code of \+ A are. */
  lemma NotAt(n: nat, y: Codes, code: Codes, pc: nat)
    requires At(code, pc, Not(n, y))
    ensures && |Not(n, y)| == 6 + |y| && pc + |Not(n, y)| <= |code|
            && code[pc] == Op(C_NOT) && code[pc + 1] == Num(n) && code[pc + 2] == Num(|y| + 3) && At(code, pc + 3, y)
            && code[pc + 3 + |y|] == Op(C_CUT) && code[pc + 4 + |y|] == Num(n) && code[pc + 5 + |y|] == Op(C_FAIL)
  {
    hide At;
    var open, cut := [Op(C_NOT), Num(n), Num(|y| + 3)], [Op(C_CUT), Num(n), Op(C_FAIL)];
    var x := Not(n, y);
    assert x == open + y + cut;
    InBounds(code, pc, x);
    AtSplit(code, pc, open + y, cut);
    AtSplit(code, pc, open, y);
    AtWord(code, pc, open, 0);
    AtWord(code, pc, open, 1);
    AtWord(code, pc, open, 2);
    AtWord(code, pc + 3 + |y|, cut, 0);
    AtWord(code, pc + 3 + |y|, cut, 1);
    AtWord(code, pc + 3 + |y|, cut, 2);
  }

  lemma {:induction false} ReadNotBack(j: Job, x: Codes, code: Codes, pc: nat, b: Building, pushed: nat)
    requires Proper(j.t) && Gives(j, x) == true && IsTerm(j.t, NotProvable, 1) && At(code, pc, x) && b.open == []
    ensures code[pc] == Op(C_NOT) && ReadNot(code, pc + 1, b, pushed) == Some(Read(pc + |x|, Extend(b, [Shown(j.t)]), pushed + 1))
    decreases j.t, 1
  {
    hide DecompileBody, Gives, At, Goals, Joined, Build;
    var p, y := NotParts(j, x);
    NotAt(j.next, y, code, pc);
    ReadTo(p, y, C_CUT, code, pc + 3, b);
    BuildExtend(b, Functor(NotProvable, 1), [Result(p.t)]);
  }

  /** A turn of the loop that reads a control construct. */
  lemma {:induction false} ReadControl(j: Job, x: Codes, code: Codes, pc: nat, b: Building, pushed: nat)
    requires Proper(j.t) && Gives(j, x) == true && IsControl(j.t) && !IsTerm(j.t, Comma, 2) && At(code, pc, x) && b.open == []
    ensures x != [] && pc + |x| <= |code| && code[pc] in {Op(C_OR), Op(C_SOFTIF), Op(C_IFTHENELSE), Op(C_MARK), Op(C_NOT)}
    ensures Construct(code, pc, b, pushed) == Some(Read(pc + |x|, Extend(b, [Shown(j.t)]), pushed + 1))
    ensures Goals(j.t) == [Shown(j.t)]
    decreases j.t, 2
  {
    hide DecompileBody, Gives, At, Joined, Build, SubGoal, ReadOr, ReadNot, ReadIfThen, ReadIfThenElse, Shown;
    InBounds(code, pc, x);
    if IsOr(j.t) {
      if IsCondition(j.t.args[0]) {
        ReadIfThenElseBack(j, x, code, pc, b, pushed);
      } else {
        ReadOrBack(j, x, code, pc, b, pushed);
      }
    } else if IsTerm(j.t, Arrow, 2) {
      ReadIfThenBack(j, x, code, pc, b, pushed);
    } else {
      ReadNotBack(j, x, code, pc, b, pushed);
    }
  }

  /** The loop reads the code of a body and pushes its goals. */
  lemma {:induction false} ReadBody(j: Job, x: Codes, code: Codes, pc: nat, b: Building, end: Option<Opcode>, until: Option<nat>, pushed: nat)
    requires Proper(j.t) && Gives(j, x) == true && At(code, pc, x) && b.open == [] && IsEnd(end) && Before(until, pc + |x|)
    ensures Loop(code, pc, end, until, b, pushed) == Loop(code, pc + |x|, end, until, Extend(b, Goals(j.t)), pushed + |Goals(j.t)|)
    decreases j.t, 3
  {
    hide Loop, Gives, At, Construct, Shown, CompileSubClause;
    InBounds(code, pc, x);
    if IsTerm(j.t, Comma, 2) {
      var p, q, y, z := CommaParts(j, x);
      AtSplit(code, pc, y, z);
      ReadBody(p, y, code, pc, b, end, until, pushed);
      var gs := Goals(p.t);
      ReadBody(q, z, code, pc + |y|, Extend(b, gs), end, until, pushed + |gs|);
      ExtendTwice(b, gs, Goals(q.t));
    } else if IsControl(j.t) {
      ReadControl(j, x, code, pc, b, pushed);
      LoopTurn(code, pc, end, until, b, pushed, Read(pc + |x|, Extend(b, [Shown(j.t)]), pushed + 1));
    } else {
      SubClauseCode(j, x);
      ReadSubClause(j.t, j.last, j.ci, j.cutvar, j.used, code, pc, b, end, until, pushed);
    }
  }

  /** Decompiling the code of a body, up to the I_EXIT behind it, consumes exactly that code and
      gives the body back. */
  lemma {:induction false} DecompiledBody(t: Term, ci: Info, used: set<nat>, next: nat, code: Codes, pc: nat)
    requires Proper(t) && CompileBody(t, true, ci, None, used, next).Some?
    requires At(code, pc, CompileBody(t, true, ci, None, used, next).value.code + [Op(I_EXIT)])
    ensures var x := CompileBody(t, true, ci, None, used, next).value.code;
            DecompileBody(code, pc, Some(I_EXIT), None, Building([], [])) == Some(Next(pc + |x|, Building([Joined(Goals(t))], [])))
  {
    hide DecompileBody, At, Goals, Joined;
    var j := Job(t, true, ci, None, used, next);
    var x := CompileBody(t, true, ci, None, used, next).value.code;
    AtSplit(code, pc, x, [Op(I_EXIT)]);
    AtWord(code, pc + |x|, [Op(I_EXIT)], 0);
    ReadTo(j, x, I_EXIT, code, pc, Building([], []));
    assert [] + [Result(t)] == [Result(t)];
  }
}
