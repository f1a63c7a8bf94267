/** The compiler at work: it appends to the code, patches jumps and keeps the table of the variables
    that have been used (pl-comp.c, compileInfo, compileArgument() to compileClause()). */
module Compiling {
  import opened Clauses
  import opened Decompiler
  import opened ArgumentRoundTrip
  import opened Bodies
  import opened HeadRoundTrip
  import opened Variables

  /** The variables among the first n arguments. */
  ghost function Indexes(args: seq<Term>, n: nat): set<nat>
    requires AllVars(args) && n <= |args|
  {
    set k | 0 <= k < n :: args[k].index
  }

  lemma DataMore(words: seq<int>, i: nat)
    requires i < |words|
    ensures Data(words[..i + 1]) == Data(words[..i]) + [Num(words[i])]
  {
  }

  class CompileInfo {
    const arity: nat
    const limit: nat                 // the number of variables that the table has room for
    const inline: set<Functor>
    var codes: Codes
    var used: set<nat>               // used_var
    var variables: nat               // clause->variables
    var cutvar: Option<nat>

    constructor (arity: nat, limit: nat, inline: set<Functor>)
      ensures this.arity == arity && this.limit == limit && this.inline == inline
      ensures codes == [] && used == {} && variables == limit && cutvar == None
    {
      this.arity, this.limit, this.inline := arity, limit, inline;
      codes, used, variables, cutvar := [], {}, limit, None;
    }

    function Plan(): Info {
      Info(arity, limit, inline)
    }

    /** Output_0(), Output_1() and Output_n() */
    method Output(x: Codes)
      modifies this`codes
      ensures codes == old(codes) + x
    {
      codes := codes + x;
    }

    method OutputData(words: seq<int>)
      modifies this`codes
      ensures codes == old(codes) + Data(words)
    {
      for i := 0 to |words|
        invariant codes == old(codes) + Data(words[..i])
      {
        DataMore(words, i);
        codes := codes + [Num(words[i])];
      }
      assert words[..|words|] == words;
    }

    method IsFirstVar(i: nat) returns (first: bool)
      modifies this`used
      ensures first == (i !in old(used)) && used == old(used) + {i}
    {
      first := i !in used;
      used := used + {i};
    }

    // ---------- arguments

    method Variable(i: nat, w: Where) returns (void: bool)
      modifies this`codes, this`used
      ensures var r := CompileVar(i, w, arity, old(used)); codes == old(codes) + r.code && used == r.used && void == r.void
    {
      var first := IsFirstVar(i);
      if i < arity {
        if w.body {
          if w.arg {
            Output([Op(B_ARGVAR)]);
          } else if i < 3 {
            Output([Op(VarOp(i))]);
            return false;
          } else {
            Output([Op(B_VAR)]);
          }
        } else if !w.arg && first {
          Output([Op(H_VOID)]);
          return true;
        } else {
          Output([Op(H_VAR)]);
        }
      } else if w.body {
        if w.arg {
          Output([Op(if first then B_ARGFIRSTVAR else B_ARGVAR)]);
        } else if i < 3 && !first {
          Output([Op(VarOp(i))]);
          return false;
        } else {
          Output([Op(if first then B_FIRSTVAR else B_VAR)]);
        }
      } else {
        Output([Op(if first then H_FIRSTVAR else H_VAR)]);
      }
      Output([Num(i)]);
      void := false;
    }

    method Leaf(t: Term, w: Where) returns (void: bool)
      requires !t.Struct?
      modifies this`codes, this`used
      ensures var r := CompileArgument(t, w, arity, old(used)); codes == old(codes) + r.code && used == r.used && void == r.void
    {
      void := false;
      match t {
        case Void =>
          Output([Op(if w.body then B_VOID else H_VOID)]);
          void := !w.body;
        case Big(n) =>
          Output([Op(if w.body then B_INTEGER else H_INTEGER), Num(n)]);
        case Small(_) =>
          Output([Op(if w.body then B_CONST else H_CONST), Constant(t)]);
        case Atom(name) =>
          if name == Nil {
            Output([Op(if w.body then B_NIL else H_NIL)]);
          } else {
            Output([Op(if w.body then B_CONST else H_CONST), Constant(t)]);
          }
        case Float(low, high) =>
          Output([Op(if w.body then B_FLOAT else H_FLOAT), Num(low), Num(high)]);
        case Text(words) =>
          Output([Op(if w.body then B_INDIRECT else H_INDIRECT), Num(|words|)]);
          OutputData(words);
        case Var(i) =>
          void := Variable(i, w);
      }
    }

    /** The start of a compound term and all arguments but the last: where the code ends of the
        last argument that is not void. */
    method Opened(t: Term, w: Where) returns (last: nat)
      requires Proper(t) && t.Struct?
      modifies this`codes, this`used
      ensures var a := CompileArguments(t, |t.args| - 1, Where(w.body, true, false), arity, old(used));
              && codes == old(codes) + Opening(t.functor, w) + a.code && used == a.used
              && last == |old(codes) + Opening(t.functor, w)| + a.kept
      decreases t, 0
    {
      hide CompileArguments, CompileArgument, Opening;
      var n, u := |t.args| - 1, Where(w.body, true, false);
      Output(Opening(t.functor, w));
      ghost var from := codes;
      last := |codes|;
      ArgumentsStep(t, 0, u, arity, used);
      for i := 0 to n
        invariant var a := CompileArguments(t, i, u, arity, old(used));
                  codes == from + a.code && used == a.used && last == |from| + a.kept
      {
        ArgumentsStep(t, i, u, arity, old(used));
        var void := Argument(t.args[i], u);
        if !void {
          last := |codes|;
        }
      }
    }

    /** compileArgument(); the last argument of a last argument is compiled in the same turn. */
    method Argument(arg: Term, w: Where) returns (void: bool)
      requires Proper(arg)
      modifies this`codes, this`used
      ensures var r := CompileArgument(arg, w, arity, old(used)); codes == old(codes) + r.code && used == r.used && void == r.void
      decreases arg, 2
    {
      hide CompileArguments, CompileArgument, Opening;
      var t, at := arg, w;
      ghost var all := CompileArgument(arg, w, arity, used);
      while t.Struct? && at.right
        invariant Proper(t) && (t == arg || t < arg)
        invariant var r := CompileArgument(t, at, arity, used); old(codes) + all.code == codes + r.code && all.used == r.used && all.void == r.void
        decreases t
      {
        StructCode(t, at, arity, used);
        var last := Opened(t, at);
        var n := |t.args| - 1;
        if t.args[n].Void? && !at.body {
          codes := codes[..last];
          return false;
        }
        NoVoid(t.args[n], Where(at.body, true, true), arity, used);
        t, at := t.args[n], Where(at.body, true, true);
      }
      void := false;
      if t.Struct? {
        Compound(t, at);
      } else {
        void := Leaf(t, at);
      }
    }

    /** A compound term that ends with I_POPF. */
    method Compound(t: Term, w: Where)
      requires Proper(t) && t.Struct? && !w.right
      modifies this`codes, this`used
      ensures var r := CompileArgument(t, w, arity, old(used)); codes == old(codes) + r.code && used == r.used && !r.void
      decreases t, 1
    {
      hide CompileArguments, CompileArgument, Opening;
      StructCode(t, w, arity, used);
      var last := Opened(t, w);
      var n := |t.args| - 1;
      if t.args[n].Void? && !w.body {
        codes := codes[..last];
      } else {
        var _ := Argument(t.args[n], Where(w.body, true, true));
      }
      Output([Op(I_POPF)]);
    }

    // ---------- subgoals

    /** The arguments of a goal. */
    method GoalArguments(t: Term)
      requires Proper(t) && t.Struct?
      modifies this`codes, this`used
      ensures var r := CompileArguments(t, |t.args|, PLAIN, arity, old(used)); codes == old(codes) + r.code && used == r.used
    {
      hide CompileArguments, CompileArgument;
      ghost var from := codes;
      ArgumentsStep(t, 0, PLAIN, arity, used);
      for i := 0 to |t.args|
        invariant var a := CompileArguments(t, i, PLAIN, arity, old(used)); codes == from + a.code && used == a.used
      {
        ArgumentsStep(t, i, PLAIN, arity, old(used));
        var _ := Argument(t.args[i], PLAIN);
      }
    }

    /** C_VAR for the variables that occur here first. */
    method OutputFirst(args: seq<Term>)
      requires AllVars(args)
      modifies this`codes, this`used
      ensures codes == old(codes) + FirstVars(args, old(used))
      ensures used == old(used) + Indexes(args, |args|)
    {
      ghost var all := codes + FirstVars(args, used);
      for i := 0 to |args|
        invariant all == codes + FirstVars(args[i..], used) && used == old(used) + Indexes(args, i)
      {
        FirstVarsStep(args[i..], used);
        assert args[i..][1..] == args[i + 1..];
        var first := IsFirstVar(args[i].index);
        if first {
          Output([Op(C_VAR), Num(args[i].index)]);
        }
      }
      assert args[|args|..] == [];
    }

    /** A call of a predicate without a frame. */
    method Inline(t: Term)
      requires Proper(t) && IsInline(t, Plan())
      modifies this`codes, this`used
      ensures codes == old(codes) + FirstVars(t.args, old(used)) + [Op(InlineOp(|t.args|)), Func(t.functor)] + VarOperands(t.args)
      ensures used == old(used) + VarsOf(t)
    {
      hide FirstVars;
      OutputFirst(t.args);
      Output([Op(InlineOp(|t.args|)), Func(t.functor)]);
      ghost var from := codes;
      for i := 0 to |t.args|
        invariant codes == from + VarOperands(t.args)[..i] && used == old(used) + Indexes(t.args, |t.args|)
      {
        Output([Num(t.args[i].index)]);
      }
      VariablesAre(t);
    }

    method AtomGoal(t: Term, last: bool)
      requires t.Atom?
      modifies this`codes
      ensures var r := CompileSubClause(t, last, Plan(), cutvar, used); r.Some? && codes == old(codes) + r.value.code && used == r.value.used
    {
      if t.name == Cut {
        if cutvar.Some? {
          Output([Op(C_LCUT), Num(cutvar.value)]);
        } else {
          Output([Op(I_CUT)]);
        }
      } else if t.name == True {
        Output([Op(I_TRUE)]);
      } else if t.name == Fail {
        Output([Op(I_FAIL)]);
      } else if t.name == Catch {
        Output([Op(I_CATCH)]);
      } else if Functor(t.name, 0) in inline {
        Output([Op(I_CALL_FV0), Func(Functor(t.name, 0))]);
      } else {
        Output([Op(if last then I_DEPART else I_CALL), Func(Functor(t.name, 0))]);
      }
    }

    /** pl-comp.c, compileSubClause(); a number or a string cannot be called. */
    method SubClause(t: Term, last: bool) returns (ok: bool)
      requires Proper(t)
      modifies this`codes, this`used
      ensures var r := CompileSubClause(t, last, Plan(), cutvar, old(used));
              ok == r.Some? && (ok ==> codes == old(codes) + r.value.code && used == r.value.used)
    {
      hide CompileArgument, CompileArguments, FirstVars, VarOperands, CallCode;
      if t.Var? || (t.Struct? && t.functor == Functor(Module, 2)) {
        var _ := Argument(t, PLAIN);
        Output([Op(I_USERCALL0)]);
        return true;
      }
      if t.Atom? {
        AtomGoal(t, last);
        return true;
      }
      if !t.Struct? {
        return false;
      }
      if IsInline(t, Plan()) {
        Inline(t);
      } else {
        GoalArguments(t);
        Output(CallCode(t.functor, last));
      }
      ok := true;
    }

    // ---------- control

    /** pl-comp.c, balanceVars() */
    method BalanceVars(here: set<nat>, there: set<nat>)
      modifies this`codes
      ensures codes == old(codes) + Balance(here, there, limit)
    {
      for i := 0 to limit
        invariant codes == old(codes) + Balance(here, there, i)
      {
        if i in there && i !in here {
          Output([Op(C_VAR), Num(i)]);
        }
      }
    }

    /** The operand in front of `at` becomes the distance to the end of the code. */
    method Patch(at: nat, ghost x: Codes, ghost y: Codes)
      requires codes == x + [Num(0)] + y && at == |x| + 1
      modifies this`codes
      ensures codes == x + [Num(|y|)] + y
    {
      codes := codes[at - 1 := Num(|codes| - at)];
    }

    /** A condition: a cut in it is local. */
    method Test(t: Term, v: nat) returns (ok: bool)
      requires Proper(t)
      modifies this`codes, this`used, this`variables, this`cutvar
      ensures var r := CompileBody(t, false, Plan(), Some(v), old(used), old(variables));
              && ok == r.Some? && (ok ==> codes == old(codes) + r.value.code && used == r.value.used && variables == r.value.next)
              && (ok ==> cutvar == old(cutvar))
      decreases t, 3
    {
      hide CompileBody;
      var cutsave := cutvar;
      cutvar := Some(v);
      ok := Body(t, false);
      if ok {
        cutvar := cutsave;
      }
    }

    /** A branch, and C_VAR for the variables that only the other one has. */
    method Branch(t: Term, last: bool, here: set<nat>, there: set<nat>) returns (ok: bool)
      requires Proper(t)
      modifies this`codes, this`used, this`variables, this`cutvar
      ensures var r := CompileBody(t, last, Plan(), old(cutvar), old(used), old(variables));
              && ok == r.Some? && (ok ==> codes == old(codes) + (r.value.code + Balance(here, there, limit)) && variables == r.value.next)
              && (ok ==> cutvar == old(cutvar))
      decreases t, 3
    {
      hide CompileBody, Balance;
      ok := Body(t, last);
      if ok {
        BalanceVars(here, there);
      }
    }

    /** A ; B */
    method Or(t: Term, last: bool) returns (ok: bool)
      requires Proper(t) && IsOr(t) && !IsCondition(t.args[0])
      modifies this`codes, this`used, this`variables, this`cutvar
      ensures var r := CompileBody(t, last, Plan(), old(cutvar), old(used), old(variables));
              && ok == r.Some? && (ok ==> codes == old(codes) + r.value.code && used == r.value.used && variables == r.value.next)
              && (ok ==> cutvar == old(cutvar))
      decreases t, 1
    {
      hide CompileBody, Balance, VarsOf, Either;
      OrCode(t, last, Plan(), cutvar, used, variables);
      var vsave, left, right := used, used + VarsOf(t.args[0]), used + VarsOf(t.args[1]);
      ghost var a := CompileBody(t.args[0], false, Plan(), cutvar, used, variables);
      Output([Op(C_OR), Num(0)]);
      var or := |codes|;
      ok := Branch(t.args[0], false, left, right);
      if !ok {
        return;
      }
      ghost var y := a.value.code + Balance(left, right, limit);
      Output([Op(C_JMP), Num(0)]);
      var jmp := |codes|;
      OpenedOr(old(codes), y);
      Patch(or, old(codes) + [Op(C_OR)], y + [Op(C_JMP), Num(0)]);
      used := vsave;
      ghost var b := CompileBody(t.args[1], last, Plan(), cutvar, used, variables);
      ok := Branch(t.args[1], last, right, left);
      if !ok {
        return;
      }
      ghost var w := b.value.code + Balance(right, left, limit);
      EitherIs(old(codes), y, w);
      Patch(jmp, old(codes) + [Op(C_OR), Num(|y| + 2)] + y + [Op(C_JMP)], w);
      used := left + right;
    }

    /** The code of A -> B ; C or A *-> B ; C up to the jump over C; c and d are A and B. */
    method Then(t: Term, last: bool, c: Term, d: Term, soft: bool, left: set<nat>, right: set<nat>) returns (ok: bool)
      requires Proper(c) && Proper(d) && c < t && d < t
      modifies this`codes, this`used, this`variables, this`cutvar
      ensures var v, a := old(variables), CompileBody(c, false, Plan(), Some(old(variables)), old(used), old(variables) + 1);
              if a.None? then !ok
              else
                var b := CompileBody(d, last, Plan(), old(cutvar), a.value.used, a.value.next);
                && ok == b.Some? && (ok ==> variables == b.value.next && cutvar == old(cutvar))
                && (ok ==> codes == BeforeJump(old(codes), soft, v, a.value.code, b.value.code + Balance(left, right, limit)) + [Num(0)])
      decreases t, 0
    {
      hide CompileBody, Balance, BeforeJump;
      var v := variables;
      variables := variables + 1;
      ghost var a := CompileBody(c, false, Plan(), Some(v), used, variables);
      Output([Op(if soft then C_SOFTIF else C_IFTHENELSE), Num(v), Num(0)]);
      var or := |codes|;
      ok := Test(c, v);
      if !ok {
        return;
      }
      Output([Op(if soft then C_SOFTCUT else C_CUT), Num(v)]);
      ghost var b := CompileBody(d, last, Plan(), cutvar, used, variables);
      ok := Branch(d, last, left, right);
      if !ok {
        return;
      }
      ghost var y := b.value.code + Balance(left, right, limit);
      Output([Op(C_JMP), Num(0)]);
      OpenedIf(old(codes), soft, v, a.value.code, y);
      Patch(or, old(codes) + [Op(if soft then C_SOFTIF else C_IFTHENELSE), Num(v)],
            a.value.code + [Op(if soft then C_SOFTCUT else C_CUT), Num(v)] + y + [Op(C_JMP), Num(0)]);
      BeforeJumpIs(old(codes), soft, v, a.value.code, y);
    }

    method IfThenElseOf(t: Term, last: bool, c: Term, d: Term) returns (ok: bool)
      requires Proper(t) && IsOr(t) && IsCondition(t.args[0]) && Proper(t.args[0]) && Proper(c) && Proper(d)
      requires c == t.args[0].args[0] && d == t.args[0].args[1] && c < t && d < t
      modifies this`codes, this`used, this`variables, this`cutvar
      ensures var r := CompileBody(t, last, Plan(), old(cutvar), old(used), old(variables));
              && ok == r.Some? && (ok ==> codes == old(codes) + r.value.code && used == r.value.used && variables == r.value.next)
              && (ok ==> cutvar == old(cutvar))
      decreases t, 1
    {
      hide CompileBody, Balance, VarsOf, IfThenElse, BeforeJump;
      IfThenElseCode(t, last, Plan(), cutvar, used, variables);
      var soft, v := IsTerm(t.args[0], SoftArrow, 2), variables;
      var vsave, left, right := used, used + VarsOf(t.args[0]), used + VarsOf(t.args[1]);
      ghost var a := CompileBody(c, false, Plan(), Some(v), used, variables + 1);
      ok := Then(t, last, c, d, soft, left, right);
      if !ok {
        return;
      }
      ghost var b := CompileBody(d, last, Plan(), cutvar, a.value.used, a.value.next);
      ghost var y := b.value.code + Balance(left, right, limit);
      var jmp := |codes|;
      used := vsave;
      ghost var e := CompileBody(t.args[1], last, Plan(), cutvar, used, variables);
      ok := Branch(t.args[1], last, right, left);
      if !ok {
        return;
      }
      ghost var w := e.value.code + Balance(right, left, limit);
      Patch(jmp, BeforeJump(old(codes), soft, v, a.value.code, y), w);
      IfThenElseIs(old(codes), soft, v, a.value.code, y, w);
      used := left + right;
    }

    /** A -> B */
    method IfThenOf(t: Term, last: bool) returns (ok: bool)
      requires Proper(t) && IsTerm(t, Arrow, 2)
      modifies this`codes, this`used, this`variables, this`cutvar
      ensures var r := CompileBody(t, last, Plan(), old(cutvar), old(used), old(variables));
              && ok == r.Some? && (ok ==> codes == old(codes) + r.value.code && used == r.value.used && variables == r.value.next)
              && (ok ==> cutvar == old(cutvar))
      decreases t, 1
    {
      hide CompileBody, IfThen;
      IfThenCode(t, last, Plan(), cutvar, used, variables);
      var v := variables;
      variables := variables + 1;
      ghost var a := CompileBody(t.args[0], false, Plan(), Some(v), used, variables);
      Output([Op(C_MARK), Num(v)]);
      ok := Test(t.args[0], v);
      if !ok {
        return;
      }
      Output([Op(C_CUT), Num(v)]);
      ghost var b := CompileBody(t.args[1], last, Plan(), cutvar, used, variables);
      ok := Body(t.args[1], last);
      if !ok {
        return;
      }
      Output([Op(C_END)]);
      IfThenIs(old(codes), v, a.value.code, b.value.code);
    }

    /** \+ A */
    method NotOf(t: Term, last: bool) returns (ok: bool)
      requires Proper(t) && IsTerm(t, NotProvable, 1)
      modifies this`codes, this`used, this`variables, this`cutvar
      ensures var r := CompileBody(t, last, Plan(), old(cutvar), old(used), old(variables));
              && ok == r.Some? && (ok ==> codes == old(codes) + r.value.code && used == r.value.used && variables == r.value.next)
              && (ok ==> cutvar == old(cutvar))
      decreases t, 1
    {
      hide CompileBody, Not;
      NotCode(t, last, Plan(), cutvar, used, variables);
      var v, vsave := variables, used;
      variables := variables + 1;
      ghost var a := CompileBody(t.args[0], false, Plan(), Some(v), used, variables);
      Output([Op(C_NOT), Num(v), Num(0)]);
      var or := |codes|;
      ok := Test(t.args[0], v);
      if !ok {
        return;
      }
      Output([Op(C_CUT), Num(v)]);
      Output([Op(C_FAIL)]);
      NotIs(old(codes), v, a.value.code);
      Patch(or, old(codes) + [Op(C_NOT), Num(v)], a.value.code + [Op(C_CUT), Num(v), Op(C_FAIL)]);
      used := vsave;
    }

    /** pl-comp.c, compileBody(): whether the body can be called. */
    method Body(t: Term, last: bool) returns (ok: bool)
      requires Proper(t)
      modifies this`codes, this`used, this`variables, this`cutvar
      ensures var r := CompileBody(t, last, Plan(), old(cutvar), old(used), old(variables));
              && ok == r.Some? && (ok ==> codes == old(codes) + r.value.code && used == r.value.used && variables == r.value.next)
              && (ok ==> cutvar == old(cutvar))
      decreases t, 2
    {
      hide CompileBody, CompileSubClause;
      if IsTerm(t, Comma, 2) {
        CommaCode(t, last, Plan(), cutvar, used, variables);
        ok := Body(t.args[0], false);
        if ok {
          ok := Body(t.args[1], last);
        }
      } else if IsOr(t) {
        if IsCondition(t.args[0]) {
          assert Proper(t.args[0]);
          ok := IfThenElseOf(t, last, t.args[0].args[0], t.args[0].args[1]);
        } else {
          ok := Or(t, last);
        }
      } else if IsTerm(t, Arrow, 2) {
        ok := IfThenOf(t, last);
      } else if IsTerm(t, NotProvable, 1) {
        ok := NotOf(t, last);
      } else {
        GoalCode(t, last, Plan(), cutvar, used, variables);
        ok := SubClause(t, last);
      }
    }

    // ---------- clauses

    /** The arguments of the head, without the H_VOIDs at the end. */
    method HeadArguments(h: Term)
      requires IsHead(h) && arity == HeadFunctor(h).arity && codes == [] && used == {}
      modifies this`codes, this`used
      ensures codes == CompileHead(h).code && used == CompileHead(h).used
    {
      hide CompileArguments, CompileArgument;
      var last := 0;
      if h.Struct? {
        ArgumentsStep(h, 0, HEAD, arity, {});
        for n := 0 to arity
          invariant var a := CompileArguments(h, n, HEAD, arity, {}); codes == a.code && used == a.used && last == a.kept
        {
          ArgumentsStep(h, n, HEAD, arity, {});
          var void := Argument(h.args[n], HEAD);
          if !void {
            last := |codes|;
          }
        }
      }
      codes := codes[..last];
    }

    /** pl-comp.c, compileClause() behind the analysis of the variables: None if the body cannot be
        called. */
    method Clause(h: Term, body: Term) returns (r: Option<Codes>)
      requires IsHead(h) && Proper(body) && arity == HeadFunctor(h).arity && limit == variables && codes == [] && used == {} && cutvar == None
      modifies this
      ensures r == CompileClause(h, body, old(variables), inline)
      ensures r.Some? ==> codes == r.value && variables == ClauseVariables(h, body, old(variables), inline)
    {
      hide CompileHead, CompileBody;
      HeadArguments(h);
      if body == TRUE {
        Output([Op(I_EXITFACT)]);
        return Some(codes);
      }
      Output([Op(I_ENTER)]);
      var ok := Body(body, true);
      if !ok {
        return None;
      }
      Output([Op(I_EXIT)]);
      r := Some(codes);
    }
  }

  // ---------- the analysis of the variables

  class VarDefs {
    const arity: nat
    var slots: seq<Slot>               // vardefs
    var place: map<nat, nat>           // what the variable cells are overwritten with
    var offsets: seq<nat>

    constructor (arity: nat)
      ensures this.arity == arity && Contents() == Table(Frees(arity), map[])
    {
      this.arity := arity;
      slots, place, offsets := Frees(arity), map[], [];
    }

    function Contents(): Table
      reads this`slots, this`place
    {
      Table(slots, place)
    }

    /** A variable: the first time it gets an entry. */
    method Meet(x: nat, argn: nat)
      modifies this`slots, this`place
      ensures Contents() == Note(x, old(Contents()), arity, argn)
    {
      if x !in place {
        var index := if argn < arity && argn < |slots| then argn else |slots|;
        slots := if index == |slots| then slots + [Taken(x, 1)] else slots[index := Taken(x, 1)];
        place := place[x := index];
      } else if place[x] < |slots| && slots[place[x]].Taken? {
        slots := slots[place[x] := slots[place[x]].(times := slots[place[x]].times + 1)];
      }
    }

    /** pl-comp.c, analyseVariables2(); the last argument of a term is seen to in the same turn. */
    method Analyse(t: Term, argn: nat)
      modifies this`slots, this`place
      ensures Contents() == Scan(t, old(Contents()), arity, argn)
      decreases t, 1
    {
      hide Scan, ScanArgs, Note;
      var at, n: nat := t, argn;
      while at.Struct? && at.args != []
        invariant (at == t || at < t) && Scan(at, Contents(), arity, n) == Scan(t, old(Contents()), arity, argn)
        decreases at
      {
        ScanTerm(at, Contents(), arity, n);
        ScanArgsStep(at, |at.args| - 1, Contents(), arity, arity);
        AnalyseFirst(at, |at.args| - 1, arity);
        n := arity + |at.args| - 1;
        at := at.args[|at.args| - 1];
      }
      ScanTerm(at, Contents(), arity, n);
      if at.Var? {
        Meet(at.index, n);
      }
    }

    /** The first n arguments of a term. */
    method AnalyseFirst(t: Term, n: nat, from: nat)
      requires t.Struct? && n <= |t.args|
      modifies this`slots, this`place
      ensures Contents() == ScanArgs(t, n, old(Contents()), arity, from)
      decreases t, 0
    {
      hide Scan, ScanArgs;
      ScanArgsStep(t, 0, Contents(), arity, from);
      for i := 0 to n
        invariant Contents() == ScanArgs(t, i, old(Contents()), arity, from)
      {
        ScanArgsStep(t, i, old(Contents()), arity, from);
        Analyse(t.args[i], from + i);
      }
    }

    /** The loop of analyse_variables(): voids of the body get no place in the frame. */
    method Number() returns (variables: nat)
      requires arity <= |slots|
      modifies this`offsets
      ensures |offsets| == |slots| && forall n :: 0 <= n < |slots| ==> offsets[n] == Offset(Contents(), arity, n)
      ensures variables == VarCount(Contents(), arity)
    {
      var bodyVoids := 0;
      offsets := [];
      for n := 0 to |slots|
        invariant |offsets| == n && bodyVoids == BodyVoids(Contents(), arity, n) <= n
        invariant forall k :: 0 <= k < n ==> offsets[k] == Offset(Contents(), arity, k)
      {
        offsets := offsets + [n - bodyVoids];
        if slots[n].Taken? && slots[n].times == 1 && n >= arity {
          bodyVoids := bodyVoids + 1;
        }
      }
      variables := |slots| - bodyVoids;
    }
  }

  lemma {:induction false} ScanTerm(t: Term, d: Table, arity: nat, argn: nat)
    ensures t.Var? ==> Scan(t, d, arity, argn) == Note(t.index, d, arity, argn)
    ensures t.Struct? ==> Scan(t, d, arity, argn) == ScanArgs(t, |t.args|, d, arity, arity)
    ensures !t.Var? && (t.Struct? ==> t.args == []) ==> Scan(t, d, arity, argn) == d
  {
    hide Note;
  }

  lemma {:induction false} ScanArgsStep(t: Term, n: nat, d: Table, arity: nat, from: nat)
    requires t.Struct? && n <= |t.args|
    ensures ScanArgs(t, 0, d, arity, from) == d
    ensures n < |t.args| ==> ScanArgs(t, n + 1, d, arity, from) == Scan(t.args[n], ScanArgs(t, n, d, arity, from), arity, from + n)
  {
    hide Scan;
  }

  lemma AnalysedIs(h: Term, body: Term)
    requires IsHead(h)
    ensures var arity := HeadFunctor(h).arity;
            var d := if h.Atom? then Table(Frees(arity), map[]) else ScanArgs(h, arity, Table(Frees(arity), map[]), arity, 0);
            Analysed(h, body) == Scan(body, d, arity, arity) && arity <= |Analysed(h, body).slots|
  {
    Analyses(h, body);
    hide Scan, ScanArgs;
    assert h.Atom? ==> Frees(HeadFunctor(h).arity) == [];
  }

  /** A clause is compiled from its term: its variables are analysed first. */
  method CompileTerm(h: Term, body: Term, inline: set<Functor>) returns (r: Option<Codes>)
    requires IsHead(h) && Proper(body)
    ensures r == ClauseCode(h, body, inline)
  {
    hide Scan, ScanArgs, CompileClause, Analysed, VarCount, Known, Times, Offset;
    var arity := HeadFunctor(h).arity;
    var defs := new VarDefs(arity);
    if h.Struct? {
      defs.AnalyseFirst(h, arity, 0);
    }
    defs.Analyse(body, arity);
    AnalysedIs(h, body);
    var variables := defs.Number();
    var d := defs.Contents();
    ReplaceKeeps(h, (x: nat) => Numbered(d, arity, x));
    ReplaceKeeps(body, (x: nat) => Numbered(d, arity, x));
    NumberedShape(h, body);
    var ci := new CompileInfo(arity, variables, inline);
    r := ci.Clause(NumberedTerm(h, d, arity), NumberedTerm(body, d, arity));
  }

  lemma VariablesAre(t: Term)
    requires t.Struct? && AllVars(t.args)
    ensures Indexes(t.args, |t.args|) == VarsOf(t)
  {
    forall x
      ensures x in VarsOf(t) <==> exists k :: 0 <= k < |t.args| && t.args[k].index == x
    {
      if x in VarsOf(t) {
        var k :| 0 <= k < |t.args| && x in VarsOf(t.args[k]);
        assert VarsOf(t.args[k]) == {t.args[k].index};
      }
      if k :| 0 <= k < |t.args| && t.args[k].index == x {
        assert x in VarsOf(t.args[k]);
      }
    }
  }

  lemma FirstVarsStep(args: seq<Term>, used: set<nat>)
    requires AllVars(args) && args != []
    ensures var i := args[0].index;
            FirstVars(args, used) == (if i in used then [] else [Op(C_VAR), Num(i)]) + FirstVars(args[1..], used + {i})
  {
  }

  lemma NoVoid(t: Term, w: Where, arity: nat, used: set<nat>)
    requires Proper(t) && w.arg && (t.Void? ==> w.body)
    ensures !CompileArgument(t, w, arity, used).void
  {
    hide CompileArguments, Opening;
  }

  lemma {:induction false} OrCode(t: Term, last: bool, ci: Info, cutvar: Option<nat>, used: set<nat>, next: nat)
    requires Proper(t) && IsOr(t) && !IsCondition(t.args[0])
    ensures var left, right := used + VarsOf(t.args[0]), used + VarsOf(t.args[1]);
            var a := CompileBody(t.args[0], false, ci, cutvar, used, next);
            CompileBody(t, last, ci, cutvar, used, next) ==
            if a.None? then None
            else
              var b := CompileBody(t.args[1], last, ci, cutvar, used, a.value.next);
              if b.None? then None
              else Some(Part(Either(a.value.code + Balance(left, right, ci.limit), b.value.code + Balance(right, left, ci.limit)), left + right, b.value.next))
  {
    hide Balance, VarsOf, Either;
  }

  lemma OpenedOr(x: Codes, y: Codes)
    ensures x + [Op(C_OR), Num(0)] + y + [Op(C_JMP), Num(0)] == x + [Op(C_OR)] + [Num(0)] + (y + [Op(C_JMP), Num(0)])
  {
  }

  lemma EitherIs(x: Codes, y: Codes, w: Codes)
    ensures var z := x + [Op(C_OR), Num(|y| + 2)] + y + [Op(C_JMP)];
            && x + [Op(C_OR)] + [Num(|y| + 2)] + (y + [Op(C_JMP), Num(0)]) + w == z + [Num(0)] + w
            && z + [Num(|w|)] + w == x + Either(y, w)
  {
  }

  // ---------- the code of one construct

  lemma {:induction false} CommaCode(t: Term, last: bool, ci: Info, cutvar: Option<nat>, used: set<nat>, next: nat)
    requires Proper(t) && IsTerm(t, Comma, 2)
    ensures var a := CompileBody(t.args[0], false, ci, cutvar, used, next);
            CompileBody(t, last, ci, cutvar, used, next) ==
            if a.None? then None
            else
              var b := CompileBody(t.args[1], last, ci, cutvar, a.value.used, a.value.next);
              if b.None? then None else Some(Part(a.value.code + b.value.code, b.value.used, b.value.next))
  {
  }

  lemma {:induction false} GoalCode(t: Term, last: bool, ci: Info, cutvar: Option<nat>, used: set<nat>, next: nat)
    requires Proper(t) && !IsControl(t)
    ensures var s := CompileSubClause(t, last, ci, cutvar, used);
            CompileBody(t, last, ci, cutvar, used, next) == if s.None? then None else Some(s.value.(next := next))
  {
    hide CompileSubClause;
  }

  lemma {:induction false} IfThenElseCode(t: Term, last: bool, ci: Info, cutvar: Option<nat>, used: set<nat>, next: nat)
    requires Proper(t) && IsOr(t) && IsCondition(t.args[0]) && Proper(t.args[0])
    ensures var left, right, soft := used + VarsOf(t.args[0]), used + VarsOf(t.args[1]), IsTerm(t.args[0], SoftArrow, 2);
            var a := CompileBody(t.args[0].args[0], false, ci, Some(next), used, next + 1);
            CompileBody(t, last, ci, cutvar, used, next) ==
            if a.None? then None
            else
              var b := CompileBody(t.args[0].args[1], last, ci, cutvar, a.value.used, a.value.next);
              if b.None? then None
              else
                var c := CompileBody(t.args[1], last, ci, cutvar, used, b.value.next);
                if c.None? then None
                else
                  var y, w := b.value.code + Balance(left, right, ci.limit), c.value.code + Balance(right, left, ci.limit);
                  Some(Part(IfThenElse(soft, next, a.value.code, y, w), left + right, c.value.next))
  {
    hide Balance, VarsOf, IfThenElse;
  }

  lemma {:induction false} IfThenCode(t: Term, last: bool, ci: Info, cutvar: Option<nat>, used: set<nat>, next: nat)
    requires Proper(t) && IsTerm(t, Arrow, 2)
    ensures var a := CompileBody(t.args[0], false, ci, Some(next), used, next + 1);
            CompileBody(t, last, ci, cutvar, used, next) ==
            if a.None? then None
            else
              var b := CompileBody(t.args[1], last, ci, cutvar, a.value.used, a.value.next);
              if b.None? then None else Some(Part(IfThen(next, a.value.code, b.value.code), b.value.used, b.value.next))
  {
    hide IfThen;
  }

  lemma {:induction false} NotCode(t: Term, last: bool, ci: Info, cutvar: Option<nat>, used: set<nat>, next: nat)
    requires Proper(t) && IsTerm(t, NotProvable, 1)
    ensures var a := CompileBody(t.args[0], false, ci, Some(next), used, next + 1);
            CompileBody(t, last, ci, cutvar, used, next) ==
            if a.None? then None else Some(Part(Not(next, a.value.code), used, a.value.next))
  {
    hide Not;
  }

  lemma OpenedIf(x: Codes, soft: bool, v: nat, a: Codes, y: Codes)
    ensures var open, cut := [Op(if soft then C_SOFTIF else C_IFTHENELSE), Num(v)], [Op(if soft then C_SOFTCUT else C_CUT), Num(v)];
            x + (open + [Num(0)]) + a + cut + y + [Op(C_JMP), Num(0)] == x + open + [Num(0)] + (a + cut + y + [Op(C_JMP), Num(0)])
  {
  }

  /** The code in front of the operand of the jump over C. */
  ghost function BeforeJump(x: Codes, soft: bool, v: nat, a: Codes, y: Codes): Codes {
    x + [Op(if soft then C_SOFTIF else C_IFTHENELSE), Num(v), Num(|a| + 2 + |y| + 2)] + a
    + [Op(if soft then C_SOFTCUT else C_CUT), Num(v)] + y + [Op(C_JMP)]
  }

  lemma BeforeJumpIs(x: Codes, soft: bool, v: nat, a: Codes, y: Codes)
    ensures var open, cut := [Op(if soft then C_SOFTIF else C_IFTHENELSE), Num(v)], [Op(if soft then C_SOFTCUT else C_CUT), Num(v)];
            x + open + [Num(|a| + 2 + |y| + 2)] + (a + cut + y + [Op(C_JMP), Num(0)]) == BeforeJump(x, soft, v, a, y) + [Num(0)]
  {
  }

  lemma IfThenElseIs(x: Codes, soft: bool, v: nat, a: Codes, y: Codes, w: Codes)
    ensures BeforeJump(x, soft, v, a, y) + [Num(|w|)] + w == x + IfThenElse(soft, v, a, y, w)
  {
  }

  lemma IfThenIs(x: Codes, v: nat, a: Codes, b: Codes)
    ensures x + [Op(C_MARK), Num(v)] + a + [Op(C_CUT), Num(v)] + b + [Op(C_END)] == x + IfThen(v, a, b)
  {
  }

  lemma NotIs(x: Codes, v: nat, a: Codes)
    ensures x + [Op(C_NOT), Num(v), Num(0)] + a + [Op(C_CUT), Num(v)] + [Op(C_FAIL)] ==
            x + [Op(C_NOT), Num(v)] + [Num(0)] + (a + [Op(C_CUT), Num(v), Op(C_FAIL)])
    ensures x + [Op(C_NOT), Num(v)] + [Num(|a| + 3)] + (a + [Op(C_CUT), Num(v), Op(C_FAIL)]) == x + Not(v, a)
  {
  }
}
