/** Every slot is initialised before it is read, and no slot is initialised twice (pl-comp.c,
    isFirstVar(), balanceVars(), orVars() and setVars()). */
module Initialisation {
  import opened Clauses
  import opened Decompiler
  import opened ArgumentRoundTrip
  import opened Bodies
  import opened BodyRoundTrip
  import opened HeadRoundTrip
  import opened Variables

  // ---------- paths through the code

  predicate IsRead(op: Opcode) {
    op in {B_VAR, B_ARGVAR, H_VAR}
  }

  predicate IsFirst(op: Opcode) {
    op in {B_FIRSTVAR, B_ARGFIRSTVAR, H_FIRSTVAR, C_VAR}
  }

  predicate IsShort(op: Opcode) {
    op in {B_VOID, H_VOID, B_NIL, H_NIL, B_LIST, B_RLIST, H_LIST, H_RLIST, I_POPF, I_ENTER,
           I_USERCALL0, I_APPLY, I_CUT_BLOCK, B_EXIT, B_THROW, I_CATCH, I_CUT, I_TRUE, C_END}
  }

  predicate IsLong(op: Opcode) {
    op in {B_CONST, H_CONST, B_INTEGER, H_INTEGER, B_FUNCTOR, B_RFUNCTOR, H_FUNCTOR, H_RFUNCTOR,
           I_USERCALLN, I_CALL, I_DEPART, C_MARK, C_CUT, C_SOFTCUT, C_LCUT}
  }

  /** The length of an instruction that neither reads nor sets a variable, nor jumps. */
  function Width(code: Codes, pc: nat): Option<nat>
    requires pc < |code| && code[pc].Op?
  {
    if IsShort(code[pc].op) then Some(1)
    else if IsLong(code[pc].op) then Some(2)
    else if code[pc].op in {B_FLOAT, H_FLOAT} then Some(3)
    else if code[pc].op in {B_INDIRECT, H_INDIRECT} && Number(code, pc + 1).Some? then Some(2 + Number(code, pc + 1).value)
    else None
  }

  /** The variables that I_CALL_FV reads: n operands from pc on. */
  predicate ReadsAll(code: Codes, pc: nat, n: nat, init: set<nat>, strict: bool) {
    pc + n <= |code| && forall i :: pc <= i < pc + n ==> code[i].Num? && code[i].n >= 0 && (strict ==> code[i].n in init)
  }

  predicate IsFork(op: Opcode) {
    op in {C_NOT, C_IFTHENELSE, C_SOFTIF}
  }

  /** On all paths from pc on, given the slots that are initialised, no slot is set for the first
      time that is initialised already; and if strict, only initialised slots are read. */
  predicate Sound(code: Codes, pc: nat, init: set<nat>, strict: bool)
    decreases |code| - pc
  {
    if pc >= |code| || !code[pc].Op? then false
    else
      var op := code[pc].op;
      if op in {I_EXIT, I_EXITFACT, I_FAIL, C_FAIL} then true
      else if IsRead(op) then
        var v := Number(code, pc + 1);
        v.Some? && (strict ==> v.value in init) && Sound(code, pc + 2, init, strict)
      else if op in {B_VAR0, B_VAR1, B_VAR2} then
        (strict ==> (if op == B_VAR0 then 0 else if op == B_VAR1 then 1 else 2) in init) && Sound(code, pc + 1, init, strict)
      else if IsFirst(op) then
        var v := Number(code, pc + 1);
        v.Some? && v.value !in init && Sound(code, pc + 2, init + {v.value}, strict)
      else if op in {I_CALL_FV0, I_CALL_FV1, I_CALL_FV2} then
        var n := if op == I_CALL_FV0 then 0 else if op == I_CALL_FV1 then 1 else 2;
        ReadsAll(code, pc + 2, n, init, strict) && Sound(code, pc + 2 + n, init, strict)
      else if op == C_JMP then
        var j := Number(code, pc + 1);
        j.Some? && Sound(code, pc + 2 + j.value, init, strict)
      else if op == C_OR then
        var j := Number(code, pc + 1);
        j.Some? && Sound(code, pc + 2, init, strict) && Sound(code, pc + 2 + j.value, init, strict)
      else if IsFork(op) then
        var j := Number(code, pc + 2);
        j.Some? && Sound(code, pc + 3, init, strict) && Sound(code, pc + 3 + j.value, init, strict)
      else
        var w := Width(code, pc);
        w.Some? && Sound(code, pc + w.value, init, strict)
  }

  // ---------- what the compiler believes

  function Args(arity: nat): (s: set<nat>)
    ensures forall i :: i in s <==> 0 <= i < arity
  {
    if arity == 0 then {} else Args(arity - 1) + {arity - 1}
  }

  /** The compiler's table holds what is initialised besides the arguments. */
  predicate Fits(init: set<nat>, used: set<nat>, arity: nat) {
    Args(arity) <= init <= used + Args(arity)
  }

  /** The table after a body. */
  function UsedAfter(t: Term, used: set<nat>): set<nat>
    requires Proper(t)
    decreases t
  {
    if IsTerm(t, Comma, 2) then UsedAfter(t.args[1], UsedAfter(t.args[0], used))
    else if IsOr(t) then (used + VarsOf(t.args[0])) + (used + VarsOf(t.args[1]))
    else if IsTerm(t, Arrow, 2) then UsedAfter(t.args[1], UsedAfter(t.args[0], used))
    else if IsTerm(t, NotProvable, 1) then used
    else used + VarsOf(t)
  }

  // ---------- what the paths through a body initialise

  function Plus(inits: seq<set<nat>>, more: set<nat>): (r: seq<set<nat>>)
    ensures |r| == |inits| && forall k :: 0 <= k < |r| ==> r[k] == inits[k] + more
  {
    seq(|inits|, k requires 0 <= k < |inits| => inits[k] + more)
  }

  /** The slots that are initialised behind a body, one set for each path through its code, when
      those of init are initialised before it.  A \+ ends with what there was before it, while a
      branch of a disjunction ends with the C_VARs for the variables of the other one. */
  function Paths(t: Term, used: set<nat>, init: set<nat>): seq<set<nat>>
    requires Proper(t)
    decreases t, 0, 0
  {
    if IsTerm(t, Comma, 2) || IsTerm(t, Arrow, 2) then Onward(t.args[1], UsedAfter(t.args[0], used), Paths(t.args[0], used, init))
    else if IsOr(t) then
      var left, right := used + VarsOf(t.args[0]), used + VarsOf(t.args[1]);
      var first :=
        if IsCondition(t.args[0]) then
          assert Proper(t.args[0]);
          Onward(t.args[0].args[1], UsedAfter(t.args[0].args[0], used), Paths(t.args[0].args[0], used, init))
        else Paths(t.args[0], used, init);
      Plus(first, right - left) + Plus(Paths(t.args[1], used, init), left - right)
    else if IsTerm(t, NotProvable, 1) then [init]
    else if t == Atom(Fail) then []
    else [init + (VarsOf(t) - used)]
  }

  function Onward(t: Term, used: set<nat>, inits: seq<set<nat>>): seq<set<nat>>
    requires Proper(t)
    decreases t, 1, |inits|
  {
    if inits == [] then [] else Paths(t, used, inits[0]) + Onward(t, used, inits[1..])
  }

  /** On all paths, a variable that the table has when it is used has been initialised. */
  predicate Reads(t: Term, used: set<nat>, init: set<nat>)
    requires Proper(t)
    decreases t
  {
    if IsTerm(t, Comma, 2) || IsTerm(t, Arrow, 2) then
      Reads(t.args[0], used, init) && forall o :: o in Paths(t.args[0], used, init) ==> Reads(t.args[1], UsedAfter(t.args[0], used), o)
    else if IsOr(t) then
      && Reads(t.args[1], used, init)
      && if IsCondition(t.args[0]) then
           assert Proper(t.args[0]);
           var c, d := t.args[0].args[0], t.args[0].args[1];
           Reads(c, used, init) && forall o :: o in Paths(c, used, init) ==> Reads(d, UsedAfter(c, used), o)
         else Reads(t.args[0], used, init)
    else if IsTerm(t, NotProvable, 1) then Reads(t.args[0], used, init)
    else VarsOf(t) * used <= init
  }

  // ---------- instructions

  lemma {:induction false} WidthSound(code: Codes, pc: nat, init: set<nat>, strict: bool)
    requires pc < |code| && code[pc].Op? && Width(code, pc).Some?
    ensures Sound(code, pc, init, strict) <==> Sound(code, pc + Width(code, pc).value, init, strict)
  {
  }

  lemma {:induction false} ReadSound(code: Codes, pc: nat, q: nat, v: nat, init: set<nat>, strict: bool)
    requires pc < |code| && code[pc].Op?
    requires (IsRead(code[pc].op) && Number(code, pc + 1) == Some(v) && q == pc + 2) || (v < 3 && code[pc] == Op(VarOp(v)) && q == pc + 1)
    ensures Sound(code, pc, init, strict) <==> (strict ==> v in init) && Sound(code, q, init, strict)
  {
  }

  lemma {:induction false} FirstSound(code: Codes, pc: nat, v: nat, init: set<nat>, strict: bool)
    requires v !in init && pc < |code| && code[pc].Op? && IsFirst(code[pc].op) && Number(code, pc + 1) == Some(v)
    ensures Sound(code, pc, init, strict) <==> Sound(code, pc + 2, init + {v}, strict)
  {
  }

  lemma {:induction false} StopSound(code: Codes, pc: nat, init: set<nat>, strict: bool)
    requires pc < |code| && code[pc] in {Op(I_EXIT), Op(I_EXITFACT), Op(I_FAIL), Op(C_FAIL)}
    ensures Sound(code, pc, init, strict)
  {
  }

  lemma {:induction false} JumpSound(code: Codes, pc: nat, n: nat, init: set<nat>, strict: bool)
    requires pc + 1 < |code| && code[pc] == Op(C_JMP) && code[pc + 1] == Num(n)
    ensures Sound(code, pc, init, strict) <==> Sound(code, pc + 2 + n, init, strict)
  {
  }

  lemma {:induction false} OrSound(code: Codes, pc: nat, n: nat, init: set<nat>, strict: bool)
    requires pc + 1 < |code| && code[pc] == Op(C_OR) && code[pc + 1] == Num(n)
    ensures Sound(code, pc, init, strict) <==> Sound(code, pc + 2, init, strict) && Sound(code, pc + 2 + n, init, strict)
  {
  }

  lemma {:induction false} ForkSound(code: Codes, pc: nat, n: nat, init: set<nat>, strict: bool)
    requires pc + 2 < |code| && code[pc].Op? && IsFork(code[pc].op) && code[pc + 2] == Num(n)
    ensures Sound(code, pc, init, strict) <==> Sound(code, pc + 3, init, strict) && Sound(code, pc + 3 + n, init, strict)
  {
  }

  lemma {:induction false} CallSound(code: Codes, pc: nat, args: seq<Term>, init: set<nat>, strict: bool)
    requires AllVars(args) && |args| <= 2 && pc < |code| && code[pc] == Op(InlineOp(|args|)) && At(code, pc + 2, VarOperands(args))
    ensures Sound(code, pc, init, strict) <==> (strict ==> IndexesOf(args) <= init) && Sound(code, pc + 2 + |args|, init, strict)
  {
    IndexesIn(args);
    InBounds(code, pc + 2, VarOperands(args));
    forall i | 0 <= i < |args|
      ensures code[pc + 2 + i] == Num(args[i].index)
    {
      AtWord(code, pc + 2, VarOperands(args), i);
    }
    hide IndexesOf, VarOperands, At;
    assert ReadsAll(code, pc + 2, |args|, init, strict) <==> (strict ==> IndexesOf(args) <= init) by {
      assert forall i :: pc + 2 <= i < pc + 2 + |args| ==> code[i] == Num(args[i - (pc + 2)].index);
      assert forall i :: 0 <= i < |args| ==> code[pc + 2 + i].n == args[i].index;
    }
  }

  // ---------- arguments

  lemma {:induction false} VarSound(i: nat, w: Where, arity: nat, used: set<nat>, code: Codes, pc: nat, init: set<nat>, strict: bool)
    requires Fits(init, used, arity) && At(code, pc, CompileVar(i, w, arity, used).code)
    ensures Sound(code, pc, init, strict) <==>
              (strict ==> {i} * used <= init) && Sound(code, pc + |CompileVar(i, w, arity, used).code|, init + ({i} - used), strict)
  {
    hide Sound;
    var r := CompileVar(i, w, arity, used);
    AtWord(code, pc, r.code, 0);
    if |r.code| == 2 {
      AtWord(code, pc, r.code, 1);
    }
    if i >= arity && i !in used {
      FirstSound(code, pc, i, init, strict);
      assert {i} - used == {i};
    } else {
      assert init + ({i} - used) == init;
      if r.void {
        WidthSound(code, pc, init, strict);
      } else {
        ReadSound(code, pc, pc + |r.code|, i, init, strict);
      }
    }
  }

  /** An argument without variables. */
  lemma {:induction false} ConstantSound(t: Term, w: Where, arity: nat, used: set<nat>, code: Codes, pc: nat, init: set<nat>, strict: bool)
    requires Proper(t) && !t.Struct? && !t.Var? && At(code, pc, CompileArgument(t, w, arity, used).code)
    ensures Sound(code, pc, init, strict) <==> Sound(code, pc + |CompileArgument(t, w, arity, used).code|, init, strict)
  {
    hide Sound;
    var x := CompileArgument(t, w, arity, used).code;
    AtWord(code, pc, x, 0);
    if |x| >= 2 {
      AtWord(code, pc, x, 1);
    }
    WidthSound(code, pc, init, strict);
  }

  lemma {:induction false} OpeningSound(f: Functor, w: Where, code: Codes, pc: nat, init: set<nat>, strict: bool)
    requires At(code, pc, Opening(f, w))
    ensures Sound(code, pc, init, strict) <==> Sound(code, pc + |Opening(f, w)|, init, strict)
  {
    hide Sound;
    AtWord(code, pc, Opening(f, w), 0);
    WidthSound(code, pc, init, strict);
  }

  lemma {:induction false} EndingSound(w: Where, code: Codes, pc: nat, init: set<nat>, strict: bool)
    requires At(code, pc, Ending(w))
    ensures Sound(code, pc, init, strict) <==> Sound(code, pc + |Ending(w)|, init, strict)
  {
    hide Sound;
    if !w.right {
      AtWord(code, pc, Ending(w), 0);
      WidthSound(code, pc, init, strict);
    }
  }

  /** Using some variables and then more. */
  lemma UsesJoin(a: set<nat>, b: set<nat>, used: set<nat>, init: set<nat>)
    ensures a * used <= init && b * (used + a) <= init + (a - used) <==> (a + b) * used <= init
    ensures init + (a - used) + (b - (used + a)) == init + (a + b - used)
  {
    if a * used <= init && b * (used + a) <= init + (a - used) {
      forall x | x in (a + b) * used
        ensures x in init
      {
        assert x in b ==> x in b * (used + a);
        assert x in a ==> x in a * used;
      }
    }
    if (a + b) * used <= init {
      forall x | x in b * (used + a)
        ensures x in init + (a - used)
      {
        assert x in used ==> x in (a + b) * used;
      }
      forall x | x in a * used
        ensures x in init
      {
        assert x in (a + b) * used;
      }
    }
  }

  lemma FitsMore(init: set<nat>, used: set<nat>, arity: nat, vars: set<nat>)
    requires Fits(init, used, arity)
    ensures Fits(init + (vars - used), used + vars, arity)
  {
  }

  /** From pc on, with the slots of init, code is sound just if the variables that the table has
      are initialised and the rest from q on is sound. */
  ghost predicate Passes(code: Codes, pc: nat, q: nat, vars: set<nat>, used: set<nat>, init: set<nat>, strict: bool) {
    Sound(code, pc, init, strict) <==> (strict ==> vars * used <= init) && Sound(code, q, init + (vars - used), strict)
  }

  lemma {:induction false} PassesJoin(code: Codes, pc: nat, mid: nat, q: nat, a: set<nat>, b: set<nat>, used: set<nat>, init: set<nat>, strict: bool)
    requires Passes(code, pc, mid, a, used, init, strict) && Passes(code, mid, q, b, used + a, init + (a - used), strict)
    ensures Passes(code, pc, q, a + b, used, init, strict) == true
  {
    hide Sound;
    UsesJoin(a, b, used, init);
  }

  lemma {:induction false} PassesNone(code: Codes, pc: nat, q: nat, used: set<nat>, init: set<nat>, strict: bool)
    requires Sound(code, pc, init, strict) <==> Sound(code, q, init, strict)
    ensures Passes(code, pc, q, {}, used, init, strict) == true
  {
    hide Sound;
    assert init + ({} - used) == init;
  }

  /** Instructions around that use no variables. */
  lemma {:induction false} PassesAround(code: Codes, pc: nat, p: nat, q: nat, r: nat, vars: set<nat>, used: set<nat>, init: set<nat>, strict: bool)
    requires Sound(code, pc, init, strict) <==> Sound(code, p, init, strict)
    requires Sound(code, q, init + (vars - used), strict) <==> Sound(code, r, init + (vars - used), strict)
    requires Passes(code, p, q, vars, used, init, strict)
    ensures Passes(code, pc, r, vars, used, init, strict) == true
  {
    hide Sound;
  }

  lemma {:induction false} ArgumentsPass(t: Term, n: nat, w: Where, arity: nat, used: set<nat>, code: Codes, pc: nat, init: set<nat>, strict: bool)
    requires Proper(t) && t.Struct? && n <= |t.args| && At(code, pc, CompileArguments(t, n, w, arity, used).code) && Fits(init, used, arity)
    ensures Passes(code, pc, pc + |CompileArguments(t, n, w, arity, used).code|, VarsOfArgs(t, n), used, init, strict) == true
    decreases t, 0, n
  {
    hide CompileArgument, CompileArguments, Sound, At, VarsOfArgs, Fits, Passes;
    ArgumentsStep(t, if n == 0 then 0 else n - 1, w, arity, used);
    if n == 0 {
      NoVars(t);
      PassesNone(code, pc, pc, used, init, strict);
    } else {
      var a := CompileArguments(t, n - 1, w, arity, used);
      var r := CompileArgument(t.args[n - 1], w, arity, a.used);
      var v := VarsOfArgs(t, n - 1);
      AtSplit(code, pc, a.code, r.code);
      ArgumentsUse(t, n - 1, w, arity, used);
      FitsMore(init, used, arity, v);
      VarsOfFirst(t, n - 1);
      ArgumentsPass(t, n - 1, w, arity, used, code, pc, init, strict);
      ArgumentPasses(t.args[n - 1], w, arity, a.used, code, pc + |a.code|, init + (v - used), strict);
      PassesJoin(code, pc, pc + |a.code|, pc + |a.code| + |r.code|, v, VarsOf(t.args[n - 1]), used, init, strict);
    }
  }

  lemma NoVars(t: Term)
    requires t.Struct?
    ensures VarsOfArgs(t, 0) == {}
  {
  }

  /** The code of an argument uses its variables and initialises them. */
  lemma {:induction false} ArgumentPasses(t: Term, w: Where, arity: nat, used: set<nat>, code: Codes, pc: nat, init: set<nat>, strict: bool)
    requires Proper(t) && At(code, pc, CompileArgument(t, w, arity, used).code) && Fits(init, used, arity)
    ensures Passes(code, pc, pc + |CompileArgument(t, w, arity, used).code|, VarsOf(t), used, init, strict) == true
    decreases t, 1, 0
  {
    if t.Var? {
      hide Sound, At, Fits;
      VarSound(t.index, w, arity, used, code, pc, init, strict);
    } else if !t.Struct? {
      hide Sound, At, Fits;
      ConstantSound(t, w, arity, used, code, pc, init, strict);
      PassesNone(code, pc, pc + |CompileArgument(t, w, arity, used).code|, used, init, strict);
    } else {
      hide CompileArgument, CompileArguments, Sound, At, Opening, Ending, Fits, Passes;
      if t.args[|t.args| - 1].Void? && !w.body {
        TrimmedPasses(t, w, arity, used, code, pc, init, strict);
      } else {
        WholePasses(t, w, arity, used, code, pc, init, strict);
      }
    }
  }

  lemma PartsSplit(f: Functor, w: Where, code: Codes, pc: nat, x: Codes)
    requires At(code, pc, Parts(f, w, x))
    ensures At(code, pc, Opening(f, w)) && At(code, pc + |Opening(f, w)|, x) && At(code, pc + |Opening(f, w)| + |x|, Ending(w))
  {
    hide At, Opening, Ending;
    AtSplit(code, pc, Opening(f, w) + x, Ending(w));
    AtSplit(code, pc, Opening(f, w), x);
  }

  lemma {:induction false} PartsPass(f: Functor, w: Where, x: Codes, vars: set<nat>, used: set<nat>, code: Codes, pc: nat, init: set<nat>, strict: bool)
    requires At(code, pc, Parts(f, w, x))
    requires Passes(code, pc + |Opening(f, w)|, pc + |Opening(f, w)| + |x|, vars, used, init, strict) == true
    ensures Passes(code, pc, pc + |Parts(f, w, x)|, vars, used, init, strict) == true
  {
    hide Sound, At, Opening, Ending, Passes, Parts;
    PartsSplit(f, w, code, pc, x);
    var p := pc + |Opening(f, w)|;
    var e := |Ending(w)|;
    OpeningSound(f, w, code, pc, init, strict);
    EndingSound(w, code, p + |x|, init + (vars - used), strict);
    PassesAround(code, pc, p, p + |x|, p + |x| + e, vars, used, init, strict);
  }

  lemma {:induction false} TrimmedPasses(t: Term, w: Where, arity: nat, used: set<nat>, code: Codes, pc: nat, init: set<nat>, strict: bool)
    requires Proper(t) && t.Struct? && t.args[|t.args| - 1].Void? && !w.body && At(code, pc, CompileArgument(t, w, arity, used).code)
    requires Fits(init, used, arity)
    ensures Passes(code, pc, pc + |CompileArgument(t, w, arity, used).code|, VarsOf(t), used, init, strict) == true
    decreases t, 0, |t.args| + 1
  {
    hide CompileArgument, CompileArguments, Sound, At, Parts, Opening, Ending, VarsOf, VarsOfArgs, Passes, Fits;
    var u := Where(w.body, true, false);
    var m := TrimmedCode(t, w, arity, used);
    var a := CompileArguments(t, m, u, arity, used);
    VoidsUseNothing(t, m, |t.args|);
    VarsOfFirst(t, |t.args|);
    PartsSplit(t.functor, w, code, pc, a.code);
    ArgumentsPass(t, m, u, arity, used, code, pc + |Opening(t.functor, w)|, init, strict);
    PartsPass(t.functor, w, a.code, VarsOf(t), used, code, pc, init, strict);
  }

  lemma {:induction false} WholePasses(t: Term, w: Where, arity: nat, used: set<nat>, code: Codes, pc: nat, init: set<nat>, strict: bool)
    requires Proper(t) && t.Struct? && !(t.args[|t.args| - 1].Void? && !w.body) && At(code, pc, CompileArgument(t, w, arity, used).code)
    requires Fits(init, used, arity)
    ensures Passes(code, pc, pc + |CompileArgument(t, w, arity, used).code|, VarsOf(t), used, init, strict) == true
    decreases t, 0, |t.args| + 1
  {
    hide CompileArgument, CompileArguments, Sound, At, Parts, Opening, Ending, VarsOf, VarsOfArgs, Passes, Fits;
    var n, u, v := |t.args| - 1, Where(w.body, true, false), Where(w.body, true, true);
    var a := CompileArguments(t, n, u, arity, used);
    var last := CompileArgument(t.args[n], v, arity, a.used);
    WholeCode(t, w, arity, used);
    PartsSplit(t.functor, w, code, pc, a.code + last.code);
    var p := pc + |Opening(t.functor, w)|;
    AtSplit(code, p, a.code, last.code);
    ArgumentsUse(t, n, u, arity, used);
    FitsMore(init, used, arity, VarsOfArgs(t, n));
    VarsOfFirst(t, n);
    VarsOfFirst(t, n + 1);
    ArgumentsPass(t, n, u, arity, used, code, p, init, strict);
    ArgumentPasses(t.args[n], v, arity, a.used, code, p + |a.code|, init + (VarsOfArgs(t, n) - used), strict);
    PassesJoin(code, p, p + |a.code|, p + |a.code| + |last.code|, VarsOfArgs(t, n), VarsOf(t.args[n]), used, init, strict);
    PartsPass(t.functor, w, a.code + last.code, VarsOf(t), used, code, pc, init, strict);
  }

  // ---------- subgoals

  /** A variable with an entry in the argument block has occurred in the head. */
  predicate ArgsKnown(vars: set<nat>, used: set<nat>, arity: nat) {
    forall i :: i in vars && i < arity ==> i in used
  }

  function IndexesOf(args: seq<Term>): set<nat>
    requires AllVars(args)
  {
    if args == [] then {} else {args[0].index} + IndexesOf(args[1..])
  }

  lemma {:induction false} IndexesIn(args: seq<Term>)
    requires AllVars(args)
    ensures forall i :: 0 <= i < |args| ==> args[i].index in IndexesOf(args)
    ensures forall x :: x in IndexesOf(args) ==> exists i :: 0 <= i < |args| && args[i].index == x
    decreases |args|
  {
    if args != [] {
      IndexesIn(args[1..]);
      forall i | 0 <= i < |args|
        ensures args[i].index in IndexesOf(args)
      {
        assert i > 0 ==> args[i] == args[1..][i - 1];
      }
      forall x | x in IndexesOf(args)
        ensures exists i :: 0 <= i < |args| && args[i].index == x
      {
        if x != args[0].index {
          var i :| 0 <= i < |args[1..]| && args[1..][i].index == x;
          assert args[i + 1].index == x;
        }
      }
    }
  }

  lemma {:induction false} InlineVars(t: Term)
    requires t.Struct? && AllVars(t.args)
    ensures IndexesOf(t.args) == VarsOf(t)
  {
    IndexesIn(t.args);
    forall x | x in VarsOf(t)
      ensures x in IndexesOf(t.args)
    {
      var i :| 0 <= i < |t.args| && x in VarsOf(t.args[i]);
    }
    forall x | x in IndexesOf(t.args)
      ensures x in VarsOf(t)
    {
      var i :| 0 <= i < |t.args| && t.args[i].index == x;
      assert x in VarsOf(t.args[i]);
    }
  }


  lemma {:induction false} FirstVarsSound(args: seq<Term>, arity: nat, used: set<nat>, code: Codes, pc: nat, init: set<nat>, strict: bool)
    requires AllVars(args) && ArgsKnown(IndexesOf(args), used, arity) && At(code, pc, FirstVars(args, used)) && Fits(init, used, arity)
    ensures Sound(code, pc, init, strict) <==> Sound(code, pc + |FirstVars(args, used)|, init + (IndexesOf(args) - used), strict)
    decreases |args|
  {
    hide Sound, At;
    if args == [] {
      assert init + ({} - used) == init;
    } else {
      var i := args[0].index;
      var one: Codes := if i in used then [] else [Op(C_VAR), Num(i)];
      var rest := FirstVars(args[1..], used + {i});
      assert FirstVars(args, used) == one + rest;
      AtSplit(code, pc, one, rest);
      if i in used {
        assert used + {i} == used;
        assert IndexesOf(args) - used == IndexesOf(args[1..]) - used;
        FirstVarsSound(args[1..], arity, used, code, pc, init, strict);
      } else {
        AtWord(code, pc, one, 0);
        AtWord(code, pc, one, 1);
        FirstSound(code, pc, i, init, strict);
        FirstVarsSound(args[1..], arity, used + {i}, code, pc + |one|, init + {i}, strict);
        assert init + {i} + (IndexesOf(args[1..]) - (used + {i})) == init + (IndexesOf(args) - used);
      }
    }
  }

  lemma InlineSets(vars: set<nat>, used: set<nat>, init: set<nat>)
    ensures vars <= init + (vars - used) <==> vars * used <= init
  {
  }

  lemma {:induction false} InlinePasses(t: Term, ci: Info, used: set<nat>, code: Codes, pc: nat, init: set<nat>, strict: bool)
    requires Proper(t) && IsInline(t, ci) && ArgsKnown(VarsOf(t), used, ci.arity) && Fits(init, used, ci.arity)
    requires At(code, pc, FirstVars(t.args, used) + InlineCode(t, ci))
    ensures Passes(code, pc, pc + |FirstVars(t.args, used) + InlineCode(t, ci)|, VarsOf(t), used, init, strict) == true
  {
    hide Sound, At, FirstVars, VarOperands, VarsOf, Fits, ArgsKnown;
    var f, g := FirstVars(t.args, used), [Op(InlineOp(|t.args|)), Func(t.functor)];
    InlineVars(t);
    InlineSets(VarsOf(t), used, init);
    AtSplit(code, pc, f, InlineCode(t, ci));
    AtSplit(code, pc + |f|, g, VarOperands(t.args));
    AtWord(code, pc + |f|, g, 0);
    OperandCount(t.args);
    FirstVarsSound(t.args, ci.arity, used, code, pc, init, strict);
    CallSound(code, pc + |f|, t.args, init + (VarsOf(t) - used), strict);
  }

  lemma {:induction false} AtomSound(name: Name, last: bool, ci: Info, cutvar: Option<nat>, code: Codes, pc: nat, init: set<nat>, strict: bool)
    requires At(code, pc, AtomCode(name, last, ci, cutvar))
    ensures name == Fail ==> Sound(code, pc, init, strict)
    ensures name != Fail ==> (Sound(code, pc, init, strict) <==> Sound(code, pc + |AtomCode(name, last, ci, cutvar)|, init, strict))
  {
    hide Sound;
    var x := AtomCode(name, last, ci, cutvar);
    AtWord(code, pc, x, 0);
    InBounds(code, pc, x);
    if name == Fail {
      StopSound(code, pc, init, strict);
    } else if code[pc] == Op(I_CALL_FV0) {
      assert VarOperands([]) == [];
      CallSound(code, pc, [], init, strict);
    } else {
      WidthSound(code, pc, init, strict);
    }
  }

  lemma {:induction false} MetaPasses(t: Term, ci: Info, used: set<nat>, code: Codes, pc: nat, init: set<nat>, strict: bool)
    requires Proper(t) && Fits(init, used, ci.arity) && At(code, pc, CompileArgument(t, PLAIN, ci.arity, used).code + [Op(I_USERCALL0)])
    ensures Passes(code, pc, pc + |CompileArgument(t, PLAIN, ci.arity, used).code| + 1, VarsOf(t), used, init, strict) == true
  {
    hide Sound, At, CompileArgument, Fits, Passes, VarsOf;
    var r := CompileArgument(t, PLAIN, ci.arity, used);
    AtSplit(code, pc, r.code, [Op(I_USERCALL0)]);
    AtWord(code, pc + |r.code|, [Op(I_USERCALL0)], 0);
    WidthSound(code, pc + |r.code|, init + (VarsOf(t) - used), strict);
    ArgumentPasses(t, PLAIN, ci.arity, used, code, pc, init, strict);
    PassesAround(code, pc, pc, pc + |r.code|, pc + |r.code| + 1, VarsOf(t), used, init, strict);
  }

  lemma {:induction false} CallCodeSound(f: Functor, last: bool, code: Codes, pc: nat, init: set<nat>, strict: bool)
    requires At(code, pc, CallCode(f, last))
    ensures Sound(code, pc, init, strict) <==> Sound(code, pc + |CallCode(f, last)|, init, strict)
  {
    hide Sound;
    AtWord(code, pc, CallCode(f, last), 0);
    WidthSound(code, pc, init, strict);
  }

  lemma {:induction false} PlainPasses(t: Term, last: bool, ci: Info, used: set<nat>, code: Codes, pc: nat, init: set<nat>, strict: bool)
    requires Proper(t) && t.Struct? && Fits(init, used, ci.arity)
    requires At(code, pc, CompileArguments(t, |t.args|, PLAIN, ci.arity, used).code + CallCode(t.functor, last))
    ensures Passes(code, pc, pc + |CompileArguments(t, |t.args|, PLAIN, ci.arity, used).code| + |CallCode(t.functor, last)|, VarsOf(t), used, init, strict) == true
  {
    hide Sound, At, CompileArguments, CallCode, Fits, Passes, VarsOf, VarsOfArgs;
    var r, c := CompileArguments(t, |t.args|, PLAIN, ci.arity, used), CallCode(t.functor, last);
    AtSplit(code, pc, r.code, c);
    VarsOfFirst(t, |t.args|);
    CallCodeSound(t.functor, last, code, pc + |r.code|, init + (VarsOf(t) - used), strict);
    ArgumentsPass(t, |t.args|, PLAIN, ci.arity, used, code, pc, init, strict);
    PassesAround(code, pc, pc, pc + |r.code|, pc + |r.code| + |c|, VarsOf(t), used, init, strict);
  }

  /** All of these sets of initialised slots will do at pc. */
  predicate AllSound(code: Codes, pc: nat, inits: seq<set<nat>>, strict: bool) {
    forall o :: o in inits ==> Sound(code, pc, o, strict)
  }

  /** What is sound at pc is just what uses no variable too early and is sound at q. */
  ghost predicate Leads(t: Term, used: set<nat>, code: Codes, pc: nat, q: nat, init: set<nat>, strict: bool)
    requires Proper(t)
  {
    Sound(code, pc, init, strict) <==> (strict ==> Reads(t, used, init)) && AllSound(code, q, Paths(t, used, init), strict)
  }

  lemma {:induction false} GoalLeads(t: Term, used: set<nat>, code: Codes, pc: nat, q: nat, init: set<nat>, strict: bool)
    requires Proper(t) && !IsControl(t) && t != Atom(Fail) && Passes(code, pc, q, VarsOf(t), used, init, strict)
    ensures Leads(t, used, code, pc, q, init, strict) == true
  {
    hide Sound, VarsOf;
    assert Paths(t, used, init) == [init + (VarsOf(t) - used)];
    assert Reads(t, used, init) <==> VarsOf(t) * used <= init;
    hide Paths, Reads;
    assert AllSound(code, q, [init + (VarsOf(t) - used)], strict) <==> Sound(code, q, init + (VarsOf(t) - used), strict);
  }

  lemma {:induction false} AtomLeads(name: Name, last: bool, ci: Info, cutvar: Option<nat>, used: set<nat>, code: Codes, pc: nat, init: set<nat>, strict: bool)
    requires At(code, pc, AtomCode(name, last, ci, cutvar))
    ensures Leads(Atom(name), used, code, pc, pc + |AtomCode(name, last, ci, cutvar)|, init, strict) == true
  {
    hide Sound, At, AtomCode;
    AtomSound(name, last, ci, cutvar, code, pc, init, strict);
    if name == Fail {
      assert Paths(Atom(name), used, init) == [];
    } else {
      assert VarsOf(Atom(name)) == {};
      PassesNone(code, pc, pc + |AtomCode(name, last, ci, cutvar)|, used, init, strict);
      GoalLeads(Atom(name), used, code, pc, pc + |AtomCode(name, last, ci, cutvar)|, init, strict);
    }
  }

  lemma {:induction false} SubClauseLeads(j: Job, x: Codes, code: Codes, pc: nat, init: set<nat>, strict: bool)
    requires Proper(j.t) && !IsControl(j.t) && At(code, pc, x) && ArgsKnown(VarsOf(j.t), j.used, j.ci.arity) && Fits(init, j.used, j.ci.arity)
    requires CompileSubClause(j.t, j.last, j.ci, j.cutvar, j.used).Some? && CompileSubClause(j.t, j.last, j.ci, j.cutvar, j.used).value.code == x
    ensures Leads(j.t, j.used, code, pc, pc + |x|, init, strict) == true
  {
    hide Sound, At, CompileArgument, CompileArguments, CallCode, FirstVars, VarOperands, InlineCode, ArgsKnown, VarsOf, Leads, Passes, Fits;
    var t := j.t;
    if t.Atom? {
      AtomLeads(t.name, j.last, j.ci, j.cutvar, j.used, code, pc, init, strict);
    } else {
      if t.Var? || t.functor == Functor(Module, 2) {
        MetaPasses(t, j.ci, j.used, code, pc, init, strict);
      } else if IsInline(t, j.ci) {
        InlineWhole(t, j.ci, j.used);
        InlinePasses(t, j.ci, j.used, code, pc, init, strict);
      } else {
        PlainPasses(t, j.last, j.ci, j.used, code, pc, init, strict);
      }
      GoalLeads(t, j.used, code, pc, pc + |x|, init, strict);
    }
  }

  lemma {:induction false} SubClauseUses(j: Job)
    requires Proper(j.t) && CompileSubClause(j.t, j.last, j.ci, j.cutvar, j.used).Some?
    ensures CompileSubClause(j.t, j.last, j.ci, j.cutvar, j.used).value.used == j.used + VarsOf(j.t)
  {
    hide CompileArgument, CompileArguments, CallCode, FirstVars, VarOperands;
    var t := j.t;
    match t
    case Var(_) => ArgumentUses(t, PLAIN, j.ci.arity, j.used);
    case Struct(f, args) =>
      if f == Functor(Module, 2) {
        ArgumentUses(t, PLAIN, j.ci.arity, j.used);
      } else if !IsInline(t, j.ci) {
        ArgumentsUse(t, |args|, PLAIN, j.ci.arity, j.used);
        VarsOfFirst(t, |args|);
      }
    case _ =>
  }

  // ---------- control

  /** The variables below limit that are in there. */
  function Under(there: set<nat>, limit: nat): set<nat> {
    set x | x in there && x < limit
  }

  /** The C_VARs for the variables that the other branch has. */
  lemma {:induction false} BalanceSound(here: set<nat>, there: set<nat>, limit: nat, arity: nat, code: Codes, pc: nat, init: set<nat>, strict: bool)
    requires ArgsKnown(there, here, arity) && At(code, pc, Balance(here, there, limit)) && init <= here + Args(arity)
    ensures Sound(code, pc, init, strict) <==> Sound(code, pc + |Balance(here, there, limit)|, init + (Under(there, limit) - here), strict)
    decreases limit
  {
    hide Sound, At;
    if limit == 0 {
      assert init + (Under(there, 0) - here) == init;
    } else {
      var i := limit - 1;
      var x := Balance(here, there, i);
      var one: Codes := if i in there && i !in here then [Op(C_VAR), Num(i)] else [];
      var now := init + (Under(there, i) - here);
      AtSplit(code, pc, x, one);
      BalanceSound(here, there, i, arity, code, pc, init, strict);
      assert init + (Under(there, limit) - here) == if one != [] then now + {i} else now;
      if one != [] {
        AtWord(code, pc + |x|, one, 0);
        AtWord(code, pc + |x|, one, 1);
        FirstSound(code, pc + |x|, i, now, strict);
      }
    }
  }

  /** A branch ends with the C_VARs for what the other branch has. */
  lemma {:induction false} BranchSound(inits: seq<set<nat>>, here: set<nat>, there: set<nat>, limit: nat, arity: nat, code: Codes, pc: nat, strict: bool)
    requires ArgsKnown(there, here, arity) && (forall i :: i in there ==> i < limit) && At(code, pc, Balance(here, there, limit))
    requires forall o :: o in inits ==> o <= here + Args(arity)
    ensures AllSound(code, pc, inits, strict) <==> AllSound(code, pc + |Balance(here, there, limit)|, Plus(inits, there - here), strict)
  {
    hide Sound, At, Balance;
    assert Under(there, limit) == there;
    var q, now := pc + |Balance(here, there, limit)|, Plus(inits, there - here);
    forall k | 0 <= k < |inits|
      ensures Sound(code, pc, inits[k], strict) <==> Sound(code, q, now[k], strict)
    {
      assert inits[k] in inits;
      BalanceSound(here, there, limit, arity, code, pc, inits[k], strict);
    }
    EachSound(code, pc, inits, strict);
    EachSound(code, q, now, strict);
  }

  lemma {:induction false} EachSound(code: Codes, pc: nat, inits: seq<set<nat>>, strict: bool)
    ensures AllSound(code, pc, inits, strict) <==> forall k :: 0 <= k < |inits| ==> Sound(code, pc, inits[k], strict)
  {
    hide Sound;
    forall k | 0 <= k < |inits|
      ensures inits[k] in inits
    {
    }
  }

  lemma {:induction false} AllSoundJoin(code: Codes, pc: nat, a: seq<set<nat>>, b: seq<set<nat>>, strict: bool)
    ensures AllSound(code, pc, a + b, strict) <==> AllSound(code, pc, a, strict) && AllSound(code, pc, b, strict)
  {
    hide Sound;
    assert forall o :: o in a + b <==> o in a || o in b;
  }

  lemma {:induction false} UsedGrows(t: Term, used: set<nat>)
    requires Proper(t)
    ensures used <= UsedAfter(t, used) <= used + VarsOf(t)
    decreases t
  {
    if IsTerm(t, Comma, 2) || IsTerm(t, Arrow, 2) {
      UsedGrows(t.args[0], used);
      UsedGrows(t.args[1], UsedAfter(t.args[0], used));
      VarsInParts(t);
    } else if IsOr(t) {
      VarsInParts(t);
    }
  }

  lemma {:induction false} VarsInParts(t: Term)
    requires Proper(t) && t.Struct?
    ensures forall i :: 0 <= i < |t.args| ==> VarsOf(t.args[i]) <= VarsOf(t)
  {
    forall i | 0 <= i < |t.args|
      ensures VarsOf(t.args[i]) <= VarsOf(t)
    {
      forall x | x in VarsOf(t.args[i])
        ensures x in VarsOf(t)
      {
      }
    }
  }

  /** UsedAfter is the table that the compiler keeps. */
  lemma {:induction false} CompilerUses(j: Job)
    requires Proper(j.t) && CompileBody(j.t, j.last, j.ci, j.cutvar, j.used, j.next).Some?
    ensures UsedBy(j) == UsedAfter(j.t, j.used)
    decreases j.t
  {
    var x := CompileBody(j.t, j.last, j.ci, j.cutvar, j.used, j.next).value.code;
    hide CompileSubClause, Gives, Balance, VarsOf;
    if IsTerm(j.t, Comma, 2) {
      var a := j.(t := j.t.args[0], last := false);
      CompilerUses(a);
      var p := CompileBody(a.t, a.last, a.ci, a.cutvar, a.used, a.next).value;
      CompilerUses(j.(t := j.t.args[1], used := p.used, next := p.next));
    } else if IsTerm(j.t, Arrow, 2) {
      var a := j.(t := j.t.args[0], last := false, cutvar := Some(j.next), next := j.next + 1);
      CompilerUses(a);
      var p := CompileBody(a.t, a.last, a.ci, a.cutvar, a.used, a.next).value;
      CompilerUses(j.(t := j.t.args[1], used := p.used, next := p.next));
    } else if !IsControl(j.t) {
      SubClauseUses(j);
    }
  }

  /** What holds of a body that is compiled: its variables are numbered below the limit of the
      table, and those of the argument block have occurred. */
  predicate Counted(j: Job)
    requires Proper(j.t)
  {
    && ArgsKnown(VarsOf(j.t), j.used, j.ci.arity)
    && (forall i :: i in VarsOf(j.t) ==> i < j.ci.limit)
    && (forall i :: i in j.used ==> i < j.ci.limit)
  }


  lemma CountedArgs(j: Job)
    requires Proper(j.t) && Counted(j) == true
    ensures ArgsKnown(VarsOf(j.t), j.used, j.ci.arity)
  {
  }

  lemma CountedPart(a: Job, j: Job)
    requires Proper(j.t) && Counted(j) == true && Proper(a.t) && a.ci == j.ci
    requires VarsOf(a.t) <= VarsOf(j.t) && j.used <= a.used <= j.used + VarsOf(j.t)
    ensures Counted(a) == true
  {
  }

  lemma {:induction false} ConditionParts(t: Term)
    requires Proper(t) && IsOr(t) && IsCondition(t.args[0])
    ensures Proper(t.args[0]) && VarsOf(t.args[0].args[0]) <= VarsOf(t.args[0]) && VarsOf(t.args[0].args[1]) <= VarsOf(t.args[0]) <= VarsOf(t)
  {
    VarsInParts(t);
    VarsInParts(t.args[0]);
  }

  lemma OrSides(j: Job)
    requires Proper(j.t) && Counted(j) == true && IsOr(j.t)
    ensures var left, right := j.used + VarsOf(j.t.args[0]), j.used + VarsOf(j.t.args[1]);
            && ArgsKnown(left, right, j.ci.arity) && ArgsKnown(right, left, j.ci.arity) && UsedAfter(j.t, j.used) == left + right == right + left
            && (forall i :: i in left ==> i < j.ci.limit) && (forall i :: i in right ==> i < j.ci.limit)
    ensures VarsOf(j.t.args[0]) <= VarsOf(j.t) && VarsOf(j.t.args[1]) <= VarsOf(j.t)
  {
    VarsInParts(j.t);
    hide VarsOf;
  }

  lemma GivesUses(a: Job, y: Codes)
    requires Proper(a.t) && Gives(a, y) == true
    ensures UsedBy(a) == UsedAfter(a.t, a.used)
  {
    CompilerUses(a);
  }

  /** What is initialised at the end of a path is in the table, or an argument. */
  lemma {:induction false} PathsFit(t: Term, used: set<nat>, init: set<nat>, arity: nat)
    requires Proper(t) && Fits(init, used, arity)
    ensures forall o :: o in Paths(t, used, init) ==> Fits(o, UsedAfter(t, used), arity)
    decreases t, 2, 0
  {
    hide VarsOf, Fits;
    if IsTerm(t, Comma, 2) || IsTerm(t, Arrow, 2) {
      PathsFit(t.args[0], used, init, arity);
      OnwardFits(t.args[1], UsedAfter(t.args[0], used), Paths(t.args[0], used, init), arity);
    } else if IsOr(t) {
      OrFits(t, used, init, arity);
    } else if !IsTerm(t, NotProvable, 1) {
      FitsMore(init, used, arity, VarsOf(t));
    }
  }

  lemma {:induction false} OnwardFits(t: Term, used: set<nat>, inits: seq<set<nat>>, arity: nat)
    requires Proper(t) && forall o :: o in inits ==> Fits(o, used, arity)
    ensures forall o :: o in Onward(t, used, inits) ==> Fits(o, UsedAfter(t, used), arity)
    decreases t, 3, |inits|
  {
    hide VarsOf, Fits;
    if inits != [] {
      assert inits[0] in inits;
      PathsFit(t, used, inits[0], arity);
      OnwardFits(t, used, inits[1..], arity);
    }
  }

  /** The paths through the first branch of a disjunction. */
  function FirstPaths(t: Term, used: set<nat>, init: set<nat>): seq<set<nat>>
    requires Proper(t) && IsOr(t)
  {
    if IsCondition(t.args[0]) then
      assert Proper(t.args[0]);
      Onward(t.args[0].args[1], UsedAfter(t.args[0].args[0], used), Paths(t.args[0].args[0], used, init))
    else Paths(t.args[0], used, init)
  }

  lemma {:induction false} FirstFits(t: Term, used: set<nat>, init: set<nat>, arity: nat)
    requires Proper(t) && IsOr(t) && Fits(init, used, arity)
    ensures forall o :: o in FirstPaths(t, used, init) ==> Fits(o, used + VarsOf(t.args[0]), arity)
    decreases t, 0, 0
  {
    var s := t.args[0];
    assert Proper(s);
    if IsCondition(s) {
      PathsFit(s.args[0], used, init, arity);
      OnwardFits(s.args[1], UsedAfter(s.args[0], used), Paths(s.args[0], used, init), arity);
      UsedGrows(s.args[0], used);
      UsedGrows(s.args[1], UsedAfter(s.args[0], used));
      VarsInParts(s);
      assert UsedAfter(s.args[1], UsedAfter(s.args[0], used)) <= used + VarsOf(s);
    } else {
      PathsFit(s, used, init, arity);
      UsedGrows(s, used);
    }
    hide VarsOf, UsedAfter, Paths, Onward;
  }

  lemma {:induction false} OrFits(t: Term, used: set<nat>, init: set<nat>, arity: nat)
    requires Proper(t) && IsOr(t) && Fits(init, used, arity)
    ensures forall o :: o in Paths(t, used, init) ==> Fits(o, UsedAfter(t, used), arity)
    decreases t, 1, 0
  {
    FirstFits(t, used, init, arity);
    PathsFit(t.args[1], used, init, arity);
    UsedGrows(t.args[1], used);
    var left, right := used + VarsOf(t.args[0]), used + VarsOf(t.args[1]);
    var a, b := FirstPaths(t, used, init), Paths(t.args[1], used, init);
    assert Paths(t, used, init) == Plus(a, right - left) + Plus(b, left - right);
    hide VarsOf, Paths, FirstPaths, Onward;
    forall o | o in Plus(a, right - left) + Plus(b, left - right)
      ensures Fits(o, left + right, arity)
    {
      PlusFits(a, right - left, left, right, arity);
      PlusFits(b, left - right, right, left, arity);
    }
  }

  lemma PlusFits(inits: seq<set<nat>>, more: set<nat>, here: set<nat>, there: set<nat>, arity: nat)
    requires more <= there && forall o :: o in inits ==> Args(arity) <= o <= here + Args(arity)
    ensures forall o :: o in Plus(inits, more) ==> Args(arity) <= o <= here + there + Args(arity)
  {
    var r := Plus(inits, more);
    forall k | 0 <= k < |r|
      ensures Args(arity) <= r[k] <= here + there + Args(arity)
    {
      assert inits[k] in inits;
    }
  }

  lemma {:induction false} OnwardLeads(j: Job, x: Codes, code: Codes, pc: nat, inits: seq<set<nat>>, strict: bool)
    requires Proper(j.t) && Gives(j, x) == true && At(code, pc, x) == true && Counted(j) == true
    requires forall o :: o in inits ==> Fits(o, j.used, j.ci.arity)
    ensures AllSound(code, pc, inits, strict) <==>
              (strict ==> forall o :: o in inits ==> Reads(j.t, j.used, o)) && AllSound(code, pc + |x|, Onward(j.t, j.used, inits), strict)
    decreases j.t, 3, |inits|
  {
    hide Gives, At, Counted, Sound, Reads, Fits, Leads;
    if inits != [] {
      var o, rest := inits[0], inits[1..];
      assert inits == [o] + rest;
      BodyLeads(j, x, code, pc, o, strict);
      LeadsMeans(j.t, j.used, code, pc, pc + |x|, o, strict);
      OnwardLeads(j, x, code, pc, rest, strict);
      OneSound(code, pc, o, strict);
      AllSoundJoin(code, pc, [o], rest, strict);
      AllSoundJoin(code, pc + |x|, Paths(j.t, j.used, o), Onward(j.t, j.used, rest), strict);
    }
  }

  lemma OneSound(code: Codes, pc: nat, o: set<nat>, strict: bool)
    ensures AllSound(code, pc, [o], strict) <==> Sound(code, pc, o, strict)
  {
    hide Sound;
  }

  lemma LeadsMeans(t: Term, used: set<nat>, code: Codes, pc: nat, q: nat, init: set<nat>, strict: bool)
    requires Proper(t)
    ensures Leads(t, used, code, pc, q, init, strict) <==>
              (Sound(code, pc, init, strict) <==> (strict ==> Reads(t, used, init)) && AllSound(code, q, Paths(t, used, init), strict))
  {
    hide Sound, Reads, Paths, AllSound;
  }

  /** The code of a body does what Paths and Reads say. */
  lemma {:induction false} BodyLeads(j: Job, x: Codes, code: Codes, pc: nat, init: set<nat>, strict: bool)
    requires Proper(j.t) && Gives(j, x) == true && At(code, pc, x) == true && Counted(j) == true && Fits(init, j.used, j.ci.arity)
    ensures Leads(j.t, j.used, code, pc, pc + |x|, init, strict) == true
    decreases j.t, 2, 0
  {
    hide Gives, At, Sound, CompileSubClause, Shown, Counted, VarsOf, Fits, Leads;
    if IsTerm(j.t, Comma, 2) {
      CommaLeads(j, x, code, pc, init, strict);
    } else if IsOr(j.t) {
      OrLeads(j, x, code, pc, init, strict);
    } else if IsTerm(j.t, Arrow, 2) {
      IfThenLeads(j, x, code, pc, init, strict);
    } else if IsTerm(j.t, NotProvable, 1) {
      NotLeads(j, x, code, pc, init, strict);
    } else {
      SubClauseCode(j, x);
      CountedArgs(j);
      SubClauseLeads(j, x, code, pc, init, strict);
    }
  }

  lemma {:induction false} SequenceMeans(t: Term, used: set<nat>, init: set<nat>)
    requires Proper(t) && (IsTerm(t, Comma, 2) || IsTerm(t, Arrow, 2))
    ensures Paths(t, used, init) == Onward(t.args[1], UsedAfter(t.args[0], used), Paths(t.args[0], used, init))
    ensures Reads(t, used, init) <==>
              Reads(t.args[0], used, init) && forall o :: o in Paths(t.args[0], used, init) ==> Reads(t.args[1], UsedAfter(t.args[0], used), o)
  {
    hide Onward, UsedAfter, VarsOf;
  }

  /** A part of t and, behind it, another one. */
  lemma {:induction false} BothLead(t: Term, a: Job, y: Codes, b: Job, z: Codes, code: Codes, pc: nat, p: nat, init: set<nat>, strict: bool)
    requires Proper(a.t) && Gives(a, y) == true && At(code, pc, y) == true && Counted(a) == true && Fits(init, a.used, a.ci.arity)
    requires Proper(b.t) && Gives(b, z) == true && At(code, p, z) == true && Counted(b) == true && b.used == UsedAfter(a.t, a.used) && b.ci == a.ci
    requires a.t < t && b.t < t && forall o: set<nat> {:trigger Sound(code, p, o, strict)} :: Sound(code, pc + |y|, o, strict) <==> Sound(code, p, o, strict)
    ensures Sound(code, pc, init, strict) <==>
              && (strict ==> Reads(a.t, a.used, init) && forall o :: o in Paths(a.t, a.used, init) ==> Reads(b.t, b.used, o))
              && AllSound(code, p + |z|, Onward(b.t, b.used, Paths(a.t, a.used, init)), strict)
    decreases t, 0, 0
  {
    hide Gives, At, Sound, Counted, Fits, Leads, Reads, Paths, Onward, UsedAfter;
    var inits := Paths(a.t, a.used, init);
    PathsFit(a.t, a.used, init, a.ci.arity);
    BodyLeads(a, y, code, pc, init, strict);
    LeadsMeans(a.t, a.used, code, pc, pc + |y|, init, strict);
    assert AllSound(code, pc + |y|, inits, strict) <==> AllSound(code, p, inits, strict);
    OnwardLeads(b, z, code, p, inits, strict);
  }

  lemma {:induction false} CommaLeads(j: Job, x: Codes, code: Codes, pc: nat, init: set<nat>, strict: bool)
    requires Proper(j.t) && Gives(j, x) == true && At(code, pc, x) == true && Counted(j) == true && Fits(init, j.used, j.ci.arity)
    requires IsTerm(j.t, Comma, 2)
    ensures Leads(j.t, j.used, code, pc, pc + |x|, init, strict) == true
    decreases j.t, 1, 0
  {
    hide Gives, At, Sound, Counted, VarsOf, Fits, Leads, Reads, Paths, Onward, UsedAfter;
    var a, b, y, z := CommaParts(j, x);
    PartsCounted(j, a, y, b);
    AtSplit(code, pc, y, z);
    BothLead(j.t, a, y, b, z, code, pc, pc + |y|, init, strict);
    SequenceMeans(j.t, j.used, init);
    LeadsMeans(j.t, j.used, code, pc, pc + |x|, init, strict);
  }

  lemma {:induction false} PartsCounted(j: Job, a: Job, y: Codes, b: Job)
    requires Proper(j.t) && Counted(j) == true && (IsTerm(j.t, Comma, 2) || IsTerm(j.t, Arrow, 2)) && a.t == j.t.args[0] && b.t == j.t.args[1]
    requires Proper(a.t) && Gives(a, y) == true && a.used == j.used && b.used == UsedBy(a) && a.ci == b.ci == j.ci
    ensures Proper(b.t) && Counted(a) == true && Counted(b) == true && b.used == UsedAfter(a.t, a.used)
  {
    hide Gives, Counted, VarsOf, UsedAfter;
    VarsInParts(j.t);
    GivesUses(a, y);
    UsedGrows(a.t, a.used);
    CountedPart(a, j);
    CountedPart(b, j);
  }

  lemma {:induction false} IfThenLeads(j: Job, x: Codes, code: Codes, pc: nat, init: set<nat>, strict: bool)
    requires Proper(j.t) && Gives(j, x) == true && At(code, pc, x) == true && Counted(j) == true && Fits(init, j.used, j.ci.arity)
    requires IsTerm(j.t, Arrow, 2)
    ensures Leads(j.t, j.used, code, pc, pc + |x|, init, strict) == true
    decreases j.t, 1, 0
  {
    hide Gives, At, Sound, Counted, VarsOf, Fits, Leads, Reads, Paths, Onward, UsedAfter;
    var a, b, y, z := IfThenParts(j, x);
    PartsCounted(j, a, y, b);
    IfThenAt(j.next, y, z, code, pc);
    WidthSound(code, pc, init, strict);
    forall o: set<nat> {:trigger Sound(code, pc + 4 + |y|, o, strict)}
      ensures Sound(code, pc + 2 + |y|, o, strict) <==> Sound(code, pc + 4 + |y|, o, strict)
    {
      WidthSound(code, pc + 2 + |y|, o, strict);
    }
    BothLead(j.t, a, y, b, z, code, pc + 2, pc + 4 + |y|, init, strict);
    SequenceMeans(j.t, j.used, init);
    EndSound(code, pc + 4 + |y| + |z|, Paths(j.t, j.used, init), strict);
    LeadsMeans(j.t, j.used, code, pc, pc + |x|, init, strict);
  }

  lemma {:induction false} EndSound(code: Codes, pc: nat, inits: seq<set<nat>>, strict: bool)
    requires pc < |code| && code[pc] == Op(C_END)
    ensures AllSound(code, pc, inits, strict) <==> AllSound(code, pc + 1, inits, strict)
  {
    hide Sound;
    forall o | o in inits
      ensures Sound(code, pc, o, strict) <==> Sound(code, pc + 1, o, strict)
    {
      WidthSound(code, pc, o, strict);
    }
  }

  lemma {:induction false} NotLeads(j: Job, x: Codes, code: Codes, pc: nat, init: set<nat>, strict: bool)
    requires Proper(j.t) && Gives(j, x) == true && At(code, pc, x) == true && Counted(j) == true && Fits(init, j.used, j.ci.arity)
    requires IsTerm(j.t, NotProvable, 1)
    ensures Leads(j.t, j.used, code, pc, pc + |x|, init, strict) == true
    decreases j.t, 1, 0
  {
    hide Gives, At, Sound, Counted, VarsOf, Fits, Leads, Reads, Paths, Onward, UsedAfter, AllSound, Not;
    var a, y := NotParts(j, x);
    NotMeans(j.t, j.used, init);
    VarsInParts(j.t);
    CountedPart(a, j);
    NotAt(j.next, y, code, pc);
    BodyLeads(a, y, code, pc + 3, init, strict);
    LeadsMeans(a.t, a.used, code, pc + 3, pc + 3 + |y|, init, strict);
    FailSound(code, pc + 3 + |y|, Paths(a.t, a.used, init), strict);
    ForkSound(code, pc, |y| + 3, init, strict);
    OneSound(code, pc + |x|, init, strict);
    LeadsMeans(j.t, j.used, code, pc, pc + |x|, init, strict);
  }

  lemma {:induction false} NotMeans(t: Term, used: set<nat>, init: set<nat>)
    requires Proper(t) && IsTerm(t, NotProvable, 1)
    ensures Paths(t, used, init) == [init] && (Reads(t, used, init) <==> Reads(t.args[0], used, init))
  {
    hide VarsOf, UsedAfter, Onward;
  }

  lemma {:induction false} FailSound(code: Codes, pc: nat, inits: seq<set<nat>>, strict: bool)
    requires pc + 2 < |code| && code[pc] == Op(C_CUT) && code[pc + 2] == Op(C_FAIL)
    ensures AllSound(code, pc, inits, strict)
  {
    hide Sound;
    forall o | o in inits
      ensures Sound(code, pc, o, strict)
    {
      WidthSound(code, pc, o, strict);
      StopSound(code, pc + 2, o, strict);
    }
  }

  /** The end of a first branch: the C_VARs and the jump over the other one. */
  lemma {:induction false} TailSound(inits: seq<set<nat>>, here: set<nat>, there: set<nat>, limit: nat, arity: nat, n: nat, code: Codes, pc: nat, strict: bool)
    requires ArgsKnown(there, here, arity) && (forall i :: i in there ==> i < limit) && (forall o :: o in inits ==> o <= here + Args(arity))
    requires At(code, pc, Balance(here, there, limit) + [Op(C_JMP), Num(n)])
    ensures AllSound(code, pc, inits, strict) <==>
              AllSound(code, pc + |Balance(here, there, limit)| + 2 + n, Plus(inits, there - here), strict)
  {
    hide Sound, At, Balance;
    var v := Balance(here, there, limit);
    AtSplit(code, pc, v, [Op(C_JMP), Num(n)]);
    AtWord(code, pc + |v|, [Op(C_JMP), Num(n)], 0);
    AtWord(code, pc + |v|, [Op(C_JMP), Num(n)], 1);
    BranchSound(inits, here, there, limit, arity, code, pc, strict);
    forall o | o in Plus(inits, there - here)
      ensures Sound(code, pc + |v|, o, strict) <==> Sound(code, pc + |v| + 2 + n, o, strict)
    {
      JumpSound(code, pc + |v|, n, o, strict);
    }
  }

  /** What a first branch reads. */
  predicate FirstReads(t: Term, used: set<nat>, init: set<nat>)
    requires Proper(t) && IsOr(t)
  {
    if IsCondition(t.args[0]) then
      assert Proper(t.args[0]);
      var c, d := t.args[0].args[0], t.args[0].args[1];
      Reads(c, used, init) && forall o :: o in Paths(c, used, init) ==> Reads(d, UsedAfter(c, used), o)
    else Reads(t.args[0], used, init)
  }

  lemma {:induction false} OrMeans(t: Term, used: set<nat>, init: set<nat>)
    requires Proper(t) && IsOr(t)
    ensures var left, right := used + VarsOf(t.args[0]), used + VarsOf(t.args[1]);
            Paths(t, used, init) == Plus(FirstPaths(t, used, init), right - left) + Plus(Paths(t.args[1], used, init), left - right)
    ensures Reads(t, used, init) <==> Reads(t.args[1], used, init) && FirstReads(t, used, init)
  {
    hide Onward, UsedAfter, VarsOf, Plus;
  }

  /** The code u of the second branch at r, and the C_VARs w behind it. */
  lemma {:induction false} SecondLeads(j: Job, c: Job, u: Codes, w: Codes, code: Codes, r: nat, init: set<nat>, strict: bool)
    requires Proper(j.t) && IsOr(j.t) && Proper(c.t) && c.t == j.t.args[1] && c.used == j.used && c.ci == j.ci && Gives(c, u) == true
    requires var left, right := j.used + VarsOf(j.t.args[0]), j.used + VarsOf(c.t); w == Balance(right, left, j.ci.limit)
    requires Counted(j) == true && Fits(init, j.used, j.ci.arity) && At(code, r, u + w)
    ensures var left, right := j.used + VarsOf(j.t.args[0]), j.used + VarsOf(c.t);
            Sound(code, r, init, strict) <==>
              (strict ==> Reads(c.t, j.used, init)) && AllSound(code, r + |u| + |w|, Plus(Paths(c.t, j.used, init), left - right), strict)
    decreases j.t, 0, 0
  {
    hide Gives, At, Sound, Counted, VarsOf, Leads, Reads, Paths, Onward, UsedAfter, Balance, ArgsKnown;
    var left, right := j.used + VarsOf(j.t.args[0]), j.used + VarsOf(c.t);
    OrSides(j);
    CountedPart(c, j);
    AtSplit(code, r, u, w);
    BodyLeads(c, u, code, r, init, strict);
    LeadsMeans(c.t, j.used, code, r, r + |u|, init, strict);
    PathsFit(c.t, j.used, init, j.ci.arity);
    UsedGrows(c.t, j.used);
    BranchSound(Paths(c.t, j.used, init), right, left, j.ci.limit, j.ci.arity, code, r + |u|, strict);
  }

  lemma {:induction false} OrLeads(j: Job, x: Codes, code: Codes, pc: nat, init: set<nat>, strict: bool)
    requires Proper(j.t) && Gives(j, x) == true && At(code, pc, x) == true && Counted(j) == true && Fits(init, j.used, j.ci.arity)
    requires IsOr(j.t)
    ensures Leads(j.t, j.used, code, pc, pc + |x|, init, strict) == true
    decreases j.t, 1, 1
  {
    hide Gives, At, Sound, Counted, VarsOf, Fits, Leads, Reads, Paths, UsedAfter, FirstPaths, FirstReads, Plus;
    OrMeans(j.t, j.used, init);
    LeadsMeans(j.t, j.used, code, pc, pc + |x|, init, strict);
    var left, right := j.used + VarsOf(j.t.args[0]), j.used + VarsOf(j.t.args[1]);
    AllSoundJoin(code, pc + |x|, Plus(FirstPaths(j.t, j.used, init), right - left), Plus(Paths(j.t.args[1], j.used, init), left - right), strict);
    if IsCondition(j.t.args[0]) {
      ConditionLeads(j, x, code, pc, init, strict);
    } else {
      EitherLeads(j, x, code, pc, init, strict);
    }
  }

  /** Both branches of a disjunction. */
  ghost predicate OrSplits(j: Job, x: Codes, code: Codes, pc: nat, init: set<nat>, strict: bool)
    requires Proper(j.t) && IsOr(j.t)
  {
    var left, right := j.used + VarsOf(j.t.args[0]), j.used + VarsOf(j.t.args[1]);
    Sound(code, pc, init, strict) <==>
      && (strict ==> FirstReads(j.t, j.used, init) && Reads(j.t.args[1], j.used, init))
      && AllSound(code, pc + |x|, Plus(FirstPaths(j.t, j.used, init), right - left), strict)
      && AllSound(code, pc + |x|, Plus(Paths(j.t.args[1], j.used, init), left - right), strict)
  }

  lemma {:induction false} FirstIs(t: Term, used: set<nat>, init: set<nat>)
    requires Proper(t) && IsOr(t) && !IsCondition(t.args[0])
    ensures FirstPaths(t, used, init) == Paths(t.args[0], used, init) && (FirstReads(t, used, init) <==> Reads(t.args[0], used, init))
  {
    hide Paths, Reads;
  }

  /** The code y of a plain first branch at l, the C_VARs v and the jump behind it. */
  lemma {:induction false} FirstLeads(j: Job, a: Job, y: Codes, v: Codes, n: nat, code: Codes, l: nat, init: set<nat>, strict: bool)
    requires Proper(j.t) && IsOr(j.t) && !IsCondition(j.t.args[0])
    requires Proper(a.t) && a.t == j.t.args[0] && a.used == j.used && a.ci == j.ci && Gives(a, y) == true
    requires var left, right := j.used + VarsOf(a.t), j.used + VarsOf(j.t.args[1]); v == Balance(left, right, j.ci.limit)
    requires Counted(j) == true && Fits(init, j.used, j.ci.arity) && At(code, l, y + (v + [Op(C_JMP), Num(n)]))
    ensures var left, right := j.used + VarsOf(a.t), j.used + VarsOf(j.t.args[1]);
            Sound(code, l, init, strict) <==>
              && (strict ==> FirstReads(j.t, j.used, init))
              && AllSound(code, l + |y| + |v| + 2 + n, Plus(FirstPaths(j.t, j.used, init), right - left), strict)
    decreases j.t, 0, 0
  {
    hide Gives, At, Sound, Counted, VarsOf, Leads, Reads, Paths, Onward, UsedAfter, Balance, ArgsKnown, FirstPaths, FirstReads, Plus;
    var left, right := j.used + VarsOf(a.t), j.used + VarsOf(j.t.args[1]);
    OrSides(j);
    CountedPart(a, j);
    AtSplit(code, l, y, v + [Op(C_JMP), Num(n)]);
    BodyLeads(a, y, code, l, init, strict);
    LeadsMeans(a.t, j.used, code, l, l + |y|, init, strict);
    FirstIs(j.t, j.used, init);
    FirstFits(j.t, j.used, init, j.ci.arity);
    TailSound(Paths(a.t, j.used, init), left, right, j.ci.limit, j.ci.arity, n, code, l + |y|, strict);
  }

  lemma {:induction false} EitherLeads(j: Job, x: Codes, code: Codes, pc: nat, init: set<nat>, strict: bool)
    requires Proper(j.t) && Gives(j, x) == true && At(code, pc, x) == true && Counted(j) == true && Fits(init, j.used, j.ci.arity)
    requires IsOr(j.t) && !IsCondition(j.t.args[0])
    ensures OrSplits(j, x, code, pc, init, strict)
    decreases j.t, 1, 0
  {
    hide Gives, At, Sound, Counted, VarsOf, Leads, Reads, Paths, UsedAfter, Balance, IsVars, FirstPaths, FirstReads, Plus, AllSound, Fits, Either;
    var a, b, y, z, v, w := OrParts(j, x);
    EitherAt(y, v, z, w, code, pc);
    assert y + v + [Op(C_JMP), Num(|z + w|)] == y + (v + [Op(C_JMP), Num(|z + w|)]);
    FirstLeads(j, a, y, v, |z + w|, code, pc + 2, init, strict);
    SecondLeads(j, b, z, w, code, pc + 4 + |y + v|, init, strict);
    OrSound(code, pc, |y + v| + 2, init, strict);
  }

  lemma {:induction false} ConditionIs(t: Term, used: set<nat>, init: set<nat>)
    requires Proper(t) && IsOr(t) && IsCondition(t.args[0])
    ensures Proper(t.args[0]) && Proper(t.args[0].args[0]) && Proper(t.args[0].args[1])
    ensures var c, d := t.args[0].args[0], t.args[0].args[1];
            && FirstPaths(t, used, init) == Onward(d, UsedAfter(c, used), Paths(c, used, init))
            && (FirstReads(t, used, init) <==>
                Reads(c, used, init) && forall o :: o in Paths(c, used, init) ==> Reads(d, UsedAfter(c, used), o))
  {
    hide Paths, Reads, Onward, UsedAfter;
  }

  /** The code y of a condition at pc + 3, and the code z of what it guards, as FirstLeads(). */
  lemma {:induction false} GuardLeads(j: Job, a: Job, y: Codes, b: Job, z: Codes, v: Codes, n: nat, code: Codes, p: nat, init: set<nat>, strict: bool)
    requires Proper(j.t) && IsOr(j.t) && IsCondition(j.t.args[0]) && Proper(j.t.args[0])
    requires a.t == j.t.args[0].args[0] && b.t == j.t.args[0].args[1] && Proper(a.t) && Proper(b.t)
    requires Gives(a, y) == true && Gives(b, z) == true && a.used == j.used && b.used == UsedBy(a) && a.ci == b.ci == j.ci
    requires var left, right := j.used + VarsOf(j.t.args[0]), j.used + VarsOf(j.t.args[1]); v == Balance(left, right, j.ci.limit)
    requires Counted(j) == true && Fits(init, j.used, j.ci.arity) && At(code, p, y) == true
    requires p + |y| < |code| && code[p + |y|] in {Op(C_CUT), Op(C_SOFTCUT)} && At(code, p + |y| + 2, z + (v + [Op(C_JMP), Num(n)]))
    ensures var left, right := j.used + VarsOf(j.t.args[0]), j.used + VarsOf(j.t.args[1]);
            Sound(code, p, init, strict) <==>
              && (strict ==> FirstReads(j.t, j.used, init))
              && AllSound(code, p + |y| + 2 + |z| + |v| + 2 + n, Plus(FirstPaths(j.t, j.used, init), right - left), strict)
    decreases j.t, 0, 1
  {
    hide Gives, At, Sound, Counted, VarsOf, Leads, Reads, Paths, Onward, UsedAfter, Balance, ArgsKnown, FirstPaths, FirstReads, Plus, AllSound;
    var l := p + |y| + 2;
    GuardCounted(j, a, y, b);
    AtSplit(code, l, z, v + [Op(C_JMP), Num(n)]);
    forall o: set<nat> {:trigger Sound(code, l, o, strict)}
      ensures Sound(code, p + |y|, o, strict) <==> Sound(code, l, o, strict)
    {
      WidthSound(code, p + |y|, o, strict);
    }
    BothLead(j.t, a, y, b, z, code, p, l, init, strict);
    ConditionIs(j.t, j.used, init);
    FirstFits(j.t, j.used, init, j.ci.arity);
    OrSides(j);
    TailSound(FirstPaths(j.t, j.used, init), j.used + VarsOf(j.t.args[0]), j.used + VarsOf(j.t.args[1]), j.ci.limit, j.ci.arity, n, code, l + |z|, strict);
  }

  lemma {:induction false} ConditionLeads(j: Job, x: Codes, code: Codes, pc: nat, init: set<nat>, strict: bool)
    requires Proper(j.t) && Gives(j, x) == true && At(code, pc, x) == true && Counted(j) == true && Fits(init, j.used, j.ci.arity)
    requires IsOr(j.t) && IsCondition(j.t.args[0])
    ensures OrSplits(j, x, code, pc, init, strict)
    decreases j.t, 1, 0
  {
    hide Gives, At, Sound, Counted, VarsOf, Reads, Paths, Onward, UsedAfter, Balance, IsVars, FirstPaths, FirstReads, Plus, AllSound, Fits, IfThenElse;
    var a, b, c, y, z, u, v, w := IfThenElseParts(j, x);
    ConditionAt(IsTerm(j.t.args[0], SoftArrow, 2), j.next, y, z, v, u, w, code, pc);
    GuardLeads(j, a, y, b, z, v, |u + w|, code, pc + 3, init, strict);
    SecondLeads(j, c, u, w, code, pc + 7 + |y| + |z + v|, init, strict);
    ForkSound(code, pc, |y| + 2 + |z + v| + 2, init, strict);
  }

  lemma {:induction false} GuardCounted(j: Job, a: Job, y: Codes, b: Job)
    requires Proper(j.t) && Counted(j) == true && IsOr(j.t) && IsCondition(j.t.args[0]) && Proper(j.t.args[0])
    requires a.t == j.t.args[0].args[0] && b.t == j.t.args[0].args[1] && Proper(a.t) && Proper(b.t)
    requires Gives(a, y) == true && a.used == j.used && b.used == UsedBy(a) && a.ci == b.ci == j.ci
    ensures Counted(a) == true && Counted(b) == true && b.used == UsedAfter(a.t, a.used)
  {
    hide Gives, Counted, VarsOf, UsedAfter;
    ConditionParts(j.t);
    GivesUses(a, y);
    UsedGrows(a.t, a.used);
    CountedPart(a, j);
    CountedPart(b, j);
  }

  // ---------- clauses

  /** H_VOIDs that were cut off concern plain arguments only. */
  lemma {:induction false} CutOffUses(h: Term, m: nat, n: nat)
    requires IsHead(h) && h.Struct? && m <= n <= |h.args|
    requires forall i :: m <= i < n ==> CompileArgument(h.args[i], HEAD, |h.args|, CompileArguments(h, i, HEAD, |h.args|, {}).used).void
    ensures VarsOfArgs(h, m) <= VarsOfArgs(h, n) <= VarsOfArgs(h, m) + Args(|h.args|)
    decreases n
  {
    if m < n {
      CutOffUses(h, m, n - 1);
      VarsOfFirst(h, n - 1);
      VoidUses(h.args[n - 1], |h.args|, CompileArguments(h, n - 1, HEAD, |h.args|, {}).used);
    }
  }

  lemma {:induction false} VoidUses(t: Term, arity: nat, used: set<nat>)
    requires Proper(t) && CompileArgument(t, HEAD, arity, used).void
    ensures VarsOf(t) <= Args(arity)
  {
  }

  lemma AtomVars(t: Term)
    requires t.Atom?
    ensures VarsOf(t) == {}
  {
  }

  lemma {:induction false} HeadSound(h: Term, code: Codes, strict: bool)
    requires IsHead(h) && At(code, 0, CompileHead(h).code)
    ensures Sound(code, 0, Args(HeadFunctor(h).arity), strict) <==>
              Sound(code, |CompileHead(h).code|, Args(HeadFunctor(h).arity) + VarsOf(h), strict)
  {
    hide Sound, At, CompileArgument, CompileArguments, VarsOf, VarsOfArgs;
    if h.Struct? {
      var arity := |h.args|;
      var m := KeptCode(h, arity, HEAD, arity, {});
      CutOffUses(h, m, arity);
      VarsOfFirst(h, arity);
      ArgumentsPass(h, m, HEAD, arity, {}, code, 0, Args(arity), strict);
      assert Args(arity) + (VarsOfArgs(h, m) - {}) == Args(arity) + VarsOf(h);
      assert VarsOfArgs(h, m) * {} <= Args(arity);
    } else {
      AtomVars(h);
      assert Args(0) + {} == Args(0);
    }
  }

  lemma {:induction false} HeadUses(h: Term)
    requires IsHead(h)
    ensures CompileHead(h).used == VarsOf(h)
  {
    if h.Struct? {
      hide CompileArguments;
      ArgumentsUse(h, |h.args|, HEAD, |h.args|, {});
      VarsOfFirst(h, |h.args|);
    }
  }

  /** The variables of the body are numbered as those of the head. */
  predicate BodyNumbered(h: Term, body: Term, vars: nat)
    requires IsHead(h)
  {
    && ArgsKnown(VarsOf(body), VarsOf(h), HeadFunctor(h).arity)
    && (forall i :: i in VarsOf(body) ==> i < vars)
    && (forall i :: i in VarsOf(h) ==> i < vars)
  }

  /** Every use in the body of a variable that has occurred before is initialised. */
  predicate BodyReads(h: Term, body: Term)
    requires IsHead(h) && Proper(body)
  {
    body == TRUE || Reads(body, VarsOf(h), Args(HeadFunctor(h).arity) + VarsOf(h))
  }

  /** From the first instruction of a clause on, with the arguments initialised, no slot is set
      for the first time twice on a path; and only initialised slots are read just if the body
      uses no variable that the table wrongly has. */
  lemma {:induction false} CompiledClauseIsSound(h: Term, body: Term, vars: nat, inline: set<Functor>, strict: bool)
    requires IsHead(h) && Proper(body) && BodyNumbered(h, body, vars) && CompileClause(h, body, vars, inline).Some?
    ensures Sound(CompileClause(h, body, vars, inline).value, 0, Args(HeadFunctor(h).arity), strict) <==> (strict ==> BodyReads(h, body))
  {
    hide CompileHead, CompileBody, Sound, UsedAfter, BodyNumbered, Reads;
    var code := CompileClause(h, body, vars, inline).value;
    var head := CompileHead(h).code;
    var arity := HeadFunctor(h).arity;
    HeadUses(h);
    assert At(code, 0, head);
    HeadSound(h, code, strict);
    if body == TRUE {
      StopSound(code, |head|, Args(arity) + VarsOf(h), strict);
    } else {
      var x := CompileBody(body, true, Info(arity, vars, inline), None, CompileHead(h).used, vars).value.code;
      assert code == head + ([Op(I_ENTER)] + (x + [Op(I_EXIT)]));
      assert At(code, 0, code);
      AtSplit(code, 0, head, [Op(I_ENTER)] + (x + [Op(I_EXIT)]));
      RuleSound(h, body, vars, inline, code, |head|, x, strict);
    }
  }

  lemma {:induction false} RuleSound(h: Term, body: Term, vars: nat, inline: set<Functor>, code: Codes, pc: nat, x: Codes, strict: bool)
    requires IsHead(h) && Proper(body) && BodyNumbered(h, body, vars) == true
    requires var j := Job(body, true, Info(HeadFunctor(h).arity, vars, inline), None, VarsOf(h), vars); Gives(j, x) == true
    requires At(code, pc, [Op(I_ENTER)] + (x + [Op(I_EXIT)]))
    ensures var init := Args(HeadFunctor(h).arity) + VarsOf(h); Sound(code, pc, init, strict) <==> (strict ==> Reads(body, VarsOf(h), init))
  {
    hide *;
    HeadKind(h);
    var arity := HeadFunctor(h).arity;
    var j := Job(body, true, Info(arity, vars, inline), None, VarsOf(h), vars);
    var init := Args(arity) + VarsOf(h);
    StartCounted(h, body, vars, inline);
    StartFits(VarsOf(h), arity);
    AtSplit(code, pc, [Op(I_ENTER)], x + [Op(I_EXIT)]);
    AtSplit(code, pc + 1, x, [Op(I_EXIT)]);
    AtWord(code, pc, [Op(I_ENTER)], 0);
    AtWord(code, pc + 1 + |x|, [Op(I_EXIT)], 0);
    EnterSound(code, pc, init, strict);
    BodyLeads(j, x, code, pc + 1, init, strict);
    LeadsMeans(body, VarsOf(h), code, pc + 1, pc + 1 + |x|, init, strict);
    ExitSound(code, pc + 1 + |x|, Paths(body, VarsOf(h), init), strict);
  }

  lemma HeadKind(h: Term)
    requires IsHead(h)
    ensures h.Atom? || h.Struct?
  {
  }

  lemma {:induction false} EnterSound(code: Codes, pc: nat, init: set<nat>, strict: bool)
    requires pc < |code| && code[pc] == Op(I_ENTER)
    ensures Sound(code, pc, init, strict) <==> Sound(code, pc + 1, init, strict)
  {
    hide Sound;
    WidthSound(code, pc, init, strict);
  }

  lemma StartCounted(h: Term, body: Term, vars: nat, inline: set<Functor>)
    requires IsHead(h) && Proper(body) && BodyNumbered(h, body, vars) == true
    ensures Counted(Job(body, true, Info(HeadFunctor(h).arity, vars, inline), None, VarsOf(h), vars)) == true
  {
    hide VarsOf, IsHead;
  }

  lemma StartFits(used: set<nat>, arity: nat)
    ensures Fits(Args(arity) + used, used, arity)
  {
  }

  lemma {:induction false} ExitSound(code: Codes, pc: nat, inits: seq<set<nat>>, strict: bool)
    requires pc < |code| && code[pc] == Op(I_EXIT)
    ensures AllSound(code, pc, inits, strict)
  {
    hide Sound;
    forall o | o in inits
      ensures Sound(code, pc, o, strict)
    {
      StopSound(code, pc, o, strict);
    }
  }

  // ---------- clauses with named variables

  lemma {:induction false} VarsReplaced(t: Term, f: nat -> Term, i: nat) returns (x: nat)
    requires i in VarsOf(Replace(t, f)) && forall y: nat :: f(y).Var? || f(y).Void?
    ensures Occurs(t, x) > 0 && f(x) == Var(i)
    decreases t
  {
    if t.Var? {
      x := t.index;
    } else {
      var r := Replace(t, f);
      var k :| 0 <= k < |r.args| && i in VarsOf(r.args[k]);
      x := VarsReplaced(t.args[k], f, i);
      OccursInArg(t, |t.args|, k, x);
    }
  }

  /** analyse_variables() numbers the variables of a clause as compilation expects. */
  lemma {:induction false} NumberedIsKnown(h: Term, body: Term)
    requires IsHead(h) && Proper(body)
    ensures var d, arity := Analysed(h, body), HeadFunctor(h).arity;
            IsHead(NumberedTerm(h, d, arity)) && BodyNumbered(NumberedTerm(h, d, arity), NumberedTerm(body, d, arity), VarCount(d, arity))
  {
    hide Analysed, ArgsKnown, Occurs, Replace, HeadNumbered;
    var d, arity := Analysed(h, body), HeadFunctor(h).arity;
    NumberedShape(h, body);
    var g, b := NumberedTerm(h, d, arity), NumberedTerm(body, d, arity);
    var f := (x: nat) => Numbered(d, arity, x);
    forall i | i in VarsOf(b)
      ensures i < VarCount(d, arity)
    {
      var x := VarsReplaced(body, f, i);
      NumberBelow(h, body, x);
    }
    forall i | i in VarsOf(g)
      ensures i < VarCount(d, arity)
    {
      var x := VarsReplaced(h, f, i);
      NumberBelow(h, body, x);
    }
    forall i | i in VarsOf(b) && i < arity
      ensures i in VarsOf(g)
    {
      var x := VarsReplaced(body, f, i);
      NumberPlain(h, body, x);
    }
    assert ArgsKnown(VarsOf(b), VarsOf(g), arity) by { KnownAre(VarsOf(b), VarsOf(g), arity); }
  }

  lemma KnownAre(vars: set<nat>, used: set<nat>, arity: nat)
    requires forall i :: i in vars && i < arity ==> i in used
    ensures ArgsKnown(vars, used, arity)
  {
  }

  lemma {:induction false} NumberBelow(h: Term, body: Term, x: nat)
    requires IsHead(h) && Occurs(h, x) + Occurs(body, x) > 0
    ensures var n := Numbered(Analysed(h, body), |HeadArgs(h)|, x); n.Var? ==> n.index < VarCount(Analysed(h, body), |HeadArgs(h)|)
  {
    hide Analysed, Occurs;
    Renames(h, body, x, x);
  }

  lemma {:induction false} NumberPlain(h: Term, body: Term, x: nat)
    requires IsHead(h) && Occurs(h, x) + Occurs(body, x) > 0
    ensures var n := Numbered(Analysed(h, body), |HeadArgs(h)|, x);
            n.Var? && n.index < |HeadArgs(h)| ==> n.index in VarsOf(NumberedTerm(h, Analysed(h, body), |HeadArgs(h)|))
  {
    var d, arity := Analysed(h, body), |HeadArgs(h)|;
    Analyses(h, body);
    NumberedShape(h, body);
    hide Analysed, Occurs;
    var n := Numbered(d, arity, x);
    if n.Var? && n.index < arity {
      OffsetRange(d, arity, d.place[x]);
      var g := NumberedTerm(h, d, arity);
      PlainInHead(h, body, d.place[x], x);
    }
  }

  lemma PlainInHead(h: Term, body: Term, k: nat, x: nat)
    requires IsHead(h) && k < |HeadArgs(h)| && HeadArgs(h)[k] == Var(x)
    ensures var n := Numbered(Analysed(h, body), |HeadArgs(h)|, x);
            n.Var? ==> n.index in VarsOf(NumberedTerm(h, Analysed(h, body), |HeadArgs(h)|))
  {
    NumberedShape(h, body);
    hide Analysed, Numbered;
    var g := NumberedTerm(h, Analysed(h, body), |HeadArgs(h)|);
    var n := Numbered(Analysed(h, body), |HeadArgs(h)|, x);
    if n.Var? {
      assert HeadArgs(g)[k] == n;
      assert n.index in VarsOf(g.args[k]);
    }
  }

  /** In the code of any clause no slot is set for the first time twice on a path; and slots are
      read only when they are initialised just if the body uses no variable that the table has
      and some path to its use has not set. */
  lemma {:induction false} ClauseIsSound(h: Term, body: Term, inline: set<Functor>, strict: bool)
    requires IsHead(h) && Proper(body) && ClauseCode(h, body, inline).Some?
    ensures var d, arity := Analysed(h, body), HeadFunctor(h).arity;
            && IsHead(NumberedTerm(h, d, arity)) && Proper(NumberedTerm(body, d, arity))
            && (Sound(ClauseCode(h, body, inline).value, 0, Args(arity), strict) <==>
                (strict ==> BodyReads(NumberedTerm(h, d, arity), NumberedTerm(body, d, arity))))
  {
    hide Analysed, Numbered, BodyReads, Sound, CompileClause, BodyNumbered, Replace;
    var d, arity := Analysed(h, body), HeadFunctor(h).arity;
    NumberedIsKnown(h, body);
    ClauseCodeIs(h, body, inline);
    CompiledClauseIsSound(NumberedTerm(h, d, arity), NumberedTerm(body, d, arity), VarCount(d, arity), inline, strict);
    NumberedShape(h, body);
  }

  lemma {:induction false} ClauseCodeIs(h: Term, body: Term, inline: set<Functor>)
    requires IsHead(h) && Proper(body)
    ensures var d, arity := Analysed(h, body), HeadFunctor(h).arity;
            && IsHead(NumberedTerm(h, d, arity)) && Proper(NumberedTerm(body, d, arity))
            && ClauseCode(h, body, inline) == CompileClause(NumberedTerm(h, d, arity), NumberedTerm(body, d, arity), VarCount(d, arity), inline)
  {
    hide Analysed, CompileClause;
    NumberedShape(h, body);
    var d, arity := Analysed(h, body), HeadFunctor(h).arity;
    ReplaceKeeps(body, (x: nat) => Numbered(d, arity, x));
  }

  // ---------- bodies in which the table is right

  /** No variable first occurs under a \+ inside a disjunction: a branch leaves all its variables
      in the table. */
  predicate Clean(t: Term, used: set<nat>)
    requires Proper(t)
    decreases t
  {
    if IsTerm(t, Comma, 2) then Clean(t.args[0], used) && Clean(t.args[1], UsedAfter(t.args[0], used))
    else if IsOr(t) then
      && Clean(t.args[1], used) && VarsOf(t.args[1]) <= UsedAfter(t.args[1], used)
      && if IsCondition(t.args[0]) then
           assert Proper(t.args[0]);
           var c, d := t.args[0].args[0], t.args[0].args[1];
           Clean(c, used) && Clean(d, UsedAfter(c, used)) && VarsOf(t.args[0]) <= UsedAfter(d, UsedAfter(c, used))
         else Clean(t.args[0], used) && VarsOf(t.args[0]) <= UsedAfter(t.args[0], used)
    else if IsTerm(t, Arrow, 2) then Clean(t.args[0], used) && Clean(t.args[1], UsedAfter(t.args[0], used))
    else if IsTerm(t, NotProvable, 1) then Clean(t.args[0], used)
    else true
  }

  lemma {:induction false} CleanParts(t: Term, used: set<nat>)
    requires Proper(t) && Clean(t, used) == true
    ensures IsTerm(t, Comma, 2) || IsTerm(t, Arrow, 2) ==> Clean(t.args[0], used) == true && Clean(t.args[1], UsedAfter(t.args[0], used)) == true
    ensures IsOr(t) ==> Clean(t.args[1], used) == true && VarsOf(t.args[1]) <= UsedAfter(t.args[1], used)
    ensures IsOr(t) && !IsCondition(t.args[0]) ==> Clean(t.args[0], used) == true && VarsOf(t.args[0]) <= UsedAfter(t.args[0], used)
    ensures IsOr(t) && IsCondition(t.args[0]) ==>
              Proper(t.args[0]) &&
              var c, d := t.args[0].args[0], t.args[0].args[1];
              && Proper(c) && Proper(d) && Clean(c, used) == true && Clean(d, UsedAfter(c, used)) == true
              && VarsOf(t.args[0]) <= UsedAfter(d, UsedAfter(c, used))
    ensures IsTerm(t, NotProvable, 1) ==> Clean(t.args[0], used) == true
  {
    hide UsedAfter, VarsOf;
  }

  /** Then all paths initialise what the table has, and nothing is read too early. */
  lemma {:induction false} CleanReads(t: Term, used: set<nat>, init: set<nat>)
    requires Proper(t) && Clean(t, used) == true && used <= init
    ensures Reads(t, used, init) && forall o :: o in Paths(t, used, init) ==> UsedAfter(t, used) <= o
    decreases t, 1, 0
  {
    CleanParts(t, used);
    hide VarsOf, Clean;
    if IsTerm(t, Comma, 2) || IsTerm(t, Arrow, 2) {
      CleanReads(t.args[0], used, init);
      CleanOnward(t.args[1], UsedAfter(t.args[0], used), Paths(t.args[0], used, init));
    } else if IsOr(t) {
      CleanBranches(t, used, init);
    } else if IsTerm(t, NotProvable, 1) {
      CleanReads(t.args[0], used, init);
    }
  }

  lemma {:induction false} CleanOnward(t: Term, used: set<nat>, inits: seq<set<nat>>)
    requires Proper(t) && Clean(t, used) == true && forall o :: o in inits ==> used <= o
    ensures forall o :: o in inits ==> Reads(t, used, o)
    ensures forall o :: o in Onward(t, used, inits) ==> UsedAfter(t, used) <= o
    decreases t, 2, |inits|
  {
    hide VarsOf, Clean;
    if inits != [] {
      assert inits[0] in inits;
      assert inits == [inits[0]] + inits[1..];
      CleanReads(t, used, inits[0]);
      CleanOnward(t, used, inits[1..]);
    }
  }

  lemma {:induction false} CleanBranches(t: Term, used: set<nat>, init: set<nat>)
    requires Proper(t) && IsOr(t) && Clean(t, used) == true && used <= init
    ensures Reads(t, used, init) && forall o :: o in Paths(t, used, init) ==> UsedAfter(t, used) <= o
    decreases t, 0, 0
  {
    CleanParts(t, used);
    OrMeans(t, used, init);
    CleanReads(t.args[1], used, init);
    UsedGrows(t.args[1], used);
    if IsCondition(t.args[0]) {
      var c, d := t.args[0].args[0], t.args[0].args[1];
      CleanReads(c, used, init);
      CleanOnward(d, UsedAfter(c, used), Paths(c, used, init));
      UsedGrows(c, used);
      UsedGrows(d, UsedAfter(c, used));
    } else {
      CleanReads(t.args[0], used, init);
      UsedGrows(t.args[0], used);
    }
    assert FirstReads(t, used, init);
    assert forall o :: o in FirstPaths(t, used, init) ==> used + VarsOf(t.args[0]) <= o;
    hide VarsOf, Clean, Reads, Paths, FirstPaths, FirstReads, Onward;
    var left, right := used + VarsOf(t.args[0]), used + VarsOf(t.args[1]);
    PlusHolds(FirstPaths(t, used, init), left, right);
    PlusHolds(Paths(t.args[1], used, init), right, left);
  }

  lemma PlusHolds(inits: seq<set<nat>>, here: set<nat>, there: set<nat>)
    requires forall o :: o in inits ==> here <= o
    ensures forall o :: o in Plus(inits, there - here) ==> here + there <= o && there + here <= o
  {
    var r := Plus(inits, there - here);
    forall k | 0 <= k < |r|
      ensures here + there <= r[k]
    {
      assert inits[k] in inits;
    }
  }

  // ---------- a variable that first occurs under a \+ inside a disjunction

  const SPARE := Struct(Functor(Name.Other(1), 1), [Var(0)])
  const LATER := Struct(Functor(Name.Other(2), 1), [Var(0)])
  const INNER := Struct(Functor(Comma, 2), [Atom(Fail), SPARE])
  const BRANCH := Struct(Functor(NotProvable, 1), [INNER])
  const CHOICE := Struct(Functor(Semicolon, 2), [BRANCH, Atom(True)])

  /** ( \+ (fail, spare(X)) ; true ), later(X) */
  const HIDING := Struct(Functor(Comma, 2), [CHOICE, LATER])

  lemma HidingProper()
    ensures Proper(SPARE) && Proper(LATER) && Proper(INNER) && Proper(BRANCH) && Proper(CHOICE) && Proper(HIDING)
  {
    assert Proper(Var(0)) && Proper(Atom(True)) && Proper(Atom(Fail));
  }

  lemma HidingVars()
    ensures VarsOf(BRANCH) == {0} && VarsOf(Atom(True)) == {} && VarsOf(LATER) == {0}
  {
    assert VarsOf(Var(0)) == {0};
    assert SPARE.args[0] == LATER.args[0] == Var(0) && BRANCH.args[0] == INNER && INNER.args[0] == Atom(Fail) && INNER.args[1] == SPARE;
    assert VarsOf(SPARE) == {0};
    assert VarsOf(INNER) == {0};
  }

  lemma HidingPaths()
    ensures Proper(CHOICE) && UsedAfter(CHOICE, {}) == {0} && {} in Paths(CHOICE, {}, {})
  {
    HidingProper();
    HidingVars();
    hide VarsOf, Proper;
    assert Paths(BRANCH, {}, {}) == [{}];
    OrMeans(CHOICE, {}, {});
    FirstIs(CHOICE, {}, {});
    hide Paths;
    var one: seq<set<nat>>, more := [{}], ({} + VarsOf(Atom(True))) - ({} + VarsOf(BRANCH));
    assert more == {};
    assert Plus(one, more)[0] == {};
    assert Plus(one, more)[0] in Plus(one, more);
  }

  lemma LaterReads()
    ensures Proper(LATER) && !Reads(LATER, {0}, {})
  {
    HidingProper();
    HidingVars();
    hide VarsOf;
    assert 0 in VarsOf(LATER) * {0};
  }

  /** When fail fails, the machine goes on behind the \+ and from there to later(X), and nothing
      has initialised X on the way. */
  lemma HiddenIsRead()
    ensures Proper(HIDING) && !Reads(HIDING, {}, {})
  {
    HidingProper();
    HidingPaths();
    LaterReads();
    SequenceMeans(HIDING, {}, {});
    hide Reads, Paths, UsedAfter;
    assert !(forall o :: o in Paths(CHOICE, {}, {}) ==> Reads(LATER, UsedAfter(CHOICE, {}), o));
  }

  lemma HidingAll()
    ensures Proper(HIDING) && VarsOf(HIDING) == {0}
  {
    HidingProper();
    HidingVars();
    assert HIDING.args[0] == CHOICE && HIDING.args[1] == LATER && CHOICE.args[0] == BRANCH && CHOICE.args[1] == Atom(True);
    assert VarsOf(CHOICE) == {0};
  }

  lemma HidingCallable()
    ensures Proper(HIDING) && Callable(HIDING)
  {
    HidingProper();
    assert Proper(Atom(True));
    hide Proper;
    assert Callable(INNER) && Callable(LATER);
    assert Callable(BRANCH) && !IsCondition(BRANCH) && Callable(Atom(True));
    assert Callable(CHOICE);
  }

  const Q := Atom(Name.Other(3))

  /** So the code of q :- ( \+ (fail, spare(X)) ; true ), later(X) reads a slot that is not
      initialised. */
  lemma HidingIsUnsound(inline: set<Functor>)
    ensures Proper(HIDING) && CompileClause(Q, HIDING, 1, inline).Some?
    ensures !Sound(CompileClause(Q, HIDING, 1, inline).value, 0, {}, true)
  {
    HiddenIsRead();
    HidingAll();
    HidingCallable();
    CompilesIfCallable(HIDING, true, Info(0, 1, inline), None, {}, 1);
    AtomVars(Q);
    assert Args(0) == {} && Args(0) + {} == {};
    assert CompileHead(Q) == CompileHead(Q) && CompileHead(Q).used == {};
    hide Reads, CompileBody, Sound, VarsOf, Callable;
    CompiledClauseIsSound(Q, HIDING, 1, inline, true);
  }
}
