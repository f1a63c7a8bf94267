/** Clauses as terms and as virtual machine code (pl-comp.c). */
module Clauses {

  /** The names that the compiler knows, and all others. */
  datatype Name =
    | Comma | Semicolon | Bar | Arrow | SoftArrow | NotProvable | Dot | Module
    | CallName | Apply | CutBlock | Exit | Throw
    | Nil | Cut | True | Fail | Catch
    | Other(id: int)

  datatype Functor = Functor(name: Name, arity: nat)

  /** A term whose variables have been numbered by analyse_variables(): one that occurs once
      is Void, the others carry their offset in the frame. */
  datatype Term =
    | Var(index: nat)
    | Void
    | Atom(name: Name)
    | Small(n: int)                       // an integer that fits in a word
    | Big(n: int)
    | Float(low: int, high: int)
    | Text(words: seq<int>)
    | Struct(functor: Functor, args: seq<Term>)

  /** All compound terms have as many arguments as their functor says, and at least one. */
  predicate Proper(t: Term) {
    t.Struct? ==> |t.args| == t.functor.arity >= 1 && forall i :: 0 <= i < |t.args| ==> Proper(t.args[i])
  }

  function VarsOf(t: Term): set<nat> {
    match t
    case Var(i) => {i}
    case Struct(_, args) => set i, x | 0 <= i < |args| && x in VarsOf(args[i]) :: x
    case _ => {}
  }

  datatype Opcode =
    | H_VOID | H_VAR | H_FIRSTVAR | H_CONST | H_NIL | H_INTEGER | H_FLOAT | H_INDIRECT
    | H_FUNCTOR | H_RFUNCTOR | H_LIST | H_RLIST
    | B_VOID | B_VAR | B_VAR0 | B_VAR1 | B_VAR2 | B_FIRSTVAR | B_ARGVAR | B_ARGFIRSTVAR
    | B_CONST | B_NIL | B_INTEGER | B_FLOAT | B_INDIRECT
    | B_FUNCTOR | B_RFUNCTOR | B_LIST | B_RLIST | I_POPF
    | I_ENTER | I_EXIT | I_EXITFACT | I_CALL | I_DEPART | I_USERCALL0 | I_USERCALLN | I_APPLY
    | I_CUT_BLOCK | B_EXIT | B_THROW | I_CATCH | I_CUT | I_TRUE | I_FAIL
    | I_CALL_FV0 | I_CALL_FV1 | I_CALL_FV2
    | C_OR | C_JMP | C_MARK | C_CUT | C_LCUT | C_IFTHENELSE | C_SOFTIF | C_SOFTCUT
    | C_NOT | C_VAR | C_END | C_FAIL

  /** One word of code: an instruction or an operand. */
  datatype Code =
    | Op(op: Opcode)
    | Num(n: int)                         // an offset, a count, an integer or data
    | Func(functor: Functor)              // a functor or a procedure
    | Constant(value: Term)               // an atom or a small integer

  type Codes = seq<Code>

  const DOT := Functor(Dot, 2)

  // ---------- arguments

  /** Where an argument is: in the body or the head, below the top of a term, and as the last
      argument of a term (A_BODY, A_ARG, A_RIGHT). */
  datatype Where = Where(body: bool, arg: bool, right: bool)

  /** Code, the variables used so far, and whether the code is a single H_VOID that may go. */
  datatype Out = Out(code: Codes, used: set<nat>, void: bool)

  function VarOp(i: nat): Opcode
    requires i < 3
  {
    if i == 0 then B_VAR0 else if i == 1 then B_VAR1 else B_VAR2
  }

  function CompileVar(i: nat, w: Where, arity: nat, used: set<nat>): Out {
    var first := i !in used;
    var now := used + {i};
    if i < arity then
      if w.body then
        if w.arg then Out([Op(B_ARGVAR), Num(i)], now, false)
        else if i < 3 then Out([Op(VarOp(i))], now, false)
        else Out([Op(B_VAR), Num(i)], now, false)
      else if !w.arg && first then Out([Op(H_VOID)], now, true)
      else Out([Op(H_VAR), Num(i)], now, false)
    else if w.body then
      if w.arg then Out([Op(if first then B_ARGFIRSTVAR else B_ARGVAR), Num(i)], now, false)
      else if i < 3 && !first then Out([Op(VarOp(i))], now, false)
      else Out([Op(if first then B_FIRSTVAR else B_VAR), Num(i)], now, false)
    else Out([Op(if first then H_FIRSTVAR else H_VAR), Num(i)], now, false)
  }

  function Data(words: seq<int>): Codes {
    seq(|words|, i requires 0 <= i < |words| => Num(words[i]))
  }

  /** The instruction that starts a compound term. */
  function Opening(f: Functor, w: Where): Codes {
    if f == DOT then
      [Op(if w.body then (if w.right then B_RLIST else B_LIST) else (if w.right then H_RLIST else H_LIST))]
    else
      [Op(if w.body then (if w.right then B_RFUNCTOR else B_FUNCTOR) else (if w.right then H_RFUNCTOR else H_FUNCTOR)), Func(f)]
  }

  /** pl-comp.c, compileArgument(). */
  function CompileArgument(t: Term, w: Where, arity: nat, used: set<nat>): (r: Out)
    requires Proper(t)
    decreases t, 1, 0
  {
    match t
    case Void => if w.body then Out([Op(B_VOID)], used, false) else Out([Op(H_VOID)], used, true)
    case Big(n) => Out([Op(if w.body then B_INTEGER else H_INTEGER), Num(n)], used, false)
    case Small(_) => Out([Op(if w.body then B_CONST else H_CONST), Constant(t)], used, false)
    case Atom(name) =>
      if name == Nil then Out([Op(if w.body then B_NIL else H_NIL)], used, false)
      else Out([Op(if w.body then B_CONST else H_CONST), Constant(t)], used, false)
    case Float(low, high) => Out([Op(if w.body then B_FLOAT else H_FLOAT), Num(low), Num(high)], used, false)
    case Text(words) => Out([Op(if w.body then B_INDIRECT else H_INDIRECT), Num(|words|)] + Data(words), used, false)
    case Var(i) => CompileVar(i, w, arity, used)
    case Struct(f, args) =>
      var n := |args| - 1;
      var a := CompileArguments(t, n, Where(w.body, true, false), arity, used);
      if args[n].Void? && !w.body then
        Out(Opening(f, w) + a.code[..a.kept] + (if w.right then [] else [Op(I_POPF)]), a.used, false)
      else
        var last := CompileArgument(args[n], Where(w.body, true, true), arity, a.used);
        Out(Opening(f, w) + a.code + last.code + (if w.right then [] else [Op(I_POPF)]), last.used, false)
  }

  /** Code of several arguments; `kept` is its length without the H_VOIDs at its end. */
  datatype Outs = Outs(code: Codes, used: set<nat>, kept: nat)

  /** The code of the first n arguments of t. */
  function CompileArguments(t: Term, n: nat, w: Where, arity: nat, used: set<nat>): (r: Outs)
    requires Proper(t) && t.Struct? && n <= |t.args|
    ensures r.kept <= |r.code|
    decreases t, 0, n
  {
    if n == 0 then Outs([], used, 0)
    else
      var a := CompileArguments(t, n - 1, w, arity, used);
      var b := CompileArgument(t.args[n - 1], w, arity, a.used);
      Outs(a.code + b.code, b.used, if b.void then a.kept else |a.code + b.code|)
  }
}
