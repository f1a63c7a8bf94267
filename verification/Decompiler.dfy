/** The decompiler (pl-comp.c): how the instructions for arguments build terms again. */
module Decompiler {
  import opened Clauses

  datatype Option<T> = None | Some(value: T)

  // ---------- terms under construction

  /** A compound term whose first arguments are there.  Nothing ends the term in the last
      argument of another one (H_RFUNCTOR, B_RFUNCTOR): it is complete when the other is. */
  datatype Frame = Frame(functor: Functor, args: seq<Term>, right: bool)

  /** The finished terms (the stack at ARGP), and the terms around the one being built, the
      innermost last. */
  datatype Building = Building(done: seq<Term>, open: seq<Frame>)

  function Put(b: Building, t: Term): Building {
    if b.open == [] then b.(done := b.done + [t])
    else
      var top := b.open[|b.open| - 1];
      b.(open := b.open[..|b.open| - 1] + [top.(args := top.args + [t])])
  }

  function Open(b: Building, f: Functor, right: bool): Building {
    b.(open := b.open + [Frame(f, [], right)])
  }

  function Voids(n: int): (s: seq<Term>)
    ensures |s| == if n <= 0 then 0 else n
    ensures forall i :: 0 <= i < |s| ==> s[i] == Void
  {
    if n <= 0 then [] else Voids(n - 1) + [Void]
  }

  /** The arguments that no instruction filled are fresh variables. */
  function Finish(f: Frame): Term {
    Struct(f.functor, f.args + Voids(f.functor.arity - |f.args|))
  }

  /** Ends the innermost term. */
  function Shut(b: Building): Building
    requires b.open != []
  {
    var n := |b.open| - 1;
    Put(b.(open := b.open[..n]), Finish(b.open[n]))
  }

  /** I_POPF: ends the terms in last arguments and the term around them. */
  function Pop(b: Building): Option<Building>
    decreases |b.open|
  {
    if b.open == [] then None
    else if b.open[|b.open| - 1].right then Pop(Shut(b))
    else Some(Shut(b))
  }

  // ---------- one instruction

  datatype Next = Next(pc: nat, b: Building)

  function Number(code: Codes, pc: nat): Option<nat> {
    if pc < |code| && code[pc].Num? && code[pc].n >= 0 then Some(code[pc].n) else None
  }

  function ReadVar(code: Codes, pc: nat, b: Building): Option<Next> {
    var i := Number(code, pc);
    if i.None? then None else Some(Next(pc + 1, Put(b, Var(i.value))))
  }

  function ReadInteger(code: Codes, pc: nat, b: Building): Option<Next> {
    if pc < |code| && code[pc].Num? then Some(Next(pc + 1, Put(b, Big(code[pc].n)))) else None
  }

  function ReadConstant(code: Codes, pc: nat, b: Building): Option<Next> {
    if pc < |code| && code[pc].Constant? then Some(Next(pc + 1, Put(b, code[pc].value))) else None
  }

  function ReadFloat(code: Codes, pc: nat, b: Building): Option<Next> {
    if pc + 1 < |code| && code[pc].Num? && code[pc + 1].Num? then Some(Next(pc + 2, Put(b, Float(code[pc].n, code[pc + 1].n)))) else None
  }

  predicate AllData(code: Codes, pc: nat, n: nat) {
    pc + n <= |code| && forall i :: pc <= i < pc + n ==> code[i].Num?
  }

  function Words(code: Codes, pc: nat, n: nat): seq<int>
    requires AllData(code, pc, n)
  {
    seq(n, i requires 0 <= i < n => code[pc + i].n)
  }

  /** pl-comp.c, globalIndirectFromCode(). */
  function ReadText(code: Codes, pc: nat, b: Building): Option<Next> {
    var n := Number(code, pc);
    if n.None? || !AllData(code, pc + 1, n.value) then None
    else Some(Next(pc + 1 + n.value, Put(b, Text(Words(code, pc + 1, n.value)))))
  }

  function ReadFunctor(code: Codes, pc: nat, b: Building, right: bool): Option<Next> {
    if pc < |code| && code[pc].Func? && (right ==> b.open != []) then Some(Next(pc + 1, Open(b, code[pc].functor, right))) else None
  }

  function ReadList(pc: nat, b: Building, right: bool): Option<Next> {
    if right ==> b.open != [] then Some(Next(pc, Open(b, DOT, right))) else None
  }

  /** The effect of the instruction at pc, if it is one of those for arguments. */
  function Step(code: Codes, pc: nat, b: Building): Option<Next>
    requires pc < |code|
  {
    match code[pc]
    case Op(op) =>
      (match op
       case H_VOID => Some(Next(pc + 1, Put(b, if b.open == [] then Var(|b.done|) else Void)))
       case B_VOID => Some(Next(pc + 1, Put(b, Void)))
       case H_VAR | H_FIRSTVAR | B_VAR | B_FIRSTVAR | B_ARGVAR | B_ARGFIRSTVAR => ReadVar(code, pc + 1, b)
       case B_VAR0 => Some(Next(pc + 1, Put(b, Var(0))))
       case B_VAR1 => Some(Next(pc + 1, Put(b, Var(1))))
       case B_VAR2 => Some(Next(pc + 1, Put(b, Var(2))))
       case H_NIL | B_NIL => Some(Next(pc + 1, Put(b, Atom(Nil))))
       case H_CONST | B_CONST => ReadConstant(code, pc + 1, b)
       case H_INTEGER | B_INTEGER => ReadInteger(code, pc + 1, b)
       case H_FLOAT | B_FLOAT => ReadFloat(code, pc + 1, b)
       case H_INDIRECT | B_INDIRECT => ReadText(code, pc + 1, b)
       case H_FUNCTOR | B_FUNCTOR => ReadFunctor(code, pc + 1, b, false)
       case H_RFUNCTOR | B_RFUNCTOR => ReadFunctor(code, pc + 1, b, true)
       case H_LIST | B_LIST => ReadList(pc + 1, b, false)
       case H_RLIST | B_RLIST => ReadList(pc + 1, b, true)
       case I_POPF =>
         var p := Pop(b);
         if p.None? then None else Some(Next(pc + 1, p.value))
       case _ => None)
    case _ => None
  }

  lemma StepAdvances(code: Codes, pc: nat, b: Building)
    requires pc < |code| && Step(code, pc, b).Some?
    ensures pc < Step(code, pc, b).value.pc <= |code|
  {
  }

  /** The effect of the instructions from pc to end. */
  function Run(code: Codes, pc: nat, end: nat, b: Building): Option<Building>
    requires end <= |code|
    decreases end - pc
  {
    if pc == end then Some(b)
    else if pc > end then None
    else
      var s := Step(code, pc, b);
      if s.None? then None
      else
        assert s.value.pc > pc by { StepAdvances(code, pc, b); }
        Run(code, s.value.pc, end, s.value.b)
  }

  lemma {:induction false} RunSplit(code: Codes, pc: nat, mid: nat, end: nat, b: Building)
    requires pc <= mid <= end <= |code| && Run(code, pc, mid, b).Some?
    ensures Run(code, pc, end, b) == Run(code, mid, end, Run(code, pc, mid, b).value)
    decreases mid - pc
  {
    if pc < mid {
      StepAdvances(code, pc, b);
      var s := Step(code, pc, b).value;
      RunSplit(code, s.pc, mid, end, s.b);
    }
  }

  /** The words x stand in the code at pc. */
  predicate At(code: Codes, pc: nat, x: Codes) {
    pc + |x| <= |code| && code[pc..pc + |x|] == x
  }

  lemma AtSplit(code: Codes, pc: nat, x: Codes, z: Codes)
    requires At(code, pc, x + z)
    ensures At(code, pc, x) && At(code, pc + |x|, z)
  {
    assert code[pc..pc + |x|] == (x + z)[..|x|];
    assert code[pc + |x|..pc + |x + z|] == (x + z)[|x|..];
  }

  lemma AtWord(code: Codes, pc: nat, x: Codes, i: nat)
    requires At(code, pc, x) && i < |x|
    ensures pc + i < |code| && code[pc + i] == x[i]
  {
    assert code[pc..pc + |x|][i] == x[i];
  }
}
