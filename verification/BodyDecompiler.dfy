/** The decompiler of clause bodies (pl-comp.c, decompileBody() and build_term()). */
module BodyDecompiler {
  import opened Clauses
  import opened Decompiler

  const COMMA := Functor(Comma, 2)

  /** pl-comp.c, build_term(): the last terms on the stack become the arguments of one. */
  function Build(b: Building, f: Functor): Option<Building> {
    if b.open != [] || |b.done| < f.arity then None
    else if f.arity == 0 then Some(Put(b, Atom(f.name)))
    else
      var n := |b.done| - f.arity;
      Some(b.(done := b.done[..n] + [Struct(f, b.done[n..])]))
  }

  /** `while( pushed-- > 1 ) build_term(FUNCTOR_comma2, di)` */
  function Join(b: Building, pushed: nat): Option<Building>
    decreases pushed
  {
    if pushed <= 1 then Some(b)
    else
      var c := Build(b, COMMA);
      if c.None? then None else Join(c.value, pushed - 1)
  }

  datatype Read = Read(pc: nat, b: Building, pushed: nat)

  function Push(pc: nat, b: Building, t: Term, pushed: nat): Read {
    Read(pc, Put(b, t), pushed + 1)
  }

  /** A call of f whose arguments are on the stack. */
  function Called(pc: nat, b: Building, f: Functor, pushed: nat): Option<Read> {
    var c := Build(b, f);
    if c.None? then None else Some(Read(pc, c.value, pushed + 1))
  }

  function PutVars(code: Codes, pc: nat, n: nat, b: Building): Option<Building>
    decreases n
  {
    if n == 0 then Some(b)
    else
      var i := Number(code, pc);
      if i.None? then None else PutVars(code, pc + 1, n - 1, Put(b, Var(i.value)))
  }

  function InlineArity(op: Opcode): nat {
    if op == I_CALL_FV0 then 0 else if op == I_CALL_FV1 then 1 else 2
  }

  /** An instruction for an argument. */
  function Argument(code: Codes, pc: nat, b: Building, pushed: nat): (r: Option<Read>)
    requires pc < |code|
    ensures r.Some? ==> pc < r.value.pc <= |code|
  {
    var s := Step(code, pc, b);
    if s.None? then None
    else
      assert pc < s.value.pc <= |code| by { StepAdvances(code, pc, b); }
      Some(Read(s.value.pc, s.value.b, pushed))
  }

  /** The subgoals that are one instruction, and the calls. */
  function SubGoal(code: Codes, pc: nat, b: Building, pushed: nat): (r: Option<Read>)
    requires pc < |code|
    ensures r.Some? ==> pc < r.value.pc <= |code|
  {
    match code[pc]
    case Op(op) =>
      (match op
       case I_FAIL => Some(Push(pc + 1, b, Atom(Fail), pushed))
       case I_TRUE => Some(Push(pc + 1, b, Atom(True), pushed))
       case C_LCUT => if pc + 1 < |code| then Some(Push(pc + 2, b, Atom(Cut), pushed)) else None
       case I_CUT => Some(Push(pc + 1, b, Atom(Cut), pushed))
       case I_CATCH => Some(Push(pc + 1, b, Atom(Catch), pushed))
       case I_USERCALL0 => Some(Read(pc + 1, b, pushed + 1))
       case I_USERCALLN =>
         var n := Number(code, pc + 1);
         if n.None? then None else Called(pc + 2, b, Functor(CallName, n.value + 1), pushed)
       case I_APPLY => Called(pc + 1, b, Functor(Apply, 2), pushed)
       case I_CUT_BLOCK => Called(pc + 1, b, Functor(CutBlock, 1), pushed)
       case B_EXIT => Called(pc + 1, b, Functor(Exit, 2), pushed)
       case B_THROW => Called(pc + 1, b, Functor(Throw, 1), pushed)
       case I_CALL | I_DEPART =>
         if pc + 1 < |code| && code[pc + 1].Func? then Called(pc + 2, b, code[pc + 1].functor, pushed) else None
       case I_CALL_FV0 | I_CALL_FV1 | I_CALL_FV2 =>
         var n := InlineArity(op);
         if pc + 1 + n < |code| && code[pc + 1].Func? then
           var c := PutVars(code, pc + 2, n, b);
           if c.None? then None else Called(pc + 2 + n, c.value, code[pc + 1].functor, pushed)
         else None
       case _ => Argument(code, pc, b, pushed))
    case _ => None
  }

  /** Decompiles from pc up to the instruction `end`, or to the address `until`, and puts the
      goals together with commas. */
  function DecompileBody(code: Codes, pc: nat, end: Option<Opcode>, until: Option<nat>, b: Building): (r: Option<Next>)
    ensures r.Some? ==> pc <= r.value.pc <= |code|
    decreases |code| - pc, 1
  {
    var r := Loop(code, pc, end, until, b, 0);
    if r.None? then None
    else
      var c := Join(r.value.b, r.value.pushed);
      if c.None? then None else Some(Next(r.value.pc, c.value))
  }

  /** The loop of decompileBody(). */
  function Loop(code: Codes, pc: nat, end: Option<Opcode>, until: Option<nat>, b: Building, pushed: nat): (r: Option<Read>)
    ensures r.Some? ==> pc <= r.value.pc <= |code|
    decreases |code| - pc, 0
  {
    if pc > |code| then None
    else if until == Some(pc) then Some(Read(pc, b, pushed))
    else if pc == |code| then None
    else if end.Some? && code[pc] == Op(end.value) then Some(Read(pc, b, pushed))
    else
      var r := Construct(code, pc, b, pushed);
      if r.None? then None else Loop(code, r.value.pc, end, until, r.value.b, r.value.pushed)
  }

  /** One turn of the loop. */
  function Construct(code: Codes, pc: nat, b: Building, pushed: nat): (r: Option<Read>)
    requires pc < |code|
    ensures r.Some? ==> pc < r.value.pc <= |code|
    decreases |code| - pc - 1, 2
  {
    if code[pc] in {Op(C_CUT), Op(C_VAR), Op(C_JMP)} then
      if pc + 1 < |code| then Some(Read(pc + 2, b, pushed)) else None
    else if code[pc] == Op(C_OR) then ReadOr(code, pc + 1, b, pushed)
    else if code[pc] == Op(C_NOT) then ReadNot(code, pc + 1, b, pushed)
    else if code[pc] == Op(C_MARK) then ReadIfThen(code, pc + 1, b, pushed)
    else if code[pc] == Op(C_IFTHENELSE) then ReadIfThenElse(code, pc + 1, b, pushed, C_CUT, Functor(Arrow, 2))
    else if code[pc] == Op(C_SOFTIF) then ReadIfThenElse(code, pc + 1, b, pushed, C_SOFTCUT, Functor(SoftArrow, 2))
    else SubGoal(code, pc, b, pushed)
  }

  /** DECOMPILETOJUMP: the code as far as the jump at pc goes. */
  function ToJump(code: Codes, pc: nat, b: Building): (r: Option<Next>)
    ensures r.Some? ==> pc < r.value.pc <= |code|
    decreases |code| - pc, 0
  {
    var j := Number(code, pc);
    if j.None? then None else DecompileBody(code, pc + 1, None, Some(pc + 1 + j.value), b)
  }

  /** A ; B */
  function ReadOr(code: Codes, pc: nat, b: Building, pushed: nat): (r: Option<Read>)
    requires pc <= |code|
    ensures r.Some? ==> pc < r.value.pc <= |code|
    decreases |code| - pc, 1
  {
    var x := ToJump(code, pc, b);
    if x.None? || x.value.pc <= pc + 1 then None
    else
      var y := ToJump(code, x.value.pc - 1, x.value.b);
      if y.None? then None else Called(y.value.pc, y.value.b, Functor(Semicolon, 2), pushed)
  }

  /** \+ A */
  function ReadNot(code: Codes, pc: nat, b: Building, pushed: nat): (r: Option<Read>)
    requires pc <= |code|
    ensures r.Some? ==> pc < r.value.pc <= |code|
    decreases |code| - pc, 1
  {
    var x := DecompileBody(code, pc + 2, Some(C_CUT), None, b);
    if x.None? || x.value.pc + 3 > |code| then None
    else Called(x.value.pc + 3, x.value.b, Functor(NotProvable, 1), pushed)
  }

  /** A -> B */
  function ReadIfThen(code: Codes, pc: nat, b: Building, pushed: nat): (r: Option<Read>)
    requires pc <= |code|
    ensures r.Some? ==> pc < r.value.pc <= |code|
    decreases |code| - pc, 1
  {
    var x := DecompileBody(code, pc + 1, Some(C_CUT), None, b);
    if x.None? then None
    else
      var y := DecompileBody(code, x.value.pc + 2, Some(C_END), None, x.value.b);
      if y.None? || y.value.pc + 1 > |code| then None
      else Called(y.value.pc + 1, y.value.b, Functor(Arrow, 2), pushed)
  }

  /** A -> B ; C and A *-> B ; C */
  function ReadIfThenElse(code: Codes, pc: nat, b: Building, pushed: nat, cut: Opcode, f: Functor): (r: Option<Read>)
    requires pc <= |code|
    ensures r.Some? ==> pc < r.value.pc <= |code|
    decreases |code| - pc, 1
  {
    var j := Number(code, pc + 1);
    if j.None? then None
    else
      var x := DecompileBody(code, pc + 2, Some(cut), None, b);
      if x.None? then None
      else
        var y := DecompileBody(code, x.value.pc + 2, None, Some(pc + 2 + j.value), x.value.b);
        if y.None? then None
        else
          var c := Build(y.value.b, f);
          if c.None? then None
          else
            var z := ToJump(code, y.value.pc - 1, c.value);
            if z.None? then None else Called(z.value.pc, z.value.b, Functor(Semicolon, 2), pushed)
  }
}
