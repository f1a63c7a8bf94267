/** The instructions for arguments, and what they do to the stacks (pl-wam.c, H_CONST to
    I_POPF). */
module ArgumentCode {
  import opened Clauses
  import opened Decompiler
  import opened Bindings
  import opened ArgumentRoundTrip

  datatype Instruction =
    | HeadVoid | HeadConst(value: Term) | HeadVar(i: nat) | HeadFirst(i: nat) | HeadOpen(functor: Functor, right: bool)
    | BodyVoid | BodyConst(value: Term) | BodyVar(i: nat) | BodyFirst(i: nat) | BodyOpen(functor: Functor, right: bool)
    | BodyArgVar(i: nat) | BodyArgFirst(i: nat) | Popf

  /** An instruction and its length. */
  datatype Decoded = Decoded(instruction: Instruction, size: nat)

  function Indexed(x: Codes, f: nat -> Instruction): Option<Decoded> {
    var i := Number(x, 1);
    if i.None? then None else Some(Decoded(f(i.value), 2))
  }

  function IntegerOf(x: Codes): Option<Term> {
    if |x| > 1 && x[1].Num? then Some(Big(x[1].n)) else None
  }

  function ConstantOf(x: Codes): Option<Term> {
    if |x| > 1 && x[1].Constant? then Some(x[1].value) else None
  }

  function FloatOf(x: Codes): Option<Term> {
    if |x| > 2 && x[1].Num? && x[2].Num? then Some(Float(x[1].n, x[2].n)) else None
  }

  function TextOf(x: Codes): (r: Option<Term>)
    ensures r.Some? ==> r.value.Text?
  {
    var n := Number(x, 1);
    if n.None? || !AllData(x, 2, n.value) then None else Some(Text(Words(x, 2, n.value)))
  }

  function TextSize(x: Codes): nat {
    if TextOf(x).Some? then 2 + |TextOf(x).value.words| else 0
  }

  function Const(t: Option<Term>, size: nat, body: bool): Option<Decoded> {
    if t.None? then None else Some(Decoded(if body then BodyConst(t.value) else HeadConst(t.value), size))
  }

  function Opened(x: Codes, body: bool, right: bool): Option<Decoded> {
    if |x| > 1 && x[1].Func? then
      Some(Decoded(if body then BodyOpen(x[1].functor, right) else HeadOpen(x[1].functor, right), 2))
    else None
  }

  /** The first instruction of x, if it is one for arguments. */
  function Decode(x: Codes): (r: Option<Decoded>)
  {
    if x == [] || !x[0].Op? then None
    else
      match x[0].op
      case H_VOID => Some(Decoded(HeadVoid, 1))
      case H_VAR => Indexed(x, (i: nat) => HeadVar(i))
      case H_FIRSTVAR => Indexed(x, (i: nat) => HeadFirst(i))
      case H_NIL => Some(Decoded(HeadConst(Atom(Nil)), 1))
      case H_CONST => Const(ConstantOf(x), 2, false)
      case H_INTEGER => Const(IntegerOf(x), 2, false)
      case H_FLOAT => Const(FloatOf(x), 3, false)
      case H_INDIRECT => Const(TextOf(x), TextSize(x), false)
      case H_FUNCTOR => Opened(x, false, false)
      case H_RFUNCTOR => Opened(x, false, true)
      case H_LIST => Some(Decoded(HeadOpen(DOT, false), 1))
      case H_RLIST => Some(Decoded(HeadOpen(DOT, true), 1))
      case B_VOID => Some(Decoded(BodyVoid, 1))
      case B_VAR0 => Some(Decoded(BodyVar(0), 1))
      case B_VAR1 => Some(Decoded(BodyVar(1), 1))
      case B_VAR2 => Some(Decoded(BodyVar(2), 1))
      case B_VAR => Indexed(x, (i: nat) => BodyVar(i))
      case B_FIRSTVAR => Indexed(x, (i: nat) => BodyFirst(i))
      case B_ARGVAR => Indexed(x, (i: nat) => BodyArgVar(i))
      case B_ARGFIRSTVAR => Indexed(x, (i: nat) => BodyArgFirst(i))
      case B_NIL => Some(Decoded(BodyConst(Atom(Nil)), 1))
      case B_CONST => Const(ConstantOf(x), 2, true)
      case B_INTEGER => Const(IntegerOf(x), 2, true)
      case B_FLOAT => Const(FloatOf(x), 3, true)
      case B_INDIRECT => Const(TextOf(x), TextSize(x), true)
      case B_FUNCTOR => Opened(x, true, false)
      case B_RFUNCTOR => Opened(x, true, true)
      case B_LIST => Some(Decoded(BodyOpen(DOT, false), 1))
      case B_RLIST => Some(Decoded(BodyOpen(DOT, true), 1))
      case I_POPF => Some(Decoded(Popf, 1))
      case _ => None
  }

  // ---------- execution

  /** The cells, the top of the global stack, ARGP, the argument stack, and the frame of the
      clause. */
  datatype State = State(h: Cells, gtop: nat, argp: Addr, stack: seq<Addr>, fr: nat)

  /** Stuck: the instruction met cells that it is not for. */
  datatype Outcome = Done(state: State) | Fails | Stuck

  /** General unification: None if it fails. */
  type Unifier = (Cells, Addr, Addr) -> Option<Cells>

  function Advance(m: State, h: Cells): Outcome {
    Done(m.(h := h, argp := After(m.argp)))
  }

  /** New variables. */
  function Fresh(g: nat, n: nat): (r: Cells)
    ensures forall a :: a in r <==> a.Global? && g <= a.i < g + n
    ensures forall a :: a in r ==> r[a] == Unbound
  {
    if n == 0 then map[] else Fresh(g, n - 1)[Global(g + n - 1) := Unbound]
  }

  /** A constant in the head. */
  function MatchConst(m: State, t: Term): Outcome {
    if m.argp !in m.h then Stuck
    else
      var k := Deref(m.h, m.argp);
      if k !in m.h then Stuck
      else
        match m.h[k]
        case Unbound => Advance(m, m.h[k := Atomic(t)])
        case Atomic(v) => if v == t then Advance(m, m.h) else Fails
        case Compound(_, _) => Fails
        case Ref(_) => Stuck
  }

  /** A compound term in the head: a variable gets a new term whose arguments are variables. */
  function MatchOpen(m: State, f: Functor, right: bool): Outcome {
    if m.argp !in m.h then Stuck
    else
      var k, stack := Deref(m.h, m.argp), if right then m.stack else m.stack + [After(m.argp)];
      if k !in m.h then Stuck
      else
        match m.h[k]
        case Unbound => Done(State(m.h[k := Compound(f, m.gtop)] + Fresh(m.gtop, f.arity), m.gtop + f.arity, Global(m.gtop), stack, m.fr))
        case Compound(g, b) => if g == f then Done(State(m.h, m.gtop, Global(b), stack, m.fr)) else Fails
        case Atomic(_) => Fails
        case Ref(_) => Stuck
  }

  /** The first occurrence of a variable in the head: its slot is not initialised yet. */
  function MatchFirst(m: State, i: nat): Outcome {
    var k := Local(m.fr + i);
    if m.argp !in m.h || k in m.h || !Below(m.argp, k) then Stuck
    else Advance(m, m.h[k := if m.h[m.argp].Unbound? then Ref(m.argp) else m.h[m.argp]])
  }

  function MatchVar(m: State, i: nat, u: Unifier): Outcome {
    var k := Local(m.fr + i);
    if m.argp !in m.h || k !in m.h then Stuck
    else
      var r := u(m.h, k, m.argp);
      if r.None? then Fails else Advance(m, r.value)
  }

  /** ARGP is at a cell that is not initialised, below the top if it is on the global stack. */
  predicate Writes(m: State) {
    m.argp !in m.h && (m.argp.Global? ==> m.argp.i < m.gtop)
  }

  function Write(m: State, c: Content): Outcome {
    if Writes(m) then Advance(m, m.h[m.argp := c]) else Stuck
  }

  /** The arguments of a new term are not initialised. */
  function WriteOpen(m: State, f: Functor, right: bool): Outcome {
    if !Writes(m) then Stuck
    else
      var stack := if right then m.stack else m.stack + [After(m.argp)];
      Done(State(m.h[m.argp := Compound(f, m.gtop)], m.gtop + f.arity, Global(m.gtop), stack, m.fr))
  }

  /** A copy of a variable, or a reference to it if it is unbound: linkVal(). */
  function WriteVar(m: State, i: nat): Outcome {
    var k := Deref(m.h, Local(m.fr + i));
    if k !in m.h then Stuck
    else if !m.h[k].Unbound? then Write(m, m.h[k])
    else if Below(k, m.argp) then Write(m, Ref(k))
    else Stuck
  }

  /** The same below the top of a term: an unbound slot of a frame becomes the reference. */
  function WriteArgVar(m: State, i: nat): Outcome {
    var k := Deref(m.h, Local(m.fr + i));
    if k !in m.h || !Writes(m) then Stuck
    else if !m.h[k].Unbound? then Write(m, m.h[k])
    else if Below(m.argp, k) then Advance(m, m.h[m.argp := Unbound][k := Ref(m.argp)])
    else if k.Global? then Write(m, Ref(k))
    else Stuck
  }

  /** The first occurrence of a variable in the body: a reference to its slot, */
  function WriteFirst(m: State, i: nat): Outcome {
    var k := Local(m.fr + i);
    if k in m.h || !Writes(m) || !Below(k, m.argp) then Stuck else Advance(m, m.h[k := Unbound][m.argp := Ref(k)])
  }

  /** or, below the top of a term, a reference from its slot. */
  function WriteArgFirst(m: State, i: nat): Outcome {
    var k := Local(m.fr + i);
    if k in m.h || !Writes(m) || !m.argp.Global? then Stuck else Advance(m, m.h[m.argp := Unbound][k := Ref(m.argp)])
  }

  function Perform(i: Instruction, m: State, u: Unifier): Outcome {
    match i
    case HeadVoid => Advance(m, m.h)
    case HeadConst(t) => MatchConst(m, t)
    case HeadVar(n) => MatchVar(m, n, u)
    case HeadFirst(n) => MatchFirst(m, n)
    case HeadOpen(f, right) => MatchOpen(m, f, right)
    case BodyVoid => Write(m, Unbound)
    case BodyConst(t) => Write(m, Atomic(t))
    case BodyVar(n) => WriteVar(m, n)
    case BodyFirst(n) => WriteFirst(m, n)
    case BodyOpen(f, right) => WriteOpen(m, f, right)
    case BodyArgVar(n) => WriteArgVar(m, n)
    case BodyArgFirst(n) => WriteArgFirst(m, n)
    case Popf => if m.stack == [] then Stuck else Done(m.(argp := m.stack[|m.stack| - 1], stack := m.stack[..|m.stack| - 1]))
  }

  lemma DecodedSize(x: Codes)
    requires Decode(x).Some?
    ensures 0 < Decode(x).value.size <= |x|
  {
  }

  /** All instructions of x. */
  function Exec(x: Codes, m: State, u: Unifier): Outcome
    decreases |x|
  {
    if x == [] then Done(m)
    else
      var d := Decode(x);
      if d.None? then Stuck
      else
        DecodedSize(x);
        var o := Perform(d.value.instruction, m, u);
        if o.Done? then Exec(x[d.value.size..], o.state, u) else o
  }

  lemma {:induction false} DecodePrefix(x: Codes, y: Codes)
    requires Decode(x).Some?
    ensures Decode(x + y) == Decode(x)
  {
    DecodedSize(x);
    var z := x + y;
    assert z[0] == x[0] && (|x| > 1 ==> z[1] == x[1]) && (|x| > 2 ==> z[2] == x[2]);
    assert Number(x, 1).Some? ==> Number(z, 1) == Number(x, 1);
    if TextOf(x).Some? {
      var n := Number(x, 1).value;
      assert AllData(z, 2, n) by {
        forall i | 2 <= i < 2 + n
          ensures z[i] == x[i]
        {
        }
      }
      assert Words(z, 2, n) == Words(x, 2, n);
    }
  }

  lemma {:induction false} ExecJoin(x: Codes, y: Codes, m: State, u: Unifier)
    requires !Exec(x, m, u).Stuck?
    ensures Exec(x + y, m, u) == if Exec(x, m, u).Done? then Exec(y, Exec(x, m, u).state, u) else Exec(x, m, u)
    decreases |x|
  {
    hide Decode, Perform;
    if x == [] {
      assert x + y == y;
    } else {
      DecodePrefix(x, y);
      DecodedSize(x);
      var d := Decode(x).value;
      var o := Perform(d.instruction, m, u);
      assert (x + y)[d.size..] == x[d.size..] + y;
      if o.Done? {
        ExecJoin(x[d.size..], y, o.state, u);
      }
    }
  }

  lemma {:induction false} ExecOne(x: Codes, m: State, u: Unifier)
    requires Decode(x).Some? && Decode(x).value.size == |x|
    ensures Exec(x, m, u) == Perform(Decode(x).value.instruction, m, u)
  {
    DecodedSize(x);
    hide Decode, Perform;
    var o := Perform(Decode(x).value.instruction, m, u);
    assert x[|x|..] == [];
    if o.Done? {
      assert Exec(x[|x|..], o.state, u) == o;
    }
  }

  const HEADENDS := {I_ENTER, I_EXITFACT}
  const CALLS := {I_CALL, I_DEPART, I_USERCALL0, I_USERCALLN, I_APPLY, I_CUT_BLOCK, B_EXIT, B_THROW}

  /** The instructions of x up to one of these. */
  function RunTo(x: Codes, ends: set<Opcode>, m: State, u: Unifier): Outcome
    decreases |x|
  {
    if x == [] then Stuck
    else if x[0].Op? && x[0].op in ends then Done(m)
    else
      var d := Decode(x);
      if d.None? then Stuck
      else
        DecodedSize(x);
        var o := Perform(d.value.instruction, m, u);
        if o.Done? then RunTo(x[d.value.size..], ends, o.state, u) else o
  }

  lemma NotAnEnd(x: Codes)
    requires Decode(x).Some?
    ensures x[0].Op? && x[0].op !in HEADENDS && x[0].op !in CALLS
  {
  }

  lemma {:induction false} RunsTo(x: Codes, ends: set<Opcode>, end: Opcode, y: Codes, m: State, u: Unifier)
    requires ends in {HEADENDS, CALLS} && end in ends && !Exec(x, m, u).Stuck?
    ensures RunTo(x + ([Op(end)] + y), ends, m, u) == Exec(x, m, u)
    decreases |x|
  {
    hide Decode, Perform;
    var z := [Op(end)] + y;
    if x == [] {
      assert x + z == z;
    } else {
      DecodePrefix(x, z);
      DecodedSize(x);
      NotAnEnd(x);
      var d := Decode(x).value;
      var o := Perform(d.instruction, m, u);
      assert (x + z)[0] == x[0] && (x + z)[d.size..] == x[d.size..] + z;
      if o.Done? {
        RunsTo(x[d.size..], ends, end, y, o.state, u);
      }
    }
  }

  // ---------- the code of arguments

  predicate IsConstant(t: Term) {
    t.Atom? || t.Small? || t.Big? || t.Float? || t.Text?
  }

  lemma {:induction false} ConstantCode(t: Term, w: Where, arity: nat, used: set<nat>)
    requires Proper(t) && IsConstant(t)
    ensures var x := CompileArgument(t, w, arity, used).code;
            Decode(x) == Some(Decoded(if w.body then BodyConst(t) else HeadConst(t), |x|))
  {
    var x := CompileArgument(t, w, arity, used).code;
    if t.Text? {
      var start := [Op(if w.body then B_INDIRECT else H_INDIRECT), Num(|t.words|)];
      assert x == start + Data(t.words);
      assert AllData(x, 2, |t.words|) && Words(x, 2, |t.words|) == t.words;
    }
  }

  lemma OpeningRuns(f: Functor, w: Where, m: State, u: Unifier)
    ensures Exec(Opening(f, w), m, u) == if w.body then WriteOpen(m, f, w.right) else MatchOpen(m, f, w.right)
  {
    hide WriteOpen, MatchOpen;
    ExecOne(Opening(f, w), m, u);
  }

  lemma EndingRuns(w: Where, m: State, u: Unifier)
    requires !w.right ==> m.stack != []
    ensures Exec(Ending(w), m, u) ==
            if w.right then Done(m) else Done(m.(argp := m.stack[|m.stack| - 1], stack := m.stack[..|m.stack| - 1]))
  {
    if !w.right {
      ExecOne(Ending(w), m, u);
    }
  }

  lemma ExecNothing(m: State, u: Unifier)
    ensures Exec([], m, u) == Done(m)
  {
  }
}
