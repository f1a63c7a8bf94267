/** The meaning of control: by direct evaluation of a body, and by the instructions that it is
    compiled to (pl-comp.c, compileBody(); pl-wam.c, C_OR to C_FAIL). */
module Control {
  import opened Clauses
  import opened Decompiler
  import opened Bodies
  import opened BodyDecompiler

  /** The bindings of all variables, as far as control can tell them apart. */
  type Store = int

  /** What a goal does in a store: the stores that it succeeds with, in order. */
  type Solver = (Term, Store) -> seq<Store>

  /** What a body does: its solutions in order, and whether it cut the alternatives of the
      clause.  Wrong: an instruction met a state that it is not for. */
  datatype Answers = Answers(sols: seq<Store>, cut: bool) | Wrong

  const CUT := Atom(Cut)

  // ---------- direct evaluation

  /** How a cut in the condition of a -> without an alternative is read: as the standard says, or
      as the code does, which keeps the oldest choice point of the condition. */
  datatype Reading = Standard | Compiled

  /** The solutions of a condition as the code finds them.  Those of a group have the same oldest
      choice point, which goes on with the next group; the last one has none. */
  datatype Found = Found(groups: seq<seq<Store>>, last: Option<Store>)

  function First(f: Found): Option<Store>
    decreases |f.groups|
  {
    if f.groups == [] then f.last
    else if f.groups[0] != [] then Some(f.groups[0][0])
    else First(f.(groups := f.groups[1..]))
  }

  /** B after each solution of A, until a cut. */
  function Each(t: Term, sols: seq<Store>, cut: bool, solve: Solver, how: Reading): (r: Answers)
    requires Proper(t)
    ensures r.Answers?
    decreases t, 1, |sols|
  {
    if sols == [] then Answers([], cut)
    else
      var r := Eval(t, sols[0], solve, how);
      if r.cut then r
      else
        var rest := Each(t, sols[1..], cut, solve, how);
        Answers(r.sols + rest.sols, rest.cut)
  }

  /** The solutions of a body, after ISO/IEC 13211-1, section 7.8 (and 8.15.1 for \+).  A cut in a
      condition is local to the condition. */
  function Eval(t: Term, s: Store, solve: Solver, how: Reading): (r: Answers)
    requires Proper(t)
    ensures r.Answers?
    decreases t, 0, 0
  {
    if IsTerm(t, Comma, 2) then
      var a := Eval(t.args[0], s, solve, how);
      Each(t.args[1], a.sols, a.cut, solve, how)
    else if IsOr(t) then
      if IsCondition(t.args[0]) then
        assert Proper(t.args[0]);
        var c := Eval(t.args[0].args[0], s, solve, how);
        if c.sols == [] then Eval(t.args[1], s, solve, how) else Eval(t.args[0].args[1], c.sols[0], solve, how)
      else
        var a := Eval(t.args[0], s, solve, how);
        if a.cut then a
        else
          var b := Eval(t.args[1], s, solve, how);
          Answers(a.sols + b.sols, b.cut)
    else if IsTerm(t, Arrow, 2) then
      var c := Chosen(t.args[0], s, solve, how);
      if c.None? then Answers([], false) else Eval(t.args[1], c.value, solve, how)
    else if IsTerm(t, NotProvable, 1) then
      if Eval(t.args[0], s, solve, how).sols == [] then Answers([s], false) else Answers([], false)
    else if t == CUT then Answers([s], true)
    else if t == Atom(True) then Answers([s], false)
    else if t == Atom(Fail) then Answers([], false)
    else Answers(solve(t, s), false)
  }

  /** The solution that the condition of a -> without an alternative goes on with. */
  function Chosen(t: Term, s: Store, solve: Solver, how: Reading): Option<Store>
    requires Proper(t)
    decreases t, 4, 0
  {
    if how.Compiled? then First(Find(t, s, solve))
    else
      var c := Eval(t, s, solve, how);
      if c.sols == [] then None else Some(c.sols[0])
  }

  /** B after each group of A.  A cut in B leaves the oldest choice point, and so the next group. */
  function EachGroup(t: Term, groups: seq<seq<Store>>, solve: Solver): (r: seq<seq<Store>>)
    requires Proper(t)
    ensures |r| == |groups|
    decreases t, 2, |groups|
  {
    if groups == [] then []
    else [Each(t, groups[0], false, solve, Compiled).sols] + EachGroup(t, groups[1..], solve)
  }

  /** The solutions of a goal: every one but the last leaves a choice point. */
  function OneByOne(sols: seq<Store>): Found
    decreases |sols|
  {
    if sols == [] then Found([], None)
    else if |sols| == 1 then Found([], Some(sols[0]))
    else
      var f := OneByOne(sols[1..]);
      Found([[sols[0]]] + f.groups, f.last)
  }

  /** The solutions of a condition of a -> without an alternative, or of a part of it, when
      there is no choice point since its C_MARK. */
  function Find(t: Term, s: Store, solve: Solver): Found
    requires Proper(t)
    decreases t, 3, 0
  {
    if IsTerm(t, Comma, 2) then
      var a := Find(t.args[0], s, solve);
      var groups := EachGroup(t.args[1], a.groups, solve);
      if a.last.None? then Found(groups, None)
      else
        var b := Find(t.args[1], a.last.value, solve);
        Found(groups + b.groups, b.last)
    else if IsOr(t) then
      if IsCondition(t.args[0]) then
        assert Proper(t.args[0]);
        var c := Eval(t.args[0].args[0], s, solve, Compiled);
        if c.sols == [] then Find(t.args[1], s, solve) else Find(t.args[0].args[1], c.sols[0], solve)
      else
        // C_OR has made the oldest choice point, which a cut in either part keeps
        var b := Find(t.args[1], s, solve);
        Found([Eval(t.args[0], s, solve, Compiled).sols] + b.groups, b.last)
    else if IsTerm(t, Arrow, 2) then
      var c := Chosen(t.args[0], s, solve, Compiled);
      if c.None? then Found([], None) else Find(t.args[1], c.value, solve)
    else if IsTerm(t, NotProvable, 1) then
      Found([], if Eval(t.args[0], s, solve, Compiled).sols == [] then Some(s) else None)
    else if t in {CUT, Atom(True)} then Found([], Some(s))
    else if t == Atom(Fail) then Found([], None)
    else OneByOne(solve(t, s))
  }

  /** No *->. */
  predicate Supported(t: Term)
    requires Proper(t)
    decreases t
  {
    if IsTerm(t, Comma, 2) || IsTerm(t, Arrow, 2) then Supported(t.args[0]) && Supported(t.args[1])
    else if IsOr(t) then
      if IsCondition(t.args[0]) then
        assert Proper(t.args[0]);
        IsTerm(t.args[0], Arrow, 2) && Supported(t.args[0].args[0]) && Supported(t.args[0].args[1]) && Supported(t.args[1])
      else Supported(t.args[0]) && Supported(t.args[1])
    else if IsTerm(t, NotProvable, 1) then Supported(t.args[0])
    else true
  }

  // ---------- the instructions

  /** What happens on failure for each number of choice points, from none on. */
  type Failures = ks: seq<Answers> | |ks| > 0 witness [Wrong]

  /** The marks of the conditions that are not decided yet, and the number of choice points there
      were when they were made (the pointer BFR). */
  type Marks = map<int, nat>

  predicate Innermost(m: Marks, v: int) {
    v in m && forall u :: u in m ==> m[u] <= m[v]
  }

  /** The code of a clause, and what the goals do. */
  datatype Program = Program(code: Codes, solve: Solver)

  const EMPTY := Building([], [])

  /** No choice points: the clause has cut the older ones. */
  const NOCHOICE: Failures := [Answers([], true)]

  predicate IsCall(op: Opcode) {
    op in {I_CALL, I_USERCALL0, I_USERCALLN, I_APPLY, I_CUT_BLOCK, B_EXIT, B_THROW, I_CATCH, I_CALL_FV0, I_CALL_FV1, I_CALL_FV2}
  }

  function Top(ks: Failures): Answers {
    ks[|ks| - 1]
  }

  function Emit(sols: seq<Store>, k: Answers): Answers {
    if k.Wrong? then Wrong else Answers(sols + k.sols, k.cut)
  }

  /** The goal that the call at pc calls, and where it continues. */
  function Goal(code: Codes, pc: nat, b: Building): (r: Option<(Term, nat)>)
    requires pc < |code|
    ensures r.Some? ==> pc < r.value.1 <= |code|
  {
    var g := SubGoal(code, pc, b, 0);
    if g.None? || |g.value.b.done| != 1 then None else Some((g.value.b.done[0], g.value.pc))
  }

  /** The operand of the instruction at pc. */
  function Operand(code: Codes, pc: nat): Option<nat> {
    Number(code, pc + 1)
  }

  /** The choice points that C_LCUT keeps: the older ones, and the oldest since the mark. */
  function KeepOldest(ks: Failures, h: nat): Failures
    requires h < |ks|
  {
    if h + 1 == |ks| then ks else ks[..h + 2]
  }

  /** What happens from pc on: b is the part of the goal that was built so far, and ks is what
      happens on failure, that is, what the choice points hold. */
  function Act(p: Program, pc: nat, b: Building, s: Store, m: Marks, ks: Failures): Answers
    decreases |p.code| - pc, 1, 0
  {
    if pc >= |p.code| || !p.code[pc].Op? then Wrong
    else
      var op := p.code[pc].op;
      if op == I_EXIT then Emit([s], Top(ks))
      else if op in {I_TRUE, C_END} then Act(p, pc + 1, EMPTY, s, m, ks)
      else if op in {I_FAIL, C_FAIL} then Top(ks)
      else if op == I_CUT then Act(p, pc + 1, EMPTY, s, map[], NOCHOICE)
      else if op == C_VAR then Act(p, pc + 2, b, s, m, ks)
      else if op == C_JMP then
        var j := Operand(p.code, pc);
        if j.None? then Wrong else Act(p, pc + 2 + j.value, EMPTY, s, m, ks)
      else if op == C_OR then
        var j := Operand(p.code, pc);
        if j.None? then Wrong
        else Act(p, pc + 2, EMPTY, s, m, ks + [Act(p, pc + 2 + j.value, EMPTY, s, m, ks)])
      else if op == C_MARK then
        var v := Operand(p.code, pc);
        if v.None? || v.value in m then Wrong else Act(p, pc + 2, EMPTY, s, m[v.value := |ks| - 1], ks)
      else if op in {C_IFTHENELSE, C_NOT} then
        var v, j := Operand(p.code, pc), Number(p.code, pc + 2);
        if v.None? || j.None? || v.value in m then Wrong
        else Act(p, pc + 3, EMPTY, s, m[v.value := |ks| - 1], ks + [Act(p, pc + 3 + j.value, EMPTY, s, m, ks)])
      else if op == C_CUT then
        var v := Operand(p.code, pc);
        if v.None? || !Innermost(m, v.value) || m[v.value] >= |ks| then Wrong
        else Act(p, pc + 2, EMPTY, s, m - {v.value}, ks[..m[v.value] + 1])
      else if op == C_LCUT then
        var v := Operand(p.code, pc);
        if v.None? || !Innermost(m, v.value) || m[v.value] >= |ks| then Wrong
        else Act(p, pc + 2, EMPTY, s, m, KeepOldest(ks, m[v.value]))
      else if op == I_DEPART then
        var g := Goal(p.code, pc, b);
        if g.None? then Wrong
        else
          // the last call: its solutions are those of the clause, whether the frame is kept or not
          var last := Emit(p.solve(g.value.0, s), Top(ks));
          if Follow(p, g.value.1, p.solve(g.value.0, s), m, ks) == last then last else Wrong
      else if IsCall(op) then
        var g := Goal(p.code, pc, b);
        if g.None? then Wrong else Follow(p, g.value.1, p.solve(g.value.0, s), m, ks)
      else
        var r := Argument(p.code, pc, b, 0);
        if r.None? then Wrong else Act(p, r.value.pc, r.value.b, s, m, ks)
  }

  /** The code from pc on for each of the stores in turn: with more than one there is a choice
      point. */
  function Follow(p: Program, pc: nat, sols: seq<Store>, m: Marks, ks: Failures): Answers
    decreases |p.code| - pc, 2, |sols|
  {
    if sols == [] then Top(ks)
    else if |sols| == 1 then Act(p, pc, EMPTY, sols[0], m, ks)
    else Act(p, pc, EMPTY, sols[0], m, ks + [Follow(p, pc, sols[1..], m, ks)])
  }
}
