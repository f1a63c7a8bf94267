/** The machine that runs the control instructions, with its choice points and the frame slots
    that hold marks (pl-wam.c, newChoice(), C_OR to C_FAIL and backtracking). */
module Machine {
  import opened Clauses
  import opened Decompiler
  import opened BodyDecompiler
  import opened Control

  /** A choice point: what is older than the clause, an alternative in its code (CHP_JUMP), or
      more solutions of a goal and the place where the goal continues. */
  datatype Choice = Older | Jump(pc: nat, store: Store) | Redo(pc: nat, rest: seq<Store>)

  /** The slots of marks hold the number of choice points there were (the pointer BFR).  They
      are not restored on backtracking. */
  type Slots = Marks

  datatype State =
    | Running(pc: nat, b: Building, store: Store, slots: Slots, stack: seq<Choice>, out: seq<Store>)
    | Done(out: seq<Store>, cut: bool)
    | Stuck

  function Backtrack(slots: Slots, stack: seq<Choice>, out: seq<Store>): State {
    if stack == [] then Done(out, true)
    else
      var older := stack[..|stack| - 1];
      match stack[|stack| - 1]
      case Older => Done(out, false)
      case Jump(pc, s) => Running(pc, EMPTY, s, slots, older, out)
      case Redo(pc, rest) => Continue(pc, rest, slots, older, out)
  }

  /** A goal that has these solutions left: the first one, and a choice point if there are more. */
  function Continue(pc: nat, sols: seq<Store>, slots: Slots, stack: seq<Choice>, out: seq<Store>): State {
    if sols == [] then Stuck
    else Running(pc, EMPTY, sols[0], slots, if |sols| == 1 then stack else stack + [Redo(pc, sols[1..])], out)
  }

  function Call(pc: nat, sols: seq<Store>, slots: Slots, stack: seq<Choice>, out: seq<Store>): State {
    if sols == [] then Backtrack(slots, stack, out) else Continue(pc, sols, slots, stack, out)
  }

  /** One instruction.  After a solution the machine backtracks for the next one. */
  function Execute(p: Program, pc: nat, b: Building, s: Store, slots: Slots, stack: seq<Choice>, out: seq<Store>): State {
    if pc >= |p.code| || !p.code[pc].Op? then Stuck
    else
      var op := p.code[pc].op;
      if op == I_EXIT then Backtrack(slots, stack, out + [s])
      else if op in {I_TRUE, C_END} then Running(pc + 1, EMPTY, s, slots, stack, out)
      else if op in {I_FAIL, C_FAIL} then Backtrack(slots, stack, out)
      else if op == I_CUT then Running(pc + 1, EMPTY, s, slots, [], out)
      else if op == C_VAR then Running(pc + 2, b, s, slots, stack, out)
      else if op == C_JMP then
        var j := Operand(p.code, pc);
        if j.None? then Stuck else Running(pc + 2 + j.value, EMPTY, s, slots, stack, out)
      else if op == C_OR then
        var j := Operand(p.code, pc);
        if j.None? then Stuck else Running(pc + 2, EMPTY, s, slots, stack + [Jump(pc + 2 + j.value, s)], out)
      else if op == C_MARK then
        var v := Operand(p.code, pc);
        if v.None? then Stuck else Running(pc + 2, EMPTY, s, slots[v.value := |stack|], stack, out)
      else if op in {C_IFTHENELSE, C_NOT} then
        var v, j := Operand(p.code, pc), Number(p.code, pc + 2);
        if v.None? || j.None? then Stuck
        else Running(pc + 3, EMPTY, s, slots[v.value := |stack|], stack + [Jump(pc + 3 + j.value, s)], out)
      else if op == C_CUT then
        var v := Operand(p.code, pc);
        if v.None? || v.value !in slots || slots[v.value] > |stack| then Stuck
        else Running(pc + 2, EMPTY, s, slots, stack[..slots[v.value]], out)
      else if op == C_LCUT then
        var v := Operand(p.code, pc);
        if v.None? || v.value !in slots || slots[v.value] > |stack| then Stuck
        else Running(pc + 2, EMPTY, s, slots, if |stack| == slots[v.value] then stack else stack[..slots[v.value] + 1], out)
      else if op == I_DEPART && stack == [] then
        // no choice points: the goal takes the place of the clause
        var g := Goal(p.code, pc, b);
        if g.None? then Stuck else Backtrack(slots, stack, out + p.solve(g.value.0, s))
      else if op == I_DEPART || IsCall(op) then
        var g := Goal(p.code, pc, b);
        if g.None? then Stuck else Call(g.value.1, p.solve(g.value.0, s), slots, stack, out)
      else
        var r := Argument(p.code, pc, b, 0);
        if r.None? then Stuck else Running(r.value.pc, r.value.b, s, slots, stack, out)
  }

  /** n instructions. */
  function Iterate(p: Program, st: State, n: nat): State
    decreases n
  {
    if n == 0 || !st.Running? then st
    else Iterate(p, Execute(p, st.pc, st.b, st.store, st.slots, st.stack, st.out), n - 1)
  }

  // ---------- the machine does what the instructions mean

  /** From st, the machine comes to an end with the answers r after those in out. */
  ghost predicate Leads(p: Program, st: State, out: seq<Store>, r: Answers) {
    r.Answers? ==> exists n: nat :: Iterate(p, st, n) == Done(out + r.sols, r.cut)
  }

  /** The slots hold the marks that are below height i. */
  predicate Stored(o: Slots, m: Marks, i: int) {
    forall u :: u in m && m[u] < i ==> u in o && o[u] == m[u]
  }

  /** Failure with the oldest i choice points gives the answers r, whatever has happened to the
      slots of marks that were made after them. */
  ghost predicate FailsTo(p: Program, stack: seq<Choice>, i: nat, m: Marks, r: Answers)
    requires i <= |stack|
  {
    forall o: Slots, out: seq<Store> :: Stored(o, m, i) ==> Leads(p, Backtrack(o, stack[..i], out), out, r)
  }

  /** The choice points stand for the failures ks, and the slots hold the marks m. */
  ghost predicate Stands(p: Program, stack: seq<Choice>, slots: Slots, m: Marks, ks: Failures) {
    && |ks| == |stack| + 1
    && Stored(slots, m, |ks|) && (forall u :: u in m ==> m[u] <= |stack|)
    && forall i: nat :: i <= |stack| ==> FailsTo(p, stack, i, m, ks[i])
  }
}
