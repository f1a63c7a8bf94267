/** The machine with its choice points does what the instructions mean, and so runs compiled
    bodies as they are evaluated directly. */
module MachineMeaning {
  import opened Clauses
  import opened Decompiler
  import opened Bodies
  import opened BodyDecompiler
  import opened Control
  import opened ControlSteps
  import opened ControlMeaning
  import opened Machine
  import opened LocalCuts

  // ---------- what choice points and marks stand for

  lemma {:induction false} LeadsStep(p: Program, st: State, next: State, out: seq<Store>, r: Answers)
    requires st.Running? && next == Execute(p, st.pc, st.b, st.store, st.slots, st.stack, st.out) && Leads(p, next, out, r) == true
    ensures Leads(p, st, out, r) == true
  {
    hide Execute;
    if r.Answers? {
      var n: nat :| Iterate(p, next, n) == Done(out + r.sols, r.cut);
      assert Iterate(p, st, n + 1) == Done(out + r.sols, r.cut);
    }
  }

  /** Emitting solutions and then failing. */
  lemma EmitLeads(p: Program, st: State, out: seq<Store>, sols: seq<Store>, k: Answers)
    requires Leads(p, st, out + sols, k) == true
    ensures Leads(p, st, out, Emit(sols, k)) == true
  {
    hide Iterate;
    if k.Answers? {
      assert out + sols + k.sols == out + (sols + k.sols);
    }
  }

  lemma FailsToMore(p: Program, stack: seq<Choice>, i: nat, m: Marks, n: Marks, r: Answers)
    requires i <= |stack| && FailsTo(p, stack, i, m, r) == true && forall o: Slots :: Stored(o, n, i) ==> Stored(o, m, i)
    ensures FailsTo(p, stack, i, n, r) == true
  {
    hide Leads, Backtrack, Stored;
  }

  lemma FailsToPush(p: Program, stack: seq<Choice>, c: Choice, i: nat, m: Marks, r: Answers)
    requires i <= |stack|
    ensures FailsTo(p, stack + [c], i, m, r) <==> FailsTo(p, stack, i, m, r)
  {
    hide Leads, Backtrack, Stored;
    assert (stack + [c])[..i] == stack[..i];
  }

  lemma StandsPush(p: Program, stack: seq<Choice>, c: Choice, slots: Slots, m: Marks, ks: Failures, r: Answers)
    requires Stands(p, stack, slots, m, ks) == true && FailsTo(p, stack + [c], |stack| + 1, m, r) == true
    ensures Stands(p, stack + [c], slots, m, ks + [r]) == true
  {
    hide FailsTo;
    var new_, ls := stack + [c], ks + [r];
    forall i: nat | i <= |new_|
      ensures FailsTo(p, new_, i, m, ls[i]) == true
    {
      if i <= |stack| {
        FailsToPush(p, stack, c, i, m, ks[i]);
        assert FailsTo(p, stack, i, m, ks[i]);
      }
    }
  }

  /** C_MARK */
  lemma StandsMark(p: Program, stack: seq<Choice>, slots: Slots, m: Marks, ks: Failures, v: int)
    requires Stands(p, stack, slots, m, ks) == true && v !in m
    ensures Stands(p, stack, slots[v := |stack|], m[v := |stack|], ks) == true
  {
    hide FailsTo;
    var n := m[v := |stack|];
    forall i: nat | i <= |stack|
      ensures FailsTo(p, stack, i, n, ks[i]) == true
    {
      assert FailsTo(p, stack, i, m, ks[i]);
      FailsToMore(p, stack, i, m, n, ks[i]);
    }
  }

  /** C_IFTHENELSE and C_NOT */
  lemma StandsIf(p: Program, stack: seq<Choice>, c: Choice, slots: Slots, m: Marks, ks: Failures, v: int, r: Answers)
    requires Stands(p, stack, slots, m, ks) == true && v !in m && FailsTo(p, stack + [c], |stack| + 1, m, r) == true
    ensures Stands(p, stack + [c], slots[v := |stack|], m[v := |stack|], ks + [r]) == true
  {
    hide FailsTo, Stands;
    FailsToMore(p, stack + [c], |stack| + 1, m, m[v := |stack|], r);
    StandsMark(p, stack, slots, m, ks, v);
    StandsPush(p, stack, c, slots[v := |stack|], m[v := |stack|], ks, r);
  }

  /** The oldest h choice points, and marks that were made with no more. */
  lemma StandsCut(p: Program, stack: seq<Choice>, slots: Slots, m: Marks, n: Marks, ks: Failures, h: nat)
    requires Stands(p, stack, slots, m, ks) == true && h <= |stack| && n.Keys <= m.Keys
    requires forall u :: u in n ==> n[u] == m[u] && n[u] <= h
    requires forall u :: u in m && u !in n ==> m[u] >= h
    ensures Stands(p, stack[..h], slots, n, ks[..h + 1]) == true
  {
    hide FailsTo;
    var older, ls := stack[..h], ks[..h + 1];
    forall i: nat | i <= h
      ensures FailsTo(p, older, i, n, ls[i]) == true
    {
      assert FailsTo(p, stack, i, m, ks[i]);
      FailsToMore(p, stack, i, m, n, ks[i]);
      FailsToOlder(p, stack, h, i, n, ks[i]);
    }
  }

  lemma FailsToOlder(p: Program, stack: seq<Choice>, h: nat, i: nat, m: Marks, r: Answers)
    requires i <= h <= |stack|
    ensures FailsTo(p, stack[..h], i, m, r) <==> FailsTo(p, stack, i, m, r)
  {
    hide Leads, Backtrack, Stored;
    assert stack[..h][..i] == stack[..i];
  }

  lemma DoneLeads(p: Program, out: seq<Store>, cut: bool)
    ensures Leads(p, Done(out, cut), out, Answers([], cut)) == true
  {
    assert out + [] == out;
    assert Iterate(p, Done(out, cut), 0) == Done(out + [], cut);
  }

  /** What happens on failure when a clause begins. */
  function Start(older: seq<Choice>): Failures {
    if older == [] then NOCHOICE else NOCHOICE + [Answers([], false)]
  }

  /** The clause begins with the choice points that are older than it. */
  lemma StandsStart(p: Program, stack: seq<Choice>, slots: Slots)
    requires stack == [] || stack == [Older]
    ensures Stands(p, stack, slots, map[], Start(stack)) == true
  {
    var ks := Start(stack);
    forall i: nat | i <= |stack|
      ensures FailsTo(p, stack, i, map[], ks[i])
    {
      forall o: Slots, out: seq<Store>
        ensures Leads(p, Backtrack(o, stack[..i], out), out, ks[i])
      {
        DoneLeads(p, out, i == 0);
      }
    }
  }

  /** The choice points answer for the state when it fails. */
  lemma StandsFails(p: Program, stack: seq<Choice>, slots: Slots, m: Marks, ks: Failures, out: seq<Store>)
    requires Stands(p, stack, slots, m, ks) == true
    ensures Leads(p, Backtrack(slots, stack, out), out, Top(ks)) == true
  {
    hide Leads, Backtrack;
    assert FailsTo(p, stack, |stack|, m, ks[|stack|]);
    assert stack[..|stack|] == stack;
  }

  /** Other slots with the same marks. */
  lemma StandsOther(p: Program, stack: seq<Choice>, slots: Slots, o: Slots, m: Marks, ks: Failures)
    requires Stands(p, stack, slots, m, ks) == true && Stored(o, m, |stack| + 1)
    ensures Stands(p, stack, o, m, ks) == true
  {
    hide FailsTo;
  }

  // ---------- one instruction

  lemma {:induction false} ContinueRuns(p: Program, q: nat, sols: seq<Store>, m: Marks, ks: Failures, slots: Slots, stack: seq<Choice>, out: seq<Store>)
    requires Stands(p, stack, slots, m, ks) == true && sols != []
    ensures Leads(p, Continue(q, sols, slots, stack, out), out, Follow(p, q, sols, m, ks)) == true
    decreases |p.code| - q, 2, |sols|, 0
  {
    hide *;
    FollowStart(p, q, sols, m, ks);
    ContinueStart(q, sols, slots, stack, out);
    if |sols| == 1 {
      RunsTo(p, q, EMPTY, sols[0], m, ks, slots, stack, out);
    } else {
      RedoFails(p, q, sols[1..], m, ks, slots, stack);
      var r := Follow(p, q, sols[1..], m, ks);
      StandsPush(p, stack, Redo(q, sols[1..]), slots, m, ks, r);
      RunsTo(p, q, EMPTY, sols[0], m, ks + [r], slots, stack + [Redo(q, sols[1..])], out);
    }
  }

  lemma ContinueStart(q: nat, sols: seq<Store>, slots: Slots, stack: seq<Choice>, out: seq<Store>)
    requires sols != []
    ensures Continue(q, sols, slots, stack, out) ==
            Running(q, EMPTY, sols[0], slots, if |sols| == 1 then stack else stack + [Redo(q, sols[1..])], out)
  {
  }

  lemma BacktrackPushed(slots: Slots, stack: seq<Choice>, c: Choice, out: seq<Store>)
    ensures c.Redo? ==> Backtrack(slots, (stack + [c])[..|stack| + 1], out) == Continue(c.pc, c.rest, slots, stack, out)
    ensures c.Jump? ==> Backtrack(slots, (stack + [c])[..|stack| + 1], out) == Running(c.pc, EMPTY, c.store, slots, stack, out)
  {
    assert (stack + [c])[..|stack|] == stack && (stack + [c])[..|stack| + 1] == stack + [c];
  }

  /** A goal's remaining solutions on backtracking. */
  lemma {:induction false} RedoFails(p: Program, q: nat, rest: seq<Store>, m: Marks, ks: Failures, slots: Slots, stack: seq<Choice>)
    requires Stands(p, stack, slots, m, ks) == true && rest != []
    ensures FailsTo(p, stack + [Redo(q, rest)], |stack| + 1, m, Follow(p, q, rest, m, ks)) == true
    decreases |p.code| - q, 2, |rest|, 1
  {
    hide Leads, Backtrack, Follow, Stands, Continue, Stored;
    var h, all := |stack| + 1, (stack + [Redo(q, rest)])[..|stack| + 1];
    forall o: Slots, out: seq<Store> | Stored(o, m, h)
      ensures Leads(p, Backtrack(o, all, out), out, Follow(p, q, rest, m, ks))
    {
      StandsOther(p, stack, slots, o, m, ks);
      BacktrackPushed(o, stack, Redo(q, rest), out);
      ContinueRuns(p, q, rest, m, ks, o, stack, out);
    }
  }

  lemma {:induction false} JumpFails(p: Program, q: nat, s: Store, m: Marks, ks: Failures, slots: Slots, stack: seq<Choice>)
    requires Stands(p, stack, slots, m, ks) == true
    ensures FailsTo(p, stack + [Jump(q, s)], |stack| + 1, m, Act(p, q, EMPTY, s, m, ks)) == true
    decreases |p.code| - q, 2, 0
  {
    hide Leads, Backtrack, Act, Stands, Stored;
    var h, all := |stack| + 1, (stack + [Jump(q, s)])[..|stack| + 1];
    forall o: Slots, out: seq<Store> | Stored(o, m, h)
      ensures Leads(p, Backtrack(o, all, out), out, Act(p, q, EMPTY, s, m, ks))
    {
      StandsOther(p, stack, slots, o, m, ks);
      BacktrackPushed(o, stack, Jump(q, s), out);
      RunsTo(p, q, EMPTY, s, m, ks, o, stack, out);
    }
  }

  lemma WrongLeads(p: Program, st: State, out: seq<Store>)
    ensures Leads(p, st, out, Wrong) == true
  {
  }

  /** From an instruction on, the machine does what the instruction means. */
  lemma {:induction false} RunsTo(p: Program, pc: nat, b: Building, s: Store, m: Marks, ks: Failures, slots: Slots, stack: seq<Choice>, out: seq<Store>)
    requires Stands(p, stack, slots, m, ks) == true
    ensures Leads(p, Running(pc, b, s, slots, stack, out), out, Act(p, pc, b, s, m, ks)) == true
    decreases |p.code| - pc, 1, 1
  {
    hide Act, Stands, Leads, IsCall;
    WrongLeads(p, Running(pc, b, s, slots, stack, out), out);
    if pc >= |p.code| || !p.code[pc].Op? {
      NoCodeActs(p, pc, b, s, m, ks);
    } else if p.code[pc].op in {I_EXIT, I_FAIL, C_FAIL} {
      RunsEnd(p, pc, b, s, m, ks, slots, stack, out);
    } else if p.code[pc].op in {I_TRUE, C_END, I_CUT, C_VAR} {
      RunsOn(p, pc, b, s, m, ks, slots, stack, out);
    } else if p.code[pc].op == C_JMP {
      RunsJump(p, pc, b, s, m, ks, slots, stack, out);
    } else if p.code[pc].op == C_OR {
      RunsOr(p, pc, b, s, m, ks, slots, stack, out);
    } else if p.code[pc].op == C_MARK {
      RunsMark(p, pc, b, s, m, ks, slots, stack, out);
    } else if p.code[pc].op in {C_IFTHENELSE, C_NOT} {
      RunsIf(p, pc, b, s, m, ks, slots, stack, out);
    } else if p.code[pc].op == C_CUT {
      RunsCut(p, pc, b, s, m, ks, slots, stack, out);
    } else if p.code[pc].op == C_LCUT {
      RunsLocalCut(p, pc, b, s, m, ks, slots, stack, out);
    } else if p.code[pc].op == I_DEPART || IsCall(p.code[pc].op) {
      RunsCall(p, pc, b, s, m, ks, slots, stack, out);
    } else {
      RunsArgument(p, pc, b, s, m, ks, slots, stack, out);
    }
  }

  lemma {:induction false} RunsEnd(p: Program, pc: nat, b: Building, s: Store, m: Marks, ks: Failures, slots: Slots, stack: seq<Choice>, out: seq<Store>)
    requires Stands(p, stack, slots, m, ks) == true && IsCode(p, pc, {I_EXIT, I_FAIL, C_FAIL})
    ensures Leads(p, Running(pc, b, s, slots, stack, out), out, Act(p, pc, b, s, m, ks)) == true
  {
    hide Stands, Leads, Backtrack, Emit, Act, Goal, Argument, IsCall, Top;
    EndActs(p, pc, b, s, m, ks);
    var st := Running(pc, b, s, slots, stack, out);
    if p.code[pc].op == I_EXIT {
      StandsFails(p, stack, slots, m, ks, out + [s]);
      EmitLeads(p, Backtrack(slots, stack, out + [s]), out, [s], Top(ks));
      LeadsStep(p, st, Backtrack(slots, stack, out + [s]), out, Emit([s], Top(ks)));
    } else {
      StandsFails(p, stack, slots, m, ks, out);
      LeadsStep(p, st, Backtrack(slots, stack, out), out, Top(ks));
    }
  }

  lemma {:induction false} RunsOn(p: Program, pc: nat, b: Building, s: Store, m: Marks, ks: Failures, slots: Slots, stack: seq<Choice>, out: seq<Store>)
    requires Stands(p, stack, slots, m, ks) == true && IsCode(p, pc, {I_TRUE, C_END, I_CUT, C_VAR})
    ensures Leads(p, Running(pc, b, s, slots, stack, out), out, Act(p, pc, b, s, m, ks)) == true
    decreases |p.code| - pc, 1, 0
  {
    hide Stands, Leads, Act, Goal, Argument, IsCall;
    var st := Running(pc, b, s, slots, stack, out);
    var next := Execute(p, pc, b, s, slots, stack, out);
    if p.code[pc].op == I_CUT {
      ClauseCutActs(p, pc, b, s, m, ks);
      StandsStart(p, [], slots);
      RunsTo(p, pc + 1, EMPTY, s, map[], NOCHOICE, slots, [], out);
    } else if p.code[pc].op == C_VAR {
      VarActs(p, pc, b, s, m, ks);
      RunsTo(p, pc + 2, b, s, m, ks, slots, stack, out);
    } else {
      SkipActs(p, pc, b, s, m, ks);
      RunsTo(p, pc + 1, EMPTY, s, m, ks, slots, stack, out);
    }
    LeadsStep(p, st, next, out, Act(p, pc, b, s, m, ks));
  }

  lemma JumpExecutes(p: Program, pc: nat, b: Building, s: Store, slots: Slots, stack: seq<Choice>, out: seq<Store>)
    requires IsCode(p, pc, {C_JMP})
    ensures var j := Operand(p.code, pc);
            Execute(p, pc, b, s, slots, stack, out) == if j.None? then Stuck else Running(pc + 2 + j.value, EMPTY, s, slots, stack, out)
  {
    hide Goal, Argument, IsCall, Operand, Number;
  }

  lemma {:induction false} RunsJump(p: Program, pc: nat, b: Building, s: Store, m: Marks, ks: Failures, slots: Slots, stack: seq<Choice>, out: seq<Store>)
    requires Stands(p, stack, slots, m, ks) == true && IsCode(p, pc, {C_JMP}) && pc < |p.code|
    ensures Leads(p, Running(pc, b, s, slots, stack, out), out, Act(p, pc, b, s, m, ks)) == true
    decreases |p.code| - pc, 1, 0
  {
    hide *;
    JumpActs(p, pc, b, s, m, ks);
    JumpExecutes(p, pc, b, s, slots, stack, out);
    WrongLeads(p, Running(pc, b, s, slots, stack, out), out);
    var j := Operand(p.code, pc);
    if j.Some? {
      RunsTo(p, pc + 2 + j.value, EMPTY, s, m, ks, slots, stack, out);
      LeadsStep(p, Running(pc, b, s, slots, stack, out), Running(pc + 2 + j.value, EMPTY, s, slots, stack, out), out, Act(p, pc, b, s, m, ks));
    }
  }

  lemma OrExecutes(p: Program, pc: nat, b: Building, s: Store, slots: Slots, stack: seq<Choice>, out: seq<Store>)
    requires IsCode(p, pc, {C_OR})
    ensures var j := Operand(p.code, pc);
            Execute(p, pc, b, s, slots, stack, out) ==
            if j.None? then Stuck else Running(pc + 2, EMPTY, s, slots, stack + [Jump(pc + 2 + j.value, s)], out)
  {
    hide Goal, Argument, IsCall, Operand, Number;
  }

  lemma {:induction false} RunsOr(p: Program, pc: nat, b: Building, s: Store, m: Marks, ks: Failures, slots: Slots, stack: seq<Choice>, out: seq<Store>)
    requires Stands(p, stack, slots, m, ks) == true && IsCode(p, pc, {C_OR}) && pc < |p.code|
    ensures Leads(p, Running(pc, b, s, slots, stack, out), out, Act(p, pc, b, s, m, ks)) == true
    decreases |p.code| - pc, 1, 0
  {
    hide *;
    OrActs(p, pc, b, s, m, ks);
    OrExecutes(p, pc, b, s, slots, stack, out);
    WrongLeads(p, Running(pc, b, s, slots, stack, out), out);
    var j := Operand(p.code, pc);
    if j.Some? {
      var q := pc + 2 + j.value;
      var r := Act(p, q, EMPTY, s, m, ks);
      JumpFails(p, q, s, m, ks, slots, stack);
      StandsPush(p, stack, Jump(q, s), slots, m, ks, r);
      RunsTo(p, pc + 2, EMPTY, s, m, ks + [r], slots, stack + [Jump(q, s)], out);
      LeadsStep(p, Running(pc, b, s, slots, stack, out), Running(pc + 2, EMPTY, s, slots, stack + [Jump(q, s)], out), out, Act(p, pc, b, s, m, ks));
    }
  }

  lemma MarkExecutes(p: Program, pc: nat, b: Building, s: Store, slots: Slots, stack: seq<Choice>, out: seq<Store>)
    requires IsCode(p, pc, {C_MARK})
    ensures var v := Operand(p.code, pc);
            Execute(p, pc, b, s, slots, stack, out) ==
            if v.None? then Stuck else Running(pc + 2, EMPTY, s, slots[v.value := |stack|], stack, out)
  {
    hide Goal, Argument, IsCall, Operand, Number;
  }

  lemma {:induction false} RunsMark(p: Program, pc: nat, b: Building, s: Store, m: Marks, ks: Failures, slots: Slots, stack: seq<Choice>, out: seq<Store>)
    requires Stands(p, stack, slots, m, ks) == true && IsCode(p, pc, {C_MARK}) && pc < |p.code|
    ensures Leads(p, Running(pc, b, s, slots, stack, out), out, Act(p, pc, b, s, m, ks)) == true
    decreases |p.code| - pc, 1, 0
  {
    hide *;
    MarkActs(p, pc, b, s, m, ks);
    MarkExecutes(p, pc, b, s, slots, stack, out);
    WrongLeads(p, Running(pc, b, s, slots, stack, out), out);
    var v := Operand(p.code, pc);
    StandsHeight(p, stack, slots, m, ks);
    if v.Some? && v.value !in m {
      StandsMark(p, stack, slots, m, ks, v.value);
      RunsTo(p, pc + 2, EMPTY, s, m[v.value := |stack|], ks, slots[v.value := |stack|], stack, out);
      LeadsStep(p, Running(pc, b, s, slots, stack, out), Running(pc + 2, EMPTY, s, slots[v.value := |stack|], stack, out), out, Act(p, pc, b, s, m, ks));
    }
  }

  lemma IfExecutes(p: Program, pc: nat, b: Building, s: Store, slots: Slots, stack: seq<Choice>, out: seq<Store>)
    requires IsCode(p, pc, {C_IFTHENELSE, C_NOT})
    ensures var v, j := Operand(p.code, pc), Number(p.code, pc + 2);
            Execute(p, pc, b, s, slots, stack, out) ==
            if v.None? || j.None? then Stuck
            else Running(pc + 3, EMPTY, s, slots[v.value := |stack|], stack + [Jump(pc + 3 + j.value, s)], out)
  {
    hide Goal, Argument, IsCall, Operand, Number;
  }

  lemma {:induction false} RunsIf(p: Program, pc: nat, b: Building, s: Store, m: Marks, ks: Failures, slots: Slots, stack: seq<Choice>, out: seq<Store>)
    requires Stands(p, stack, slots, m, ks) == true && IsCode(p, pc, {C_IFTHENELSE, C_NOT}) && pc < |p.code|
    ensures Leads(p, Running(pc, b, s, slots, stack, out), out, Act(p, pc, b, s, m, ks)) == true
    decreases |p.code| - pc, 1, 0
  {
    hide *;
    IfActs(p, pc, b, s, m, ks);
    IfExecutes(p, pc, b, s, slots, stack, out);
    WrongLeads(p, Running(pc, b, s, slots, stack, out), out);
    var v, j := Operand(p.code, pc), Number(p.code, pc + 2);
    StandsHeight(p, stack, slots, m, ks);
    if v.Some? && j.Some? && v.value !in m {
      var q := pc + 3 + j.value;
      var r := Act(p, q, EMPTY, s, m, ks);
      JumpFails(p, q, s, m, ks, slots, stack);
      StandsIf(p, stack, Jump(q, s), slots, m, ks, v.value, r);
      RunsTo(p, pc + 3, EMPTY, s, m[v.value := |stack|], ks + [r], slots[v.value := |stack|], stack + [Jump(q, s)], out);
      LeadsStep(p, Running(pc, b, s, slots, stack, out), Running(pc + 3, EMPTY, s, slots[v.value := |stack|], stack + [Jump(q, s)], out), out,
                Act(p, pc, b, s, m, ks));
    }
  }

  lemma CutExecutes(p: Program, pc: nat, b: Building, s: Store, slots: Slots, stack: seq<Choice>, out: seq<Store>)
    requires IsCode(p, pc, {C_CUT})
    ensures var v := Operand(p.code, pc);
            Execute(p, pc, b, s, slots, stack, out) ==
            if v.None? || v.value !in slots || slots[v.value] > |stack| then Stuck
            else Running(pc + 2, EMPTY, s, slots, stack[..slots[v.value]], out)
  {
    hide Goal, Argument, IsCall, Operand, Number;
  }

  lemma {:induction false} RunsCut(p: Program, pc: nat, b: Building, s: Store, m: Marks, ks: Failures, slots: Slots, stack: seq<Choice>, out: seq<Store>)
    requires Stands(p, stack, slots, m, ks) == true && IsCode(p, pc, {C_CUT}) && pc < |p.code|
    ensures Leads(p, Running(pc, b, s, slots, stack, out), out, Act(p, pc, b, s, m, ks)) == true
    decreases |p.code| - pc, 1, 0
  {
    hide *;
    CutActs(p, pc, b, s, m, ks);
    CutExecutes(p, pc, b, s, slots, stack, out);
    WrongLeads(p, Running(pc, b, s, slots, stack, out), out);
    var v := Operand(p.code, pc);
    if v.Some? && Innermost(m, v.value) {
      MarkStored(p, stack, slots, m, ks, v.value);
      var h := m[v.value];
      StandsCut(p, stack, slots, m, m - {v.value}, ks, h);
      RunsTo(p, pc + 2, EMPTY, s, m - {v.value}, ks[..h + 1], slots, stack[..h], out);
      LeadsStep(p, Running(pc, b, s, slots, stack, out), Running(pc + 2, EMPTY, s, slots, stack[..h], out), out, Act(p, pc, b, s, m, ks));
    }
  }

  lemma LocalCutExecutes(p: Program, pc: nat, b: Building, s: Store, slots: Slots, stack: seq<Choice>, out: seq<Store>)
    requires IsCode(p, pc, {C_LCUT})
    ensures var v := Operand(p.code, pc);
            Execute(p, pc, b, s, slots, stack, out) ==
            if v.None? || v.value !in slots || slots[v.value] > |stack| then Stuck
            else Running(pc + 2, EMPTY, s, slots, if |stack| == slots[v.value] then stack else stack[..slots[v.value] + 1], out)
  {
    hide Goal, Argument, IsCall, Operand, Number;
  }

  lemma {:induction false} RunsLocalCut(p: Program, pc: nat, b: Building, s: Store, m: Marks, ks: Failures, slots: Slots, stack: seq<Choice>, out: seq<Store>)
    requires Stands(p, stack, slots, m, ks) == true && IsCode(p, pc, {C_LCUT}) && pc < |p.code|
    ensures Leads(p, Running(pc, b, s, slots, stack, out), out, Act(p, pc, b, s, m, ks)) == true
    decreases |p.code| - pc, 1, 0
  {
    hide *;
    LocalCutActs(p, pc, b, s, m, ks);
    LocalCutExecutes(p, pc, b, s, slots, stack, out);
    WrongLeads(p, Running(pc, b, s, slots, stack, out), out);
    var v := Operand(p.code, pc);
    if v.Some? && Innermost(m, v.value) {
      MarkStored(p, stack, slots, m, ks, v.value);
      var h := m[v.value];
      var left, js := if h == |stack| then stack else stack[..h + 1], if h == |stack| then ks else ks[..h + 2];
      if h < |stack| {
        StandsCut(p, stack, slots, m, m, ks, h + 1);
      }
      RunsTo(p, pc + 2, EMPTY, s, m, js, slots, left, out);
      LeadsStep(p, Running(pc, b, s, slots, stack, out), Running(pc + 2, EMPTY, s, slots, left, out), out, Act(p, pc, b, s, m, ks));
    }
  }

  lemma StandsHeight(p: Program, stack: seq<Choice>, slots: Slots, m: Marks, ks: Failures)
    requires Stands(p, stack, slots, m, ks) == true
    ensures |ks| == |stack| + 1
  {
    hide FailsTo;
  }

  lemma MarkStored(p: Program, stack: seq<Choice>, slots: Slots, m: Marks, ks: Failures, v: nat)
    requires Stands(p, stack, slots, m, ks) == true && Innermost(m, v) == true
    ensures v in m && v in slots && slots[v] == m[v] && |ks| == |stack| + 1 && m[v] <= |stack|
    ensures forall u :: u in m ==> m[u] <= m[v]
    ensures KeepOldest(ks, m[v]) == if m[v] == |stack| then ks else ks[..m[v] + 2]
  {
    hide FailsTo;
  }

  lemma {:induction false} CallRuns(p: Program, q: nat, sols: seq<Store>, m: Marks, ks: Failures, slots: Slots, stack: seq<Choice>, out: seq<Store>)
    requires Stands(p, stack, slots, m, ks) == true
    ensures Leads(p, Call(q, sols, slots, stack, out), out, Follow(p, q, sols, m, ks)) == true
    decreases |p.code| - q, 3
  {
    hide Stands, Leads, Backtrack, Continue, Act, Follow, Top;
    if sols == [] {
      FollowStart(p, q, [], m, ks);
      StandsFails(p, stack, slots, m, ks, out);
    } else {
      ContinueRuns(p, q, sols, m, ks, slots, stack, out);
    }
  }

  lemma CallExecutes(p: Program, pc: nat, b: Building, s: Store, slots: Slots, stack: seq<Choice>, out: seq<Store>)
    requires pc < |p.code| && p.code[pc].Op? && (p.code[pc].op == I_DEPART || IsCall(p.code[pc].op))
    ensures var g := Goal(p.code, pc, b);
            Execute(p, pc, b, s, slots, stack, out) ==
            if g.None? then Stuck
            else if p.code[pc].op == I_DEPART && stack == [] then Backtrack(slots, stack, out + p.solve(g.value.0, s))
            else Call(g.value.1, p.solve(g.value.0, s), slots, stack, out)
  {
    CallsApart(p.code[pc].op);
    hide Goal, Argument, IsCall, Operand, Number, Backtrack, Call;
  }

  /** What a call means, if it means anything. */
  lemma {:induction false} AnyCallActs(p: Program, pc: nat, b: Building, s: Store, m: Marks, ks: Failures)
    requires pc < |p.code| && p.code[pc].Op? && (p.code[pc].op == I_DEPART || IsCall(p.code[pc].op))
    ensures var g, r := Goal(p.code, pc, b), Act(p, pc, b, s, m, ks);
            && (g.None? ==> r == Wrong)
            && (g.Some? && r != Wrong ==>
                  r == Follow(p, g.value.1, p.solve(g.value.0, s), m, ks)
                  && (p.code[pc].op == I_DEPART ==> r == Emit(p.solve(g.value.0, s), Top(ks))))
  {
    CallsApart(p.code[pc].op);
    hide Goal, Argument, IsCall, Emit, Act, Follow, Top;
    if p.code[pc].op == I_DEPART {
      DepartActs(p, pc, b, s, m, ks);
    } else {
      OtherActs(p, pc, b, s, m, ks);
    }
  }

  lemma {:induction false} RunsCall(p: Program, pc: nat, b: Building, s: Store, m: Marks, ks: Failures, slots: Slots, stack: seq<Choice>, out: seq<Store>)
    requires Stands(p, stack, slots, m, ks) == true && pc < |p.code| && p.code[pc].Op? && (p.code[pc].op == I_DEPART || IsCall(p.code[pc].op))
    ensures Leads(p, Running(pc, b, s, slots, stack, out), out, Act(p, pc, b, s, m, ks)) == true
    decreases |p.code| - pc, 1, 0
  {
    hide *;
    var st, g := Running(pc, b, s, slots, stack, out), Goal(p.code, pc, b);
    WrongLeads(p, st, out);
    AnyCallActs(p, pc, b, s, m, ks);
    CallExecutes(p, pc, b, s, slots, stack, out);
    if g.Some? && Act(p, pc, b, s, m, ks) != Wrong {
      var sols := p.solve(g.value.0, s);
      if p.code[pc].op == I_DEPART && stack == [] {
        StandsFails(p, stack, slots, m, ks, out + sols);
        EmitLeads(p, Backtrack(slots, stack, out + sols), out, sols, Top(ks));
        LeadsStep(p, st, Backtrack(slots, stack, out + sols), out, Emit(sols, Top(ks)));
      } else {
        CallRuns(p, g.value.1, sols, m, ks, slots, stack, out);
        LeadsStep(p, st, Call(g.value.1, sols, slots, stack, out), out, Follow(p, g.value.1, sols, m, ks));
      }
    }
  }

  lemma {:induction false} RunsArgument(p: Program, pc: nat, b: Building, s: Store, m: Marks, ks: Failures, slots: Slots, stack: seq<Choice>, out: seq<Store>)
    requires Stands(p, stack, slots, m, ks) == true
    requires pc < |p.code| && p.code[pc].Op? && !IsSpecial(p.code[pc].op) && !IsCall(p.code[pc].op)
    ensures Leads(p, Running(pc, b, s, slots, stack, out), out, Act(p, pc, b, s, m, ks)) == true
    decreases |p.code| - pc, 1, 0
  {
    hide Stands, Leads, FailsTo, Goal, Argument, IsCall, Act, Follow;
    OtherActs(p, pc, b, s, m, ks);
    WrongLeads(p, Running(pc, b, s, slots, stack, out), out);
    var r := Argument(p.code, pc, b, 0);
    if r.Some? {
      RunsTo(p, r.value.pc, r.value.b, s, m, ks, slots, stack, out);
      LeadsStep(p, Running(pc, b, s, slots, stack, out), Running(r.value.pc, r.value.b, s, slots, stack, out), out, Act(p, pc, b, s, m, ks));
    }
  }

  // ---------- bodies

  /** The machine, started at the code of a body, ends with the solutions of the body in their
      order; it has cut the older choice points exactly if the body cuts. */
  lemma {:induction false} MachineRunsBody(t: Term, ci: Info, used: set<nat>, next: nat, p: Program, pc: nat, s: Store, slots: Slots, older: seq<Choice>)
    requires Proper(t) && Supported(t) && CompileBody(t, true, ci, None, used, next).Some? && (older == [] || older == [Older])
    requires At(p.code, pc, CompileBody(t, true, ci, None, used, next).value.code + [Op(I_EXIT)])
    ensures var r := Eval(t, s, p.solve, Compiled);
            exists n: nat :: Iterate(p, Running(pc, EMPTY, s, slots, older, []), n) == Done(r.sols, r.cut || older == [])
  {
    hide At, Eval, Act, Supported, CompileBody, Stands, Iterate;
    StandsStart(p, older, slots);
    CompiledBodyMeans(t, ci, used, next, p, pc, s, Start(older));
    RunsTo(p, pc, EMPTY, s, map[], Start(older), slots, older, []);
    var r := Eval(t, s, p.solve, Compiled);
    assert r.sols + [] == r.sols == [] + r.sols;
  }

  lemma {:induction false} IterateStep(p: Program, st: State, n: nat)
    ensures n == 0 || !st.Running? ==> Iterate(p, st, n) == st
    ensures n > 0 && st.Running? ==> Iterate(p, st, n) == Iterate(p, Execute(p, st.pc, st.b, st.store, st.slots, st.stack, st.out), n - 1)
  {
  }

  /** Runs the clause until it has no more solutions. */
  method RunClause(p: Program, pc: nat, s: Store, slots: Slots, older: seq<Choice>, ghost n: nat) returns (st: State)
    requires !Iterate(p, Running(pc, EMPTY, s, slots, older, []), n).Running?
    ensures st == Iterate(p, Running(pc, EMPTY, s, slots, older, []), n)
  {
    hide Execute, Iterate;
    st := Running(pc, EMPTY, s, slots, older, []);
    ghost var left := n;
    IterateStep(p, st, left);
    while st.Running?
      invariant Iterate(p, st, left) == Iterate(p, Running(pc, EMPTY, s, slots, older, []), n)
      invariant st.Running? ==> left > 0
      decreases left
    {
      IterateStep(p, st, left);
      st := Execute(p, st.pc, st.b, st.store, st.slots, st.stack, st.out);
      left := left - 1;
      IterateStep(p, st, left);
    }
    IterateStep(p, st, left);
  }

  /** A clause body is run by the machine as it is evaluated directly. */
  method RunBody(t: Term, ci: Info, used: set<nat>, next: nat, p: Program, pc: nat, s: Store, older: seq<Choice>)
    returns (sols: seq<Store>, cut: bool)
    requires Proper(t) && Supported(t) && CompileBody(t, true, ci, None, used, next).Some? && (older == [] || older == [Older])
    requires At(p.code, pc, CompileBody(t, true, ci, None, used, next).value.code + [Op(I_EXIT)])
    ensures sols == Eval(t, s, p.solve, Compiled).sols && cut == (Eval(t, s, p.solve, Compiled).cut || older == [])
    ensures NoBareCut(t) ==> sols == Eval(t, s, p.solve, Standard).sols && cut == (Eval(t, s, p.solve, Standard).cut || older == [])
  {
    hide At, Eval, Supported, CompileBody, Iterate, NoBareCut;
    MachineRunsBody(t, ci, used, next, p, pc, s, map[], older);
    if NoBareCut(t) {
      SameReading(t, s, p.solve);
    }
    ghost var r := Eval(t, s, p.solve, Compiled);
    ghost var n: nat :| Iterate(p, Running(pc, EMPTY, s, map[], older, []), n) == Done(r.sols, r.cut || older == []);
    var st := RunClause(p, pc, s, map[], older, n);
    sols, cut := st.out, st.cut;
  }

  /** The machine comes to one end. */
  lemma {:induction false} OneEnd(p: Program, st: State, n: nat, o: nat)
    requires !Iterate(p, st, n).Running? && !Iterate(p, st, o).Running?
    ensures Iterate(p, st, n) == Iterate(p, st, o)
    decreases n
  {
    hide Execute;
    if st.Running? {
      assert n > 0 && o > 0;
      OneEnd(p, Execute(p, st.pc, st.b, st.store, st.slots, st.stack, st.out), n - 1, o - 1);
    }
  }

  /** The machine runs the body A, !, B -> C as the standard says, except when the cut matters. */
  lemma {:induction false} MachineRunsLocalCut(a: Term, b: Term, c: Term, ci: Info, used: set<nat>, next: nat, p: Program, pc: nat, s: Store, slots: Slots)
    requires Proper(a) && Proper(b) && Proper(c) && Supported(IfCut(a, b, c)) && CompileBody(IfCut(a, b, c), true, ci, None, used, next).Some?
    requires !HasCut(a) && !HasCut(b) && NoBareCut(a) && NoBareCut(b) && NoBareCut(c)
    requires At(p.code, pc, CompileBody(IfCut(a, b, c), true, ci, None, used, next).value.code + [Op(I_EXIT)])
    ensures var r := Eval(IfCut(a, b, c), s, p.solve, Standard);
            (exists n: nat :: Iterate(p, Running(pc, EMPTY, s, slots, [Older], []), n) == Done(r.sols, r.cut)) <==>
            !CutMatters(a, b, c, s, p.solve)
  {
    hide At, Eval, Supported, CompileBody, Iterate, HasCut, NoBareCut, IfCut, CutMatters;
    var t, st := IfCut(a, b, c), Running(pc, EMPTY, s, slots, [Older], []);
    var r, q := Eval(t, s, p.solve, Standard), Eval(t, s, p.solve, Compiled);
    MachineRunsBody(t, ci, used, next, p, pc, s, slots, [Older]);
    CutIsHarmless(a, b, c, s, p.solve);
    ghost var o: nat :| Iterate(p, st, o) == Done(q.sols, q.cut);
    if n: nat :| Iterate(p, st, n) == Done(r.sols, r.cut) {
      OneEnd(p, st, n, o);
    }
  }
}
