/** What single instructions do, and when choice points do not tell apart (pl-comp.c, the control
    instructions of compileBody()). */
module ControlSteps {
  import opened Clauses
  import opened Decompiler
  import opened BodyDecompiler
  import opened BodyRoundTrip
  import opened Control

  // ---------- one instruction

  /** The instructions that Act treats one by one. */
  predicate IsSpecial(op: Opcode) {
    op in {I_EXIT, I_TRUE, C_END, I_FAIL, C_FAIL, I_CUT, C_VAR, C_JMP, C_OR, C_MARK, C_IFTHENELSE, C_NOT, C_CUT, C_LCUT, I_DEPART}
  }

  predicate IsCode(p: Program, pc: nat, ops: set<Opcode>) {
    pc < |p.code| && p.code[pc].Op? && p.code[pc].op in ops
  }

  lemma {:induction false} OtherActs(p: Program, pc: nat, b: Building, s: Store, m: Marks, ks: Failures)
    requires pc < |p.code| && p.code[pc].Op? && !IsSpecial(p.code[pc].op)
    ensures !IsCall(p.code[pc].op) ==>
              var r := Argument(p.code, pc, b, 0);
              Act(p, pc, b, s, m, ks) == if r.None? then Wrong else Act(p, r.value.pc, r.value.b, s, m, ks)
    ensures IsCall(p.code[pc].op) ==>
              var g := Goal(p.code, pc, b);
              Act(p, pc, b, s, m, ks) == if g.None? then Wrong else Follow(p, g.value.1, p.solve(g.value.0, s), m, ks)
  {
    hide Goal, Argument, IsCall, Follow, Innermost, Number, Operand;
  }

  lemma OpsApart(op: Opcode)
    ensures IsArgumentOp(op) ==> !IsSpecial(op) && !IsCall(op)
    ensures IsGoalOp(op) && op !in {I_CUT, I_TRUE, I_FAIL, C_LCUT, I_DEPART} ==> !IsSpecial(op) && IsCall(op)
  {
  }

  lemma {:induction false} ArgumentActs(p: Program, pc: nat, b: Building, s: Store, m: Marks, ks: Failures)
    requires pc < |p.code| && Step(p.code, pc, b).Some?
    ensures Act(p, pc, b, s, m, ks) == Act(p, Step(p.code, pc, b).value.pc, Step(p.code, pc, b).value.b, s, m, ks)
  {
    hide Step, Act, IsArgumentOp, IsSpecial, IsCall;
    StepAdvances(p.code, pc, b);
    StepIsArgument(p.code, pc, b);
    OpsApart(p.code[pc].op);
    OtherActs(p, pc, b, s, m, ks);
  }

  lemma {:induction false} RunActs(p: Program, pc: nat, q: nat, b: Building, s: Store, m: Marks, ks: Failures)
    requires pc <= q <= |p.code| && Run(p.code, pc, q, b).Some?
    ensures Act(p, pc, b, s, m, ks) == Act(p, q, Run(p.code, pc, q, b).value, s, m, ks)
    decreases q - pc
  {
    hide Act, Step;
    if pc < q {
      StepAdvances(p.code, pc, b);
      ArgumentActs(p, pc, b, s, m, ks);
      var n := Step(p.code, pc, b).value;
      RunActs(p, n.pc, q, n.b, s, m, ks);
    }
  }

  lemma {:induction false} DepartActs(p: Program, pc: nat, b: Building, s: Store, m: Marks, ks: Failures)
    requires IsCode(p, pc, {I_DEPART})
    ensures var g := Goal(p.code, pc, b);
            Act(p, pc, b, s, m, ks) ==
            if g.None? || Follow(p, g.value.1, p.solve(g.value.0, s), m, ks) != Emit(p.solve(g.value.0, s), Top(ks)) then Wrong
            else Emit(p.solve(g.value.0, s), Top(ks))
  {
    hide Goal, Argument, Emit, Follow, IsCall, Innermost, Number, Operand, Top;
  }

  lemma {:induction false} CallActs(p: Program, pc: nat, q: nat, b: Building, t: Term, s: Store, m: Marks, ks: Failures)
    requires pc < q <= |p.code| && p.code[pc].Op? && IsGoalOp(p.code[pc].op) && p.code[pc].op !in {I_CUT, I_TRUE, I_FAIL, C_LCUT}
    requires SubGoal(p.code, pc, b, 0) == Some(Read(q, Extend(EMPTY, [t]), 1))
    requires p.code[pc].op == I_DEPART ==> Follow(p, q, p.solve(t, s), m, ks) == Emit(p.solve(t, s), Top(ks))
    ensures Act(p, pc, b, s, m, ks) == Follow(p, q, p.solve(t, s), m, ks)
  {
    assert Extend(EMPTY, [t]).done == [t];
    assert Goal(p.code, pc, b) == Some((t, q)) by { hide SubGoal; }
    hide SubGoal, Act, Goal, IsGoalOp, IsSpecial, IsCall, Follow, Emit, Top;
    if p.code[pc].op == I_DEPART {
      DepartActs(p, pc, b, s, m, ks);
    } else {
      OpsApart(p.code[pc].op);
      OtherActs(p, pc, b, s, m, ks);
    }
  }

  lemma {:induction false} VarActs(p: Program, pc: nat, b: Building, s: Store, m: Marks, ks: Failures)
    requires IsCode(p, pc, {C_VAR})
    ensures Act(p, pc, b, s, m, ks) == Act(p, pc + 2, b, s, m, ks)
  {
    hide Goal, Argument, IsCall, Innermost, Number, Operand;
  }

  lemma {:induction false} JumpActs(p: Program, pc: nat, b: Building, s: Store, m: Marks, ks: Failures)
    requires IsCode(p, pc, {C_JMP})
    ensures var j := Operand(p.code, pc);
            Act(p, pc, b, s, m, ks) == if j.None? then Wrong else Act(p, pc + 2 + j.value, EMPTY, s, m, ks)
  {
    hide Goal, Argument, IsCall, Innermost, Operand, Number;
  }

  lemma {:induction false} OrActs(p: Program, pc: nat, b: Building, s: Store, m: Marks, ks: Failures)
    requires IsCode(p, pc, {C_OR})
    ensures var j := Operand(p.code, pc);
            Act(p, pc, b, s, m, ks) ==
            if j.None? then Wrong else Act(p, pc + 2, EMPTY, s, m, ks + [Act(p, pc + 2 + j.value, EMPTY, s, m, ks)])
  {
    hide Goal, Argument, IsCall, Innermost, Operand, Number;
  }

  lemma {:induction false} MarkActs(p: Program, pc: nat, b: Building, s: Store, m: Marks, ks: Failures)
    requires IsCode(p, pc, {C_MARK})
    ensures var v := Operand(p.code, pc);
            Act(p, pc, b, s, m, ks) ==
            if v.None? || v.value in m then Wrong else Act(p, pc + 2, EMPTY, s, m[v.value := |ks| - 1], ks)
  {
    hide Goal, Argument, IsCall, Innermost, Operand, Number;
  }

  lemma {:induction false} IfActs(p: Program, pc: nat, b: Building, s: Store, m: Marks, ks: Failures)
    requires IsCode(p, pc, {C_IFTHENELSE, C_NOT})
    ensures var v, j := Operand(p.code, pc), Number(p.code, pc + 2);
            Act(p, pc, b, s, m, ks) ==
            if v.None? || j.None? || v.value in m then Wrong
            else Act(p, pc + 3, EMPTY, s, m[v.value := |ks| - 1], ks + [Act(p, pc + 3 + j.value, EMPTY, s, m, ks)])
  {
    hide Goal, Argument, IsCall, Follow, Emit, Innermost, Operand, Number;
  }

  lemma {:induction false} CutActs(p: Program, pc: nat, b: Building, s: Store, m: Marks, ks: Failures)
    requires IsCode(p, pc, {C_CUT})
    ensures var v := Operand(p.code, pc);
            Act(p, pc, b, s, m, ks) ==
            if v.None? || !Innermost(m, v.value) || m[v.value] >= |ks| then Wrong
            else Act(p, pc + 2, EMPTY, s, m - {v.value}, ks[..m[v.value] + 1])
  {
    hide Goal, Argument, IsCall, Operand, Number;
  }

  lemma {:induction false} LocalCutActs(p: Program, pc: nat, b: Building, s: Store, m: Marks, ks: Failures)
    requires IsCode(p, pc, {C_LCUT})
    ensures var v := Operand(p.code, pc);
            Act(p, pc, b, s, m, ks) ==
            if v.None? || !Innermost(m, v.value) || m[v.value] >= |ks| then Wrong
            else Act(p, pc + 2, EMPTY, s, m, KeepOldest(ks, m[v.value]))
  {
    hide Goal, Argument, IsCall, KeepOldest, Operand, Number;
  }

  lemma {:induction false} SkipActs(p: Program, pc: nat, b: Building, s: Store, m: Marks, ks: Failures)
    requires IsCode(p, pc, {C_END, I_TRUE})
    ensures Act(p, pc, b, s, m, ks) == Act(p, pc + 1, EMPTY, s, m, ks)
  {
    hide Goal, Argument, IsCall, Innermost, Number, Operand;
  }

  lemma {:induction false} EndActs(p: Program, pc: nat, b: Building, s: Store, m: Marks, ks: Failures)
    requires IsCode(p, pc, {C_FAIL, I_FAIL, I_EXIT})
    ensures Act(p, pc, b, s, m, ks) == if p.code[pc].op == I_EXIT then Emit([s], Top(ks)) else Top(ks)
  {
    hide Goal, Argument, IsCall, Innermost, Number, Operand;
  }

  lemma {:induction false} ClauseCutActs(p: Program, pc: nat, b: Building, s: Store, m: Marks, ks: Failures)
    requires IsCode(p, pc, {I_CUT})
    ensures Act(p, pc, b, s, m, ks) == Act(p, pc + 1, EMPTY, s, map[], NOCHOICE)
  {
    hide Goal, Argument, IsCall, Innermost, Number, Operand;
  }

  lemma {:induction false} FollowStart(p: Program, q: nat, sols: seq<Store>, m: Marks, ks: Failures)
    ensures sols == [] ==> Follow(p, q, sols, m, ks) == Top(ks)
    ensures |sols| == 1 ==> Follow(p, q, sols, m, ks) == Act(p, q, EMPTY, sols[0], m, ks)
    ensures |sols| > 1 ==> Follow(p, q, sols, m, ks) == Act(p, q, EMPTY, sols[0], m, ks + [Follow(p, q, sols[1..], m, ks)])
  {
    hide Act, Top;
  }

  // ---------- choice points that code does not tell apart

  /** The same happens on failure now, and after a cut to any of the marks, local or not. */
  predicate Alike(m: Marks, ks: Failures, n: Marks, ls: Failures) {
    && m.Keys == n.Keys && Top(ks) == Top(ls)
    && (forall u :: u in m ==> SameMark(m[u], ks, n[u], ls))
    && (forall u, w :: u in m && w in m ==> (m[u] < m[w] <==> n[u] < n[w]))
  }

  predicate SameMark(h: nat, ks: Failures, i: nat, ls: Failures) {
    && h < |ks| && i < |ls| && ks[h] == ls[i]
    && (h + 1 < |ks| <==> i + 1 < |ls|) && (h + 1 < |ks| ==> ks[h + 1] == ls[i + 1])
  }

  lemma AlikePush(m: Marks, ks: Failures, n: Marks, ls: Failures, k: Answers)
    requires Alike(m, ks, n, ls) == true
    ensures Alike(m, ks + [k], n, ls + [k]) == true
  {
    hide SameMark;
    forall u | u in m
      ensures SameMark(m[u], ks + [k], n[u], ls + [k])
    {
      SamePush(m[u], ks, n[u], ls, k);
    }
  }

  lemma SamePush(h: nat, ks: Failures, i: nat, ls: Failures, k: Answers)
    requires SameMark(h, ks, i, ls) == true && Top(ks) == Top(ls)
    ensures SameMark(h, ks + [k], i, ls + [k]) == true
  {
  }

  lemma AlikeMark(m: Marks, ks: Failures, n: Marks, ls: Failures, v: nat)
    requires Alike(m, ks, n, ls) == true && v !in m
    ensures Alike(m[v := |ks| - 1], ks, n[v := |ls| - 1], ls) == true
  {
    var o, w := m[v := |ks| - 1], n[v := |ls| - 1];
    forall u | u in m
      ensures m[u] < |ks| && n[u] < |ls| && (m[u] < |ks| - 1 <==> n[u] < |ls| - 1)
    {
      assert SameMark(m[u], ks, n[u], ls);
    }
    assert SameMark(|ks| - 1, ks, |ls| - 1, ls);
    hide SameMark;
    forall u | u in o
      ensures SameMark(o[u], ks, w[u], ls)
    {
    }
  }

  lemma AlikeInnermost(m: Marks, ks: Failures, n: Marks, ls: Failures, v: nat)
    requires Alike(m, ks, n, ls) == true
    ensures Innermost(m, v) <==> Innermost(n, v)
    ensures Innermost(m, v) ==> v in m
    ensures v in m ==> v in n && m[v] < |ks| && n[v] < |ls| && ks[m[v]] == ls[n[v]]
  {
    assert v in m ==> SameMark(m[v], ks, n[v], ls);
    hide SameMark;
    if v in m {
      assert forall u :: u in m ==> (m[v] < m[u] <==> n[v] < n[u]);
    }
  }

  lemma AlikeCut(m: Marks, ks: Failures, n: Marks, ls: Failures, v: nat)
    requires Alike(m, ks, n, ls) == true && Innermost(m, v)
    ensures m[v] < |ks| && v in n && n[v] < |ls|
    ensures Alike(m - {v}, ks[..m[v] + 1], n - {v}, ls[..n[v] + 1]) == true
  {
    AlikeInnermost(m, ks, n, ls, v);
    var o, w := m - {v}, n - {v};
    forall u | u in o
      ensures SameMark(o[u], ks[..m[v] + 1], w[u], ls[..n[v] + 1])
    {
      assert SameMark(m[u], ks, n[u], ls);
      assert m[u] < m[v] <==> n[u] < n[v];
      SameCut(m[u], ks, n[u], ls, m[v], n[v]);
    }
    hide SameMark;
  }

  lemma SameCut(h: nat, ks: Failures, i: nat, ls: Failures, g: nat, j: nat)
    requires SameMark(h, ks, i, ls) && h <= g < |ks| && i <= j < |ls| && (h < g <==> i < j)
    ensures SameMark(h, ks[..g + 1], i, ls[..j + 1])
  {
  }

  lemma AlikeLocalCut(m: Marks, ks: Failures, n: Marks, ls: Failures, v: nat)
    requires Alike(m, ks, n, ls) == true && Innermost(m, v)
    ensures m[v] < |ks| && v in n && n[v] < |ls|
    ensures Alike(m, KeepOldest(ks, m[v]), n, KeepOldest(ls, n[v])) == true
  {
    AlikeInnermost(m, ks, n, ls, v);
    assert SameMark(m[v], ks, n[v], ls);
    if m[v] + 1 < |ks| {
      forall u | u in m
        ensures SameMark(m[u], ks[..m[v] + 2], n[u], ls[..n[v] + 2])
      {
        assert SameMark(m[u], ks, n[u], ls);
      }
      hide SameMark;
    }
  }

  /** Code does the same for choice points that are alike. */
  lemma {:induction false} AlikeActs(p: Program, pc: nat, b: Building, s: Store, m: Marks, ks: Failures, n: Marks, ls: Failures)
    requires Alike(m, ks, n, ls) == true
    ensures Act(p, pc, b, s, m, ks) == Act(p, pc, b, s, n, ls)
    decreases |p.code| - pc, 1, 1
  {
    hide Alike, Act, IsCall;
    if pc < |p.code| && p.code[pc].Op? {
      var op := p.code[pc].op;
      if op == C_OR {
        AlikeOr(p, pc, b, s, m, ks, n, ls);
      } else if op == C_MARK {
        AlikeMarks(p, pc, b, s, m, ks, n, ls);
      } else if op in {C_IFTHENELSE, C_NOT} {
        AlikeIf(p, pc, b, s, m, ks, n, ls);
      } else if op == C_CUT {
        AlikeCutActs(p, pc, b, s, m, ks, n, ls);
      } else if op == C_LCUT {
        AlikeLocalCutActs(p, pc, b, s, m, ks, n, ls);
      } else if op == I_DEPART || IsCall(op) {
        AlikeCall(p, pc, b, s, m, ks, n, ls);
      } else if IsSpecial(op) {
        AlikeOn(p, pc, b, s, m, ks, n, ls);
      } else {
        AlikeArgument(p, pc, b, s, m, ks, n, ls);
      }
    } else {
      NoCodeActs(p, pc, b, s, m, ks);
      NoCodeActs(p, pc, b, s, n, ls);
    }
  }

  lemma {:induction false} NoCodeActs(p: Program, pc: nat, b: Building, s: Store, m: Marks, ks: Failures)
    requires pc >= |p.code| || !p.code[pc].Op?
    ensures Act(p, pc, b, s, m, ks) == Wrong
  {
  }

  lemma {:induction false} AlikeOn(p: Program, pc: nat, b: Building, s: Store, m: Marks, ks: Failures, n: Marks, ls: Failures)
    requires Alike(m, ks, n, ls) == true && IsCode(p, pc, {I_EXIT, I_TRUE, C_END, I_FAIL, C_FAIL, I_CUT, C_VAR, C_JMP})
    ensures Act(p, pc, b, s, m, ks) == Act(p, pc, b, s, n, ls)
    decreases |p.code| - pc, 1, 0
  {
    assert Top(ks) == Top(ls);
    hide Alike, Act, Emit, Top, Operand;
    var op := p.code[pc].op;
    if op in {I_TRUE, C_END} {
      SkipActs(p, pc, b, s, m, ks);
      SkipActs(p, pc, b, s, n, ls);
      AlikeActs(p, pc + 1, EMPTY, s, m, ks, n, ls);
    } else if op == C_VAR {
      VarActs(p, pc, b, s, m, ks);
      VarActs(p, pc, b, s, n, ls);
      AlikeActs(p, pc + 2, b, s, m, ks, n, ls);
    } else if op == C_JMP {
      JumpActs(p, pc, b, s, m, ks);
      JumpActs(p, pc, b, s, n, ls);
      var j := Operand(p.code, pc);
      if j.Some? {
        AlikeActs(p, pc + 2 + j.value, EMPTY, s, m, ks, n, ls);
      }
    } else if op == I_CUT {
      ClauseCutActs(p, pc, b, s, m, ks);
      ClauseCutActs(p, pc, b, s, n, ls);
    } else {
      EndActs(p, pc, b, s, m, ks);
      EndActs(p, pc, b, s, n, ls);
    }
  }

  lemma {:induction false} AlikeArgument(p: Program, pc: nat, b: Building, s: Store, m: Marks, ks: Failures, n: Marks, ls: Failures)
    requires Alike(m, ks, n, ls) == true && pc < |p.code| && p.code[pc].Op? && !IsSpecial(p.code[pc].op) && !IsCall(p.code[pc].op)
    ensures Act(p, pc, b, s, m, ks) == Act(p, pc, b, s, n, ls)
    decreases |p.code| - pc, 1, 0
  {
    hide Alike, Act, Argument, IsCall, IsSpecial, Goal, Follow;
    OtherActs(p, pc, b, s, m, ks);
    OtherActs(p, pc, b, s, n, ls);
    var r := Argument(p.code, pc, b, 0);
    if r.Some? {
      AlikeActs(p, r.value.pc, r.value.b, s, m, ks, n, ls);
    }
  }

  lemma {:induction false} AlikeOr(p: Program, pc: nat, b: Building, s: Store, m: Marks, ks: Failures, n: Marks, ls: Failures)
    requires Alike(m, ks, n, ls) == true && IsCode(p, pc, {C_OR})
    ensures Act(p, pc, b, s, m, ks) == Act(p, pc, b, s, n, ls)
    decreases |p.code| - pc, 1, 0
  {
    hide Alike, Act, Operand;
    OrActs(p, pc, b, s, m, ks);
    OrActs(p, pc, b, s, n, ls);
    var j := Operand(p.code, pc);
    if j.Some? {
      var k := Act(p, pc + 2 + j.value, EMPTY, s, m, ks);
      AlikeActs(p, pc + 2 + j.value, EMPTY, s, m, ks, n, ls);
      AlikePush(m, ks, n, ls, k);
      AlikeActs(p, pc + 2, EMPTY, s, m, ks + [k], n, ls + [k]);
    }
  }

  lemma {:induction false} AlikeMarks(p: Program, pc: nat, b: Building, s: Store, m: Marks, ks: Failures, n: Marks, ls: Failures)
    requires Alike(m, ks, n, ls) == true && IsCode(p, pc, {C_MARK})
    ensures Act(p, pc, b, s, m, ks) == Act(p, pc, b, s, n, ls)
    decreases |p.code| - pc, 1, 0
  {
    assert m.Keys == n.Keys;
    hide Alike, Act, Operand;
    MarkActs(p, pc, b, s, m, ks);
    MarkActs(p, pc, b, s, n, ls);
    var v := Operand(p.code, pc);
    if v.Some? && v.value !in m {
      AlikeMark(m, ks, n, ls, v.value);
      AlikeActs(p, pc + 2, EMPTY, s, m[v.value := |ks| - 1], ks, n[v.value := |ls| - 1], ls);
    }
  }

  lemma {:induction false} AlikeIf(p: Program, pc: nat, b: Building, s: Store, m: Marks, ks: Failures, n: Marks, ls: Failures)
    requires Alike(m, ks, n, ls) == true && IsCode(p, pc, {C_IFTHENELSE, C_NOT})
    ensures Act(p, pc, b, s, m, ks) == Act(p, pc, b, s, n, ls)
    decreases |p.code| - pc, 1, 0
  {
    assert m.Keys == n.Keys && pc < |p.code|;
    hide *;
    IfActs(p, pc, b, s, m, ks);
    IfActs(p, pc, b, s, n, ls);
    var v, j := Operand(p.code, pc), Number(p.code, pc + 2);
    if v.Some? && v.value !in m && j.Some? {
      var k := Act(p, pc + 3 + j.value, EMPTY, s, m, ks);
      var o, w := m[v.value := |ks| - 1], n[v.value := |ls| - 1];
      AlikeActs(p, pc + 3 + j.value, EMPTY, s, m, ks, n, ls);
      AlikeMark(m, ks, n, ls, v.value);
      AlikePush(o, ks, w, ls, k);
      AlikeActs(p, pc + 3, EMPTY, s, o, ks + [k], w, ls + [k]);
    }
  }

  lemma {:induction false} AlikeCutActs(p: Program, pc: nat, b: Building, s: Store, m: Marks, ks: Failures, n: Marks, ls: Failures)
    requires Alike(m, ks, n, ls) == true && IsCode(p, pc, {C_CUT})
    ensures Act(p, pc, b, s, m, ks) == Act(p, pc, b, s, n, ls)
    decreases |p.code| - pc, 1, 0
  {
    assert pc < |p.code|;
    hide *;
    CutActs(p, pc, b, s, m, ks);
    CutActs(p, pc, b, s, n, ls);
    var v := Operand(p.code, pc);
    if v.Some? {
      AlikeInnermost(m, ks, n, ls, v.value);
      if Innermost(m, v.value) {
        AlikeCut(m, ks, n, ls, v.value);
        AlikeActs(p, pc + 2, EMPTY, s, m - {v.value}, ks[..m[v.value] + 1], n - {v.value}, ls[..n[v.value] + 1]);
      }
    }
  }

  lemma {:induction false} AlikeLocalCutActs(p: Program, pc: nat, b: Building, s: Store, m: Marks, ks: Failures, n: Marks, ls: Failures)
    requires Alike(m, ks, n, ls) == true && IsCode(p, pc, {C_LCUT})
    ensures Act(p, pc, b, s, m, ks) == Act(p, pc, b, s, n, ls)
    decreases |p.code| - pc, 1, 0
  {
    assert pc < |p.code|;
    hide *;
    LocalCutActs(p, pc, b, s, m, ks);
    LocalCutActs(p, pc, b, s, n, ls);
    var v := Operand(p.code, pc);
    if v.Some? {
      AlikeInnermost(m, ks, n, ls, v.value);
      if Innermost(m, v.value) {
        AlikeLocalCut(m, ks, n, ls, v.value);
        AlikeActs(p, pc + 2, EMPTY, s, m, KeepOldest(ks, m[v.value]), n, KeepOldest(ls, n[v.value]));
      }
    }
  }

  lemma {:induction false} AlikeCall(p: Program, pc: nat, b: Building, s: Store, m: Marks, ks: Failures, n: Marks, ls: Failures)
    requires Alike(m, ks, n, ls) == true && pc < |p.code| && p.code[pc].Op? && (p.code[pc].op == I_DEPART || IsCall(p.code[pc].op))
    ensures Act(p, pc, b, s, m, ks) == Act(p, pc, b, s, n, ls)
    decreases |p.code| - pc, 1, 0
  {
    assert Top(ks) == Top(ls);
    CallsApart(p.code[pc].op);
    hide Alike, Act, Goal, Argument, Emit, Top, Follow, IsCall, IsSpecial;
    var g := Goal(p.code, pc, b);
    if g.Some? {
      AlikeFollow(p, g.value.1, p.solve(g.value.0, s), m, ks, n, ls);
    }
    if p.code[pc].op == I_DEPART {
      DepartActs(p, pc, b, s, m, ks);
      DepartActs(p, pc, b, s, n, ls);
    } else {
      OtherActs(p, pc, b, s, m, ks);
      OtherActs(p, pc, b, s, n, ls);
    }
  }

  lemma CallsApart(op: Opcode)
    ensures IsCall(op) ==> !IsSpecial(op)
  {
  }

  lemma {:induction false} AlikeFollow(p: Program, q: nat, sols: seq<Store>, m: Marks, ks: Failures, n: Marks, ls: Failures)
    requires Alike(m, ks, n, ls) == true
    ensures Follow(p, q, sols, m, ks) == Follow(p, q, sols, n, ls)
    decreases |p.code| - q, 2, |sols|
  {
    assert Top(ks) == Top(ls);
    hide *;
    FollowStart(p, q, sols, m, ks);
    FollowStart(p, q, sols, n, ls);
    if |sols| == 1 {
      AlikeActs(p, q, EMPTY, sols[0], m, ks, n, ls);
    } else if |sols| > 1 {
      var k := Follow(p, q, sols[1..], m, ks);
      AlikeFollow(p, q, sols[1..], m, ks, n, ls);
      AlikePush(m, ks, n, ls, k);
      AlikeActs(p, q, EMPTY, sols[0], m, ks + [k], n, ls + [k]);
    }
  }
}
