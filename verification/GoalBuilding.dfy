/** The code of the arguments of a goal builds them (pl-comp.c, compileArgument() and
    compileSubClause(); pl-wam.c, B_CONST to I_POPF). */
module GoalBuilding {
  import opened Clauses
  import opened Decompiler
  import opened Bindings
  import opened ArgumentCode
  import opened ArgumentRoundTrip
  import opened Bodies
  import opened HeadRoundTrip

  // ---------- one instruction

  /** From m, code that ends in o fills cells so that they stand for the terms of the equations, and
      says nothing new about the others. */
  ghost predicate Makes(o: Outcome, m: State, eqs: seq<Equation>) {
    && o.Done?
    && var n := o.state;
       n.fr == m.fr && m.gtop <= n.gtop && Ok(n.h, n.gtop) && Reduces(m.fr, m.h, eqs, m.gtop, n.h, [])
  }

  /** The slots of these variables. */
  predicate IsSlot(a: Addr, fr: nat, vars: set<nat>) {
    a.Local? && a.i >= fr && a.i - fr in vars
  }

  function SlotCells(fr: nat, vars: set<nat>): (c: set<Addr>)
    ensures forall a: Addr :: a in c <==> IsSlot(a, fr, vars)
  {
    var c := set i | i in vars :: Local(fr + i);
    assert forall a: Addr :: IsSlot(a, fr, vars) ==> a == Local(fr + (a.i - fr));
    c
  }

  /** What code has initialised: these cells, the slots of these variables, and the global stack
      from g on. */
  ghost predicate Fills(m: State, n: State, cells: set<Addr>, vars: set<nat>, g: nat) {
    forall a: Addr :: a in n.h <==> a in m.h || a in cells || IsSlot(a, m.fr, vars) || (a.Global? && g <= a.i < n.gtop)
  }

  /** The slots of these variables are initialised just if the compiler's table has them or they
      are arguments. */
  ghost predicate SlotsKnown(m: State, vars: set<nat>, used: set<nat>, arity: nat) {
    forall i :: i in vars ==> (Local(m.fr + i) in m.h <==> i in used || i < arity)
  }

  /** ARGP is at a cell that is to be filled, above the slots. */
  ghost predicate AtTarget(m: State, vars: set<nat>) {
    && Ok(m.h, m.gtop) && Writes(m)
    && (m.argp.Local? ==> forall i :: i in vars ==> m.fr + i < m.argp.i)
  }

  predicate Moved(o: Outcome, m: State) {
    o.Done? && o.state.argp == After(m.argp) && o.state.stack == m.stack && o.state.gtop == m.gtop
  }

  lemma {:induction false} WriteMakes(m: State, t: Term, c: Content)
    requires Ok(m.h, m.gtop) && Writes(m) && CellOk(m.h, m.gtop, m.argp, c)
    requires forall s: Valuation :: Solves(s, m.h) ==> (Matches(s, m.fr, t, s(m.argp)) <==> HoldsAt(s, m.argp, c))
    ensures var o := Write(m, c);
            Makes(o, m, [Equation(t, m.argp)]) && Moved(o, m) && o.state.h.Keys == m.h.Keys + {m.argp}
  {
    hide Reduces, Solves, Ok;
    SetReduces(m.fr, m.h, m.gtop, t, m.argp, m.argp, c);
    SetOk(m.h, m.gtop, m.argp, c);
  }

  lemma {:induction false} VarMakes(m: State, i: nat)
    requires Ok(m.h, m.gtop) && Writes(m) && Local(m.fr + i) in m.h && Below(Local(m.fr + i), m.argp)
    ensures var o := WriteVar(m, i);
            Makes(o, m, [Equation(Var(i), m.argp)]) && Moved(o, m) && o.state.h.Keys == m.h.Keys + {m.argp}
  {
    hide Reduces, Solves, Makes;
    var a := Local(m.fr + i);
    var k := Deref(m.h, a);
    DerefOk(m.h, m.gtop, a);
    assert CellOk(m.h, m.gtop, k, m.h[k]);
    forall s: Valuation | Solves(s, m.h)
      ensures s(k) == s(a) && HoldsAt(s, k, m.h[k])
    {
      DerefSame(m.h, m.gtop, a, s);
      SolvesAt(s, m.h, k);
    }
    WriteMakes(m, Var(i), if m.h[k].Unbound? then Ref(k) else m.h[k]);
  }

  /** A cell and a slot that refers to it, or the other way round. */
  lemma {:induction false} LinkMakes(m: State, i: nat, x: Addr, y: Addr)
    requires Ok(m.h, m.gtop) && x !in m.h && (x.Global? ==> x.i < m.gtop) && Below(x, y) && (y in m.h ==> m.h[y] == Unbound)
    requires CellOk(m.h, m.gtop, y, Unbound)
    requires forall s: Valuation :: Solves(s, m.h) ==> (s(m.argp) == s(Local(m.fr + i)) <==> s(x) == s(y))
    ensures var l := m.h[x := Unbound][y := Ref(x)]; Makes(Advance(m, l), m, [Equation(Var(i), m.argp)])
  {
    hide Reduces, Solves, Ok;
    var j := m.h[x := Unbound];
    var l := j[y := Ref(x)];
    var e := [Equation(Var(i), m.argp)];
    forall s: Valuation
      ensures Solves(s, l) <==> Solves(s, m.h) && Meets(s, m.fr, e)
      ensures Meets(s, m.fr, [])
    {
      SetSolves(m.h, x, Unbound, s);
      SetSolves(j, y, Ref(x), s);
      OneMeets(s, m.fr, Var(i), m.argp);
    }
    SameSolutions(m.fr, m.h, e, m.gtop, l, []);
    SetOk(m.h, m.gtop, x, Unbound);
    SetOk(j, m.gtop, y, Ref(x));
  }

  lemma {:induction false} ArgVarMakes(m: State, i: nat)
    requires Ok(m.h, m.gtop) && Writes(m) && Local(m.fr + i) in m.h && m.argp.Global?
    ensures var o := WriteArgVar(m, i);
            Makes(o, m, [Equation(Var(i), m.argp)]) && Moved(o, m) && o.state.h.Keys == m.h.Keys + {m.argp}
  {
    hide Reduces, Solves, Makes;
    var a := Local(m.fr + i);
    var k := Deref(m.h, a);
    DerefOk(m.h, m.gtop, a);
    assert CellOk(m.h, m.gtop, k, m.h[k]);
    forall s: Valuation | Solves(s, m.h)
      ensures s(k) == s(a) && HoldsAt(s, k, m.h[k])
    {
      DerefSame(m.h, m.gtop, a, s);
      SolvesAt(s, m.h, k);
    }
    if m.h[k].Unbound? && Below(m.argp, k) {
      LinkMakes(m, i, m.argp, k);
    } else {
      WriteMakes(m, Var(i), if m.h[k].Unbound? then Ref(k) else m.h[k]);
    }
  }

  lemma {:induction false} FirstMakes(m: State, i: nat)
    requires Ok(m.h, m.gtop) && Writes(m) && Local(m.fr + i) !in m.h
    ensures Below(Local(m.fr + i), m.argp) ==>
              var o := WriteFirst(m, i);
              Makes(o, m, [Equation(Var(i), m.argp)]) && Moved(o, m) && o.state.h.Keys == m.h.Keys + {m.argp, Local(m.fr + i)}
    ensures m.argp.Global? ==>
              var o := WriteArgFirst(m, i);
              Makes(o, m, [Equation(Var(i), m.argp)]) && Moved(o, m) && o.state.h.Keys == m.h.Keys + {m.argp, Local(m.fr + i)}
  {
    hide Reduces, Solves, Makes;
    var k := Local(m.fr + i);
    if Below(k, m.argp) {
      LinkMakes(m, i, k, m.argp);
    }
    if m.argp.Global? {
      LinkMakes(m, i, m.argp, k);
    }
  }

  // ---------- code

  /** The code of an argument has run. */
  ghost predicate Built(o: Outcome, m: State, t: Term, w: Where) {
    && Makes(o, m, [Equation(t, m.argp)]) && o.state.stack == m.stack
    && Fills(m, o.state, {m.argp}, VarsOf(t), m.gtop)
    && (!(w.right && t.Struct?) ==> o.state.argp == After(m.argp))
  }

  lemma {:induction false} BuiltIf(o: Outcome, m: State, t: Term, w: Where, vars: set<nat>)
    requires Makes(o, m, [Equation(t, m.argp)]) && Moved(o, m) && VarsOf(t) == vars
    requires o.state.h.Keys == m.h.Keys + {m.argp} + SlotCells(m.fr, vars)
    ensures Built(o, m, t, w)
  {
    hide Makes, VarsOf;
    var n := o.state;
    forall a: Addr
      ensures a in n.h <==> a in m.h || a == m.argp || IsSlot(a, m.fr, vars)
    {
      assert a in n.h <==> a in n.h.Keys;
    }
  }

  lemma {:induction false} VarBuilt(i: nat, w: Where, arity: nat, used: set<nat>, m: State, u: Unifier)
    requires w.body && (w.arg <==> m.argp.Global?) && AtTarget(m, {i}) && SlotsKnown(m, {i}, used, arity)
    ensures Built(Exec(CompileVar(i, w, arity, used).code, m, u), m, Var(i), w)
  {
    hide Exec, Built, Ok, Makes, WriteVar, WriteArgVar, WriteFirst, WriteArgFirst, SlotCells;
    var k := Local(m.fr + i);
    assert k in m.h <==> i in used || i < arity;
    assert w.arg || Below(k, m.argp);
    var o := if k in m.h then (if w.arg then WriteArgVar(m, i) else WriteVar(m, i)) else if w.arg then WriteArgFirst(m, i) else WriteFirst(m, i);
    VarRuns(i, w, arity, used, m, u);
    OneSlot(m.fr, i);
    if k in m.h {
      if w.arg {
        ArgVarMakes(m, i);
      } else {
        VarMakes(m, i);
      }
      assert m.h.Keys + {m.argp} == m.h.Keys + {m.argp} + {k};
    } else {
      FirstMakes(m, i);
      assert m.h.Keys + {m.argp, k} == m.h.Keys + {m.argp} + {k};
    }
    BuiltIf(o, m, Var(i), w, {i});
  }

  lemma OneSlot(fr: nat, i: nat)
    ensures SlotCells(fr, {i}) == {Local(fr + i)} && SlotCells(fr, {}) == {}
  {
  }

  /** Which instruction a variable gets. */
  lemma {:induction false} VarRuns(i: nat, w: Where, arity: nat, used: set<nat>, m: State, u: Unifier)
    requires w.body
    ensures Exec(CompileVar(i, w, arity, used).code, m, u) ==
            if i in used || i < arity then (if w.arg then WriteArgVar(m, i) else WriteVar(m, i))
            else if w.arg then WriteArgFirst(m, i) else WriteFirst(m, i)
  {
    hide Exec, WriteVar, WriteArgVar, WriteFirst, WriteArgFirst;
    ExecOne(CompileVar(i, w, arity, used).code, m, u);
  }

  lemma {:induction false} PlainBuilt(t: Term, w: Where, arity: nat, used: set<nat>, m: State, u: Unifier)
    requires w.body && Proper(t) && !t.Struct? && !t.Var? && Ok(m.h, m.gtop) && Writes(m)
    ensures Built(Exec(CompileArgument(t, w, arity, used).code, m, u), m, t, w)
  {
    hide Exec, Built, Ok, Makes, SlotCells;
    var r := CompileArgument(t, w, arity, used);
    var c := if t == Void then Unbound else Atomic(t);
    if t != Void {
      ConstantCode(t, w, arity, used);
    }
    ExecOne(r.code, m, u);
    WriteMakes(m, t, c);
    OneSlot(m.fr, 0);
    BuiltIf(Exec(r.code, m, u), m, t, w, {});
  }

  /** A new term has been begun: ARGP is at its first argument. */
  ghost predicate Begins(o: Outcome, m: State, t: Term, right: bool)
    requires t.Struct?
  {
    && o.Done?
    && var n := o.state;
       && n.fr == m.fr && n.gtop == m.gtop + |t.args| && Ok(n.h, n.gtop) && n.h.Keys == m.h.Keys + {m.argp}
       && n.argp == Global(m.gtop) && n.stack == (if right then m.stack else m.stack + [After(m.argp)])
       && Reduces(m.fr, m.h, [Equation(t, m.argp)], m.gtop, n.h, ArgEquations(t, |t.args|, m.gtop))
  }

  lemma {:induction false} OpenMakes(m: State, t: Term, right: bool)
    requires Ok(m.h, m.gtop) && Writes(m) && Proper(t) && t.Struct?
    ensures Begins(WriteOpen(m, t.functor, right), m, t, right)
  {
    hide Reduces, Solves;
    OpenReduces(m.fr, m.h, m.gtop, t, m.argp, m.argp);
    var l, g := m.h[m.argp := Compound(t.functor, m.gtop)], m.gtop + |t.args|;
    forall a | a in l
      ensures CellOk(l, g, a, l[a])
    {
      assert a in m.h ==> CellOk(m.h, m.gtop, a, m.h[a]);
    }
  }

  function ArgCells(b: nat, n: nat): (c: set<Addr>)
    ensures forall a: Addr :: a in c <==> a.Global? && b <= a.i < b + n
  {
    if n == 0 then {} else ArgCells(b, n - 1) + {Global(b + n - 1)}
  }

  lemma {:induction false} MakesThen(o: Outcome, m: State, a: seq<Equation>, p: Outcome, b: seq<Equation>)
    requires Makes(o, m, a) && Makes(p, o.state, b) && Old(b, m.gtop)
    ensures Makes(p, m, a + b)
  {
    hide Reduces, Ok, Old;
    ReducesFirst(m.fr, m.h, a, m.gtop, o.state.h, b, o.state.gtop, p.state.h);
  }

  lemma {:induction false} FillsThen(m: State, n: State, p: State, a: set<Addr>, b: set<Addr>, v: set<nat>, w: set<nat>)
    requires Fills(m, n, a, v, m.gtop) && Fills(n, p, b, w, n.gtop) && n.fr == m.fr && m.gtop <= n.gtop <= p.gtop
    ensures Fills(m, p, a + b, v + w, m.gtop)
  {
  }

  /** The slots after code that uses these variables. */
  lemma SlotsAfter(m: State, n: State, cells: set<Addr>, vars: set<nat>, all: set<nat>, used: set<nat>, arity: nat)
    requires SlotsKnown(m, all, used, arity) && Fills(m, n, cells, vars, m.gtop) && n.fr == m.fr
    requires forall a :: a in cells ==> !IsSlot(a, m.fr, all)
    ensures SlotsKnown(n, all, used + vars, arity)
  {
    forall i | i in all
      ensures Local(m.fr + i) in n.h <==> i in used + vars || i < arity
    {
      assert IsSlot(Local(m.fr + i), m.fr, all);
      assert IsSlot(Local(m.fr + i), m.fr, vars) <==> i in vars;
    }
  }

  lemma SlotsOf(m: State, all: set<nat>, vars: set<nat>, used: set<nat>, arity: nat)
    requires SlotsKnown(m, all, used, arity) && vars <= all
    ensures SlotsKnown(m, vars, used, arity)
  {
  }

  /** The code of the first n arguments of t has run; their cells are those from b on. */
  ghost predicate BuiltAll(o: Outcome, m: State, t: Term, n: nat, b: nat)
    requires t.Struct? && n <= |t.args|
  {
    && Makes(o, m, ArgEquations(t, n, b)) && o.state.stack == m.stack
    && Fills(m, o.state, ArgCells(b, n), VarsOfArgs(t, n), m.gtop)
  }

  /** ARGP is at the first argument of a new term. */
  ghost predicate AtNew(m: State, t: Term, used: set<nat>, arity: nat)
    requires t.Struct?
  {
    && Ok(m.h, m.gtop) && m.argp.Global? && m.argp.i + |t.args| <= m.gtop && SlotsKnown(m, VarsOf(t), used, arity)
    && forall i: nat :: m.argp.i <= i < m.argp.i + |t.args| ==> Global(i) !in m.h
  }

  lemma {:induction false} ArgumentsBuilt(t: Term, n: nat, arity: nat, used: set<nat>, m: State, u: Unifier)
    requires Proper(t) && t.Struct? && n <= |t.args| && AtNew(m, t, used, arity)
    ensures var r := CompileArguments(t, n, Where(true, true, false), arity, used);
            var o := Exec(r.code, m, u);
            BuiltAll(o, m, t, n, m.argp.i) && o.state.argp == Global(m.argp.i + n)
    decreases t, 0, n
  {
    hide CompileArgument, CompileArguments, Exec, VarsOf, VarsOfArgs;
    var w := Where(true, true, false);
    ArgumentsStep(t, if n == 0 then 0 else n - 1, w, arity, used);
    if n == 0 {
      hide Reduces, Ok;
      ExecNothing(m, u);
      ReducesNot(m.fr, m.h, [], m.gtop);
      NoArgs(t);
    } else {
      hide Reduces, Ok, Fills, SlotsKnown;
      var a := CompileArguments(t, n - 1, w, arity, used);
      var r := CompileArgument(t.args[n - 1], w, arity, a.used);
      ArgumentsBuilt(t, n - 1, arity, used, m, u);
      var o := Exec(a.code, m, u);
      ExecJoin(a.code, r.code, m, u);
      NextBuilt(t, n - 1, w, arity, used, m, o, u);
    }
  }

  lemma NoArgs(t: Term)
    requires t.Struct?
    ensures VarsOfArgs(t, 0) == {}
  {
  }

  /** One more argument. */
  lemma {:induction false} NextBuilt(t: Term, n: nat, w: Where, arity: nat, used: set<nat>, m: State, o: Outcome, u: Unifier)
    requires Proper(t) && t.Struct? && n < |t.args| && AtNew(m, t, used, arity) && w.body && w.arg
    requires BuiltAll(o, m, t, n, m.argp.i) && o.state.argp == Global(m.argp.i + n)
    ensures var now := CompileArguments(t, n, Where(true, true, false), arity, used).used;
            var p := Exec(CompileArgument(t.args[n], w, arity, now).code, o.state, u);
            BuiltAll(p, m, t, n + 1, m.argp.i) && (!w.right ==> p.state.argp == Global(m.argp.i + n + 1))
    decreases t, 0, n
  {
    hide CompileArgument, CompileArguments, Exec, Reduces, Ok, VarsOf, VarsOfArgs, Fills, SlotsKnown;
    var b, c := m.argp.i, o.state;
    var now := CompileArguments(t, n, Where(true, true, false), arity, used).used;
    var p := Exec(CompileArgument(t.args[n], w, arity, now).code, c, u);
    ArgumentsUse(t, n, Where(true, true, false), arity, used);
    SlotsAfter(m, c, ArgCells(b, n), VarsOfArgs(t, n), VarsOf(t), used, arity);
    VarsOfPart(t, n);
    SlotsOf(c, VarsOf(t), VarsOf(t.args[n]), now, arity);
    StillFree(m, c, b, n, VarsOfArgs(t, n));
    ArgumentBuilt(t.args[n], w, arity, now, c, u);
    EquationsStep(t, n, b);
    MakesThen(o, m, ArgEquations(t, n, b), p, [Equation(t.args[n], Global(b + n))]);
    FillsThen(m, c, p.state, ArgCells(b, n), {Global(b + n)}, VarsOfArgs(t, n), VarsOf(t.args[n]));
    assert ArgCells(b, n) + {Global(b + n)} == ArgCells(b, n + 1);
    VarsOfFirst(t, n);
  }

  lemma StillFree(m: State, n: State, b: nat, k: nat, vars: set<nat>)
    requires Fills(m, n, ArgCells(b, k), vars, m.gtop) && Global(b + k) !in m.h && b + k < m.gtop
    ensures Global(b + k) !in n.h
  {
  }

  lemma {:induction false} VarsOfPart(t: Term, n: nat)
    requires t.Struct? && n < |t.args|
    ensures VarsOf(t.args[n]) <= VarsOf(t)
  {
    forall x | x in VarsOf(t.args[n])
      ensures x in VarsOf(t)
    {
    }
  }

  /** The code of an argument of the body builds the argument. */
  lemma {:induction false} ArgumentBuilt(t: Term, w: Where, arity: nat, used: set<nat>, m: State, u: Unifier)
    requires Proper(t) && w.body && (w.arg <==> m.argp.Global?) && AtTarget(m, VarsOf(t)) && SlotsKnown(m, VarsOf(t), used, arity)
    ensures Built(Exec(CompileArgument(t, w, arity, used).code, m, u), m, t, w)
    decreases t, 1, 0
  {
    if t.Var? {
      hide Exec, Built, Ok;
      VarBuilt(t.index, w, arity, used, m, u);
    } else if !t.Struct? {
      hide Exec, Built, Ok;
      PlainBuilt(t, w, arity, used, m, u);
    } else {
      hide CompileArgument, CompileArguments, Exec, Ok, VarsOf, Built, SlotsKnown;
      TermBuilt(t, w, arity, used, m, u);
    }
  }

  lemma {:induction false} TermBuilt(t: Term, w: Where, arity: nat, used: set<nat>, m: State, u: Unifier)
    requires Proper(t) && t.Struct? && w.body && (w.arg <==> m.argp.Global?) && AtTarget(m, VarsOf(t)) && SlotsKnown(m, VarsOf(t), used, arity)
    ensures Built(Exec(CompileArgument(t, w, arity, used).code, m, u), m, t, w)
    decreases t, 0, |t.args| + 1
  {
    hide CompileArgument, CompileArguments, Exec, Opening, Ending, Parts, VarsOf, VarsOfArgs, Fills, SlotsKnown, Reduces, Ok, AtNew, AtTarget, Built;
    ArgumentsThere(t);
    WholeCode(t, w, arity, used);
    var n, v, z := |t.args| - 1, Where(true, true, false), Where(true, true, true);
    assert Where(w.body, true, false) == v && Where(w.body, true, true) == z;
    var a := CompileArguments(t, n, v, arity, used);
    var last := CompileArgument(t.args[n], z, arity, a.used);
    BodyOpens(t, w, arity, used, m, u);
    var c := Exec(Opening(t.functor, w), m, u).state;
    ArgumentsBuilt(t, n, arity, used, c, u);
    var o := Exec(a.code, c, u);
    NextBuilt(t, n, z, arity, used, c, o, u);
    PartsBuilt(t, w, a.code, last.code, m, u);
  }

  lemma {:induction false} BodyOpens(t: Term, w: Where, arity: nat, used: set<nat>, m: State, u: Unifier)
    requires Proper(t) && t.Struct? && w.body && AtTarget(m, VarsOf(t)) && SlotsKnown(m, VarsOf(t), used, arity)
    ensures var o := Exec(Opening(t.functor, w), m, u); Begins(o, m, t, w.right) && AtNew(o.state, t, used, arity)
  {
    hide Reduces, Exec, Opening, WriteOpen, VarsOf;
    OpeningRuns(t.functor, w, m, u);
    OpenMakes(m, t, w.right);
    var n := Exec(Opening(t.functor, w), m, u).state;
    forall i: nat | n.argp.i <= i < n.argp.i + |t.args|
      ensures Global(i) !in n.h
    {
      assert Global(i) in m.h ==> CellOk(m.h, m.gtop, Global(i), m.h[Global(i)]);
      assert Global(i) in n.h.Keys <==> Global(i) in m.h.Keys + {m.argp};
    }
    forall i | i in VarsOf(t)
      ensures Local(n.fr + i) in n.h <==> i in used || i < arity
    {
      assert Local(n.fr + i) in n.h.Keys <==> Local(n.fr + i) in m.h.Keys + {m.argp};
    }
  }

  /** A term: its opening instruction, its arguments, and its end. */
  lemma {:induction false} PartsBuilt(t: Term, w: Where, x: Codes, y: Codes, m: State, u: Unifier)
    requires t.Struct? && w.body && Begins(Exec(Opening(t.functor, w), m, u), m, t, w.right)
    requires var c := Exec(Opening(t.functor, w), m, u).state;
             var o := Exec(x, c, u);
             o.Done? && BuiltAll(Exec(y, o.state, u), c, t, |t.args|, c.argp.i)
    ensures Built(Exec(Parts(t.functor, w, x + y), m, u), m, t, w)
  {
    hide Exec, Reduces, Ok, Opening, Ending, VarsOf, VarsOfArgs, Fills;
    var f, z, e := t.functor, Opening(t.functor, w), Ending(w);
    var c := Exec(z, m, u).state;
    ExecJoin(x, y, c, u);
    ExecJoin(z, x + y, m, u);
    var p := Exec(z + (x + y), m, u);
    ExecJoin(z + (x + y), e, m, u);
    ReducesJoin(m.fr, m.h, [Equation(t, m.argp)], m.gtop, c.h, ArgEquations(t, |t.args|, m.gtop), c.gtop, p.state.h, []);
    EndingRuns(w, p.state, u);
    VarsOfFirst(t, |t.args|);
    var q := Exec(e, p.state, u).state;
    FillsTerm(m, c, p.state, |t.args|, VarsOf(t));
    FillsMoved(m, p.state, q, {m.argp}, VarsOf(t));
  }

  lemma {:induction false} FillsTerm(m: State, c: State, p: State, n: nat, vars: set<nat>)
    requires c.h.Keys == m.h.Keys + {m.argp} && c.gtop == m.gtop + n && c.fr == m.fr && c.gtop <= p.gtop
    requires Fills(c, p, ArgCells(m.gtop, n), vars, c.gtop)
    ensures Fills(m, p, {m.argp}, vars, m.gtop)
  {
    forall a: Addr
      ensures a in c.h <==> a in m.h || a == m.argp
    {
      assert a in c.h.Keys <==> a in m.h.Keys + {m.argp};
    }
  }

  lemma FillsMoved(m: State, p: State, q: State, cells: set<Addr>, vars: set<nat>)
    requires Fills(m, p, cells, vars, m.gtop) && q.h == p.h && q.gtop == p.gtop
    ensures Fills(m, q, cells, vars, m.gtop)
  {
  }

  // ---------- goals

  /** The goals whose arguments go to the next frame. */
  predicate PassesArguments(t: Term, ci: Info) {
    t.Var? || (t.Struct? && (t.functor == Functor(Module, 2) || !IsInline(t, ci)))
  }

  /** What is passed: a variable and Module:Goal are called as they are. */
  function Passed(t: Term): seq<Term>
    requires t.Var? || t.Struct?
  {
    if t.Var? || t.functor == Functor(Module, 2) then [t] else t.args
  }

  /** The terms are to stand in the argument block of the next frame. */
  function CallEquations(args: seq<Term>, base: nat): (e: seq<Equation>)
    ensures |e| == |args| && forall i :: 0 <= i < |args| ==> e[i] == Equation(args[i], Local(base + i))
  {
    seq(|args|, i requires 0 <= i < |args| => Equation(args[i], Local(base + i)))
  }

  function LocalCells(b: nat, n: nat): (c: set<Addr>)
    ensures forall a: Addr :: a in c <==> a.Local? && b <= a.i < b + n
  {
    if n == 0 then {} else LocalCells(b, n - 1) + {Local(b + n - 1)}
  }

  /** ARGP is at the argument block of the next frame, which lies above the slots of the variables
      and is not initialised. */
  ghost predicate AtCall(m: State, vars: set<nat>, n: nat, used: set<nat>, arity: nat) {
    && Ok(m.h, m.gtop) && m.argp.Local? && SlotsKnown(m, vars, used, arity)
    && (forall i :: i in vars ==> m.fr + i < m.argp.i)
    && forall i: nat :: m.argp.i <= i < m.argp.i + n ==> Local(i) !in m.h
  }

  /** The arguments stand in the argument block of the next frame; besides them the slots of the new
      variables and new terms are initialised. */
  ghost predicate Calls(o: Outcome, m: State, args: seq<Term>, vars: set<nat>) {
    Makes(o, m, CallEquations(args, m.argp.i)) && o.state.stack == m.stack && Fills(m, o.state, LocalCells(m.argp.i, |args|), vars, m.gtop)
  }

  lemma {:induction false} NextPassed(t: Term, n: nat, arity: nat, used: set<nat>, m: State, o: Outcome, u: Unifier)
    requires Proper(t) && t.Struct? && n < |t.args| && AtCall(m, VarsOf(t), |t.args|, used, arity)
    requires Calls(o, m, t.args[..n], VarsOfArgs(t, n)) && o.state.argp == Local(m.argp.i + n)
    ensures var now := CompileArguments(t, n, PLAIN, arity, used).used;
            var p := Exec(CompileArgument(t.args[n], PLAIN, arity, now).code, o.state, u);
            Calls(p, m, t.args[..n + 1], VarsOfArgs(t, n + 1)) && p.state.argp == Local(m.argp.i + n + 1)
  {
    hide CompileArgument, CompileArguments, Exec, Reduces, Ok, VarsOf, VarsOfArgs, Fills, SlotsKnown;
    var b, c := m.argp.i, o.state;
    var now := CompileArguments(t, n, PLAIN, arity, used).used;
    var p := Exec(CompileArgument(t.args[n], PLAIN, arity, now).code, c, u);
    ArgumentsUse(t, n, PLAIN, arity, used);
    assert |t.args[..n]| == n;
    AboveSlots(m, b, n, VarsOf(t));
    SlotsAfter(m, c, LocalCells(b, n), VarsOfArgs(t, n), VarsOf(t), used, arity);
    VarsOfPart(t, n);
    SlotsOf(c, VarsOf(t), VarsOf(t.args[n]), now, arity);
    VarsOfFirst(t, n);
    VarsInFirst(t, n);
    CellIsFree(m, c, b, n, VarsOfArgs(t, n), VarsOf(t));
    ArgumentBuilt(t.args[n], PLAIN, arity, now, c, u);
    assert CallEquations(t.args[..n + 1], b) == CallEquations(t.args[..n], b) + [Equation(t.args[n], Local(b + n))];
    MakesThen(o, m, CallEquations(t.args[..n], b), p, [Equation(t.args[n], Local(b + n))]);
    FillsThen(m, c, p.state, LocalCells(b, n), {Local(b + n)}, VarsOfArgs(t, n), VarsOf(t.args[n]));
    assert LocalCells(b, n) + {Local(b + n)} == LocalCells(b, n + 1);
    assert |t.args[..n + 1]| == n + 1;
  }

  lemma AboveSlots(m: State, b: nat, n: nat, vars: set<nat>)
    requires forall i :: i in vars ==> m.fr + i < b
    ensures forall a :: a in LocalCells(b, n) ==> !IsSlot(a, m.fr, vars)
  {
  }

  lemma {:induction false} VarsInFirst(t: Term, n: nat)
    requires t.Struct? && n <= |t.args|
    ensures VarsOfArgs(t, n) <= VarsOf(t)
  {
    forall x | x in VarsOfArgs(t, n)
      ensures x in VarsOf(t)
    {
      var i :| 0 <= i < n && x in VarsOf(t.args[i]);
    }
  }

  lemma CellIsFree(m: State, n: State, b: nat, k: nat, vars: set<nat>, all: set<nat>)
    requires Fills(m, n, LocalCells(b, k), vars, m.gtop) && Local(b + k) !in m.h && vars <= all && forall i :: i in all ==> m.fr + i < b
    ensures Local(b + k) !in n.h
  {
  }

  lemma {:induction false} AllPassed(t: Term, n: nat, arity: nat, used: set<nat>, m: State, u: Unifier)
    requires Proper(t) && t.Struct? && n <= |t.args| && AtCall(m, VarsOf(t), |t.args|, used, arity)
    ensures var o := Exec(CompileArguments(t, n, PLAIN, arity, used).code, m, u);
            Calls(o, m, t.args[..n], VarsOfArgs(t, n)) && o.state.argp == Local(m.argp.i + n)
    decreases n
  {
    hide CompileArgument, CompileArguments, Exec, VarsOf, VarsOfArgs;
    ArgumentsStep(t, if n == 0 then 0 else n - 1, PLAIN, arity, used);
    if n == 0 {
      hide Reduces, Ok;
      ExecNothing(m, u);
      ReducesNot(m.fr, m.h, [], m.gtop);
      NoArgs(t);
      assert CallEquations([], m.argp.i) == [];
    } else {
      hide Reduces, Ok, Fills, SlotsKnown;
      var a := CompileArguments(t, n - 1, PLAIN, arity, used);
      var r := CompileArgument(t.args[n - 1], PLAIN, arity, a.used);
      AllPassed(t, n - 1, arity, used, m, u);
      ExecJoin(a.code, r.code, m, u);
      NextPassed(t, n - 1, arity, used, m, Exec(a.code, m, u), u);
    }
  }

  lemma {:induction false} OnePassed(t: Term, arity: nat, used: set<nat>, m: State, u: Unifier)
    requires Proper(t) && AtCall(m, VarsOf(t), 1, used, arity)
    ensures Calls(Exec(CompileArgument(t, PLAIN, arity, used).code, m, u), m, [t], VarsOf(t))
  {
    hide CompileArgument, Exec, Reduces, Ok, VarsOf, Fills, SlotsKnown;
    ArgumentBuilt(t, PLAIN, arity, used, m, u);
    assert CallEquations([t], m.argp.i) == [Equation(t, m.argp)];
    assert LocalCells(m.argp.i, 1) == {m.argp};
  }

  /** The instruction that calls a goal. */
  lemma CallStarts(f: Functor, last: bool) returns (op: Opcode, y: Codes)
    ensures op in CALLS && CallCode(f, last) == [Op(op)] + y
  {
    var x := CallCode(f, last);
    op, y := x[0].op, x[1..];
  }

  /** The code of a goal, up to its call, builds its arguments in the next frame. */
  lemma {:induction false} GoalBuilds(t: Term, last: bool, ci: Info, cutvar: Option<nat>, used: set<nat>, m: State, u: Unifier)
    requires Proper(t) && PassesArguments(t, ci) && AtCall(m, VarsOf(t), |Passed(t)|, used, ci.arity)
    ensures CompileSubClause(t, last, ci, cutvar, used).Some?
    ensures Calls(RunTo(CompileSubClause(t, last, ci, cutvar, used).value.code, CALLS, m, u), m, Passed(t), VarsOf(t))
  {
    hide CompileArgument, CompileArguments, Exec, RunTo, AtCall, Reduces, Ok, VarsOf, VarsOfArgs, Fills, CallCode, CallEquations;
    if t.Var? || t.functor == Functor(Module, 2) {
      var x := CompileArgument(t, PLAIN, ci.arity, used).code;
      OnePassed(t, ci.arity, used, m, u);
      RunsTo(x, CALLS, I_USERCALL0, [], m, u);
      assert x + ([Op(I_USERCALL0)] + []) == x + [Op(I_USERCALL0)];
    } else {
      var x := CompileArguments(t, |t.args|, PLAIN, ci.arity, used).code;
      AllPassed(t, |t.args|, ci.arity, used, m, u);
      VarsOfFirst(t, |t.args|);
      assert t.args[..|t.args|] == t.args;
      var op, y := CallStarts(t.functor, last);
      RunsTo(x, CALLS, op, y, m, u);
    }
  }
}
