/** The code of a head, run on the arguments of a goal, does what unification does (pl-comp.c,
    compileArgument() and compileClause(); pl-wam.c, H_CONST to I_POPF). */
module HeadMatching {
  import opened Clauses
  import opened Bindings
  import opened ArgumentCode
  import opened Decompiler
  import opened ArgumentRoundTrip
  import opened HeadRoundTrip

  // ---------- unification

  /** What unify() promises: the solutions are those in which both cells stand for the same term. */
  ghost predicate Unifies(h: Cells, gtop: nat, a: Addr, b: Addr, r: Option<Cells>) {
    match r
    case None => forall s: Valuation :: Solves(s, h) ==> s(a) != s(b)
    case Some(k) => k.Keys == h.Keys && Ok(k, gtop) && forall s: Valuation :: Solves(s, k) <==> Solves(s, h) && s(a) == s(b)
  }

  ghost predicate IsUnifier(u: Unifier) {
    forall h: Cells, gtop: nat, a: Addr, b: Addr {:trigger u(h, a, b), Ok(h, gtop)} ::
      Ok(h, gtop) && Full(h, gtop) && a in h && b in h ==> Unifies(h, gtop, a, b, u(h, a, b))
  }

  // ---------- one instruction

  ghost predicate Ready(m: State) {
    Ok(m.h, m.gtop) && Full(m.h, m.gtop)
  }

  /** From m, code that ends in o solves the equations: it fails only if there is no solution, and
      ends with cells that stand for the solutions. */
  ghost predicate Does(o: Outcome, m: State, eqs: seq<Equation>) {
    match o
    case Stuck => false
    case Fails => Impossible(m.fr, m.h, eqs)
    case Done(n) =>
      && n.fr == m.fr && m.gtop <= n.gtop && Ready(n) && m.h.Keys <= n.h.Keys
      && Reduces(m.fr, m.h, eqs, m.gtop, n.h, [])
  }

  predicate HasSlot(m: State, i: nat) {
    Local(m.fr + i) in m.h
  }

  /** The slots that are initialised: the arguments and those of the variables used. */
  ghost predicate SlotsFit(m: State, used: set<nat>, arity: nat) {
    forall i: nat :: HasSlot(m, i) <==> i in used || i < arity
  }

  lemma SlotsStay(m: State, n: State, used: set<nat>, arity: nat, more: set<nat>)
    requires SlotsFit(m, used, arity) && n.fr == m.fr && n.h.Keys == m.h.Keys && forall i :: i in more ==> i in used || i < arity
    ensures SlotsFit(n, used + more, arity)
  {
    forall i: nat
      ensures HasSlot(n, i) <==> HasSlot(m, i)
    {
      assert Local(m.fr + i) in n.h.Keys <==> Local(m.fr + i) in m.h.Keys;
    }
  }

  lemma SlotsGrow(m: State, n: State, used: set<nat>, arity: nat, i: nat)
    requires SlotsFit(m, used, arity) && n.fr == m.fr && n.h.Keys == m.h.Keys + {Local(m.fr + i)}
    ensures SlotsFit(n, used + {i}, arity)
  {
    forall j: nat
      ensures HasSlot(n, j) <==> HasSlot(m, j) || i == j
    {
      assert Local(m.fr + j) in n.h.Keys <==> Local(m.fr + j) in m.h.Keys + {Local(m.fr + i)};
    }
  }

  /** ARGP goes to the next argument. */
  predicate Moves(o: Outcome, m: State) {
    o.Done? ==> o.state.argp == After(m.argp) && o.state.stack == m.stack
  }

  lemma {:induction false} ConstDoes(m: State, t: Term)
    requires Ready(m) && m.argp in m.h && IsConstant(t)
    ensures var o := MatchConst(m, t);
            Does(o, m, [Equation(t, m.argp)]) && Moves(o, m) && (o.Done? ==> o.state.h.Keys == m.h.Keys)
  {
    hide Reduces, Solves;
    var k := Deref(m.h, m.argp);
    DerefOk(m.h, m.gtop, m.argp);
    forall s: Valuation | Solves(s, m.h)
      ensures s(k) == s(m.argp) && HoldsAt(s, k, m.h[k])
    {
      DerefSame(m.h, m.gtop, m.argp, s);
      SolvesAt(s, m.h, k);
    }
    var e := [Equation(t, m.argp)];
    forall s: Valuation
      ensures Meets(s, m.fr, e) <==> s(m.argp) == Leaf(t)
    {
      OneMeets(s, m.fr, t, m.argp);
    }
    if m.h[k].Unbound? {
      SetReduces(m.fr, m.h, m.gtop, t, m.argp, k, Atomic(t));
      assert CellOk(m.h, m.gtop, k, m.h[k]);
      SetOk(m.h, m.gtop, k, Atomic(t));
    } else if m.h[k] == Atomic(t) {
      SameSolutions(m.fr, m.h, e, m.gtop, m.h, []);
    }
  }

  lemma {:induction false} FirstDoes(m: State, i: nat)
    requires Ready(m) && m.argp in m.h && Local(m.fr + i) !in m.h && Below(m.argp, Local(m.fr + i))
    ensures var o := MatchFirst(m, i);
            && o.Done? && Does(o, m, [Equation(Var(i), m.argp)]) && Moves(o, m)
            && o.state.h.Keys == m.h.Keys + {Local(m.fr + i)}
  {
    hide Reduces, Solves;
    var k := Local(m.fr + i);
    var c := if m.h[m.argp].Unbound? then Ref(m.argp) else m.h[m.argp];
    forall s: Valuation | Solves(s, m.h)
      ensures Matches(s, m.fr, Var(i), s(m.argp)) <==> HoldsAt(s, k, c)
    {
      SolvesAt(s, m.h, m.argp);
    }
    SetReduces(m.fr, m.h, m.gtop, Var(i), m.argp, k, c);
    assert CellOk(m.h, m.gtop, m.argp, m.h[m.argp]);
    SetOk(m.h, m.gtop, k, c);
  }

  lemma {:induction false} VarDoes(m: State, i: nat, u: Unifier)
    requires Ready(m) && m.argp in m.h && Local(m.fr + i) in m.h && IsUnifier(u)
    ensures var o := MatchVar(m, i, u);
            Does(o, m, [Equation(Var(i), m.argp)]) && Moves(o, m) && (o.Done? ==> o.state.h.Keys == m.h.Keys)
  {
    hide Reduces, Solves;
    var k, e := Local(m.fr + i), [Equation(Var(i), m.argp)];
    assert Unifies(m.h, m.gtop, k, m.argp, u(m.h, k, m.argp));
    forall s: Valuation
      ensures Meets(s, m.fr, e) <==> s(k) == s(m.argp)
    {
      OneMeets(s, m.fr, Var(i), m.argp);
    }
    var r := u(m.h, k, m.argp);
    if r.Some? {
      SameSolutions(m.fr, m.h, e, m.gtop, r.value, []);
    }
  }

  /** The same slots are initialised. */
  ghost predicate SameSlots(m: State, n: State) {
    forall i: nat :: Local(i) in n.h <==> Local(i) in m.h
  }

  /** The first instruction of a term: afterwards ARGP is at the first argument. */
  ghost predicate Opens(o: Outcome, m: State, t: Term, right: bool)
    requires t.Struct?
  {
    match o
    case Stuck => false
    case Fails => Impossible(m.fr, m.h, [Equation(t, m.argp)])
    case Done(n) =>
      && n.fr == m.fr && m.gtop <= n.gtop && Ready(n) && m.h.Keys <= n.h.Keys && SameSlots(m, n)
      && n.argp.Global? && n.argp.i + |t.args| <= n.gtop && n.stack == (if right then m.stack else m.stack + [After(m.argp)])
      && Reduces(m.fr, m.h, [Equation(t, m.argp)], m.gtop, n.h, ArgEquations(t, |t.args|, n.argp.i))
  }

  lemma {:induction false} OpenDoes(m: State, t: Term, right: bool)
    requires Ready(m) && m.argp in m.h && Proper(t) && t.Struct?
    ensures Opens(MatchOpen(m, t.functor, right), m, t, right)
  {
    var k := Deref(m.h, m.argp);
    DerefOk(m.h, m.gtop, m.argp);
    assert CellOk(m.h, m.gtop, k, m.h[k]);
    forall s: Valuation | Solves(s, m.h)
      ensures s(k) == s(m.argp) && HoldsAt(s, k, m.h[k])
    {
      DerefSame(m.h, m.gtop, m.argp, s);
      SolvesAt(s, m.h, k);
    }
    if m.h[k].Unbound? {
      OpenNew(m, t, right, k);
    } else {
      OpenOld(m, t, right, k);
    }
  }

  lemma {:induction false} OpenNew(m: State, t: Term, right: bool, k: Addr)
    requires Ready(m) && m.argp in m.h && Proper(t) && t.Struct? && k == Deref(m.h, m.argp) && k in m.h && m.h[k] == Unbound
    requires CellOk(m.h, m.gtop, k, m.h[k]) && forall s: Valuation :: Solves(s, m.h) ==> s(k) == s(m.argp)
    ensures Opens(MatchOpen(m, t.functor, right), m, t, right)
  {
    hide Solves, Reduces, Meets, Ok, Full, ArgEquations;
    var e := ArgEquations(t, |t.args|, m.gtop);
    var l, more := m.h[k := Compound(t.functor, m.gtop)], Fresh(m.gtop, t.functor.arity);
    OpenReduces(m.fr, m.h, m.gtop, t, m.argp, k);
    FreshIsNew(m.h, m.gtop, k, Compound(t.functor, m.gtop), t.functor.arity);
    forall s: Valuation
      ensures Solves(s, l + more) <==> Solves(s, l)
    {
      NewSolves(l, more, s);
    }
    SameSolutions(m.fr, l, e, m.gtop, l + more, e);
    ReducesJoin(m.fr, m.h, [Equation(t, m.argp)], m.gtop, l, e, m.gtop, l + more, e);
    NewOk(m.h, m.gtop, k, t.functor);
  }

  lemma FreshIsNew(h: Cells, gtop: nat, k: Addr, c: Content, n: nat)
    requires Ok(h, gtop) && k in h
    ensures forall a :: a in Fresh(gtop, n) ==> a !in h[k := c] && Fresh(gtop, n)[a] == Unbound
  {
    forall a | a in Fresh(gtop, n)
      ensures a !in h
    {
      assert a in h ==> CellOk(h, gtop, a, h[a]);
    }
  }

  lemma {:induction false} NewOk(h: Cells, gtop: nat, k: Addr, f: Functor)
    requires Ok(h, gtop) && Full(h, gtop) && (k.Local? || k.i < gtop)
    ensures var l := h[k := Compound(f, gtop)] + Fresh(gtop, f.arity); Ok(l, gtop + f.arity) && Full(l, gtop + f.arity)
  {
    var l := h[k := Compound(f, gtop)] + Fresh(gtop, f.arity);
    forall a | a in l
      ensures CellOk(l, gtop + f.arity, a, l[a])
    {
      assert a in h ==> CellOk(h, gtop, a, h[a]);
    }
    forall i: nat | i < gtop + f.arity
      ensures Global(i) in l
    {
      assert i < gtop ==> Global(i) in h;
    }
  }

  lemma {:induction false} OpenOld(m: State, t: Term, right: bool, k: Addr)
    requires Ready(m) && m.argp in m.h && Proper(t) && t.Struct? && k == Deref(m.h, m.argp) && k in m.h && !m.h[k].Unbound? && !m.h[k].Ref?
    requires CellOk(m.h, m.gtop, k, m.h[k]) && forall s: Valuation :: Solves(s, m.h) ==> s(k) == s(m.argp) && HoldsAt(s, k, m.h[k])
    ensures Opens(MatchOpen(m, t.functor, right), m, t, right)
  {
    hide Solves, Reduces;
    var e := [Equation(t, m.argp)];
    forall s: Valuation
      ensures Meets(s, m.fr, e) <==> Matches(s, m.fr, t, s(m.argp))
    {
      OneMeets(s, m.fr, t, m.argp);
    }
    if m.h[k].Compound? && m.h[k].functor == t.functor {
      var b := m.h[k].base;
      var d := ArgEquations(t, |t.args|, b);
      forall s: Valuation
        ensures Meets(s, m.fr, d) <==> Matches(s, m.fr, t, Node(t.functor, Kids(s, b, t.functor.arity)))
      {
        KidsMatch(s, m.fr, t, b);
      }
      hide Meets, Matches;
      SameSolutions(m.fr, m.h, e, m.gtop, m.h, d);
    }
  }

  // ---------- code

  lemma {:induction false} DoesOpened(o: Outcome, m: State, t: Term, right: bool, p: Outcome)
    requires t.Struct? && Opens(o, m, t, right) && o.Done? && Does(p, o.state, ArgEquations(t, |t.args|, o.state.argp.i))
    ensures Does(p, m, [Equation(t, m.argp)])
  {
    hide Reduces, Impossible, Ok, Full;
    var n := o.state;
    var e, d := [Equation(t, m.argp)], ArgEquations(t, |t.args|, n.argp.i);
    match p
    case Fails => ImpossibleBack(m.fr, m.h, e, m.gtop, n.h, d);
    case Done(q) => ReducesJoin(m.fr, m.h, e, m.gtop, n.h, d, n.gtop, q.h, []);
  }

  lemma {:induction false} DoesThen(o: Outcome, m: State, a: seq<Equation>, p: Outcome, b: seq<Equation>)
    requires Does(o, m, a) && Old(b, m.gtop) && (if o.Done? then Does(p, o.state, b) else p == o)
    ensures Does(p, m, a + b)
  {
    hide Reduces, Impossible, Ok, Full, Old;
    match o
    case Fails => ImpossibleMore(m.fr, m.h, a, b);
    case Done(n) =>
      ReducesMore(m.fr, m.h, a, m.gtop, n.h, [], b);
      assert [] + b == b;
      match p
      case Fails => ImpossibleBack(m.fr, m.h, a + b, m.gtop, n.h, b);
      case Done(q) => ReducesJoin(m.fr, m.h, a + b, m.gtop, n.h, b, n.gtop, q.h, []);
  }

  /** The code of an argument of the head has run. */
  ghost predicate Handles(o: Outcome, m: State, t: Term, w: Where, used: set<nat>, arity: nat) {
    && Does(o, m, [Equation(t, m.argp)])
    && (o.Done? ==> SlotsFit(o.state, used, arity) && o.state.stack == m.stack)
    && (o.Done? && !(w.right && t.Struct?) ==> o.state.argp == After(m.argp))
  }

  /** ARGP is at an argument that lies below the slots of the other variables. */
  ghost predicate AtArgument(m: State, used: set<nat>, arity: nat) {
    Ready(m) && m.argp in m.h && Below(m.argp, Local(m.fr + arity)) && SlotsFit(m, used, arity)
  }

  lemma {:induction false} VarHandled(i: nat, w: Where, arity: nat, used: set<nat>, m: State, u: Unifier)
    requires !w.body && AtArgument(m, used, arity) && IsUnifier(u)
    requires CompileVar(i, w, arity, used).void ==> m.argp == Local(m.fr + i)
    ensures Handles(Exec(CompileVar(i, w, arity, used).code, m, u), m, Var(i), w, used + {i}, arity)
  {
    hide Reduces, Ok, Full, IsUnifier, SlotsFit, Exec, Handles, MatchVar, MatchFirst;
    var r := CompileVar(i, w, arity, used);
    var o := Exec(r.code, m, u);
    ExecOne(r.code, m, u);
    assert HasSlot(m, i) <==> i in used || i < arity by { SlotsSay(m, used, arity, i); }
    if i >= arity && i !in used {
      FirstDoes(m, i);
      SlotsGrow(m, o.state, used, arity, i);
      HandlesIf(o, m, Var(i), w, used + {i}, arity);
    } else {
      if r.void {
        VoidDoes(m, Var(i));
      } else {
        VarDoes(m, i, u);
      }
      HandlesSame(o, m, Var(i), w, used, arity, {i});
    }
  }

  lemma SlotsSay(m: State, used: set<nat>, arity: nat, i: nat)
    requires SlotsFit(m, used, arity)
    ensures HasSlot(m, i) <==> i in used || i < arity
  {
  }

  lemma {:induction false} VoidDoes(m: State, t: Term)
    requires Ready(m) && (t == Void || (t.Var? && m.argp == Local(m.fr + t.index)))
    ensures Does(Advance(m, m.h), m, [Equation(t, m.argp)])
  {
    hide Reduces, Solves;
    var e := [Equation(t, m.argp)];
    forall s: Valuation
      ensures Meets(s, m.fr, e)
    {
      OneMeets(s, m.fr, t, m.argp);
    }
    SameSolutions(m.fr, m.h, e, m.gtop, m.h, []);
  }

  lemma {:induction false} SimpleHandled(t: Term, w: Where, arity: nat, used: set<nat>, m: State, u: Unifier)
    requires !w.body && AtArgument(m, used, arity) && IsUnifier(u) && Proper(t) && !t.Struct?
    requires CompileArgument(t, w, arity, used).void && t.Var? ==> m.argp == Local(m.fr + t.index)
    ensures Handles(Exec(CompileArgument(t, w, arity, used).code, m, u), m, t, w, CompileArgument(t, w, arity, used).used, arity)
  {
    hide Reduces, Ok, Full, IsUnifier, MatchConst, Handles;
    var r := CompileArgument(t, w, arity, used);
    if t.Var? {
      VarHandled(t.index, w, arity, used, m, u);
    } else if t == Void {
      ExecOne(r.code, m, u);
      VoidDoes(m, t);
      HandlesSame(Exec(r.code, m, u), m, t, w, used, arity, {});
      assert used + {} == used;
    } else {
      ConstantCode(t, w, arity, used);
      ExecOne(r.code, m, u);
      ConstDoes(m, t);
      HandlesSame(Exec(r.code, m, u), m, t, w, used, arity, {});
      assert used + {} == used;
    }
  }

  lemma HandlesIf(o: Outcome, m: State, t: Term, w: Where, used: set<nat>, arity: nat)
    requires Does(o, m, [Equation(t, m.argp)]) && Moves(o, m) && (o.Done? ==> SlotsFit(o.state, used, arity))
    ensures Handles(o, m, t, w, used, arity)
  {
    hide Does, SlotsFit;
  }

  lemma HandlesSame(o: Outcome, m: State, t: Term, w: Where, used: set<nat>, arity: nat, more: set<nat>)
    requires Does(o, m, [Equation(t, m.argp)]) && Moves(o, m) && (o.Done? ==> o.state.h.Keys == m.h.Keys)
    requires SlotsFit(m, used, arity) && forall i :: i in more ==> i in used || i < arity
    ensures Handles(o, m, t, w, used + more, arity)
  {
    hide Reduces, Ok, Full, SlotsFit;
    if o.Done? {
      SlotsStay(m, o.state, used, arity, more);
    }
    HandlesIf(o, m, t, w, used + more, arity);
  }

  /** The code of the first n arguments of t has run; they are the cells from b on. */
  ghost predicate HandlesAll(o: Outcome, m: State, t: Term, n: nat, b: nat, used: set<nat>, arity: nat)
    requires t.Struct? && n <= |t.args|
  {
    && Does(o, m, ArgEquations(t, n, b))
    && (o.Done? ==> SlotsFit(o.state, used, arity) && o.state.stack == m.stack)
  }

  /** ARGP is at the first argument of t. */
  ghost predicate AtArguments(m: State, t: Term, used: set<nat>, arity: nat)
    requires t.Struct?
  {
    Ready(m) && m.argp.Global? && m.argp.i + |t.args| <= m.gtop && SlotsFit(m, used, arity)
  }

  lemma {:induction false} ArgumentsHandled(t: Term, n: nat, arity: nat, used: set<nat>, m: State, u: Unifier)
    requires Proper(t) && t.Struct? && n <= |t.args| && AtArguments(m, t, used, arity) && IsUnifier(u)
    ensures var r := CompileArguments(t, n, Where(false, true, false), arity, used);
            var o := Exec(r.code, m, u);
            HandlesAll(o, m, t, n, m.argp.i, r.used, arity) && (o.Done? ==> o.state.argp == Global(m.argp.i + n))
    decreases t, 0, n
  {
    hide CompileArgument, CompileArguments, Exec, Reduces, Ok, IsUnifier;
    var w, b := Where(false, true, false), m.argp.i;
    ArgumentsStep(t, if n == 0 then 0 else n - 1, w, arity, used);
    if n == 0 {
      ExecNothing(m, u);
      ReducesNot(m.fr, m.h, [], m.gtop);
    } else {
      var a := CompileArguments(t, n - 1, w, arity, used);
      var r := CompileArgument(t.args[n - 1], w, arity, a.used);
      ArgumentsHandled(t, n - 1, arity, used, m, u);
      var o := Exec(a.code, m, u);
      ExecJoin(a.code, r.code, m, u);
      EquationsStep(t, n - 1, b);
      if o.Done? {
        NotVoidBelow(t.args[n - 1], w, arity, a.used);
        ArgumentHandled(t.args[n - 1], w, arity, a.used, o.state, u);
      }
      DoesThen(o, m, ArgEquations(t, n - 1, b), Exec(a.code + r.code, m, u), [Equation(t.args[n - 1], Global(b + n - 1))]);
    }
  }

  /** Below the top of a term, only voids have no code of their own. */
  lemma {:induction false} NotVoidBelow(t: Term, w: Where, arity: nat, used: set<nat>)
    requires Proper(t) && w.arg
    ensures CompileArgument(t, w, arity, used).void ==> !t.Var?
  {
  }

  /** The code of an argument of the head, run on a cell, solves their equation. */
  lemma {:induction false} ArgumentHandled(t: Term, w: Where, arity: nat, used: set<nat>, m: State, u: Unifier)
    requires Proper(t) && !w.body && AtArgument(m, used, arity) && IsUnifier(u)
    requires CompileArgument(t, w, arity, used).void && t.Var? ==> m.argp == Local(m.fr + t.index)
    ensures Handles(Exec(CompileArgument(t, w, arity, used).code, m, u), m, t, w, CompileArgument(t, w, arity, used).used, arity)
    decreases t, 1, 0
  {
    hide *;
    if !t.Struct? {
      SimpleHandled(t, w, arity, used, m, u);
    } else {
      ArgumentsThere(t);
      if t.args[|t.args| - 1].Void? {
        TrimmedHandled(t, w, arity, used, m, u);
      } else {
        WholeHandled(t, w, arity, used, m, u);
      }
    }
  }

  lemma {:induction false} TrimmedHandled(t: Term, w: Where, arity: nat, used: set<nat>, m: State, u: Unifier)
    requires Proper(t) && t.Struct? && t.args[|t.args| - 1].Void? && !w.body && AtArgument(m, used, arity) && IsUnifier(u)
    ensures Handles(Exec(CompileArgument(t, w, arity, used).code, m, u), m, t, w, CompileArgument(t, w, arity, used).used, arity)
    decreases t, 0, |t.args| + 1
  {
    hide *;
    var k := TrimmedCode(t, w, arity, used);
    var v := Where(false, true, false);
    assert Where(w.body, true, false) == v;
    var a := CompileArguments(t, k, v, arity, used);
    var o := Exec(Opening(t.functor, w), m, u);
    HeadOpens(t, w, arity, used, m, u);
    if o.Done? {
      ArgumentsHandled(t, k, arity, used, o.state, u);
      FirstIsGlobal(o.state, t, used, arity);
      HandlesVoids(Exec(a.code, o.state, u), o.state, t, k, a.used, arity);
    }
    TrimmedUses(t, w, arity, used, k);
    PartsHandled(t, w, a.code, used, a.used, arity, m, u);
  }

  lemma {:induction false} WholeHandled(t: Term, w: Where, arity: nat, used: set<nat>, m: State, u: Unifier)
    requires Proper(t) && t.Struct? && !t.args[|t.args| - 1].Void? && !w.body && AtArgument(m, used, arity) && IsUnifier(u)
    ensures Handles(Exec(CompileArgument(t, w, arity, used).code, m, u), m, t, w, CompileArgument(t, w, arity, used).used, arity)
    decreases t, 0, |t.args| + 1
  {
    hide *;
    ArgumentsThere(t);
    WholeCode(t, w, arity, used);
    var n, v, z := |t.args| - 1, Where(false, true, false), Where(false, true, true);
    assert Where(w.body, true, false) == v && Where(w.body, true, true) == z;
    var a := CompileArguments(t, n, v, arity, used);
    var last := CompileArgument(t.args[n], z, arity, a.used);
    var o := Exec(Opening(t.functor, w), m, u);
    HeadOpens(t, w, arity, used, m, u);
    if o.Done? {
      LastHandled(t, arity, used, o.state, u);
    }
    PartsHandled(t, w, a.code + last.code, used, last.used, arity, m, u);
  }

  lemma FirstIsGlobal(m: State, t: Term, used: set<nat>, arity: nat)
    requires t.Struct? && AtArguments(m, t, used, arity)
    ensures m.argp.Global?
  {
  }

  /** All arguments of a term, the last one compiled as such. */
  lemma {:induction false} LastHandled(t: Term, arity: nat, used: set<nat>, m: State, u: Unifier)
    requires Proper(t) && t.Struct? && |t.args| > 0 && AtArguments(m, t, used, arity) && IsUnifier(u)
    ensures var n := |t.args| - 1;
            var a := CompileArguments(t, n, Where(false, true, false), arity, used);
            var last := CompileArgument(t.args[n], Where(false, true, true), arity, a.used);
            HandlesAll(Exec(a.code + last.code, m, u), m, t, |t.args|, m.argp.i, last.used, arity)
    decreases t, 0, |t.args|
  {
    hide CompileArgument, CompileArguments, Exec, Reduces, Ok, IsUnifier;
    var n, b := |t.args| - 1, m.argp.i;
    var a := CompileArguments(t, n, Where(false, true, false), arity, used);
    var last := CompileArgument(t.args[n], Where(false, true, true), arity, a.used);
    ArgumentsHandled(t, n, arity, used, m, u);
    var o := Exec(a.code, m, u);
    ExecJoin(a.code, last.code, m, u);
    EquationsStep(t, n, b);
    if o.Done? {
      NotVoidBelow(t.args[n], Where(false, true, true), arity, a.used);
      ArgumentHandled(t.args[n], Where(false, true, true), arity, a.used, o.state, u);
    }
    DoesThen(o, m, ArgEquations(t, n, b), Exec(a.code + last.code, m, u), [Equation(t.args[n], Global(b + n))]);
  }

  lemma {:induction false} HeadOpens(t: Term, w: Where, arity: nat, used: set<nat>, m: State, u: Unifier)
    requires Proper(t) && t.Struct? && !w.body && AtArgument(m, used, arity)
    ensures var o := Exec(Opening(t.functor, w), m, u);
            Opens(o, m, t, w.right) && (o.Done? ==> AtArguments(o.state, t, used, arity))
  {
    hide Reduces, Ok, Full, Exec, MatchOpen;
    OpeningRuns(t.functor, w, m, u);
    OpenDoes(m, t, w.right);
    var o := Exec(Opening(t.functor, w), m, u);
    if o.Done? {
      forall i: nat
        ensures HasSlot(o.state, i) <==> HasSlot(m, i)
      {
        assert Local(m.fr + i) in o.state.h <==> Local(m.fr + i) in m.h;
      }
    }
  }

  /** Arguments that are void are right as they are. */
  lemma {:induction false} HandlesVoids(o: Outcome, m: State, t: Term, k: nat, used: set<nat>, arity: nat)
    requires t.Struct? && k <= |t.args| && m.argp.Global? && HandlesAll(o, m, t, k, m.argp.i, used, arity)
    requires forall i :: k <= i < |t.args| ==> t.args[i] == Void
    ensures HandlesAll(o, m, t, |t.args|, m.argp.i, used, arity)
  {
    hide Reduces, Ok, Full, SlotsFit, Impossible;
    var b := m.argp.i;
    var e, d := ArgEquations(t, |t.args|, b), ArgEquations(t, k, b);
    forall s: Valuation
      ensures Meets(s, m.fr, e) <==> Meets(s, m.fr, d)
    {
      VoidsMeet(s, m.fr, t, k, b);
    }
    SameSolutions(m.fr, m.h, e, m.gtop, m.h, d);
    match o
    case Fails => ImpossibleBack(m.fr, m.h, e, m.gtop, m.h, d);
    case Done(n) => ReducesJoin(m.fr, m.h, e, m.gtop, m.h, d, m.gtop, n.h, []);
  }

  lemma {:induction false} VoidsMeet(s: Valuation, fr: nat, t: Term, k: nat, b: nat)
    requires t.Struct? && k <= |t.args| && forall i :: k <= i < |t.args| ==> t.args[i] == Void
    ensures Meets(s, fr, ArgEquations(t, |t.args|, b)) <==> Meets(s, fr, ArgEquations(t, k, b))
  {
    var e, d := ArgEquations(t, |t.args|, b), ArgEquations(t, k, b);
    if Meets(s, fr, d) {
      forall i | 0 <= i < |e|
        ensures Matches(s, fr, e[i].t, s(e[i].a))
      {
        if i < k {
          assert e[i] == d[i];
        }
      }
    }
    if Meets(s, fr, e) {
      forall i | 0 <= i < |d|
        ensures Matches(s, fr, d[i].t, s(d[i].a))
      {
        assert e[i] == d[i];
      }
    }
  }

  lemma {:induction false} TrimmedUses(t: Term, w: Where, arity: nat, used: set<nat>, k: nat)
    requires Proper(t) && t.Struct? && k <= |t.args| && forall i :: k <= i < |t.args| ==> t.args[i] == Void
    ensures CompileArgument(t, w, arity, used).used == CompileArguments(t, k, Where(w.body, true, false), arity, used).used
  {
    hide CompileArgument, CompileArguments, VarsOf, VarsOfArgs;
    ArgumentUses(t, w, arity, used);
    ArgumentsUse(t, k, Where(w.body, true, false), arity, used);
    VoidsUseNothing(t, k, |t.args|);
    VarsOfFirst(t, |t.args|);
  }

  /** A term: its opening instruction, its arguments, and its end. */
  lemma {:induction false} PartsHandled(t: Term, w: Where, x: Codes, used: set<nat>, now: set<nat>, arity: nat, m: State, u: Unifier)
    requires t.Struct? && !w.body
    requires Opens(Exec(Opening(t.functor, w), m, u), m, t, w.right)
    requires var o := Exec(Opening(t.functor, w), m, u);
             o.Done? ==> HandlesAll(Exec(x, o.state, u), o.state, t, |t.args|, o.state.argp.i, now, arity)
    ensures Handles(Exec(Parts(t.functor, w, x), m, u), m, t, w, now, arity)
  {
    hide Exec, Reduces, Ok, Full, SlotsFit, Impossible, Opening, Ending;
    var f, y, z := t.functor, Opening(t.functor, w), Ending(w);
    var o := Exec(y, m, u);
    ExecJoin(y, x, m, u);
    var p := Exec(y + x, m, u);
    if o.Done? {
      DoesOpened(o, m, t, w.right, p);
    }
    ExecJoin(y + x, z, m, u);
    if p.Done? {
      EndingRuns(w, p.state, u);
      SlotsMove(p.state, Exec(z, p.state, u).state, now, arity);
    }
  }

  lemma SlotsMove(m: State, n: State, used: set<nat>, arity: nat)
    requires SlotsFit(m, used, arity) && n.h == m.h && n.fr == m.fr
    ensures SlotsFit(n, used, arity)
  {
    forall i: nat
      ensures HasSlot(n, i) <==> HasSlot(m, i)
    {
    }
  }

  // ---------- heads

  /** The arguments of a head are to stand in the argument block of the frame. */
  function HeadEquations(h: Term, n: nat, fr: nat): (e: seq<Equation>)
    requires IsHead(h) && n <= |HeadArgs(h)|
    ensures |e| == n && forall i :: 0 <= i < n ==> e[i] == Equation(HeadArgs(h)[i], Local(fr + i))
  {
    seq(n, i requires 0 <= i < n => Equation(HeadArgs(h)[i], Local(fr + i)))
  }

  /** A goal has been called: its arguments are in the frame, and no other slot is initialised. */
  ghost predicate AtHead(m: State, arity: nat) {
    Ready(m) && m.argp == Local(m.fr) && SlotsFit(m, {}, arity)
  }

  lemma {:induction false} PlainHandled(h: Term, n: nat, m: State, u: Unifier)
    requires IsHead(h) && h.Struct? && HeadNumbered(h) && n <= |h.args| && AtHead(m, |h.args|) && IsUnifier(u)
    ensures var r := CompileArguments(h, n, HEAD, |h.args|, {});
            var o := Exec(r.code, m, u);
            && Does(o, m, HeadEquations(h, n, m.fr))
            && (o.Done? ==> SlotsFit(o.state, r.used, |h.args|) && o.state.stack == m.stack && o.state.argp == Local(m.fr + n))
    decreases n
  {
    hide CompileArgument, CompileArguments, Exec, Reduces, Ok, Full, IsUnifier, SlotsFit, HeadNumbered, VarsOfArgs;
    var arity := |h.args|;
    ArgumentsStep(h, if n == 0 then 0 else n - 1, HEAD, arity, {});
    if n == 0 {
      ExecNothing(m, u);
      ReducesNot(m.fr, m.h, [], m.gtop);
    } else {
      var a := CompileArguments(h, n - 1, HEAD, arity, {});
      var r := CompileArgument(h.args[n - 1], HEAD, arity, a.used);
      PlainHandled(h, n - 1, m, u);
      var o := Exec(a.code, m, u);
      ExecJoin(a.code, r.code, m, u);
      assert HeadEquations(h, n, m.fr) == HeadEquations(h, n - 1, m.fr) + [Equation(h.args[n - 1], Local(m.fr + n - 1))];
      if o.Done? {
        SlotsSay(o.state, a.used, arity, n - 1);
        if r.void {
          VoidHeadArgument(h, n - 1);
        }
        ArgumentHandled(h.args[n - 1], HEAD, arity, a.used, o.state, u);
      }
      DoesThen(o, m, HeadEquations(h, n - 1, m.fr), Exec(a.code + r.code, m, u), [Equation(h.args[n - 1], Local(m.fr + n - 1))]);
    }
  }

  /** The code of a head solves the equations of the head. */
  lemma {:induction false} HeadHandled(h: Term, m: State, u: Unifier)
    requires IsHead(h) && HeadNumbered(h) && AtHead(m, |HeadArgs(h)|) && IsUnifier(u)
    ensures var o := Exec(CompileHead(h).code, m, u);
            && Does(o, m, HeadEquations(h, |HeadArgs(h)|, m.fr))
            && (o.Done? ==> SlotsFit(o.state, VarsOf(h), |HeadArgs(h)|) && o.state.stack == m.stack)
  {
    hide CompileArgument, CompileArguments, Exec, Reduces, Ok, Full, IsUnifier, SlotsFit, HeadNumbered, VarsOfArgs;
    if h.Atom? {
      ExecNothing(m, u);
      ReducesNot(m.fr, m.h, [], m.gtop);
      assert HeadEquations(h, 0, m.fr) == [];
    } else {
      var arity := |h.args|;
      var k := KeptCode(h, arity, HEAD, arity, {});
      PlainHandled(h, k, m, u);
      var o := Exec(CompileHead(h).code, m, u);
      forall i | k <= i < arity
        ensures h.args[i] == Void || h.args[i] == Var(i)
      {
        VoidHeadArgument(h, i);
      }
      ArgumentsUse(h, k, HEAD, arity, {});
      CutUse(h, k, arity);
      VarsOfFirst(h, arity);
      if o.Done? {
        SlotsStay(o.state, o.state, {} + VarsOfArgs(h, k), arity, VarsOf(h) - VarsOfArgs(h, k));
        assert {} + VarsOfArgs(h, k) + (VarsOf(h) - VarsOfArgs(h, k)) == VarsOf(h);
      }
      DoesCut(o, m, h, k);
    }
  }

  lemma {:induction false} CutUse(h: Term, k: nat, n: nat)
    requires h.Struct? && k <= n <= |h.args| && forall i :: k <= i < n ==> h.args[i] == Void || h.args[i] == Var(i)
    ensures VarsOfArgs(h, k) <= VarsOfArgs(h, n) && forall x :: x in VarsOfArgs(h, n) ==> x in VarsOfArgs(h, k) || x < n
    decreases n
  {
    hide VarsOfArgs;
    if k < n {
      CutUse(h, k, n - 1);
      VarsOfFirst(h, n - 1);
    }
  }

  /** Arguments without code are right as they are. */
  lemma {:induction false} DoesCut(o: Outcome, m: State, h: Term, k: nat)
    requires IsHead(h) && h.Struct? && k <= |h.args| && Does(o, m, HeadEquations(h, k, m.fr))
    requires forall i :: k <= i < |h.args| ==> h.args[i] == Void || h.args[i] == Var(i)
    ensures Does(o, m, HeadEquations(h, |h.args|, m.fr))
  {
    hide Reduces, Ok, Full, Impossible;
    var e, d := HeadEquations(h, |h.args|, m.fr), HeadEquations(h, k, m.fr);
    forall s: Valuation
      ensures Meets(s, m.fr, e) <==> Meets(s, m.fr, d)
    {
      CutMeets(s, m.fr, h, k);
    }
    SameSolutions(m.fr, m.h, e, m.gtop, m.h, d);
    match o
    case Fails => ImpossibleBack(m.fr, m.h, e, m.gtop, m.h, d);
    case Done(n) => ReducesJoin(m.fr, m.h, e, m.gtop, m.h, d, m.gtop, n.h, []);
  }

  lemma {:induction false} CutMeets(s: Valuation, fr: nat, h: Term, k: nat)
    requires IsHead(h) && h.Struct? && k <= |h.args| && forall i :: k <= i < |h.args| ==> h.args[i] == Void || h.args[i] == Var(i)
    ensures Meets(s, fr, HeadEquations(h, |h.args|, fr)) <==> Meets(s, fr, HeadEquations(h, k, fr))
  {
    var e, d := HeadEquations(h, |h.args|, fr), HeadEquations(h, k, fr);
    if Meets(s, fr, d) {
      forall i | 0 <= i < |e|
        ensures Matches(s, fr, e[i].t, s(e[i].a))
      {
        if i < k {
          assert e[i] == d[i];
        }
      }
    }
    if Meets(s, fr, e) {
      forall i | 0 <= i < |d|
        ensures Matches(s, fr, d[i].t, s(d[i].a))
      {
        assert e[i] == d[i];
      }
    }
  }
}
