/** Calling a clause: its code succeeds on the arguments of a goal just for their instances that
    are instances of the head (pl-comp.c, compileClause(); pl-wam.c, H_CONST to I_POPF). */
module HeadUnification {
  import opened Clauses
  import opened Decompiler
  import opened Bindings
  import opened ArgumentCode
  import opened HeadMatching
  import opened Bodies
  import opened HeadRoundTrip
  import opened Variables
  import Initialisation

  /** A term for every variable of a clause. */
  type Binding = nat -> Tree

  /** v is the instance of t. */
  ghost predicate Instance(t: Term, v: Tree, b: Binding)
    decreases t
  {
    match t
    case Var(x) => v == b(x)
    case Void => true
    case Struct(f, args) =>
      v.Node? && v.functor == f && |v.kids| == |args| && forall i :: 0 <= i < |args| ==> Instance(args[i], v.kids[i], b)
    case _ => v == Leaf(t)
  }

  /** The arguments in the frame are those of the instance of the head. */
  ghost predicate HeadInstance(h: Term, s: Valuation, fr: nat, b: Binding)
    requires IsHead(h)
  {
    forall i :: 0 <= i < |HeadArgs(h)| ==> Instance(HeadArgs(h)[i], s(Local(fr + i)), b)
  }

  /** The slots of the variables hold their terms. */
  ghost predicate SlotsHold(s: Valuation, fr: nat, d: Table, arity: nat, b: Binding) {
    forall x: nat :: Numbered(d, arity, x).Var? ==> s(Local(fr + Numbered(d, arity, x).index)) == b(x)
  }

  // ---------- the terms of variables that occur once

  /** The part of v at the place of x in t. */
  function Pick(t: Term, v: Tree, x: nat): Tree
    decreases t, 1, 0
  {
    if t.Struct? && v.Node? && |v.kids| == |t.args| then PickIn(t, |t.args|, v, x) else v
  }

  function PickIn(t: Term, n: nat, v: Tree, x: nat): Tree
    requires t.Struct? && v.Node? && n <= |v.kids| == |t.args|
    decreases t, 0, n
  {
    if n == 0 then v
    else if Occurs(t.args[n - 1], x) > 0 then Pick(t.args[n - 1], v.kids[n - 1], x)
    else PickIn(t, n - 1, v, x)
  }

  lemma {:induction false} PickAt(t: Term, n: nat, v: Tree, x: nat, i: nat)
    requires t.Struct? && v.Node? && i < n <= |v.kids| == |t.args| && Occurs(t.args[i], x) > 0
    requires forall k :: 0 <= k < n && k != i ==> Occurs(t.args[k], x) == 0
    ensures PickIn(t, n, v, x) == Pick(t.args[i], v.kids[i], x)
    decreases n
  {
    hide Pick, Occurs;
    if i < n - 1 {
      PickAt(t, n - 1, v, x, i);
    }
  }

  /** What b has to be for the variables of t, which are replaced after f. */
  ghost predicate Suits(t: Term, v: Tree, s: Valuation, fr: nat, f: nat -> Term, b: Binding) {
    forall x: nat :: Occurs(t, x) > 0 ==>
      match f(x)
      case Var(i) => b(x) == s(Local(fr + i))
      case _ => f(x) == Void && Occurs(t, x) == 1 && b(x) == Pick(t, v, x)
  }

  lemma {:induction false} ArgSuits(t: Term, v: Tree, s: Valuation, fr: nat, f: nat -> Term, b: Binding, i: nat)
    requires t.Struct? && v.Node? && |v.kids| == |t.args| && i < |t.args| && Suits(t, v, s, fr, f, b)
    ensures Suits(t.args[i], v.kids[i], s, fr, f, b)
  {
    hide Occurs, OccursIn, Pick, PickIn;
    forall x: nat | Occurs(t.args[i], x) > 0
      ensures Occurs(t, x) >= Occurs(t.args[i], x)
      ensures Occurs(t, x) == 1 ==> Pick(t, v, x) == Pick(t.args[i], v.kids[i], x)
    {
      OccursStruct(t, x);
      OccursInArg(t, |t.args|, i, x);
      if Occurs(t, x) == 1 {
        forall k | 0 <= k < |t.args| && k != i
          ensures Occurs(t.args[k], x) == 0
        {
          OccursTwice(t, |t.args|, i, k, x);
        }
        PickAt(t, |t.args|, v, x, i);
        PickStruct(t, v, x);
      }
    }
  }

  lemma OccursStruct(t: Term, x: nat)
    requires t.Struct?
    ensures Occurs(t, x) == OccursIn(t, |t.args|, x)
  {
    hide OccursIn;
  }

  lemma PickStruct(t: Term, v: Tree, x: nat)
    requires t.Struct? && v.Node? && |v.kids| == |t.args|
    ensures Pick(t, v, x) == PickIn(t, |t.args|, v, x)
  {
    hide PickIn;
  }

  /** What stands for the renamed term stands for an instance of the term. */
  lemma {:induction false} MatchesInstance(t: Term, v: Tree, s: Valuation, fr: nat, f: nat -> Term, b: Binding)
    requires Matches(s, fr, Replace(t, f), v) && Suits(t, v, s, fr, f, b)
    ensures Instance(t, v, b)
    decreases t
  {
    if t.Var? {
      assert Occurs(t, t.index) == 1;
    } else if t.Struct? {
      forall i | 0 <= i < |t.args|
        ensures Instance(t.args[i], v.kids[i], b)
      {
        ArgSuits(t, v, s, fr, f, b, i);
        assert Matches(s, fr, Replace(t, f).args[i], v.kids[i]);
        MatchesInstance(t.args[i], v.kids[i], s, fr, f, b);
      }
    }
  }

  /** And the other way round. */
  lemma {:induction false} InstanceMatches(t: Term, v: Tree, s: Valuation, fr: nat, f: nat -> Term, b: Binding)
    requires Instance(t, v, b)
    requires forall x: nat :: f(x) == Void || (f(x).Var? && s(Local(fr + f(x).index)) == b(x))
    ensures Matches(s, fr, Replace(t, f), v)
    decreases t
  {
    if t.Struct? {
      var r := Replace(t, f);
      forall i | 0 <= i < |t.args|
        ensures Matches(s, fr, r.args[i], v.kids[i])
      {
        InstanceMatches(t.args[i], v.kids[i], s, fr, f, b);
      }
    }
  }

  // ---------- heads

  /** The goal: its arguments are in the frame. */
  function GoalTree(h: Term, s: Valuation, fr: nat): (v: Tree)
    requires h.Struct?
    ensures v.Node? && v.functor == h.functor && |v.kids| == |h.args| && forall i :: 0 <= i < |h.args| ==> v.kids[i] == s(Local(fr + i))
  {
    Node(h.functor, seq(|h.args|, i requires 0 <= i < |h.args| => s(Local(fr + i))))
  }

  lemma {:induction false} HeadMeets(g: Term, s: Valuation, fr: nat)
    requires IsHead(g) && g.Struct?
    ensures Meets(s, fr, HeadEquations(g, |g.args|, fr)) <==> Matches(s, fr, g, GoalTree(g, s, fr))
  {
    var e, v := HeadEquations(g, |g.args|, fr), GoalTree(g, s, fr);
    if Meets(s, fr, e) {
      forall i | 0 <= i < |g.args|
        ensures Matches(s, fr, g.args[i], v.kids[i])
      {
        assert Matches(s, fr, e[i].t, s(e[i].a));
      }
    }
  }

  /** The table numbers a variable of the clause, or it occurs once. */
  lemma {:induction false} OnceOrNumbered(h: Term, body: Term, x: nat)
    requires IsHead(h) && Occurs(h, x) > 0
    ensures var n := Numbered(Analysed(h, body), |HeadArgs(h)|, x); n.Var? || (n == Void && Occurs(h, x) == 1)
  {
    Analyses(h, body);
    hide Analysed, Occurs;
    assert Times(Analysed(h, body), x) == Occurs(h, x) + Occurs(body, x);
  }

  /** What the variables of the clause stand for when the arguments match the head. */
  function Found(h: Term, s: Valuation, fr: nat, d: Table): Binding
    requires h.Struct? || h.Atom?
  {
    (x: nat) =>
      if Numbered(d, HeadFunctor(h).arity, x).Var? then s(Local(fr + Numbered(d, HeadFunctor(h).arity, x).index))
      else if h.Struct? then Pick(h, GoalTree(h, s, fr), x)
      else Leaf(h)
  }

  lemma {:induction false} ToInstance(h: Term, body: Term, s: Valuation, fr: nat)
    requires IsHead(h) && IsHead(NumberedHead(h, body)) && |HeadArgs(NumberedHead(h, body))| == |HeadArgs(h)|
    requires Meets(s, fr, HeadEquations(NumberedHead(h, body), |HeadArgs(h)|, fr))
    ensures var d, arity := Analysed(h, body), |HeadArgs(h)|;
            HeadInstance(h, s, fr, Found(h, s, fr, d)) && SlotsHold(s, fr, d, arity, Found(h, s, fr, d))
  {
    hide Analysed, Numbered, Pick, Suits, Replace, Meets, Matches, HeadEquations, Instance, Proper;
    var d, arity := Analysed(h, body), |HeadArgs(h)|;
    if h.Struct? {
      var g, v, f, b := NumberedHead(h, body), GoalTree(h, s, fr), (x: nat) => Numbered(d, arity, x), Found(h, s, fr, d);
      SameTree(h, body, s, fr);
      HeadMeets(g, s, fr);
      FoundSuits(h, body, s, fr);
      MatchesInstance(h, v, s, fr, f, b);
      InstanceArgs(h, s, fr, b);
    }
  }

  lemma SameTree(h: Term, body: Term, s: Valuation, fr: nat)
    requires IsHead(h) && h.Struct? && IsHead(NumberedHead(h, body))
    ensures NumberedHead(h, body).Struct? && GoalTree(NumberedHead(h, body), s, fr) == GoalTree(h, s, fr)
    ensures |NumberedHead(h, body).args| == |h.args|
  {
    hide Analysed, Numbered;
  }

  lemma InstanceArgs(h: Term, s: Valuation, fr: nat, b: Binding)
    requires IsHead(h) && h.Struct? && Instance(h, GoalTree(h, s, fr), b)
    ensures HeadInstance(h, s, fr, b)
  {
  }

  lemma {:induction false} FoundSuits(h: Term, body: Term, s: Valuation, fr: nat)
    requires IsHead(h) && h.Struct?
    ensures var d := Analysed(h, body);
            Suits(h, GoalTree(h, s, fr), s, fr, (x: nat) => Numbered(d, |HeadArgs(h)|, x), Found(h, s, fr, d))
  {
    var d, arity := Analysed(h, body), |HeadArgs(h)|;
    hide Analysed, Numbered, Pick;
    forall x: nat | Occurs(h, x) > 0
      ensures var n := Numbered(d, arity, x); n.Var? || (n == Void && Occurs(h, x) == 1)
    {
      OnceOrNumbered(h, body, x);
    }
  }

  lemma {:induction false} FromInstance(h: Term, body: Term, s: Valuation, fr: nat, b: Binding)
    requires IsHead(h) && IsHead(NumberedHead(h, body)) && |HeadArgs(NumberedHead(h, body))| == |HeadArgs(h)|
    requires HeadInstance(h, s, fr, b) && SlotsHold(s, fr, Analysed(h, body), |HeadArgs(h)|, b)
    ensures Meets(s, fr, HeadEquations(NumberedHead(h, body), |HeadArgs(h)|, fr))
  {
    var d, arity := Analysed(h, body), |HeadArgs(h)|;
    hide Analysed, Matches;
    var g, f := NumberedHead(h, body), (x: nat) => Numbered(d, arity, x);
    var e := HeadEquations(g, arity, fr);
    forall i | 0 <= i < arity
      ensures Matches(s, fr, e[i].t, s(e[i].a))
    {
      InstanceMatches(HeadArgs(h)[i], s(Local(fr + i)), s, fr, f, b);
    }
  }

  // ---------- slots for the solutions of a goal

  ghost predicate Owned(d: Table, arity: nat, j: nat) {
    exists x: nat :: Numbered(d, arity, x) == Var(j)
  }

  ghost function Owner(d: Table, arity: nat, j: nat): (x: nat)
    requires Owned(d, arity, j)
    ensures Numbered(d, arity, x) == Var(j)
  {
    var x: nat :| Numbered(d, arity, x) == Var(j);
    x
  }

  /** s with the terms of b in the slots of the variables. */
  ghost function WithSlots(s: Valuation, fr: nat, d: Table, arity: nat, b: Binding): Valuation {
    (a: Addr) => if a.Local? && a.i >= fr && Owned(d, arity, a.i - fr) then b(Owner(d, arity, a.i - fr)) else s(a)
  }

  /** A slot belongs to one variable. */
  lemma {:induction false} OneOwner(h: Term, body: Term, x: nat, y: nat)
    requires IsHead(h) && Numbered(Analysed(h, body), |HeadArgs(h)|, x).Var?
    requires Numbered(Analysed(h, body), |HeadArgs(h)|, x) == Numbered(Analysed(h, body), |HeadArgs(h)|, y)
    ensures x == y
  {
    Analyses(h, body);
    var d := Analysed(h, body);
    assert Times(d, x) > 0 && Times(d, y) > 0;
    assert Times(d, x) == Occurs(h, x) + Occurs(body, x) && Times(d, y) == Occurs(h, y) + Occurs(body, y);
    hide Analysed, Occurs;
    Renames(h, body, x, y);
  }

  /** A slot of the argument block belongs to the variable that is this argument. */
  lemma {:induction false} ArgumentOwner(h: Term, body: Term, x: nat)
    requires IsHead(h) && var n := Numbered(Analysed(h, body), |HeadArgs(h)|, x); n.Var? && n.index < |HeadArgs(h)|
    ensures HeadArgs(h)[Numbered(Analysed(h, body), |HeadArgs(h)|, x).index] == Var(x)
  {
    Analyses(h, body);
    var d, arity := Analysed(h, body), |HeadArgs(h)|;
    hide Analysed, Occurs;
    OffsetRange(d, arity, d.place[x]);
  }

  lemma {:induction false} SlotsGiven(h: Term, body: Term, s: Valuation, fr: nat, b: Binding)
    requires IsHead(h)
    ensures var d, arity := Analysed(h, body), |HeadArgs(h)|; SlotsHold(WithSlots(s, fr, d, arity, b), fr, d, arity, b)
  {
    var d, arity := Analysed(h, body), |HeadArgs(h)|;
    var o := WithSlots(s, fr, d, arity, b);
    forall x: nat | Numbered(d, arity, x).Var?
      ensures o(Local(fr + Numbered(d, arity, x).index)) == b(x)
    {
      var j := Numbered(d, arity, x).index;
      assert Owned(d, arity, j);
      OneOwner(h, body, x, Owner(d, arity, j));
      hide Analysed, Numbered;
    }
  }

  /** The arguments hold these terms already. */
  lemma {:induction false} SlotsAgree(h: Term, body: Term, m: State, s: Valuation, b: Binding, a: Addr)
    requires IsHead(h) && SlotsFit(m, {}, |HeadArgs(h)|) && HeadInstance(h, s, m.fr, b) && a in m.h
    ensures WithSlots(s, m.fr, Analysed(h, body), |HeadArgs(h)|, b)(a) == s(a)
  {
    var d, arity := Analysed(h, body), |HeadArgs(h)|;
    if a.Local? && a.i >= m.fr && Owned(d, arity, a.i - m.fr) {
      var j := a.i - m.fr;
      assert HasSlot(m, j);
      ArgumentOwner(h, body, Owner(d, arity, j));
      hide Analysed, Numbered;
      assert Instance(HeadArgs(h)[j], s(Local(m.fr + j)), b);
    }
  }

  lemma {:induction false} SolvesAgreed(h: Cells, gtop: nat, s: Valuation, o: Valuation)
    requires Ok(h, gtop) && Full(h, gtop) && Solves(s, h) && forall a :: a in h ==> o(a) == s(a)
    ensures Solves(o, h)
  {
    forall a | a in h
      ensures HoldsAt(o, a, h[a])
    {
      assert CellOk(h, gtop, a, h[a]);
      assert HoldsAt(s, a, h[a]);
      var c := h[a];
      if c.Compound? {
        assert Kids(o, c.base, c.functor.arity) == Kids(s, c.base, c.functor.arity);
      }
    }
  }

  // ---------- calling a clause

  /** o is s for the cells h. */
  ghost predicate SameTerms(s: Valuation, o: Valuation, h: Cells) {
    forall a :: a in h ==> o(a) == s(a)
  }

  /** A solution k for a goal whose arguments are the instance b of the head. */
  ghost predicate Succeeds(h: Term, d: Table, fr: nat, s: Valuation, b: Binding, before: Cells, k: Cells)
    requires IsHead(h)
  {
    exists o: Valuation :: SameTerms(s, o, before) && Solves(o, k) && SlotsHold(o, fr, d, |HeadArgs(h)|, b)
  }

  /** What the code of the head has to do in m: it fails only if no instance of the goal is one of
      the head; and if it succeeds, the solutions are those of the goal that are, with the slots of
      the variables holding what the variables stand for. */
  ghost predicate Unified(o: Outcome, m: State, h: Term, d: Table)
    requires IsHead(h)
  {
    match o
    case Stuck => false
    case Fails => forall s: Valuation, b: Binding :: !(Solves(s, m.h) && HeadInstance(h, s, m.fr, b))
    case Done(n) =>
      && Ready(n) && n.fr == m.fr && n.stack == m.stack && m.h.Keys <= n.h.Keys
      && (forall s: Valuation :: Solves(s, n.h) ==>
            Solves(s, m.h) && exists b: Binding :: HeadInstance(h, s, m.fr, b) && SlotsHold(s, m.fr, d, |HeadArgs(h)|, b))
      && (forall s: Valuation, b: Binding :: Solves(s, m.h) && HeadInstance(h, s, m.fr, b) ==> Succeeds(h, d, m.fr, s, b, m.h, n.h))
  }

  /** The solutions after a head are those of the goals that are its instances. */
  lemma {:induction false} FinalSolution(h: Term, body: Term, m: State, n: State, s: Valuation)
    requires IsHead(h) && IsHead(NumberedHead(h, body)) && |HeadArgs(NumberedHead(h, body))| == |HeadArgs(h)|
    requires Does(Done(n), m, HeadEquations(NumberedHead(h, body), |HeadArgs(h)|, m.fr)) && Solves(s, n.h)
    ensures Solves(s, m.h) && exists b: Binding :: HeadInstance(h, s, m.fr, b) && SlotsHold(s, m.fr, Analysed(h, body), |HeadArgs(h)|, b)
  {
    hide Analysed, Reduces, Numbered, Solves, HeadInstance, SlotsHold, Found, Ok, Full;
    Back(m.fr, m.h, HeadEquations(NumberedHead(h, body), |HeadArgs(h)|, m.fr), m.gtop, n.h, [], s);
    ToInstance(h, body, s, m.fr);
  }

  /** A goal that is an instance of the head, with its slots. */
  lemma {:induction false} StartSolution(h: Term, body: Term, m: State, s: Valuation, b: Binding)
    requires IsHead(h) && AtHead(m, |HeadArgs(h)|) && Solves(s, m.h) && HeadInstance(h, s, m.fr, b)
    requires IsHead(NumberedHead(h, body)) && |HeadArgs(NumberedHead(h, body))| == |HeadArgs(h)|
    ensures var o := WithSlots(s, m.fr, Analysed(h, body), |HeadArgs(h)|, b);
            && SameTerms(s, o, m.h) && Solves(o, m.h) && SlotsHold(o, m.fr, Analysed(h, body), |HeadArgs(h)|, b)
            && Meets(o, m.fr, HeadEquations(NumberedHead(h, body), |HeadArgs(h)|, m.fr))
  {
    hide Analysed, Numbered, Solves, SlotsHold, WithSlots, Ok, Full, HeadInstance, SlotsFit, NumberedHead, HeadEquations, Meets;
    var d, arity := Analysed(h, body), |HeadArgs(h)|;
    var o := WithSlots(s, m.fr, d, arity, b);
    forall a | a in m.h
      ensures o(a) == s(a)
    {
      SlotsAgree(h, body, m, s, b, a);
    }
    SolvesAgreed(m.h, m.gtop, s, o);
    SlotsGiven(h, body, s, m.fr, b);
    SameInstance(h, m, s, o, b);
    FromInstance(h, body, o, m.fr, b);
  }

  lemma {:induction false} SameInstance(h: Term, m: State, s: Valuation, o: Valuation, b: Binding)
    requires IsHead(h) && AtHead(m, |HeadArgs(h)|) && SameTerms(s, o, m.h) && HeadInstance(h, s, m.fr, b)
    ensures HeadInstance(h, o, m.fr, b)
  {
    hide Instance, SlotsFit, Ok, Full;
    forall i | 0 <= i < |HeadArgs(h)|
      ensures Instance(HeadArgs(h)[i], o(Local(m.fr + i)), b)
    {
      SlotsSay(m, {}, |HeadArgs(h)|, i);
      assert o(Local(m.fr + i)) == s(Local(m.fr + i));
    }
  }

  lemma {:induction false} EverySolution(h: Term, body: Term, m: State, n: State, s: Valuation, b: Binding)
    requires IsHead(h) && IsHead(NumberedHead(h, body)) && |HeadArgs(NumberedHead(h, body))| == |HeadArgs(h)|
    requires Does(Done(n), m, HeadEquations(NumberedHead(h, body), |HeadArgs(h)|, m.fr))
    requires AtHead(m, |HeadArgs(h)|) && Solves(s, m.h) && HeadInstance(h, s, m.fr, b)
    ensures Succeeds(h, Analysed(h, body), m.fr, s, b, m.h, n.h)
  {
    hide Analysed, Reduces, Numbered, Solves, HeadInstance, WithSlots, NumberedHead, HeadEquations, Meets, SlotsFit;
    var d, arity := Analysed(h, body), |HeadArgs(h)|;
    StartSolution(h, body, m, s, b);
    var o := WithSlots(s, m.fr, d, arity, b);
    var p := Forth(m.fr, m.h, HeadEquations(NumberedHead(h, body), arity, m.fr), m.gtop, n.h, [], o);
    forall a | a in m.h
      ensures p(a) == s(a)
    {
      assert CellOk(m.h, m.gtop, a, m.h[a]);
    }
    assert SlotsHold(p, m.fr, d, arity, b);
  }

  lemma {:induction false} NoSolution(h: Term, body: Term, m: State, s: Valuation, b: Binding)
    requires IsHead(h) && IsHead(NumberedHead(h, body)) && |HeadArgs(NumberedHead(h, body))| == |HeadArgs(h)|
    requires Does(Fails, m, HeadEquations(NumberedHead(h, body), |HeadArgs(h)|, m.fr))
    requires AtHead(m, |HeadArgs(h)|) && Solves(s, m.h)
    ensures !HeadInstance(h, s, m.fr, b)
  {
    hide Analysed, Numbered, Solves, HeadInstance, WithSlots, NumberedHead, HeadEquations, Meets, SlotsFit, Ok, Full;
    if HeadInstance(h, s, m.fr, b) {
      StartSolution(h, body, m, s, b);
    }
  }

  /** What code does that solves the equations of the numbered head. */
  lemma {:induction false} SolvesHead(o: Outcome, h: Term, body: Term, m: State)
    requires IsHead(h) && IsHead(NumberedHead(h, body)) && |HeadArgs(NumberedHead(h, body))| == |HeadArgs(h)|
    requires Does(o, m, HeadEquations(NumberedHead(h, body), |HeadArgs(h)|, m.fr)) && AtHead(m, |HeadArgs(h)|)
    requires o.Done? ==> o.state.stack == m.stack
    ensures Unified(o, m, h, Analysed(h, body))
  {
    hide Analysed, Reduces, Numbered, Solves, HeadInstance, SlotsHold, NumberedHead, HeadEquations, Ok, Full, SlotsFit, Succeeds, Impossible;
    var d, arity := Analysed(h, body), |HeadArgs(h)|;
    match o
    case Fails =>
      forall s: Valuation, b: Binding | Solves(s, m.h)
        ensures !HeadInstance(h, s, m.fr, b)
      {
        NoSolution(h, body, m, s, b);
      }
    case Done(n) =>
      forall s: Valuation | Solves(s, n.h)
        ensures Solves(s, m.h) && exists b: Binding :: HeadInstance(h, s, m.fr, b) && SlotsHold(s, m.fr, d, arity, b)
      {
        FinalSolution(h, body, m, n, s);
      }
      forall s: Valuation, b: Binding | Solves(s, m.h) && HeadInstance(h, s, m.fr, b)
        ensures Succeeds(h, d, m.fr, s, b, m.h, n.h)
      {
        EverySolution(h, body, m, n, s, b);
      }
  }

  lemma {:induction false} ClauseStarts(h: Term, body: Term, inline: set<Functor>, m: State, u: Unifier)
    requires IsHead(h) && Proper(body) && ClauseCode(h, body, inline).Some? && IsHead(NumberedHead(h, body))
    requires !Exec(CompileHead(NumberedHead(h, body)).code, m, u).Stuck?
    ensures RunTo(ClauseCode(h, body, inline).value, HEADENDS, m, u) == Exec(CompileHead(NumberedHead(h, body)).code, m, u)
  {
    hide Analysed, Numbered, CompileHead, CompileBody, Replace, RunTo, Exec;
    Initialisation.ClauseCodeIs(h, body, inline);
    var x, code := CompileHead(NumberedHead(h, body)).code, ClauseCode(h, body, inline).value;
    var end, y := SplitClause(NumberedHead(h, body), NumberedTerm(body, Analysed(h, body), HeadFunctor(h).arity), VarCount(Analysed(h, body), HeadFunctor(h).arity), inline);
    RunsTo(x, HEADENDS, end, y, m, u);
  }

  /** The code of the head, I_ENTER or I_EXITFACT, and the rest. */
  lemma {:induction false} SplitClause(g: Term, body: Term, vars: nat, inline: set<Functor>) returns (end: Opcode, y: Codes)
    requires IsHead(g) && Proper(body) && CompileClause(g, body, vars, inline).Some?
    ensures end in HEADENDS && CompileClause(g, body, vars, inline).value == CompileHead(g).code + ([Op(end)] + y)
  {
    hide CompileHead, CompileBody;
    var x := CompileHead(g).code;
    if body == TRUE {
      end, y := I_EXITFACT, [];
      assert [Op(end)] + y == [Op(end)];
    } else {
      var b := CompileBody(body, true, Info(HeadFunctor(g).arity, vars, inline), None, CompileHead(g).used, vars).value.code;
      end, y := I_ENTER, b + [Op(I_EXIT)];
      assert x + [Op(I_ENTER)] + b + [Op(I_EXIT)] == x + ([Op(I_ENTER)] + (b + [Op(I_EXIT)]));
    }
  }

  /** The code of a clause up to its body unifies the head with the arguments of the goal, and
      leaves the slots of the head's variables initialised. */
  lemma {:induction false} HeadUnifies(h: Term, body: Term, inline: set<Functor>, m: State, u: Unifier)
    requires IsHead(h) && Proper(body) && ClauseCode(h, body, inline).Some? && AtHead(m, |HeadArgs(h)|) && IsUnifier(u)
    ensures var o := RunTo(ClauseCode(h, body, inline).value, HEADENDS, m, u);
            && Unified(o, m, h, Analysed(h, body))
            && (o.Done? ==> SlotsFit(o.state, VarsOf(NumberedHead(h, body)), |HeadArgs(h)|))
  {
    hide *;
    NumberedShape(h, body);
    NumberedIsFirst(h, body);
    var g := NumberedHead(h, body);
    SameArity(h, g);
    HeadHandled(g, m, u);
    var o := Exec(CompileHead(g).code, m, u);
    DoesRun(o, m, HeadEquations(g, |HeadArgs(h)|, m.fr));
    SolvesHead(o, h, body, m);
    ClauseStarts(h, body, inline, m, u);
  }

  lemma SameArity(h: Term, g: Term)
    requires IsHead(h) && IsHead(g) && HeadFunctor(g) == HeadFunctor(h)
    ensures |HeadArgs(g)| == |HeadArgs(h)|
  {
  }

  lemma DoesRun(o: Outcome, m: State, eqs: seq<Equation>)
    requires Does(o, m, eqs)
    ensures !o.Stuck?
  {
    hide Reduces;
  }
}
