/** The cells of the stacks as far as terms are concerned, and what they say about the terms that
    they stand for (pl-data.h, pl-wam.c). */
module Bindings {
  import opened Clauses

  /** Where a cell is: on the global or on the local stack, which lies above it. */
  datatype Addr = Global(i: nat) | Local(i: nat)

  predicate Below(a: Addr, b: Addr) {
    if a.Global? <==> b.Global? then a.i < b.i else a.Global?
  }

  function After(a: Addr): Addr {
    a.(i := a.i + 1)
  }

  /** A compound term refers to its arguments, which are consecutive cells of the global stack. */
  datatype Content = Unbound | Atomic(value: Term) | Compound(functor: Functor, base: nat) | Ref(to: Addr)

  /** The cells that are initialised. */
  type Cells = map<Addr, Content>

  function Deref(h: Cells, a: Addr): Addr
    decreases a.Local?, a.i
  {
    if a in h && h[a].Ref? && Below(h[a].to, a) then Deref(h, h[a].to) else a
  }

  /** References lead downward to initialised cells, and terms are below the top of the global
      stack. */
  ghost predicate CellOk(h: Cells, gtop: nat, a: Addr, c: Content) {
    && (a.Global? ==> a.i < gtop)
    && (c.Ref? ==> c.to in h && Below(c.to, a))
    && (c.Compound? ==> c.base + c.functor.arity <= gtop)
  }

  ghost predicate Ok(h: Cells, gtop: nat) {
    forall a :: a in h ==> CellOk(h, gtop, a, h[a])
  }

  /** All of the global stack is initialised. */
  ghost predicate Full(h: Cells, gtop: nat) {
    forall i: nat :: i < gtop ==> Global(i) in h
  }

  // ---------- what cells stand for

  datatype Tree = Leaf(value: Term) | Node(functor: Functor, kids: seq<Tree>)

  /** A term without variables for every cell. */
  type Valuation = Addr -> Tree

  function Kids(s: Valuation, base: nat, n: nat): (k: seq<Tree>)
    ensures |k| == n && forall i :: 0 <= i < n ==> k[i] == s(Global(base + i))
  {
    seq(n, i requires 0 <= i < n => s(Global(base + i)))
  }

  ghost predicate HoldsAt(s: Valuation, a: Addr, c: Content) {
    match c
    case Unbound => true
    case Atomic(t) => s(a) == Leaf(t)
    case Compound(f, b) => s(a) == Node(f, Kids(s, b, f.arity))
    case Ref(to) => s(a) == s(to)
  }

  /** These terms are instances of what the cells hold. */
  ghost predicate Solves(s: Valuation, h: Cells) {
    forall a :: a in h ==> HoldsAt(s, a, h[a])
  }

  /** The term t of a clause whose frame is at fr stands for v: variables are slots of the frame. */
  ghost predicate Matches(s: Valuation, fr: nat, t: Term, v: Tree)
    decreases t
  {
    match t
    case Var(i) => v == s(Local(fr + i))
    case Void => true
    case Struct(f, args) =>
      v.Node? && v.functor == f && |v.kids| == |args| && forall i :: 0 <= i < |args| ==> Matches(s, fr, args[i], v.kids[i])
    case _ => v == Leaf(t)
  }

  /** The cell at a is to stand for t. */
  datatype Equation = Equation(t: Term, a: Addr)

  ghost predicate Meets(s: Valuation, fr: nat, eqs: seq<Equation>) {
    forall i :: 0 <= i < |eqs| ==> Matches(s, fr, eqs[i].t, s(eqs[i].a))
  }

  /** The same terms in the local stack, and in the global stack below g. */
  ghost predicate Same(s: Valuation, o: Valuation, g: nat) {
    forall a: Addr :: a.Local? || a.i < g ==> s(a) == o(a)
  }

  ghost predicate Extends(s: Valuation, g: nat, h: Cells, fr: nat, eqs: seq<Equation>) {
    exists o: Valuation :: Same(s, o, g) && Solves(o, h) && Meets(o, fr, eqs)
  }

  /** The cells k with the equations b say what the cells h with the equations a say: every
      solution of the one is one of the other, up to cells that are not older than g. */
  ghost predicate Reduces(fr: nat, h: Cells, a: seq<Equation>, g: nat, k: Cells, b: seq<Equation>) {
    && (forall s: Valuation :: Solves(s, k) && Meets(s, fr, b) ==> Solves(s, h) && Meets(s, fr, a))
    && (forall s: Valuation :: Solves(s, h) && Meets(s, fr, a) ==> Extends(s, g, k, fr, b))
  }

  /** There is no solution. */
  ghost predicate Impossible(fr: nat, h: Cells, a: seq<Equation>) {
    forall s: Valuation :: !(Solves(s, h) && Meets(s, fr, a))
  }

  /** The equations are about cells that are not younger than g. */
  ghost predicate Old(eqs: seq<Equation>, g: nat) {
    forall i :: 0 <= i < |eqs| ==> eqs[i].a.Local? || eqs[i].a.i < g
  }

  // ---------- solutions

  lemma {:induction false} DerefOk(h: Cells, gtop: nat, a: Addr)
    requires Ok(h, gtop) && a in h
    ensures var k := Deref(h, a); k in h && !h[k].Ref? && (k == a || Below(k, a))
    decreases a.Local?, a.i
  {
    assert CellOk(h, gtop, a, h[a]);
    if h[a].Ref? {
      DerefOk(h, gtop, h[a].to);
    }
  }

  lemma {:induction false} DerefSame(h: Cells, gtop: nat, a: Addr, s: Valuation)
    requires Ok(h, gtop) && a in h && Solves(s, h)
    ensures s(Deref(h, a)) == s(a)
    decreases a.Local?, a.i
  {
    assert CellOk(h, gtop, a, h[a]);
    assert HoldsAt(s, a, h[a]);
    if h[a].Ref? {
      DerefSame(h, gtop, h[a].to, s);
    }
  }

  lemma {:induction false} SolvesSame(h: Cells, gtop: nat, s: Valuation, o: Valuation)
    requires Ok(h, gtop) && Same(s, o, gtop) && Solves(s, h)
    ensures Solves(o, h)
  {
    forall a | a in h
      ensures HoldsAt(o, a, h[a])
    {
      var c := h[a];
      assert CellOk(h, gtop, a, c);
      assert HoldsAt(s, a, c);
      if c.Compound? {
        assert Kids(s, c.base, c.functor.arity) == Kids(o, c.base, c.functor.arity);
      } else if c.Ref? {
        assert CellOk(h, gtop, c.to, h[c.to]);
      }
    }
  }

  lemma {:induction false} MatchesSame(s: Valuation, o: Valuation, g: nat, fr: nat, t: Term, v: Tree)
    requires Same(s, o, g)
    ensures Matches(s, fr, t, v) <==> Matches(o, fr, t, v)
    decreases t
  {
    if t.Struct? && v.Node? && |v.kids| == |t.args| {
      forall i | 0 <= i < |t.args|
        ensures Matches(s, fr, t.args[i], v.kids[i]) <==> Matches(o, fr, t.args[i], v.kids[i])
      {
        MatchesSame(s, o, g, fr, t.args[i], v.kids[i]);
      }
    }
  }

  lemma {:induction false} MeetsSame(s: Valuation, o: Valuation, g: nat, fr: nat, eqs: seq<Equation>)
    requires Same(s, o, g) && Old(eqs, g)
    ensures Meets(s, fr, eqs) <==> Meets(o, fr, eqs)
  {
    hide Matches;
    forall i | 0 <= i < |eqs|
      ensures Matches(s, fr, eqs[i].t, s(eqs[i].a)) <==> Matches(o, fr, eqs[i].t, o(eqs[i].a))
    {
      MatchesSame(s, o, g, fr, eqs[i].t, s(eqs[i].a));
    }
  }

  lemma {:induction false} MeetsBoth(s: Valuation, fr: nat, a: seq<Equation>, b: seq<Equation>)
    ensures Meets(s, fr, a + b) <==> Meets(s, fr, a) && Meets(s, fr, b)
  {
    hide Matches;
    var c := a + b;
    assert forall i :: 0 <= i < |a| ==> c[i] == a[i];
    assert forall i :: 0 <= i < |b| ==> b[i] == c[|a| + i];
    if Meets(s, fr, c) {
      forall i | 0 <= i < |b|
        ensures Matches(s, fr, b[i].t, s(b[i].a))
      {
        assert b[i] == c[|a| + i];
      }
    }
  }

  lemma SameJoins(s: Valuation, o: Valuation, p: Valuation, f: nat, g: nat)
    requires Same(s, o, f) && Same(o, p, g) && f <= g
    ensures Same(s, p, f)
  {
  }

  /** Filling a cell. */
  lemma {:induction false} SetSolves(h: Cells, k: Addr, c: Content, s: Valuation)
    requires k in h ==> h[k].Unbound?
    ensures Solves(s, h[k := c]) <==> Solves(s, h) && HoldsAt(s, k, c)
  {
    var l := h[k := c];
    if Solves(s, l) {
      assert HoldsAt(s, k, l[k]);
      forall a | a in h
        ensures HoldsAt(s, a, h[a])
      {
        assert a in l && HoldsAt(s, a, l[a]);
      }
    }
    if Solves(s, h) && HoldsAt(s, k, c) {
      forall a | a in l
        ensures HoldsAt(s, a, l[a])
      {
        assert a == k || HoldsAt(s, a, h[a]);
      }
    }
  }

  /** New variables say nothing. */
  lemma {:induction false} NewSolves(h: Cells, more: Cells, s: Valuation)
    requires forall a :: a in more ==> a !in h && more[a] == Unbound
    ensures Solves(s, h + more) <==> Solves(s, h)
  {
    var l := h + more;
    if Solves(s, l) {
      forall a | a in h
        ensures HoldsAt(s, a, h[a])
      {
        assert a in l && HoldsAt(s, a, l[a]);
      }
    }
    if Solves(s, h) {
      forall a | a in l
        ensures HoldsAt(s, a, l[a])
      {
        assert a in more || HoldsAt(s, a, h[a]);
      }
    }
  }

  lemma {:induction false} SetOk(h: Cells, gtop: nat, k: Addr, c: Content)
    requires Ok(h, gtop) && CellOk(h, gtop, k, c)
    ensures Ok(h[k := c], gtop)
  {
    var l := h[k := c];
    forall a | a in l
      ensures CellOk(l, gtop, a, l[a])
    {
      assert a == k || CellOk(h, gtop, a, h[a]);
    }
  }

  // ---------- reductions

  lemma {:induction false} ReducesNot(fr: nat, h: Cells, a: seq<Equation>, g: nat)
    ensures Reduces(fr, h, a, g, h, a)
  {
    hide Solves, Meets;
    forall s: Valuation | Solves(s, h) && Meets(s, fr, a)
      ensures Extends(s, g, h, fr, a)
    {
      assert Same(s, s, g);
    }
  }

  lemma ReducesIf(fr: nat, h: Cells, a: seq<Equation>, g: nat, k: Cells, b: seq<Equation>)
    requires forall s: Valuation :: Solves(s, k) && Meets(s, fr, b) ==> Solves(s, h) && Meets(s, fr, a)
    requires forall s: Valuation :: Solves(s, h) && Meets(s, fr, a) ==> Extends(s, g, k, fr, b)
    ensures Reduces(fr, h, a, g, k, b) == true
  {
    hide Solves, Meets, Extends;
  }

  lemma Back(fr: nat, h: Cells, a: seq<Equation>, g: nat, k: Cells, b: seq<Equation>, s: Valuation)
    requires Reduces(fr, h, a, g, k, b) && Solves(s, k) && Meets(s, fr, b)
    ensures Solves(s, h) && Meets(s, fr, a)
  {
    hide Solves, Meets, Extends;
  }

  lemma Forth(fr: nat, h: Cells, a: seq<Equation>, g: nat, k: Cells, b: seq<Equation>, s: Valuation) returns (o: Valuation)
    requires Reduces(fr, h, a, g, k, b) && Solves(s, h) && Meets(s, fr, a)
    ensures Same(s, o, g) && Solves(o, k) && Meets(o, fr, b)
  {
    hide Solves, Meets, Same;
    assert Extends(s, g, k, fr, b);
    o :| Same(s, o, g) && Solves(o, k) && Meets(o, fr, b);
  }

  lemma {:induction false} ReducesJoin(fr: nat, h: Cells, a: seq<Equation>, f: nat, k: Cells, b: seq<Equation>, g: nat, l: Cells, c: seq<Equation>)
    requires Reduces(fr, h, a, f, k, b) == true && Reduces(fr, k, b, g, l, c) == true && f <= g
    ensures Reduces(fr, h, a, f, l, c) == true
  {
    hide *;
    forall s: Valuation | Solves(s, h) && Meets(s, fr, a)
      ensures Extends(s, f, l, fr, c)
    {
      var o := Forth(fr, h, a, f, k, b, s);
      var p := Forth(fr, k, b, g, l, c, o);
      SameJoins(s, o, p, f, g);
      ExtendsTo(s, p, f, l, fr, c);
    }
    forall s: Valuation | Solves(s, l) && Meets(s, fr, c)
      ensures Solves(s, h) && Meets(s, fr, a)
    {
      Back(fr, k, b, g, l, c, s);
      Back(fr, h, a, f, k, b, s);
    }
    ReducesIf(fr, h, a, f, l, c);
  }

  lemma ExtendsTo(s: Valuation, o: Valuation, g: nat, h: Cells, fr: nat, eqs: seq<Equation>)
    requires Same(s, o, g) && Solves(o, h) && Meets(o, fr, eqs)
    ensures Extends(s, g, h, fr, eqs) == true
  {
  }

  /** Further equations about older cells stay as they are. */
  lemma {:induction false} ReducesMore(fr: nat, h: Cells, a: seq<Equation>, g: nat, k: Cells, b: seq<Equation>, more: seq<Equation>)
    requires Reduces(fr, h, a, g, k, b) && Old(more, g)
    ensures Reduces(fr, h, a + more, g, k, b + more)
  {
    hide Solves, Meets, Same, Old;
    forall s: Valuation | Solves(s, k) && Meets(s, fr, b + more)
      ensures Solves(s, h) && Meets(s, fr, a + more)
    {
      MeetsBoth(s, fr, b, more);
      MeetsBoth(s, fr, a, more);
    }
    forall s: Valuation | Solves(s, h) && Meets(s, fr, a + more)
      ensures Extends(s, g, k, fr, b + more)
    {
      MeetsBoth(s, fr, a, more);
      var o: Valuation :| Same(s, o, g) && Solves(o, k) && Meets(o, fr, b);
      MeetsSame(s, o, g, fr, more);
      MeetsBoth(o, fr, b, more);
    }
  }

  lemma {:induction false} ReducesFirst(fr: nat, h: Cells, a: seq<Equation>, f: nat, k: Cells, b: seq<Equation>, g: nat, l: Cells)
    requires Reduces(fr, h, a, f, k, []) && Reduces(fr, k, b, g, l, []) && f <= g && Old(b, f)
    ensures Reduces(fr, h, a + b, f, l, [])
  {
    hide Reduces, Old;
    ReducesMore(fr, h, a, f, k, [], b);
    assert [] + b == b;
    ReducesJoin(fr, h, a + b, f, k, b, g, l, []);
  }

  lemma {:induction false} ImpossibleMore(fr: nat, h: Cells, a: seq<Equation>, more: seq<Equation>)
    requires Impossible(fr, h, a)
    ensures Impossible(fr, h, a + more)
  {
    hide Solves, Meets;
    forall s: Valuation
      ensures !(Solves(s, h) && Meets(s, fr, a + more))
    {
      MeetsBoth(s, fr, a, more);
    }
  }

  lemma {:induction false} ImpossibleBack(fr: nat, h: Cells, a: seq<Equation>, g: nat, k: Cells, b: seq<Equation>)
    requires Reduces(fr, h, a, g, k, b) && Impossible(fr, k, b)
    ensures Impossible(fr, h, a)
  {
    hide Solves, Meets;
    forall s: Valuation | Solves(s, h) && Meets(s, fr, a)
      ensures Extends(s, g, k, fr, b)
    {
    }
    assert forall s: Valuation :: !Extends(s, g, k, fr, b);
  }

  // ---------- filling cells

  lemma {:induction false} OneMeets(s: Valuation, fr: nat, t: Term, a: Addr)
    ensures Meets(s, fr, [Equation(t, a)]) <==> Matches(s, fr, t, s(a))
  {
    hide Matches;
    var e := [Equation(t, a)];
    assert e[0] == Equation(t, a);
  }

  lemma {:induction false} SameSolutions(fr: nat, h: Cells, a: seq<Equation>, g: nat, k: Cells, b: seq<Equation>)
    requires forall s: Valuation :: Solves(s, k) && Meets(s, fr, b) <==> Solves(s, h) && Meets(s, fr, a)
    ensures Reduces(fr, h, a, g, k, b) == true
  {
    hide Solves, Meets;
    forall s: Valuation | Solves(s, h) && Meets(s, fr, a)
      ensures Extends(s, g, k, fr, b)
    {
      assert Same(s, s, g);
    }
    ReducesIf(fr, h, a, g, k, b);
  }

  /** The equation says what the new content of an unbound or new cell says. */
  lemma {:induction false} SetReduces(fr: nat, h: Cells, gtop: nat, t: Term, a: Addr, k: Addr, c: Content)
    requires k in h ==> h[k].Unbound?
    requires forall s: Valuation :: Solves(s, h) ==> (Matches(s, fr, t, s(a)) <==> HoldsAt(s, k, c))
    ensures Reduces(fr, h, [Equation(t, a)], gtop, h[k := c], []) == true
  {
    var l := h[k := c];
    forall s: Valuation
      ensures Solves(s, l) <==> Solves(s, h) && Meets(s, fr, [Equation(t, a)])
      ensures Meets(s, fr, [])
    {
      SetSolves(h, k, c, s);
      OneMeets(s, fr, t, a);
    }
    SameSolutions(fr, h, [Equation(t, a)], gtop, l, []);
  }

  lemma SolvesAt(s: Valuation, h: Cells, a: Addr)
    requires Solves(s, h) && a in h
    ensures HoldsAt(s, a, h[a])
  {
  }

  /** The arguments of t are to stand in the cells from b on. */
  function ArgEquations(t: Term, n: nat, b: nat): (e: seq<Equation>)
    requires t.Struct? && n <= |t.args|
    ensures |e| == n && forall i :: 0 <= i < n ==> e[i] == Equation(t.args[i], Global(b + i))
  {
    seq(n, i requires 0 <= i < n => Equation(t.args[i], Global(b + i)))
  }

  /** A cell that holds a term with its arguments at b stands for t just if they do for those of t. */
  lemma {:induction false} KidsMatch(s: Valuation, fr: nat, t: Term, b: nat)
    requires Proper(t) && t.Struct?
    ensures Matches(s, fr, t, Node(t.functor, Kids(s, b, t.functor.arity))) <==> Meets(s, fr, ArgEquations(t, |t.args|, b))
  {
    var e, k := ArgEquations(t, |t.args|, b), Kids(s, b, t.functor.arity);
    if Meets(s, fr, e) {
      forall i | 0 <= i < |t.args|
        ensures Matches(s, fr, t.args[i], k[i])
      {
        assert Matches(s, fr, e[i].t, s(e[i].a));
      }
    }
  }

  /** The same terms, but those of a new term's arguments. */
  function WithKids(s: Valuation, g: nat, kids: seq<Tree>): Valuation {
    (a: Addr) => if a.Global? && g <= a.i < g + |kids| then kids[a.i - g] else s(a)
  }

  lemma {:induction false} KidsLength(s: Valuation, fr: nat, t: Term, v: Tree)
    requires Proper(t) && t.Struct? && Matches(s, fr, t, v)
    ensures v.Node? && v.functor == t.functor && |v.kids| == t.functor.arity
  {
  }

  lemma {:induction false} OpenExtends(fr: nat, h: Cells, gtop: nat, t: Term, a: Addr, k: Addr, s: Valuation)
    requires Proper(t) && t.Struct? && Ok(h, gtop) && (k in h ==> h[k].Unbound?) && (k.Local? || k.i < gtop)
    requires Solves(s, h) && Meets(s, fr, [Equation(t, a)]) && s(k) == s(a)
    ensures Extends(s, gtop, h[k := Compound(t.functor, gtop)], fr, ArgEquations(t, |t.args|, gtop))
  {
    OneMeets(s, fr, t, a);
    var kids := s(k).kids;
    var o := WithKids(s, gtop, kids);
    assert Same(s, o, gtop);
    MatchesSame(s, o, gtop, fr, t, s(k));
    SolvesSame(h, gtop, s, o);
    hide Solves, Meets, Matches, Ok;
    assert Kids(o, gtop, t.functor.arity) == kids by { KidsLength(s, fr, t, s(k)); }
    assert o(k) == s(k) == Node(t.functor, kids) by { KidsLength(s, fr, t, s(k)); }
    KidsMatch(o, fr, t, gtop);
    SetSolves(h, k, Compound(t.functor, gtop), o);
    ExtendsTo(s, o, gtop, h[k := Compound(t.functor, gtop)], fr, ArgEquations(t, |t.args|, gtop));
  }

  /** A cell that gets a new term reduces its equation to those of the arguments. */
  lemma {:induction false} OpenReduces(fr: nat, h: Cells, gtop: nat, t: Term, a: Addr, k: Addr)
    requires Proper(t) && t.Struct? && Ok(h, gtop) && (k in h ==> h[k].Unbound?) && (k.Local? || k.i < gtop)
    requires forall s: Valuation :: Solves(s, h) ==> s(k) == s(a)
    ensures Reduces(fr, h, [Equation(t, a)], gtop, h[k := Compound(t.functor, gtop)], ArgEquations(t, |t.args|, gtop)) == true
  {
    var c, e := Compound(t.functor, gtop), ArgEquations(t, |t.args|, gtop);
    var l := h[k := c];
    forall s: Valuation | Solves(s, l) && Meets(s, fr, e)
      ensures Solves(s, h) && Meets(s, fr, [Equation(t, a)])
    {
      hide Solves, Meets, Matches;
      SetSolves(h, k, c, s);
      OneMeets(s, fr, t, a);
      KidsMatch(s, fr, t, gtop);
    }
    forall s: Valuation | Solves(s, h) && Meets(s, fr, [Equation(t, a)])
      ensures Extends(s, gtop, l, fr, e)
    {
      OpenExtends(fr, h, gtop, t, a, k, s);
    }
    ReducesIf(fr, h, [Equation(t, a)], gtop, l, e);
  }

  lemma EquationsStep(t: Term, n: nat, b: nat)
    requires t.Struct? && n < |t.args|
    ensures ArgEquations(t, n + 1, b) == ArgEquations(t, n, b) + [Equation(t.args[n], Global(b + n))]
  {
  }
}
