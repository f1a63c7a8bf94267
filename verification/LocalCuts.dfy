/** When compiled bodies do what ISO/IEC 13211-1, section 7.8, says about a cut in a condition.
    C_LCUT keeps the oldest choice point that was made since the mark (pl-wam.c): that is the one
    of C_IFTHENELSE or C_NOT, but C_MARK has made none, so that one of the condition's own is
    kept. */
module LocalCuts {
  import opened Clauses
  import opened Decompiler
  import opened Bodies
  import opened Control

  /** A cut that concerns the clause, or the condition that t is in. */
  predicate HasCut(t: Term)
    requires Proper(t)
    decreases t
  {
    if IsTerm(t, Comma, 2) then HasCut(t.args[0]) || HasCut(t.args[1])
    else if IsOr(t) then
      if IsCondition(t.args[0]) then
        assert Proper(t.args[0]);
        HasCut(t.args[0].args[1]) || HasCut(t.args[1])
      else HasCut(t.args[0]) || HasCut(t.args[1])
    else if IsTerm(t, Arrow, 2) then HasCut(t.args[1])
    else t == CUT
  }

  /** No cut in the condition of a -> without an alternative. */
  predicate NoBareCut(t: Term)
    requires Proper(t)
    decreases t
  {
    if IsTerm(t, Comma, 2) then NoBareCut(t.args[0]) && NoBareCut(t.args[1])
    else if IsOr(t) then
      if IsCondition(t.args[0]) then
        assert Proper(t.args[0]);
        NoBareCut(t.args[0].args[0]) && NoBareCut(t.args[0].args[1]) && NoBareCut(t.args[1])
      else NoBareCut(t.args[0]) && NoBareCut(t.args[1])
    else if IsTerm(t, Arrow, 2) then !HasCut(t.args[0]) && NoBareCut(t.args[0]) && NoBareCut(t.args[1])
    else if IsTerm(t, NotProvable, 1) then NoBareCut(t.args[0])
    else true
  }

  // ---------- without a cut

  lemma {:induction false} CutsOnly(t: Term, s: Store, solve: Solver, how: Reading)
    requires Proper(t) && !HasCut(t)
    ensures !Eval(t, s, solve, how).cut
    decreases t, 0
  {
    hide Chosen;
    if IsTerm(t, Comma, 2) {
      CutsOnly(t.args[0], s, solve, how);
      EachCutsOnly(t.args[1], Eval(t.args[0], s, solve, how).sols, solve, how);
    } else if IsOr(t) {
      if IsCondition(t.args[0]) {
        assert Proper(t.args[0]);
        var c := Eval(t.args[0].args[0], s, solve, how);
        CutsOnly(t.args[1], s, solve, how);
        if c.sols != [] {
          CutsOnly(t.args[0].args[1], c.sols[0], solve, how);
        }
      } else {
        CutsOnly(t.args[0], s, solve, how);
        CutsOnly(t.args[1], s, solve, how);
      }
    } else if IsTerm(t, Arrow, 2) {
      var c := Chosen(t.args[0], s, solve, how);
      if c.Some? {
        CutsOnly(t.args[1], c.value, solve, how);
      }
    }
  }

  lemma {:induction false} EachCutsOnly(t: Term, sols: seq<Store>, solve: Solver, how: Reading)
    requires Proper(t) && !HasCut(t)
    ensures !Each(t, sols, false, solve, how).cut
    decreases t, 1, |sols|
  {
    hide Eval;
    if sols != [] {
      CutsOnly(t, sols[0], solve, how);
      EachCutsOnly(t, sols[1..], solve, how);
    }
  }

  /** All solutions of a condition, in the order of their groups. */
  function All(f: Found): seq<Store>
    decreases |f.groups|
  {
    if f.groups == [] then (if f.last.None? then [] else [f.last.value])
    else f.groups[0] + All(f.(groups := f.groups[1..]))
  }

  lemma {:induction false} FirstOfAll(f: Found)
    ensures First(f) == if All(f) == [] then None else Some(All(f)[0])
    decreases |f.groups|
  {
    if f.groups != [] {
      FirstOfAll(f.(groups := f.groups[1..]));
    }
  }

  lemma {:induction false} AllJoined(g: seq<seq<Store>>, f: Found)
    ensures All(Found(g + f.groups, f.last)) == All(Found(g, None)) + All(f)
    decreases |g|
  {
    if g == [] {
      assert g + f.groups == f.groups;
      assert [] + All(f) == All(f);
    } else {
      assert (g + f.groups)[1..] == g[1..] + f.groups;
      AllJoined(g[1..], f);
      assert g[0] + (All(Found(g[1..], None)) + All(f)) == (g[0] + All(Found(g[1..], None))) + All(f);
    }
  }

  lemma {:induction false} AllOneByOne(sols: seq<Store>)
    ensures All(OneByOne(sols)) == sols
    decreases |sols|
  {
    if |sols| > 1 {
      AllOneByOne(sols[1..]);
      AllJoined([[sols[0]]], OneByOne(sols[1..]));
      assert [[sols[0]]][1..] == [];
      assert All(Found([[sols[0]]], None)) == [sols[0]] + All(Found([], None));
      assert [sols[0]] + sols[1..] == sols;
    }
  }

  lemma {:induction false} EachJoined(t: Term, x: seq<Store>, z: seq<Store>, solve: Solver)
    requires Proper(t) && !HasCut(t)
    ensures Each(t, x + z, false, solve, Compiled).sols == Each(t, x, false, solve, Compiled).sols + Each(t, z, false, solve, Compiled).sols
    decreases |x|
  {
    hide Eval, HasCut;
    if x == [] {
      assert x + z == z;
    } else {
      CutsOnly(t, x[0], solve, Compiled);
      assert (x + z)[1..] == x[1..] + z;
      EachJoined(t, x[1..], z, solve);
    }
  }

  /** Without a cut, the groups are of no consequence. */
  lemma {:induction false} AllEach(t: Term, groups: seq<seq<Store>>, solve: Solver)
    requires Proper(t) && !HasCut(t)
    ensures All(Found(EachGroup(t, groups, solve), None)) == Each(t, All(Found(groups, None)), false, solve, Compiled).sols
    decreases |groups|
  {
    hide Eval, HasCut;
    if groups != [] {
      AllEach(t, groups[1..], solve);
      EachJoined(t, groups[0], All(Found(groups[1..], None)), solve);
      var g := EachGroup(t, groups, solve);
      assert g[1..] == EachGroup(t, groups[1..], solve);
    }
  }

  lemma {:induction false} AllLast(groups: seq<seq<Store>>, last: Option<Store>)
    ensures All(Found(groups, last)) == All(Found(groups, None)) + if last.None? then [] else [last.value]
  {
    AllJoined(groups, Found([], last));
    assert groups + [] == groups;
  }

  lemma {:induction false} EachOne(t: Term, s: Store, solve: Solver, how: Reading)
    requires Proper(t)
    ensures Each(t, [s], false, solve, how) == Eval(t, s, solve, how)
  {
    hide Eval;
    assert [s][1..] == [];
    var r := Eval(t, s, solve, how);
    assert r.sols + [] == r.sols;
  }

  lemma {:induction false} FindsAllComma(t: Term, s: Store, solve: Solver)
    requires Proper(t) && IsTerm(t, Comma, 2) && !HasCut(t)
    requires var f := Find(t.args[0], s, solve);
             && All(f) == Eval(t.args[0], s, solve, Compiled).sols
             && (f.last.Some? ==> All(Find(t.args[1], f.last.value, solve)) == Eval(t.args[1], f.last.value, solve, Compiled).sols)
    ensures All(Find(t, s, solve)) == Eval(t, s, solve, Compiled).sols
  {
    var a, b, f := t.args[0], t.args[1], Find(t.args[0], s, solve);
    CutsOnly(a, s, solve, Compiled);
    assert !HasCut(b);
    hide HasCut, First, All, OneByOne, Each, EachGroup;
    AllEach(b, f.groups, solve);
    AllLast(f.groups, f.last);
    if f.last.None? {
      assert All(Found(f.groups, None)) + [] == All(Found(f.groups, None));
    } else {
      var g := Find(b, f.last.value, solve);
      AllJoined(EachGroup(b, f.groups, solve), g);
      EachJoined(b, All(Found(f.groups, None)), [f.last.value], solve);
      EachOne(b, f.last.value, solve, Compiled);
    }
  }

  /** A condition without a cut finds all of its solutions in their order. */
  lemma {:induction false} FindsAll(t: Term, s: Store, solve: Solver)
    requires Proper(t) && !HasCut(t)
    ensures All(Find(t, s, solve)) == Eval(t, s, solve, Compiled).sols
    decreases t
  {
    if IsTerm(t, Comma, 2) {
      FindsAll(t.args[0], s, solve);
      var f := Find(t.args[0], s, solve);
      if f.last.Some? {
        FindsAll(t.args[1], f.last.value, solve);
      }
      FindsAllComma(t, s, solve);
    } else if IsOr(t) {
      FindsAllOr(t, s, solve);
    } else if IsTerm(t, Arrow, 2) {
      var c := First(Find(t.args[0], s, solve));
      if c.Some? {
        FindsAll(t.args[1], c.value, solve);
      }
    } else {
      AllOneByOne(solve(t, s));
    }
  }

  lemma {:induction false} FindsAllOr(t: Term, s: Store, solve: Solver)
    requires Proper(t) && IsOr(t) && !HasCut(t)
    ensures All(Find(t, s, solve)) == Eval(t, s, solve, Compiled).sols
    decreases t, 0
  {
    if IsCondition(t.args[0]) {
      assert Proper(t.args[0]);
      var c := Eval(t.args[0].args[0], s, solve, Compiled);
      if c.sols == [] {
        FindsAll(t.args[1], s, solve);
      } else {
        FindsAll(t.args[0].args[1], c.sols[0], solve);
      }
    } else {
      FindsAll(t.args[1], s, solve);
      CutsOnly(t.args[0], s, solve, Compiled);
      var a, f := Eval(t.args[0], s, solve, Compiled).sols, Find(t.args[1], s, solve);
      assert ([a] + f.groups)[1..] == f.groups;
    }
  }

  // ---------- no cut in a condition without an alternative

  /** Such a body does what the standard says. */
  lemma {:induction false} SameReading(t: Term, s: Store, solve: Solver)
    requires Proper(t) && NoBareCut(t)
    ensures Eval(t, s, solve, Compiled) == Eval(t, s, solve, Standard)
    decreases t, 0
  {
    if IsTerm(t, Comma, 2) {
      SameReading(t.args[0], s, solve);
      EachSameReading(t.args[1], Eval(t.args[0], s, solve, Standard).sols, Eval(t.args[0], s, solve, Standard).cut, solve);
    } else if IsOr(t) {
      if IsCondition(t.args[0]) {
        assert Proper(t.args[0]);
        SameReading(t.args[0].args[0], s, solve);
        SameReading(t.args[1], s, solve);
        var c := Eval(t.args[0].args[0], s, solve, Standard);
        if c.sols != [] {
          SameReading(t.args[0].args[1], c.sols[0], solve);
        }
      } else {
        SameReading(t.args[0], s, solve);
        SameReading(t.args[1], s, solve);
      }
    } else if IsTerm(t, Arrow, 2) {
      SameReading(t.args[0], s, solve);
      SameChoice(t.args[0], s, solve);
      var c := Chosen(t.args[0], s, solve, Standard);
      if c.Some? {
        SameReading(t.args[1], c.value, solve);
      }
    } else if IsTerm(t, NotProvable, 1) {
      SameReading(t.args[0], s, solve);
    }
  }

  lemma {:induction false} EachSameReading(t: Term, sols: seq<Store>, cut: bool, solve: Solver)
    requires Proper(t) && NoBareCut(t)
    ensures Each(t, sols, cut, solve, Compiled) == Each(t, sols, cut, solve, Standard)
    decreases t, 1, |sols|
  {
    hide Eval;
    if sols != [] {
      SameReading(t, sols[0], solve);
      EachSameReading(t, sols[1..], cut, solve);
    }
  }

  lemma {:induction false} SameChoice(t: Term, s: Store, solve: Solver)
    requires Proper(t) && !HasCut(t) && Eval(t, s, solve, Compiled) == Eval(t, s, solve, Standard)
    ensures Chosen(t, s, solve, Compiled) == Chosen(t, s, solve, Standard)
  {
    FindsAll(t, s, solve);
    FirstOfAll(Find(t, s, solve));
  }

  // ---------- a cut between two parts of such a condition

  /** The first solution of each group: what a condition goes on with after a cut fails behind it. */
  function Heads(f: Found): seq<Store>
    decreases |f.groups|
  {
    if f.groups == [] then (if f.last.None? then [] else [f.last.value])
    else
      var rest := Heads(f.(groups := f.groups[1..]));
      if f.groups[0] == [] then rest else [f.groups[0][0]] + rest
  }

  /** The first solution of B for the first of the stores that it has one for. */
  function FirstThat(b: Term, xs: seq<Store>, solve: Solver): Option<Store>
    requires Proper(b)
    decreases |xs|
  {
    if xs == [] then None
    else
      var r := Eval(b, xs[0], solve, Standard);
      if r.sols != [] then Some(r.sols[0]) else FirstThat(b, xs[1..], solve)
  }

  /** !, B */
  function CutThen(b: Term): (t: Term)
    requires Proper(b)
    ensures Proper(t)
  {
    assert Proper(CUT);
    Struct(Functor(Comma, 2), [CUT, b])
  }

  /** A, !, B -> C */
  function IfCut(a: Term, b: Term, c: Term): (t: Term)
    requires Proper(a) && Proper(b) && Proper(c)
    ensures Proper(t)
  {
    Struct(Functor(Arrow, 2), [Condition(a, b), c])
  }

  function Condition(a: Term, b: Term): (t: Term)
    requires Proper(a) && Proper(b)
    ensures Proper(t)
  {
    Struct(Functor(Comma, 2), [a, CutThen(b)])
  }

  /** After its first solution A has others with another oldest choice point, B fails for the
      first but not for all of these, and C does something then. */
  predicate CutMatters(a: Term, b: Term, c: Term, s: Store, solve: Solver)
    requires Proper(a) && Proper(b) && Proper(c)
  {
    var xs := Heads(Find(a, s, solve));
    && xs != [] && Eval(b, xs[0], solve, Standard).sols == []
    && var x := FirstThat(b, xs[1..], solve); x.Some? && Eval(c, x.value, solve, Standard) != Answers([], false)
  }

  lemma {:induction false} FirstHead(f: Found)
    ensures First(f) == if Heads(f) == [] then None else Some(Heads(f)[0])
    decreases |f.groups|
  {
    if f.groups != [] {
      FirstHead(f.(groups := f.groups[1..]));
    }
  }

  lemma {:induction false} CutThenEval(b: Term, s: Store, solve: Solver, how: Reading)
    requires Proper(b)
    ensures Eval(CutThen(b), s, solve, how).cut && Eval(CutThen(b), s, solve, how).sols == Eval(b, s, solve, how).sols
  {
    assert Eval(CUT, s, solve, how) == Answers([s], true);
    assert [s][1..] == [];
    assert Each(b, [], true, solve, how) == Answers([], true);
    assert Eval(CutThen(b), s, solve, how) == Each(b, [s], true, solve, how);
    var r := Eval(b, s, solve, how);
    assert r.sols + [] == r.sols;
  }

  lemma {:induction false} EachCutThen(b: Term, sols: seq<Store>, solve: Solver, how: Reading)
    requires Proper(b)
    ensures Each(CutThen(b), sols, false, solve, how).sols == if sols == [] then [] else Eval(b, sols[0], solve, how).sols
  {
    hide Eval, CutThen;
    if sols != [] {
      CutThenEval(b, sols[0], solve, how);
    }
  }

  lemma {:induction false} FindCutThen(b: Term, s: Store, solve: Solver)
    requires Proper(b)
    ensures Find(CutThen(b), s, solve) == Find(b, s, solve)
  {
    assert Find(CUT, s, solve) == Found([], Some(s));
    var f := Find(b, s, solve);
    assert EachGroup(b, [], solve) == [];
    assert [] + f.groups == f.groups;
  }

  /** What is found behind the cut in the groups of A. */
  function Behind(b: Term, f: Found, solve: Solver): Found
    requires Proper(b)
  {
    var groups := EachGroup(CutThen(b), f.groups, solve);
    if f.last.None? then Found(groups, None)
    else
      var g := Find(b, f.last.value, solve);
      Found(groups + g.groups, g.last)
  }

  /** One group less. */
  lemma {:induction false} BehindStart(b: Term, f: Found, solve: Solver)
    requires Proper(b) && f.groups != []
    ensures var g := Behind(b, f.(groups := f.groups[1..]), solve);
            Behind(b, f, solve) ==
            g.(groups := [if f.groups[0] == [] then [] else Eval(b, f.groups[0][0], solve, Compiled).sols] + g.groups)
  {
    hide Each, Find, Eval, CutThen;
    EachCutThen(b, f.groups[0], solve, Compiled);
    if f.last.Some? {
      var x, y, z := [Each(CutThen(b), f.groups[0], false, solve, Compiled).sols], EachGroup(CutThen(b), f.groups[1..], solve),
          Find(b, f.last.value, solve).groups;
      assert (x + y) + z == x + (y + z);
    }
  }

  lemma {:induction false} FirstBehind(b: Term, f: Found, solve: Solver)
    requires Proper(b) && !HasCut(b) && NoBareCut(b)
    ensures First(Behind(b, f, solve)) == FirstThat(b, Heads(f), solve)
    decreases |f.groups|
  {
    hide Find, Eval, HasCut, NoBareCut, Each, CutThen, Behind;
    if f.groups == [] {
      BehindNone(b, f, solve);
      if f.last.Some? {
        FindsAll(b, f.last.value, solve);
        FirstOfAll(Find(b, f.last.value, solve));
        SameReading(b, f.last.value, solve);
        assert Heads(f)[1..] == [];
      }
    } else {
      var rest := f.(groups := f.groups[1..]);
      BehindStart(b, f, solve);
      FirstBehind(b, rest, solve);
      var g := Behind(b, f, solve);
      assert g.groups[1..] == Behind(b, rest, solve).groups && g.(groups := g.groups[1..]) == Behind(b, rest, solve);
      if f.groups[0] != [] {
        SameReading(b, f.groups[0][0], solve);
        assert Heads(f)[1..] == Heads(rest);
      }
    }
  }

  lemma BehindNone(b: Term, f: Found, solve: Solver)
    requires Proper(b) && f.groups == []
    ensures Behind(b, f, solve) == if f.last.None? then Found([], None) else Find(b, f.last.value, solve)
  {
    hide Find, Each, CutThen;
    if f.last.Some? {
      var g := Find(b, f.last.value, solve);
      assert [] + g.groups == g.groups;
    }
  }

  lemma {:induction false} FindBehind(a: Term, b: Term, s: Store, solve: Solver)
    requires Proper(a) && Proper(b)
    ensures Find(Condition(a, b), s, solve) == Behind(b, Find(a, s, solve), solve)
  {
    hide CutThen, EachGroup, Eval;
    var f := Find(a, s, solve);
    if f.last.Some? {
      FindCutThen(b, f.last.value, solve);
    }
  }

  lemma {:induction false} StandardCondition(a: Term, b: Term, s: Store, solve: Solver)
    requires Proper(a) && Proper(b) && !HasCut(a)
    ensures var x := Eval(a, s, solve, Standard).sols;
            Eval(Condition(a, b), s, solve, Standard).sols == if x == [] then [] else Eval(b, x[0], solve, Standard).sols
  {
    CutsOnly(a, s, solve, Standard);
    EachCutThen(b, Eval(a, s, solve, Standard).sols, solve, Standard);
    assert Eval(Condition(a, b), s, solve, Standard) == Each(CutThen(b), Eval(a, s, solve, Standard).sols, false, solve, Standard);
  }

  lemma IfCutEval(a: Term, b: Term, c: Term, s: Store, solve: Solver, how: Reading)
    requires Proper(a) && Proper(b) && Proper(c)
    ensures var x := Chosen(Condition(a, b), s, solve, how);
            Eval(IfCut(a, b, c), s, solve, how) == if x.None? then Answers([], false) else Eval(c, x.value, solve, how)
  {
    hide Condition, Chosen;
  }

  lemma NoneForNone(b: Term, solve: Solver)
    requires Proper(b)
    ensures FirstThat(b, [], solve) == None
  {
  }

  lemma {:induction false} FirstThatStart(b: Term, xs: seq<Store>, solve: Solver)
    requires Proper(b) && xs != []
    ensures var r := Eval(b, xs[0], solve, Standard).sols;
            && FirstThat(b, xs, solve) == (if r != [] then Some(r[0]) else FirstThat(b, xs[1..], solve))
            && FirstThat(b, [xs[0]], solve) == (if r != [] then Some(r[0]) else None)
  {
    hide Eval;
    assert [xs[0]][1..] == [];
  }

  /** What the condition A, !, B goes on with: in the standard's reading the first solution of B
      for the first one of A, in the code's that for the first one of any group. */
  lemma {:induction false} Choices(a: Term, b: Term, s: Store, solve: Solver)
    requires Proper(a) && Proper(b) && !HasCut(a) && !HasCut(b) && NoBareCut(a) && NoBareCut(b)
    ensures var xs := Heads(Find(a, s, solve));
            && Chosen(Condition(a, b), s, solve, Compiled) == FirstThat(b, xs, solve)
            && Chosen(Condition(a, b), s, solve, Standard) == if xs == [] then None else FirstThat(b, [xs[0]], solve)
  {
    hide Condition, Eval, Find, HasCut, NoBareCut, All, First, Heads;
    var f := Find(a, s, solve);
    FindBehind(a, b, s, solve);
    FirstBehind(b, f, solve);
    StandardCondition(a, b, s, solve);
    SameReading(a, s, solve);
    FindsAll(a, s, solve);
    FirstOfAll(f);
    FirstHead(f);
    if Heads(f) != [] {
      assert [Heads(f)[0]][1..] == [];
    }
  }

  lemma IsCutMatters(a: Term, b: Term, c: Term, s: Store, solve: Solver)
    requires Proper(a) && Proper(b) && Proper(c)
    ensures var xs := Heads(Find(a, s, solve));
            CutMatters(a, b, c, s, solve) <==>
            && xs != [] && Eval(b, xs[0], solve, Standard).sols == []
            && var x := FirstThat(b, xs[1..], solve); x.Some? && Eval(c, x.value, solve, Standard) != Answers([], false)
  {
    hide Eval, Find, Heads, FirstThat;
  }

  /** The cut in A, !, B -> C does what the standard says, except in these cases. */
  lemma {:induction false} CutIsHarmless(a: Term, b: Term, c: Term, s: Store, solve: Solver)
    requires Proper(a) && Proper(b) && Proper(c) && !HasCut(a) && !HasCut(b) && NoBareCut(a) && NoBareCut(b) && NoBareCut(c)
    ensures Eval(IfCut(a, b, c), s, solve, Compiled) == Eval(IfCut(a, b, c), s, solve, Standard) <==> !CutMatters(a, b, c, s, solve)
  {
    hide *;
    Choices(a, b, s, solve);
    IfCutEval(a, b, c, s, solve, Compiled);
    IfCutEval(a, b, c, s, solve, Standard);
    IsCutMatters(a, b, c, s, solve);
    var xs := Heads(Find(a, s, solve));
    NoneForNone(b, solve);
    if xs != [] {
      FirstThatStart(b, xs, solve);
    }
    var x := FirstThat(b, xs, solve);
    if x.Some? {
      SameReading(c, x.value, solve);
    }
  }

  // ---------- enough for the caller

  lemma {:induction false} FewHeads(f: Found)
    ensures |Heads(f)| <= |All(f)|
    decreases |f.groups|
  {
    if f.groups != [] {
      FewHeads(f.(groups := f.groups[1..]));
    }
  }

  lemma {:induction false} GoalHeads(sols: seq<Store>)
    ensures Heads(OneByOne(sols)) == sols
    decreases |sols|
  {
    if |sols| > 1 {
      GoalHeads(sols[1..]);
      var f, g := OneByOne(sols), OneByOne(sols[1..]);
      assert f.groups[1..] == g.groups && f.(groups := f.groups[1..]) == g;
      assert [sols[0]] + sols[1..] == sols;
    }
  }

  /** The cut is harmless if A has one solution at most, or if B has one for the first of A.  If A
      is a goal, it matters exactly if B fails for the first solution and not for all of them. */
  lemma {:induction false} WhenCutMatters(a: Term, b: Term, c: Term, s: Store, solve: Solver)
    requires Proper(a) && Proper(b) && Proper(c) && !HasCut(a) && NoBareCut(a)
    ensures var xs := Eval(a, s, solve, Standard).sols;
            && (|xs| <= 1 || Eval(b, xs[0], solve, Standard).sols != [] ==> !CutMatters(a, b, c, s, solve))
            && (!IsControl(a) && a !in {CUT, Atom(True), Atom(Fail)} && xs != [] && Eval(b, xs[0], solve, Standard).sols == [] ==>
                  (CutMatters(a, b, c, s, solve) <==>
                   var x := FirstThat(b, xs, solve); x.Some? && Eval(c, x.value, solve, Standard) != Answers([], false)))
  {
    hide Eval, Find, HasCut, NoBareCut, Heads, All, First, OneByOne, IsControl, FirstThat;
    var f := Find(a, s, solve);
    FindsAll(a, s, solve);
    SameReading(a, s, solve);
    FirstOfAll(f);
    FirstHead(f);
    FewHeads(f);
    NoneForNone(b, solve);
    if Heads(f) != [] {
      FirstThatStart(b, Heads(f), solve);
      assert |Heads(f)| == 1 ==> Heads(f)[1..] == [];
    }
    if !IsControl(a) && a !in {CUT, Atom(True), Atom(Fail)} {
      GoalFind(a, s, solve);
      GoalHeads(solve(a, s));
    }
  }

  lemma GoalFind(t: Term, s: Store, solve: Solver)
    requires Proper(t) && !IsControl(t) && t !in {CUT, Atom(True), Atom(Fail)}
    ensures Find(t, s, solve) == OneByOne(solve(t, s)) && Eval(t, s, solve, Standard) == Answers(solve(t, s), false)
  {
    hide OneByOne;
  }

  // ---------- a body whose cut matters

  const FIRST := Atom(Name.Other(1))
  const SECOND := Atom(Name.Other(2))

  /** The first goal has two solutions, and the second goal fails for the first of them. */
  function Two(t: Term, s: Store): seq<Store> {
    if t == FIRST then [1, 2] else if s == 2 then [2] else []
  }

  /** first, !, second -> true has no solution, but its code finds one. */
  lemma {:induction false} CutInConditionKeepsChoice(s: Store)
    ensures Proper(FIRST) && Proper(SECOND) && Proper(Atom(True)) && CutMatters(FIRST, SECOND, Atom(True), s, Two)
    ensures Eval(IfCut(FIRST, SECOND, Atom(True)), s, Two, Standard) == Answers([], false)
    ensures Eval(IfCut(FIRST, SECOND, Atom(True)), s, Two, Compiled) == Answers([2], false)
  {
    var c := Atom(True);
    assert Proper(FIRST) && Proper(SECOND) && Proper(c) && !HasCut(FIRST) && !HasCut(SECOND) && NoBareCut(FIRST) && NoBareCut(SECOND);
    GoalFind(FIRST, s, Two);
    GoalHeads([1, 2]);
    assert [1, 2][1..] == [2] && [2][1..] == [] && [1][1..] == [];
    forall x: Store ensures Eval(SECOND, x, Two, Standard).sols == (if x == 2 then [2] else []) {
      GoalFind(SECOND, x, Two);
    }
    assert Eval(c, 2, Two, Compiled) == Eval(c, 2, Two, Standard) == Answers([2], false);
    hide Eval, Find, Heads, OneByOne, IfCut, Condition, Chosen, HasCut, NoBareCut;
    assert FirstThat(SECOND, [1], Two) == None && FirstThat(SECOND, [2], Two) == Some(2) && FirstThat(SECOND, [1, 2], Two) == Some(2);
    Choices(FIRST, SECOND, s, Two);
    IfCutEval(FIRST, SECOND, c, s, Two, Compiled);
    IfCutEval(FIRST, SECOND, c, s, Two, Standard);
  }
}
