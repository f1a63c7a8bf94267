/** Compiled control code does what direct evaluation says (pl-comp.c, compileBody()). */
module ControlMeaning {
  import opened Clauses
  import opened Decompiler
  import opened ArgumentRoundTrip
  import opened Bodies
  import opened BodyDecompiler
  import opened BodyRoundTrip
  import opened Control
  import opened ControlSteps

  // ---------- places in the code

  /** From q on, the clause exits. */
  ghost predicate Exits(p: Program, q: nat) {
    forall s: Store, m: Marks, ks: Failures :: Act(p, q, EMPTY, s, m, ks) == Emit([s], Top(ks))
  }

  /** q and r are the same place. */
  ghost predicate Joins(p: Program, q: nat, r: nat) {
    forall s: Store, m: Marks, ks: Failures :: Act(p, q, EMPTY, s, m, ks) == Act(p, r, EMPTY, s, m, ks)
  }

  lemma TopPush(ks: Failures, k: Answers)
    ensures Top(ks + [k]) == k
  {
  }

  lemma {:induction false} FollowExits(p: Program, q: nat, sols: seq<Store>, m: Marks, ks: Failures)
    requires Exits(p, q) == true
    ensures Follow(p, q, sols, m, ks) == Emit(sols, Top(ks))
    decreases |sols|
  {
    assert forall s: Store, n: Marks, ls: Failures :: Act(p, q, EMPTY, s, n, ls) == Emit([s], Top(ls));
    hide Act, Follow, Exits, Emit, Top;
    FollowStart(p, q, sols, m, ks);
    if sols == [] {
      EmitNone(Top(ks));
    } else if |sols| == 1 {
      assert [sols[0]] == sols;
    } else {
      FollowExits(p, q, sols[1..], m, ks);
      TopPush(ks, Emit(sols[1..], Top(ks)));
      EmitMore(sols[0], sols[1..], Top(ks));
      assert [sols[0]] + sols[1..] == sols;
    }
  }

  lemma EmitNone(k: Answers)
    ensures Emit([], k) == k
  {
  }

  lemma EmitMore(s: Store, sols: seq<Store>, k: Answers)
    ensures Emit([s], Emit(sols, k)) == Emit([s] + sols, k)
  {
    if k.Answers? {
      assert [s] + (sols + k.sols) == [s] + sols + k.sols;
    }
  }

  lemma {:induction false} FollowJoins(p: Program, q: nat, r: nat, sols: seq<Store>, m: Marks, ks: Failures)
    requires Joins(p, q, r) == true
    ensures Follow(p, q, sols, m, ks) == Follow(p, r, sols, m, ks)
    decreases |sols|
  {
    assert forall s: Store, n: Marks, ls: Failures :: Act(p, q, EMPTY, s, n, ls) == Act(p, r, EMPTY, s, n, ls);
    hide Act, Follow, Joins, Top;
    FollowStart(p, q, sols, m, ks);
    FollowStart(p, r, sols, m, ks);
    if |sols| > 1 {
      FollowJoins(p, q, r, sols[1..], m, ks);
    }
  }

  lemma JoinsExits(p: Program, r: nat, q: nat)
    requires Joins(p, r, q) == true && Exits(p, q) == true
    ensures Exits(p, r) == true
  {
    hide Act;
  }

  lemma JoinsItself(p: Program, q: nat)
    ensures Joins(p, q, q) == true
  {
  }

  lemma {:induction false} VarsJoins(p: Program, pc: nat, x: Codes)
    requires IsVars(x) && At(p.code, pc, x)
    ensures Joins(p, pc, pc + |x|)
    decreases |x|
  {
    hide Act, At;
    if x != [] {
      AtWord(p.code, pc, x, 0);
      assert x == x[..2] + x[2..];
      AtSplit(p.code, pc, x[..2], x[2..]);
      VarsJoins(p, pc + 2, x[2..]);
      forall s: Store, m: Marks, ks: Failures
        ensures Act(p, pc, EMPTY, s, m, ks) == Act(p, pc + |x|, EMPTY, s, m, ks)
      {
        VarActs(p, pc, EMPTY, s, m, ks);
      }
    }
  }

  /** The C_VARs v and a jump over y. */
  lemma {:induction false} JumpJoins(p: Program, pc: nat, v: Codes, y: nat)
    requires IsVars(v) && At(p.code, pc, v + [Op(C_JMP), Num(y)])
    ensures Joins(p, pc, pc + |v| + 2 + y)
  {
    hide Act, At, IsVars;
    AtSplit(p.code, pc, v, [Op(C_JMP), Num(y)]);
    AtWord(p.code, pc + |v|, [Op(C_JMP), Num(y)], 0);
    AtWord(p.code, pc + |v|, [Op(C_JMP), Num(y)], 1);
    VarsJoins(p, pc, v);
    forall s: Store, m: Marks, ks: Failures
      ensures Act(p, pc, EMPTY, s, m, ks) == Act(p, pc + |v| + 2 + y, EMPTY, s, m, ks)
    {
      JumpActs(p, pc + |v|, EMPTY, s, m, ks);
    }
  }

  lemma EndJoins(p: Program, pc: nat)
    requires IsCode(p, pc, {C_END})
    ensures Joins(p, pc, pc + 1) == true
  {
    hide Act;
    forall s: Store, m: Marks, ks: Failures
      ensures Act(p, pc, EMPTY, s, m, ks) == Act(p, pc + 1, EMPTY, s, m, ks)
    {
      SkipActs(p, pc, EMPTY, s, m, ks);
    }
  }

  lemma ExitExits(p: Program, pc: nat)
    requires IsCode(p, pc, {I_EXIT})
    ensures Exits(p, pc) == true
  {
    hide Act, Emit;
    forall s: Store, m: Marks, ks: Failures
      ensures Act(p, pc, EMPTY, s, m, ks) == Emit([s], Top(ks))
    {
      EndActs(p, pc, EMPTY, s, m, ks);
    }
  }

  // ---------- what a part of a body does

  /** The choice points that are left behind a part of a body: a cut keeps the oldest one of the
      condition that it is in. */
  function Left(cut: bool, cutvar: Option<nat>, m: Marks, ks: Failures): Failures {
    if !cut then ks
    else if cutvar.None? then NOCHOICE
    else if cutvar.value in m && m[cutvar.value] < |ks| then KeepOldest(ks, m[cutvar.value])
    else ks
  }

  /** The marks are numbered below n, cutvar is the one of the innermost condition, and every
      condition has a choice point. */
  predicate Scope(m: Marks, ks: Failures, cutvar: Option<nat>, n: nat) {
    && (forall u :: u in m ==> u < n && m[u] + 1 < |ks|)
    && (if cutvar.Some? then Innermost(m, cutvar.value) else m == map[])
  }

  /** The condition of v is innermost, and there is no choice point since its mark. */
  predicate Bare(m: Marks, ks: Failures, v: nat, n: nat) {
    Innermost(m, v) && m[v] == |ks| - 1 && forall u :: u in m ==> u < n
  }

  /** The code at q for what a condition finds without a choice point of its own. */
  function Try(p: Program, q: nat, f: Found, m: Marks, ks: Failures): Answers
    decreases |f.groups|
  {
    if f.groups == [] then (if f.last.None? then Top(ks) else Act(p, q, EMPTY, f.last.value, m, ks))
    else Follow(p, q, f.groups[0], m, ks + [Try(p, q, f.(groups := f.groups[1..]), m, ks)])
  }

  ghost predicate MeansFor(p: Program, pc: nat, q: nat, t: Term, cutvar: Option<nat>, n: nat, s: Store, m: Marks, ks: Failures)
    requires Proper(t)
  {
    && (Scope(m, ks, cutvar, n) ==>
          var r := Eval(t, s, p.solve, Compiled);
          Act(p, pc, EMPTY, s, m, ks) == Follow(p, q, r.sols, m, Left(r.cut, cutvar, m, ks)))
    && (cutvar.Some? && Bare(m, ks, cutvar.value, n) ==>
          Act(p, pc, EMPTY, s, m, ks) == Try(p, q, Find(t, s, p.solve), m, ks))
  }

  /** The code from pc to q, whose marks are numbered from n on, does what t does, and finds what
      t does in a condition that has no choice point yet. */
  ghost predicate Means(p: Program, pc: nat, q: nat, t: Term, cutvar: Option<nat>, n: nat)
    requires Proper(t)
  {
    forall s: Store, m: Marks, ks: Failures :: MeansFor(p, pc, q, t, cutvar, n, s, m, ks)
  }

  lemma IsFor(p: Program, pc: nat, q: nat, t: Term, cutvar: Option<nat>, n: nat, s: Store, m: Marks, ks: Failures)
    requires Proper(t)
    requires Scope(m, ks, cutvar, n) ==>
               var r := Eval(t, s, p.solve, Compiled);
               Act(p, pc, EMPTY, s, m, ks) == Follow(p, q, r.sols, m, Left(r.cut, cutvar, m, ks))
    requires cutvar.Some? && Bare(m, ks, cutvar.value, n) ==> Act(p, pc, EMPTY, s, m, ks) == Try(p, q, Find(t, s, p.solve), m, ks)
    ensures MeansFor(p, pc, q, t, cutvar, n, s, m, ks) == true
  {
    hide Act, Follow, Eval, Left, Scope, Bare, Try, Find;
  }

  lemma {:induction false} DoesAt(p: Program, pc: nat, q: nat, t: Term, cutvar: Option<nat>, n: nat, s: Store, m: Marks, ks: Failures)
    requires Proper(t) && Means(p, pc, q, t, cutvar, n) == true && Scope(m, ks, cutvar, n) == true
    ensures var r := Eval(t, s, p.solve, Compiled);
            Act(p, pc, EMPTY, s, m, ks) == Follow(p, q, r.sols, m, Left(r.cut, cutvar, m, ks))
  {
    hide Act, Follow, Eval, Scope, Left, Bare, Find;
    assert MeansFor(p, pc, q, t, cutvar, n, s, m, ks);
  }

  lemma {:induction false} FindsAt(p: Program, pc: nat, q: nat, t: Term, v: nat, n: nat, s: Store, m: Marks, ks: Failures)
    requires Proper(t) && Means(p, pc, q, t, Some(v), n) == true && Bare(m, ks, v, n) == true
    ensures Act(p, pc, EMPTY, s, m, ks) == Try(p, q, Find(t, s, p.solve), m, ks)
  {
    hide Act, Follow, Eval, Scope, Left, Bare, Find;
    assert MeansFor(p, pc, q, t, Some(v), n, s, m, ks);
  }

  lemma {:induction false} TryStart(p: Program, q: nat, f: Found, m: Marks, ks: Failures)
    ensures f.groups == [] ==> Try(p, q, f, m, ks) == if f.last.None? then Top(ks) else Act(p, q, EMPTY, f.last.value, m, ks)
    ensures f.groups != [] ==>
              Try(p, q, f, m, ks) == Follow(p, q, f.groups[0], m, ks + [Try(p, q, f.(groups := f.groups[1..]), m, ks)])
  {
    hide Act, Follow, Top;
  }

  lemma {:induction false} TryJoins(p: Program, q: nat, r: nat, f: Found, m: Marks, ks: Failures)
    requires Joins(p, q, r) == true
    ensures Try(p, q, f, m, ks) == Try(p, r, f, m, ks)
    decreases |f.groups|
  {
    assert forall s: Store, n: Marks, ls: Failures :: Act(p, q, EMPTY, s, n, ls) == Act(p, r, EMPTY, s, n, ls);
    hide Act, Follow, Joins, Top, Try;
    TryStart(p, q, f, m, ks);
    TryStart(p, r, f, m, ks);
    if f.groups != [] {
      var g := f.(groups := f.groups[1..]);
      TryJoins(p, q, r, g, m, ks);
      FollowJoins(p, q, r, f.groups[0], m, ks + [Try(p, q, g, m, ks)]);
    }
  }

  lemma ScopeMore(m: Marks, ks: Failures, cutvar: Option<nat>, n: nat, o: nat)
    requires n <= o
    ensures Scope(m, ks, cutvar, n) ==> Scope(m, ks, cutvar, o)
    ensures cutvar.Some? && Bare(m, ks, cutvar.value, n) ==> Bare(m, ks, cutvar.value, o)
  {
  }

  lemma {:induction false} ForTo(p: Program, pc: nat, r: nat, q: nat, t: Term, cutvar: Option<nat>, n: nat, o: nat, s: Store, m: Marks, ks: Failures)
    requires Proper(t) && Means(p, pc, r, t, cutvar, o) == true && Joins(p, r, q) == true && n <= o
    ensures MeansFor(p, pc, q, t, cutvar, n, s, m, ks) == true
  {
    hide *;
    ScopeMore(m, ks, cutvar, n, o);
    if Scope(m, ks, cutvar, n) {
      var e := Eval(t, s, p.solve, Compiled);
      DoesAt(p, pc, r, t, cutvar, o, s, m, ks);
      FollowJoins(p, r, q, e.sols, m, Left(e.cut, cutvar, m, ks));
    }
    if cutvar.Some? && Bare(m, ks, cutvar.value, n) {
      FindsAt(p, pc, r, t, cutvar.value, o, s, m, ks);
      TryJoins(p, r, q, Find(t, s, p.solve), m, ks);
    }
    IsFor(p, pc, q, t, cutvar, n, s, m, ks);
  }

  /** A part that ends in front of C_VARs and a jump to q. */
  lemma {:induction false} MeansTo(p: Program, pc: nat, r: nat, q: nat, t: Term, cutvar: Option<nat>, n: nat, o: nat)
    requires Proper(t) && Means(p, pc, r, t, cutvar, o) == true && Joins(p, r, q) == true && n <= o
    ensures Means(p, pc, q, t, cutvar, n) == true
  {
    hide MeansFor, Joins;
    forall s: Store, m: Marks, ks: Failures
      ensures MeansFor(p, pc, q, t, cutvar, n, s, m, ks)
    {
      ForTo(p, pc, r, q, t, cutvar, n, o, s, m, ks);
    }
  }

  // ---------- sequences of solutions

  /** js and ls have the same choice points at the marks, and every condition has one. */
  predicate Agree(m: Marks, js: Failures, ls: Failures) {
    forall u :: u in m ==> m[u] + 1 < |js| && m[u] + 1 < |ls| && js[m[u]] == ls[m[u]] && js[m[u] + 1] == ls[m[u] + 1]
  }

  lemma AgreeAlike(m: Marks, js: Failures, ls: Failures)
    requires Agree(m, js, ls) && Top(js) == Top(ls)
    ensures Alike(m, js, m, ls) == true
  {
  }

  lemma AgreePush(m: Marks, js: Failures, ls: Failures, j: Answers, l: Answers)
    requires Agree(m, js, ls) == true
    ensures Agree(m, js + [j], ls + [l]) == true && Agree(m, js, ls + [l]) == true && Agree(m, js + [j], ls) == true
  {
  }

  lemma {:induction false} FollowAppend(p: Program, q: nat, x: seq<Store>, z: seq<Store>, m: Marks, js: Failures, ls: Failures)
    requires Agree(m, js, ls) == true && Top(js) == Follow(p, q, z, m, ls)
    ensures Follow(p, q, x, m, js) == Follow(p, q, x + z, m, ls)
    decreases |x|
  {
    hide Act, Follow, Agree, Top, Alike;
    FollowStart(p, q, x, m, js);
    FollowStart(p, q, x + z, m, ls);
    FollowStart(p, q, z, m, ls);
    if x == [] {
      assert x + z == z;
    } else {
      var k := if |x| == 1 then Top(js) else Follow(p, q, x[1..], m, js);
      assert (x + z)[1..] == x[1..] + z;
      if |x| > 1 {
        FollowAppend(p, q, x[1..], z, m, js, ls);
      } else {
        assert x[1..] + z == z;
      }
      var j := if |x| == 1 then js else js + [k];
      var l := if |x + z| == 1 then ls else ls + [k];
      AgreePush(m, js, ls, k, k);
      TopPush(js, k);
      TopPush(ls, k);
      AgreeAlike(m, j, l);
      AlikeActs(p, q, EMPTY, x[0], m, j, m, l);
    }
  }

  lemma ScopeAgree(m: Marks, ks: Failures, cutvar: Option<nat>, n: nat, cut: bool, more: bool, k: Answers)
    requires Scope(m, ks, cutvar, n)
    ensures Agree(m, ks, Left(cut, cutvar, m, ks)) == true && Agree(m, Left(more, cutvar, m, ks), Left(cut, cutvar, m, ks)) == true
    ensures Agree(m, ks + [k], Left(cut, cutvar, m, ks)) == true
    ensures Agree(m, Left(more, cutvar, m, ks) + [k], Left(cut, cutvar, m, ks)) == true
  {
  }

  lemma ScopeLeft(m: Marks, ks: Failures, cutvar: Option<nat>, n: nat, cut: bool, k: Answers)
    requires Scope(m, ks, cutvar, n)
    ensures Scope(m, Left(cut, cutvar, m, ks), cutvar, n) && Scope(m, Left(cut, cutvar, m, ks) + [k], cutvar, n)
    ensures Scope(m, ks + [k], cutvar, n)
    ensures Left(true, cutvar, m, Left(cut, cutvar, m, ks)) == Left(true, cutvar, m, ks)
    ensures Left(true, cutvar, m, Left(cut, cutvar, m, ks) + [k]) == Left(true, cutvar, m, ks)
    ensures Left(true, cutvar, m, ks + [k]) == Left(true, cutvar, m, ks)
  {
  }

  // ---------- conjunction and disjunction

  lemma {:induction false} EachStart(t: Term, sols: seq<Store>, cut: bool, solve: Solver)
    requires Proper(t)
    ensures sols == [] ==> Each(t, sols, cut, solve, Compiled) == Answers([], cut)
    ensures sols != [] ==>
              var r, rest := Eval(t, sols[0], solve, Compiled), Each(t, sols[1..], cut, solve, Compiled);
              Each(t, sols, cut, solve, Compiled) == if r.cut then r else Answers(r.sols + rest.sols, rest.cut)
  {
    hide Eval;
  }

  lemma {:induction false} EachDoes(p: Program, mid: nat, q: nat, t: Term, cutvar: Option<nat>, n: nat, sols: seq<Store>, cut: bool, m: Marks, ks: Failures)
    requires Proper(t) && Means(p, mid, q, t, cutvar, n) == true && Scope(m, ks, cutvar, n) == true
    ensures var e := Each(t, sols, cut, p.solve, Compiled);
            Follow(p, mid, sols, m, Left(cut, cutvar, m, ks)) == Follow(p, q, e.sols, m, Left(e.cut, cutvar, m, ks))
    decreases |sols|
  {
    hide *;
    var ls := Left(cut, cutvar, m, ks);
    EachStart(t, sols, cut, p.solve);
    FollowStart(p, mid, sols, m, ls);
    FollowStart(p, q, [], m, ls);
    if sols != [] {
      EachDoes(p, mid, q, t, cutvar, n, sols[1..], cut, m, ks);
      var k := Follow(p, mid, sols[1..], m, ls);
      var js := if |sols| == 1 then ls else ls + [k];
      var e := Each(t, sols[1..], cut, p.solve, Compiled);
      var r := Eval(t, sols[0], p.solve, Compiled);
      ScopeLeft(m, ks, cutvar, n, cut, k);
      DoesAt(p, mid, q, t, cutvar, n, sols[0], m, js);
      if !r.cut {
        ScopeAgree(m, ks, cutvar, n, e.cut, cut, k);
        LeftNone(cutvar, m, js);
        TopPush(ls, k);
        FollowStart(p, mid, [], m, ls);
        assert |sols| == 1 ==> sols[1..] == [];
        FollowAppend(p, q, r.sols, e.sols, m, js, Left(e.cut, cutvar, m, ks));
      }
    }
  }

  lemma LeftNone(cutvar: Option<nat>, m: Marks, ks: Failures)
    ensures Left(false, cutvar, m, ks) == ks
  {
  }

  /** A condition that begins without a choice point has one after the first group. */
  lemma BarePush(m: Marks, ks: Failures, v: nat, n: nat, cut: bool, k: Answers)
    requires Bare(m, ks, v, n)
    ensures Scope(m, ks + [k], Some(v), n) == true && Left(cut, Some(v), m, ks + [k]) == ks + [k]
  {
    assert (ks + [k])[..|ks| + 1] == ks + [k];
  }

  lemma {:induction false} EachGroupStart(t: Term, groups: seq<seq<Store>>, solve: Solver)
    requires Proper(t)
    ensures groups == [] ==> EachGroup(t, groups, solve) == []
    ensures groups != [] ==>
              EachGroup(t, groups, solve) == [Each(t, groups[0], false, solve, Compiled).sols] + EachGroup(t, groups[1..], solve)
  {
    hide Each;
  }

  /** What is found in the groups f of A, and then B. */
  function FindEach(t: Term, f: Found, solve: Solver): Found
    requires Proper(t)
  {
    var groups := EachGroup(t, f.groups, solve);
    if f.last.None? then Found(groups, None)
    else
      var b := Find(t, f.last.value, solve);
      Found(groups + b.groups, b.last)
  }

  lemma FindEachIs(t: Term, f: Found, solve: Solver)
    requires Proper(t)
    ensures f.last.None? ==> FindEach(t, f, solve) == Found(EachGroup(t, f.groups, solve), None)
    ensures f.last.Some? ==>
              var b := Find(t, f.last.value, solve); FindEach(t, f, solve) == Found(EachGroup(t, f.groups, solve) + b.groups, b.last)
  {
    hide Find, EachGroup;
  }

  lemma {:induction false} FindEachStart(t: Term, f: Found, solve: Solver)
    requires Proper(t)
    ensures f.groups == [] ==> FindEach(t, f, solve) == if f.last.None? then Found([], None) else Find(t, f.last.value, solve)
    ensures f.groups != [] ==>
              var g := FindEach(t, f.(groups := f.groups[1..]), solve);
              FindEach(t, f, solve) == g.(groups := [Each(t, f.groups[0], false, solve, Compiled).sols] + g.groups)
  {
    hide *;
    FindEachIs(t, f, solve);
    FindEachIs(t, f.(groups := if f.groups == [] then [] else f.groups[1..]), solve);
    EachGroupStart(t, f.groups, solve);
    if f.groups != [] && f.last.Some? {
      var x, y, z := [Each(t, f.groups[0], false, solve, Compiled).sols], EachGroup(t, f.groups[1..], solve), Find(t, f.last.value, solve).groups;
      assert (x + y) + z == x + (y + z);
    } else if f.last.Some? {
      assert [] + Find(t, f.last.value, solve).groups == Find(t, f.last.value, solve).groups;
    }
  }

  lemma {:induction false} TryEach(p: Program, mid: nat, q: nat, t: Term, v: nat, n: nat, f: Found, m: Marks, ks: Failures)
    requires Proper(t) && Means(p, mid, q, t, Some(v), n) == true && Bare(m, ks, v, n) == true
    ensures Try(p, mid, f, m, ks) == Try(p, q, FindEach(t, f, p.solve), m, ks)
    decreases |f.groups|
  {
    hide *;
    FindEachStart(t, f, p.solve);
    TryStart(p, mid, f, m, ks);
    var g := FindEach(t, f, p.solve);
    TryStart(p, q, g, m, ks);
    if f.groups == [] {
      if f.last.Some? {
        FindsAt(p, mid, q, t, v, n, f.last.value, m, ks);
      }
    } else {
      var rest := f.(groups := f.groups[1..]);
      var h := FindEach(t, rest, p.solve);
      TryEach(p, mid, q, t, v, n, rest, m, ks);
      assert g.groups[1..] == h.groups && g.(groups := g.groups[1..]) == h;
      var k := Try(p, q, h, m, ks);
      var e := Each(t, f.groups[0], false, p.solve, Compiled);
      BarePush(m, ks, v, n, e.cut, k);
      LeftNone(Some(v), m, ks + [k]);
      EachDoes(p, mid, q, t, Some(v), n, f.groups[0], false, m, ks + [k]);
    }
  }

  lemma FindComma(t: Term, s: Store, solve: Solver)
    requires Proper(t) && IsTerm(t, Comma, 2)
    ensures Find(t, s, solve) == FindEach(t.args[1], Find(t.args[0], s, solve), solve)
    ensures var a := Eval(t.args[0], s, solve, Compiled); Eval(t, s, solve, Compiled) == Each(t.args[1], a.sols, a.cut, solve, Compiled)
  {
    hide Each, EachGroup, OneByOne, Chosen;
  }

  lemma {:induction false} CommaFor(p: Program, pc: nat, mid: nat, q: nat, t: Term, a: Term, b: Term, cutvar: Option<nat>, n: nat, s: Store, m: Marks, ks: Failures)
    requires Proper(t) && IsTerm(t, Comma, 2) && a == t.args[0] && b == t.args[1] && Proper(a) && Proper(b)
    requires Means(p, pc, mid, a, cutvar, n) == true && Means(p, mid, q, b, cutvar, n) == true
    ensures MeansFor(p, pc, q, t, cutvar, n, s, m, ks) == true
  {
    hide *;
    FindComma(t, s, p.solve);
    if Scope(m, ks, cutvar, n) {
      var r := Eval(a, s, p.solve, Compiled);
      DoesAt(p, pc, mid, a, cutvar, n, s, m, ks);
      EachDoes(p, mid, q, b, cutvar, n, r.sols, r.cut, m, ks);
    }
    if cutvar.Some? && Bare(m, ks, cutvar.value, n) {
      FindsAt(p, pc, mid, a, cutvar.value, n, s, m, ks);
      TryEach(p, mid, q, b, cutvar.value, n, Find(a, s, p.solve), m, ks);
    }
    IsFor(p, pc, q, t, cutvar, n, s, m, ks);
  }

  lemma {:induction false} OrStart(t: Term, s: Store, solve: Solver)
    requires Proper(t) && IsOr(t) && !IsCondition(t.args[0])
    ensures var a, f := Eval(t.args[0], s, solve, Compiled), Find(t.args[1], s, solve);
            Find(t, s, solve) == Found([a.sols] + f.groups, f.last)
    ensures var a, b := Eval(t.args[0], s, solve, Compiled), Eval(t.args[1], s, solve, Compiled);
            Eval(t, s, solve, Compiled) == if a.cut then a else Answers(a.sols + b.sols, b.cut)
  {
    hide Each, EachGroup, OneByOne, Chosen;
  }

  /** A disjunction, once C_OR has made its choice point. */
  lemma {:induction false} OrFor(p: Program, pc: nat, d: nat, q: nat, t: Term, a: Term, b: Term, cutvar: Option<nat>, n: nat, s: Store, m: Marks, ks: Failures)
    requires Proper(t) && IsOr(t) && !IsCondition(t.args[0]) && a == t.args[0] && b == t.args[1] && Proper(a) && Proper(b)
    requires IsCode(p, pc, {C_OR}) && Operand(p.code, pc) == Some(d)
    requires Means(p, pc + 2, q, a, cutvar, n) == true && Means(p, pc + 2 + d, q, b, cutvar, n) == true
    ensures MeansFor(p, pc, q, t, cutvar, n, s, m, ks) == true
  {
    hide *;
    OrActs(p, pc, EMPTY, s, m, ks);
    OrStart(t, s, p.solve);
    var x, k := Eval(a, s, p.solve, Compiled), Act(p, pc + 2 + d, EMPTY, s, m, ks);
    if Scope(m, ks, cutvar, n) {
      ScopeLeft(m, ks, cutvar, n, x.cut, k);
      DoesAt(p, pc + 2, q, a, cutvar, n, s, m, ks + [k]);
      if !x.cut {
        var y := Eval(b, s, p.solve, Compiled);
        DoesAt(p, pc + 2 + d, q, b, cutvar, n, s, m, ks);
        ScopeAgree(m, ks, cutvar, n, y.cut, false, k);
        LeftNone(cutvar, m, ks + [k]);
        TopPush(ks, k);
        FollowAppend(p, q, x.sols, y.sols, m, ks + [k], Left(y.cut, cutvar, m, ks));
      }
    }
    if cutvar.Some? && Bare(m, ks, cutvar.value, n) {
      var f, g := Find(b, s, p.solve), Find(t, s, p.solve);
      FindsAt(p, pc + 2 + d, q, b, cutvar.value, n, s, m, ks);
      BarePush(m, ks, cutvar.value, n, x.cut, k);
      DoesAt(p, pc + 2, q, a, cutvar, n, s, m, ks + [k]);
      TryStart(p, q, g, m, ks);
      assert g.groups[1..] == f.groups && g.(groups := g.groups[1..]) == f;
    }
    IsFor(p, pc, q, t, cutvar, n, s, m, ks);
  }

  // ---------- conditions

  /** The marks in a condition that begins at v. */
  lemma Enter(m: Marks, ks: Failures, cutvar: Option<nat>, v: nat, k: Answers)
    requires Scope(m, ks, cutvar, v) || (cutvar.Some? && Bare(m, ks, cutvar.value, v))
    ensures v !in m
    ensures var o := m[v := |ks| - 1];
            && Scope(o, ks + [k], Some(v), v + 1) == true && Bare(o, ks, v, v + 1) == true
            && Innermost(o, v) == true && o - {v} == m
  {
  }

  /** C_CUT at the end of a condition that began with the choice points ks. */
  lemma CommitActs(p: Program, qc: nat, v: nat, s: Store, m: Marks, ks: Failures, ls: Failures)
    requires IsCode(p, qc, {C_CUT}) && Operand(p.code, qc) == Some(v) && v !in m && Innermost(m[v := |ks| - 1], v) == true
    requires ks <= ls
    ensures Act(p, qc, EMPTY, s, m[v := |ks| - 1], ls) == Act(p, qc + 2, EMPTY, s, m, ks)
  {
    hide *;
    var o := m[v := |ks| - 1];
    CutActs(p, qc, EMPTY, s, o, ls);
    assert ls[..|ks|] == ks && o - {v} == m && o[v] == |ks| - 1;
  }

  /** A condition that is entered with a choice point of its own: the first solution cuts it. */
  lemma {:induction false} CommitFollow(p: Program, qc: nat, v: nat, sols: seq<Store>, m: Marks, ks: Failures, ls: Failures)
    requires IsCode(p, qc, {C_CUT}) && Operand(p.code, qc) == Some(v) && v !in m && Innermost(m[v := |ks| - 1], v) == true
    requires ks <= ls
    ensures Follow(p, qc, sols, m[v := |ks| - 1], ls) == if sols == [] then Top(ls) else Act(p, qc + 2, EMPTY, sols[0], m, ks)
  {
    hide *;
    var o := m[v := |ks| - 1];
    FollowStart(p, qc, sols, o, ls);
    if |sols| == 1 {
      CommitActs(p, qc, v, sols[0], m, ks, ls);
    } else if |sols| > 1 {
      CommitActs(p, qc, v, sols[0], m, ks, ls + [Follow(p, qc, sols[1..], o, ls)]);
    }
  }

  lemma {:induction false} FirstStart(f: Found)
    ensures f.groups == [] ==> First(f) == f.last
    ensures f.groups != [] ==> First(f) == if f.groups[0] != [] then Some(f.groups[0][0]) else First(f.(groups := f.groups[1..]))
  {
  }

  /** A condition that is entered without one. */
  lemma {:induction false} CommitTry(p: Program, qc: nat, v: nat, f: Found, m: Marks, ks: Failures)
    requires IsCode(p, qc, {C_CUT}) && Operand(p.code, qc) == Some(v) && v !in m && Innermost(m[v := |ks| - 1], v) == true
    ensures Try(p, qc, f, m[v := |ks| - 1], ks) == if First(f).None? then Top(ks) else Act(p, qc + 2, EMPTY, First(f).value, m, ks)
    decreases |f.groups|
  {
    hide *;
    var o := m[v := |ks| - 1];
    TryStart(p, qc, f, o, ks);
    FirstStart(f);
    if f.groups == [] {
      if f.last.Some? {
        CommitActs(p, qc, v, f.last.value, m, ks, ks);
      }
    } else {
      var g := f.(groups := f.groups[1..]);
      var k := Try(p, qc, g, o, ks);
      CommitFollow(p, qc, v, f.groups[0], m, ks, ks + [k]);
      CommitTry(p, qc, v, g, m, ks);
      TopPush(ks, k);
    }
  }

  lemma {:induction false} IfThenElseStart(t: Term, s: Store, solve: Solver)
    requires Proper(t) && IsOr(t) && IsCondition(t.args[0]) && Proper(t.args[0])
    ensures var c := Eval(t.args[0].args[0], s, solve, Compiled);
            && Find(t, s, solve) == (if c.sols == [] then Find(t.args[1], s, solve) else Find(t.args[0].args[1], c.sols[0], solve))
            && Eval(t, s, solve, Compiled) ==
               (if c.sols == [] then Eval(t.args[1], s, solve, Compiled) else Eval(t.args[0].args[1], c.sols[0], solve, Compiled))
  {
    hide Each, EachGroup, OneByOne, Chosen;
  }

  /** C_IFTHENELSE goes on behind the condition with its first solution, or with the alternative. */
  lemma {:induction false} ConditionActs(p: Program, pc: nat, v: nat, d: nat, qc: nat, c: Term, cutvar: Option<nat>, s: Store, m: Marks, ks: Failures)
    requires Proper(c) && IsCode(p, pc, {C_IFTHENELSE, C_NOT}) && Operand(p.code, pc) == Some(v) && Number(p.code, pc + 2) == Some(d)
    requires IsCode(p, qc, {C_CUT}) && Operand(p.code, qc) == Some(v) && Means(p, pc + 3, qc, c, Some(v), v + 1) == true
    requires Scope(m, ks, cutvar, v) == true || (cutvar.Some? && Bare(m, ks, cutvar.value, v) == true)
    ensures var sols := Eval(c, s, p.solve, Compiled).sols;
            Act(p, pc, EMPTY, s, m, ks) == if sols == [] then Act(p, pc + 3 + d, EMPTY, s, m, ks) else Act(p, qc + 2, EMPTY, sols[0], m, ks)
  {
    hide *;
    var k := Act(p, pc + 3 + d, EMPTY, s, m, ks);
    var o, r := m[v := |ks| - 1], Eval(c, s, p.solve, Compiled);
    Enter(m, ks, cutvar, v, k);
    IfActs(p, pc, EMPTY, s, m, ks);
    DoesAt(p, pc + 3, qc, c, Some(v), v + 1, s, o, ks + [k]);
    BarePush(o, ks, v, v + 1, r.cut, k);
    CommitFollow(p, qc, v, r.sols, m, ks, ks + [k]);
    TopPush(ks, k);
  }

  lemma {:induction false} IfThenElseFor(p: Program, pc: nat, v: nat, d: nat, qc: nat, q: nat, t: Term, a: Term, b: Term, c: Term,
      cutvar: Option<nat>, s: Store, m: Marks, ks: Failures)
    requires Proper(t) && IsOr(t) && IsCondition(t.args[0]) && Proper(t.args[0]) && Proper(a) && Proper(b) && Proper(c)
    requires a == t.args[0].args[0] && b == t.args[0].args[1] && c == t.args[1]
    requires IsCode(p, pc, {C_IFTHENELSE, C_NOT}) && Operand(p.code, pc) == Some(v) && Number(p.code, pc + 2) == Some(d)
    requires IsCode(p, qc, {C_CUT}) && Operand(p.code, qc) == Some(v)
    requires Means(p, pc + 3, qc, a, Some(v), v + 1) == true && Means(p, qc + 2, q, b, cutvar, v) == true
    requires Means(p, pc + 3 + d, q, c, cutvar, v) == true
    ensures MeansFor(p, pc, q, t, cutvar, v, s, m, ks) == true
  {
    hide *;
    if Scope(m, ks, cutvar, v) || (cutvar.Some? && Bare(m, ks, cutvar.value, v)) {
      ConditionActs(p, pc, v, d, qc, a, cutvar, s, m, ks);
    }
    IfThenElseStart(t, s, p.solve);
    var sols := Eval(a, s, p.solve, Compiled).sols;
    var r, g, x := if sols == [] then pc + 3 + d else qc + 2, if sols == [] then c else b, if sols == [] then s else sols[0];
    if Scope(m, ks, cutvar, v) {
      DoesAt(p, r, q, g, cutvar, v, x, m, ks);
    }
    if cutvar.Some? && Bare(m, ks, cutvar.value, v) {
      FindsAt(p, r, q, g, cutvar.value, v, x, m, ks);
    }
    IsFor(p, pc, q, t, cutvar, v, s, m, ks);
  }

  lemma {:induction false} IfThenStart(t: Term, s: Store, solve: Solver)
    requires Proper(t) && IsTerm(t, Arrow, 2)
    ensures var c := First(Find(t.args[0], s, solve));
            && Find(t, s, solve) == (if c.None? then Found([], None) else Find(t.args[1], c.value, solve))
            && Eval(t, s, solve, Compiled) == (if c.None? then Answers([], false) else Eval(t.args[1], c.value, solve, Compiled))
  {
    hide Each, EachGroup, OneByOne, First;
  }

  /** C_MARK goes on behind the condition with the solution that it chooses. */
  lemma {:induction false} MarkedActs(p: Program, pc: nat, v: nat, qc: nat, c: Term, cutvar: Option<nat>, s: Store, m: Marks, ks: Failures)
    requires Proper(c) && IsCode(p, pc, {C_MARK}) && Operand(p.code, pc) == Some(v)
    requires IsCode(p, qc, {C_CUT}) && Operand(p.code, qc) == Some(v) && Means(p, pc + 2, qc, c, Some(v), v + 1) == true
    requires Scope(m, ks, cutvar, v) == true || (cutvar.Some? && Bare(m, ks, cutvar.value, v) == true)
    ensures var x := First(Find(c, s, p.solve));
            Act(p, pc, EMPTY, s, m, ks) == if x.None? then Top(ks) else Act(p, qc + 2, EMPTY, x.value, m, ks)
  {
    hide *;
    var o := m[v := |ks| - 1];
    Enter(m, ks, cutvar, v, Wrong);
    MarkActs(p, pc, EMPTY, s, m, ks);
    FindsAt(p, pc + 2, qc, c, v, v + 1, s, o, ks);
    CommitTry(p, qc, v, Find(c, s, p.solve), m, ks);
  }

  lemma {:induction false} IfThenFor(p: Program, pc: nat, v: nat, qc: nat, q: nat, t: Term, a: Term, b: Term, cutvar: Option<nat>, s: Store, m: Marks, ks: Failures)
    requires Proper(t) && IsTerm(t, Arrow, 2) && a == t.args[0] && b == t.args[1] && Proper(a) && Proper(b)
    requires IsCode(p, pc, {C_MARK}) && Operand(p.code, pc) == Some(v) && IsCode(p, qc, {C_CUT}) && Operand(p.code, qc) == Some(v)
    requires Means(p, pc + 2, qc, a, Some(v), v + 1) == true && Means(p, qc + 2, q, b, cutvar, v) == true
    ensures MeansFor(p, pc, q, t, cutvar, v, s, m, ks) == true
  {
    hide *;
    var x := First(Find(a, s, p.solve));
    if Scope(m, ks, cutvar, v) || (cutvar.Some? && Bare(m, ks, cutvar.value, v)) {
      MarkedActs(p, pc, v, qc, a, cutvar, s, m, ks);
    }
    IfThenStart(t, s, p.solve);
    LeftNone(cutvar, m, ks);
    FollowStart(p, q, [], m, ks);
    TryStart(p, q, Found([], None), m, ks);
    if x.Some? {
      if Scope(m, ks, cutvar, v) {
        DoesAt(p, qc + 2, q, b, cutvar, v, x.value, m, ks);
      }
      if cutvar.Some? && Bare(m, ks, cutvar.value, v) {
        FindsAt(p, qc + 2, q, b, cutvar.value, v, x.value, m, ks);
      }
    }
    IsFor(p, pc, q, t, cutvar, v, s, m, ks);
  }

  lemma {:induction false} NotStart(t: Term, s: Store, solve: Solver)
    requires Proper(t) && IsTerm(t, NotProvable, 1)
    ensures var c := Eval(t.args[0], s, solve, Compiled);
            && Find(t, s, solve) == Found([], if c.sols == [] then Some(s) else None)
            && Eval(t, s, solve, Compiled) == Answers(if c.sols == [] then [s] else [], false)
  {
    hide Each, EachGroup, OneByOne, First;
  }

  lemma {:induction false} NotFor(p: Program, pc: nat, v: nat, d: nat, qc: nat, t: Term, a: Term, cutvar: Option<nat>, s: Store, m: Marks, ks: Failures)
    requires Proper(t) && IsTerm(t, NotProvable, 1) && a == t.args[0] && Proper(a)
    requires IsCode(p, pc, {C_IFTHENELSE, C_NOT}) && Operand(p.code, pc) == Some(v) && Number(p.code, pc + 2) == Some(d)
    requires IsCode(p, qc, {C_CUT}) && Operand(p.code, qc) == Some(v)
    requires IsCode(p, qc + 2, {C_FAIL, I_FAIL, I_EXIT}) && p.code[qc + 2].op == C_FAIL
    requires Means(p, pc + 3, qc, a, Some(v), v + 1) == true
    ensures MeansFor(p, pc, pc + 3 + d, t, cutvar, v, s, m, ks) == true
  {
    hide *;
    var q := pc + 3 + d;
    if Scope(m, ks, cutvar, v) || (cutvar.Some? && Bare(m, ks, cutvar.value, v)) {
      var sols := Eval(a, s, p.solve, Compiled).sols;
      ConditionActs(p, pc, v, d, qc, a, cutvar, s, m, ks);
      NotStart(t, s, p.solve);
      LeftNone(cutvar, m, ks);
      FollowStart(p, q, [], m, ks);
      FollowStart(p, q, [s], m, ks);
      TryStart(p, q, Find(t, s, p.solve), m, ks);
      if sols != [] {
        EndActs(p, qc + 2, EMPTY, sols[0], m, ks);
      }
    }
    IsFor(p, pc, q, t, cutvar, v, s, m, ks);
  }

  // ---------- subgoals

  /** The code from pc to q calls t. */
  ghost predicate Calls(p: Program, pc: nat, q: nat, t: Term) {
    forall s: Store, m: Marks, ks: Failures :: Act(p, pc, EMPTY, s, m, ks) == Follow(p, q, p.solve(t, s), m, ks)
  }

  /** A call that is reached with its goal built. */
  lemma {:induction false} CallAt(p: Program, pc: nat, r: nat, q: nat, b: Building, t: Term)
    requires forall s: Store, m: Marks, ks: Failures :: Act(p, pc, EMPTY, s, m, ks) == Act(p, r, b, s, m, ks)
    requires r < q <= |p.code| && p.code[r].Op? && IsGoalOp(p.code[r].op) && p.code[r].op !in {I_CUT, I_TRUE, I_FAIL, C_LCUT}
    requires SubGoal(p.code, r, b, 0) == Some(Read(q, Extend(EMPTY, [t]), 1))
    requires p.code[r].op == I_DEPART ==> Exits(p, q) == true
    ensures Calls(p, pc, q, t) == true
  {
    hide Act, Follow, SubGoal, IsGoalOp, Exits;
    forall s: Store, m: Marks, ks: Failures
      ensures Act(p, pc, EMPTY, s, m, ks) == Follow(p, q, p.solve(t, s), m, ks)
    {
      if p.code[r].op == I_DEPART {
        FollowExits(p, q, p.solve(t, s), m, ks);
      }
      CallActs(p, r, q, b, t, s, m, ks);
    }
  }

  lemma {:induction false} MetaCallCalls(t: Term, ci: Info, used: set<nat>, p: Program, pc: nat)
    requires Proper(t) && !IsControl(t) && !t.Atom?
    requires At(p.code, pc, CompileArgument(t, PLAIN, ci.arity, used).code + [Op(I_USERCALL0)])
    ensures Calls(p, pc, pc + |CompileArgument(t, PLAIN, ci.arity, used).code + [Op(I_USERCALL0)]|, t) == true
  {
    hide Act, Run, CompileArgument, At, Calls;
    var a := CompileArgument(t, PLAIN, ci.arity, used).code;
    InBounds(p.code, pc, a + [Op(I_USERCALL0)]);
    AtSplit(p.code, pc, a, [Op(I_USERCALL0)]);
    ReadArgument(t, PLAIN, ci.arity, used, p.code, pc, EMPTY);
    BodyNotVoid(t, ci.arity, used);
    PutExtend(EMPTY, t);
    AtWord(p.code, pc + |a|, [Op(I_USERCALL0)], 0);
    forall s: Store, m: Marks, ks: Failures
      ensures Act(p, pc, EMPTY, s, m, ks) == Act(p, pc + |a|, Extend(EMPTY, [t]), s, m, ks)
    {
      RunActs(p, pc, pc + |a|, EMPTY, s, m, ks);
    }
    CallAt(p, pc, pc + |a|, pc + |a| + 1, Extend(EMPTY, [t]), t);
  }

  lemma {:induction false} PlainGoalCalls(t: Term, last: bool, ci: Info, used: set<nat>, p: Program, pc: nat)
    requires Proper(t) && t.Struct? && !IsControl(t)
    requires At(p.code, pc, CompileArguments(t, |t.args|, PLAIN, ci.arity, used).code + CallCode(t.functor, last))
    requires last ==> Exits(p, pc + |CompileArguments(t, |t.args|, PLAIN, ci.arity, used).code + CallCode(t.functor, last)|) == true
    ensures Calls(p, pc, pc + |CompileArguments(t, |t.args|, PLAIN, ci.arity, used).code + CallCode(t.functor, last)|, t) == true
  {
    hide Act, Run, CompileArguments, CallCode, At, SubGoal, Calls, Exits;
    var a, c := CompileArguments(t, |t.args|, PLAIN, ci.arity, used).code, CallCode(t.functor, last);
    InBounds(p.code, pc, a + c);
    AtSplit(p.code, pc, a, c);
    ReadGoalArguments(t, |t.args|, ci.arity, used, p.code, pc, EMPTY);
    assert t.args[..|t.args|] == t.args;
    forall s: Store, m: Marks, ks: Failures
      ensures Act(p, pc, EMPTY, s, m, ks) == Act(p, pc + |a|, Extend(EMPTY, t.args), s, m, ks)
    {
      RunActs(p, pc, pc + |a|, EMPTY, s, m, ks);
    }
    ReadCall(t, last, p.code, pc + |a|, EMPTY, 0);
    CallStart(t.functor, last, p.code, pc + |a|);
    CallAt(p, pc, pc + |a|, pc + |a| + |c|, Extend(EMPTY, t.args), t);
  }

  lemma CallStart(f: Functor, last: bool, code: Codes, pc: nat)
    requires At(code, pc, CallCode(f, last))
    ensures pc < |code| && code[pc].Op? && code[pc].op !in {I_CUT, I_TRUE, I_FAIL, C_LCUT} && (code[pc].op == I_DEPART ==> last)
  {
    AtWord(code, pc, CallCode(f, last), 0);
  }

  lemma {:induction false} InlineCalls(t: Term, ci: Info, used: set<nat>, p: Program, pc: nat)
    requires Proper(t) && IsInline(t, ci) && !IsControl(t)
    requires At(p.code, pc, FirstVars(t.args, used) + InlineCode(t, ci))
    ensures Calls(p, pc, pc + |FirstVars(t.args, used) + InlineCode(t, ci)|, t) == true
  {
    hide Act, FirstVars, At, SubGoal, Calls, VarOperands, IsVars;
    var f, g := FirstVars(t.args, used), InlineCode(t, ci);
    InBounds(p.code, pc, f + g);
    AtSplit(p.code, pc, f, g);
    FirstVarsAreVars(t.args, used);
    VarsJoins(p, pc, f);
    ReadInlineCall(t, ci, p.code, pc + |f|, EMPTY, 0);
    AtWord(p.code, pc + |f|, g, 0);
    assert Extend(EMPTY, []) == EMPTY;
    CallAt(p, pc, pc + |f|, pc + |f| + |g|, EMPTY, t);
  }

  lemma {:induction false} TryOneByOne(p: Program, q: nat, sols: seq<Store>, m: Marks, ks: Failures)
    ensures Try(p, q, OneByOne(sols), m, ks) == Follow(p, q, sols, m, ks)
    decreases |sols|
  {
    OneByOneStart(sols);
    hide *;
    var f := OneByOne(sols);
    TryStart(p, q, f, m, ks);
    FollowStart(p, q, sols, m, ks);
    if |sols| > 1 {
      var g := OneByOne(sols[1..]);
      assert f.groups[1..] == g.groups && f.(groups := f.groups[1..]) == g;
      TryOneByOne(p, q, sols[1..], m, ks);
      FollowStart(p, q, [sols[0]], m, ks + [Try(p, q, g, m, ks)]);
    }
  }

  lemma {:induction false} OneByOneStart(sols: seq<Store>)
    ensures sols == [] ==> OneByOne(sols) == Found([], None)
    ensures |sols| == 1 ==> OneByOne(sols) == Found([], Some(sols[0]))
    ensures |sols| > 1 ==> OneByOne(sols) == Found([[sols[0]]] + OneByOne(sols[1..]).groups, OneByOne(sols[1..]).last)
  {
  }

  lemma {:induction false} GoalStart(t: Term, s: Store, solve: Solver)
    requires Proper(t) && !IsControl(t) && t !in {CUT, Atom(True), Atom(Fail)}
    ensures Eval(t, s, solve, Compiled) == Answers(solve(t, s), false) && Find(t, s, solve) == OneByOne(solve(t, s))
  {
    hide Each, EachGroup, OneByOne, First;
  }

  lemma {:induction false} CallMeans(p: Program, pc: nat, q: nat, t: Term, cutvar: Option<nat>, n: nat)
    requires Proper(t) && !IsControl(t) && t !in {CUT, Atom(True), Atom(Fail)} && Calls(p, pc, q, t) == true
    ensures Means(p, pc, q, t, cutvar, n) == true
  {
    hide Act, Follow, Left, Scope, Bare, Try, Find, Eval, OneByOne, MeansFor, IsControl;
    forall s: Store, m: Marks, ks: Failures
      ensures MeansFor(p, pc, q, t, cutvar, n, s, m, ks)
    {
      GoalStart(t, s, p.solve);
      LeftNone(cutvar, m, ks);
      TryOneByOne(p, q, p.solve(t, s), m, ks);
      IsFor(p, pc, q, t, cutvar, n, s, m, ks);
    }
  }

  lemma {:induction false} ConstantStart(t: Term, s: Store, solve: Solver)
    requires Proper(t) && t in {CUT, Atom(True), Atom(Fail)}
    ensures Eval(t, s, solve, Compiled) == Answers(if t == Atom(Fail) then [] else [s], t == CUT)
    ensures Find(t, s, solve) == Found([], if t == Atom(Fail) then None else Some(s))
  {
    hide Each, EachGroup, OneByOne, First;
  }

  /** true and fail */
  lemma {:induction false} ConstantFor(t: Term, p: Program, pc: nat, cutvar: Option<nat>, n: nat, s: Store, m: Marks, ks: Failures)
    requires t in {Atom(True), Atom(Fail)} && IsCode(p, pc, {if t == Atom(True) then I_TRUE else I_FAIL})
    ensures MeansFor(p, pc, pc + 1, t, cutvar, n, s, m, ks) == true
  {
    hide Act, Follow, Left, Scope, Bare, Try, Find, Eval, Top, MeansFor;
    ConstantStart(t, s, p.solve);
    LeftNone(cutvar, m, ks);
    FollowStart(p, pc + 1, if t == Atom(Fail) then [] else [s], m, ks);
    TryStart(p, pc + 1, Find(t, s, p.solve), m, ks);
    if t == Atom(True) {
      SkipActs(p, pc, EMPTY, s, m, ks);
    } else {
      EndActs(p, pc, EMPTY, s, m, ks);
    }
    IsFor(p, pc, pc + 1, t, cutvar, n, s, m, ks);
  }

  lemma ScopeCut(m: Marks, ks: Failures, v: nat, n: nat)
    requires Scope(m, ks, Some(v), n) || Bare(m, ks, v, n)
    ensures Innermost(m, v) && m[v] < |ks| && Left(true, Some(v), m, ks) == KeepOldest(ks, m[v])
    ensures Bare(m, ks, v, n) ==> KeepOldest(ks, m[v]) == ks
  {
  }

  lemma {:induction false} CutFor(p: Program, pc: nat, q: nat, cutvar: Option<nat>, n: nat, s: Store, m: Marks, ks: Failures)
    requires cutvar.None? ==> IsCode(p, pc, {I_CUT}) && q == pc + 1
    requires cutvar.Some? ==> IsCode(p, pc, {C_LCUT}) && Operand(p.code, pc) == cutvar && q == pc + 2
    ensures MeansFor(p, pc, q, CUT, cutvar, n, s, m, ks) == true
  {
    var x := Find(CUT, s, p.solve);
    ConstantStart(CUT, s, p.solve);
    assert cutvar.None? ==> Left(true, cutvar, m, ks) == NOCHOICE;
    assert cutvar.None? && Scope(m, ks, cutvar, n) ==> m == map[];
    hide *;
    FollowStart(p, q, [s], m, Left(true, cutvar, m, ks));
    TryStart(p, q, x, m, ks);
    if cutvar.None? {
      ClauseCutActs(p, pc, EMPTY, s, m, ks);
    } else if Scope(m, ks, cutvar, n) || Bare(m, ks, cutvar.value, n) {
      ScopeCut(m, ks, cutvar.value, n);
      LocalCutActs(p, pc, EMPTY, s, m, ks);
    }
    IsFor(p, pc, q, CUT, cutvar, n, s, m, ks);
  }

  lemma {:induction false} CutMeans(p: Program, pc: nat, q: nat, cutvar: Option<nat>, n: nat)
    requires At(p.code, pc, if cutvar.Some? then [Op(C_LCUT), Num(cutvar.value)] else [Op(I_CUT)])
    requires q == pc + if cutvar.Some? then 2 else 1
    ensures Means(p, pc, q, CUT, cutvar, n) == true
  {
    hide Act, MeansFor;
    var x := if cutvar.Some? then [Op(C_LCUT), Num(cutvar.value)] else [Op(I_CUT)];
    AtWord(p.code, pc, x, 0);
    AtWord(p.code, pc, x, |x| - 1);
    forall s: Store, m: Marks, ks: Failures
      ensures MeansFor(p, pc, q, CUT, cutvar, n, s, m, ks)
    {
      CutFor(p, pc, q, cutvar, n, s, m, ks);
    }
  }

  lemma {:induction false} ConstantMeans(t: Term, p: Program, pc: nat, cutvar: Option<nat>, n: nat)
    requires t in {Atom(True), Atom(Fail)} && At(p.code, pc, [Op(if t == Atom(True) then I_TRUE else I_FAIL)])
    ensures Means(p, pc, pc + 1, t, cutvar, n) == true
  {
    hide Act, MeansFor;
    AtWord(p.code, pc, [Op(if t == Atom(True) then I_TRUE else I_FAIL)], 0);
    var q := pc + 1;
    forall s: Store, m: Marks, ks: Failures
      ensures MeansFor(p, pc, q, t, cutvar, n, s, m, ks)
    {
      ConstantFor(t, p, pc, cutvar, n, s, m, ks);
    }
  }

  lemma {:induction false} AtomMeans(name: Name, last: bool, ci: Info, cutvar: Option<nat>, p: Program, pc: nat, n: nat)
    requires At(p.code, pc, AtomCode(name, last, ci, cutvar)) == true
    requires last ==> Exits(p, pc + |AtomCode(name, last, ci, cutvar)|) == true
    ensures Means(p, pc, pc + |AtomCode(name, last, ci, cutvar)|, Atom(name), cutvar, n) == true
  {
    hide Act, At, Means, SubGoal, Exits, Calls;
    var x := AtomCode(name, last, ci, cutvar);
    if name == Cut {
      CutMeans(p, pc, pc + |x|, cutvar, n);
    } else if name in {True, Fail} {
      ConstantMeans(Atom(name), p, pc, cutvar, n);
    } else {
      AtomCalls(name, last, ci, cutvar, p, pc);
      CallMeans(p, pc, pc + |x|, Atom(name), cutvar, n);
    }
  }

  lemma {:induction false} AtomCalls(name: Name, last: bool, ci: Info, cutvar: Option<nat>, p: Program, pc: nat)
    requires At(p.code, pc, AtomCode(name, last, ci, cutvar)) == true && name !in {Cut, True, Fail}
    requires last ==> Exits(p, pc + |AtomCode(name, last, ci, cutvar)|) == true
    ensures Calls(p, pc, pc + |AtomCode(name, last, ci, cutvar)|, Atom(name)) == true
  {
    hide Act, At, SubGoal, Exits, Calls;
    var x := AtomCode(name, last, ci, cutvar);
    ReadAtomGoal(Atom(name), last, ci, cutvar, p.code, pc, EMPTY, 0);
    AtWord(p.code, pc, x, 0);
    CallAt(p, pc, pc, pc + |x|, EMPTY, Atom(name));
  }

  lemma {:induction false} SubClauseMeans(j: Job, x: Codes, p: Program, pc: nat, n: nat)
    requires Proper(j.t) && !IsControl(j.t) && At(p.code, pc, x)
    requires CompileSubClause(j.t, j.last, j.ci, j.cutvar, j.used).Some? && CompileSubClause(j.t, j.last, j.ci, j.cutvar, j.used).value.code == x
    requires j.last ==> Exits(p, pc + |x|) == true
    ensures Means(p, pc, pc + |x|, j.t, j.cutvar, n) == true
  {
    hide At, CompileArgument, CompileArguments, CallCode, FirstVars, VarOperands, InlineCode, Means, Exits, Calls;
    var t := j.t;
    if t.Atom? {
      AtomMeans(t.name, j.last, j.ci, j.cutvar, p, pc, n);
    } else {
      if !t.Struct? || t.functor == Functor(Module, 2) {
        MetaCallCalls(t, j.ci, j.used, p, pc);
      } else if IsInline(t, j.ci) {
        InlineWhole(t, j.ci, j.used);
        InlineCalls(t, j.ci, j.used, p, pc);
      } else {
        PlainGoalCalls(t, j.last, j.ci, j.used, p, pc);
      }
      CallMeans(p, pc, pc + |x|, t, j.cutvar, n);
    }
  }

  // ---------- bodies

  lemma {:induction false} BodyMeans(j: Job, x: Codes, p: Program, pc: nat)
    requires Proper(j.t) && Gives(j, x) == true && Supported(j.t) == true && At(p.code, pc, x) == true
    requires j.last ==> Exits(p, pc + |x|) == true
    ensures Means(p, pc, pc + |x|, j.t, j.cutvar, j.next) == true
    decreases j.t, 1
  {
    hide Gives, At, Exits, Means, Supported, CompileSubClause, Shown;
    InBounds(p.code, pc, x);
    if IsTerm(j.t, Comma, 2) {
      CommaBody(j, x, p, pc);
    } else if IsOr(j.t) {
      if IsCondition(j.t.args[0]) {
        IfThenElseBody(j, x, p, pc);
      } else {
        OrBody(j, x, p, pc);
      }
    } else if IsTerm(j.t, Arrow, 2) {
      IfThenBody(j, x, p, pc);
    } else if IsTerm(j.t, NotProvable, 1) {
      NotBody(j, x, p, pc);
    } else {
      SubClauseCode(j, x);
      SubClauseMeans(j, x, p, pc, j.next);
    }
  }

  lemma {:induction false} SupportedParts(t: Term)
    requires Proper(t) && Supported(t) == true
    ensures IsTerm(t, Comma, 2) || IsTerm(t, Arrow, 2) || (IsOr(t) && !IsCondition(t.args[0])) ==>
              Supported(t.args[0]) == true && Supported(t.args[1]) == true
    ensures IsOr(t) && IsCondition(t.args[0]) ==>
              Proper(t.args[0]) && IsTerm(t.args[0], Arrow, 2) && Supported(t.args[0].args[0]) && Supported(t.args[0].args[1]) && Supported(t.args[1])
    ensures IsTerm(t, NotProvable, 1) ==> Supported(t.args[0])
  {
  }

  /** A part of j that is followed by C_VARs, by a jump or by nothing, and then by q. */
  lemma {:induction false} PartMeans(a: Job, y: Codes, j: Job, p: Program, pc: nat, q: nat)
    requires Proper(a.t) && Gives(a, y) == true && Supported(a.t) == true && At(p.code, pc, y) == true
    requires Scoped(a, j) && Joins(p, pc + |y|, q) == true && (a.last ==> Exits(p, q) == true)
    ensures Means(p, pc, q, a.t, j.cutvar, j.next) == true
    decreases a.t, 2
  {
    hide Gives, At, Exits, Means, Supported, Joins, Act;
    if a.last {
      JoinsExits(p, pc + |y|, q);
    }
    BodyMeans(a, y, p, pc);
    MeansTo(p, pc, pc + |y|, q, a.t, j.cutvar, j.next, a.next);
  }

  lemma {:induction false} CommaBody(j: Job, x: Codes, p: Program, pc: nat)
    requires Proper(j.t) && Gives(j, x) == true && Supported(j.t) == true && At(p.code, pc, x) == true
    requires IsTerm(j.t, Comma, 2) && (j.last ==> Exits(p, pc + |x|) == true)
    ensures Means(p, pc, pc + |x|, j.t, j.cutvar, j.next) == true
    decreases j.t, 0
  {
    hide Gives, At, Exits, MeansFor, Supported, Joins, Act;
    SupportedParts(j.t);
    var a, b, y, z := CommaParts(j, x);
    AtSplit(p.code, pc, y, z);
    JoinsItself(p, pc + |y|);
    JoinsItself(p, pc + |x|);
    PartMeans(a, y, j, p, pc, pc + |y|);
    PartMeans(b, z, j, p, pc + |y|, pc + |x|);
    var q := pc + |x|;
    forall s: Store, m: Marks, ks: Failures
      ensures MeansFor(p, pc, q, j.t, j.cutvar, j.next, s, m, ks)
    {
      CommaFor(p, pc, pc + |y|, pc + |x|, j.t, a.t, b.t, j.cutvar, j.next, s, m, ks);
    }
  }

  lemma {:induction false} OrBody(j: Job, x: Codes, p: Program, pc: nat)
    requires Proper(j.t) && Gives(j, x) == true && Supported(j.t) == true && At(p.code, pc, x) == true
    requires IsOr(j.t) && !IsCondition(j.t.args[0]) && (j.last ==> Exits(p, pc + |x|) == true)
    ensures Means(p, pc, pc + |x|, j.t, j.cutvar, j.next) == true
    decreases j.t, 0
  {
    hide Gives, At, Exits, MeansFor, Supported, Joins, IsVars, Act;
    SupportedParts(j.t);
    var a, b, y, z, v, w := OrParts(j, x);
    EitherAt(y, v, z, w, p.code, pc);
    var q, l, r := pc + |x|, pc + 2, pc + 4 + |y + v|;
    AtSplit(p.code, l, y, v + [Op(C_JMP), Num(|z + w|)]);
    AtSplit(p.code, r, z, w);
    JumpJoins(p, l + |y|, v, |z + w|);
    VarsJoins(p, r + |z|, w);
    PartMeans(a, y, j, p, l, q);
    PartMeans(b, z, j, p, r, q);
    forall s: Store, m: Marks, ks: Failures
      ensures MeansFor(p, pc, q, j.t, j.cutvar, j.next, s, m, ks)
    {
      OrFor(p, pc, |y + v| + 2, q, j.t, a.t, b.t, j.cutvar, j.next, s, m, ks);
    }
  }

  lemma {:induction false} IfThenElseBody(j: Job, x: Codes, p: Program, pc: nat)
    requires Proper(j.t) && Gives(j, x) == true && Supported(j.t) == true && At(p.code, pc, x) == true
    requires IsOr(j.t) && IsCondition(j.t.args[0]) && (j.last ==> Exits(p, pc + |x|) == true)
    ensures Means(p, pc, pc + |x|, j.t, j.cutvar, j.next) == true
    decreases j.t, 0
  {
    hide Gives, At, Exits, MeansFor, Means, Supported, Joins, IsVars, Act, IfThenElse, IsCode, Operand, Number;
    SupportedParts(j.t);
    var a, b, c, y, z, u, v, w := IfThenElseParts(j, x);
    ConditionPlaces(j.next, y, z, v, u, w, p, pc);
    var q, qc, r := pc + |x|, pc + 3 + |y|, pc + 7 + |y| + |z + v|;
    JumpJoins(p, qc + 2 + |z|, v, |u + w|);
    VarsJoins(p, r + |u|, w);
    PartMeans(b, z, j, p, qc + 2, q);
    PartMeans(c, u, j, p, r, q);
    BodyMeans(a, y, p, pc + 3);
    IfThenElseMeans(p, pc, j.next, |y| + 2 + |z + v| + 2, qc, q, j.t, a.t, b.t, c.t, j.cutvar);
  }

  /** Where the parts of a condition are. */
  lemma ConditionPlaces(n: nat, y: Codes, z: Codes, v: Codes, u: Codes, w: Codes, p: Program, pc: nat)
    requires At(p.code, pc, IfThenElse(false, n, y, z + v, u + w))
    ensures var x, qc, r := IfThenElse(false, n, y, z + v, u + w), pc + 3 + |y|, pc + 7 + |y| + |z + v|;
            && |x| == 7 + |y| + |z + v| + |u + w| && At(p.code, pc + 3, y) == true
            && IsCode(p, pc, {C_IFTHENELSE, C_NOT}) && Operand(p.code, pc) == Some(n) && Number(p.code, pc + 2) == Some(|y| + 2 + |z + v| + 2)
            && IsCode(p, qc, {C_CUT}) && Operand(p.code, qc) == Some(n) && At(p.code, qc + 2, z) == true
            && At(p.code, qc + 2 + |z|, v + [Op(C_JMP), Num(|u + w|)]) == true && At(p.code, r, u) == true && At(p.code, r + |u|, w) == true
  {
    hide At;
    ConditionAt(false, n, y, z, v, u, w, p.code, pc);
    AtSplit(p.code, pc + 5 + |y|, z, v + [Op(C_JMP), Num(|u + w|)]);
    AtSplit(p.code, pc + 7 + |y| + |z + v|, u, w);
  }

  lemma {:induction false} IfThenElseMeans(p: Program, pc: nat, v: nat, d: nat, qc: nat, q: nat, t: Term, a: Term, b: Term, c: Term, cutvar: Option<nat>)
    requires Proper(t) && IsOr(t) && IsCondition(t.args[0]) && Proper(t.args[0]) && Proper(a) && Proper(b) && Proper(c)
    requires a == t.args[0].args[0] && b == t.args[0].args[1] && c == t.args[1]
    requires IsCode(p, pc, {C_IFTHENELSE, C_NOT}) && Operand(p.code, pc) == Some(v) && Number(p.code, pc + 2) == Some(d)
    requires IsCode(p, qc, {C_CUT}) && Operand(p.code, qc) == Some(v)
    requires Means(p, pc + 3, qc, a, Some(v), v + 1) == true && Means(p, qc + 2, q, b, cutvar, v) == true
    requires Means(p, pc + 3 + d, q, c, cutvar, v) == true
    ensures Means(p, pc, q, t, cutvar, v) == true
  {
    hide MeansFor;
    forall s: Store, m: Marks, ks: Failures
      ensures MeansFor(p, pc, q, t, cutvar, v, s, m, ks)
    {
      IfThenElseFor(p, pc, v, d, qc, q, t, a, b, c, cutvar, s, m, ks);
    }
  }

  lemma {:induction false} IfThenBody(j: Job, x: Codes, p: Program, pc: nat)
    requires Proper(j.t) && Gives(j, x) == true && Supported(j.t) == true && At(p.code, pc, x) == true
    requires IsTerm(j.t, Arrow, 2) && (j.last ==> Exits(p, pc + |x|) == true)
    ensures Means(p, pc, pc + |x|, j.t, j.cutvar, j.next) == true
    decreases j.t, 0
  {
    hide Gives, At, Exits, MeansFor, Supported, Joins, Act;
    SupportedParts(j.t);
    var a, b, y, z := IfThenParts(j, x);
    IfThenAt(j.next, y, z, p.code, pc);
    var q, qc := pc + |x|, pc + 2 + |y|;
    EndJoins(p, q - 1);
    PartMeans(b, z, j, p, qc + 2, q);
    BodyMeans(a, y, p, pc + 2);
    forall s: Store, m: Marks, ks: Failures
      ensures MeansFor(p, pc, q, j.t, j.cutvar, j.next, s, m, ks)
    {
      IfThenFor(p, pc, j.next, qc, q, j.t, a.t, b.t, j.cutvar, s, m, ks);
    }
  }

  lemma {:induction false} NotBody(j: Job, x: Codes, p: Program, pc: nat)
    requires Proper(j.t) && Gives(j, x) == true && Supported(j.t) == true && At(p.code, pc, x) == true
    requires IsTerm(j.t, NotProvable, 1)
    ensures Means(p, pc, pc + |x|, j.t, j.cutvar, j.next) == true
    decreases j.t, 0
  {
    hide Gives, At, Exits, MeansFor, Supported, Act;
    SupportedParts(j.t);
    var a, y := NotParts(j, x);
    NotAt(j.next, y, p.code, pc);
    BodyMeans(a, y, p, pc + 3);
    var q := pc + |x|;
    forall s: Store, m: Marks, ks: Failures
      ensures MeansFor(p, pc, q, j.t, j.cutvar, j.next, s, m, ks)
    {
      NotFor(p, pc, j.next, |y| + 3, pc + 3 + |y|, j.t, a.t, j.cutvar, s, m, ks);
    }
  }

  /** The code of a body, up to its I_EXIT, has the solutions of the body in their order, and
      cuts the clause's alternatives if the body does. */
  lemma {:induction false} CompiledBodyMeans(t: Term, ci: Info, used: set<nat>, next: nat, p: Program, pc: nat, s: Store, ks: Failures)
    requires Proper(t) && Supported(t) && CompileBody(t, true, ci, None, used, next).Some?
    requires At(p.code, pc, CompileBody(t, true, ci, None, used, next).value.code + [Op(I_EXIT)])
    ensures var r := Eval(t, s, p.solve, Compiled);
            Act(p, pc, EMPTY, s, map[], ks) == Emit(r.sols, if r.cut then Answers([], true) else Top(ks))
  {
    hide At, Eval, Act, Follow, Supported, CompileBody, Emit, Means;
    var j := Job(t, true, ci, None, used, next);
    var x := CompileBody(t, true, ci, None, used, next).value.code;
    AtSplit(p.code, pc, x, [Op(I_EXIT)]);
    AtWord(p.code, pc + |x|, [Op(I_EXIT)], 0);
    ExitExits(p, pc + |x|);
    BodyMeans(j, x, p, pc);
    var r := Eval(t, s, p.solve, Compiled);
    DoesAt(p, pc, pc + |x|, t, None, next, s, map[], ks);
    FollowExits(p, pc + |x|, r.sols, map[], Left(r.cut, None, map[], ks));
  }
}
