/** The code of clause heads and whole clauses, and how they are decompiled (pl-comp.c,
    compileClause(), decompile_head() and decompile()). */
module HeadRoundTrip {
  import opened Clauses
  import opened Decompiler
  import opened ArgumentRoundTrip
  import opened Bodies
  import opened BodyDecompiler
  import opened BodyRoundTrip

  const HEAD := Where(false, false, false)

  /** A head is an atom or a compound term. */
  predicate IsHead(h: Term) {
    Proper(h) && (h.Atom? || h.Struct?)
  }

  function HeadFunctor(h: Term): Functor
    requires h.Atom? || h.Struct?
  {
    if h.Atom? then Functor(h.name, 0) else h.functor
  }

  function HeadArgs(h: Term): (s: seq<Term>)
    requires IsHead(h)
    ensures |s| == HeadFunctor(h).arity
  {
    if h.Atom? then [] else h.args
  }

  /** What analyse_variables() sees to: a variable is numbered by a plain argument of the head
      only if that argument is where it occurs first. */
  predicate HeadNumbered(h: Term)
    requires IsHead(h)
  {
    var args := HeadArgs(h);
    forall n :: 0 <= n < |args| && args[n].Var? && args[n].index < |args| ==> args[n].index <= n && args[args[n].index] == args[n]
  }

  // ---------- compilation

  datatype HeadCode = HeadCode(code: Codes, used: set<nat>)

  /** The head, without the H_VOIDs at its end. */
  function CompileHead(h: Term): HeadCode
    requires IsHead(h)
  {
    if h.Atom? then HeadCode([], {})
    else
      var r := CompileArguments(h, |h.args|, HEAD, |h.args|, {});
      HeadCode(r.code[..r.kept], r.used)
  }

  const TRUE := Atom(True)

  /** pl-comp.c, compileClause(); vars is the number of variables of the clause. */
  function CompileClause(h: Term, body: Term, vars: nat, inline: set<Functor>): Option<Codes>
    requires IsHead(h) && Proper(body)
  {
    var head := CompileHead(h);
    if body == TRUE then Some(head.code + [Op(I_EXITFACT)])
    else
      var b := CompileBody(body, true, Info(HeadFunctor(h).arity, vars, inline), None, head.used, vars);
      if b.None? then None else Some(head.code + [Op(I_ENTER)] + b.value.code + [Op(I_EXIT)])
  }

  /** The number of slots in the frame of a clause that compiles: its variables, and one for each
      mark. */
  function ClauseVariables(h: Term, body: Term, vars: nat, inline: set<Functor>): nat
    requires IsHead(h) && Proper(body)
  {
    if body == TRUE then vars
    else
      var b := CompileBody(body, true, Info(HeadFunctor(h).arity, vars, inline), None, CompileHead(h).used, vars);
      if b.None? then vars else b.value.next
  }

  // ---------- decompilation

  predicate EndsHead(c: Code) {
    c in {Op(I_ENTER), Op(I_EXIT), Op(I_EXITFACT)}
  }

  /** The variables of the argument block, from n on. */
  function Rest(n: nat, arity: nat): (s: seq<Term>)
    ensures |s| == if n <= arity then arity - n else 0
    ensures forall i :: 0 <= i < |s| ==> s[i] == Var(n + i)
    decreases arity - n
  {
    if n >= arity then [] else [Var(n)] + Rest(n + 1, arity)
  }

  function HeadTerm(f: Functor, args: seq<Term>): Term {
    if f.arity == 0 then Atom(f.name) else Struct(f, args)
  }

  datatype Head = Head(pc: nat, term: Term)

  /** pl-comp.c, decompile_head(): f is the functor of the procedure. */
  function DecompileHead(code: Codes, pc: nat, f: Functor, b: Building): (r: Option<Head>)
    ensures r.Some? ==> r.value.pc <= |code|
    decreases |code| - pc
  {
    if pc >= |code| then None
    else if EndsHead(code[pc]) then
      if b.open != [] || |b.done| > f.arity then None
      else Some(Head(pc + 1, HeadTerm(f, b.done + Rest(|b.done|, f.arity))))
    else
      var s := Step(code, pc, b);
      if s.None? then None
      else
        assert s.value.pc > pc by { StepAdvances(code, pc, b); }
        DecompileHead(code, s.value.pc, f, s.value.b)
  }

  datatype Decompiled = Decompiled(head: Term, body: Term)

  /** pl-comp.c, decompile(). */
  function Decompile(code: Codes, f: Functor, unit: bool): Option<Decompiled> {
    var h := DecompileHead(code, 0, f, Building([], []));
    if h.None? then None
    else if unit then Some(Decompiled(h.value.term, TRUE))
    else
      var b := DecompileBody(code, h.value.pc, Some(I_EXIT), None, Building([], []));
      if b.None? || |b.value.b.done| != 1 || b.value.b.open != [] then None
      else Some(Decompiled(h.value.term, b.value.b.done[0]))
  }

  // ---------- the variables used

  lemma {:induction false} ArgumentUses(t: Term, w: Where, arity: nat, used: set<nat>)
    requires Proper(t)
    ensures CompileArgument(t, w, arity, used).used == used + VarsOf(t)
    decreases t, 1, 0
  {
    if t.Struct? {
      hide CompileArgument, CompileArguments, Opening;
      StructCode(t, w, arity, used);
      var n, u := |t.args| - 1, Where(w.body, true, false);
      ArgumentsUse(t, n, u, arity, used);
      var a := CompileArguments(t, n, u, arity, used);
      ArgumentUses(t.args[n], Where(w.body, true, true), arity, a.used);
      VarsOfFirst(t, n);
      VarsOfFirst(t, n + 1);
    }
  }

  /** The variables of the first n arguments. */
  function VarsOfArgs(t: Term, n: nat): set<nat>
    requires t.Struct? && n <= |t.args|
  {
    set i, x | 0 <= i < n && x in VarsOf(t.args[i]) :: x
  }

  lemma {:induction false} VarsOfFirst(t: Term, n: nat)
    requires t.Struct? && n <= |t.args|
    ensures n < |t.args| ==> VarsOfArgs(t, n + 1) == VarsOfArgs(t, n) + VarsOf(t.args[n])
    ensures n == |t.args| ==> VarsOfArgs(t, n) == VarsOf(t)
  {
    if n < |t.args| {
      forall x | x in VarsOf(t.args[n])
        ensures x in VarsOfArgs(t, n + 1)
      {
        assert 0 <= n < n + 1;
      }
    }
  }

  lemma {:induction false} VoidsUseNothing(t: Term, m: nat, n: nat)
    requires t.Struct? && m <= n <= |t.args| && forall i :: m <= i < n ==> t.args[i] == Void
    ensures VarsOfArgs(t, n) == VarsOfArgs(t, m)
    decreases n
  {
    if m < n {
      VoidsUseNothing(t, m, n - 1);
      VarsOfFirst(t, n - 1);
    }
  }

  lemma {:induction false} ArgumentsUse(t: Term, n: nat, w: Where, arity: nat, used: set<nat>)
    requires Proper(t) && t.Struct? && n <= |t.args|
    ensures CompileArguments(t, n, w, arity, used).used == used + VarsOfArgs(t, n)
    decreases t, 0, n
  {
    hide CompileArgument, CompileArguments;
    ArgumentsStep(t, if n == 0 then 0 else n - 1, w, arity, used);
    if n > 0 {
      ArgumentsUse(t, n - 1, w, arity, used);
      ArgumentUses(t.args[n - 1], w, arity, CompileArguments(t, n - 1, w, arity, used).used);
      VarsOfFirst(t, n - 1);
    }
  }

  // ---------- the head comes back

  /** A head argument as it is decompiled: a void is the variable of its place. */
  function HeadArg(t: Term, n: nat): Term {
    if t == Void then Var(n) else t
  }

  function HeadShown(args: seq<Term>): (s: seq<Term>)
    ensures |s| == |args|
  {
    seq(|args|, i requires 0 <= i < |args| => HeadArg(args[i], i))
  }

  lemma EarlierArgument(h: Term, n: nat, k: nat)
    requires h.Struct? && k < n <= |h.args| && h.args[k] == Var(k)
    ensures k in VarsOfArgs(h, n)
  {
    assert k in VarsOf(h.args[k]);
  }

  /** An argument that has no code is a void or the variable of its place. */
  lemma {:induction false} VoidHeadArgument(h: Term, n: nat)
    requires IsHead(h) && h.Struct? && HeadNumbered(h) && n < |h.args|
    requires CompileArgument(h.args[n], HEAD, |h.args|, CompileArguments(h, n, HEAD, |h.args|, {}).used).void
    ensures HeadArg(h.args[n], n) == Var(n)
  {
    hide CompileArguments;
    ArgumentsUse(h, n, HEAD, |h.args|, {});
    if h.args[n].Var? {
      var k := h.args[n].index;
      if k < n {
        EarlierArgument(h, n, k);
      }
    }
  }

  lemma {:induction false} ReadHeadArguments(h: Term, n: nat, code: Codes, pc: nat)
    requires IsHead(h) && h.Struct? && HeadNumbered(h) && n <= |h.args|
    requires At(code, pc, CompileArguments(h, n, HEAD, |h.args|, {}).code)
    ensures Run(code, pc, pc + |CompileArguments(h, n, HEAD, |h.args|, {}).code|, Building([], [])) ==
            Some(Building(HeadShown(h.args)[..n], []))
    decreases n
  {
    hide Run, Step, CompileArgument, CompileArguments, HeadNumbered, At;
    var b := Building([], []);
    ArgumentsStep(h, if n == 0 then 0 else n - 1, HEAD, |h.args|, {});
    InBounds(code, pc, CompileArguments(h, n, HEAD, |h.args|, {}).code);
    if n == 0 {
      RunNothing(code, pc, b);
    } else {
      var a := CompileArguments(h, n - 1, HEAD, |h.args|, {});
      var r := CompileArgument(h.args[n - 1], HEAD, |h.args|, a.used);
      AtSplit(code, pc, a.code, r.code);
      ReadHeadArguments(h, n - 1, code, pc);
      var c := Building(HeadShown(h.args)[..n - 1], []);
      ReadArgument(h.args[n - 1], HEAD, |h.args|, a.used, code, pc + |a.code|, c);
      if r.void {
        VoidHeadArgument(h, n - 1);
      } else {
        NotVoid(h.args[n - 1], |h.args|, a.used);
      }
      assert HeadShown(h.args)[..n - 1] + [HeadShown(h.args)[n - 1]] == HeadShown(h.args)[..n];
      RunSplit(code, pc, pc + |a.code|, pc + |a.code| + |r.code|, b);
    }
  }

  lemma {:induction false} NotVoid(t: Term, arity: nat, used: set<nat>)
    requires Proper(t) && !CompileArgument(t, HEAD, arity, used).void
    ensures t != Void
  {
  }

  lemma {:induction false} HeadRuns(code: Codes, pc: nat, q: nat, f: Functor, b: Building)
    requires pc <= q <= |code| && Run(code, pc, q, b).Some?
    ensures DecompileHead(code, pc, f, b) == DecompileHead(code, q, f, Run(code, pc, q, b).value)
    decreases q - pc
  {
    if pc < q {
      StepAdvances(code, pc, b);
      StepIsArgument(code, pc, b);
      hide Step;
      var s := Step(code, pc, b).value;
      HeadRuns(code, s.pc, q, f, s.b);
    }
  }

  /** Decompiling the code of a head consumes exactly that code, and gives the head back, with
      a variable of its own for every void. */
  lemma {:induction false} DecompiledHead(h: Term, code: Codes, end: Code)
    requires IsHead(h) && HeadNumbered(h) && EndsHead(end) && At(code, 0, CompileHead(h).code + [end])
    ensures DecompileHead(code, 0, HeadFunctor(h), Building([], [])) ==
            Some(Head(|CompileHead(h).code| + 1, HeadTerm(HeadFunctor(h), HeadShown(HeadArgs(h)))))
  {
    hide Run, Step, CompileArgument, CompileArguments, At, HeadNumbered;
    var x := CompileHead(h).code;
    InBounds(code, 0, x + [end]);
    AtSplit(code, 0, x, [end]);
    AtWord(code, |x|, [end], 0);
    var b := Building([], []);
    if h.Atom? {
      assert b.done + Rest(0, 0) == HeadShown(HeadArgs(h));
    } else {
      var m := KeptCode(h, |h.args|, HEAD, |h.args|, {});
      ReadHeadArguments(h, m, code, 0);
      HeadRuns(code, 0, |x|, h.functor, b);
      var s := HeadShown(h.args);
      forall i | m <= i < |h.args|
        ensures s[i] == Var(i)
      {
        VoidHeadArgument(h, i);
      }
      assert s[..m] + Rest(m, |h.args|) == s;
    }
  }

  /** Decompiling a compiled clause gives the clause back: facts, */
  lemma FactRoundTrip(h: Term, vars: nat, inline: set<Functor>)
    requires IsHead(h) && HeadNumbered(h)
    ensures var code := CompileClause(h, TRUE, vars, inline).value;
            Decompile(code, HeadFunctor(h), true) == Some(Decompiled(HeadTerm(HeadFunctor(h), HeadShown(HeadArgs(h))), TRUE))
  {
    hide CompileHead, DecompileHead, HeadNumbered;
    var code := CompileClause(h, TRUE, vars, inline).value;
    assert At(code, 0, CompileHead(h).code + [Op(I_EXITFACT)]);
    DecompiledHead(h, code, Op(I_EXITFACT));
  }

  /** and rules, with the body's conjunctions associated to the right. */
  lemma {:induction false} RuleRoundTrip(h: Term, body: Term, vars: nat, inline: set<Functor>)
    requires IsHead(h) && HeadNumbered(h) && Proper(body) && body != TRUE && CompileClause(h, body, vars, inline).Some?
    ensures var code := CompileClause(h, body, vars, inline).value;
            Decompile(code, HeadFunctor(h), false) ==
            Some(Decompiled(HeadTerm(HeadFunctor(h), HeadShown(HeadArgs(h))), Joined(Goals(body))))
  {
    hide CompileHead, DecompileHead, HeadNumbered, CompileBody, DecompileBody, Goals, Joined;
    var code := CompileClause(h, body, vars, inline).value;
    var head := CompileHead(h);
    var ci := Info(HeadFunctor(h).arity, vars, inline);
    var x := CompileBody(body, true, ci, None, head.used, vars).value.code;
    assert code == (head.code + [Op(I_ENTER)]) + (x + [Op(I_EXIT)]);
    assert At(code, 0, code);
    AtSplit(code, 0, head.code + [Op(I_ENTER)], x + [Op(I_EXIT)]);
    DecompiledHead(h, code, Op(I_ENTER));
    DecompiledBody(body, ci, head.used, vars, code, |head.code| + 1);
  }
}
