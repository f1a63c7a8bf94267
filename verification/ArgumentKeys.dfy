/** The index key of an argument, from the term and from the code of the clause (pl-index.c,
    indexOfWord(); pl-comp.c, arg1Key()). */
module ArgumentKeys {
  import opened Clauses
  import opened Decompiler
  import opened ArgumentRoundTrip
  import opened HeadRoundTrip
  import opened Variables
  import opened IndexKeys

  /** The words that stand for atoms, small integers and functors, and the values of large
      integers; no word of an atom, a small integer or a functor is 0. */
  datatype Words = Words(atom: Name -> Word, small: int -> Word, functor: Functor -> Word, big: int -> Word)

  ghost predicate NonZero(e: Words) {
    && (forall n :: e.atom(n) != 0)
    && (forall n :: e.small(n) != 0)
    && (forall f :: e.functor(f) != 0)
  }

  /** pl-index.c, indexOfWord() */
  function KeyOf(t: Term, e: Words): Word {
    match t
    case Var(_) | Void | Text(_) | Float(_, _) => 0
    case Big(n) => e.big(n)
    case Small(n) => e.small(n)
    case Atom(name) => e.atom(name)
    case Struct(f, _) => e.functor(f)
  }

  function KeysOf(args: seq<Term>, e: Words): (k: seq<Word>)
    ensures |k| == |args|
  {
    seq(|args|, i requires 0 <= i < |args| => KeyOf(args[i], e))
  }

  /** Among these atoms, integers and functors no two have the same word. */
  ghost predicate Separates(e: Words, atoms: set<Name>, ints: set<int>, functors: set<Functor>) {
    && (forall x, y :: x in atoms && y in atoms && e.atom(x) == e.atom(y) ==> x == y)
    && (forall x, y :: x in ints && y in ints && e.small(x) == e.small(y) ==> x == y)
    && (forall x, y :: x in functors && y in functors && e.functor(x) == e.functor(y) ==> x == y)
    && (forall x, y :: x in atoms && y in ints ==> e.atom(x) != e.small(y))
    && (forall x, y :: x in atoms && y in functors ==> e.atom(x) != e.functor(y))
    && (forall x, y :: x in ints && y in functors ==> e.small(x) != e.functor(y))
  }

  predicate Among(t: Term, atoms: set<Name>, ints: set<int>, functors: set<Functor>) {
    (t.Atom? ==> t.name in atoms) && (t.Small? ==> t.n in ints) && (t.Struct? ==> t.functor in functors) && !t.Big?
  }

  /** Just atoms, integers and compound terms have keys, and they have the same key only if they
      are the same atom or integer or have the same functor. */
  lemma KeysTell(t: Term, u: Term, e: Words, atoms: set<Name>, ints: set<int>, functors: set<Functor>)
    requires NonZero(e) && Separates(e, atoms, ints, functors) && Among(t, atoms, ints, functors) && Among(u, atoms, ints, functors)
    ensures KeyOf(t, e) != 0 <==> t.Atom? || t.Small? || t.Struct?
    ensures KeyOf(t, e) != 0 && KeyOf(t, e) == KeyOf(u, e) <==>
            ((t.Atom? || t.Small?) && u == t) || (t.Struct? && u.Struct? && u.functor == t.functor)
  {
  }

  // ---------- unification

  /** Arguments that some substitution makes equal have the same key, if both have one. */
  lemma {:induction false} UnifiersShareKeys(g: Term, h: Term, f: nat -> Term, e: Words)
    requires Replace(g, f) == Replace(h, f)
    ensures KeyOf(g, e) == 0 || KeyOf(h, e) == 0 || KeyOf(g, e) == KeyOf(h, e)
  {
  }

  /** A clause whose head may unify with the goal, in the indexed arguments, is not passed over. */
  lemma UnifiableMatches(g: seq<Term>, h: seq<Term>, f: nat -> Term, e: Words, first: bool)
    requires |g| == |h| && 1 <= |g| <= 4 && (first ==> |g| == 1)
    requires forall i :: 0 <= i < |g| ==> Replace(g[i], f) == Replace(h[i], f)
    ensures Match(IndexFor(KeysOf(g, e), first), IndexFor(KeysOf(h, e), first))
  {
    forall i | 0 <= i < |g|
      ensures KeysOf(g, e)[i] == 0 || KeysOf(h, e)[i] == 0 || KeysOf(g, e)[i] == KeysOf(h, e)[i]
    {
      UnifiersShareKeys(g[i], h[i], f, e);
    }
    hide IndexFor, Match;
    NoLostSolutions(KeysOf(g, e), KeysOf(h, e), first);
  }

  // ---------- the key from the code

  /** pl-comp.c, arg1Key(); None where it fails. */
  function Arg1Key(code: Codes, e: Words): Option<Word> {
    if |code| == 0 || !code[0].Op? then None
    else
      match code[0].op
      case H_FUNCTOR | H_RFUNCTOR => if |code| > 1 && code[1].Func? then Some(e.functor(code[1].functor)) else None
      case H_CONST => if |code| > 1 && code[1].Constant? then Some(KeyOf(code[1].value, e)) else None
      case H_NIL => Some(e.atom(Nil))
      case H_LIST | H_RLIST => Some(e.functor(DOT))
      case H_INTEGER => if |code| > 1 && code[1].Num? then Some(e.big(code[1].n)) else None
      case _ => None
  }

  /** The code of the first argument begins the code of all. */
  lemma {:induction false} FirstArgumentCode(h: Term, n: nat)
    requires IsHead(h) && h.Struct? && 1 <= n <= |h.args|
    ensures CompileArgument(h.args[0], HEAD, |h.args|, {}).code <= CompileArguments(h, n, HEAD, |h.args|, {}).code
    decreases n
  {
    hide CompileArgument, CompileArguments;
    ArgumentsStep(h, n - 1, HEAD, |h.args|, {});
    if n > 1 {
      FirstArgumentCode(h, n - 1);
    }
  }

  function Expected(t: Term, e: Words): Option<Word> {
    if KeyOf(t, e) == 0 then None else Some(KeyOf(t, e))
  }

  /** Large integers are not 0, as they do not fit in a tagged word. */
  predicate BigIsNotZero(t: Term, e: Words) {
    t.Big? ==> e.big(t.n) != 0
  }

  lemma OpeningKey(f: Functor, x: Codes, e: Words)
    requires NonZero(e) && Opening(f, HEAD) <= x
    ensures Arg1Key(x, e) == Some(e.functor(f))
  {
    assert x[0] == Opening(f, HEAD)[0];
    if f != DOT {
      assert x[1] == Opening(f, HEAD)[1];
    }
  }

  lemma {:induction false} StructStarts(t: Term, arity: nat)
    requires Proper(t) && t.Struct?
    ensures Opening(t.functor, HEAD) <= CompileArgument(t, HEAD, arity, {}).code
  {
    hide CompileArgument, CompileArguments, Opening;
    StructCode(t, HEAD, arity, {});
  }

  /** The key that the code of an argument begins with. */
  lemma {:induction false} ArgumentKey(t: Term, arity: nat, x: Codes, e: Words)
    requires Proper(t) && NonZero(e) && BigIsNotZero(t, e) && CompileArgument(t, HEAD, arity, {}).code <= x
    ensures Arg1Key(x, e) == Expected(t, e)
  {
    var c := CompileArgument(t, HEAD, arity, {}).code;
    if t.Struct? {
      hide CompileArgument, Opening, Arg1Key;
      StructStarts(t, arity);
      OpeningKey(t.functor, x, e);
    } else {
      assert x[0] == c[0] && (|c| > 1 ==> x[1] == c[1]);
    }
  }

  lemma {:induction false} VoidKey(h: Term, n: nat, e: Words)
    requires IsHead(h) && h.Struct? && n < |h.args|
    requires CompileArgument(h.args[n], HEAD, |h.args|, CompileArguments(h, n, HEAD, |h.args|, {}).used).void
    ensures KeyOf(h.args[n], e) == 0
  {
    hide CompileArguments;
  }

  /** arg1Key() finds the key of the first argument in the code of the clause, and fails exactly
      when that argument has none. */
  lemma Arg1KeyIsKey(h: Term, end: Code, rest: Codes, e: Words)
    requires IsHead(h) && h.Struct? && EndsHead(end) && NonZero(e) && BigIsNotZero(h.args[0], e)
    ensures Arg1Key(CompileHead(h).code + [end] + rest, e) == Expected(h.args[0], e)
  {
    hide CompileArgument, CompileArguments, Arg1Key;
    var arity := |h.args|;
    var m := KeptCode(h, arity, HEAD, arity, {});
    var code := CompileHead(h).code + [end] + rest;
    if m == 0 {
      VoidKey(h, 0, e);
      ArgumentsStep(h, 0, HEAD, arity, {});
      assert code == [end] + rest;
      EndKey(end, rest, e);
    } else {
      FirstArgumentCode(h, m);
      ArgumentKey(h.args[0], arity, code, e);
    }
  }

  lemma EndKey(end: Code, rest: Codes, e: Words)
    requires EndsHead(end)
    ensures Arg1Key([end] + rest, e) == None
  {
  }

  /** pl-index.c, reindexClause() for the pattern 0x1. */
  function Reindexed(code: Codes, e: Words): Index {
    var k := Arg1Key(code, e);
    if k.Some? then Index(k.value, ONES) else Index(0, 0)
  }

  /** The index made from the code of a clause is the one made from its head. */
  lemma {:induction false} ReindexAgrees(h: Term, body: Term, vars: nat, inline: set<Functor>, e: Words)
    requires IsHead(h) && h.Struct? && Proper(body) && CompileClause(h, body, vars, inline).Some? && NonZero(e) && BigIsNotZero(h.args[0], e)
    ensures Reindexed(CompileClause(h, body, vars, inline).value, e) == IndexFor(KeysOf([h.args[0]], e), true)
  {
    hide CompileHead, Arg1Key;
    var code := CompileClause(h, body, vars, inline).value;
    if body == TRUE {
      assert code == CompileHead(h).code + [Op(I_EXITFACT)] + [];
      Arg1KeyIsKey(h, Op(I_EXITFACT), [], e);
    } else {
      var rest := code[|CompileHead(h).code| + 1..];
      assert code == CompileHead(h).code + [Op(I_ENTER)] + rest;
      Arg1KeyIsKey(h, Op(I_ENTER), rest, e);
    }
  }
}
