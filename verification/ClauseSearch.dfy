/** Finding the clauses for a goal (pl-index.c, findClause(), nextClause() and firstClause()). */
module ClauseSearch {
  import opened IndexKeys
  import opened ClauseChains
  import opened ClauseIndexes

  // ---------- the linear scan

  /** The clause is visible at this generation, and its index matches. */
  ghost predicate Wanted(c: Clause, ctx: Index, gen: nat)
    reads c
  {
    c.Visible(gen) && Match(ctx, c.index)
  }

  /** The wanted clauses of a list, in order. */
  ghost function Selected(s: seq<Clause>, ctx: Index, gen: nat): seq<Clause>
    reads s
  {
    if s == [] then [] else (if Wanted(s[0], ctx, gen) then [s[0]] else []) + Selected(s[1..], ctx, gen)
  }

  /** The first wanted cell at place i or behind it. */
  ghost function Hit(refs: seq<ClauseRef>, i: nat, ctx: Index, gen: nat): (j: nat)
    requires i <= |refs|
    reads ClausesOf(refs)
    ensures i <= j <= |refs| && (j < |refs| ==> Wanted(ClausesOf(refs)[j], ctx, gen))
    decreases |refs| - i
  {
    if i == |refs| || Wanted(ClausesOf(refs)[i], ctx, gen) then i else Hit(refs, i + 1, ctx, gen)
  }

  lemma {:induction false} HitSelects(refs: seq<ClauseRef>, i: nat, ctx: Index, gen: nat)
    requires i <= |refs|
    ensures var j := Hit(refs, i, ctx, gen);
            Selected(ClausesOf(refs)[i..], ctx, gen) ==
            if j == |refs| then [] else [refs[j].clause] + Selected(ClausesOf(refs)[j + 1..], ctx, gen)
    decreases |refs| - i
  {
    hide Wanted;
    var s := ClausesOf(refs);
    if i < |refs| {
      assert s[i..][1..] == s[i + 1..];
      if !Wanted(s[i], ctx, gen) {
        HitSelects(refs, i + 1, ctx, gen);
      }
    }
  }

  // ---------- the loops

  /** cref is the cell at place i of a chain. */
  ghost predicate Cursor(cref: ClauseRef?, refs: seq<ClauseRef>, i: nat)
    reads refs
  {
    i <= |refs| && cref == At(refs, i) && Linked(At(refs, 0), refs)
  }

  lemma Follow(cref: ClauseRef?, refs: seq<ClauseRef>, i: nat)
    requires Cursor(cref, refs, i)
    ensures cref == null <==> i == |refs|
    ensures cref != null ==> i < |refs| && cref == refs[i] && cref.clause == ClausesOf(refs)[i] && Cursor(cref.next, refs, i + 1)
  {
  }

  /** All visible clauses: *next is the next cell. */
  method ScanAll(start: ClauseRef?, gen: nat, ghost refs: seq<ClauseRef>, ghost i: nat, ghost ctx: Index) returns (result: ClauseRef?, next: ClauseRef?)
    requires Cursor(start, refs, i) && ctx == Index(0, 0)
    ensures var j := Hit(refs, i, ctx, gen); result == At(refs, j) && (result != null ==> next == At(refs, j + 1))
  {
    hide Linked, ClausesOf, At, Match;
    var cref := start;
    ghost var k := i;
    next := null;
    Follow(cref, refs, k);
    while cref != null
      invariant k <= |refs| && Cursor(cref, refs, k) && Hit(refs, i, ctx, gen) == Hit(refs, k, ctx, gen)
      decreases |refs| - k
    {
      Follow(cref, refs, k);
      NoKey(ctx, cref.clause.index);
      if cref.clause.Visible(gen) {
        return cref, cref.next;
      }
      cref := cref.next;
      k := k + 1;
    }
    Follow(cref, refs, k);
    return null, null;
  }

  /** The clauses for a key of the first argument: *next is the next wanted cell. */
  method ScanKey(start: ClauseRef?, key: Word, gen: nat, ghost refs: seq<ClauseRef>, ghost i: nat) returns (result: ClauseRef?, next: ClauseRef?)
    requires Cursor(start, refs, i)
    ensures var j := Hit(refs, i, Index(key, ONES), gen);
            result == At(refs, j) && (j < |refs| ==> next == At(refs, Hit(refs, j + 1, Index(key, ONES), gen)))
  {
    hide Linked, ClausesOf, At, Match;
    ghost var ctx := Index(key, ONES);
    var cref := start;
    ghost var k := i;
    next := null;
    while cref != null
      invariant k <= |refs| && Cursor(cref, refs, k) && Hit(refs, i, ctx, gen) == Hit(refs, k, ctx, gen)
      decreases |refs| - k
    {
      Follow(cref, refs, k);
      OnlyKey(ctx, cref.clause.index);
      if Only(key, cref.clause.index.varmask) == cref.clause.index.key && cref.clause.Visible(gen) {
        result := cref;
        ghost var j := k;
        cref := cref.next;
        k := k + 1;
        while cref != null
          invariant j == Hit(refs, i, ctx, gen) < |refs| && result == At(refs, j)
          invariant k <= |refs| && Cursor(cref, refs, k) && Hit(refs, j + 1, ctx, gen) == Hit(refs, k, ctx, gen)
          decreases |refs| - k
        {
          Follow(cref, refs, k);
          OnlyKey(ctx, cref.clause.index);
          if Only(key, cref.clause.index.varmask) == cref.clause.index.key && cref.clause.Visible(gen) {
            return result, cref;
          }
          cref := cref.next;
          k := k + 1;
        }
        Follow(cref, refs, k);
        return result, null;
      }
      cref := cref.next;
      k := k + 1;
    }
    Follow(cref, refs, k);
    return null, null;
  }

  /** The clauses whose index matches: *next is the next wanted cell. */
  method ScanMatch(start: ClauseRef?, index: Index, gen: nat, ghost refs: seq<ClauseRef>, ghost i: nat) returns (result: ClauseRef?, next: ClauseRef?)
    requires Cursor(start, refs, i)
    ensures var j := Hit(refs, i, index, gen);
            result == At(refs, j) && (j < |refs| ==> next == At(refs, Hit(refs, j + 1, index, gen)))
  {
    hide Linked, ClausesOf, At, Match;
    ghost var ctx := index;
    var cref := start;
    ghost var k := i;
    next := null;
    while cref != null
      invariant k <= |refs| && Cursor(cref, refs, k) && Hit(refs, i, ctx, gen) == Hit(refs, k, ctx, gen)
      decreases |refs| - k
    {
      Follow(cref, refs, k);
      if Match(index, cref.clause.index) && cref.clause.Visible(gen) {
        result := cref;
        ghost var j := k;
        cref := cref.next;
        k := k + 1;
        while cref != null
          invariant j == Hit(refs, i, ctx, gen) < |refs| && result == At(refs, j)
          invariant k <= |refs| && Cursor(cref, refs, k) && Hit(refs, j + 1, ctx, gen) == Hit(refs, k, ctx, gen)
          decreases |refs| - k
        {
          Follow(cref, refs, k);
          if Match(index, cref.clause.index) && cref.clause.Visible(gen) {
            return result, cref;
          }
          cref := cref.next;
          k := k + 1;
        }
        Follow(cref, refs, k);
        return result, null;
      }
      cref := cref.next;
      k := k + 1;
    }
    Follow(cref, refs, k);
    return null, null;
  }

  // ---------- findClause() and nextClause()

  /** pl-index.c, nextClause() */
  method NextClause(cref: ClauseRef?, ctx: Index, gen: nat, ghost refs: seq<ClauseRef>, ghost i: nat) returns (result: ClauseRef?, next: ClauseRef?)
    requires Cursor(cref, refs, i) && (ctx.varmask == 0 ==> ctx.key == 0)
    ensures Found(refs, i, ctx, gen, result, next, ctx.varmask != 0)
  {
    if ctx.varmask == ONES {
      result, next := ScanKey(cref, ctx.key, gen, refs, i);
    } else if ctx.varmask == 0 {
      result, next := ScanAll(cref, gen, refs, i, ctx);
    } else {
      result, next := ScanMatch(cref, ctx, gen, refs, i);
    }
  }

  /** The result is the first wanted cell from place i on; next is the next wanted cell (exact),
      or just the next one. */
  ghost predicate Found(refs: seq<ClauseRef>, i: nat, ctx: Index, gen: nat, result: ClauseRef?, next: ClauseRef?, exact: bool)
    requires i <= |refs|
    reads ClausesOf(refs)
  {
    var j := Hit(refs, i, ctx, gen);
    result == At(refs, j) && (j < |refs| ==> next == At(refs, if exact then Hit(refs, j + 1, ctx, gen) else j + 1))
  }

  /** How a predicate is indexed: not, on the first argument, or on other arguments. */
  datatype Indexing = NotIndexed | OnFirst | OnMany(pattern: seq<bool>, card: nat)

  predicate Fits(p: Indexing, argv: seq<Word>) {
    match p
    case NotIndexed => true
    case OnFirst => |argv| >= 1
    case OnMany(pattern, card) => |pattern| <= |argv| && card == |Chosen(argv, pattern)| <= 4 && !FirstOnly(pattern)
  }

  /** The index of a goal whose arguments have the keys argv. */
  function GoalIndex(p: Indexing, argv: seq<Word>): Index
    requires Fits(p, argv)
  {
    match p
    case NotIndexed => Index(0, 0)
    case OnFirst => IndexFor([argv[0]], true)
    case OnMany(pattern, _) => IndexFor(Chosen(argv, pattern), false)
  }

  /** The goal has a key to look for. */
  predicate Exact(p: Indexing, argv: seq<Word>) {
    p.OnMany? || (p.OnFirst? && argv != [] && argv[0] != 0)
  }

  /** pl-index.c, findClause() */
  method FindClause(p: Indexing, cref: ClauseRef?, argv: seq<Word>, gen: nat, ghost refs: seq<ClauseRef>, ghost i: nat)
    returns (result: ClauseRef?, next: ClauseRef?)
    requires Fits(p, argv) && Cursor(cref, refs, i) == true
    ensures i <= |refs| && Linked(At(refs, 0), refs)
    ensures Found(refs, i, GoalIndex(p, argv), gen, result, next, Exact(p, argv)) == true
  {
    match p
    case NotIndexed =>
      result, next := ScanAll(cref, gen, refs, i, Index(0, 0));
    case OnFirst =>
      if argv[0] == 0 {
        result, next := ScanAll(cref, gen, refs, i, Index(0, 0));
      } else {
        result, next := ScanKey(cref, argv[0], gen, refs, i);
      }
    case OnMany(pattern, card) =>
      var index := GetIndex(argv, pattern, card);
      result, next := ScanMatch(cref, index, gen, refs, i);
  }

  // ---------- enumeration

  /** A predicate: its clauses, and perhaps a hash table for the first argument. */
  datatype Definition = Definition(indexing: Indexing, clauses: ClauseChain, hash: ClauseIndex?)

  /** With a hash table, the index of every clause is a key or nothing. */
  predicate Simple(i: Index) {
    i.varmask == ONES || (i.varmask == 0 && i.key == 0)
  }

  ghost predicate Ready(def: Definition)
    reads def.clauses, def.clauses.refs, if def.hash == null then [] else def.hash.entries, if def.hash == null then {} else def.hash.Cells()
  {
    && def.clauses.Valid()
    && (def.hash != null ==> def.hash.Valid() && def.hash.Holds(def.clauses.Clauses()) && AllSimple(def.clauses.Clauses()))
  }

  ghost predicate AllSimple(s: seq<Clause>) {
    forall i :: 0 <= i < |s| ==> Simple(s[i].index)
  }

  lemma SimpleKeys(key: Word, i: Index)
    requires Simple(i) && i.varmask != 0
    ensures Match(Index(key, ONES), i) <==> i.key == key
  {
    assert key & ONES == key && i.key & ONES == i.key;
  }

  lemma OtherBucket(i: Index, key: Word, buckets: nat)
    requires buckets > 0 && Simple(i) && !In(i, HashIndex(key, buckets), buckets)
    ensures !Match(Index(key, ONES), i)
  {
    hide Match, HashIndex;
    SimpleKeys(key, i);
  }

  /** The bucket of a key holds all clauses with that key, and all without a key. */
  lemma {:induction false} BucketSelects(s: seq<Clause>, key: Word, buckets: nat, gen: nat)
    requires buckets > 0 && AllSimple(s)
    ensures Selected(Bucket(s, HashIndex(key, buckets), buckets), Index(key, ONES), gen) == Selected(s, Index(key, ONES), gen)
    decreases |s|
  {
    hide Match, Simple, In, HashIndex;
    if s != [] {
      BucketSelects(s[1..], key, buckets, gen);
      var b, ctx := HashIndex(key, buckets), Index(key, ONES);
      var rest := Bucket(s[1..], b, buckets);
      if In(s[0].index, b, buckets) {
        assert ([s[0]] + rest)[1..] == rest;
        assert Selected([s[0]] + rest, ctx, gen) == (if Wanted(s[0], ctx, gen) then [s[0]] else []) + Selected(rest, ctx, gen);
      } else {
        OtherBucket(s[0].index, key, buckets);
        assert [] + rest == rest && [] + Selected(s[1..], ctx, gen) == Selected(s[1..], ctx, gen);
      }
    }
  }

  /** pl-index.c, firstClause(): the chain to search, and the first clause. */
  method FirstClause(def: Definition, argv: seq<Word>, gen: nat) returns (result: ClauseRef?, next: ClauseRef?, ghost chain: ClauseChain)
    requires Fits(def.indexing, argv) && Ready(def)
    ensures (chain == def.clauses || (def.hash != null && chain in def.hash.entries)) && Linked(At(chain.refs, 0), chain.refs)
    ensures Found(chain.refs, 0, GoalIndex(def.indexing, argv), gen, result, next, GoalIndex(def.indexing, argv).varmask != 0) == true
    ensures Selected(ClausesOf(chain.refs), GoalIndex(def.indexing, argv), gen) == Selected(def.clauses.Clauses(), GoalIndex(def.indexing, argv), gen)
  {
    chain := def.clauses;
    ghost var refs := chain.refs;
    var p := def.indexing;
    if p.NotIndexed? || (p.OnFirst? && argv[0] == 0) {
      result, next := ScanAll(def.clauses.head, gen, refs, 0, Index(0, 0));
    } else if p.OnFirst? {
      var key := argv[0];
      var ctx := Index(key, ONES);
      if def.hash != null {
        var hi := HashIndex(key, def.hash.buckets);
        BucketSelects(def.clauses.Clauses(), key, def.hash.buckets, gen);
        chain := def.hash.entries[hi];
        refs := chain.refs;
        result, next := NextClause(def.hash.entries[hi].head, ctx, gen, refs, 0);
      } else {
        result, next := NextClause(def.clauses.head, ctx, gen, refs, 0);
      }
    } else {
      var ctx := GetIndex(argv, p.pattern, p.card);
      if ctx.varmask == 0 {
        EmptyMask(Chosen(argv, p.pattern), false);
      }
      result, next := NextClause(def.clauses.head, ctx, gen, refs, 0);
    }
  }

  lemma {:induction false} HitAgain(refs: seq<ClauseRef>, i: nat, ctx: Index, gen: nat)
    requires i <= |refs|
    ensures Hit(refs, Hit(refs, i, ctx, gen), ctx, gen) == Hit(refs, i, ctx, gen)
    ensures Selected(ClausesOf(refs)[Hit(refs, i, ctx, gen)..], ctx, gen) == Selected(ClausesOf(refs)[i..], ctx, gen)
    decreases |refs| - i
  {
    hide Wanted;
    if i < |refs| && !Wanted(ClausesOf(refs)[i], ctx, gen) {
      HitAgain(refs, i + 1, ctx, gen);
    }
    HitSelects(refs, i, ctx, gen);
    HitSelects(refs, Hit(refs, i, ctx, gen), ctx, gen);
  }

  /** What is left behind a clause that was found, and where to go on. */
  lemma FoundRest(refs: seq<ClauseRef>, i: nat, ctx: Index, gen: nat, result: ClauseRef?, next: ClauseRef?, exact: bool) returns (k: nat)
    requires i <= |refs| && Linked(At(refs, 0), refs) && Found(refs, i, ctx, gen, result, next, exact) == true
    ensures result == null ==> Selected(ClausesOf(refs)[i..], ctx, gen) == []
    ensures result != null ==>
              && i < k <= |refs| && Cursor(next, refs, k) == true
              && Selected(ClausesOf(refs)[i..], ctx, gen) == [result.clause] + Selected(ClausesOf(refs)[k..], ctx, gen)
              && (next == null ==> Selected(ClausesOf(refs)[k..], ctx, gen) == [])
  {
    hide Linked, ClausesOf, Hit, Selected;
    var j := Hit(refs, i, ctx, gen);
    HitSelects(refs, i, ctx, gen);
    k := |refs|;
    if j < |refs| {
      HitAgain(refs, j + 1, ctx, gen);
      k := if exact then Hit(refs, j + 1, ctx, gen) else j + 1;
      NoneLeft(refs, ctx, gen);
    }
  }

  lemma {:induction false} NoneLeft(refs: seq<ClauseRef>, ctx: Index, gen: nat)
    ensures Selected(ClausesOf(refs)[|refs|..], ctx, gen) == []
  {
  }

  datatype Query = Query(clauses: seq<Clause>, ctx: Index, gen: nat)

  /** As long as no clause is erased that the goal sees, the same clauses are selected. */
  twostate lemma {:induction false} StillSelected(q: Query)
    requires forall c :: c in q.clauses ==> c.erased == old(c.erased) || (c.erased > q.gen && old(c.erased) > q.gen)
    ensures Selected(q.clauses, q.ctx, q.gen) == old(Selected(q.clauses, q.ctx, q.gen))
    decreases |q.clauses|
  {
    hide Match;
    if q.clauses != [] {
      StillSelected(q.(clauses := q.clauses[1..]));
    }
  }

  /** The clauses that a goal is tried with, as it is called and as it is backtracked to: those
      that the linear scan selects, each once and in order. */
  method Enumerate(def: Definition, argv: seq<Word>, gen: nat) returns (found: seq<Clause>)
    requires Fits(def.indexing, argv) && Ready(def)
    ensures found == Selected(def.clauses.Clauses(), GoalIndex(def.indexing, argv), gen)
  {
    hide Linked, ClausesOf, Selected, GoalIndex, Ready, Fits, Found, Exact, Cursor;
    ghost var ctx, list := GoalIndex(def.indexing, argv), def.clauses.Clauses();
    ghost var all := Selected(list, ctx, gen);
    found := [];
    var result, next, chain := FirstClause(def, argv, gen);
    ghost var refs := chain.refs;
    StillSelected(Query(list, ctx, gen));
    assert ClausesOf(refs)[0..] == ClausesOf(refs);
    ghost var i := 0;
    ghost var k := FoundRest(refs, 0, ctx, gen, result, next, ctx.varmask != 0);
    while result != null
      invariant result == null ==> found == all
      invariant result != null ==>
                  && i < k <= |refs| && Cursor(next, refs, k) == true
                  && found + [result.clause] + Selected(ClausesOf(refs)[k..], ctx, gen) == all
                  && (next == null ==> Selected(ClausesOf(refs)[k..], ctx, gen) == [])
      decreases |refs| - i, if result != null then 1 else 0
    {
      found := found + [result.clause];
      if next == null {
        assert found + [] == found;
        StillSelected(Query(list, ctx, gen));
        return;
      }
      i := k;
      label Before:
      result, next := FindClause(def.indexing, next, argv, gen, refs, i);
      StillSelected@Before(Query(ClausesOf(refs), ctx, gen));
      StillSelected@Before(Query(ClausesOf(refs)[i..], ctx, gen));
      k := FoundRest(refs, i, ctx, gen, result, next, Exact(def.indexing, argv));
      if result == null {
        assert found + [] == found;
      } else {
        assert found + [result.clause] + Selected(ClausesOf(refs)[k..], ctx, gen) == found + ([result.clause] + Selected(ClausesOf(refs)[k..], ctx, gen));
      }
    }
    StillSelected(Query(list, ctx, gen));
  }
}
