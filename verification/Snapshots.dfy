/** The versions of a predicate: a goal of any generation finds the clauses that the predicate
    had when that generation began (pl-proc.c, assertProcedure() and retractClauseProcedure();
    pl-index.c, visibleClause()). */
module Snapshots {
  import opened IndexKeys
  import opened ClauseChains
  import opened ClauseIndexes
  import opened ClauseSearch
  import opened UpdateView

  /** The clauses made by generation gen and not erased by then. */
  ghost function Then(s: seq<Clause>, gen: nat): seq<Clause>
    reads s
  {
    if s == [] then [] else (if s[0].created <= gen && !(s[0].erased <= gen) then [s[0]] else []) + Then(s[1..], gen)
  }

  /** Those that a goal's index does not rule out. */
  ghost function Matching(s: seq<Clause>, ctx: Index): seq<Clause> {
    if s == [] then [] else (if Match(ctx, s[0].index) then [s[0]] else []) + Matching(s[1..], ctx)
  }

  lemma {:induction false} MatchingJoins(x: seq<Clause>, y: seq<Clause>, ctx: Index)
    ensures Matching(x + y, ctx) == Matching(x, ctx) + Matching(y, ctx)
    decreases |x|
  {
    hide Match;
    if x == [] {
      assert x + y == y;
    } else {
      var one := if Match(ctx, x[0].index) then [x[0]] else [];
      assert (x + y)[1..] == x[1..] + y;
      MatchingJoins(x[1..], y, ctx);
      assert one + (Matching(x[1..], ctx) + Matching(y, ctx)) == (one + Matching(x[1..], ctx)) + Matching(y, ctx);
    }
  }

  lemma MatchingOne(c: Clause, ctx: Index)
    ensures Matching([c], ctx) == if Match(ctx, c.index) then [c] else []
  {
    hide Match;
    assert [c][1..] == [];
  }

  /** What the linear scan selects. */
  lemma {:induction false} SelectedThen(s: seq<Clause>, ctx: Index, gen: nat)
    ensures Selected(s, ctx, gen) == Matching(Then(s, gen), ctx)
    decreases |s|
  {
    hide Match;
    if s != [] {
      SelectedThen(s[1..], ctx, gen);
      if s[0].created <= gen && !(s[0].erased <= gen) {
        MatchingJoins([s[0]], Then(s[1..], gen), ctx);
        MatchingOne(s[0], ctx);
      } else {
        assert [] + Then(s[1..], gen) == Then(s[1..], gen);
        assert [] + Selected(s[1..], ctx, gen) == Selected(s[1..], ctx, gen);
      }
    }
  }

  lemma {:induction false} ThenJoins(x: seq<Clause>, y: seq<Clause>, gen: nat)
    ensures Then(x + y, gen) == Then(x, gen) + Then(y, gen)
    decreases |x|
  {
    if x == [] {
      assert x + y == y;
    } else {
      var one := if x[0].created <= gen && !(x[0].erased <= gen) then [x[0]] else [];
      assert (x + y)[1..] == x[1..] + y;
      ThenJoins(x[1..], y, gen);
      assert one + (Then(x[1..], gen) + Then(y, gen)) == (one + Then(x[1..], gen)) + Then(y, gen);
    }
  }

  lemma ThenOne(c: Clause, gen: nat)
    ensures Then([c], gen) == if c.created <= gen && !(c.erased <= gen) then [c] else []
  {
    assert [c][1..] == [];
  }

  /** The clauses were made and erased in the generations up to now. */
  ghost predicate Dated(s: seq<Clause>, now: nat)
    reads s
  {
    forall i {:trigger s[i]} :: 0 <= i < |s| ==> s[i].created <= now && (s[i].erased <= now || s[i].erased == FOREVER)
  }

  /** Nothing changes in the generation that comes next, if nothing is done. */
  lemma {:induction false} NothingNew(s: seq<Clause>, now: nat)
    requires Dated(s, now) && now + 1 < FOREVER
    ensures Then(s, now + 1) == Then(s, now)
    decreases |s|
  {
    if s != [] {
      NothingNew(s[1..], now);
    }
  }

  /** A predicate and its versions, one for each generation up to now. */
  ghost predicate Versions(s: seq<Clause>, hist: seq<seq<Clause>>)
    reads s
  {
    && hist != [] && Dated(s, |hist| - 1)
    && forall gen {:trigger hist[gen]} :: 0 <= gen < |hist| ==> Then(s, gen) == hist[gen]
  }

  datatype Erasure = Erasure(s: seq<Clause>, c: Clause, gen: nat)

  /** A clause that is erased later was there before. */
  twostate lemma {:induction false} ErasedLater(e: Erasure)
    requires forall d :: d in e.s && d != e.c ==> d.erased == old(d.erased)
    requires old(e.c.erased) > e.gen && e.c.erased > e.gen
    ensures Then(e.s, e.gen) == old(Then(e.s, e.gen))
    decreases |e.s|
  {
    if e.s != [] {
      ErasedLater(e.(s := e.s[1..]));
    }
  }

  /** From the generation on that erases it, a clause is not there. */
  twostate lemma {:induction false} ErasedNow(e: Erasure)
    requires forall d :: d in e.s && d != e.c ==> d.erased == old(d.erased)
    requires old(e.c.erased) > e.gen && e.c.erased <= e.gen
    ensures Then(e.s, e.gen) == Minus(old(Then(e.s, e.gen)), e.c)
    decreases |e.s|
  {
    if e.s == [] {
      NothingLess([], e.c);
    } else {
      ErasedNow(e.(s := e.s[1..]));
      var d, was := e.s[0], old(Then(e.s[1..], e.gen));
      MinusJoins([d], was, e.c);
      MinusOne(d, e.c);
      if d.created <= e.gen && !(old(d.erased) <= e.gen) {
        assert old(Then(e.s, e.gen)) == [d] + was;
      } else {
        assert old(Then(e.s, e.gen)) == was by { assert [] + was == was; }
      }
      assert [] + Then(e.s[1..], e.gen) == Then(e.s[1..], e.gen);
    }
  }

  /** A clause more, made in the generation that comes next. */
  lemma MadeNow(s: seq<Clause>, hist: seq<seq<Clause>>, c: Clause, start: bool)
    requires Versions(s, hist) && c.created == |hist| && c.erased == FOREVER && |hist| < FOREVER
    ensures Versions(Extended(s, c, start), hist + [Extended(hist[|hist| - 1], c, start)]) == true
  {
    var now, t, more := |hist| - 1, Extended(s, c, start), hist + [Extended(hist[|hist| - 1], c, start)];
    forall gen {:trigger more[gen]} | 0 <= gen < |more|
      ensures Then(t, gen) == more[gen]
    {
      ThenOne(c, gen);
      if start {
        ThenJoins([c], s, gen);
      } else {
        ThenJoins(s, [c], gen);
      }
      if gen <= now {
        assert Then(s, gen) == hist[gen];
        assert [] + hist[gen] == hist[gen] == hist[gen] + [];
      } else {
        NothingNew(s, now);
        assert Then(s, now) == hist[now];
      }
    }
    hide Then;
    assert forall i :: 0 <= i < |t| ==> t[i] == c || t[i] in s;
    assert forall d :: d in s ==> d.created <= now && (d.erased <= now || d.erased == FOREVER);
  }

  datatype Retraction = Retraction(s: seq<Clause>, c: Clause, hist: seq<seq<Clause>>)

  /** A clause less, erased in the generation that comes next. */
  twostate lemma ErasedVersion(r: Retraction)
    requires old(Versions(r.s, r.hist)) && r.c in r.s && Distinct(r.s) && |r.hist| < FOREVER
    requires forall d :: d in r.s && d != r.c ==> d.erased == old(d.erased)
    requires old(r.c.erased) == FOREVER && r.c.erased == |r.hist|
    ensures Versions(r.s, r.hist + [Minus(r.hist[|r.hist| - 1], r.c)]) == true
  {
    var now, more := |r.hist| - 1, r.hist + [Minus(r.hist[|r.hist| - 1], r.c)];
    forall gen {:trigger more[gen]} | 0 <= gen < |more|
      ensures Then(r.s, gen) == more[gen]
    {
      if gen <= now {
        ErasedLater(Erasure(r.s, r.c, gen));
        assert old(Then(r.s, gen)) == r.hist[gen];
      } else {
        ErasedNow(Erasure(r.s, r.c, gen));
        assert old(Then(r.s, now)) == r.hist[now];
        NothingNewThen(Erasure(r.s, r.c, now));
      }
    }
  }

  twostate lemma {:induction false} NothingNewThen(e: Erasure)
    requires old(Dated(e.s, e.gen)) && e.gen + 1 < FOREVER
    ensures old(Then(e.s, e.gen + 1)) == old(Then(e.s, e.gen))
    decreases |e.s|
  {
    if e.s != [] {
      NothingNewThen(e.(s := e.s[1..]));
    }
  }

  // ---------- the program

  method Asserted(def: Definition, index: Index, start: bool, now: nat, ghost hist: seq<seq<Clause>>)
    returns (c: Clause, ghost more: seq<seq<Clause>>)
    requires Open(def) == true && (def.hash != null ==> Simple(index)) && Versions(def.clauses.Clauses(), hist) == true && now == |hist| && now < FOREVER
    modifies def.clauses, def.clauses.refs, Table(def), Entries(def), TableCells(def)
    ensures Open(def) == true && Grows(def) && Versions(def.clauses.Clauses(), more) == true
    ensures fresh(c) && c.index == index && hist != [] && more == hist + [Extended(hist[|hist| - 1], c, start)]
  {
    hide Open, Then, Extended, Linked;
    ghost var list := def.clauses.Clauses();
    c := AssertClause(def, index, start, now);
    MadeNow(list, hist, c, start);
    more := hist + [Extended(hist[|hist| - 1], c, start)];
  }

  lemma OpenList(def: Definition)
    requires Open(def)
    ensures Distinct(def.clauses.Clauses()) && Cursor(def.clauses.head, def.clauses.refs, 0)
    ensures forall c :: c in def.clauses.Clauses() && !c.dead ==> c.erased == FOREVER
  {
  }

  method Erased(def: Definition, c: Clause, now: nat, ghost hist: seq<seq<Clause>>) returns (ghost more: seq<seq<Clause>>)
    requires Open(def) == true && c in def.clauses.Clauses() && Versions(def.clauses.Clauses(), hist) == true && now == |hist| && now < FOREVER
    modifies c, Table(def), Entries(def)
    ensures Open(def) == true && Grows(def) && Versions(def.clauses.Clauses(), more) == true
    ensures hist != [] && c.dead && more == if old(c.dead) then hist else hist + [Minus(hist[|hist| - 1], c)]
  {
    hide Open, Then, Linked, ClausesOf;
    OpenList(def);
    more := hist;
    if !c.dead {
      ghost var list := def.clauses.Clauses();
      RetractClause(def, c, now);
      ErasedVersion(Retraction(list, c, hist));
      more := hist + [Minus(hist[|hist| - 1], c)];
    }
  }

  /** One update of a predicate: c is the clause concerned, and `more` has the version that it
      makes, if it makes one. */
  method Play(def: Definition, u: Update, now: nat, ghost hist: seq<seq<Clause>>) returns (c: Clause?, later: nat, ghost more: seq<seq<Clause>>)
    requires Open(def) == true && Allowed(u, def) && Versions(def.clauses.Clauses(), hist) == true && now == |hist| - 1 && now + 1 < FOREVER
    modifies def.clauses, def.clauses.refs, Table(def), Entries(def), TableCells(def), def.clauses.Clauses()
    ensures Open(def) == true && Grows(def) && Versions(def.clauses.Clauses(), more) == true && now <= later == |more| - 1 <= now + 1
    ensures hist != [] && hist <= more
    ensures u.Assert? ==> c != null && fresh(c) && c.index == u.index && more == hist + [Extended(hist[now], c, u.start)]
    ensures u.Retract? ==> c == if u.place < |old(def.clauses.Clauses())| then old(def.clauses.Clauses())[u.place] else null
    ensures u.Retract? ==> more == if c == null || old(c.dead) then hist else hist + [Minus(hist[now], c)]
  {
    hide Open, Versions, Linked;
    match u {
      case Assert(index, start) =>
        c, more := Asserted(def, index, start, now + 1, hist);
        later := now + 1;
      case Retract(place) =>
        OpenList(def);
        c := Nth(def.clauses.head, place, def.clauses.refs, 0);
        later, more := now, hist;
        if c != null && !c.dead {
          more := Erased(def, c, now + 1, hist);
          later := now + 1;
        }
    }
  }

  /** A new predicate has one version for every generation up to now, without clauses. */
  lemma {:induction false} NoClauses(now: nat)
    ensures Versions([], seq(now + 1, i => []))
  {
    hide Then;
    forall gen: nat
      ensures Then([], gen) == []
    {
      NothingThen(gen);
    }
  }

  lemma NothingThen(gen: nat)
    ensures Then([], gen) == []
  {
  }

  lemma {:induction false} MatchingMinus(s: seq<Clause>, c: Clause, ctx: Index)
    ensures c !in Matching(Minus(s, c), ctx)
  {
    hide Match;
    NotInMinus(s, c);
    MatchingAmong(Minus(s, c), ctx);
  }

  lemma {:induction false} MatchingAmong(s: seq<Clause>, ctx: Index)
    ensures forall c :: c in Matching(s, ctx) <==> c in s && Match(ctx, c.index)
    decreases |s|
  {
    hide Match;
    if s != [] {
      MatchingAmong(s[1..], ctx);
    }
  }

  /** The clauses that a goal is tried with, while its predicate stays in use. */
  method Ask(def: Definition, argv: seq<Word>, gen: nat) returns (found: seq<Clause>)
    requires Open(def) == true && Fits(def.indexing, argv)
    ensures Open(def) == true && found == Selected(def.clauses.Clauses(), GoalIndex(def.indexing, argv), gen)
  {
    hide Linked, Selected, GoalIndex, Fits, ClauseIndex.Counts, ClauseIndex.Holds, Match;
    assert allocated(def.clauses.refs) && allocated(Entries(def));
    assert allocated(TableCells(def));
    assert allocated(def.clauses.Clauses());
    OpenReady(def);
    hide Open, Ready, TableCells, ClausesOf;
    found := Enumerate(def, argv, gen);
  }

  /** After an update, a goal of any generation so far finds just the clauses that the predicate
      had in that generation and that its index does not rule out, in their order: a goal of
      the new generation finds the clause that was asserted, and not the one that was
      retracted; an older goal finds what it found before. */
  method PlayAndCall(def: Definition, u: Update, now: nat, argv: seq<Word>, gen: nat, ghost hist: seq<seq<Clause>>)
    returns (c: Clause?, later: nat, found: seq<Clause>, ghost more: seq<seq<Clause>>)
    requires Open(def) == true && Allowed(u, def) && Versions(def.clauses.Clauses(), hist) == true && now == |hist| - 1 && now + 1 < FOREVER
    requires Fits(def.indexing, argv)
    modifies def.clauses, def.clauses.refs, Table(def), Entries(def), TableCells(def), def.clauses.Clauses()
    ensures Open(def) == true && Versions(def.clauses.Clauses(), more) == true && now <= later == |more| - 1 <= now + 1 && hist != []
    ensures u.Assert? ==> c != null && c.index == u.index && more == hist + [Extended(hist[now], c, u.start)]
    ensures u.Retract? ==> c == if u.place < |old(def.clauses.Clauses())| then old(def.clauses.Clauses())[u.place] else null
    ensures u.Retract? ==> more == if c == null || old(c.dead) then hist else hist + [Minus(hist[now], c)]
    ensures gen <= now ==> found == Matching(hist[gen], GoalIndex(def.indexing, argv))
    ensures gen <= later ==> found == Matching(more[gen], GoalIndex(def.indexing, argv))
    ensures u.Assert? && gen == now + 1 ==> (c in found <==> Match(GoalIndex(def.indexing, argv), u.index))
    ensures u.Retract? && c != null && !old(c.dead) && gen == now + 1 ==> c !in found
  {
    hide Open, Linked, Allowed, Ready, Fits, Selected, GoalIndex, Match, Versions, Matching;
    c, later, more := Play(def, u, now, hist);
    ghost var ctx := GoalIndex(def.indexing, argv);
    SelectedThen(def.clauses.Clauses(), ctx, gen);
    if gen <= later {
      VersionAt(def.clauses.Clauses(), more, gen);
      MatchingAmong(more[gen], ctx);
    }
    if u.Retract? && c != null {
      MatchingMinus(hist[now], c, ctx);
    }
    found := Ask(def, argv, gen);
  }

  lemma VersionAt(s: seq<Clause>, hist: seq<seq<Clause>>, gen: nat)
    requires Versions(s, hist) && gen < |hist|
    ensures Then(s, gen) == hist[gen]
  {
  }
}
