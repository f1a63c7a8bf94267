/** The logical update view: a goal goes on with the clauses that were there when it was called
    (pl-index.c, visibleClause() in findClause(); pl-proc.c, assertProcedure() and
    retractClauseProcedure()). */
module UpdateView {
  import opened IndexKeys
  import opened ClauseChains
  import opened ClauseIndexes
  import opened ClauseSearch

  const FOREVER: nat := 0xFFFF_FFFF

  /** What a program does to a predicate while a goal of it is open. */
  datatype Update = Assert(index: Index, start: bool) | Retract(place: nat)

  ghost function Entries(def: Definition): seq<ClauseChain> {
    if def.hash == null then [] else def.hash.entries
  }

  ghost function TableCells(def: Definition): set<ClauseRef>
    reads Entries(def)
  {
    if def.hash == null then {} else def.hash.Cells()
  }

  ghost function Table(def: Definition): set<ClauseIndex> {
    if def.hash == null then {} else {def.hash}
  }

  /** The table of the predicate, if there is one, holds the list, and knows how many clauses are
      erased in each bucket. */
  ghost predicate TableFits(def: Definition, list: seq<Clause>)
    reads Table(def), Entries(def), TableCells(def), list
  {
    def.hash != null ==> def.hash.Valid() && def.hash.Holds(list) && def.hash.Counts(list) && AllSimple(list)
  }

  /** A predicate that is in use: its clauses are apart, and those that are not erased last for
      ever. */
  ghost predicate Open(def: Definition)
    reads def.clauses, def.clauses.refs, Table(def), Entries(def), TableCells(def), def.clauses.Clauses()
  {
    var list := def.clauses.Clauses();
    def.clauses.Valid() && Distinct(list) && Lasting(list) && TableFits(def, list) && def.clauses !in Entries(def)
  }

  lemma OpenReady(def: Definition)
    requires Open(def)
    ensures Ready(def)
  {
  }

  ghost predicate Lasting(s: seq<Clause>)
    reads s
  {
    forall c :: c in s && !c.dead ==> c.erased == FOREVER
  }

  /** Every cell and every clause of the predicate was there or is new. */
  twostate predicate Grows(def: Definition)
    reads def.clauses, Entries(def)
  {
    && (forall r :: r in def.clauses.refs ==> r in old(def.clauses.refs) || fresh(r))
    && (forall r :: r in TableCells(def) ==> r in old(TableCells(def)) || fresh(r))
    && (forall c :: c in def.clauses.Clauses() ==> c in old(def.clauses.Clauses()) || fresh(c))
  }

  twostate lemma GrownCells(def: Definition)
    requires Grows(def)
    ensures forall i :: 0 <= i < |def.clauses.refs| ==> def.clauses.refs[i] in old(def.clauses.refs) || fresh(def.clauses.refs[i])
    ensures forall i :: 0 <= i < |def.clauses.Clauses()| ==>
              def.clauses.Clauses()[i] in old(def.clauses.Clauses()) || fresh(def.clauses.Clauses()[i])
  {
  }

  /** The cells of the clause list are not those of the table. */
  lemma Apart(def: Definition)
    requires def.clauses.Valid() && def.clauses !in Entries(def) && (def.hash != null ==> def.hash.Valid())
    ensures forall r :: r in def.clauses.refs ==> r !in TableCells(def)
  {
    if def.hash != null {
      assert forall d, r :: 0 <= d < |def.hash.entries| && r in def.hash.entries[d].refs ==> r.home == def.hash.entries[d];
    }
  }

  method AppendClause(def: Definition, c: Clause, start: bool, ghost list: seq<Clause>)
    requires list == def.clauses.Clauses() && def.clauses.Valid() && TableFits(def, list) && def.clauses !in Entries(def)
    modifies def.clauses, def.clauses.refs
    ensures def.clauses.Valid() == true && TableFits(def, list) == true
    ensures def.clauses.Clauses() == Extended(list, c, start) && def.clauses.Longer(c, start)
    ensures unchanged(Entries(def)) && unchanged(Table(def)) && unchanged(TableCells(def))
    ensures forall r :: r in def.clauses.refs ==> (r in old(def.clauses.refs) || fresh(r)) && r !in TableCells(def)
  {
    hide ClausesOf, Linked, ClauseIndex.Counts, ClauseIndex.Holds;
    Apart(def);
    if def.hash != null {
      def.hash.CellsApart();
    }
    def.clauses.Append(c, start);
    if def.hash != null {
      def.hash.StaysValid();
    }
    Apart(def);
  }

  lemma DistinctMore(s: seq<Clause>, c: Clause, start: bool)
    requires Distinct(s) && c !in s
    ensures Distinct(Extended(s, c, start))
  {
  }

  lemma InExtended(s: seq<Clause>, c: Clause, start: bool)
    ensures forall d :: d in Extended(s, c, start) <==> d in s || d == c
  {
  }

  lemma SimpleMore(s: seq<Clause>, c: Clause, start: bool)
    requires AllSimple(s) && Simple(c.index)
    ensures AllSimple(Extended(s, c, start))
  {
  }

  /** pl-index.c, addClauseToIndex(), when there is a table */
  method AddClause(def: Definition, c: Clause, start: bool, ghost list: seq<Clause>)
    requires TableFits(def, list) && !c.dead && (def.hash != null ==> Simple(c.index))
    modifies Table(def), Entries(def), TableCells(def)
    ensures TableFits(def, Extended(list, c, start)) == true
    ensures forall ch :: ch in Entries(def) ==> ch.Longer(c, start)
    ensures forall r :: r in TableCells(def) ==> r in old(TableCells(def)) || fresh(r)
  {
    hide ClausesOf, Linked, ClauseIndex.Counts, ClauseIndex.Holds, AllSimple, ClauseChain.Longer;
    if def.hash != null {
      SimpleMore(list, c, start);
      def.hash.Add(c, start, list);
      def.hash.CellsAre();
    }
  }

  method LinkClause(def: Definition, c: Clause, start: bool, ghost list: seq<Clause>)
    requires Open(def) && list == def.clauses.Clauses() && c !in list && !c.dead && c.erased == FOREVER
    requires def.hash != null ==> Simple(c.index)
    modifies def.clauses, def.clauses.refs, Table(def), Entries(def), TableCells(def)
    ensures Open(def) == true && def.clauses.Clauses() == Extended(list, c, start)
    ensures forall r :: r in def.clauses.refs ==> r in old(def.clauses.refs) || fresh(r)
    ensures forall r :: r in TableCells(def) ==> r in old(TableCells(def)) || fresh(r)
    ensures def.clauses.Longer(c, start) && forall ch :: ch in Entries(def) ==> ch.Longer(c, start)
  {
    hide ClausesOf, Linked, TableFits, Distinct, Extended;
    AppendClause(def, c, start, list);
    AddClause(def, c, start, list);
    DistinctMore(list, c, start);
    InExtended(list, c, start);
    assert Lasting(Extended(list, c, start));
  }

  /** pl-proc.c, assertProcedure() */
  method AssertClause(def: Definition, index: Index, start: bool, generation: nat) returns (c: Clause)
    requires Open(def) && (def.hash != null ==> Simple(index))
    modifies def.clauses, def.clauses.refs, Table(def), Entries(def), TableCells(def)
    ensures Open(def) == true && fresh(c) && Grows(def)
    ensures c.index == index && c.created == generation && c.erased == FOREVER && !c.dead
    ensures def.clauses.Clauses() == Extended(old(def.clauses.Clauses()), c, start)
    ensures def.clauses.Longer(c, start) && forall ch :: ch in Entries(def) ==> ch.Longer(c, start)
  {
    hide Linked, Extended, ClauseIndex.Valid, ClauseIndex.Counts, ClauseIndex.Holds;
    ghost var list := def.clauses.Clauses();
    c := new Clause(index, generation, FOREVER);
    LinkClause(def, c, start, list);
    InExtended(list, c, start);
  }

  lemma StillLasting(s: seq<Clause>, c: Clause)
    requires c.dead && forall d :: d in s && d != c && !d.dead ==> d.erased == FOREVER
    ensures Lasting(s) == true
  {
  }

  /** pl-proc.c, retractClauseProcedure(), of a predicate that is in use: the clause stays where
      it is. */
  method RetractClause(def: Definition, c: Clause, generation: nat)
    requires Open(def) && c in def.clauses.Clauses()
    modifies c, Table(def), Entries(def)
    ensures Open(def) == true && Grows(def) && c.dead && c.erased == if old(c.dead) then old(c.erased) else generation
    ensures forall ch :: ch in Entries(def) ==> ch.refs == old(ch.refs)
  {
    if c.dead {
      return;
    }
    hide ClausesOf, Linked, AllSimple, Distinct, ClauseIndex.Counts, ClauseIndex.Holds;
    ghost var list := def.clauses.Clauses();
    if def.hash != null {
      def.hash.Erase(c, generation, list);
    } else {
      c.dead, c.erased := true, generation;
    }
    StillLasting(list, c);
  }

  // ---------- a goal and later updates

  lemma {:induction false} SelectedLast(s: seq<Clause>, c: Clause, ctx: Index, gen: nat)
    requires c.created > gen
    ensures Selected(s + [c], ctx, gen) == Selected(s, ctx, gen)
    decreases |s|
  {
    hide Match;
    if s == [] {
      assert s + [c] == [c] && [c][1..] == [];
    } else {
      assert (s + [c])[1..] == s[1..] + [c];
      SelectedLast(s[1..], c, ctx, gen);
    }
  }

  /** The place of a cell in a chain that has grown, and what is selected from there on. */
  lemma {:induction false} Shifted(was: seq<ClauseRef>, now: seq<ClauseRef>, k: nat, c: Clause, start: bool, ctx: Index, gen: nat) returns (j: nat)
    requires k < |was| && c.created > gen
    requires now == was || (now != [] && (if start then now[0].clause == c && now[1..] == was
                                          else now[|now| - 1].clause == c && now[..|now| - 1] == was))
    ensures j < |now| && now[j] == was[k] && Selected(ClausesOf(now)[j..], ctx, gen) == Selected(ClausesOf(was)[k..], ctx, gen)
  {
    hide Selected, Match;
    if now == was {
      j := k;
    } else if start {
      j := k + 1;
      assert ClausesOf(now)[j..] == ClausesOf(was)[k..];
    } else {
      j := k;
      assert ClausesOf(now)[j..] == ClausesOf(was)[k..] + [c];
      SelectedLast(ClausesOf(was)[k..], c, ctx, gen);
    }
  }

  predicate Allowed(u: Update, def: Definition) {
    u.Assert? && def.hash != null ==> Simple(u.index)
  }

  ghost predicate IsChain(def: Definition, chain: ClauseChain) {
    chain == def.clauses || chain in Entries(def)
  }

  /** What a goal still finds that is to go on at place k of a chain. */
  ghost function Remaining(chain: ClauseChain, k: nat, ctx: Index, gen: nat): seq<Clause>
    reads chain, chain.Clauses()
  {
    if k <= |chain.refs| then Selected(chain.Clauses()[k..], ctx, gen) else []
  }

  /** The goal is to go on at cell next. */
  ghost predicate GoesOn(chain: ClauseChain, k: nat, next: ClauseRef)
    reads chain
  {
    k < |chain.refs| && chain.refs[k] == next
  }

  method AssertLater(def: Definition, index: Index, start: bool, generation: nat, next: ClauseRef,
      ghost chain: ClauseChain, ghost k: nat, ghost ctx: Index, ghost gen: nat)
    returns (ghost j: nat)
    requires Open(def) && (def.hash != null ==> Simple(index)) && IsChain(def, chain) && gen < generation && GoesOn(chain, k, next)
    modifies def.clauses, def.clauses.refs, Table(def), Entries(def), TableCells(def)
    ensures Open(def) == true && Grows(def) && GoesOn(chain, j, next)
    ensures Remaining(chain, j, ctx, gen) == old(Remaining(chain, k, ctx, gen))
  {
    hide Selected, Match, Linked, Open;
    ghost var was := chain.refs;
    var c := AssertClause(def, index, start, generation);
    j := Shifted(was, chain.refs, k, c, start, ctx, gen);
  }

  method RetractLater(def: Definition, c: Clause, generation: nat, next: ClauseRef,
      ghost chain: ClauseChain, ghost k: nat, ghost ctx: Index, ghost gen: nat)
    requires Open(def) && c in def.clauses.Clauses() && IsChain(def, chain) && gen < generation && gen < FOREVER && GoesOn(chain, k, next)
    modifies c, Table(def), Entries(def)
    ensures Open(def) == true && Grows(def) && GoesOn(chain, k, next)
    ensures Remaining(chain, k, ctx, gen) == old(Remaining(chain, k, ctx, gen))
  {
    assert c.dead || c.erased == FOREVER;
    ghost var rest := chain.Clauses()[k..];
    hide Selected, Match, Linked, Open, ClausesOf;
    RetractClause(def, c, generation);
    StillSelected(Query(rest, ctx, gen));
  }

  /** The clause of a chain at this distance from a cell, if there is one. */
  function Nth(cref: ClauseRef?, place: nat, ghost refs: seq<ClauseRef>, ghost i: nat): (c: Clause?)
    requires Cursor(cref, refs, i)
    reads refs
    ensures c == if i + place < |refs| then ClausesOf(refs)[i + place] else null
    decreases place
  {
    if cref == null then null
    else if place == 0 then cref.clause
    else
      assert Cursor(cref.next, refs, i + 1) by { Follow(cref, refs, i); }
      Nth(cref.next, place - 1, refs, i + 1)
  }

  method RetractNth(def: Definition, place: nat, generation: nat, next: ClauseRef,
      ghost chain: ClauseChain, ghost k: nat, ghost ctx: Index, ghost gen: nat)
    requires Open(def) && IsChain(def, chain) && gen < generation && gen < FOREVER && GoesOn(chain, k, next)
    modifies Table(def), Entries(def), def.clauses.Clauses()
    ensures Open(def) == true && Grows(def) && GoesOn(chain, k, next)
    ensures Remaining(chain, k, ctx, gen) == old(Remaining(chain, k, ctx, gen))
  {
    var c := Nth(def.clauses.head, place, def.clauses.refs, 0);
    hide Selected, Match, Linked, Remaining, Open;
    if c != null {
      RetractLater(def, c, generation, next, chain, k, ctx, gen);
    }
  }

  method ApplyUpdate(def: Definition, u: Update, generation: nat, next: ClauseRef,
      ghost chain: ClauseChain, ghost k: nat, ghost ctx: Index, ghost gen: nat)
    returns (ghost j: nat)
    requires Open(def) && Allowed(u, def) && IsChain(def, chain) && gen < generation && gen < FOREVER && GoesOn(chain, k, next)
    modifies def.clauses, def.clauses.refs, Table(def), Entries(def), TableCells(def), def.clauses.Clauses()
    ensures Open(def) == true && Grows(def) && GoesOn(chain, j, next)
    ensures Remaining(chain, j, ctx, gen) == old(Remaining(chain, k, ctx, gen))
  {
    hide Selected, Match, Linked, Remaining, Open, ClausesOf, TableCells;
    match u {
      case Assert(index, start) =>
        j := AssertLater(def, index, start, generation, next, chain, k, ctx, gen);
      case Retract(place) =>
        j := k;
        RetractNth(def, place, generation, next, chain, k, ctx, gen);
    }
  }

  /** Updates while a goal is to go on at cell next: each has a generation of its own. */
  method ApplyAll(def: Definition, us: seq<Update>, generation: nat, next: ClauseRef,
      ghost chain: ClauseChain, ghost k: nat, ghost ctx: Index, ghost gen: nat)
    returns (now: nat, ghost j: nat)
    requires Open(def) && (forall u :: u in us ==> Allowed(u, def)) && IsChain(def, chain) && gen <= generation && gen < FOREVER
    requires GoesOn(chain, k, next)
    modifies def.clauses, def.clauses.refs, Table(def), Entries(def), TableCells(def), def.clauses.Clauses()
    ensures Open(def) == true && Grows(def) && GoesOn(chain, j, next) && now >= generation
    ensures Remaining(chain, j, ctx, gen) == old(Remaining(chain, k, ctx, gen))
  {
    hide Selected, Match, Linked, Remaining, Open, Allowed;
    now, j := generation, k;
    for i := 0 to |us|
      invariant Open(def) == true && Grows(def) && GoesOn(chain, j, next) && now >= generation
      invariant Remaining(chain, j, ctx, gen) == old(Remaining(chain, k, ctx, gen))
    {
      now := now + 1;
      GrownCells(def);
      j := ApplyUpdate(def, us[i], now, next, chain, j, ctx, gen);
    }
  }

  lemma OpenCursor(def: Definition, chain: ClauseChain, k: nat, next: ClauseRef)
    requires Open(def) && IsChain(def, chain) && GoesOn(chain, k, next)
    ensures Cursor(next, chain.refs, k) == true
  {
    hide Linked, ClauseIndex.Counts, ClauseIndex.Holds, Lasting, Distinct, AllSimple;
    if chain != def.clauses {
      var b: nat :| b < |def.hash.entries| && def.hash.entries[b] == chain;
      assert chain.Valid();
    }
    ChainLinked(chain);
  }

  lemma ChainLinked(chain: ClauseChain)
    requires chain.Valid() == true
    ensures Linked(At(chain.refs, 0), chain.refs)
  {
  }

  /** What a clause that was found leaves to be found. */
  lemma FoundRemaining(chain: ClauseChain, i: nat, ctx: Index, gen: nat, result: ClauseRef?, next: ClauseRef?, exact: bool) returns (k: nat)
    requires i <= |chain.refs| && Linked(At(chain.refs, 0), chain.refs) && Found(chain.refs, i, ctx, gen, result, next, exact) == true
    ensures result == null ==> Remaining(chain, i, ctx, gen) == []
    ensures result != null ==>
              && Remaining(chain, i, ctx, gen) == [result.clause] + Remaining(chain, k, ctx, gen)
              && (if next == null then Remaining(chain, k, ctx, gen) == [] else GoesOn(chain, k, next))
  {
    hide Linked, Selected, ClausesOf, Found;
    k := FoundRest(chain.refs, i, ctx, gen, result, next, exact);
    if result != null {
      CursorGoesOn(next, chain.refs, k);
    }
  }

  lemma CursorGoesOn(next: ClauseRef?, refs: seq<ClauseRef>, k: nat)
    requires Cursor(next, refs, k) == true
    ensures next != null ==> k < |refs| && refs[k] == next
  {
    hide Linked;
  }

  lemma AllRemaining(chain: ClauseChain, ctx: Index, gen: nat)
    ensures Remaining(chain, 0, ctx, gen) == Selected(chain.Clauses(), ctx, gen)
  {
    assert chain.Clauses()[0..] == chain.Clauses();
  }

  /** The clause that was found, and those that are still to be found. */
  ghost function Rest(chain: ClauseChain, result: ClauseRef?, k: nat, ctx: Index, gen: nat): seq<Clause>
    reads chain, chain.Clauses()
  {
    if result == null then [] else [result.clause] + Remaining(chain, k, ctx, gen)
  }

  ghost predicate Waits(chain: ClauseChain, k: nat, next: ClauseRef?, ctx: Index, gen: nat)
    reads chain, chain.Clauses()
  {
    if next == null then Remaining(chain, k, ctx, gen) == [] else GoesOn(chain, k, next)
  }

  /** The goal goes on, in a state in which its predicate has been updated. */
  method Retry(def: Definition, argv: seq<Word>, gen: nat, next: ClauseRef, ghost chain: ClauseChain, ghost i: nat)
    returns (result: ClauseRef?, more: ClauseRef?, ghost k: nat)
    requires Open(def) == true && Fits(def.indexing, argv) && IsChain(def, chain) && GoesOn(chain, i, next)
    ensures Open(def) == true && Grows(def)
    ensures var ctx := GoalIndex(def.indexing, argv);
            Rest(chain, result, k, ctx, gen) == old(Remaining(chain, i, ctx, gen)) && (result != null ==> Waits(chain, k, more, ctx, gen))
  {
    hide Linked, Selected, Found, GoalIndex, Fits, Exact, Cursor;
    assert allocated(def.clauses.refs);
    assert allocated(Entries(def));
    assert allocated(TableCells(def));
    assert allocated(def.clauses.Clauses());
    assert allocated(chain.Clauses());
    hide *;
    ghost var ctx := GoalIndex(def.indexing, argv);
    OpenCursor(def, chain, i, next);
    result, more := FindClause(def.indexing, next, argv, gen, chain.refs, i);
    k := FoundRemaining(chain, i, ctx, gen, result, more, Exact(def.indexing, argv));
  }

  /** The goal begins. */
  method Begin(def: Definition, argv: seq<Word>, gen: nat)
    returns (result: ClauseRef?, more: ClauseRef?, ghost chain: ClauseChain, ghost k: nat)
    requires Open(def) == true && Fits(def.indexing, argv)
    ensures Open(def) == true && Grows(def) && IsChain(def, chain)
    ensures var ctx := GoalIndex(def.indexing, argv);
            && Rest(chain, result, k, ctx, gen) == old(Selected(def.clauses.Clauses(), ctx, gen))
            && (result != null ==> Waits(chain, k, more, ctx, gen))
  {
    assert allocated(def.clauses.refs);
    assert allocated(Entries(def));
    assert allocated(TableCells(def));
    assert allocated(def.clauses.Clauses());
    OpenReady(def);
    hide Linked, Selected, Ready, Found, GoalIndex, Fits, Exact, Open, Remaining, Cursor, ClausesOf, TableCells, Waits;
    ghost var ctx := GoalIndex(def.indexing, argv);
    result, more, chain := FirstClause(def, argv, gen);
    k := FoundRemaining(chain, 0, ctx, gen, result, more, ctx.varmask != 0);
    AllRemaining(chain, ctx, gen);
  }

  /** Updates, and then the goal goes on. */
  method Round(def: Definition, argv: seq<Word>, gen: nat, us: seq<Update>, generation: nat, next: ClauseRef, ghost chain: ClauseChain, ghost k: nat)
    returns (now: nat, result: ClauseRef?, more: ClauseRef?, ghost j: nat)
    requires Open(def) == true && Fits(def.indexing, argv) && (forall u :: u in us ==> Allowed(u, def)) && IsChain(def, chain)
    requires gen <= generation && gen < FOREVER && GoesOn(chain, k, next)
    modifies def.clauses, def.clauses.refs, Table(def), Entries(def), TableCells(def), def.clauses.Clauses()
    ensures Open(def) == true && Grows(def) && now >= generation
    ensures var ctx := GoalIndex(def.indexing, argv);
            Rest(chain, result, j, ctx, gen) == old(Remaining(chain, k, ctx, gen)) && (result != null ==> Waits(chain, j, more, ctx, gen))
  {
    hide Linked, Selected, GoalIndex, Fits, Open, Remaining, Rest, Waits, Allowed, ClausesOf, TableCells;
    now, j := ApplyAll(def, us, generation, next, chain, k, GoalIndex(def.indexing, argv), gen);
    result, more, j := Retry(def, argv, gen, next, chain, j);
  }

  /** A goal is tried with the clauses that were there when it was called (ISO/IEC 13211-1, section
      7.5.4), each once and in order, whatever is added in front or behind and retracted after each
      of them. */
  method LogicalUpdateView(def: Definition, argv: seq<Word>, gen: nat, updates: seq<seq<Update>>) returns (found: seq<Clause>)
    requires Open(def) == true && Fits(def.indexing, argv) && gen < FOREVER
    requires forall us :: us in updates ==> forall u :: u in us ==> Allowed(u, def)
    modifies def.clauses, def.clauses.refs, Table(def), Entries(def), TableCells(def), def.clauses.Clauses()
    ensures Open(def) == true && Grows(def)
    ensures found == old(Selected(def.clauses.Clauses(), GoalIndex(def.indexing, argv), gen))
  {
    hide Linked, Selected, GoalIndex, Fits, Open, Remaining, Rest, Waits, GoesOn, IsChain, Allowed, ClausesOf, TableCells;
    ghost var all := Selected(def.clauses.Clauses(), GoalIndex(def.indexing, argv), gen);
    ghost var ctx := GoalIndex(def.indexing, argv);
    var result, next, chain, k := Begin(def, argv, gen);
    var generation, round := gen, 0;
    found := [];
    while result != null
      invariant Open(def) == true && Grows(def) && generation >= gen && IsChain(def, chain) == true
      invariant found + Rest(chain, result, k, ctx, gen) == all && (result != null ==> Waits(chain, k, next, ctx, gen) == true)
      decreases |all| - |found|, if result != null then 1 else 0
    {
      RestIs(found, chain, result, k, next, ctx, gen);
      found := found + [result.clause];
      if next == null {
        return;
      }
      var us := if round < |updates| then updates[round] else [];
      assert us in updates || us == [];
      GrownCells(def);
      generation, result, next, k := Round(def, argv, gen, us, generation, next, chain, k);
      round := round + 1;
    }
    NoRest(found, chain, k, ctx, gen);
  }

  lemma NoRest(found: seq<Clause>, chain: ClauseChain, k: nat, ctx: Index, gen: nat)
    ensures found + Rest(chain, null, k, ctx, gen) == found
  {
  }

  lemma RestIs(found: seq<Clause>, chain: ClauseChain, result: ClauseRef, k: nat, next: ClauseRef?, ctx: Index, gen: nat)
    requires Waits(chain, k, next, ctx, gen)
    ensures var now := found + [result.clause];
            && found + Rest(chain, result, k, ctx, gen) == now + Remaining(chain, k, ctx, gen)
            && |found + Rest(chain, result, k, ctx, gen)| > |found|
            && (if next == null then now + Remaining(chain, k, ctx, gen) == now else GoesOn(chain, k, next) == true)
  {
    hide Selected, ClausesOf;
  }
}
