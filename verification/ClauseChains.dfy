/** Chains of clauses: the buckets of a clause index and the clause list of a predicate
    (pl-index.c, appendClauseChain() to gcClauseChain()). */
module ClauseChains {
  import opened IndexKeys

  class Clause {
    const index: Index
    const created: nat
    var erased: nat        // the generation that erased it
    var dead: bool         // ERASED

    constructor (index: Index, created: nat, erased: nat)
      ensures this.index == index && this.created == created && this.erased == erased && !dead
    {
      this.index, this.created, this.erased, dead := index, created, erased, false;
    }

    predicate Visible(gen: nat)
      reads this
    {
      created <= gen < erased
    }
  }

  class ClauseRef {
    const clause: Clause
    ghost const home: ClauseChain      // the chain that the cell is in
    var next: ClauseRef?

    constructor (clause: Clause, ghost home: ClauseChain)
      ensures this.clause == clause && next == null && this.home == home
    {
      this.clause, next := clause, null;
      this.home := home;
    }
  }

  /** The cell at place i, or none behind the last one. */
  ghost function At(refs: seq<ClauseRef>, i: nat): ClauseRef? {
    if i < |refs| then refs[i] else null
  }

  /** The cells from head on are refs. */
  ghost predicate Linked(head: ClauseRef?, refs: seq<ClauseRef>)
    reads refs
  {
    && head == At(refs, 0)
    && (forall i {:trigger refs[i].next} :: 0 <= i < |refs| ==> refs[i].next == At(refs, i + 1))
    && (forall i, j :: 0 <= i < j < |refs| ==> refs[i] != refs[j])
  }

  ghost function ClausesOf(refs: seq<ClauseRef>): (s: seq<Clause>)
    ensures |s| == |refs|
  {
    seq(|refs|, i requires 0 <= i < |refs| => refs[i].clause)
  }

  /** s without c */
  ghost function Minus(s: seq<Clause>, c: Clause): seq<Clause> {
    if s == [] then []
    else
      var n := |s| - 1;
      Minus(s[..n], c) + if s[n] == c then [] else [s[n]]
  }

  ghost function Alive(s: seq<Clause>): seq<Clause>
    reads s
  {
    if s == [] then [] else (if s[0].dead then [] else [s[0]]) + Alive(s[1..])
  }

  ghost function DeadCount(s: seq<Clause>): nat
    reads s
  {
    if s == [] then 0 else (if s[0].dead then 1 else 0) + DeadCount(s[1..])
  }

  ghost predicate Distinct(s: seq<Clause>) {
    forall i, j :: 0 <= i < j < |s| ==> s[i] != s[j]
  }

  class ClauseChain {
    var head: ClauseRef?
    var tail: ClauseRef?
    var dirty: int
    ghost var refs: seq<ClauseRef>

    ghost predicate Valid()
      reads this, refs
    {
      && Linked(head, refs)
      && (tail == if refs == [] then null else refs[|refs| - 1])
      && (forall r :: r in refs ==> r.home == this)
    }

    ghost function Clauses(): seq<Clause>
      reads this
    {
      ClausesOf(refs)
    }

    constructor ()
      ensures Valid() && refs == [] && dirty == 0
    {
      head, tail, dirty, refs := null, null, 0, [];
    }

    /** There is no cell more, or one for c at this end. */
    twostate predicate Longer(new c: Clause, start: bool)
      reads this
    {
      || refs == old(refs)
      || (refs != [] && (if start then refs[0].clause == c && refs[1..] == old(refs)
                         else refs[|refs| - 1].clause == c && refs[..|refs| - 1] == old(refs)))
    }

    method LinkLast(cr: ClauseRef)
      requires Valid() && tail != null && cr.home == this && cr.next == null && cr !in refs
      modifies this`tail, this`refs, tail
      ensures Valid() == true && refs == old(refs) + [cr]
    {
      ghost var was := refs;
      tail.next := cr;
      tail := cr;
      refs := was + [cr];
      assert forall i :: 0 <= i < |was| ==> refs[i] == was[i];
    }

    method LinkFirst(cr: ClauseRef)
      requires Valid() && tail != null && cr.home == this && cr !in refs
      modifies this`head, this`refs, cr
      ensures Valid() == true && refs == [cr] + old(refs)
    {
      ghost var was := refs;
      cr.next := head;
      head := cr;
      refs := [cr] + was;
      assert forall i :: 0 <= i < |was| ==> refs[i + 1] == was[i];
    }

    /** pl-index.c, appendClauseChain() */
    method Append(c: Clause, start: bool)
      requires Valid()
      modifies this, refs
      ensures Valid() && dirty == old(dirty) && Longer(c, start)
      ensures Clauses() == if start then [c] + old(Clauses()) else old(Clauses()) + [c]
      ensures forall r :: r in refs ==> r in old(refs) || fresh(r)
    {
      hide ClausesOf;
      var cr := new ClauseRef(c, this);
      ghost var was := refs;
      if tail == null {
        head, tail := cr, cr;
        refs := [cr];
        assert [cr] + was == refs == was + [cr];
      } else if !start {
        LinkLast(cr);
      } else {
        LinkFirst(cr);
      }
      assert ([cr] + was)[1..] == was && (was + [cr])[..|was|] == was;
      MoreClauses(was, cr);
    }

    lemma HeadIs()
      requires Valid() == true
      ensures head == At(refs, 0)
    {
    }

    lemma ClausesAre()
      ensures Clauses() == ClausesOf(refs)
    {
    }

    method ClearDirty()
      requires Valid() == true
      modifies this`dirty
      ensures Valid() == true && dirty == 0
    {
      dirty := 0;
    }

    lemma NextOf(i: nat)
      requires Valid() == true && i < |refs|
      ensures refs[i].next == At(refs, i + 1)
    {
    }

    /** Unlinks the cell at place i, behind prev. */
    method Unlink(prev: ClauseRef?, c: ClauseRef, ghost i: nat)
      requires Valid() == true && i < |refs| && refs[i] == c && prev == (if i == 0 then null else refs[i - 1])
      modifies this`head, this`tail, this`refs, prev
      ensures Valid() == true && refs == old(refs[..i] + refs[i + 1..])
    {
      ghost var was := refs;
      refs := was[..i] + was[i + 1..];
      assert c.next == At(was, i + 1);
      assert forall k :: 0 <= k < i ==> refs[k] == was[k];
      assert forall k :: i <= k < |refs| ==> refs[k] == was[k + 1];
      if prev == null {
        head := c.next;
        if c.next == null {
          tail := null;
        }
      } else {
        prev.next := c.next;
        if c.next == null {
          tail := prev;
        }
      }
      assert forall k {:trigger refs[k].next} :: 0 <= k < |refs| ==> refs[k].next == At(refs, k + 1);
    }

    /** pl-index.c, deleteClauseChain() */
    method Delete(clause: Clause)
      requires Valid() && Distinct(Clauses())
      modifies this`head, this`tail, this`refs, refs
      ensures Valid() && Clauses() == Minus(old(Clauses()), clause)
      ensures forall r :: r in refs ==> r in old(refs)
    {
      var prev: ClauseRef?, c := null, head;
      ghost var i := 0;
      ghost var was := refs;
      ghost var gone := false;
      while c != null
        invariant 0 <= i <= |was| && c == At(was, i)
        invariant Valid() && (forall r :: r in refs ==> r in was)
        invariant gone ==> clause !in ClausesOf(was)[i..] && Linked2(was, i)
        invariant !gone ==> refs == was && clause !in ClausesOf(was)[..i] && prev == (if i == 0 then null else was[i - 1])
        invariant gone ==> ClausesOf(refs) == Minus(ClausesOf(was), clause)
        decreases |was| - i
      {
        assert c.clause == ClausesOf(was)[i];
        assert gone ==> c.clause == ClausesOf(was)[i..][0];
        if c.clause == clause {
          OneLess(was, i, clause);
          Unlink(prev, c, i);
          gone := true;
        }
        prev := c;
        c := c.next;
        i := i + 1;
      }
      NothingLess(ClausesOf(was), clause);
    }

    /** pl-index.c, gcClauseChain(): removes all erased clauses (left < 0), or as many as are
        known to be there. */
    method Gc(left: int) returns (deleted: nat)
      requires Valid() == true
      requires left < 0 || (left == DeadCount(Clauses()) && forall c :: c in Clauses() && c.dead ==> c.index.varmask != 0)
      modifies this, refs
      ensures Valid() == true && Clauses() == old(Alive(Clauses())) && dirty == 0
      ensures deleted == if left < 0 then 0 else left
      ensures forall r :: r in refs ==> r in old(refs)
    {
      hide *;
      var cref, prev: ClauseRef?, n := head, null, left;
      ghost var rest, a: seq<ClauseRef> := refs, [];
      ghost var marks := Marks(refs);
      ghost var all := Kept(rest, marks);
      deleted := 0;
      HeadIs();
      ClausesAre();
      StartKept(rest, marks);
      assert a + rest == rest && a + all == all;
      while cref != null && n != 0
        invariant |rest| == |marks| && Valid() == true && refs == a + rest && a + Kept(rest, marks) == all
        invariant cref == At(rest, 0) && prev == (if a == [] then null else a[|a| - 1])
        invariant left < 0 ==> n < 0 && deleted == 0
        invariant left >= 0 ==> n >= 0 && deleted + n == left && Count(marks) == n
        invariant forall r :: r in a || r in rest ==> r in old(refs)
        invariant forall k :: 0 <= k < |rest| ==> rest[k].clause.dead == marks[k]
        decreases |rest|
      {
        AtIs(rest);
        Split(a, rest);
        NextOf(|a|);
        KeptStep(a, rest, marks);
        if cref.clause.dead {
          var c := cref;
          if n > 0 {
            deleted := deleted + 1;
            n := n - 1;
          }
          cref := cref.next;
          assert prev != null ==> prev in a;
          Unlink(prev, c, |a|);
        } else {
          prev := cref;
          cref := cref.next;
          a := a + [rest[0]];
        }
        rest, marks := rest[1..], marks[1..];
      }
      ClearDirty();
      AtIs(rest);
      KeptAll(rest, marks);
      ClausesAre();
    }
  }

  lemma MoreClauses(refs: seq<ClauseRef>, cr: ClauseRef)
    ensures ClausesOf([cr] + refs) == [cr.clause] + ClausesOf(refs) && ClausesOf(refs + [cr]) == ClausesOf(refs) + [cr.clause]
  {
  }

  lemma Split(a: seq<ClauseRef>, rest: seq<ClauseRef>)
    requires rest != []
    ensures var s := a + rest;
            && |s| > |a| && s[|a|] == rest[0] && (a != [] ==> s[|a| - 1] == a[|a| - 1])
            && s[..|a|] + s[|a| + 1..] == a + rest[1..] && At(s, |a| + 1) == At(rest[1..], 0)
            && s == a + [rest[0]] + rest[1..]
  {
  }

  lemma AtIs(refs: seq<ClauseRef>)
    ensures At(refs, 0) == null <==> refs == []
    ensures refs != [] ==> At(refs, 0) == refs[0]
  {
  }

  // ---------- the cells whose clauses are not erased

  ghost function Marks(refs: seq<ClauseRef>): (m: seq<bool>)
    reads ClausesOf(refs)
    ensures |m| == |refs| && forall k :: 0 <= k < |m| ==> ClausesOf(refs)[k].dead == m[k]
    ensures forall k :: 0 <= k < |m| ==> refs[k].clause.dead == m[k]
  {
    var s := ClausesOf(refs);
    seq(|s|, i requires 0 <= i < |s| reads s => s[i].dead)
  }

  ghost function Kept(refs: seq<ClauseRef>, marks: seq<bool>): seq<ClauseRef>
    requires |refs| == |marks|
  {
    if refs == [] then [] else (if marks[0] then [] else [refs[0]]) + Kept(refs[1..], marks[1..])
  }

  ghost function Count(marks: seq<bool>): nat {
    if marks == [] then 0 else (if marks[0] then 1 else 0) + Count(marks[1..])
  }

  lemma {:induction false} CountMarks(s: seq<Clause>, marks: seq<bool>)
    requires |s| == |marks| && forall k :: 0 <= k < |s| ==> s[k].dead == marks[k]
    ensures Count(marks) == DeadCount(s)
    decreases |s|
  {
    if s != [] {
      CountMarks(s[1..], marks[1..]);
    }
  }

  lemma {:induction false} KeptClauses(refs: seq<ClauseRef>, marks: seq<bool>)
    requires |refs| == |marks| && forall k :: 0 <= k < |refs| ==> refs[k].clause.dead == marks[k]
    ensures ClausesOf(Kept(refs, marks)) == Alive(ClausesOf(refs))
    decreases |refs|
  {
    if refs != [] {
      KeptClauses(refs[1..], marks[1..]);
      assert ClausesOf(refs)[1..] == ClausesOf(refs[1..]);
    }
  }

  lemma {:induction false} StartKept(refs: seq<ClauseRef>, marks: seq<bool>)
    requires marks == Marks(refs)
    ensures Count(marks) == DeadCount(ClausesOf(refs)) && ClausesOf(Kept(refs, marks)) == Alive(ClausesOf(refs))
  {
    CountMarks(ClausesOf(refs), marks);
    KeptClauses(refs, marks);
  }

  lemma {:induction false} KeptStep(a: seq<ClauseRef>, refs: seq<ClauseRef>, marks: seq<bool>)
    requires |refs| == |marks| && refs != []
    ensures a + Kept(refs, marks) == (if marks[0] then a else a + [refs[0]]) + Kept(refs[1..], marks[1..])
    ensures Count(marks) == Count(marks[1..]) + if marks[0] then 1 else 0
  {
    var one := if marks[0] then [] else [refs[0]];
    var rest := Kept(refs[1..], marks[1..]);
    assert Kept(refs, marks) == one + rest;
    hide Kept;
    assert a + (one + rest) == (a + one) + rest;
    assert a + [] == a;
  }

  /** With no more erased clauses, the others stay. */
  lemma {:induction false} KeptAll(refs: seq<ClauseRef>, marks: seq<bool>)
    requires |refs| == |marks|
    ensures refs == [] ==> Count(marks) == 0
    ensures Count(marks) == 0 ==> Kept(refs, marks) == refs
    decreases |refs|
  {
    if refs != [] {
      KeptAll(refs[1..], marks[1..]);
    }
  }

  /** The cells from place i on are still linked. */
  ghost predicate Linked2(refs: seq<ClauseRef>, i: nat)
    reads refs
  {
    forall k {:trigger refs[k].next} :: i <= k < |refs| ==> refs[k].next == At(refs, k + 1)
  }

  lemma {:induction false} NothingLess(s: seq<Clause>, c: Clause)
    ensures c !in s ==> Minus(s, c) == s
    decreases |s|
  {
    if s != [] {
      NothingLess(s[..|s| - 1], c);
    }
  }

  lemma {:induction false} MinusJoins(s: seq<Clause>, t: seq<Clause>, c: Clause)
    ensures Minus(s + t, c) == Minus(s, c) + Minus(t, c)
    decreases |t|
  {
    if t == [] {
      assert s + t == s;
    } else {
      var n := |t| - 1;
      assert (s + t)[..|s + t| - 1] == s + t[..n];
      MinusJoins(s, t[..n], c);
    }
  }

  lemma {:induction false} OneClauseLess(x: seq<Clause>, y: seq<Clause>, c: Clause)
    requires c !in x && c !in y
    ensures Minus(x + [c] + y, c) == x + y
  {
    assert Minus([c], c) == [] by { assert [c][..0] == []; }
    hide *;
    MinusJoins(x + [c], y, c);
    MinusJoins(x, [c], c);
    NothingLess(x, c);
    NothingLess(y, c);
    assert x + [] == x;
  }

  lemma CutClauses(refs: seq<ClauseRef>, i: nat)
    requires i < |refs|
    ensures var s := ClausesOf(refs);
            s == s[..i] + [refs[i].clause] + s[i + 1..] && ClausesOf(refs[..i] + refs[i + 1..]) == s[..i] + s[i + 1..]
  {
  }

  lemma {:induction false} OneLess(refs: seq<ClauseRef>, i: nat, c: Clause)
    requires i < |refs| && refs[i].clause == c && Distinct(ClausesOf(refs))
    ensures ClausesOf(refs[..i] + refs[i + 1..]) == Minus(ClausesOf(refs), c)
    ensures c !in ClausesOf(refs)[i + 1..]
  {
    var s := ClausesOf(refs);
    assert s[i] == c;
    assert c !in s[..i] && c !in s[i + 1..];
    hide *;
    CutClauses(refs, i);
    OneClauseLess(s[..i], s[i + 1..], c);
  }
}
