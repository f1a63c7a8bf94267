/** Prolog terms on the stacks: what pointers lead to, and which cells a cell reaches. */
module Terms {
  import opened Words
  import opened GlobalStack

  /** The stacks, the objects of the global stack, and for each argument cell of a compound
      term the cell that holds the functor. */
  datatype Heap = Heap(mem: Memory, objs: seq<int>, owner: map<int, int>)

  /** A word that a variable or an argument of a term may hold. */
  predicate IsValue(w: Word) {
    !w.Functor? && !w.Header?
  }

  ghost predicate FunctorAt(h: Heap, f: int) {
    IsObject(h.objs, f) && 0 <= f < |h.mem| && h.mem[f].word.Functor?
  }

  /** The pointer held by a cell leads to an object of the kind that its tag promises. */
  ghost predicate PointsRight(h: Heap, w: Word)
    requires |h.objs| >= 2
  {
    w.Ptr? ==>
      && IsObject(h.objs, w.addr) && w.addr < |h.mem| && w.addr < h.objs[|h.objs| - 2]
      && match w.tag
         case Address => false
         case Reference => IsValue(h.mem[w.addr].word)
         case Compound => h.mem[w.addr].word.Functor?
         case _ => h.mem[w.addr].word.Header?
  }

  ghost predicate ArgumentsOwned(h: Heap) {
    && (forall f, x {:trigger FunctorAt(h, f), x in h.owner} ::
          FunctorAt(h, f) && f < x <= f + h.mem[f].word.arity ==> x in h.owner && h.owner[x] == f)
    && (forall x {:trigger x in h.owner} :: x in h.owner ==>
          var f := h.owner[x];
          FunctorAt(h, f) && f < x <= f + h.mem[f].word.arity && IsObject(h.objs, x) && x < |h.mem| && IsValue(h.mem[x].word)
          && |h.objs| >= 2 && x < h.objs[|h.objs| - 2])
  }

  ghost predicate ObjectOk(h: Heap, a: int)
    requires |h.objs| >= 2
  {
    && 0 <= a < |h.mem| && !h.mem[a].first
    && (h.mem[a].word.Functor? ==> h.mem[a].word.arity >= 1)
    && PointsRight(h, h.mem[a].word)
    && (h.mem[a].word.Ptr? ==> h.mem[a].word.addr != a)
  }

  ghost predicate WellFormed(h: Heap) {
    && Laid(h.mem, h.objs)
    && ArgumentsOwned(h)
    && (forall a {:trigger IsObject(h.objs, a)} :: IsObject(h.objs, a) ==> ObjectOk(h, a))
  }

  type SoundHeap = h: Heap | WellFormed(h)
    ghost witness Heap([Cell(Var, false, false)], [0, 1], map[])

  /** Cell x leads directly to cell y: through its pointer, or as the functor of a term to the
      arguments. */
  ghost predicate Edge(h: Heap, x: int, y: int) {
    && 0 <= x < |h.mem|
    && match h.mem[x].word
       case Ptr(_, addr) => y == addr
       case Functor(_, arity) => x < y <= x + arity
       case _ => false
  }

  ghost predicate ReachIn(h: Heap, s: int, x: int, n: nat)
    decreases n
  {
    if n == 0 then x == s else exists y :: ReachIn(h, s, y, n - 1) && Edge(h, y, x)
  }

  ghost predicate Reach(h: Heap, s: int, x: int) {
    exists n: nat :: ReachIn(h, s, x, n)
  }

  lemma ReachStep(h: Heap, s: int, x: int, y: int)
    requires Reach(h, s, x) && Edge(h, x, y)
    ensures Reach(h, s, y)
  {
    var n: nat :| ReachIn(h, s, x, n);
    assert ReachIn(h, s, y, n + 1);
  }

  lemma ReachSelf(h: Heap, s: int)
    ensures Reach(h, s, s)
  {
    assert ReachIn(h, s, s, 0);
  }

  /** A set of cells that is closed under Edge and holds s holds everything s reaches. */
  lemma {:induction false} ReachClosed(h: Heap, s: int, x: int, n: nat, closed: iset<int>)
    requires s in closed && ReachIn(h, s, x, n)
    requires forall a, b :: a in closed && Edge(h, a, b) ==> b in closed
    ensures x in closed
    decreases n
  {
    if n > 0 {
      var y :| ReachIn(h, s, y, n - 1) && Edge(h, y, x);
      ReachClosed(h, s, y, n - 1, closed);
    }
  }
}
