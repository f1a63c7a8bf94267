/** The mark phase (pl-gc.c, mark_phase()): everything the frames, the term references and the
    trail lead to is marked, variables that backtracking resets anyway are reset, and the saved
    trail tops are threaded. */
module MarkPhase {
  import opened Words
  import opened GlobalStack
  import opened Terms
  import opened Relocation
  import opened Marking
  import opened Stacks

  lemma SourceStartable(y: Layout, l: Memory, s: int)
    requires StacksOk(y, l) && Source(y, l, s) && !l[s].mark
    ensures Startable(HeapOf(y, l), s) == true && WellFormed(HeapOf(y, l))
    ensures IsObject(y.objs, s) <==> s in y.saved
  {
    if s in y.saved {
      assert ObjectOk(HeapOf(y, l), s);
    } else {
      assert SlotOk(y, l, s);
      SlotOutside(y, l, s);
    }
  }

  lemma RootMarkedMore(y: Layout, l: Memory, k: Memory, s: int)
    requires StacksOk(y, l) && Source(y, l, s) && WellFormed(HeapOf(y, l)) && MarkedFrom(HeapOf(y, l), s, k)
    ensures MarkedMore(y, l, k) == true
    ensures Marked(k, s)
    ensures forall a {:trigger Slot(y, a)} :: Slot(y, a) && a != s ==> Marked(k, a) == Marked(l, a)
  {
    var h := HeapOf(y, l);
    hide WellFormed, Reach, IsObject;
    forall a {:trigger k[a]} | 0 <= a < |l|
      ensures k[a] == l[a].(mark := k[a].mark) && (l[a].mark ==> k[a].mark)
      ensures k[a].mark && !l[a].mark ==> (IsObject(y.objs, a) && a < GTop(y)) || Slot(y, a)
    {
      if Fresh(h, k, a) {
        ReachInside(y, l, s, a);
      }
    }
    forall a {:trigger Slot(y, a)} | Slot(y, a) && a != s
      ensures Marked(k, a) == Marked(l, a)
    {
      SlotOutside(y, l, a);
      if Fresh(h, k, a) {
        ReachInside(y, l, s, a);
      }
    }
  }

  /** What mark_variable() does to the stacks. */
  lemma RootMarked(y: Layout, l: Memory, k: Memory, s: int)
    requires StacksOk(y, l) == true && Source(y, l, s) && WellFormed(HeapOf(y, l)) && MarkedFrom(HeapOf(y, l), s, k) == true
    requires Closed(y, l) == true && SlotsClosed(y, l) == true && Rooted(y, l) == true
    ensures MarkedMore(y, l, k) == true
    ensures Closed(y, k) == true && SlotsClosed(y, k) == true && Rooted(y, k) == true
    ensures Marked(k, s)
    ensures forall a {:trigger Slot(y, a)} :: Slot(y, a) && a != s ==> Marked(k, a) == Marked(l, a)
  {
    hide *;
    RootMarkedMore(y, l, k, s);
    ClosedMarked(y, l, k, s);
    SlotsMarked(y, l, k, s);
    RootedMarked(y, l, k, s);
  }

  lemma SourceAgain(y: Layout, l: Memory, k: Memory, s: int)
    requires |y.objs| >= 2 && MarkedMore(y, l, k) && Source(y, l, s)
    ensures Source(y, k, s)
  {
  }

  lemma ClosedMarked(y: Layout, l: Memory, k: Memory, s: int)
    requires StacksOk(y, l) && WellFormed(HeapOf(y, l)) && MarkedFrom(HeapOf(y, l), s, k)
    requires MarkedMore(y, l, k) && Closed(y, l)
    ensures Closed(y, k)
  {
    var h, g := HeapOf(y, l), HeapOf(y, k);
    forall a, b {:trigger Edge(g, a, b)} | IsObject(y.objs, a) && Marked(k, a) && Edge(g, a, b)
      ensures Marked(k, b)
    {
      assert Edge(h, a, b);
      assert Marked(l, a) || Fresh(h, k, a);
      assert Marked(l, b) ==> Marked(k, b);
    }
  }

  lemma SlotsMarked(y: Layout, l: Memory, k: Memory, s: int)
    requires StacksOk(y, l) && WellFormed(HeapOf(y, l)) && MarkedFrom(HeapOf(y, l), s, k)
    requires MarkedMore(y, l, k) && SlotsClosed(y, l)
    ensures SlotsClosed(y, k)
  {
    var h := HeapOf(y, l);
    forall a {:trigger Slot(y, a)} | Slot(y, a) && Marked(k, a) && k[a].word.Ptr? && k[a].word.addr <= GTop(y)
      ensures Marked(k, k[a].word.addr)
    {
      var b := k[a].word.addr;
      assert Edge(h, a, b);
      assert Marked(l, a) || Fresh(h, k, a);
      assert Marked(l, b) ==> Marked(k, b);
    }
  }

  lemma RootedMarked(y: Layout, l: Memory, k: Memory, s: int)
    requires StacksOk(y, l) && WellFormed(HeapOf(y, l)) && MarkedFrom(HeapOf(y, l), s, k)
    requires MarkedMore(y, l, k) && Rooted(y, l) && Source(y, l, s)
    ensures Rooted(y, k)
  {
    var h := HeapOf(y, l);
    forall x {:trigger Marked(k, x)} | Marked(k, x) && IsObject(y.objs, x)
      ensures Reached(y, k, x)
    {
      var r: int;
      if Marked(l, x) {
        assert Reached(y, l, x);
        r :| Source(y, l, r) && Marked(l, r) && Reach(h, r, x);
      } else {
        assert Fresh(h, k, x);
        r := s;
      }
      SourceAgain(y, l, k, r);
      ReachAgain(y, l, k, r, x);
    }
  }

  lemma ReachAgain(y: Layout, l: Memory, k: Memory, s: int, x: int)
    requires |y.objs| >= 2 && MarkedMore(y, l, k) && Reach(HeapOf(y, l), s, x)
    ensures Reach(HeapOf(y, k), s, x)
  {
    var h, g := HeapOf(y, l), HeapOf(y, k);
    var n: nat :| ReachIn(h, s, x, n);
    var closed := iset a | Reach(g, s, a);
    ReachSelf(g, s);
    forall a, b | a in closed && Edge(h, a, b)
      ensures b in closed
    {
      assert Edge(g, a, b);
      ReachStep(g, s, a, b);
    }
    ReachClosed(h, s, x, n, closed);
  }

  // ---------- while saved trail tops are threaded

  /** Only trail entries and saved trail tops are on chains. */
  ghost predicate Away(y: Layout, t: Threads) {
    && (forall a {:trigger a in t.chains} :: a in t.chains ==> OnTrail(y, a))
    && (forall a {:trigger a in t.rank} :: a in t.rank ==> a in y.trailTops)
  }

  /** Cell a holds what it logically holds. */
  ghost predicate Plain(y: Layout, a: int) {
    a < y.lBase || Slot(y, a)
  }

  lemma PlainReads(y: Layout, m: Memory, l: Memory, t: Threads, a: int)
    requires StacksOk(y, l) && Threaded(m, l, t) && Away(y, t) && 0 <= a < |m|
    ensures m[a].mark == l[a].mark
    ensures Plain(y, a) ==> m[a] == l[a]
    ensures l[a].mark ==> Plain(y, a)
  {
    Reads(m, l, t, a);
    assert Slot(y, a) ==> Local(y, |l|, a);
  }

  lemma PlainBelow(y: Layout, m: Memory, l: Memory, t: Threads)
    requires StacksOk(y, l) && Threaded(m, l, t) && Away(y, t)
    ensures |m| == |l|
    ensures forall a {:trigger m[a]} :: 0 <= a < |m| ==> m[a].mark == l[a].mark
    ensures forall a {:trigger m[a]} :: 0 <= a < |m| && Plain(y, a) ==> m[a] == l[a]
    ensures forall a {:trigger l[a]} :: 0 <= a < |m| && l[a].mark ==> Plain(y, a)
  {
    assert |m| == |l|;
    hide StacksOk, Threaded, Away, Plain;
    forall a | 0 <= a < |m|
      ensures m[a].mark == l[a].mark
      ensures Plain(y, a) ==> m[a] == l[a]
      ensures l[a].mark ==> Plain(y, a)
    {
      PlainReads(y, m, l, t, a);
    }
  }

  ghost predicate SameBelow(y: Layout, l: Memory, m: Memory) {
    |m| == |l| && forall a {:trigger m[a]} :: 0 <= a < |m| && Plain(y, a) ==> m[a] == l[a]
  }

  lemma WellBelow(y: Layout, l: Memory, m: Memory)
    requires StacksOk(y, l) && SameBelow(y, l, m)
    ensures WellFormed(HeapOf(y, m)) == true
  {
    var h, g := HeapOf(y, l), HeapOf(y, m);
    forall i {:trigger ObjectAt(m, y.objs, i)} | 0 <= i < |y.objs| - 1
      ensures ObjectAt(m, y.objs, i)
    {
      assert ObjectAt(l, y.objs, i);
      Increasing(l, y.objs, i + 1, |y.objs| - 1);
    }
    assert ObjectAt(l, y.objs, |y.objs| - 2);
    forall a {:trigger IsObject(y.objs, a)} | IsObject(y.objs, a)
      ensures 0 <= a < y.lBase && ObjectOk(g, a)
    {
      assert ObjectOk(h, a);
      ObjectBelow(y, l, a);
      PointsBelow(y, l, m, l[a].word);
    }
    OwnersBelowBase(y, l, m);
  }

  lemma ObjectBelow(y: Layout, l: Memory, a: int)
    requires StacksOk(y, l) && IsObject(y.objs, a)
    ensures 0 <= a < y.lBase <= |l|
  {
    Increasing(l, y.objs, Index(y.objs, a), |y.objs| - 1);
    assert ObjectOk(HeapOf(y, l), a);
  }

  lemma PointsBelow(y: Layout, l: Memory, m: Memory, w: Word)
    requires StacksOk(y, l) && SameBelow(y, l, m)
    ensures PointsRight(HeapOf(y, m), w) == PointsRight(HeapOf(y, l), w)
  {
    if w.Ptr? && IsObject(y.objs, w.addr) {
      ObjectBelow(y, l, w.addr);
    }
  }

  lemma OwnersBelowBase(y: Layout, l: Memory, m: Memory)
    requires StacksOk(y, l) && SameBelow(y, l, m)
    ensures ArgumentsOwned(HeapOf(y, m))
  {
    var h, g := HeapOf(y, l), HeapOf(y, m);
    forall f
      ensures FunctorAt(g, f) == FunctorAt(h, f)
      ensures FunctorAt(g, f) ==> m[f].word == l[f].word
    {
      if IsObject(y.objs, f) {
        ObjectBelow(y, l, f);
      }
    }
    hide IsObject;
    forall x | x in g.owner
      ensures var f := g.owner[x];
              && FunctorAt(g, f) && f < x <= f + g.mem[f].word.arity && IsObject(g.objs, x) && x < |g.mem|
              && IsValue(g.mem[x].word) && x < GTop(y)
    {
      assert x in h.owner && FunctorAt(h, h.owner[x]);
      ObjectBelow(y, l, x);
    }
  }

  /** The marks that mark_variable() left in memory, put on logical memory. */
  function Remark(l: Memory, m: Memory): (k: Memory)
    requires |l| == |m|
    ensures |k| == |l| && forall a {:trigger k[a]} :: 0 <= a < |l| ==> k[a] == l[a].(mark := m[a].mark)
  {
    seq(|l|, a requires 0 <= a < |l| => l[a].(mark := m[a].mark))
  }

  lemma RemarkThreaded(y: Layout, m: Memory, l: Memory, t: Threads, n: Memory)
    requires Threaded(m, l, t) && |n| == |m|
    requires forall a {:trigger n[a]} :: 0 <= a < |m| ==> n[a] == m[a].(mark := n[a].mark)
    ensures Threaded(n, Remark(l, n), t) == true
  {
    var k := Remark(l, n);
    forall a | 0 <= a < |m| && a !in t.chains && a !in t.rank
      ensures n[a] == k[a]
    {
      Reads(m, l, t, a);
    }
    SameChains(m, l, n, k, t);
  }

  lemma ReachBelow(y: Layout, l: Memory, m: Memory, s: int, x: int)
    requires StacksOk(y, l) && SameBelow(y, l, m) && Source(y, l, s) && Reach(HeapOf(y, m), s, x)
    ensures Reach(HeapOf(y, l), s, x)
  {
    var h, g := HeapOf(y, l), HeapOf(y, m);
    var n: nat :| ReachIn(g, s, x, n);
    var closed := iset a | Reach(h, s, a);
    ReachSelf(h, s);
    forall a, b | a in closed && Edge(g, a, b)
      ensures b in closed
    {
      ReachInside(y, l, s, a);
      SourcePlain(y, l, s);
      if a != s {
        ObjectBelow(y, l, a);
      }
      assert Edge(h, a, b);
      ReachStep(h, s, a, b);
    }
    ReachClosed(g, s, x, n, closed);
  }

  lemma SourcePlain(y: Layout, l: Memory, s: int)
    requires StacksOk(y, l) && Source(y, l, s)
    ensures Plain(y, s)
  {
    if s in y.saved {
      ObjectBelow(y, l, s);
    }
  }

  /** What mark_variable() does to memory it does to logical memory. */
  lemma RemarkMarked(y: Layout, l: Memory, m: Memory, s: int, n: Memory)
    requires StacksOk(y, l) && SameBelow(y, l, m) && Source(y, l, s)
    requires forall a {:trigger m[a]} :: 0 <= a < |m| ==> m[a].mark == l[a].mark
    requires WellFormed(HeapOf(y, l)) && WellFormed(HeapOf(y, m)) && MarkedFrom(HeapOf(y, m), s, n) == true
    ensures |n| == |l| && MarkedFrom(HeapOf(y, l), s, Remark(l, n)) == true
  {
    var h, g, k := HeapOf(y, l), HeapOf(y, m), Remark(l, n);
    hide StacksOk, WellFormed, Reach;
    SourcePlain(y, l, s);
    forall x
      ensures Fresh(h, k, x) <==> Fresh(g, n, x)
      ensures Fresh(h, k, x) ==> Reach(h, s, x) && Plain(y, x)
    {
      if Fresh(g, n, x) {
        ReachBelow(y, l, m, s, x);
        ReachPlain(y, l, s, x);
      }
    }
    forall x, z {:trigger Fresh(h, k, x), Edge(h, x, z)} | Fresh(h, k, x) && Edge(h, x, z)
      ensures Marked(k, z)
    {
      assert Fresh(g, n, x) && Edge(g, x, z);
      assert Marked(n, z);
    }
    assert Fresh(g, n, s);
  }

  lemma ReachPlain(y: Layout, l: Memory, s: int, x: int)
    requires StacksOk(y, l) && Source(y, l, s) && Reach(HeapOf(y, l), s, x)
    ensures Plain(y, x)
  {
    ReachInside(y, l, s, x);
    SourcePlain(y, l, s);
    if x != s {
      ObjectBelow(y, l, x);
    }
  }

  // ---------- the counters

  /** The variables of frames that are marked and refer to the global stack. */
  ghost function MarkedSlots(y: Layout, l: Memory): (s: set<int>)
    requires |y.objs| >= 2
    ensures forall a :: a in s <==> 0 <= a < |l| && Slot(y, a) && l[a].mark && l[a].word.Ptr? && l[a].word.addr <= GTop(y)
  {
    set a | 0 <= a < |l| && Slot(y, a) && l[a].mark && l[a].word.Ptr? && l[a].word.addr <= GTop(y)
  }

  /** The pointers with marks that an earlier collection has left between the stacks. */
  ghost function Stale(y: Layout, l: Memory): (s: set<int>)
    requires |y.objs| >= 2
    ensures forall a :: a in s <==> 0 <= a < |l| && Unused(y, a) && l[a].mark && IsGlobalRef(HeapOf(y, l), l[a].word)
  {
    set a | 0 <= a < |l| && Unused(y, a) && l[a].mark && IsGlobalRef(HeapOf(y, l), l[a].word)
  }

  /** The counters of the mark phase: the live words of the global stack, the variables of
      frames to sweep, and the pointers to relocate. */
  ghost predicate Counting(y: Layout, l: Memory, t: Threads, total: int, local: int, needs: int)
    requires |y.objs| >= 2
  {
    && y.objs[0] + total == NewAt(l, y.objs, |y.objs| - 1)
    && local == |MarkedSlots(y, l)|
    && needs == |Pointers(HeapOf(y, l), l)| - |Stale(y, l)| + |t.rank|
  }

  lemma SamePointers(y: Layout, l: Memory, m: Memory, k: Memory, n: Memory)
    requires |y.objs| >= 2 && |l| == |m| == |k| == |n|
    requires forall x {:trigger k[x]} :: 0 <= x < |l| ==> k[x].mark == n[x].mark && (k[x].mark ==> m[x].word == l[x].word)
    ensures Pointers(HeapOf(y, l), k) == Pointers(HeapOf(y, m), n)
  {
    forall x
      ensures x in Pointers(HeapOf(y, l), k) <==> x in Pointers(HeapOf(y, m), n)
    {
      assert 0 <= x < |l| ==> k[x].mark == n[x].mark;
    }
  }

  lemma SamePlain(y: Layout, l: Memory, m: Memory)
    requires SameBelow(y, l, m) && |l| == |m| && forall a {:trigger l[a]} :: 0 <= a < |m| && l[a].mark ==> Plain(y, a)
    ensures forall x {:trigger l[x]} :: 0 <= x < |l| && l[x].mark ==> m[x].word == l[x].word
  {
  }

  lemma RemarkedSame(l: Memory, n: Memory, s: int)
    requires |l| == |n|
    ensures Marked(Remark(l, n), s) == Marked(n, s)
  {
  }

  lemma RemarkCounted(y: Layout, l: Memory, m: Memory, s: int, n: Memory, total: int, needs: int)
    requires StacksOk(y, l) == true && SameBelow(y, l, m) == true && Source(y, l, s) && |l| == |m| == |n|
    requires forall a {:trigger m[a]} :: 0 <= a < |m| ==> m[a].mark == l[a].mark
    requires forall a {:trigger l[a]} :: 0 <= a < |m| && l[a].mark ==> Plain(y, a)
    requires WellFormed(HeapOf(y, l)) && WellFormed(HeapOf(y, m)) && MarkedFrom(HeapOf(y, l), s, Remark(l, n)) == true
    requires |y.objs| >= 2 && Counted(HeapOf(y, m), s, n, total, needs) == true
    ensures Counted(HeapOf(y, l), s, Remark(l, n), total, needs) == true
  {
    hide *;
    var k := Remark(l, n);
    forall x {:trigger k[x]} | 0 <= x < |l| && k[x].mark
      ensures m[x].word == l[x].word
    {
      MarkedPlain(y, l, m, s, k, x);
    }
    SamePlain(y, l, m);
    RemarkedSame(l, n, s);
    NewAtSame(y.objs, n, k, |y.objs| - 1);
    NewAtSame(y.objs, m, l, |y.objs| - 1);
    SamePointers(y, l, m, k, n);
    SamePointers(y, l, m, l, m);
    CountedAgain(y, l, m, s, n, k, total, needs);
  }

  lemma MarkedPlain(y: Layout, l: Memory, m: Memory, s: int, k: Memory, x: int)
    requires StacksOk(y, l) && SameBelow(y, l, m) && Source(y, l, s) && WellFormed(HeapOf(y, l)) && |k| == |l|
    requires MarkedFrom(HeapOf(y, l), s, k) && 0 <= x < |l| && k[x].mark && (l[x].mark ==> Plain(y, x))
    ensures m[x].word == l[x].word
  {
    hide WellFormed;
    if !l[x].mark {
      assert Fresh(HeapOf(y, l), k, x);
      ReachPlain(y, l, s, x);
    }
  }

  lemma {:induction false} CountedAgain(y: Layout, l: Memory, m: Memory, s: int, n: Memory, k: Memory, total: int, needs: int)
    requires |k| == |n| == |l| == |m| && |y.objs| >= 2
    requires Counted(HeapOf(y, m), s, n, total, needs) == true
    requires NewAt(k, y.objs, |y.objs| - 1) == NewAt(n, y.objs, |y.objs| - 1)
    requires NewAt(l, y.objs, |y.objs| - 1) == NewAt(m, y.objs, |y.objs| - 1)
    requires |Pointers(HeapOf(y, l), k)| == |Pointers(HeapOf(y, m), n)| && |Pointers(HeapOf(y, l), l)| == |Pointers(HeapOf(y, m), m)|
    requires Marked(k, s) == Marked(n, s)
    ensures Counted(HeapOf(y, l), s, k, total, needs) == true
  {
    hide NewAt, Pointers, IsObject, MarkedSlots;
  }

  lemma SlotCounted(y: Layout, l: Memory, k: Memory, s: int)
    requires |y.objs| >= 2 && MarkedMore(y, l, k) && 0 <= s < |l| && !l[s].mark && k[s].mark
    requires forall a {:trigger Slot(y, a)} :: Slot(y, a) && a != s ==> Marked(k, a) == Marked(l, a)
    ensures |MarkedSlots(y, k)| == |MarkedSlots(y, l)| +
              (if Slot(y, s) && l[s].word.Ptr? && l[s].word.addr <= GTop(y) then 1 else 0)
  {
    assert forall a :: Slot(y, a) && a != s && 0 <= a < |l| ==> (k[a].mark <==> l[a].mark);
    if Slot(y, s) && l[s].word.Ptr? && l[s].word.addr <= GTop(y) {
      assert MarkedSlots(y, k) == MarkedSlots(y, l) + {s};
    } else {
      assert MarkedSlots(y, k) == MarkedSlots(y, l);
    }
  }

  lemma CountingRoot(y: Layout, l: Memory, t: Threads, k: Memory, s: int, total: int, local: int, needs: int, dt: int, dn: int)
    requires StacksOk(y, l) && Source(y, l, s) && !l[s].mark && Counting(y, l, t, total, local, needs) == true
    requires |y.objs| >= 2 && MarkedMore(y, l, k) == true && Marked(k, s)
    requires forall a {:trigger Slot(y, a)} :: Slot(y, a) && a != s ==> Marked(k, a) == Marked(l, a)
    requires Counted(HeapOf(y, l), s, k, dt, dn) == true
    ensures Counting(y, k, t, total + dt + (if s in y.saved then 1 else 0),
                     local + (if s in y.saved then 0 else 1), needs + dn) == true
  {
    hide *;
    SourceKind(y, l, s);
    MoreLength(y, l, k);
    SlotCounted(y, l, k, s);
    SamePointers(y, k, l, k, k);
    StaleMore(y, l, k);
    CountingAdd(y, l, t, k, s, total, local, needs, dt, dn);
  }

  lemma SourceKind(y: Layout, l: Memory, s: int)
    requires StacksOk(y, l) && Source(y, l, s)
    ensures IsObject(y.objs, s) <==> s in y.saved
    ensures s !in y.saved <==> (Slot(y, s) && l[s].word.Ptr? && l[s].word.addr <= GTop(y))
  {
    if s in y.saved {
      ObjectBelow(y, l, s);
    } else {
      SlotOutside(y, l, s);
    }
  }

  lemma MoreLength(y: Layout, l: Memory, k: Memory)
    requires |y.objs| >= 2 && MarkedMore(y, l, k) == true
    ensures |k| == |l|
    ensures forall a {:trigger k[a]} :: 0 <= a < |l| ==> k[a].word == l[a].word
    ensures forall a {:trigger Marked(k, a)} :: Marked(k, a) <==> 0 <= a < |l| && k[a].mark
  {
  }

  lemma {:induction false} CountingAdd(y: Layout, l: Memory, t: Threads, k: Memory, s: int, total: int, local: int, needs: int, dt: int, dn: int)
    requires |y.objs| >= 2 && Counting(y, l, t, total, local, needs) == true
    requires Counted(HeapOf(y, l), s, k, dt, dn) == true && Marked(k, s) && (IsObject(y.objs, s) <==> s in y.saved)
    requires Pointers(HeapOf(y, k), k) == Pointers(HeapOf(y, l), k) && Stale(y, k) == Stale(y, l)
    requires |MarkedSlots(y, k)| == |MarkedSlots(y, l)| + (if s in y.saved then 0 else 1)
    ensures Counting(y, k, t, total + dt + (if s in y.saved then 1 else 0),
                     local + (if s in y.saved then 0 else 1), needs + dn) == true
  {
    hide NewAt, Pointers, IsObject, MarkedSlots, Stale;
  }

  /** Marking leaves the cells between the stacks alone. */
  lemma StaleMore(y: Layout, l: Memory, k: Memory)
    requires StacksOk(y, l) && MarkedMore(y, l, k)
    ensures |y.objs| >= 2 && Stale(y, k) == Stale(y, l)
  {
    forall a
      ensures a in Stale(y, k) <==> a in Stale(y, l)
    {
      if 0 <= a < |l| && Unused(y, a) {
        BetweenStacks(y, l, a);
        assert k[a] == l[a].(mark := k[a].mark);
      }
    }
  }

  lemma BetweenStacks(y: Layout, l: Memory, a: int)
    requires StacksOk(y, l) && Unused(y, a)
    ensures !IsObject(y.objs, a) && !Slot(y, a)
  {
    if IsObject(y.objs, a) {
      Increasing(l, y.objs, Index(y.objs, a), |y.objs| - 1);
    }
  }

  // ---------- the state of the phase

  /** The bounds of the stacks are those of the layout. */
  ghost predicate Bounds(ld: LocalData, y: Layout)
    reads ld
  {
    |y.objs| >= 2 && ld.gBase == y.objs[0] && ld.gTop == GTop(y) && ld.lBase == y.lBase && ld.tBase == y.tBase && ld.tTop == y.tTop
  }

  ghost predicate Live(y: Layout, l: Memory) {
    StacksOk(y, l) && Closed(y, l) && SlotsClosed(y, l) && Rooted(y, l)
  }

  /** The saved trail tops of the first k marks are threaded. */
  ghost predicate TopsThreaded(y: Layout, t: Threads, k: int)
    requires 0 <= k <= |y.trailTops|
  {
    && Away(y, t)
    && forall c {:trigger c in t.rank} :: c in t.rank <==> c in y.trailTops[..k]
  }

  ghost predicate Phase(ld: LocalData, y: Layout, k: int)
    reads ld, ld.mem
  {
    && Bounds(ld, y) && ld.Consistent() && Live(y, ld.logical)
    && 0 <= k <= |y.trailTops| && TopsThreaded(y, ld.threads, k)
    && Counting(y, ld.logical, ld.threads, ld.totalMarked, ld.localMarked, ld.needsRelocation)
  }

  lemma PhaseParts(ld: LocalData, y: Layout, k: int)
    requires Phase(ld, y, k) == true
    ensures Bounds(ld, y) == true && ld.Consistent() == true && Live(y, ld.logical) == true && StacksOk(y, ld.logical) == true
    ensures Threaded(ld.mem[..], ld.logical, ld.threads) == true && |ld.logical| == ld.mem.Length && |y.objs| >= 2
    ensures 0 <= k <= |y.trailTops| && TopsThreaded(y, ld.threads, k) == true && Away(y, ld.threads) == true
    ensures Counting(y, ld.logical, ld.threads, ld.totalMarked, ld.localMarked, ld.needsRelocation) == true
    ensures ld.gBase == y.objs[0] && ld.gTop == GTop(y) && ld.lBase == y.lBase && ld.tBase == y.tBase && ld.tTop == y.tTop
    ensures ld.relocationChains == |ld.threads.chains| && ld.relocationCells - ld.relocatedCells == |ld.threads.rank|
  {
  }

  lemma PhaseWhole(ld: LocalData, y: Layout, k: int)
    requires Bounds(ld, y) == true && Threaded(ld.mem[..], ld.logical, ld.threads) == true && Live(y, ld.logical) == true
    requires 0 <= k <= |y.trailTops| && TopsThreaded(y, ld.threads, k) == true && |y.objs| >= 2
    requires ld.relocationChains == |ld.threads.chains| && ld.relocationCells - ld.relocatedCells == |ld.threads.rank|
    requires Counting(y, ld.logical, ld.threads, ld.totalMarked, ld.localMarked, ld.needsRelocation) == true
    ensures Phase(ld, y, k) == true
  {
  }

  lemma LiveParts(y: Layout, l: Memory)
    requires Live(y, l) == true
    ensures StacksOk(y, l) == true && Closed(y, l) == true && |y.objs| >= 2 && SlotsClosed(y, l) == true && Rooted(y, l) == true
    ensures WellFormed(HeapOf(y, l)) == true
  {
  }

  lemma LiveMarked(y: Layout, l: Memory, k: Memory, s: int)
    requires Live(y, l) == true && |y.objs| >= 2 && Source(y, l, s) && WellFormed(HeapOf(y, l)) && MarkedFrom(HeapOf(y, l), s, k) == true
    ensures Live(y, k) == true && MarkedMore(y, l, k) == true && Marked(k, s)
    ensures forall a {:trigger Slot(y, a)} :: Slot(y, a) && a != s ==> Marked(k, a) == Marked(l, a)
  {
    LiveParts(y, l);
    RootMarked(y, l, k, s);
    MarkedStacks(y, l, k);
  }

  lemma MarksOnly(m: Memory, h: SoundHeap, s: int, n: Memory)
    requires h.mem == m && MarkedFrom(h, s, n) == true
    ensures |n| == |m| && forall a {:trigger n[a]} :: 0 <= a < |m| ==> n[a] == m[a].(mark := n[a].mark)
  {
  }

  lemma PlainSource(y: Layout, m: Memory, l: Memory, t: Threads, s: int)
    requires StacksOk(y, l) && Threaded(m, l, t) && Away(y, t) && Source(y, l, s)
    ensures |m| == |l| && 0 <= s < |m| && m[s] == l[s]
    ensures SameBelow(y, l, m) == true
  {
    PlainBelow(y, m, l, t);
    SourcePlain(y, l, s);
  }

  lemma SourceBelow(y: Layout, l: Memory, m: Memory, s: int)
    requires StacksOk(y, l) && SameBelow(y, l, m) && Source(y, l, s) && !l[s].mark
    ensures WellFormed(HeapOf(y, m)) && Startable(HeapOf(y, m), s) == true
  {
    WellBelow(y, l, m);
    SourceStartable(y, l, s);
    SourcePlain(y, l, s);
    PointsBelow(y, l, m, l[s].word);
  }

  /** The phase, but for one cell that mark_variable() does not count. */
  ghost predicate PhaseBut(ld: LocalData, y: Layout, k: int, extra: int)
    reads ld, ld.mem
  {
    && Bounds(ld, y) && ld.Consistent() && Live(y, ld.logical)
    && 0 <= k <= |y.trailTops| && TopsThreaded(y, ld.threads, k)
    && Counting(y, ld.logical, ld.threads, ld.totalMarked + extra, ld.localMarked - extra, ld.needsRelocation)
  }

  lemma PhaseButWhole(ld: LocalData, y: Layout, k: int, extra: int)
    requires Bounds(ld, y) == true && Threaded(ld.mem[..], ld.logical, ld.threads) == true && Live(y, ld.logical) == true
    requires 0 <= k <= |y.trailTops| && TopsThreaded(y, ld.threads, k) == true && |y.objs| >= 2
    requires ld.relocationChains == |ld.threads.chains| && ld.relocationCells - ld.relocatedCells == |ld.threads.rank|
    requires Counting(y, ld.logical, ld.threads, ld.totalMarked + extra, ld.localMarked - extra, ld.needsRelocation) == true
    ensures PhaseBut(ld, y, k, extra) == true
  {
  }

  lemma BoundsAre(ld: LocalData, y: Layout)
    requires |y.objs| >= 2 && ld.gBase == y.objs[0] && ld.gTop == GTop(y) && ld.lBase == y.lBase
    requires ld.tBase == y.tBase && ld.tTop == y.tTop
    ensures Bounds(ld, y) == true
  {
  }

  lemma HeapFields(y: Layout, m: Memory)
    ensures HeapOf(y, m).mem == m && HeapOf(y, m).objs == y.objs
  {
  }

  /** mark_variable() while saved trail tops are threaded. */
  method MarkRoot(ld: LocalData, s: nat, ghost y: Layout, ghost k: int)
    requires Phase(ld, y, k) == true && |y.objs| >= 2
    requires Source(y, ld.logical, s) == true && s < ld.mem.Length && !ld.mem[s].mark
    modifies ld`totalMarked, ld`needsRelocation, ld`localMarked, ld`logical, ld.mem
    ensures PhaseBut(ld, y, k, if s in y.saved then 1 else 0) == true
    ensures |y.objs| >= 2 && MarkedMore(y, old(ld.logical), ld.logical) == true && Marked(ld.logical, s)
    ensures forall a {:trigger Slot(y, a)} :: Slot(y, a) && a != s ==> Marked(ld.logical, a) == Marked(old(ld.logical), a)
  {
    hide *;
    ghost var m, l, t := ld.mem[..], ld.logical, ld.threads;
    PhaseParts(ld, y, k);
    LiveParts(y, l);
    PlainSource(y, m, l, t, s);
    PlainBelow(y, m, l, t);
    SourceBelow(y, l, m, s);
    ghost var total, local, needs := ld.totalMarked, ld.localMarked, ld.needsRelocation;
    HeapFields(y, m);
    MarkVariable(ld, s, HeapOf(y, m));
    ghost var n := ld.mem[..];
    MarksOnly(m, HeapOf(y, m), s, n);
    RemarkMarked(y, l, m, s, n);
    RemarkCounted(y, l, m, s, n, ld.totalMarked - total, ld.needsRelocation - needs);
    RemarkThreaded(y, m, l, t, n);
    ld.logical := Remark(l, n);
    LiveMarked(y, l, ld.logical, s);
    CountingRoot(y, l, t, ld.logical, s, total, local, needs, ld.totalMarked - total, ld.needsRelocation - needs);
    BoundsAre(ld, y);
    PhaseButWhole(ld, y, k, if s in y.saved then 1 else 0);
  }

  // ---------- the variables of a frame

  lemma ButNothing(ld: LocalData, y: Layout, k: int)
    requires PhaseBut(ld, y, k, 0) == true
    ensures Phase(ld, y, k) == true
  {
  }

  lemma SlotSource(y: Layout, l: Memory, a: nat)
    requires StacksOk(y, l) && Slot(y, a)
    ensures a < |l| && IsValue(l[a].word) && a !in y.saved
    ensures l[a].word.Ptr? && l[a].word.addr <= GTop(y) ==> Source(y, l, a) == true
    ensures Plain(y, a)
  {
    assert SlotOk(y, l, a) && Local(y, |l|, a);
    SlotOutside(y, l, a);
  }

  lemma PlainCell(y: Layout, m: Memory, l: Memory, t: Threads, a: int)
    requires StacksOk(y, l) && Threaded(m, l, t) && Away(y, t) && 0 <= a < |m| && Plain(y, a)
    ensures |m| == |l| && m[a] == l[a]
  {
    PlainReads(y, m, l, t, a);
  }

  /** A variable that holds no pointer into the global stack is only marked. */
  lemma JustMarked(y: Layout, l: Memory, t: Threads, a: nat, total: int, local: int, needs: int)
    requires Live(y, l) == true && |y.objs| >= 2 && Slot(y, a) && a < |l| && !l[a].mark && !(l[a].word.Ptr? && l[a].word.addr <= GTop(y))
    requires Counting(y, l, t, total, local, needs) == true
    ensures Live(y, l[a := l[a].(mark := true)]) == true
    ensures Counting(y, l[a := l[a].(mark := true)], t, total, local, needs) == true
    ensures MarkedMore(y, l, l[a := l[a].(mark := true)]) == true
  {
    var k := l[a := l[a].(mark := true)];
    LiveParts(y, l);
    assert MarkedMore(y, l, k);
    SlotNoObject(y, l, a);
    hide *;
    MarkedStacks(y, l, k);
    JustClosed(y, l, k, a);
    JustRooted(y, l, k, a);
    JustCounted(y, l, t, k, a, total, local, needs);
    LiveWhole(y, k);
  }

  lemma LiveWhole(y: Layout, l: Memory)
    requires |y.objs| >= 2 && StacksOk(y, l) == true && Closed(y, l) == true && SlotsClosed(y, l) == true && Rooted(y, l) == true
    ensures Live(y, l) == true
  {
  }

  lemma SlotNoObject(y: Layout, l: Memory, a: nat)
    requires StacksOk(y, l) && Slot(y, a)
    ensures !IsObject(y.objs, a)
  {
    SlotSource(y, l, a);
    SlotOutside(y, l, a);
  }

  lemma JustClosed(y: Layout, l: Memory, k: Memory, a: nat)
    requires |y.objs| >= 2 && a < |l| && k == l[a := l[a].(mark := true)] && !IsObject(y.objs, a)
    requires !(l[a].word.Ptr? && l[a].word.addr <= GTop(y)) && Closed(y, l) && SlotsClosed(y, l)
    ensures Closed(y, k) == true && SlotsClosed(y, k) == true
  {
    forall b, c {:trigger Edge(HeapOf(y, k), b, c)} | IsObject(y.objs, b) && Marked(k, b) && Edge(HeapOf(y, k), b, c)
      ensures Marked(k, c)
    {
      assert Edge(HeapOf(y, l), b, c);
      assert Marked(l, c);
    }
    forall b {:trigger Slot(y, b)} | Slot(y, b) && Marked(k, b) && k[b].word.Ptr? && k[b].word.addr <= GTop(y)
      ensures Marked(k, k[b].word.addr)
    {
      assert Marked(l, l[b].word.addr);
    }
  }

  lemma JustRooted(y: Layout, l: Memory, k: Memory, a: nat)
    requires |y.objs| >= 2 && a < |l| && k == l[a := l[a].(mark := true)] && !IsObject(y.objs, a)
    requires MarkedMore(y, l, k) == true && Rooted(y, l)
    ensures Rooted(y, k) == true
  {
    forall x {:trigger Marked(k, x)} | Marked(k, x) && IsObject(y.objs, x)
      ensures Reached(y, k, x)
    {
      assert Marked(l, x) && Reached(y, l, x);
      var r :| Source(y, l, r) && Marked(l, r) && Reach(HeapOf(y, l), r, x);
      SourceAgain(y, l, k, r);
      ReachAgain(y, l, k, r, x);
    }
  }

  lemma JustSame(y: Layout, l: Memory, k: Memory, a: nat)
    requires |y.objs| >= 2 && a < |l| && k == l[a := l[a].(mark := true)]
    requires !(l[a].word.Ptr? && l[a].word.addr <= GTop(y))
    ensures MarkedSlots(y, k) == MarkedSlots(y, l)
    ensures Pointers(HeapOf(y, k), k) == Pointers(HeapOf(y, l), l) && Stale(y, k) == Stale(y, l)
  {
    forall x | 0 <= x < |l|
      ensures x in MarkedSlots(y, k) <==> x in MarkedSlots(y, l)
      ensures x in Pointers(HeapOf(y, k), k) <==> x in Pointers(HeapOf(y, l), l)
      ensures x in Stale(y, k) <==> x in Stale(y, l)
    {
      assert x != a ==> k[x] == l[x];
    }
  }

  lemma {:induction false} JustCounted(y: Layout, l: Memory, t: Threads, k: Memory, a: nat, total: int, local: int, needs: int)
    requires |y.objs| >= 2 && a < |l| && k == l[a := l[a].(mark := true)] && !IsObject(y.objs, a)
    requires !(l[a].word.Ptr? && l[a].word.addr <= GTop(y)) && Counting(y, l, t, total, local, needs)
    ensures Counting(y, k, t, total, local, needs) == true
  {
    NewAtOther(y.objs, l, k, a, |y.objs| - 1);
    JustSame(y, l, k, a);
    hide NewAt, MarkedSlots, Pointers, Stale;
  }

  lemma {:induction false} NewAtOther(objs: seq<int>, l: Memory, k: Memory, a: int, i: int)
    requires 0 <= i < |objs| && !IsObject(objs, a) && |k| == |l|
    requires forall b {:trigger k[b]} :: 0 <= b < |l| && b != a ==> k[b] == l[b]
    ensures NewAt(k, objs, i) == NewAt(l, objs, i)
    decreases i
  {
    if i > 0 {
      NewAtOther(objs, l, k, a, i - 1);
    }
  }

  /** Of the variables of frames, those of `slots` are marked in k besides those marked in l. */
  ghost predicate SlotsAdded(y: Layout, l: Memory, k: Memory, slots: seq<nat>) {
    forall a {:trigger Slot(y, a)} :: Slot(y, a) ==> (Marked(k, a) <==> Marked(l, a) || a in slots)
  }

  /** The loop over the variables of a frame in mark_environments(), and over the references of
      a foreign frame in mark_term_refs(). */
  method MarkSlots(ld: LocalData, slots: seq<nat>, ghost y: Layout, ghost k: int)
    requires Phase(ld, y, k) == true && |y.objs| >= 2
    requires forall a :: a in slots ==> Slot(y, a)
    modifies ld`totalMarked, ld`needsRelocation, ld`localMarked, ld`logical, ld.mem
    ensures Phase(ld, y, k) == true && MarkedMore(y, old(ld.logical), ld.logical) == true
    ensures SlotsAdded(y, old(ld.logical), ld.logical, slots) == true
  {
    hide *;
    ghost var l0 := ld.logical;
    MoreSame(y, l0);
    NoneAdded(y, l0);
    for i := 0 to |slots|
      invariant Phase(ld, y, k) == true && MarkedMore(y, l0, ld.logical) == true
      invariant SlotsAdded(y, l0, ld.logical, slots[..i]) == true
    {
      var sp := slots[i];
      ghost var m, l, t := ld.mem[..], ld.logical, ld.threads;
      PhaseParts(ld, y, k);
      SlotSource(y, l, sp);
      PlainCell(y, m, l, t, sp);
      if !ld.mem[sp].mark {
        if ld.mem[sp].word.Ptr? && ld.mem[sp].word.addr <= ld.gTop {
          MarkRoot(ld, sp, y, k);
          ButNothing(ld, y, k);
        } else {
          JustMarked(y, l, t, sp, ld.totalMarked, ld.localMarked, ld.needsRelocation);
          ld.mem[sp] := ld.mem[sp].(mark := true);
          RemarkSlot(m, l, t, sp, ld.mem[..]);
          ld.logical := l[sp := l[sp].(mark := true)];
          MarkedOne(l, sp);
          BoundsAre(ld, y);
          PhaseWhole(ld, y, k);
        }
        MoreAgain(y, l0, l, ld.logical);
      } else {
        MarkedThere(l, sp);
      }
      OneAdded(y, l0, l, ld.logical, slots, i);
    }
    assert slots[..|slots|] == slots;
  }

  lemma NoneAdded(y: Layout, l: Memory)
    ensures SlotsAdded(y, l, l, []) == true
  {
  }

  lemma OneAdded(y: Layout, l0: Memory, l: Memory, k: Memory, slots: seq<nat>, i: nat)
    requires i < |slots| && SlotsAdded(y, l0, l, slots[..i]) == true && Marked(k, slots[i])
    requires forall a {:trigger Slot(y, a)} :: Slot(y, a) && a != slots[i] ==> Marked(k, a) == Marked(l, a)
    ensures SlotsAdded(y, l0, k, slots[..i + 1]) == true
  {
    assert slots[..i + 1] == slots[..i] + [slots[i]];
  }

  lemma MarkedOne(l: Memory, a: nat)
    requires a < |l|
    ensures var k := l[a := l[a].(mark := true)]; Marked(k, a) && forall b :: b != a ==> Marked(k, b) == Marked(l, b)
  {
  }

  lemma MoreSame(y: Layout, l: Memory)
    requires |y.objs| >= 2
    ensures MarkedMore(y, l, l) == true
  {
  }

  lemma MoreAgain(y: Layout, l: Memory, k: Memory, r: Memory)
    requires |y.objs| >= 2 && MarkedMore(y, l, k) == true && MarkedMore(y, k, r) == true
    ensures MarkedMore(y, l, r) == true
  {
  }

  lemma RemarkSlot(m: Memory, l: Memory, t: Threads, a: nat, n: Memory)
    requires Threaded(m, l, t) == true && a < |m| == |l| && m[a] == l[a] && n == m[a := m[a].(mark := true)]
    ensures Threaded(n, l[a := l[a].(mark := true)], t) == true
  {
    var k := l[a := l[a].(mark := true)];
    forall x | 0 <= x < |l|
      ensures k[x].word == l[x].word && k[x].first == l[x].first && n[x] == m[x].(mark := k[x].mark)
      ensures x !in t.chains && x !in t.rank ==> n[x] == k[x]
    {
      Reads(m, l, t, x);
    }
    SameChains(m, l, n, k, t);
  }
}
