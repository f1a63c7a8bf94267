/** The stacks as the collector finds them (pl-incl.h): the global stack, the variables of the
    frames on the local stack, the marks of the choice points and the trail. */
module Stacks {
  import opened Words
  import opened GlobalStack
  import opened Terms

  /** A choice point: `top` is the address from which the local stack is discarded when it is
      taken, `frames` lists the variables of the frames that mark_environments() visits for it
      and `query` those of the frames of its query, when it is the first of that query. */
  datatype Choice = Choice(query: seq<nat>, top: int, frames: seq<nat>)

  /** Where everything is.  Choice point k saved the tops of trail and global stack in the
      cells trailTops[k] and globalTops[k]; the marks of the foreign frames follow those of
      the choice points.  `foreign` lists the term references of each foreign frame and `saved`
      the cells with the old values of destructive assignments. */
  datatype Layout = Layout(objs: seq<int>, owner: map<int, int>, lBase: int, tBase: int, tTop: int,
      foreign: seq<seq<nat>>, choices: seq<Choice>, trailTops: seq<nat>, globalTops: seq<nat>, saved: set<int>)

  ghost predicate Slot(y: Layout, a: int) {
    || (exists k {:trigger y.foreign[k]} :: 0 <= k < |y.foreign| && a in y.foreign[k])
    || (exists k {:trigger y.choices[k]} :: 0 <= k < |y.choices| && (a in y.choices[k].query || a in y.choices[k].frames))
  }

  predicate OnTrail(y: Layout, a: int) {
    y.tBase <= a <= y.tTop
  }

  /** A cell of the local stack that belongs to a frame. */
  predicate Local(y: Layout, n: int, a: int) {
    y.lBase <= a < n && !OnTrail(y, a) && a !in y.trailTops && a !in y.globalTops
  }

  predicate Distinct(s: seq<nat>) {
    forall i, j :: 0 <= i < j < |s| ==> s[i] != s[j]
  }

  ghost predicate Placed(y: Layout, n: int) {
    && |y.objs| >= 2 && y.objs[|y.objs| - 1] <= y.lBase <= y.tBase <= y.tTop < n && 0 <= y.tBase
    && (forall a {:trigger Slot(y, a)} :: Slot(y, a) ==> Local(y, n, a))
    && (forall a {:trigger a in y.trailTops} :: a in y.trailTops ==> y.lBase <= a < n && !OnTrail(y, a) && a !in y.globalTops)
    && (forall a {:trigger a in y.globalTops} :: a in y.globalTops ==> y.lBase <= a < n && !OnTrail(y, a))
    && Distinct(y.trailTops) && Distinct(y.globalTops)
    && |y.choices| + |y.foreign| == |y.trailTops| == |y.globalTops|
  }

  ghost function HeapOf(y: Layout, l: Memory): Heap {
    Heap(l, y.objs, y.owner)
  }

  ghost function GTop(y: Layout): int
    requires |y.objs| >= 2
  {
    y.objs[|y.objs| - 2]
  }

  /** A cell between the stacks: an earlier collection may have left a mark there. */
  predicate Unused(y: Layout, a: int)
    requires |y.objs| >= 2
  {
    y.objs[|y.objs| - 1] <= a < y.lBase
  }

  /** A variable or argument on the global stack. */
  ghost predicate GlobalVar(y: Layout, l: Memory, a: int)
    requires |y.objs| >= 2
  {
    IsObject(y.objs, a) && 0 <= a < |l| && a < GTop(y) && IsValue(l[a].word)
  }

  ghost predicate SlotOk(y: Layout, l: Memory, a: int)
    requires |y.objs| >= 2
  {
    && 0 <= a < |l| && IsValue(l[a].word)
    && (l[a].word.Ptr? && l[a].word.addr <= GTop(y) ==> PointsRight(HeapOf(y, l), l[a].word))
  }

  /** A trail entry is deleted, an address to reset, or the place of the old value of the
      address before it. */
  ghost predicate EntryOk(y: Layout, l: Memory, e: int)
    requires |y.objs| >= 2
  {
    && 0 <= e < |l|
    && match l[e].word
       case Var => true
       case Ptr(tag, a) =>
         if tag == Address then Local(y, |l|, a) || GlobalVar(y, l, a)
         else
           && tag == TRAILVAL && GlobalVar(y, l, a) && a in y.saved
           && 0 <= y.tBase < e && l[e - 1].word.Ptr? && l[e - 1].word.tag == Address && GlobalVar(y, l, l[e - 1].word.addr)
       case _ => false
  }

  predicate IsSavedValue(w: Word) {
    w.Ptr? && w.tag == TRAILVAL
  }

  ghost predicate MarkFieldsOk(y: Layout, l: Memory) {
    && (forall c {:trigger c in y.trailTops} :: c in y.trailTops ==>
          && c < |l| && l[c].word.Ptr? && l[c].word.tag == Address && OnTrail(y, l[c].word.addr)
          && l[c].word.addr < |l| && !IsSavedValue(l[l[c].word.addr].word))
    && (forall c {:trigger c in y.globalTops} :: c in y.globalTops ==>
          && c < |l| && l[c].word.Ptr? && l[c].word.tag == Address && IsObject(y.objs, l[c].word.addr))
  }

  ghost predicate SavedOk(y: Layout, l: Memory)
    requires |y.objs| >= 2
  {
    forall a {:trigger a in y.saved} :: a in y.saved ==> GlobalVar(y, l, a) && a !in y.owner
  }

  ghost predicate LocalOk(y: Layout, l: Memory)
    requires |y.objs| >= 2
  {
    && (forall a {:trigger l[a]} :: y.lBase <= a < |l| && 0 <= a ==> !l[a].first)
    && (forall a {:trigger Slot(y, a)} :: Slot(y, a) ==> SlotOk(y, l, a))
    && (forall a {:trigger l[a]} :: 0 <= a < |l| && l[a].mark ==> (IsObject(y.objs, a) && a < GTop(y)) || Slot(y, a) || Unused(y, a))
  }

  ghost predicate TrailOk(y: Layout, l: Memory)
    requires |y.objs| >= 2
  {
    && 0 <= y.tBase <= y.tTop < |l| && l[y.tTop].word == Var
    && (forall e {:trigger EntryOk(y, l, e)} :: OnTrail(y, e) ==> EntryOk(y, l, e))
  }

  /** What the collector expects of the stacks. */
  ghost predicate StacksOk(y: Layout, l: Memory) {
    && Placed(y, |l|) && WellFormed(HeapOf(y, l))
    && LocalOk(y, l) && TrailOk(y, l) && MarkFieldsOk(y, l) && SavedOk(y, l)
  }

  // ---------- marking changes nothing else

  /** l and k differ in marks only, and k has all the marks of l. */
  ghost predicate MarkedMore(y: Layout, l: Memory, k: Memory)
    requires |y.objs| >= 2
  {
    && |k| == |l|
    && forall a {:trigger k[a]} :: 0 <= a < |l| ==>
         && k[a] == l[a].(mark := k[a].mark) && (l[a].mark ==> k[a].mark)
         && (k[a].mark && !l[a].mark ==> (IsObject(y.objs, a) && a < GTop(y)) || Slot(y, a))
  }

  lemma MarkedLaid(y: Layout, l: Memory, k: Memory)
    requires StacksOk(y, l) && MarkedMore(y, l, k)
    ensures Laid(k, y.objs)
  {
    forall i {:trigger ObjectAt(k, y.objs, i)} | 0 <= i < |y.objs| - 1
      ensures ObjectAt(k, y.objs, i)
    {
      assert ObjectAt(l, y.objs, i);
      Trailer(y, l, i);
    }
    assert ObjectAt(l, y.objs, |y.objs| - 2);
  }

  /** The last word of an indirect is neither an object nor a variable. */
  lemma Trailer(y: Layout, l: Memory, i: int)
    requires StacksOk(y, l) && 0 <= i < |y.objs| - 1
    ensures 0 <= y.objs[i] < y.objs[i + 1] <= |l|
    ensures l[y.objs[i]].word.Header? ==> !IsObject(y.objs, y.objs[i + 1] - 1) && !Slot(y, y.objs[i + 1] - 1)
    ensures !Slot(y, y.objs[i])
  {
    assert ObjectAt(l, y.objs, i);
    Increasing(l, y.objs, i + 1, |y.objs| - 1);
    var a := y.objs[i + 1] - 1;
    if l[y.objs[i]].word.Header? && IsObject(y.objs, a) {
      var k := Index(y.objs, a);
      if k <= i {
        Increasing(l, y.objs, k, i);
      } else {
        Increasing(l, y.objs, i + 1, k);
      }
    }
  }

  lemma MarkedWell(y: Layout, l: Memory, k: Memory)
    requires StacksOk(y, l) && MarkedMore(y, l, k)
    ensures WellFormed(HeapOf(y, k))
  {
    MarkedLaid(y, l, k);
    var h, g := HeapOf(y, l), HeapOf(y, k);
    forall a {:trigger IsObject(y.objs, a)} | IsObject(y.objs, a)
      ensures ObjectOk(g, a)
    {
      assert ObjectOk(h, a);
      SamePoints(y, l, k, l[a].word);
    }
    SameOwners(y, l, k);
  }

  lemma SamePoints(y: Layout, l: Memory, k: Memory, w: Word)
    requires |y.objs| >= 2 && MarkedMore(y, l, k)
    ensures PointsRight(HeapOf(y, k), w) == PointsRight(HeapOf(y, l), w)
  {
  }

  lemma SameOwners(y: Layout, l: Memory, k: Memory)
    requires |y.objs| >= 2 && MarkedMore(y, l, k) && ArgumentsOwned(HeapOf(y, l))
    ensures ArgumentsOwned(HeapOf(y, k))
  {
    var h, g := HeapOf(y, l), HeapOf(y, k);
    forall f
      ensures FunctorAt(g, f) == FunctorAt(h, f)
    {
    }
    hide IsObject;
    forall x | x in g.owner
      ensures var f := g.owner[x];
              && FunctorAt(g, f) && f < x <= f + g.mem[f].word.arity && IsObject(g.objs, x) && x < |g.mem|
              && IsValue(g.mem[x].word) && x < GTop(y)
    {
      assert x in h.owner && FunctorAt(h, h.owner[x]);
    }
  }

  lemma MarkedStacks(y: Layout, l: Memory, k: Memory)
    requires StacksOk(y, l) && MarkedMore(y, l, k)
    ensures StacksOk(y, k) == true
  {
    MarkedWell(y, l, k);
    forall a {:trigger Slot(y, a)} | Slot(y, a)
      ensures SlotOk(y, k, a)
    {
      assert SlotOk(y, l, a);
      SamePoints(y, l, k, l[a].word);
    }
    forall e {:trigger EntryOk(y, k, e)} | OnTrail(y, e)
      ensures EntryOk(y, k, e)
    {
      assert EntryOk(y, l, e);
    }
  }

  // ---------- what marking achieves

  /** What a marked object leads to is marked. */
  ghost predicate Closed(y: Layout, l: Memory) {
    forall a, b {:trigger Edge(HeapOf(y, l), a, b)} :: IsObject(y.objs, a) && Marked(l, a) && Edge(HeapOf(y, l), a, b) ==> Marked(l, b)
  }

  /** So is what a marked variable of a frame leads to. */
  ghost predicate SlotsClosed(y: Layout, l: Memory)
    requires |y.objs| >= 2
  {
    forall a {:trigger Slot(y, a)} :: Slot(y, a) && Marked(l, a) && l[a].word.Ptr? && l[a].word.addr <= GTop(y) ==> Marked(l, l[a].word.addr)
  }

  /** A cell from which marking starts: a variable of a frame that refers to the global stack,
      or a saved old value. */
  ghost predicate Source(y: Layout, l: Memory, s: int)
    requires |y.objs| >= 2
  {
    0 <= s < |l| && ((Slot(y, s) && l[s].word.Ptr? && l[s].word.addr <= GTop(y)) || s in y.saved)
  }

  ghost predicate Reached(y: Layout, l: Memory, x: int)
    requires |y.objs| >= 2
  {
    exists r :: Source(y, l, r) && Marked(l, r) && Reach(HeapOf(y, l), r, x)
  }

  /** Only the objects that a source reaches are marked. */
  ghost predicate Rooted(y: Layout, l: Memory)
    requires |y.objs| >= 2
  {
    forall x {:trigger Marked(l, x)} :: Marked(l, x) && IsObject(y.objs, x) ==> Reached(y, l, x)
  }

  lemma ReachInside(y: Layout, l: Memory, s: int, x: int)
    requires StacksOk(y, l) && Source(y, l, s) && Reach(HeapOf(y, l), s, x)
    ensures x == s || (IsObject(y.objs, x) && x < GTop(y))
  {
    var h := HeapOf(y, l);
    var n: nat :| ReachIn(h, s, x, n);
    var closed := iset a | a == s || (IsObject(y.objs, a) && a < GTop(y));
    forall a, b | a in closed && Edge(h, a, b)
      ensures b in closed
    {
      EdgeInside(y, l, s, a, b);
    }
    ReachClosed(h, s, x, n, closed);
  }

  lemma EdgeInside(y: Layout, l: Memory, s: int, a: int, b: int)
    requires StacksOk(y, l) && Source(y, l, s) && (a == s || IsObject(y.objs, a)) && Edge(HeapOf(y, l), a, b)
    ensures IsObject(y.objs, b) && b < GTop(y)
  {
    var h := HeapOf(y, l);
    if a != s || s in y.saved {
      assert IsObject(y.objs, a) && ObjectOk(h, a);
      if l[a].word.Functor? {
        assert FunctorAt(h, a) && b in y.owner;
      }
    } else {
      assert SlotOk(y, l, s);
    }
  }

  lemma SlotOutside(y: Layout, l: Memory, a: int)
    requires StacksOk(y, l) && a >= y.lBase
    ensures !IsObject(y.objs, a) && a !in y.owner && a !in y.saved
  {
    if IsObject(y.objs, a) {
      Increasing(l, y.objs, Index(y.objs, a), |y.objs| - 1);
    }
  }
}
