/** Early reset (pl-gc.c, mark_choicepoints()): variables that only an older choice point can
    see are reset before its frames are marked, and their trail entries are deleted. */
module EarlyReset {
  import opened Words
  import opened GlobalStack
  import opened Terms
  import opened Relocation
  import opened Marking
  import opened Stacks
  import opened MarkPhase
  import C = Compaction

  // ---------- what one scan of the trail does

  /** Trail entry e makes the scan for a choice point reset cell a. */
  ghost predicate Resets(l: Memory, top: int, e: int, a: int) {
    0 <= e < |l| && 0 <= a && l[e].word == Ptr(Address, a) && a < top && !Marked(l, a)
  }

  ghost predicate ResetBy(l: Memory, lo: int, hi: int, top: int, a: int) {
    exists e {:trigger Resets(l, top, e, a)} :: lo <= e <= hi && Resets(l, top, e, a)
  }

  /** The entry is deleted: its address is above the choice point, or not marked, or it is the
      old value that belongs to such an address. */
  ghost predicate Dropped(l: Memory, lo: int, hi: int, top: int, e: int) {
    && lo <= e <= hi && 0 <= e < |l| && l[e].word.Ptr?
    && match l[e].word.tag
       case Address => l[e].word.addr >= top || !Marked(l, l[e].word.addr)
       case _ => lo <= e - 1 && 0 <= e - 1 && l[e - 1].word.Ptr? && Resets(l, top, e - 1, l[e - 1].word.addr)
  }

  const Zero := Cell(Var, false, false)

  /** Cell a after the scan of the trail entries lo to hi. */
  ghost function ScannedCell(y: Layout, l: Memory, lo: int, hi: int, top: int, a: int): Cell
    requires 0 <= a < |l|
  {
    if (if OnTrail(y, a) then Dropped(l, lo, hi, top, a) else ResetBy(l, lo, hi, top, a)) then Zero else l[a]
  }

  ghost predicate Scanned(y: Layout, l: Memory, k: Memory, lo: int, hi: int, top: int) {
    |k| == |l| && forall a {:trigger k[a]} :: 0 <= a < |l| ==> k[a] == ScannedCell(y, l, lo, hi, top, a)
  }

  /** The entries up to te are as garbageCollect() found them. */
  ghost predicate Untouched(y: Layout, l: Memory, te: int) {
    forall e {:trigger l[e]} :: y.tBase <= e <= te && 0 <= e < |l| ==> l[e].word.Ptr?
  }

  ghost predicate HeadsAbove(t: Threads, te: int) {
    forall h {:trigger h in t.chains} :: h in t.chains ==> h > te
  }

  lemma ScanNothing(y: Layout, l: Memory, te: int, top: int)
    ensures Scanned(y, l, l, te + 1, te, top) == true
  {
  }

  /** What an entry of the trail leads to. */
  lemma EntryKind(y: Layout, l: Memory, te: int)
    requires StacksOk(y, l) && y.tBase <= te < y.tTop && l[te].word.Ptr?
    ensures 0 <= te < |l| - 1 && OnTrail(y, te + 1)
    ensures l[te].word.tag == Address || IsSavedValue(l[te].word)
    ensures l[te].word.tag == Address ==> l[te].word.addr < |l| && !OnTrail(y, l[te].word.addr)
    ensures l[te].word.tag == Address ==> l[te].word.addr !in y.trailTops && l[te].word.addr !in y.globalTops
    ensures IsSavedValue(l[te + 1].word) ==> l[te].word.tag == Address && l[te].word.addr < GTop(y)
    ensures l[te + 1].word.Ptr? && l[te + 1].word.tag != Address ==> IsSavedValue(l[te + 1].word)
  {
    assert EntryOk(y, l, te) && EntryOk(y, l, te + 1);
    var a := l[te].word.addr;
    if GlobalVar(y, l, a) {
      ObjectBelow(y, l, a);
    }
  }

  /** One turn of the scan, at an address that is reset or above the choice point. */
  lemma ScanStep(y: Layout, l: Memory, k: Memory, te: int, hi: int, top: int, n: Memory)
    requires StacksOk(y, l) && Scanned(y, l, k, te + 1, hi, top) && y.tBase <= te <= hi < y.tTop && l[te].word.Ptr?
    requires |n| == |k| && l[te].word.tag == Address && 0 <= te < |l| - 1
    requires l[te].word.addr >= top || !Marked(l, l[te].word.addr)
    requires l[te].word.addr >= top ==> !IsSavedValue(l[te + 1].word)
    requires forall a {:trigger n[a]} :: 0 <= a < |l| ==>
               n[a] == if a == te || (l[te].word.addr < top && (a == l[te].word.addr || (a == te + 1 && IsSavedValue(l[te + 1].word))))
                       then Zero else k[a]
    requires te == hi ==> !IsSavedValue(l[te + 1].word)
    ensures Scanned(y, l, n, te, hi, top) == true
  {
    EntryKind(y, l, te);
    hide StacksOk;
    forall a | 0 <= a < |l|
      ensures n[a] == ScannedCell(y, l, te, hi, top, a)
    {
      ScanCell(y, l, te, hi, top, a);
    }
  }

  lemma ScanCell(y: Layout, l: Memory, te: int, hi: int, top: int, a: int)
    requires 0 <= a < |l| && 0 <= te < |l| - 1 && te <= hi && l[te].word.Ptr? && y.tBase <= te < y.tTop
    requires l[te].word.tag == Address ==> !OnTrail(y, l[te].word.addr)
    requires l[te + 1].word.Ptr? && l[te + 1].word.tag != Address ==> IsSavedValue(l[te + 1].word)
    requires l[te].word.tag != Address ==> l[te].word.tag == TRAILVAL
    requires IsSavedValue(l[te + 1].word) ==> l[te].word.tag == Address
    ensures ScannedCell(y, l, te, hi, top, a) ==
            if a == te && Dropped(l, te, hi, top, te) then Zero
            else if Resets(l, top, te, a) && !OnTrail(y, a) then Zero
            else if a == te + 1 <= hi && IsSavedValue(l[te + 1].word) && Resets(l, top, te, l[te].word.addr) then Zero
            else ScannedCell(y, l, te + 1, hi, top, a)
  {
    if ResetBy(l, te, hi, top, a) {
      var e :| te <= e <= hi && Resets(l, top, e, a);
      assert e != te ==> ResetBy(l, te + 1, hi, top, a);
    }
    if ResetBy(l, te + 1, hi, top, a) {
      var e :| te + 1 <= e <= hi && Resets(l, top, e, a);
      assert ResetBy(l, te, hi, top, a);
    }
  }

  /** An old value, or an address that is marked, stays. */
  lemma ScanKept(y: Layout, l: Memory, k: Memory, te: int, hi: int, top: int)
    requires StacksOk(y, l) && Scanned(y, l, k, te + 1, hi, top) && y.tBase <= te <= hi < y.tTop && l[te].word.Ptr?
    requires l[te].word.tag == Address ==> l[te].word.addr < top && Marked(l, l[te].word.addr)
    ensures Scanned(y, l, k, te, hi, top) == true
  {
    EntryKind(y, l, te);
    hide StacksOk;
    forall a | 0 <= a < |l|
      ensures k[a] == ScannedCell(y, l, te, hi, top, a)
    {
      ScanCell(y, l, te, hi, top, a);
    }
  }

  // ---------- the scan keeps the stacks in order

  /** k is l with cells cleared that are not marked: variables and trail entries. */
  ghost predicate Cleared(y: Layout, l: Memory, k: Memory)
    requires |y.objs| >= 2
  {
    && |k| == |l|
    && forall a {:trigger k[a]} :: 0 <= a < |l| ==>
         k[a] == l[a] || (k[a] == Zero && !l[a].mark && (OnTrail(y, a) || Local(y, |l|, a) || GlobalVar(y, l, a)))
  }

  lemma ScanClears(y: Layout, l: Memory, k: Memory, lo: int, hi: int, top: int)
    requires StacksOk(y, l) && Scanned(y, l, k, lo, hi, top) && y.tBase <= lo && hi < y.tTop
    ensures Cleared(y, l, k) == true
  {
    forall a {:trigger k[a]} | 0 <= a < |l| && k[a] != l[a]
      ensures k[a] == Zero && !l[a].mark && (OnTrail(y, a) || Local(y, |l|, a) || GlobalVar(y, l, a))
    {
      if OnTrail(y, a) {
        TrailUnmarked(y, l, a);
      } else {
        var e :| lo <= e <= hi && Resets(l, top, e, a);
        assert EntryOk(y, l, e);
      }
    }
  }

  lemma TrailUnmarked(y: Layout, l: Memory, a: int)
    requires StacksOk(y, l) && OnTrail(y, a)
    ensures 0 <= a < |l| && !l[a].mark
  {
    SlotOutside(y, l, a);
    assert Slot(y, a) ==> Local(y, |l|, a);
  }

  lemma ClearedLaid(y: Layout, l: Memory, k: Memory)
    requires StacksOk(y, l) && Cleared(y, l, k)
    ensures Laid(k, y.objs)
  {
    forall i {:trigger ObjectAt(k, y.objs, i)} | 0 <= i < |y.objs| - 1
      ensures ObjectAt(k, y.objs, i)
    {
      assert ObjectAt(l, y.objs, i);
      Trailer(y, l, i);
      Increasing(l, y.objs, i + 1, |y.objs| - 1);
      assert y.objs[i + 1] - 1 < y.lBase;
    }
    assert ObjectAt(l, y.objs, |y.objs| - 2);
  }

  lemma ClearedObjects(y: Layout, l: Memory, k: Memory, a: int)
    requires StacksOk(y, l) && Cleared(y, l, k) && IsObject(y.objs, a)
    ensures 0 <= a < |l| && ObjectOk(HeapOf(y, k), a)
    ensures k[a] == l[a] || IsValue(l[a].word)
  {
    ObjectBelow(y, l, a);
    assert ObjectOk(HeapOf(y, l), a);
    ClearedPoints(y, l, k, l[a].word);
  }

  lemma ClearedPoints(y: Layout, l: Memory, k: Memory, w: Word)
    requires StacksOk(y, l) && Cleared(y, l, k) && PointsRight(HeapOf(y, l), w)
    ensures PointsRight(HeapOf(y, k), w)
  {
    if w.Ptr? {
      ObjectBelow(y, l, w.addr);
    }
  }

  lemma ClearedWell(y: Layout, l: Memory, k: Memory)
    requires StacksOk(y, l) && Cleared(y, l, k)
    ensures WellFormed(HeapOf(y, k))
  {
    var h, g := HeapOf(y, l), HeapOf(y, k);
    ClearedLaid(y, l, k);
    forall a {:trigger IsObject(y.objs, a)} | IsObject(y.objs, a)
      ensures ObjectOk(g, a)
    {
      ClearedObjects(y, l, k, a);
    }
    ClearedOwners(y, l, k);
  }

  lemma ClearedOwners(y: Layout, l: Memory, k: Memory)
    requires StacksOk(y, l) && Cleared(y, l, k)
    ensures ArgumentsOwned(HeapOf(y, k))
  {
    var h, g := HeapOf(y, l), HeapOf(y, k);
    forall f
      ensures FunctorAt(g, f) == FunctorAt(h, f)
      ensures FunctorAt(g, f) ==> k[f].word == l[f].word
    {
      if IsObject(y.objs, f) {
        ClearedObjects(y, l, k, f);
      }
    }
    hide IsObject;
    forall x | x in g.owner
      ensures var f := g.owner[x];
              && FunctorAt(g, f) && f < x <= f + g.mem[f].word.arity && IsObject(g.objs, x) && x < |g.mem|
              && IsValue(g.mem[x].word) && x < GTop(y)
    {
      assert x in h.owner && FunctorAt(h, h.owner[x]);
    }
  }

  lemma ClearedVar(y: Layout, l: Memory, k: Memory, a: int)
    requires |y.objs| >= 2 && Cleared(y, l, k) && GlobalVar(y, l, a)
    ensures GlobalVar(y, k, a)
  {
  }

  lemma ScanEntry(y: Layout, l: Memory, k: Memory, lo: int, hi: int, top: int, e: int)
    requires StacksOk(y, l) && Scanned(y, l, k, lo, hi, top) && Cleared(y, l, k) && OnTrail(y, e)
    requires lo <= hi ==> y.tBase <= lo && hi < y.tTop && !IsSavedValue(l[lo].word) && !IsSavedValue(l[hi + 1].word)
    requires top >= y.lBase
    ensures EntryOk(y, k, e)
  {
    assert EntryOk(y, l, e);
    if k[e] == l[e] && l[e].word.Ptr? {
      var a := l[e].word.addr;
      if GlobalVar(y, l, a) {
        ClearedVar(y, l, k, a);
      }
      if IsSavedValue(l[e].word) {
        PairKept(y, l, k, lo, hi, top, e);
      }
    }
  }

  lemma PairKept(y: Layout, l: Memory, k: Memory, lo: int, hi: int, top: int, e: int)
    requires StacksOk(y, l) && Scanned(y, l, k, lo, hi, top) && Cleared(y, l, k) && OnTrail(y, e)
    requires lo <= hi ==> y.tBase <= lo && hi < y.tTop && !IsSavedValue(l[lo].word) && !IsSavedValue(l[hi + 1].word)
    requires top >= y.lBase && k[e] == l[e] && IsSavedValue(l[e].word)
    ensures y.tBase < e && k[e - 1].word == l[e - 1].word && l[e - 1].word.Ptr?
    ensures l[e - 1].word.tag == Address && GlobalVar(y, k, l[e - 1].word.addr)
  {
    assert EntryOk(y, l, e);
    var a := l[e - 1].word.addr;
    ClearedVar(y, l, k, a);
    ObjectBelow(y, l, a);
    assert k[e - 1] == ScannedCell(y, l, lo, hi, top, e - 1);
    assert k[e] == ScannedCell(y, l, lo, hi, top, e);
  }

  lemma ScanStacks(y: Layout, l: Memory, k: Memory, lo: int, hi: int, top: int)
    requires StacksOk(y, l) && Scanned(y, l, k, lo, hi, top) && y.tBase <= lo && hi < y.tTop && top >= y.lBase
    requires lo <= hi ==> !IsSavedValue(l[lo].word) && !IsSavedValue(l[hi + 1].word)
    ensures Cleared(y, l, k) == true && StacksOk(y, k) == true
  {
    ScanClears(y, l, k, lo, hi, top);
    ClearedWell(y, l, k);
    forall e {:trigger EntryOk(y, k, e)} | OnTrail(y, e)
      ensures EntryOk(y, k, e)
    {
      ScanEntry(y, l, k, lo, hi, top, e);
    }
    assert k[y.tTop] == Zero || k[y.tTop] == l[y.tTop];
    ClearedLocals(y, l, k);
    ClearedFields(y, l, k);
  }

  lemma ClearedLocals(y: Layout, l: Memory, k: Memory)
    requires StacksOk(y, l) && Cleared(y, l, k)
    ensures LocalOk(y, k) == true && SavedOk(y, k) == true
  {
    forall a {:trigger Slot(y, a)} | Slot(y, a)
      ensures SlotOk(y, k, a)
    {
      assert SlotOk(y, l, a);
      if k[a] == l[a] && l[a].word.Ptr? && l[a].word.addr <= GTop(y) {
        ClearedPoints(y, l, k, l[a].word);
      }
    }
  }

  lemma ClearedFields(y: Layout, l: Memory, k: Memory)
    requires StacksOk(y, l) && Cleared(y, l, k)
    ensures MarkFieldsOk(y, k) == true
  {
    forall c | c in y.trailTops || c in y.globalTops
      ensures c < |l| && k[c] == l[c]
    {
      assert y.lBase <= c < |l| && !OnTrail(y, c);
      if IsObject(y.objs, c) {
        ObjectBelow(y, l, c);
      }
    }
  }

  // ---------- and what is live

  lemma ClearedEdges(y: Layout, l: Memory, k: Memory, a: int, b: int)
    requires |y.objs| >= 2 && Cleared(y, l, k) && Marked(l, a)
    ensures Marked(k, a) && k[a] == l[a]
    ensures Edge(HeapOf(y, k), a, b) == Edge(HeapOf(y, l), a, b)
  {
  }

  lemma ClearedMarks(y: Layout, l: Memory, k: Memory, a: int)
    requires |y.objs| >= 2 && Cleared(y, l, k)
    ensures Marked(k, a) == Marked(l, a)
  {
  }

  lemma ClearedClosed(y: Layout, l: Memory, k: Memory)
    requires |y.objs| >= 2 && Cleared(y, l, k) && Closed(y, l) && SlotsClosed(y, l)
    ensures Closed(y, k) == true && SlotsClosed(y, k) == true
  {
    forall a, b {:trigger Edge(HeapOf(y, k), a, b)} | IsObject(y.objs, a) && Marked(k, a) && Edge(HeapOf(y, k), a, b)
      ensures Marked(k, b)
    {
      ClearedMarks(y, l, k, a);
      ClearedEdges(y, l, k, a, b);
      ClearedMarks(y, l, k, b);
    }
    forall a {:trigger Slot(y, a)} | Slot(y, a) && Marked(k, a) && k[a].word.Ptr? && k[a].word.addr <= GTop(y)
      ensures Marked(k, k[a].word.addr)
    {
      ClearedMarks(y, l, k, a);
      ClearedMarks(y, l, k, k[a].word.addr);
    }
  }

  lemma ClearedReach(y: Layout, l: Memory, k: Memory, r: int, x: int)
    requires StacksOk(y, l) && Cleared(y, l, k) && Closed(y, l) && SlotsClosed(y, l)
    requires Source(y, l, r) && Marked(l, r) && Reach(HeapOf(y, l), r, x)
    ensures Reach(HeapOf(y, k), r, x)
  {
    var h, g := HeapOf(y, l), HeapOf(y, k);
    var n: nat :| ReachIn(h, r, x, n);
    var closed := iset a | (a == r || IsObject(y.objs, a)) && Marked(l, a) && Reach(g, r, a);
    ReachSelf(g, r);
    forall a, b | a in closed && Edge(h, a, b)
      ensures b in closed
    {
      EdgeInside(y, l, r, a, b);
      MarkedEdge(y, l, r, a, b);
      ClearedEdges(y, l, k, a, b);
      ReachStep(g, r, a, b);
    }
    ReachClosed(h, r, x, n, closed);
  }

  lemma MarkedEdge(y: Layout, l: Memory, r: int, a: int, b: int)
    requires StacksOk(y, l) && Closed(y, l) && SlotsClosed(y, l) && Source(y, l, r)
    requires (a == r || IsObject(y.objs, a)) && Marked(l, a) && Edge(HeapOf(y, l), a, b)
    ensures Marked(l, b)
  {
    if !IsObject(y.objs, a) {
      SourceKind(y, l, r);
    }
  }

  lemma ClearedRooted(y: Layout, l: Memory, k: Memory)
    requires StacksOk(y, l) && Cleared(y, l, k) && Closed(y, l) && SlotsClosed(y, l) && Rooted(y, l)
    ensures Rooted(y, k) == true
  {
    hide StacksOk, Closed, SlotsClosed, Reach;
    forall x {:trigger Marked(k, x)} | Marked(k, x) && IsObject(y.objs, x)
      ensures Reached(y, k, x)
    {
      ClearedMarks(y, l, k, x);
      assert Marked(l, x) && Reached(y, l, x);
      var r :| Source(y, l, r) && Marked(l, r) && Reach(HeapOf(y, l), r, x);
      ClearedReach(y, l, k, r, x);
      ClearedMarks(y, l, k, r);
      assert Source(y, k, r);
    }
  }

  lemma {:induction false} ClearedCounts(y: Layout, l: Memory, k: Memory, t: Threads, total: int, local: int, needs: int)
    requires |y.objs| >= 2 && Cleared(y, l, k) && Counting(y, l, t, total, local, needs)
    ensures Counting(y, k, t, total, local, needs) == true
  {
    NewAtSame(y.objs, l, k, |y.objs| - 1);
    ClearedSets(y, l, k);
    hide NewAt, MarkedSlots, Pointers, Stale;
  }

  lemma ClearedSets(y: Layout, l: Memory, k: Memory)
    requires |y.objs| >= 2 && Cleared(y, l, k)
    ensures MarkedSlots(y, k) == MarkedSlots(y, l)
    ensures Pointers(HeapOf(y, k), k) == Pointers(HeapOf(y, l), l) && Stale(y, k) == Stale(y, l)
  {
    forall x | 0 <= x < |l|
      ensures x in MarkedSlots(y, k) <==> x in MarkedSlots(y, l)
      ensures x in Pointers(HeapOf(y, k), k) <==> x in Pointers(HeapOf(y, l), l)
      ensures x in Stale(y, k) <==> x in Stale(y, l)
    {
      assert k[x] == l[x] || (!k[x].mark && !l[x].mark);
    }
  }

  lemma ScanLive(y: Layout, l: Memory, k: Memory, lo: int, hi: int, top: int)
    requires Live(y, l) == true && Scanned(y, l, k, lo, hi, top) == true && y.tBase <= lo && hi < y.tTop && top >= y.lBase
    requires |y.objs| >= 2 && 0 <= lo && (lo <= hi ==> hi + 1 < |l| && !IsSavedValue(l[lo].word) && !IsSavedValue(l[hi + 1].word))
    ensures Live(y, k) == true && Cleared(y, l, k) == true
  {
    hide *;
    LiveParts(y, l);
    ScanStacks(y, l, k, lo, hi, top);
    ClearedClosed(y, l, k);
    ClearedRooted(y, l, k);
    LiveWhole(y, k);
  }

  // ---------- the scan

  /** `*p = 0` for a cell that is on no chain. */
  method ClearCell(ld: LocalData, a: nat)
    requires ld.Consistent() == true && a < ld.mem.Length && a !in ld.threads.chains && a !in ld.threads.rank
    modifies ld`logical, ld.mem
    ensures ld.Consistent() == true && a < |old(ld.logical)| == ld.mem.Length
    ensures ld.logical == old(ld.logical)[a := Zero] && ld.mem[..] == old(ld.mem[..])[a := Zero]
  {
    hide *;
    C.IsThreaded(ld);
    C.Counters(ld);
    C.Length(ld, ld.logical);
    ghost var m := ld.mem[..];
    Write(m, ld.logical, ld.threads, a, Zero);
    ld.mem[a] := Zero;
    assert ld.mem[..] == m[a := Zero];
    ld.logical := ld.logical[a := Zero];
    C.MakeConsistent(ld);
  }

  /** What the scan reads at entry te. */
  lemma ScanReads(y: Layout, l: Memory, k: Memory, m: Memory, t: Threads, te: int, hi: int, top: int)
    requires StacksOk(y, l) && Scanned(y, l, k, te + 1, hi, top) && y.tBase <= te <= hi < y.tTop && Untouched(y, l, te)
    requires Threaded(m, k, t) && Away(y, t) && HeadsAbove(t, te) && MarkedTops(y, l, t)
    requires te == hi ==> !IsSavedValue(l[te + 1].word)
    ensures 0 <= te < |m| - 1 && |m| == |k| == |l| && m[te].word == l[te].word && l[te].word.Ptr?
    ensures te !in t.chains && te !in t.rank
    ensures l[te].word.tag == Address ==>
              && (var a := l[te].word.addr; a < |m| && m[a].mark == Marked(l, a) && a !in t.chains && a !in t.rank && a != te && a != te + 1)
    ensures IsSavedValue(m[te + 1].word) <==> IsSavedValue(l[te + 1].word)
    ensures IsSavedValue(l[te + 1].word) ==> te + 1 !in t.chains && te + 1 !in t.rank
    ensures l[te].word.tag != Address ==> l[te].word.tag == TRAILVAL
    ensures IsSavedValue(l[te + 1].word) ==> l[te].word.tag == Address && l[te].word.addr < GTop(y)
  {
    EntryKind(y, l, te);
    assert k[te] == ScannedCell(y, l, te + 1, hi, top, te);
    TrailReads(y, m, k, t, te);
    NextReads(y, l, k, m, t, te, hi, top);
    if l[te].word.tag == Address {
      var a := l[te].word.addr;
      AddressOff(y, l, t, te);
      ScanClears(y, l, k, te + 1, hi, top);
      Reads(m, k, t, a);
      ClearedMarks(y, l, k, a);
    }
  }

  lemma AddressOff(y: Layout, l: Memory, t: Threads, te: int)
    requires StacksOk(y, l) && Away(y, t) && y.tBase <= te < y.tTop && l[te].word.Ptr? && l[te].word.tag == Address
    ensures l[te].word.addr !in t.chains && l[te].word.addr !in t.rank
  {
    EntryKind(y, l, te);
  }

  /** The threaded saved trail tops lead to entries that hold no old value. */
  ghost predicate MarkedTops(y: Layout, l: Memory, t: Threads) {
    && (forall c {:trigger c in t.rank} :: c in t.rank ==> 0 <= c < |l| && l[c].word.Ptr? && l[c].word.tag == Address)
    && (forall h {:trigger h in t.chains} :: h in t.chains ==> 0 <= h < |l| && !IsSavedValue(l[h].word))
  }

  lemma TrailReads(y: Layout, m: Memory, k: Memory, t: Threads, te: int)
    requires Threaded(m, k, t) && Away(y, t) && HeadsAbove(t, te) && OnTrail(y, te) && 0 <= te < |m|
    requires forall c :: c in y.trailTops ==> !OnTrail(y, c)
    ensures te !in t.chains && te !in t.rank && m[te] == k[te]
  {
    Reads(m, k, t, te);
  }

  lemma NextReads(y: Layout, l: Memory, k: Memory, m: Memory, t: Threads, te: int, hi: int, top: int)
    requires StacksOk(y, l) && Scanned(y, l, k, te + 1, hi, top) && y.tBase <= te <= hi < y.tTop && l[te].word.Ptr?
    requires Threaded(m, k, t) && Away(y, t) && MarkedTops(y, l, t)
    requires te == hi ==> !IsSavedValue(l[te + 1].word)
    ensures 0 <= te < |m| - 1
    ensures IsSavedValue(m[te + 1].word) <==> IsSavedValue(l[te + 1].word)
    ensures IsSavedValue(l[te + 1].word) ==> te + 1 !in t.chains && te + 1 !in t.rank
  {
    EntryKind(y, l, te);
    var e := te + 1;
    assert k[e] == ScannedCell(y, l, te + 1, hi, top, e);
    assert IsSavedValue(l[e].word) ==> !Dropped(l, te + 1, hi, top, e);
    if e in t.chains {
      HeadTag(m, k, t, e);
      var c := t.chains[e][|t.chains[e]| - 1];
      assert c in t.rank;
      ScanClears(y, l, k, te + 1, hi, top);
    } else {
      Reads(m, k, t, e);
    }
  }

  lemma HeadTag(m: Memory, k: Memory, t: Threads, e: int)
    requires Threaded(m, k, t) && e in t.chains
    ensures 0 <= e < |m| && |t.chains[e]| > 0
    ensures var c := t.chains[e][|t.chains[e]| - 1];
            c in t.rank && 0 <= c < |k| && k[c].word.Ptr? && m[e].word == Ptr(k[c].word.tag, c)
  {
    assert m[e].first;
  }

  lemma TopsKept(y: Layout, l: Memory, t: Threads)
    requires StacksOk(y, l) && Indexed(l, t) && Away(y, t)
    ensures MarkedTops(y, l, t) == true
  {
    forall h {:trigger h in t.chains} | h in t.chains
      ensures 0 <= h < |l| && !IsSavedValue(l[h].word)
    {
      var c := t.chains[h][0];
      assert c in t.rank && c in y.trailTops;
    }
  }

  lemma HeadsLower(t: Threads, start: int, te: int)
    requires HeadsAbove(t, start) == true && te <= start
    ensures HeadsAbove(t, te) == true
  {
  }

  lemma UntouchedLower(y: Layout, l: Memory, te: int)
    requires Untouched(y, l, te) == true
    ensures Untouched(y, l, te - 1) == true
  {
  }

  /** The loop `for( ; te >= tm; te-- )` of mark_choicepoints(). */
  method ScanTrail(ld: LocalData, start: int, tm: nat, top: int, ghost y: Layout, ghost k: int) returns (te: int)
    requires Phase(ld, y, k) == true && |y.objs| >= 2 && y.tBase <= start + 1 && start < y.tTop && y.tBase <= tm && 0 <= y.tBase
    requires HeadsAbove(ld.threads, start) == true && Untouched(y, ld.logical, start) == true && top >= y.lBase
    requires tm < |ld.logical| && !IsSavedValue(ld.logical[tm].word)
    requires start + 1 < |ld.logical| && !IsSavedValue(ld.logical[start + 1].word)
    modifies ld`logical, ld.mem
    ensures Phase(ld, y, k) == true
    ensures te == if start < tm then start else tm - 1
    ensures Scanned(y, old(ld.logical), ld.logical, te + 1, start, top) == true
  {
    hide *;
    ghost var l, t := ld.logical, ld.threads;
    var mem := ld.mem;
    te := start;
    PhaseParts(ld, y, k);
    LiveParts(y, l);
    ThreadedIndexed(mem[..], l, t);
    TopsKept(y, l, t);
    ScanNothing(y, l, te, top);
    while te >= tm
      invariant te == (if start < tm then start else te) && te <= start && (te < start ==> te >= tm - 1)
      invariant ld.Consistent() == true && Scanned(y, l, ld.logical, te + 1, start, top) == true
      invariant HeadsAbove(t, te) == true && Untouched(y, l, te) == true
    {
      ghost var cur := ld.logical;
      C.IsThreaded(ld);
      ScanReads(y, l, cur, mem[..], t, te, start, top);
      var w := mem[te].word;
      if !IsSavedValue(w) {
        NotSaved(w);
        var tard := w.addr;
        if tard >= top {
          AboveGlobal(y, l, tard, top);
          ClearCell(ld, te);
          ScanStep(y, l, cur, te, start, top, ld.logical);
        } else if !mem[tard].mark {
          ClearCell(ld, tard);
          if IsSavedValue(mem[te + 1].word) {
            ClearCell(ld, te + 1);
          }
          ClearCell(ld, te);
          ScanStep(y, l, cur, te, start, top, ld.logical);
        } else {
          ScanKept(y, l, cur, te, start, top);
        }
      } else {
        SavedTag(w);
        ScanKept(y, l, cur, te, start, top);
      }
      HeadsLower(t, te, te - 1);
      UntouchedLower(y, l, te);
      te := te - 1;
    }
    ScanLive(y, l, ld.logical, te + 1, start, top);
    ClearedCounts(y, l, ld.logical, t, ld.totalMarked, ld.localMarked, ld.needsRelocation);
    C.IsThreaded(ld);
    BoundsAre(ld, y);
    PhaseWhole(ld, y, k);
  }

  lemma ThreadedIndexed(m: Memory, l: Memory, t: Threads)
    requires Threaded(m, l, t) == true
    ensures Indexed(l, t) == true && |m| == |l|
  {
  }

  lemma SavedTag(w: Word)
    requires IsSavedValue(w)
    ensures w.Ptr? && w.tag != Address
  {
  }

  lemma NotSaved(w: Word)
    requires !IsSavedValue(w) && w.Ptr? && (w.tag != Address ==> w.tag == TRAILVAL)
    ensures w.tag == Address
  {
  }

  lemma AboveGlobal(y: Layout, l: Memory, a: int, top: int)
    requires StacksOk(y, l) && a >= top >= y.lBase
    ensures a >= GTop(y)
  {
    assert ObjectAt(l, y.objs, |y.objs| - 2);
  }

  // ---------- threading a saved trail top

  lemma TopThreadable(y: Layout, m: Memory, l: Memory, t: Threads, k: int)
    requires StacksOk(y, l) && Threaded(m, l, t) && 0 <= k < |y.trailTops| && TopsThreaded(y, t, k)
    ensures var c := y.trailTops[k];
            && c < |l| == |m| && l[c].word.Ptr? && OnTrail(y, l[c].word.addr) && m[c] == l[c]
            && l[c].word.addr < |l| && !IsSavedValue(l[l[c].word.addr].word)
            && Threadable(l, t, l[c].word.addr, c) == true
  {
    var c := y.trailTops[k];
    assert c in y.trailTops;
    NotYet(y, k);
    Reads(m, l, t, c);
  }

  lemma NotYet(y: Layout, k: int)
    requires Distinct(y.trailTops) && 0 <= k < |y.trailTops|
    ensures y.trailTops[k] !in y.trailTops[..k]
  {
  }

  lemma TopsPushed(y: Layout, l: Memory, t: Threads, k: int)
    requires StacksOk(y, l) && 0 <= k < |y.trailTops| && TopsThreaded(y, t, k)
    requires y.trailTops[k] < |l| && l[y.trailTops[k]].word.Ptr?
    ensures TopsThreaded(y, Push(t, l[y.trailTops[k]].word.addr, y.trailTops[k]), k + 1) == true
    ensures |Push(t, l[y.trailTops[k]].word.addr, y.trailTops[k]).rank| == |t.rank| + 1
  {
    var c := y.trailTops[k];
    assert c in y.trailTops && OnTrail(y, l[c].word.addr);
    NotYet(y, k);
    hide StacksOk;
    PushedTop(y, t, k, l[c].word.addr);
    RankPushed(t, l[c].word.addr, c);
  }

  lemma PushedTop(y: Layout, t: Threads, k: int, h: nat)
    requires 0 <= k < |y.trailTops| && TopsThreaded(y, t, k) && OnTrail(y, h)
    ensures TopsThreaded(y, Push(t, h, y.trailTops[k]), k + 1) == true
  {
    var c, u := y.trailTops[k], Push(t, h, y.trailTops[k]);
    assert y.trailTops[..k + 1] == y.trailTops[..k] + [c];
    assert forall a :: a in u.rank <==> a in t.rank || a == c;
    assert forall a :: a in u.chains <==> a in t.chains || a == h;
  }

  lemma RankPushed(t: Threads, h: nat, c: nat)
    requires c !in t.rank
    ensures |Push(t, h, c).rank| == |t.rank| + 1
  {
    assert Push(t, h, c).rank.Keys == t.rank.Keys + {c};
  }

  lemma {:induction false} CountingPushed(y: Layout, l: Memory, t: Threads, u: Threads, total: int, local: int, needs: int)
    requires |y.objs| >= 2 && Counting(y, l, t, total, local, needs) && |u.rank| == |t.rank| + 1
    ensures Counting(y, l, u, total, local, needs + 1) == true
  {
    hide NewAt, MarkedSlots, Pointers, Stale;
  }

  lemma HeadsPushed(t: Threads, h: nat, c: nat, te: int)
    requires HeadsAbove(t, te) == true && te < h
    ensures HeadsAbove(Push(t, h, c), te) == true
  {
  }

  /** `needsRelocation(&ch->mark.trailtop); alien_into_relocation_chain(&ch->mark.trailtop, ...)` */
  method ThreadTop(ld: LocalData, c: nat, ghost y: Layout, ghost k: int, ghost te: int)
    requires Phase(ld, y, k) == true && 0 <= k < |y.trailTops| && c == y.trailTops[k]
    requires c < |ld.logical| && ld.logical[c].word.Ptr? && te < ld.logical[c].word.addr
    requires HeadsAbove(ld.threads, te) == true
    modifies ld`needsRelocation, ld`relocationChains, ld`relocationCells, ld`threads, ld.mem
    ensures Phase(ld, y, k + 1) == true && HeadsAbove(ld.threads, te) == true
  {
    hide *;
    ghost var l, t := ld.logical, ld.threads;
    PhaseParts(ld, y, k);
    LiveParts(y, l);
    TopThreadable(y, ld.mem[..], l, t, k);
    TopsPushed(y, l, t, k);
    CountingPushed(y, l, t, Push(t, l[c].word.addr, c), ld.totalMarked, ld.localMarked, ld.needsRelocation);
    HeadsPushed(t, l[c].word.addr, c, te);
    ld.needsRelocation := ld.needsRelocation + 1;
    C.MakeConsistent(ld);
    IntoRelocationChain(ld, c);
    C.IsThreaded(ld);
    C.Counters(ld);
    BoundsAre(ld, y);
    PhaseWhole(ld, y, k + 1);
  }

  // ---------- the choice points

  /** What happens for one choice point: the frames of its query are marked, the trail is
      scanned from `te` down, and the frames of the choice point are marked. */
  datatype Stage = Stage(start: Memory, te: int, before: Memory, scanned: Memory)

  ghost predicate AllIn(l: Memory, slots: seq<nat>) {
    forall a {:trigger a in slots} :: a in slots ==> Marked(l, a)
  }

  ghost predicate HasStage(y: Layout, j: int, st: Stage, after: Memory, te: int)
    requires |y.objs| >= 2 && 0 <= j < |y.choices| && j < |y.trailTops|
  {
    && MarkedMore(y, st.start, st.before) && Live(y, st.before) && Live(y, after)
    && SlotsAdded(y, st.start, st.before, y.choices[j].query) && SlotsAdded(y, st.scanned, after, y.choices[j].frames)
    && y.trailTops[j] < |st.start| && st.start[y.trailTops[j]].word.Ptr?
    && (var tm := st.start[y.trailTops[j]].word.addr;
        te == if st.te < tm then st.te else tm - 1)
    && Scanned(y, st.before, st.scanned, te + 1, st.te, y.choices[j].top)
    && MarkedMore(y, st.scanned, after)
  }

  /** The choice points passed so far, and where that left memory and the trail scan. */
  ghost predicate History(y: Layout, l0: Memory, hs: seq<Stage>, l: Memory, te: int)
    requires |y.objs| >= 2 && |hs| <= |y.choices| && |hs| <= |y.trailTops|
  {
    if hs == [] then l == l0 && te == y.tTop - 1
    else
      var j := |hs| - 1;
      History(y, l0, hs[..j], hs[j].start, hs[j].te) && HasStage(y, j, hs[j], l, te)
  }

  lemma ChoiceTop(y: Layout, l: Memory, j: int)
    requires StacksOk(y, l) && 0 <= j < |y.trailTops|
    ensures y.trailTops[j] < |l| && l[y.trailTops[j]].word.Ptr?
    ensures var tm := l[y.trailTops[j]].word.addr; y.tBase <= tm <= y.tTop && tm < |l| && !IsSavedValue(l[tm].word)
  {
    assert y.trailTops[j] in y.trailTops;
  }

  lemma SlotsOfChoice(y: Layout, j: int)
    requires 0 <= j < |y.choices|
    ensures forall a :: a in y.choices[j].query ==> Slot(y, a)
    ensures forall a :: a in y.choices[j].frames ==> Slot(y, a)
  {
  }

  lemma MoreWords(y: Layout, l: Memory, k: Memory, te: int)
    requires |y.objs| >= 2 && MarkedMore(y, l, k) == true
    ensures |k| == |l| && forall a {:trigger k[a]} :: 0 <= a < |l| ==> k[a].word == l[a].word
    ensures Untouched(y, l, te) ==> Untouched(y, k, te) == true
  {
  }

  lemma ScanUntouched(y: Layout, l: Memory, k: Memory, lo: int, hi: int, top: int)
    requires StacksOk(y, l) && Scanned(y, l, k, lo, hi, top) == true && Untouched(y, l, hi) && hi < y.tTop && y.tBase <= lo
    requires lo - 1 <= hi
    ensures Untouched(y, k, lo - 1) == true
    ensures |k| == |l| && forall a {:trigger k[a]} :: 0 <= a < |l| ==> k[a].word == l[a].word || k[a].word == Var
    ensures forall a {:trigger a in y.trailTops} :: a in y.trailTops ==> a < |l| && k[a] == l[a]
  {
    forall e | y.tBase <= e <= lo - 1 && 0 <= e < |k|
      ensures k[e].word.Ptr?
    {
      assert k[e] == ScannedCell(y, l, lo, hi, top, e);
      assert OnTrail(y, e) && l[e].word.Ptr?;
    }
    ScanClears(y, l, k, lo, hi, top);
    assert forall a :: 0 <= a < |l| ==> k[a] == l[a] || k[a] == Zero;
    ClearedFieldCells(y, l, k);
  }

  lemma ClearedFieldCells(y: Layout, l: Memory, k: Memory)
    requires StacksOk(y, l) && Cleared(y, l, k)
    ensures forall c {:trigger c in y.trailTops} :: c in y.trailTops ==> c < |l| && k[c] == l[c]
  {
    forall c | c in y.trailTops
      ensures c < |l| && k[c] == l[c]
    {
      assert y.lBase <= c < |l| && !OnTrail(y, c);
      if IsObject(y.objs, c) {
        ObjectBelow(y, l, c);
      }
    }
  }

  ghost predicate ChoicesDone(y: Layout, l: Memory, j: int)
    requires 0 <= j <= |y.choices|
  {
    forall i {:trigger y.choices[i]} :: 0 <= i < j ==> AllIn(l, y.choices[i].query) && AllIn(l, y.choices[i].frames)
  }

  /** The state of mark_stacks() before choice point j. */
  ghost predicate AtChoice(y: Layout, l: Memory, t: Threads, j: int, te: int)
    requires |y.objs| >= 2
  {
    && 0 <= j <= |y.choices| && 0 <= y.tBase <= te + 1 && te < y.tTop < |l|
    && HeadsAbove(t, te) && Untouched(y, l, te) && !IsSavedValue(l[te + 1].word)
    && ChoicesDone(y, l, j)
  }

  lemma MarksStay(y: Layout, l: Memory, k: Memory)
    requires |y.objs| >= 2 && (MarkedMore(y, l, k) == true || Cleared(y, l, k) == true)
    ensures forall a {:trigger Marked(k, a)} :: Marked(l, a) ==> Marked(k, a)
  {
    if Cleared(y, l, k) {
      forall a | Marked(l, a)
        ensures Marked(k, a)
      {
        assert k[a] == l[a];
      }
    }
  }

  lemma DoneStays(y: Layout, l: Memory, k: Memory, j: int)
    requires |y.objs| >= 2 && (MarkedMore(y, l, k) == true || Cleared(y, l, k) == true) && 0 <= j <= |y.choices|
    ensures ChoicesDone(y, l, j) ==> ChoicesDone(y, k, j) == true
    ensures forall s {:trigger AllIn(k, s)} :: AllIn(l, s) ==> AllIn(k, s)
  {
    MarksStay(y, l, k);
    forall s: seq<nat> | AllIn(l, s)
      ensures AllIn(k, s)
    {
      assert forall a :: a in s ==> Marked(l, a);
    }
    if ChoicesDone(y, l, j) {
      forall i {:trigger y.choices[i]} | 0 <= i < j
        ensures AllIn(k, y.choices[i].query) && AllIn(k, y.choices[i].frames)
      {
        assert AllIn(l, y.choices[i].query) && AllIn(l, y.choices[i].frames);
      }
    }
  }

  lemma ChoiceDone(y: Layout, l: Memory, j: int)
    requires 0 <= j < |y.choices| && ChoicesDone(y, l, j) == true && AllIn(l, y.choices[j].query) && AllIn(l, y.choices[j].frames)
    ensures ChoicesDone(y, l, j + 1) == true
  {
  }

  lemma AllOfThem(y: Layout, l: Memory, k: Memory, slots: seq<nat>)
    requires SlotsAdded(y, l, k, slots) == true && forall a :: a in slots ==> Slot(y, a)
    ensures AllIn(k, slots) == true
  {
  }

  /** One turn of the loop over the choice points. */
  method MarkChoice(ld: LocalData, start: int, ghost y: Layout, top: int, trailTop: nat, query: seq<nat>, frames: seq<nat>,
      ghost j: int) returns (te: int, ghost st: Stage)
    requires |y.objs| >= 2 && Phase(ld, y, j) == true && 0 <= j < |y.choices| && j < |y.trailTops|
    requires AtChoice(y, ld.logical, ld.threads, j, start) == true
    requires top == y.choices[j].top >= y.lBase && trailTop == y.trailTops[j]
    requires query == y.choices[j].query && frames == y.choices[j].frames
    modifies ld`totalMarked, ld`needsRelocation, ld`localMarked, ld`relocationChains, ld`relocationCells, ld`threads, ld`logical, ld.mem
    ensures Phase(ld, y, j + 1) == true && AtChoice(y, ld.logical, ld.threads, j + 1, te) == true
    ensures st.start == old(ld.logical) && st.te == start && HasStage(y, j, st, ld.logical, te) == true
  {
    hide *;
    ghost var l := ld.logical;
    SlotsOfChoice(y, j);
    AtChoiceParts(y, l, ld.threads, j, start);
    MarkSlots(ld, query, y, j);
    ghost var before := ld.logical;
    AllOfThem(y, l, before, query);
    MoreWords(y, l, before, start);
    PhaseParts(ld, y, j);
    ChoiceTop(y, before, j);
    TopThreadable(y, ld.mem[..], before, ld.threads, j);
    var tm := ld.mem[trailTop].word.addr;
    te := ScanTrail(ld, start, tm, top, y, j);
    ghost var scanned := ld.logical;
    LiveParts(y, before);
    ScanUntouched(y, before, scanned, te + 1, start, top);
    ScanLive(y, before, scanned, te + 1, start, top);
    assert trailTop in y.trailTops;
    HeadsLower(ld.threads, start, te);
    assert !IsSavedValue(before[te + 1].word);
    ThreadTop(ld, trailTop, y, j, te);
    MarkSlots(ld, frames, y, j + 1);
    AllOfThem(y, scanned, ld.logical, frames);
    PhaseParts(ld, y, j + 1);
    st := Stage(l, start, before, scanned);
    StageHolds(y, j, st, ld.logical, te, tm);
    ChoiceEnds(y, st, ld.logical, ld.threads, j, te, tm);
  }

  lemma StageHolds(y: Layout, j: int, st: Stage, after: Memory, te: int, tm: nat)
    requires |y.objs| >= 2 && 0 <= j < |y.choices| && j < |y.trailTops|
    requires MarkedMore(y, st.start, st.before) == true && y.trailTops[j] < |st.before| && st.before[y.trailTops[j]].word.Ptr?
    requires st.before[y.trailTops[j]].word.addr == tm && te == if st.te < tm then st.te else tm - 1
    requires Scanned(y, st.before, st.scanned, te + 1, st.te, y.choices[j].top) == true
    requires MarkedMore(y, st.scanned, after) == true && Live(y, st.before) == true && Live(y, after) == true
    requires SlotsAdded(y, st.start, st.before, y.choices[j].query) == true && SlotsAdded(y, st.scanned, after, y.choices[j].frames) == true
    ensures HasStage(y, j, st, after, te) == true
  {
  }

  lemma ChoiceEnds(y: Layout, st: Stage, after: Memory, t: Threads, j: int, te: int, tm: nat)
    requires |y.objs| >= 2 && 0 <= j < |y.choices|
    requires MarkedMore(y, st.start, st.before) == true && MarkedMore(y, st.scanned, after) == true
    requires Cleared(y, st.before, st.scanned) == true && ChoicesDone(y, st.start, j) == true
    requires AllIn(st.before, y.choices[j].query) == true && AllIn(after, y.choices[j].frames) == true
    requires 0 <= y.tBase <= te + 1 && te < y.tTop < |after| && HeadsAbove(t, te) == true && Untouched(y, st.scanned, te) == true
    requires |st.before| == |after| && !IsSavedValue(st.before[te + 1].word)
    ensures AtChoice(y, after, t, j + 1, te) == true
  {
    DoneStays(y, st.start, st.before, j);
    DoneStays(y, st.before, st.scanned, j);
    DoneStays(y, st.scanned, after, j);
    MoreWords(y, st.scanned, after, te);
    assert AllIn(st.scanned, y.choices[j].query) && AllIn(after, y.choices[j].query);
    ChoiceDone(y, after, j);
  }

  lemma AtChoiceParts(y: Layout, l: Memory, t: Threads, j: int, te: int)
    requires |y.objs| >= 2 && AtChoice(y, l, t, j, te) == true
    ensures 0 <= j <= |y.choices| && 0 <= y.tBase <= te + 1 && te < y.tTop < |l|
    ensures HeadsAbove(t, te) == true && Untouched(y, l, te) == true && !IsSavedValue(l[te + 1].word) && ChoicesDone(y, l, j) == true
  {
  }

  lemma {:induction false} HistoryGrows(y: Layout, l0: Memory, hs: seq<Stage>, st: Stage, after: Memory, te: int)
    requires |y.objs| >= 2 && |hs| < |y.choices| && |hs| < |y.trailTops|
    requires History(y, l0, hs, st.start, st.te) == true && HasStage(y, |hs|, st, after, te) == true
    ensures History(y, l0, hs + [st], after, te) == true
  {
    assert (hs + [st])[..|hs|] == hs;
  }

  /** The local stack is discarded from some address in it. */
  ghost predicate TopsLocal(y: Layout) {
    forall j {:trigger y.choices[j]} :: 0 <= j < |y.choices| ==> y.choices[j].top >= y.lBase
  }

  lemma TopLocal(y: Layout, j: int)
    requires TopsLocal(y) && 0 <= j < |y.choices|
    ensures y.choices[j].top >= y.lBase
  {
  }

  lemma HistoryStarts(y: Layout, l: Memory)
    requires |y.objs| >= 2
    ensures History(y, l, [], l, y.tTop - 1) == true
  {
  }

  lemma FirstChoice(y: Layout, l: Memory, t: Threads)
    requires StacksOk(y, l) && Untouched(y, l, y.tTop - 1) && forall h :: h !in t.chains
    ensures AtChoice(y, l, t, 0, y.tTop - 1) == true
  {
  }

  /** pl-gc.c, mark_stacks(). */
  method MarkStacks(ld: LocalData, choices: seq<Choice>, trailTops: seq<nat>, ghost y: Layout) returns (ghost hs: seq<Stage>, ghost te: int)
    requires |y.objs| >= 2 && Phase(ld, y, 0) == true && choices == y.choices && trailTops == y.trailTops && |choices| <= |trailTops|
    requires TopsLocal(y) == true && AtChoice(y, ld.logical, ld.threads, 0, y.tTop - 1) == true
    modifies ld`totalMarked, ld`needsRelocation, ld`localMarked, ld`relocationChains, ld`relocationCells, ld`threads, ld`logical, ld.mem
    ensures Phase(ld, y, |choices|) == true && ChoicesDone(y, ld.logical, |choices|) == true
    ensures |hs| == |choices| && History(y, old(ld.logical), hs, ld.logical, te) == true
  {
    hide *;
    hs := [];
    te := ld.tTop - 1;
    var scan := ld.tTop - 1;
    PhaseParts(ld, y, 0);
    HistoryStarts(y, ld.logical);
    for j := 0 to |choices|
      invariant Phase(ld, y, j) == true && AtChoice(y, ld.logical, ld.threads, j, scan) == true
      invariant te == scan && |hs| == j && History(y, old(ld.logical), hs, ld.logical, te) == true
    {
      TopLocal(y, j);
      ghost var st: Stage;
      scan, st := MarkChoice(ld, scan, y, choices[j].top, trailTops[j], choices[j].query, choices[j].frames, j);
      HistoryGrows(y, old(ld.logical), hs, st, ld.logical, scan);
      te, hs := scan, hs + [st];
    }
    AtChoiceParts(y, ld.logical, ld.threads, |choices|, scan);
  }

  lemma NoHeads(y: Layout, l: Memory, t: Threads)
    requires StacksOk(y, l) && Indexed(l, t) && TopsThreaded(y, t, 0)
    ensures Unthreaded(t) == true && forall h :: h !in t.chains && h !in t.rank
  {
    NoneThreaded(l, t);
    assert t.chains.Keys == {};
  }

  lemma SavedSource(y: Layout, l: Memory, e: int)
    requires StacksOk(y, l) && OnTrail(y, e) && 0 <= e < |l| && IsSavedValue(l[e].word)
    ensures var a := l[e].word.addr; a < |l| && Source(y, l, a) == true && a in y.saved && Plain(y, a) && a < y.lBase
  {
    assert EntryOk(y, l, e);
    ObjectBelow(y, l, l[e].word.addr);
  }

  ghost predicate SavedMarked(y: Layout, l: Memory, lo: int) {
    forall e {:trigger l[e]} :: y.tBase <= e < y.tTop && lo <= e && 0 <= e < |l| && IsSavedValue(l[e].word) ==> Marked(l, l[e].word.addr)
  }

  lemma SavedStays(y: Layout, l: Memory, k: Memory, lo: int)
    requires |y.objs| >= 2 && MarkedMore(y, l, k) == true && SavedMarked(y, l, lo) == true
    ensures SavedMarked(y, k, lo) == true
  {
  }

  lemma ButParts(ld: LocalData, y: Layout, k: int, extra: int)
    requires PhaseBut(ld, y, k, extra) == true
    ensures |y.objs| >= 2 && Bounds(ld, y) == true && Threaded(ld.mem[..], ld.logical, ld.threads) == true && Live(y, ld.logical) == true
    ensures 0 <= k <= |y.trailTops| && TopsThreaded(y, ld.threads, k) == true
    ensures Counting(y, ld.logical, ld.threads, ld.totalMarked + extra, ld.localMarked - extra, ld.needsRelocation) == true
    ensures ld.gBase == y.objs[0] && ld.gTop == GTop(y) && ld.lBase == y.lBase && ld.tBase == y.tBase && ld.tTop == y.tTop
    ensures ld.relocationChains == |ld.threads.chains| && ld.relocationCells - ld.relocatedCells == |ld.threads.rank|
  {
  }

  lemma SavedOne(y: Layout, l: Memory, e: int)
    requires SavedMarked(y, l, e + 1) == true && 0 <= e < |l| && (IsSavedValue(l[e].word) ==> Marked(l, l[e].word.addr))
    ensures SavedMarked(y, l, e) == true
  {
  }

  /** pl-gc.c, mark_trail(): the old values of destructive assignments are marked. */
  method MarkTrail(ld: LocalData, ghost y: Layout)
    requires |y.objs| >= 2 && Phase(ld, y, 0) == true
    modifies ld`totalMarked, ld`needsRelocation, ld`localMarked, ld`logical, ld.mem
    ensures Phase(ld, y, 0) == true && MarkedMore(y, old(ld.logical), ld.logical) == true
    ensures SavedMarked(y, ld.logical, y.tBase) == true && SlotsAdded(y, old(ld.logical), ld.logical, []) == true
  {
    hide *;
    ghost var l0 := ld.logical;
    MoreSame(y, l0);
    NoneAdded(y, l0);
    PhaseParts(ld, y, 0);
    TrailBounds(y, l0);
    var te := ld.tTop - 1;
    while te >= ld.tBase
      invariant ld.tBase - 1 <= te < ld.tTop
      invariant Phase(ld, y, 0) == true && MarkedMore(y, l0, ld.logical) == true && SavedMarked(y, ld.logical, te + 1) == true
      invariant SlotsAdded(y, l0, ld.logical, []) == true
    {
      ghost var l, t := ld.logical, ld.threads;
      PhaseParts(ld, y, 0);
      TrailBounds(y, l);
      ThreadedIndexed(ld.mem[..], l, t);
      NoHeads(y, l, t);
      Reads(ld.mem[..], l, t, te);
      if IsSavedValue(ld.mem[te].word) {
        SavedSource(y, l, te);
        LiveParts(y, l);
        SavedTag(ld.mem[te].word);
        var gp := ld.mem[te].word.addr;
        PlainCell(y, ld.mem[..], l, t, gp);
        if !ld.mem[gp].mark {
          MarkRoot(ld, gp, y, 0);
          ButParts(ld, y, 0, 1);
          ld.totalMarked := ld.totalMarked + 1;
          ld.localMarked := ld.localMarked - 1;
          BoundsAre(ld, y);
          PhaseWhole(ld, y, 0);
          MoreAgain(y, l0, l, ld.logical);
          StillNone(y, l0, l, ld.logical, gp);
          SavedStays(y, l, ld.logical, te + 1);
          MoreLength(y, l, ld.logical);
        } else {
          MarkedThere(l, gp);
        }
      }
      SavedOne(y, ld.logical, te);
      te := te - 1;
    }
  }

  /** An old value is not in a frame. */
  lemma StillNone(y: Layout, l0: Memory, l: Memory, k: Memory, s: int)
    requires StacksOk(y, l) && s in y.saved && SlotsAdded(y, l0, l, []) == true
    requires forall a {:trigger Slot(y, a)} :: Slot(y, a) && a != s ==> Marked(k, a) == Marked(l, a)
    ensures SlotsAdded(y, l0, k, []) == true
  {
    if Slot(y, s) {
      SlotSource(y, l, s);
    }
  }

  lemma TrailBounds(y: Layout, l: Memory)
    requires Live(y, l) == true
    ensures 0 <= y.tBase <= y.tTop < |l|
    ensures forall lo {:trigger SavedMarked(y, l, lo)} :: lo >= y.tTop ==> SavedMarked(y, l, lo)
    ensures forall e {:trigger OnTrail(y, e)} :: y.tBase <= e <= y.tTop ==> OnTrail(y, e)
  {
  }

  /** pl-gc.c, mark_foreign_trail_refs(). */
  method MarkForeignTops(ld: LocalData, trailTops: seq<nat>, from: nat, ghost y: Layout)
    requires |y.objs| >= 2 && from <= |trailTops| && trailTops == y.trailTops && Phase(ld, y, from) == true
    modifies ld`needsRelocation, ld`relocationChains, ld`relocationCells, ld`threads, ld.mem
    ensures Phase(ld, y, |trailTops|) == true
  {
    hide *;
    for k := from to |trailTops|
      invariant Phase(ld, y, k) == true
    {
      PhaseParts(ld, y, k);
      LiveParts(y, ld.logical);
      ChoiceTop(y, ld.logical, k);
      HeadsPositive(ld.mem[..], ld.logical, ld.threads);
      ThreadTop(ld, trailTops[k], y, k, -1);
    }
  }

  lemma HeadsPositive(m: Memory, l: Memory, t: Threads)
    requires Threaded(m, l, t) == true
    ensures HeadsAbove(t, -1) == true
  {
  }

  // ---------- the whole phase

  ghost predicate NoMarks(y: Layout, l: Memory)
    requires |y.objs| >= 2
  {
    forall a {:trigger l[a]} :: 0 <= a < |l| && l[a].mark ==> Unused(y, a)
  }

  /** The stacks as garbageCollect() finds them. */
  ghost predicate Ready(ld: LocalData, y: Layout)
    reads ld, ld.mem
  {
    && Bounds(ld, y) && StacksOk(y, ld.mem[..]) && NoMarks(y, ld.mem[..]) && Untouched(y, ld.mem[..], y.tTop - 1) && TopsLocal(y)
  }

  lemma {:induction false} NothingLive(y: Layout, l: Memory, i: int)
    requires StacksOk(y, l) && NoMarks(y, l) && 0 <= i < |y.objs|
    ensures NewAt(l, y.objs, i) == y.objs[0]
    decreases i
  {
    if i > 0 {
      NothingLive(y, l, i - 1);
      Increasing(l, y.objs, i - 1, |y.objs| - 1);
    }
  }

  lemma PlainThreaded(m: Memory)
    ensures Threaded(m, m, Threads(map[], map[])) == true
  {
  }

  lemma PhaseStarts(ld: LocalData, y: Layout)
    requires Ready(ld, y) == true && ld.logical == ld.mem[..] && ld.threads == Threads(map[], map[])
    requires ld.totalMarked == 0 && ld.localMarked == 0 && ld.needsRelocation == 0
    requires ld.relocationChains == 0 && ld.relocationCells == 0 && ld.relocatedCells == 0
    ensures Phase(ld, y, 0) == true && |y.objs| >= 2 && TopsLocal(y) == true && StacksOk(y, ld.logical) == true && NoMarks(y, ld.logical) == true
    ensures AtChoice(y, ld.logical, ld.threads, 0, y.tTop - 1) == true
  {
    var l := ld.logical;
    ReadyParts(ld, y);
    hide *;
    NoneOn(ld.threads);
    FirstChoice(y, l, ld.threads);
    LiveStart(y, l);
    LiveParts(y, l);
    PlainThreaded(l);
    CountNothing(y, l, ld.threads);
    TopsNone(y, ld.threads);
    PhaseWhole(ld, y, 0);
  }

  lemma ReadyParts(ld: LocalData, y: Layout)
    requires Ready(ld, y) == true
    ensures |y.objs| >= 2 && TopsLocal(y) == true && StacksOk(y, ld.mem[..]) == true && NoMarks(y, ld.mem[..]) == true
    ensures Bounds(ld, y) == true && Untouched(y, ld.mem[..], y.tTop - 1) == true
  {
  }

  lemma NoneOn(t: Threads)
    requires t == Threads(map[], map[])
    ensures |t.chains| == 0 && |t.rank| == 0 && (forall h :: h !in t.chains) && forall h :: h !in t.rank
  {
  }

  lemma TopsNone(y: Layout, t: Threads)
    requires t == Threads(map[], map[])
    ensures TopsThreaded(y, t, 0) == true
  {
  }

  lemma {:induction false} CountNothing(y: Layout, l: Memory, t: Threads)
    requires StacksOk(y, l) == true && |y.objs| >= 2 && NoMarks(y, l) == true && t == Threads(map[], map[])
    ensures Counting(y, l, t, 0, 0, 0) == true
  {
    hide *;
    NothingLive(y, l, |y.objs| - 1);
    NothingMarked(y, l);
    NothingCounted(y, l);
    NoThreads(t);
    CountsAre(y, l, t);
  }

  lemma NoThreads(t: Threads)
    requires t == Threads(map[], map[])
    ensures |t.rank| == 0
  {
  }

  lemma NothingCounted(y: Layout, l: Memory)
    requires |y.objs| >= 2 && forall a {:trigger Marked(l, a)} :: Marked(l, a) ==> Unused(y, a) && !Slot(y, a)
    ensures |MarkedSlots(y, l)| == 0 && Pointers(HeapOf(y, l), l) == Stale(y, l)
  {
    hide Slot;
    forall a
      ensures a !in MarkedSlots(y, l) && (a in Pointers(HeapOf(y, l), l) <==> a in Stale(y, l))
    {
      assert 0 <= a < |l| && l[a].mark ==> Marked(l, a);
    }
    assert MarkedSlots(y, l) == {};
  }

  lemma CountsAre(y: Layout, l: Memory, t: Threads)
    requires |y.objs| >= 2 && NewAt(l, y.objs, |y.objs| - 1) == y.objs[0] && |MarkedSlots(y, l)| == 0
    requires Pointers(HeapOf(y, l), l) == Stale(y, l) && |t.rank| == 0
    ensures Counting(y, l, t, 0, 0, 0) == true
  {
    hide NewAt, MarkedSlots, Pointers, Stale, HeapOf;
  }

  lemma NothingMarked(y: Layout, l: Memory)
    requires StacksOk(y, l) && NoMarks(y, l)
    ensures forall a {:trigger Marked(l, a)} :: Marked(l, a) ==> Unused(y, a) && !IsObject(y.objs, a) && !Slot(y, a)
  {
    forall a {:trigger Marked(l, a)} | Marked(l, a)
      ensures Unused(y, a) && !IsObject(y.objs, a) && !Slot(y, a)
    {
      BetweenStacks(y, l, a);
    }
  }

  lemma LiveStart(y: Layout, l: Memory)
    requires StacksOk(y, l) && NoMarks(y, l)
    ensures Live(y, l) == true
  {
    NothingMarked(y, l);
    hide Reach;
  }

  ghost predicate AllSlotsMarked(y: Layout, l: Memory) {
    forall a {:trigger Slot(y, a)} :: Slot(y, a) ==> Marked(l, a)
  }

  lemma SlotsCovered(y: Layout, l: Memory)
    requires ForeignDone(y, l, |y.foreign|) && ChoicesDone(y, l, |y.choices|)
    ensures AllSlotsMarked(y, l) == true
  {
  }

  lemma ChoiceStays(y: Layout, l: Memory, k: Memory, t: Threads, te: int)
    requires |y.objs| >= 2 && AtChoice(y, l, t, 0, te) == true && MarkedMore(y, l, k) == true
    ensures AtChoice(y, k, t, 0, te) == true
  {
    MoreWords(y, l, k, te);
  }

  lemma {:induction false} HistoryMarks(y: Layout, l0: Memory, hs: seq<Stage>, l: Memory, te: int, slots: seq<nat>)
    requires |y.objs| >= 2 && |hs| <= |y.choices| && |hs| <= |y.trailTops| && History(y, l0, hs, l, te) == true
    requires AllIn(l0, slots) == true && forall a :: a in slots ==> !OnTrail(y, a)
    ensures AllIn(l, slots) == true
    decreases |hs|
  {
    if hs != [] {
      var j := |hs| - 1;
      HistoryMarks(y, l0, hs[..j], hs[j].start, hs[j].te, slots);
      forall a | a in slots
        ensures Marked(l, a)
      {
        StageMarks(y, j, hs[j], l, te, a);
      }
    }
  }

  lemma StageMarks(y: Layout, j: int, st: Stage, after: Memory, te: int, a: int)
    requires |y.objs| >= 2 && 0 <= j < |y.choices| && j < |y.trailTops| && HasStage(y, j, st, after, te)
    requires Marked(st.start, a) && !OnTrail(y, a)
    ensures Marked(after, a)
  {
  }

  ghost predicate ForeignDone(y: Layout, l: Memory, k: int)
    requires 0 <= k <= |y.foreign|
  {
    forall i {:trigger y.foreign[i]} :: 0 <= i < k ==> AllIn(l, y.foreign[i])
  }

  lemma ForeignNext(y: Layout, l: Memory, r: Memory, k: int)
    requires |y.objs| >= 2 && 0 <= k < |y.foreign| && ForeignDone(y, l, k) == true && MarkedMore(y, l, r) == true
    requires AllIn(r, y.foreign[k]) == true
    ensures ForeignDone(y, r, k + 1) == true
  {
    DoneStays(y, l, r, 0);
    assert forall i :: 0 <= i < k ==> AllIn(l, y.foreign[i]);
  }

  /** pl-gc.c, mark_term_refs(). */
  method MarkTermRefs(ld: LocalData, foreign: seq<seq<nat>>, ghost y: Layout)
    requires |y.objs| >= 2 && Phase(ld, y, 0) == true && foreign == y.foreign && NoMarks(y, ld.logical) == true
    modifies ld`totalMarked, ld`needsRelocation, ld`localMarked, ld`logical, ld.mem
    ensures Phase(ld, y, 0) == true && MarkedMore(y, old(ld.logical), ld.logical) == true
    ensures ForeignDone(y, ld.logical, |y.foreign|) == true && ForeignOnly(y, ld.logical, |y.foreign|) == true
  {
    hide *;
    ghost var l0 := ld.logical;
    MoreSame(y, l0);
    PhaseParts(ld, y, 0);
    NoneForeign(y, l0);
    for k := 0 to |foreign|
      invariant Phase(ld, y, 0) == true && MarkedMore(y, l0, ld.logical) == true && ForeignDone(y, ld.logical, k) == true
      invariant ForeignOnly(y, ld.logical, k) == true
    {
      ghost var l := ld.logical;
      SlotsOfForeign(y, k);
      MarkSlots(ld, foreign[k], y, 0);
      AllOfThem(y, l, ld.logical, foreign[k]);
      OnlyNext(y, l, ld.logical, k);
      ForeignNext(y, l, ld.logical, k);
      MoreAgain(y, l0, l, ld.logical);
    }
  }

  lemma NoneForeign(y: Layout, l: Memory)
    requires StacksOk(y, l) && NoMarks(y, l)
    ensures ForeignDone(y, l, 0) == true && ForeignOnly(y, l, 0) == true
  {
    NothingMarked(y, l);
  }

  /** The marked variables are those of the first k foreign frames. */
  ghost predicate ForeignOnly(y: Layout, l: Memory, k: int)
    requires 0 <= k <= |y.foreign|
  {
    forall a {:trigger Slot(y, a)} :: Slot(y, a) ==> (Marked(l, a) <==> exists i {:trigger y.foreign[i]} :: 0 <= i < k && a in y.foreign[i])
  }

  lemma OnlyNext(y: Layout, l: Memory, r: Memory, k: int)
    requires 0 <= k < |y.foreign| && ForeignOnly(y, l, k) && SlotsAdded(y, l, r, y.foreign[k])
    ensures ForeignOnly(y, r, k + 1) == true
  {
    forall a {:trigger Slot(y, a)} | Slot(y, a)
      ensures Marked(r, a) <==> exists i {:trigger y.foreign[i]} :: 0 <= i < k + 1 && a in y.foreign[i]
    {
      if i :| 0 <= i < k + 1 && a in y.foreign[i] {
        assert i < k ==> Marked(l, a);
      }
    }
  }

  // ---------- the variables that have been passed

  /** Variable a is passed before choice point j: it is a foreign reference, or in a frame of an
      earlier choice point or its query. */
  ghost predicate Passed(y: Layout, j: int, a: int) {
    || (exists k {:trigger y.foreign[k]} :: 0 <= k < |y.foreign| && a in y.foreign[k])
    || (exists i {:trigger y.choices[i]} :: 0 <= i < j && i < |y.choices| && (a in y.choices[i].query || a in y.choices[i].frames))
  }

  /** The marked variables of frames are those passed before choice point j. */
  ghost predicate SlotsAre(y: Layout, l: Memory, j: int) {
    forall a {:trigger Slot(y, a)} :: Slot(y, a) ==> (Marked(l, a) <==> Passed(y, j, a))
  }

  lemma ForeignPassed(y: Layout, l: Memory, k: Memory)
    requires ForeignOnly(y, l, |y.foreign|) == true && SlotsAdded(y, l, k, []) == true
    ensures SlotsAre(y, k, 0) == true
  {
  }

  lemma SlotsOfForeign(y: Layout, k: int)
    requires 0 <= k < |y.foreign|
    ensures forall a :: a in y.foreign[k] ==> Slot(y, a)
  {
  }

  lemma {:induction false} ForeignStays(y: Layout, l: Memory, pre: Memory, hs: seq<Stage>, r: Memory, te: int)
    requires StacksOk(y, r) == true && |y.objs| >= 2 && ForeignDone(y, l, |y.foreign|) == true && MarkedMore(y, l, pre) == true
    requires |hs| <= |y.choices| && |hs| <= |y.trailTops| && History(y, pre, hs, r, te) == true
    ensures ForeignDone(y, r, |y.foreign|) == true
  {
    forall i {:trigger y.foreign[i]} | 0 <= i < |y.foreign|
      ensures AllIn(r, y.foreign[i])
    {
      assert AllIn(l, y.foreign[i]);
      DoneStays(y, l, pre, 0);
      assert AllIn(pre, y.foreign[i]);
      hide AllIn, History;
      ForeignOffTrail(y, r, i);
      HistoryMarks(y, pre, hs, r, te, y.foreign[i]);
    }
  }

  lemma ForeignOffTrail(y: Layout, l: Memory, i: int)
    requires StacksOk(y, l) && 0 <= i < |y.foreign|
    ensures forall a :: a in y.foreign[i] ==> !OnTrail(y, a)
  {
    assert forall a :: a in y.foreign[i] ==> Slot(y, a);
  }

  /** pl-gc.c, mark_phase(). */
  method MarkAll(ld: LocalData, foreign: seq<seq<nat>>, choices: seq<Choice>, trailTops: seq<nat>, ghost y: Layout)
      returns (ghost pre: Memory, ghost hs: seq<Stage>, ghost te: int)
    requires |y.objs| >= 2 && Phase(ld, y, 0) == true && TopsLocal(y) == true && NoMarks(y, ld.logical) == true
    requires AtChoice(y, ld.logical, ld.threads, 0, y.tTop - 1) == true
    requires foreign == y.foreign && choices == y.choices && trailTops == y.trailTops && |choices| <= |trailTops|
    modifies ld`totalMarked, ld`needsRelocation, ld`localMarked, ld`relocationChains, ld`relocationCells, ld`threads, ld`logical, ld.mem
    ensures Phase(ld, y, |trailTops|) == true && AllSlotsMarked(y, ld.logical) == true
    ensures MarkedMore(y, old(ld.logical), pre) == true && SavedMarked(y, pre, y.tBase) == true
    ensures SlotsAre(y, pre, 0) == true
    ensures |hs| == |choices| && History(y, pre, hs, ld.logical, te) == true
  {
    hide *;
    ghost var l := ld.logical;
    MarkTermRefs(ld, foreign, y);
    ghost var mid := ld.logical;
    MarkTrail(ld, y);
    pre := ld.logical;
    MoreAgain(y, l, mid, pre);
    ForeignPassed(y, mid, pre);
    ChoiceStays(y, l, pre, ld.threads, y.tTop - 1);
    hs, te := MarkStacks(ld, choices, trailTops, y);
    PhaseParts(ld, y, |choices|);
    ForeignStays(y, mid, pre, hs, ld.logical, te);
    SlotsCovered(y, ld.logical);
    MarkForeignTops(ld, trailTops, |choices|, y);
  }
}
