/** Garbage collection (pl-gc.c, garbageCollect()): marking, compaction of the trail, the
    sweeps, and compaction of the global stack. */
module GarbageCollection {
  import opened Words
  import opened GlobalStack
  import opened Terms
  import opened Relocation
  import opened Stacks
  import opened Marking
  import opened MarkPhase
  import C = Compaction
  import E = EarlyReset
  import T = TrailCompaction
  import S = Sweep

  /** Where compact_global() starts. */
  ghost function PlanOf(y: Layout, l: Memory, t: Threads): C.Plan {
    C.Plan(l, y.objs, t.rank.Keys, y.lBase)
  }

  lemma PlanRoots(y: Layout, l0: Memory, d: S.Done, m: Memory, l: Memory, t: Threads, r: int)
    requires S.SweepState(y, l0, d, m, l, t) && r in t.rank
    ensures C.RootOk(PlanOf(y, l, t), r) && r >= y.lBase
  {
    S.RootTarget(y, l0, d, l, r);
    assert l[r].first == false by {
      S.SweptAt(y, l0, d, l, r);
    }
  }

  lemma PlanObject(y: Layout, l0: Memory, d: S.Done, l: Memory, a: int)
    requires S.Sweepable(y, l0, d.top) && S.DoneOk(y, d) && S.Swept(y, l0, d, l) && 0 <= a < y.lBase
    ensures a < |l| == |l0| && l[a] == l0[a]
  {
    S.GlobalUnswept(y, l0, d, a);
    assert Placed(y, |l0|);
    S.SweptAt(y, l0, d, l, a);
  }

  lemma PlanLaid(y: Layout, l0: Memory, d: S.Done, l: Memory)
    requires S.Sweepable(y, l0, d.top) && S.DoneOk(y, d) && S.Swept(y, l0, d, l)
    ensures Laid(l, y.objs) == true && y.objs[|y.objs| - 1] <= y.lBase
    ensures forall i {:trigger y.objs[i]} :: 0 <= i < |y.objs| - 1 ==> 0 <= y.objs[i] < |l| && !l[y.objs[i]].first
  {
    forall i {:trigger y.objs[i]} | 0 <= i < |y.objs| - 1
      ensures ObjectAt(l, y.objs, i) && 0 <= y.objs[i] < |l| && !l[y.objs[i]].first && l[y.objs[i]] == l0[y.objs[i]]
    {
      assert ObjectAt(l0, y.objs, i) && IsObject(y.objs, y.objs[i]);
      Increasing(l0, y.objs, i + 1, |y.objs| - 1);
      S.ObjectInRange(y, l0, d.top, y.objs[i]);
      PlanObject(y, l0, d, l, y.objs[i]);
      PlanObject(y, l0, d, l, y.objs[i + 1] - 1);
    }
    assert ObjectAt(l0, y.objs, |y.objs| - 2);
    assert ObjectAt(l, y.objs, |y.objs| - 2);
  }

  lemma PlanPointer(y: Layout, l0: Memory, d: S.Done, l: Memory, t: Threads, a: int)
    requires S.Sweepable(y, l0, d.top) && S.DoneOk(y, d) && S.Swept(y, l0, d, l) && C.PtrCell(PlanOf(y, l, t), a)
    ensures var w := l[a].word;
            w.tag != Address && w.addr != a && IsObject(y.objs, w.addr) && w.addr < |l| && l[w.addr].mark
  {
    S.ObjectInRange(y, l0, d.top, a);
    PlanObject(y, l0, d, l, a);
    assert ObjectOk(HeapOf(y, l0), a);
    var b := l0[a].word.addr;
    assert Edge(HeapOf(y, l0), a, b) && Marked(l0, a);
    assert Marked(l0, b);
    S.ObjectInRange(y, l0, d.top, b);
    PlanObject(y, l0, d, l, b);
  }

  lemma PlanSound(y: Layout, l0: Memory, d: S.Done, m: Memory, l: Memory, t: Threads)
    requires S.SweepState(y, l0, d, m, l, t) == true
    ensures |y.objs| >= 2 && C.Sound(PlanOf(y, l, t)) == true
  {
    var p := PlanOf(y, l, t);
    SweepFacts(y, l0, d, m, l, t);
    PlanLaid(y, l0, d, l);
    hide S.SweepState, S.Sweepable, S.Swept, S.DoneOk, Threaded;
    forall r | r in p.roots
      ensures C.RootOk(p, r)
    {
      PlanRoots(y, l0, d, m, l, t, r);
    }
    forall a {:trigger C.PtrCell(p, a)} | C.PtrCell(p, a)
      ensures var w := p.start[a].word;
              w.tag != Address && w.addr != a && IsObject(p.objs, w.addr) && w.addr < |p.start| && p.start[w.addr].mark
    {
      PlanPointer(y, l0, d, l, t, a);
    }
  }

  lemma SweepFacts(y: Layout, l0: Memory, d: S.Done, m: Memory, l: Memory, t: Threads)
    requires S.SweepState(y, l0, d, m, l, t) == true
    ensures S.Sweepable(y, l0, d.top) == true && S.DoneOk(y, d) == true && |y.objs| >= 2 && S.Swept(y, l0, d, l) == true
    ensures |l| == |l0| && S.RankIs(y, l0, d, l, t) == true && Threaded(m, l, t) == true
  {
  }

  // ---------- the counters agree

  /** The global stack is the same in both memories. */
  ghost predicate SameGlobal(y: Layout, l: Memory, k: Memory) {
    |k| == |l| && y.lBase <= |l| && forall a {:trigger k[a]} :: 0 <= a < y.lBase ==> k[a] == l[a]
  }

  lemma SweptGlobal(y: Layout, l: Memory, k: Memory, d: S.Done, n: Memory)
    requires SameBelow(y, l, k) == true && S.Sweepable(y, k, d.top) == true && S.DoneOk(y, d) == true && |y.objs| >= 2
    requires S.Swept(y, k, d, n) == true
    ensures SameGlobal(y, l, n) == true
  {
    assert Placed(y, |k|);
    forall a | 0 <= a < y.lBase
      ensures n[a] == l[a]
    {
      PlanObject(y, k, d, n, a);
      assert Plain(y, a);
    }
  }

  lemma {:induction false} SameNewAt(y: Layout, l: Memory, k: Memory, i: int)
    requires SameGlobal(y, l, k) == true && 0 <= i < |y.objs| && y.objs[|y.objs| - 1] <= y.lBase && Laid(l, y.objs) == true
    ensures NewAt(k, y.objs, i) == NewAt(l, y.objs, i)
    decreases i
  {
    if i > 0 {
      SameNewAt(y, l, k, i - 1);
      Increasing(l, y.objs, i - 1, |y.objs| - 1);
      assert ObjectAt(l, y.objs, i - 1);
    }
  }

  /** The live objects below object i that hold a pointer. */
  ghost function PtrCells(p: C.SoundPlan, i: int): (s: set<int>)
    requires 0 <= i < |p.objs|
  {
    set a | p.objs[0] <= a < p.objs[i] && C.PtrCell(p, a)
  }

  lemma {:induction false} PtrCellsCount(p: C.SoundPlan, i: int)
    requires 0 <= i < |p.objs|
    ensures |PtrCells(p, i)| == C.PtrCount(p, i)
    decreases i
  {
    if i == 0 {
      assert PtrCells(p, 0) == {};
    } else {
      PtrCellsCount(p, i - 1);
      C.ObjectInside(p, i - 1);
      PtrCellsStep(p, i);
      assert p.objs[i - 1] !in PtrCells(p, i - 1);
    }
  }

  lemma PtrCellsStep(p: C.SoundPlan, i: int)
    requires 0 < i < |p.objs|
    ensures PtrCells(p, i) == PtrCells(p, i - 1) + (if C.PtrCell(p, p.objs[i - 1]) then {p.objs[i - 1]} else {})
  {
    C.ObjectInside(p, i - 1);
    C.LowestFirst(p, i - 1);
    forall a | a in PtrCells(p, i)
      ensures a in PtrCells(p, i - 1) || a == p.objs[i - 1]
    {
      C.TargetBelow(p, i, a);
    }
    hide C.PtrCell;
    assert p.objs[0] <= p.objs[i - 1] < p.objs[i];
  }

  lemma {:induction false} PointersSplit(y: Layout, l: Memory, p: C.SoundPlan)
    requires Live(y, l) && p.objs == y.objs && p.lBase == y.lBase && SameGlobal(y, l, p.start)
    ensures |Pointers(HeapOf(y, l), l)| == C.PtrCount(p, |p.objs| - 1) + |MarkedSlots(y, l)| + |Stale(y, l)|
  {
    hide *;
    LiveParts(y, l);
    var n := |p.objs| - 1;
    PtrCellsCount(p, n);
    forall a
      ensures a in Pointers(HeapOf(y, l), l) <==> a in PtrCells(p, n) || a in MarkedSlots(y, l) || a in Stale(y, l)
      ensures !(a in PtrCells(p, n) && a in MarkedSlots(y, l))
      ensures a in Stale(y, l) ==> a !in PtrCells(p, n) && a !in MarkedSlots(y, l)
    {
      if Unused(y, a) {
        StaleKind(y, l, p, a);
      } else {
        PointerKind(y, l, p, a);
      }
    }
    assert Pointers(HeapOf(y, l), l) == PtrCells(p, n) + MarkedSlots(y, l) + Stale(y, l);
    assert PtrCells(p, n) !! MarkedSlots(y, l);
    assert (PtrCells(p, n) + MarkedSlots(y, l)) !! Stale(y, l);
  }

  lemma StaleKind(y: Layout, l: Memory, p: C.SoundPlan, a: int)
    requires Live(y, l) && p.objs == y.objs && p.lBase == y.lBase && Unused(y, a)
    ensures a in Pointers(HeapOf(y, l), l) <==> a in Stale(y, l)
    ensures a !in PtrCells(p, |p.objs| - 1) && a !in MarkedSlots(y, l)
  {
    BetweenStacks(y, l, a);
  }

  lemma PointerKind(y: Layout, l: Memory, p: C.SoundPlan, a: int)
    requires Live(y, l) && p.objs == y.objs && p.lBase == y.lBase && SameGlobal(y, l, p.start) && !Unused(y, a)
    ensures a in Pointers(HeapOf(y, l), l) <==> a in PtrCells(p, |p.objs| - 1) || a in MarkedSlots(y, l)
    ensures !(a in PtrCells(p, |p.objs| - 1) && a in MarkedSlots(y, l)) && a !in Stale(y, l)
  {
    if IsObject(y.objs, a) {
      ObjectBelow(y, l, a);
      C.ObjectInside(p, Index(y.objs, a));
      Increasing(l, y.objs, 0, Index(y.objs, a));
      Increasing(l, y.objs, Index(y.objs, a), |y.objs| - 1);
      assert ObjectOk(HeapOf(y, l), a);
      assert a < y.objs[|y.objs| - 1];
      if Slot(y, a) {
        SlotNoObject(y, l, a);
      }
    } else {
      assert a !in PtrCells(p, |p.objs| - 1);
    }
  }

  // ---------- where everything is afterwards

  /** The address to which the object at a moves: gBase plus the live words below it. */
  ghost function Home(y: Layout, l: Memory, a: int): int
    requires IsObject(y.objs, a)
  {
    NewAt(l, y.objs, Index(y.objs, a))
  }

  /** A word whose pointer follows its object. */
  ghost function Renamed(y: Layout, l: Memory, w: Word): Word {
    if w.Ptr? && IsObject(y.objs, w.addr) && Home(y, l, w.addr) >= 0 then Ptr(w.tag, Home(y, l, w.addr)) else w
  }

  /** Live object i stands at its new address; if it is an indirect its words came along. */
  ghost predicate ObjectHome(y: Layout, l: Memory, m: Memory, i: int)
    requires 0 <= i < |y.objs| - 1
  {
    var o, d, size := y.objs[i], NewAt(l, y.objs, i), y.objs[i + 1] - y.objs[i];
    Marked(l, o) ==>
      && 0 <= d < d + size <= |m| && o + size <= |l|
      && m[d] == Cell(Renamed(y, l, l[o].word), false, false)
      && forall w {:trigger m[w]} :: d < w < d + size ==> m[w] == l[o + (w - d)]
  }

  ghost predicate GlobalHome(y: Layout, l: Memory, m: Memory) {
    forall i {:trigger ObjectHome(y, l, m, i)} :: 0 <= i < |y.objs| - 1 ==> ObjectHome(y, l, m, i)
  }

  ghost predicate SlotsHome(y: Layout, l: Memory, m: Memory)
    requires |l| == |m|
  {
    forall a {:trigger Slot(y, a)} :: Slot(y, a) ==> 0 <= a < |l| && m[a] == Cell(Renamed(y, l, l[a].word), false, false)
  }

  /** A saved top of the global stack leads above the same live words, a saved trail top above
      the same entries that are left. */
  ghost predicate TopsHome(y: Layout, l: Memory, m: Memory)
    requires |l| == |m|
  {
    && (forall c {:trigger c in y.globalTops} :: c in y.globalTops ==>
          c < |l| && l[c].word.Ptr? && IsObject(y.objs, l[c].word.addr) && m[c].word.Ptr? && m[c].word.tag == Address && m[c].word.addr == Home(y, l, l[c].word.addr))
    && (forall c {:trigger c in y.trailTops} :: c in y.trailTops ==>
          c < |l| && l[c].word.Ptr? && m[c].word.Ptr? && m[c].word.tag == Address && m[c].word.addr == T.NewEntry(y, l, l[c].word.addr))
  }

  ghost predicate TrailHome(y: Layout, l: Memory, m: Memory)
    requires |l| == |m|
  {
    forall e {:trigger l[e]} :: y.tBase <= e < y.tTop && 0 <= e < |l| && l[e].word != Var ==>
      0 <= T.NewEntry(y, l, e) < |m| && m[T.NewEntry(y, l, e)].word == Renamed(y, l, l[e].word)
  }

  ghost predicate RestHome(y: Layout, l: Memory, m: Memory)
    requires |l| == |m|
  {
    forall a {:trigger m[a]} :: 0 <= a < |l| && Local(y, |l|, a) && !Slot(y, a) ==> m[a] == l[a]
  }

  /** No bit of the collector is left outside the global stack. */
  ghost predicate BitsHome(y: Layout, l: Memory, m: Memory)
    requires |l| == |m| && |y.objs| >= 2
  {
    && (forall a {:trigger m[a]} :: y.lBase <= a < |m| && 0 <= a ==> !m[a].mark && !m[a].first)
    && (forall a {:trigger m[a]} :: 0 <= a < |m| && a < y.objs[0] ==> m[a] == l[a])
  }

  /** Memory m is what garbage collection makes of memory l, in which what is live is marked. */
  ghost predicate Collected(y: Layout, l: Memory, m: Memory) {
    |m| == |l| && GlobalHome(y, l, m) && SlotsHome(y, l, m) && TopsHome(y, l, m) && TrailHome(y, l, m) && RestHome(y, l, m)
    && |y.objs| >= 2 && BitsHome(y, l, m)
  }

  /** From the end of the mark phase (l), over the compacted trail (k) and the sweeps (n), to the
      end (m). */
  ghost predicate Phases(y: Layout, l: Memory, k: Memory, d: S.Done, n: Memory, t: Threads, m: Memory) {
    && Live(y, l) && AllMarked(y, l) && T.Compacted(y, l, k) && SameGlobal(y, l, n) && SameBelow(y, l, k)
    && |y.objs| >= 2 && S.Sweepable(y, k, d.top) && S.DoneOk(y, d) && S.Swept(y, k, d, n) && S.RankIs(y, k, d, n, t) && S.Complete(y, k, d)
    && d.top == T.NewEntry(y, l, y.tTop)
    && C.Sound(PlanOf(y, n, t)) && C.Compacted(PlanOf(y, n, t), m)
  }

  ghost predicate AllMarked(y: Layout, l: Memory) {
    E.AllSlotsMarked(y, l)
  }

  lemma SameHome(y: Layout, l: Memory, n: Memory, t: Threads, a: int)
    requires Live(y, l) && SameGlobal(y, l, n) && C.Sound(PlanOf(y, n, t)) && IsObject(y.objs, a)
    ensures C.NewAddr(PlanOf(y, n, t), a) == Home(y, l, a)
  {
    SameNewAt(y, l, n, Index(y.objs, a));
  }

  lemma SameRename(y: Layout, l: Memory, n: Memory, t: Threads, w: Word)
    requires Live(y, l) && SameGlobal(y, l, n) && C.Sound(PlanOf(y, n, t)) && (w.Ptr? ==> IsObject(y.objs, w.addr))
    ensures C.Relocate(PlanOf(y, n, t), w) == Renamed(y, l, w)
  {
    if w.Ptr? {
      SameHome(y, l, n, t, w.addr);
    }
  }

  lemma GlobalGoesHome(y: Layout, l: Memory, k: Memory, d: S.Done, n: Memory, t: Threads, m: Memory)
    requires Phases(y, l, k, d, n, t, m)
    ensures GlobalHome(y, l, m) == true
  {
    var p := PlanOf(y, n, t);
    hide S.Sweepable, S.Swept, S.RankIs, S.Complete, T.Compacted;
    forall i {:trigger ObjectHome(y, l, m, i)} | 0 <= i < |y.objs| - 1
      ensures ObjectHome(y, l, m, i)
    {
      assert C.ObjectCompacted(p, m, i);
      ObjectGoesHome(y, l, n, t, m, i);
    }
  }

  lemma {:induction false} ObjectParts(p: C.SoundPlan, m: Memory, i: int)
    requires 0 <= i < |p.objs| - 1 && C.ObjectCompacted(p, m, i) && Marked(p.start, p.objs[i])
    ensures var o, d, size := p.objs[i], NewAt(p.start, p.objs, i), p.objs[i + 1] - p.objs[i];
      && 0 <= o < o + size <= |p.start| && 0 <= d < d + size <= |m|
      && (p.start[o].word.Ptr? ==> IsObject(p.objs, p.start[o].word.addr))
      && m[d] == Cell(C.Relocate(p, p.start[o].word), false, false)
      && forall w {:trigger m[w]} :: d < w < d + size ==> m[w] == p.start[o + (w - d)]
  {
    C.ObjectInside(p, i);
  }

  lemma {:induction false} ObjectWhole(y: Layout, l: Memory, n: Memory, m: Memory, i: int)
    requires 0 <= i < |y.objs| - 1 && SameGlobal(y, l, n) == true && y.objs[i + 1] <= y.lBase <= |l|
    requires Marked(l, y.objs[i]) ==>
      var o, d, size := y.objs[i], NewAt(l, y.objs, i), y.objs[i + 1] - y.objs[i];
      && 0 <= o < o + size <= |n| && 0 <= d < d + size <= |m|
      && m[d] == Cell(Renamed(y, l, n[o].word), false, false)
      && forall w {:trigger m[w]} :: d < w < d + size ==> m[w] == n[o + (w - d)]
    ensures ObjectHome(y, l, m, i) == true
  {
    hide Renamed, NewAt;
  }

  lemma BelowBase(y: Layout, l: Memory, i: int)
    requires Live(y, l) && 0 <= i < |y.objs| - 1
    ensures 0 <= y.objs[i] < y.objs[i + 1] <= y.lBase <= |l|
  {
    assert ObjectAt(l, y.objs, i);
    Increasing(l, y.objs, i + 1, |y.objs| - 1);
  }

  lemma MarkedToo(y: Layout, l: Memory, n: Memory, a: int)
    requires SameGlobal(y, l, n) && a < y.lBase
    ensures Marked(n, a) == Marked(l, a)
  {
  }

  lemma {:induction false} ObjectGoesHome(y: Layout, l: Memory, n: Memory, t: Threads, m: Memory, i: int)
    requires Live(y, l) == true && SameGlobal(y, l, n) == true && C.Sound(PlanOf(y, n, t)) && 0 <= i < |y.objs| - 1
    requires C.ObjectCompacted(PlanOf(y, n, t), m, i)
    ensures ObjectHome(y, l, m, i) == true
  {
    hide *;
    PlanFields(y, n, t);
    LiveParts(y, l);
    GlobalLaid(y, l);
    BelowBase(y, l, i);
    SameNewAt(y, l, n, i);
    MarkedToo(y, l, n, y.objs[i]);
    if Marked(l, y.objs[i]) {
      ObjectParts(PlanOf(y, n, t), m, i);
      SameRename(y, l, n, t, n[y.objs[i]].word);
    }
    ObjectWhole(y, l, n, m, i);
  }

  lemma PhaseFacts(y: Layout, l: Memory, k: Memory, d: S.Done, n: Memory, t: Threads, m: Memory)
    requires Phases(y, l, k, d, n, t, m) == true
    ensures |y.objs| >= 2 && |l| == |k| == |n| == |m| && S.Sweepable(y, k, d.top) == true && S.DoneOk(y, d) == true
    ensures Live(y, l) == true && SameGlobal(y, l, n) == true && C.Sound(PlanOf(y, n, t)) && StacksOk(y, l) == true && Placed(y, |l|)
    ensures T.Compacted(y, l, k) == true && S.Complete(y, k, d) == true && S.RankIs(y, k, d, n, t) == true && S.Swept(y, k, d, n) == true
    ensures SameBelow(y, l, k) == true && AllMarked(y, l) == true && d.top == T.NewEntry(y, l, y.tTop)
    ensures C.Compacted(PlanOf(y, n, t), m) == true
  {
  }

  /** A cell outside of the global stack is relocated if it is a root and else untouched. */
  lemma OutsideHome(y: Layout, l: Memory, k: Memory, d: S.Done, n: Memory, t: Threads, m: Memory, a: int)
    requires Phases(y, l, k, d, n, t, m) == true && y.lBase <= a < |n|
    ensures 0 <= a < |n| == |m|
    ensures a in t.rank ==> n[a].word.Ptr? && IsObject(y.objs, n[a].word.addr) && m[a] == n[a].(word := Renamed(y, l, n[a].word))
    ensures a !in t.rank ==> m[a] == n[a]
  {
    PhaseFacts(y, l, k, d, n, t, m);
    hide Phases, S.Sweepable, S.Swept, S.RankIs, S.Complete, T.Compacted, S.DoneOk;
    var p := PlanOf(y, n, t);
    if a in t.rank {
      assert a in p.roots && C.RootOk(p, a);
      SameRename(y, l, n, t, n[a].word);
    } else {
      assert C.Outside(p, a) && a !in p.roots;
    }
  }

  lemma SlotGoesHome(y: Layout, l: Memory, k: Memory, d: S.Done, n: Memory, t: Threads, m: Memory, a: int)
    requires Phases(y, l, k, d, n, t, m) == true && Slot(y, a)
    ensures 0 <= a < |l| == |m| && m[a] == Cell(Renamed(y, l, l[a].word), false, false)
  {
    PhaseFacts(y, l, k, d, n, t, m);
    hide Phases, T.Compacted, C.Compacted, C.Sound;
    S.SlotPlace(y, k, d, a);
    assert k[a] == l[a] by {
      assert Plain(y, a);
    }
    assert Marked(l, a) && Marked(k, a);
    assert a in d.slots;
    S.SweptAt(y, k, d, n, a);
    OutsideHome(y, l, k, d, n, t, m, a);
    assert SlotOk(y, k, a);
    assert a in t.rank <==> S.Rooting(y, k, d, n, a);
    if l[a].word.Ptr? && IsObject(y.objs, l[a].word.addr) {
      S.ObjectInRange(y, k, d.top, l[a].word.addr);
    }
  }

  lemma TopGoesHome(y: Layout, l: Memory, k: Memory, d: S.Done, n: Memory, t: Threads, m: Memory, c: int)
    requires Phases(y, l, k, d, n, t, m) == true && c in y.globalTops
    ensures 0 <= c < |l| == |m| && l[c].word.Ptr? && IsObject(y.objs, l[c].word.addr)
    ensures m[c].word.Ptr? && m[c].word.tag == Address && m[c].word.addr == Home(y, l, l[c].word.addr)
  {
    PhaseFacts(y, l, k, d, n, t, m);
    hide Phases, C.Compacted, C.Sound;
    S.TopPlace(y, k, d, c);
    assert k[c] == l[c] by {
      assert !OnTrail(y, c) && c !in y.trailTops;
    }
    S.SweptAt(y, k, d, n, c);
    OutsideHome(y, l, k, d, n, t, m, c);
    assert c in t.rank <==> S.Rooting(y, k, d, n, c);
    var g, h := k[c].word.addr, n[c].word.addr;
    SamePlaceHome(y, l, k, d.top, g, h);
    if c !in t.rank {
      HomeOfBase(y, l);
    } else {
      SameHome(y, l, n, t, h);
    }
  }

  lemma SamePlaceHome(y: Layout, l: Memory, k: Memory, top: int, a: int, b: int)
    requires Live(y, l) && SameBelow(y, l, k) && |y.objs| >= 2 && S.SamePlace(y, k, a, b)
    ensures IsObject(y.objs, a) && IsObject(y.objs, b) && Home(y, l, a) == Home(y, l, b)
  {
    assert SameGlobal(y, l, k) by {
      assert forall c :: 0 <= c < y.lBase ==> Plain(y, c);
    }
    SameNewAt(y, l, k, Index(y.objs, a));
    SameNewAt(y, l, k, Index(y.objs, b));
  }

  lemma HomeOfBase(y: Layout, l: Memory)
    requires Live(y, l)
    ensures |y.objs| >= 2 && IsObject(y.objs, y.objs[0]) && Home(y, l, y.objs[0]) == y.objs[0] && y.objs[0] >= 0
  {
    ToAt(l, y.objs, 0);
    assert ObjectAt(l, y.objs, 0);
  }

  lemma TrailTopGoesHome(y: Layout, l: Memory, k: Memory, d: S.Done, n: Memory, t: Threads, m: Memory, c: int)
    requires Phases(y, l, k, d, n, t, m) == true && c in y.trailTops
    ensures 0 <= c < |l| == |m| && l[c].word.Ptr? && m[c].word.Ptr? && m[c].word.tag == Address && m[c].word.addr == T.NewEntry(y, l, l[c].word.addr)
  {
    PhaseFacts(y, l, k, d, n, t, m);
    hide Phases, C.Compacted, C.Sound;
    assert y.lBase <= c < |l| && !OnTrail(y, c) && c !in y.globalTops;
    S.SweptAt(y, k, d, n, c);
    assert Slot(y, c) ==> Local(y, |l|, c);
    OutsideHome(y, l, k, d, n, t, m, c);
    assert c in t.rank <==> S.Rooting(y, k, d, n, c);
  }

  lemma EntryGoesHome(y: Layout, l: Memory, k: Memory, d: S.Done, n: Memory, t: Threads, m: Memory, e: int)
    requires Phases(y, l, k, d, n, t, m) == true && y.tBase <= e < y.tTop && 0 <= e < |l| && l[e].word != Var
    ensures 0 <= T.NewEntry(y, l, e) < |m| && m[T.NewEntry(y, l, e)].word == Renamed(y, l, l[e].word)
  {
    PhaseFacts(y, l, k, d, n, t, m);
    hide Phases, C.Compacted, C.Sound;
    var a := T.NewEntry(y, l, e);
    T.KeptMonotone(l, y.tBase, e, y.tTop);
    assert k[a] == l[e] && OnTrail(y, a);
    assert S.EntryLeft(y, k, a);
    S.SweptAt(y, k, d, n, a);
    assert Slot(y, a) ==> Local(y, |l|, a);
    OutsideHome(y, l, k, d, n, t, m, a);
    assert a in t.rank <==> S.Rooting(y, k, d, n, a);
    if IsObject(y.objs, l[e].word.addr) {
      S.ObjectInRange(y, k, d.top, l[e].word.addr);
    }
  }

  lemma RestGoesHome(y: Layout, l: Memory, k: Memory, d: S.Done, n: Memory, t: Threads, m: Memory, a: int)
    requires Phases(y, l, k, d, n, t, m) == true && 0 <= a < |l| && Local(y, |l|, a) && !Slot(y, a)
    ensures a < |m| && m[a] == l[a]
  {
    PhaseFacts(y, l, k, d, n, t, m);
    hide Phases, C.Compacted, C.Sound;
    S.SweptAt(y, k, d, n, a);
    OutsideHome(y, l, k, d, n, t, m, a);
    assert a in t.rank <==> S.Rooting(y, k, d, n, a);
  }

  lemma AllHome(y: Layout, l: Memory, k: Memory, d: S.Done, n: Memory, t: Threads, m: Memory)
    requires Phases(y, l, k, d, n, t, m) == true
    ensures Collected(y, l, m) == true
  {
    hide *;
    PhaseFacts(y, l, k, d, n, t, m);
    GlobalGoesHome(y, l, k, d, n, t, m);
    SlotsGoHome(y, l, k, d, n, t, m);
    TopsGoHome(y, l, k, d, n, t, m);
    TrailGoesHome(y, l, k, d, n, t, m);
    LocalsGoHome(y, l, k, d, n, t, m);
    BitsGoHome(y, l, k, d, n, t, m);
    IsCollected(y, l, m);
  }

  lemma IsCollected(y: Layout, l: Memory, m: Memory)
    requires |m| == |l| && GlobalHome(y, l, m) == true && SlotsHome(y, l, m) == true && TopsHome(y, l, m) == true
    requires TrailHome(y, l, m) == true && RestHome(y, l, m) == true && |y.objs| >= 2 && BitsHome(y, l, m) == true
    ensures Collected(y, l, m) == true
  {
  }

  lemma SlotsGoHome(y: Layout, l: Memory, k: Memory, d: S.Done, n: Memory, t: Threads, m: Memory)
    requires Phases(y, l, k, d, n, t, m) == true && |l| == |m|
    ensures SlotsHome(y, l, m) == true
  {
    hide Phases;
    forall a {:trigger Slot(y, a)} | Slot(y, a)
      ensures 0 <= a < |l| && m[a] == Cell(Renamed(y, l, l[a].word), false, false)
    {
      SlotGoesHome(y, l, k, d, n, t, m, a);
    }
  }

  lemma TopsGoHome(y: Layout, l: Memory, k: Memory, d: S.Done, n: Memory, t: Threads, m: Memory)
    requires Phases(y, l, k, d, n, t, m) == true && |l| == |m|
    ensures TopsHome(y, l, m) == true
  {
    hide Phases;
    forall c | c in y.globalTops
      ensures c < |l| && l[c].word.Ptr? && IsObject(y.objs, l[c].word.addr) && m[c].word.Ptr? && m[c].word.tag == Address && m[c].word.addr == Home(y, l, l[c].word.addr)
    {
      TopGoesHome(y, l, k, d, n, t, m, c);
    }
    forall c | c in y.trailTops
      ensures c < |l| && l[c].word.Ptr? && m[c].word.Ptr? && m[c].word.tag == Address && m[c].word.addr == T.NewEntry(y, l, l[c].word.addr)
    {
      TrailTopGoesHome(y, l, k, d, n, t, m, c);
    }
  }

  lemma TrailGoesHome(y: Layout, l: Memory, k: Memory, d: S.Done, n: Memory, t: Threads, m: Memory)
    requires Phases(y, l, k, d, n, t, m) == true && |l| == |m|
    ensures TrailHome(y, l, m) == true
  {
    hide Phases;
    forall e {:trigger l[e]} | y.tBase <= e < y.tTop && 0 <= e < |l| && l[e].word != Var
      ensures 0 <= T.NewEntry(y, l, e) < |m| && m[T.NewEntry(y, l, e)].word == Renamed(y, l, l[e].word)
    {
      EntryGoesHome(y, l, k, d, n, t, m, e);
    }
  }

  lemma LocalsGoHome(y: Layout, l: Memory, k: Memory, d: S.Done, n: Memory, t: Threads, m: Memory)
    requires Phases(y, l, k, d, n, t, m) == true && |l| == |m|
    ensures RestHome(y, l, m) == true
  {
    hide Phases;
    forall a {:trigger m[a]} | 0 <= a < |l| && Local(y, |l|, a) && !Slot(y, a)
      ensures m[a] == l[a]
    {
      RestGoesHome(y, l, k, d, n, t, m, a);
    }
  }

  lemma BitsGoHome(y: Layout, l: Memory, k: Memory, d: S.Done, n: Memory, t: Threads, m: Memory)
    requires Phases(y, l, k, d, n, t, m) == true && |l| == |m|
    ensures |y.objs| >= 2 && BitsHome(y, l, m) == true
  {
    PhaseFacts(y, l, k, d, n, t, m);
    hide Phases;
    forall a {:trigger m[a]} | y.lBase <= a < |m| && 0 <= a
      ensures !m[a].mark && !m[a].first
    {
      BitGoesHome(y, l, k, d, n, t, m, a);
    }
    forall a {:trigger m[a]} | 0 <= a < |m| && a < y.objs[0]
      ensures m[a] == l[a]
    {
      LowGoesHome(y, l, k, d, n, t, m, a);
    }
  }

  lemma BitGoesHome(y: Layout, l: Memory, k: Memory, d: S.Done, n: Memory, t: Threads, m: Memory, a: int)
    requires Phases(y, l, k, d, n, t, m) == true && y.lBase <= a < |m| && 0 <= a && |m| == |l|
    ensures !m[a].mark && !m[a].first
  {
    PhaseFacts(y, l, k, d, n, t, m);
    hide Phases, C.Compacted, C.Sound;
    S.SweptAt(y, k, d, n, a);
    OutsideHome(y, l, k, d, n, t, m, a);
    SlotOutside(y, l, a);
    if Slot(y, a) {
      SlotGoesHome(y, l, k, d, n, t, m, a);
    }
  }

  lemma LowGoesHome(y: Layout, l: Memory, k: Memory, d: S.Done, n: Memory, t: Threads, m: Memory, a: int)
    requires Phases(y, l, k, d, n, t, m) == true && 0 <= a < |m| == |l| && a < y.objs[0]
    ensures m[a] == l[a]
  {
    PhaseFacts(y, l, k, d, n, t, m);
    hide Phases, C.Compacted, C.Sound;
    Increasing(l, y.objs, 0, |y.objs| - 1);
    NotRooted(y, k, d, n, t, a);
    LowCompacted(PlanOf(y, n, t), m, a);
  }

  lemma NotRooted(y: Layout, k: Memory, d: S.Done, n: Memory, t: Threads, a: int)
    requires |y.objs| >= 2 && S.DoneOk(y, d) && S.RankIs(y, k, d, n, t) && S.Sweepable(y, k, d.top) && |k| == |n| && a < y.lBase
    ensures a !in t.rank
  {
    assert a in t.rank <==> S.Rooting(y, k, d, n, a);
    assert Slot(y, a) ==> Local(y, |k|, a);
  }

  lemma LowCompacted(p: C.SoundPlan, m: Memory, a: int)
    requires C.Compacted(p, m) && 0 <= a < |m| && a < p.objs[0] && a !in p.roots
    ensures |m| == |p.start| && m[a] == p.start[a]
  {
    assert C.Outside(p, a);
  }

  // ---------- garbageCollect()

  lemma SweepStarts(ld: LocalData, y: Layout, l: Memory)
    requires Live(y, l) == true && T.Compacted(y, l, ld.logical) == true && ld.Consistent() == true && Unthreaded(ld.threads) == true
    requires |y.objs| >= 2 && ld.gBase == y.objs[0] && ld.gTop == GTop(y) && ld.lBase == y.lBase && ld.tBase == y.tBase
    requires ld.tTop == T.NewEntry(y, l, y.tTop) && ld.localMarked == |MarkedSlots(y, l)|
    ensures S.InSweep(ld, y, ld.logical, S.Done({}, {}, ld.tTop, ld.tTop), ld.needsRelocation, ld.localMarked) == true
    ensures SameBelow(y, l, ld.logical) == true && S.Sweepable(y, ld.logical, ld.tTop) == true && |ld.logical| == |l|
  {
    var k, t, d := ld.logical, ld.threads, S.Done({}, {}, ld.tTop, ld.tTop);
    S.LeftSweepable(y, l, k);
    C.IsThreaded(ld);
    SameSlots(y, l, k);
    hide *;
    NothingSwept(y, k, d, t);
    SweepBegins(y, k, d, ld.mem[..], t);
    S.SweepWhole(ld, y, k, d, ld.needsRelocation, ld.localMarked);
  }

  lemma SweepBegins(y: Layout, k: Memory, d: S.Done, m: Memory, t: Threads)
    requires |y.objs| >= 2 && S.Sweepable(y, k, d.top) == true && d == S.Done({}, {}, d.top, d.top) && Threaded(m, k, t) == true
    requires S.Swept(y, k, d, k) == true && S.RankIs(y, k, d, k, t) == true && |t.rank| == 0
    ensures S.SweepState(y, k, d, m, k, t) == true
  {
  }

  lemma NothingSwept(y: Layout, k: Memory, d: S.Done, t: Threads)
    requires |y.objs| >= 2 && d.slots == {} && d.tops == {} && d.lo == d.top && Unthreaded(t) == true
    ensures S.Swept(y, k, d, k) == true && S.RankIs(y, k, d, k, t) == true && |t.rank| == 0
  {
    assert t.rank.Keys == {};
    assert forall c :: c in t.rank <==> c in t.rank.Keys;
  }

  lemma SameSlots(y: Layout, l: Memory, k: Memory)
    requires Live(y, l) && SameBelow(y, l, k)
    ensures |k| == |l| && MarkedSlots(y, k) == MarkedSlots(y, l)
  {
    assert forall a :: 0 <= a < |l| && Slot(y, a) ==> Plain(y, a);
  }

  lemma {:induction false} LiveTotal(y: Layout, l: Memory, k: Memory, d: S.Done, n: Memory, t: Threads, total: int, local: int, needs: int)
    requires Live(y, l) == true && SameBelow(y, l, k) == true && S.Sweepable(y, k, d.top) == true && S.DoneOk(y, d) == true
    requires |y.objs| >= 2 && S.Swept(y, k, d, n) == true && Counting(y, l, t, total, local, needs) == true
    ensures SameGlobal(y, l, n) == true && y.objs[0] + total == NewAt(n, y.objs, |y.objs| - 1)
  {
    hide *;
    LiveParts(y, l);
    GlobalLaid(y, l);
    SweptGlobal(y, l, k, d, n);
    SameNewAt(y, l, n, |y.objs| - 1);
    CountedTotal(y, l, t, total, local, needs);
  }

  lemma {:induction false} CountedTotal(y: Layout, l: Memory, t: Threads, total: int, local: int, needs: int)
    requires |y.objs| >= 2 && Counting(y, l, t, total, local, needs) == true
    ensures y.objs[0] + total == NewAt(l, y.objs, |y.objs| - 1)
  {
  }

  lemma GlobalLaid(y: Layout, l: Memory)
    requires StacksOk(y, l)
    ensures Laid(l, y.objs) == true && |y.objs| >= 2 && y.objs[|y.objs| - 1] <= y.lBase
  {
  }

  lemma WholePhases(y: Layout, l: Memory, k: Memory, d: S.Done, n: Memory, t: Threads, m: Memory)
    requires Live(y, l) == true && AllMarked(y, l) == true && T.Compacted(y, l, k) == true && SameGlobal(y, l, n) == true && SameBelow(y, l, k) == true
    requires |y.objs| >= 2 && S.Sweepable(y, k, d.top) == true && S.DoneOk(y, d) == true && S.Swept(y, k, d, n) == true
    requires S.RankIs(y, k, d, n, t) == true && S.Complete(y, k, d) == true && d.top == T.NewEntry(y, l, y.tTop)
    requires C.Sound(PlanOf(y, n, t)) && C.Compacted(PlanOf(y, n, t), m) == true
    ensures Phases(y, l, k, d, n, t, m) == true
  {
  }

  lemma PlanFields(y: Layout, l: Memory, t: Threads)
    ensures PlanOf(y, l, t) == C.Plan(l, y.objs, t.rank.Keys, y.lBase)
  {
  }

  /** collect_phase(), with the collector's own consistency checks as assertions.  The moves of
      saved tops from and to the representation of pointers leave no trace here. */
  method CollectPhase(ld: LocalData, foreign: seq<seq<nat>>, choices: seq<Choice>, globalTops: seq<nat>, ghost y: Layout,
      ghost l: Memory, ghost t1: Threads)
    requires Live(y, l) == true && AllMarked(y, l) == true && T.Compacted(y, l, ld.logical) == true
    requires ld.Consistent() == true && Unthreaded(ld.threads) == true
    requires |y.objs| >= 2 && ld.gBase == y.objs[0] && ld.gTop == GTop(y) && ld.lBase == y.lBase && ld.tBase == y.tBase
    requires ld.tTop == T.NewEntry(y, l, y.tTop) && Counting(y, l, t1, ld.totalMarked, ld.localMarked, ld.needsRelocation) == true
    requires ld.relocationCells == |t1.rank|
    requires foreign == y.foreign && choices == y.choices && globalTops == y.globalTops && |choices| + |foreign| == |globalTops|
    modifies ld`gTop, ld`localMarked, ld`needsRelocation, ld`relocationChains, ld`relocationCells, ld`relocatedCells,
             ld`threads, ld`logical, ld.mem
    ensures Collected(y, l, ld.mem[..]) == true
    ensures ld.gTop == ld.gBase + ld.totalMarked && ld.localMarked == 0 && ld.relocationChains == 0
    ensures ld.relocatedCells == ld.relocationCells == ld.needsRelocation
  {
    hide *;
    ghost var k := ld.logical;
    ghost var needs, local := ld.needsRelocation, ld.localMarked;
    CountingParts(y, l, t1, ld.totalMarked, local, needs);
    C.NoChainsLeft(ld);
    SweepStarts(ld, y, l);
    ghost var d := S.SweepAll(ld, foreign, choices, globalTops, y, k, needs, local);
    ghost var n, t := ld.logical, ld.threads;
    S.SweepParts(ld, y, k, d, needs, local);
    SweepFacts(y, k, d, ld.mem[..], n, t);
    PlanSound(y, k, d, ld.mem[..], n, t);
    PlanFields(y, n, t);
    LiveTotal(y, l, k, d, n, t1, ld.totalMarked, local, needs);
    PointersSplit(y, l, PlanOf(y, n, t));
    PlanTop(y);
    ghost var cells := ld.relocationCells;
    CellsAre(ld);
    C.CompactGlobal(ld, PlanOf(y, n, t));
    WholePhases(y, l, k, d, n, t, ld.mem[..]);
    AllHome(y, l, k, d, n, t, ld.mem[..]);
    assert ld.relocationChains == 0;
    assert ld.relocatedCells == ld.relocationCells && ld.relocatedCells == ld.needsRelocation;
  }

  lemma CountingParts(y: Layout, l: Memory, t: Threads, total: int, local: int, needs: int)
    requires |y.objs| >= 2 && Counting(y, l, t, total, local, needs) == true
    ensures local == |MarkedSlots(y, l)| && needs == |Pointers(HeapOf(y, l), l)| - |Stale(y, l)| + |t.rank|
  {
  }

  lemma PlanTop(y: Layout)
    requires |y.objs| >= 2
    ensures GTop(y) == y.objs[|y.objs| - 2]
  {
  }

  lemma CellsAre(ld: LocalData)
    requires ld.Consistent() == true
    ensures ld.relocationCells - ld.relocatedCells == |ld.threads.rank|
  {
  }

  /** What a garbage collection does, seen from memory l0 at its start: mark_term_refs() and
      mark_trail() lead to `pre`, the choice points `hs` to l, in which all that is live is
      marked, and the rest to m. */
  ghost predicate CollectedFrom(y: Layout, l0: Memory, pre: Memory, hs: seq<E.Stage>, te: int, l: Memory, m: Memory) {
    && |y.objs| >= 2 && |hs| == |y.choices| && |hs| <= |y.trailTops|
    && MarkedMore(y, l0, pre) && E.SavedMarked(y, pre, y.tBase) && E.SlotsAre(y, pre, 0)
    && E.History(y, pre, hs, l, te)
    && Live(y, l) && AllMarked(y, l)
    && Collected(y, l, m)
  }

  /** The stacks with the two sentinels that garbageCollect() puts on top of them. */
  ghost function Capped(y: Layout, m: Memory): Memory {
    if |y.objs| >= 2 && 0 <= GTop(y) < |m| && 0 <= y.tTop < |m|
    then m[GTop(y) := E.Zero][y.tTop := E.Zero] else m
  }

  /** Everything the collector expects when it is called. */
  ghost predicate Collectable(ld: LocalData, y: Layout)
    reads ld, ld.mem
  {
    && Bounds(ld, y) && GTop(y) < ld.mem.Length && y.tTop < ld.mem.Length
    && StacksOk(y, Capped(y, ld.mem[..])) && E.NoMarks(y, Capped(y, ld.mem[..]))
    && E.Untouched(y, Capped(y, ld.mem[..]), y.tTop - 1) && E.TopsLocal(y)
  }

  lemma CapsFit(ld: LocalData, y: Layout)
    requires Collectable(ld, y) == true
    ensures |y.objs| >= 2 && ld.gTop == GTop(y) < ld.mem.Length && ld.tTop == y.tTop < ld.mem.Length
    ensures ld.gBase == y.objs[0] && ld.lBase == y.lBase && ld.tBase == y.tBase
    ensures Capped(y, ld.mem[..]) == ld.mem[..][ld.gTop := E.Zero][ld.tTop := E.Zero]
    ensures StacksOk(y, Capped(y, ld.mem[..])) == true && E.NoMarks(y, Capped(y, ld.mem[..])) == true
    ensures E.Untouched(y, Capped(y, ld.mem[..]), y.tTop - 1) == true && E.TopsLocal(y) == true && Bounds(ld, y) == true
    ensures |y.choices| + |y.foreign| == |y.trailTops| == |y.globalTops|
  {
  }

  lemma NowReady(ld: LocalData, y: Layout)
    requires Bounds(ld, y) == true && StacksOk(y, ld.mem[..]) == true && E.NoMarks(y, ld.mem[..]) == true
    requires |y.objs| >= 2 && E.Untouched(y, ld.mem[..], y.tTop - 1) == true && E.TopsLocal(y) == true
    ensures E.Ready(ld, y) == true
  {
  }

  lemma AreMarked(y: Layout, l: Memory)
    requires E.AllSlotsMarked(y, l) == true
    ensures AllMarked(y, l) == true
  {
  }

  lemma {:induction false} WholeCollection(y: Layout, l0: Memory, pre: Memory, hs: seq<E.Stage>, te: int, l: Memory, m: Memory)
    requires |y.objs| >= 2 && |hs| == |y.choices| && |hs| <= |y.trailTops|
    requires MarkedMore(y, l0, pre) == true && E.SavedMarked(y, pre, y.tBase) == true && E.SlotsAre(y, pre, 0) == true
    requires E.History(y, pre, hs, l, te) == true
    requires Live(y, l) == true && AllMarked(y, l) == true && Collected(y, l, m) == true
    ensures CollectedFrom(y, l0, pre, hs, te, l, m) == true
  {
  }

  /** pl-gc.c, garbageCollect(). */
  method GarbageCollect(ld: LocalData, foreign: seq<seq<nat>>, choices: seq<Choice>, trailTops: seq<nat>, globalTops: seq<nat>,
      ghost y: Layout) returns (ghost pre: Memory, ghost hs: seq<E.Stage>, ghost te: int, ghost l: Memory)
    requires Collectable(ld, y) == true
    requires foreign == y.foreign && choices == y.choices && trailTops == y.trailTops && globalTops == y.globalTops
    modifies ld, ld.mem
    ensures CollectedFrom(y, old(Capped(y, ld.mem[..])), pre, hs, te, l, ld.mem[..]) == true
    ensures ld.gTop == ld.gBase + ld.totalMarked && ld.tTop == T.NewEntry(y, l, y.tTop)
    ensures |y.objs| >= 2 && ld.gBase == y.objs[0] && ld.gTop == NewAt(l, y.objs, |y.objs| - 1)
    ensures ld.lBase == y.lBase && ld.tBase == y.tBase
    ensures ld.localMarked == 0 && ld.relocationChains == 0
    ensures ld.relocatedCells == ld.relocationCells == ld.needsRelocation
  {
    hide *;
    CapsFit(ld, y);
    ld.needsRelocation, ld.relocationChains, ld.relocationCells := 0, 0, 0;
    ld.relocatedCells, ld.localMarked, ld.totalMarked := 0, 0, 0;
    ld.mem[ld.gTop] := E.Zero;
    ld.mem[ld.tTop] := E.Zero;
    ld.logical, ld.threads := ld.mem[..], Threads(map[], map[]);
    assert ld.mem[..] == Capped(y, old(ld.mem[..]));
    SameBounds(ld, y);
    NowReady(ld, y);
    E.PhaseStarts(ld, y);
    ghost var l0 := ld.logical;

    pre, hs, te := E.MarkAll(ld, foreign, choices, trailTops, y);
    l := ld.logical;
    AreMarked(y, l);
    PhaseParts(ld, y, |trailTops|);
    ghost var t1 := ld.threads;
    CountedTotal(y, l, t1, ld.totalMarked, ld.localMarked, ld.needsRelocation);
    T.CompactTrail(ld, y);
    CollectPhase(ld, foreign, choices, globalTops, y, l, t1);
    WholeCollection(y, l0, pre, hs, te, l, ld.mem[..]);
  }

  lemma SameBounds(ld: LocalData, y: Layout)
    requires |y.objs| >= 2 && ld.gBase == y.objs[0] && ld.gTop == GTop(y) && ld.lBase == y.lBase && ld.tBase == y.tBase && ld.tTop == y.tTop
    ensures Bounds(ld, y) == true
  {
  }
}
