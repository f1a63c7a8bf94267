/** The sweeps of collect_phase() (pl-gc.c): variables of frames, trail entries and saved tops
    of the global stack are threaded on the objects they lead to. */
module Sweep {
  import opened Words
  import opened GlobalStack
  import opened Terms
  import opened Relocation
  import opened Stacks
  import opened MarkPhase
  import C = Compaction
  import T = TrailCompaction

  /** A trail entry as compact_trail() leaves it. */
  ghost predicate EntryLeft(y: Layout, l: Memory, e: int)
    requires |y.objs| >= 2
  {
    && 0 <= e < |l| && l[e].word.Ptr?
    && if l[e].word.tag == Address then Local(y, |l|, l[e].word.addr) || GlobalVar(y, l, l[e].word.addr)
       else l[e].word.tag == TRAILVAL && GlobalVar(y, l, l[e].word.addr)
  }

  ghost predicate TopsOk(y: Layout, l: Memory) {
    forall c {:trigger c in y.globalTops} :: c in y.globalTops ==>
      c < |l| && l[c].word.Ptr? && l[c].word.tag == Address && IsObject(y.objs, l[c].word.addr)
  }

  /** The stacks after the mark phase and the compaction of the trail, which now ends at `top`. */
  ghost predicate Sweepable(y: Layout, l: Memory, top: int) {
    && Placed(y, |l|) && WellFormed(HeapOf(y, l)) && LocalOk(y, l) && TopsOk(y, l)
    && Closed(y, l) && SlotsClosed(y, l) && y.tBase <= top <= y.tTop
    && (forall e {:trigger EntryLeft(y, l, e)} :: y.tBase <= e < top ==> EntryLeft(y, l, e))
  }

  lemma {:induction false} EntrySource(y: Layout, l: Memory, hi: int, p: int) returns (e: int)
    requires 0 <= y.tBase <= hi <= |l| && y.tBase <= p < T.NewEntry(y, l, hi)
    ensures y.tBase <= e < hi && l[e].word != Var && T.NewEntry(y, l, e) == p
    decreases hi
  {
    if p < T.NewEntry(y, l, hi - 1) {
      e := EntrySource(y, l, hi - 1, p);
    } else {
      e := hi - 1;
    }
  }

  lemma SameLive(y: Layout, l: Memory, k: Memory)
    requires Live(y, l) && T.Compacted(y, l, k)
    ensures SameBelow(y, l, k) == true
    ensures WellFormed(HeapOf(y, k)) == true && TopsOk(y, k) == true
  {
    forall a {:trigger k[a]} | 0 <= a < |l| && Plain(y, a)
      ensures k[a] == l[a]
    {
      assert Slot(y, a) ==> Local(y, |l|, a);
    }
    forall c | c in y.globalTops
      ensures c < |l| && k[c] == l[c]
    {
      assert !OnTrail(y, c) && c !in y.trailTops;
    }
    WellBelow(y, l, k);
  }

  lemma LeftEntry(y: Layout, l: Memory, k: Memory, e: int)
    requires Live(y, l) && T.Compacted(y, l, k) && SameBelow(y, l, k) && y.tBase <= e < T.NewEntry(y, l, y.tTop)
    ensures EntryLeft(y, k, e)
  {
    var d := EntrySource(y, l, y.tTop, e);
    assert EntryOk(y, l, d) && k[e] == l[d];
    var a := l[d].word.addr;
    if GlobalVar(y, l, a) {
      ObjectBelow(y, l, a);
      assert Plain(y, a);
    }
  }

  lemma LeftLocals(y: Layout, l: Memory, k: Memory)
    requires Live(y, l) && T.Compacted(y, l, k) && SameBelow(y, l, k)
    ensures LocalOk(y, k) == true
  {
    forall a {:trigger Slot(y, a)} | Slot(y, a)
      ensures SlotOk(y, k, a)
    {
      assert SlotOk(y, l, a) && Plain(y, a);
      PointsBelow(y, l, k, l[a].word);
    }
    forall a {:trigger k[a]} | 0 <= a < |l|
      ensures y.lBase <= a ==> !k[a].first
      ensures k[a].mark ==> l[a].mark && (a < y.lBase || Slot(y, a))
    {
      LeftBits(y, l, k, a);
    }
  }

  /** Compaction of the trail brings no GC bits to any cell. */
  lemma LeftBits(y: Layout, l: Memory, k: Memory, a: int)
    requires Live(y, l) && T.Compacted(y, l, k) && SameBelow(y, l, k) && 0 <= a < |l|
    ensures y.lBase <= a ==> !k[a].first
    ensures k[a].mark ==> l[a].mark && (a < y.lBase || Slot(y, a))
  {
  }

  lemma LeftSweepable(y: Layout, l: Memory, k: Memory)
    requires Live(y, l) == true && T.Compacted(y, l, k) == true
    ensures Sweepable(y, k, T.NewEntry(y, l, y.tTop)) == true
    ensures SameBelow(y, l, k) == true
  {
    SameLive(y, l, k);
    LeftLocals(y, l, k);
    LeftClosed(y, l, k);
    forall e {:trigger EntryLeft(y, k, e)} | y.tBase <= e < T.NewEntry(y, l, y.tTop)
      ensures EntryLeft(y, k, e)
    {
      LeftEntry(y, l, k, e);
    }
    LiveParts(y, l);
    hide Live, WellFormed, LocalOk, TopsOk, Closed, SlotsClosed, T.Compacted, EntryLeft;
    assert Placed(y, |k|) && y.tBase <= T.NewEntry(y, l, y.tTop) <= y.tTop;
  }

  lemma LeftClosed(y: Layout, l: Memory, k: Memory)
    requires Live(y, l) && SameBelow(y, l, k)
    ensures Closed(y, k) == true && SlotsClosed(y, k) == true
  {
    forall a, b {:trigger Edge(HeapOf(y, k), a, b)} | IsObject(y.objs, a) && Marked(k, a) && Edge(HeapOf(y, k), a, b)
      ensures Marked(k, b)
    {
      ObjectBelow(y, l, a);
      assert Plain(y, a) && Edge(HeapOf(y, l), a, b);
      assert Marked(l, b);
      MarkPlain(y, l, b);
    }
    forall a {:trigger Slot(y, a)} | Slot(y, a) && Marked(k, a) && k[a].word.Ptr? && k[a].word.addr <= GTop(y)
      ensures Marked(k, k[a].word.addr)
    {
      assert Plain(y, a) && Marked(l, l[a].word.addr);
      MarkPlain(y, l, l[a].word.addr);
    }
  }

  lemma MarkPlain(y: Layout, l: Memory, a: int)
    requires StacksOk(y, l) && Marked(l, a)
    ensures Plain(y, a)
  {
    if IsObject(y.objs, a) {
      ObjectBelow(y, l, a);
    }
  }

  // ---------- the state of the sweep

  /** The variables and saved tops swept so far; of the trail, the entries from `lo` up are. */
  datatype Done = Done(slots: set<int>, tops: set<int>, lo: int, top: int)

  ghost predicate DoneOk(y: Layout, d: Done) {
    && (forall a {:trigger a in d.slots} :: a in d.slots ==> Slot(y, a))
    && (forall c {:trigger c in d.tops} :: c in d.tops ==> c in y.globalTops)
    && y.tBase <= d.lo <= d.top <= y.tTop
  }

  /** Both addresses move to the same place. */
  ghost predicate SamePlace(y: Layout, l: Memory, a: int, b: int)
    requires |y.objs| >= 2
  {
    IsObject(y.objs, a) && IsObject(y.objs, b) && NewAt(l, y.objs, Index(y.objs, a)) == NewAt(l, y.objs, Index(y.objs, b))
  }

  ghost predicate SweptCell(y: Layout, l0: Memory, d: Done, l: Memory, a: int)
    requires |y.objs| >= 2 && |l| == |l0| && 0 <= a < |l|
  {
    if a in d.slots then l[a] == l0[a].(mark := false)
    else if a in d.tops then
      && l0[a].word.Ptr? && l[a].word.Ptr? && l[a].word.tag == Address
      && l[a] == l0[a].(word := l[a].word) && SamePlace(y, l0, l0[a].word.addr, l[a].word.addr)
    else l[a] == l0[a]
  }

  ghost predicate Swept(y: Layout, l0: Memory, d: Done, l: Memory)
    requires |y.objs| >= 2
  {
    |l| == |l0| && forall a {:trigger SweptCell(y, l0, d, l, a)} :: 0 <= a < |l| ==> SweptCell(y, l0, d, l, a)
  }

  ghost predicate TrailRef(y: Layout, l0: Memory, e: int) {
    0 <= e < |l0| && l0[e].word.Ptr? && (l0[e].word.tag == TRAILVAL || l0[e].word.addr < y.lBase)
  }

  ghost predicate GlobalSlot(y: Layout, l0: Memory, a: int)
    requires |y.objs| >= 2
  {
    0 <= a < |l0| && l0[a].word.Ptr? && l0[a].word.addr <= GTop(y)
  }

  /** A cell that is threaded. */
  ghost predicate Rooting(y: Layout, l0: Memory, d: Done, l: Memory, c: int)
    requires |y.objs| >= 2
  {
    || (c in d.slots && GlobalSlot(y, l0, c) && l0[c].mark)
    || (c in d.tops && 0 <= c < |l| && l[c].word.Ptr? && l[c].word.addr != y.objs[0])
    || (d.lo <= c < d.top && TrailRef(y, l0, c))
  }

  ghost predicate RankIs(y: Layout, l0: Memory, d: Done, l: Memory, t: Threads)
    requires |y.objs| >= 2
  {
    forall c {:trigger c in t.rank} :: c in t.rank <==> Rooting(y, l0, d, l, c)
  }

  ghost predicate SweepState(y: Layout, l0: Memory, d: Done, m: Memory, l: Memory, t: Threads) {
    |y.objs| >= 2 && Sweepable(y, l0, d.top) && DoneOk(y, d) && Threaded(m, l, t) && Swept(y, l0, d, l) && RankIs(y, l0, d, l, t)
  }

  /** A threaded cell is outside of the global stack and leads to an object. */
  lemma RootTarget(y: Layout, l0: Memory, d: Done, l: Memory, c: int)
    requires Sweepable(y, l0, d.top) && DoneOk(y, d) && Swept(y, l0, d, l) && Rooting(y, l0, d, l, c)
    ensures y.lBase <= c < |l| && l[c].word.Ptr? && IsObject(y.objs, l[c].word.addr) && l[c].word.addr < y.lBase
    ensures c in d.slots || c in d.tops || (d.lo <= c < d.top)
  {
    if c in d.slots {
      assert SlotOk(y, l0, c) && Local(y, |l0|, c);
      assert SweptCell(y, l0, d, l, c);
    } else if c in d.tops {
      assert SweptCell(y, l0, d, l, c);
    } else {
      assert EntryLeft(y, l0, c);
      assert OnTrail(y, c);
      assert SweptCell(y, l0, d, l, c);
    }
    ObjectInRange(y, l0, d.top, l[c].word.addr);
  }

  lemma ObjectInRange(y: Layout, l0: Memory, top: int, a: int)
    requires Sweepable(y, l0, top) && IsObject(y.objs, a)
    ensures 0 <= a < y.lBase <= |l0| && !l0[a].first && a <= GTop(y)
  {
    Increasing(l0, y.objs, Index(y.objs, a), |y.objs| - 2);
    assert ObjectAt(l0, y.objs, |y.objs| - 2);
    assert ObjectOk(HeapOf(y, l0), a);
  }

  lemma HeadTarget(y: Layout, l0: Memory, d: Done, m: Memory, l: Memory, t: Threads, h: int)
    requires SweepState(y, l0, d, m, l, t) && h in t.chains
    ensures IsObject(y.objs, h) && 0 <= h < y.lBase
  {
    var c := t.chains[h][0];
    assert c in t.rank;
    RootTarget(y, l0, d, l, c);
  }

  /** Cells that are not swept yet are plain. */
  lemma UnsweptReads(y: Layout, l0: Memory, d: Done, m: Memory, l: Memory, t: Threads, a: int)
    requires SweepState(y, l0, d, m, l, t) && y.lBase <= a < |m|
    requires a !in d.slots && a !in d.tops && !(d.lo <= a < d.top)
    ensures 0 <= a < |m| == |l| == |l0| && a !in t.rank && a !in t.chains && m[a] == l[a] == l0[a] && !l[a].first
  {
    SweptAt(y, l0, d, l, a);
    if a in t.chains {
      HeadTarget(y, l0, d, m, l, t, a);
    }
    Reads(m, l, t, a);
  }

  lemma SweptAt(y: Layout, l0: Memory, d: Done, l: Memory, a: int)
    requires |y.objs| >= 2 && Swept(y, l0, d, l) && 0 <= a < |l|
    ensures |l| == |l0| && SweptCell(y, l0, d, l, a)
  {
  }

  /** A cell that is not threaded yet can be threaded on an object. */
  lemma SweepThreadable(y: Layout, l0: Memory, d: Done, m: Memory, l: Memory, t: Threads, h: nat, a: nat)
    requires SweepState(y, l0, d, m, l, t) && IsObject(y.objs, h)
    requires y.lBase <= a < |l| && !l[a].first && l[a].word.Ptr? && l[a].word.addr == h && a !in t.rank && a !in t.chains
    ensures Threadable(l, t, h, a) == true
  {
    ObjectInRange(y, l0, d.top, h);
    if h in t.rank {
      RootTarget(y, l0, d, l, h);
    }
    SweptAt(y, l0, d, l, h);
    GlobalUnswept(y, l0, d, h);
  }

  lemma GlobalUnswept(y: Layout, l0: Memory, d: Done, a: int)
    requires Sweepable(y, l0, d.top) && DoneOk(y, d) && a < y.lBase
    ensures a !in d.slots && a !in d.tops && a < d.lo
  {
  }

  // ---------- the variables of a frame

  ghost function SlotSwept(d: Done, a: int): Done { d.(slots := d.slots + {a}) }

  /** A variable whose mark is cleared and that holds no pointer into the global stack. */
  lemma SlotPlain(y: Layout, l0: Memory, d: Done, m: Memory, l: Memory, t: Threads, a: nat, n: Memory, k: Memory)
    requires SweepState(y, l0, d, m, l, t) && Slot(y, a) && a < |l| && l[a].mark && a !in d.slots
    requires Threaded(n, k, t) && k == l[a := l[a].(mark := false)]
    requires !(l[a].word.Ptr? && l[a].word.addr <= GTop(y))
    ensures SweepState(y, l0, SlotSwept(d, a), n, k, t) == true
  {
    var e := SlotSwept(d, a);
    SlotPlace(y, l0, d, a);
    SlotChanged(y, l0, d, l, a, k);
    forall c
      ensures c in t.rank <==> Rooting(y, l0, e, k, c)
    {
      assert c in t.rank <==> Rooting(y, l0, d, l, c);
      assert c != a && 0 <= c < |l| ==> k[c] == l[c];
    }
  }

  lemma SlotPlace(y: Layout, l0: Memory, d: Done, a: int)
    requires Sweepable(y, l0, d.top) && DoneOk(y, d) && Slot(y, a)
    ensures y.lBase <= a < |l0| && !OnTrail(y, a) && a !in d.tops && !(d.lo <= a < d.top)
  {
    assert Local(y, |l0|, a);
  }

  lemma SlotChanged(y: Layout, l0: Memory, d: Done, l: Memory, a: nat, k: Memory)
    requires |y.objs| >= 2 && Swept(y, l0, d, l) && a < |l| && a !in d.slots && a !in d.tops && k == l[a := l[a].(mark := false)]
    ensures Swept(y, l0, SlotSwept(d, a), k) == true && l[a] == l0[a]
  {
    SweptAt(y, l0, d, l, a);
    var e := SlotSwept(d, a);
    forall c {:trigger SweptCell(y, l0, e, k, c)} | 0 <= c < |l|
      ensures SweptCell(y, l0, e, k, c)
    {
      SweptAt(y, l0, d, l, c);
    }
  }

  /** And one that does and is threaded. */
  lemma SlotThreaded(y: Layout, l0: Memory, d: Done, m: Memory, l: Memory, t: Threads, a: nat, n: Memory, k: Memory, u: Threads)
    requires SweepState(y, l0, d, m, l, t) && Slot(y, a) && a < |l| && l[a].mark && a !in d.slots
    requires Threaded(n, k, u) && k == l[a := l[a].(mark := false)]
    requires l[a].word.Ptr? && l[a].word.addr <= GTop(y) && u == Push(t, l[a].word.addr, a)
    ensures SweepState(y, l0, SlotSwept(d, a), n, k, u) == true
  {
    var e := SlotSwept(d, a);
    SlotPlace(y, l0, d, a);
    SlotChanged(y, l0, d, l, a, k);
    forall c
      ensures c in u.rank <==> Rooting(y, l0, e, k, c)
    {
      assert c in t.rank <==> Rooting(y, l0, d, l, c);
      assert c != a && 0 <= c < |l| ==> k[c] == l[c];
    }
  }

  lemma SlotCleared(y: Layout, l: Memory, a: nat, k: Memory)
    requires |y.objs| >= 2 && a < |l| && Slot(y, a) && l[a].mark && k == l[a := l[a].(mark := false)]
    ensures |MarkedSlots(y, k)| == |MarkedSlots(y, l)| - (if l[a].word.Ptr? && l[a].word.addr <= GTop(y) then 1 else 0)
  {
    if l[a].word.Ptr? && l[a].word.addr <= GTop(y) {
      assert MarkedSlots(y, l) == MarkedSlots(y, k) + {a};
    } else {
      assert MarkedSlots(y, l) == MarkedSlots(y, k);
    }
  }

  /** What the sweep reads in a variable. */
  lemma SlotReads(y: Layout, l0: Memory, d: Done, m: Memory, l: Memory, t: Threads, a: nat)
    requires SweepState(y, l0, d, m, l, t) && Slot(y, a)
    ensures y.lBase <= a < |m| == |l| == |l0| && m[a].mark == l[a].mark
    ensures l[a].mark ==> a !in d.slots && a !in t.rank && a !in t.chains && m[a] == l[a] == l0[a] && !l[a].first
    ensures l[a].mark && l[a].word.Ptr? && l[a].word.addr <= GTop(y) ==> IsObject(y.objs, l[a].word.addr)
    ensures !l[a].mark ==> a in d.slots || !l0[a].mark
  {
    SlotPlace(y, l0, d, a);
    SweptAt(y, l0, d, l, a);
    Reads(m, l, t, a);
    assert SlotOk(y, l0, a);
    if l[a].mark {
      UnsweptReads(y, l0, d, m, l, t, a);
    }
  }

  /** The counters of the sweep: `local` variables are still to be swept, and what is threaded
      was counted before, or is counted now. */
  ghost predicate SweepCounts(ld: LocalData, y: Layout, needs: int, local: int)
    reads ld
  {
    && |y.objs| >= 2
    && ld.localMarked == |MarkedSlots(y, ld.logical)|
    && ld.needsRelocation - needs + local - ld.localMarked == |ld.threads.rank|
  }

  ghost predicate InSweep(ld: LocalData, y: Layout, l0: Memory, d: Done, needs: int, local: int)
    reads ld, ld.mem
  {
    && |y.objs| >= 2 && ld.gBase == y.objs[0] && ld.gTop == GTop(y) && ld.lBase == y.lBase && ld.tBase == y.tBase && ld.tTop == d.top
    && ld.Consistent() && SweepState(y, l0, d, ld.mem[..], ld.logical, ld.threads) && SweepCounts(ld, y, needs, local)
  }

  lemma SweepParts(ld: LocalData, y: Layout, l0: Memory, d: Done, needs: int, local: int)
    requires InSweep(ld, y, l0, d, needs, local) == true
    ensures |y.objs| >= 2 && ld.gBase == y.objs[0] && ld.gTop == GTop(y) && ld.lBase == y.lBase && ld.tBase == y.tBase && ld.tTop == d.top
    ensures ld.Consistent() == true && SweepState(y, l0, d, ld.mem[..], ld.logical, ld.threads) == true
    ensures ld.localMarked == |MarkedSlots(y, ld.logical)|
    ensures ld.needsRelocation - needs + local - ld.localMarked == |ld.threads.rank|
    ensures ld.mem.Length == |ld.logical| && Sweepable(y, l0, d.top) == true && DoneOk(y, d) == true
  {
  }

  lemma SweepWhole(ld: LocalData, y: Layout, l0: Memory, d: Done, needs: int, local: int)
    requires |y.objs| >= 2 && ld.gBase == y.objs[0] && ld.gTop == GTop(y) && ld.lBase == y.lBase && ld.tBase == y.tBase && ld.tTop == d.top
    requires ld.Consistent() == true && SweepState(y, l0, d, ld.mem[..], ld.logical, ld.threads) == true
    requires ld.localMarked == |MarkedSlots(y, ld.logical)|
    requires ld.needsRelocation - needs + local - ld.localMarked == |ld.threads.rank|
    ensures InSweep(ld, y, l0, d, needs, local) == true
  {
  }

  lemma RankPushed(t: Threads, h: nat, c: nat)
    requires c !in t.rank
    ensures |Push(t, h, c).rank| == |t.rank| + 1
  {
    assert Push(t, h, c).rank.Keys == t.rank.Keys + {c};
  }

  /** One turn of the loop over the variables of a frame. */
  method SweepSlot(ld: LocalData, sp: nat, ghost y: Layout, ghost l0: Memory, ghost d: Done, ghost needs: int, ghost local: int)
      returns (ghost e: Done)
    requires InSweep(ld, y, l0, d, needs, local) == true && Slot(y, sp)
    modifies ld`localMarked, ld`relocationChains, ld`relocationCells, ld`threads, ld`logical, ld.mem
    ensures InSweep(ld, y, l0, e, needs, local) == true
    ensures e == if old(ld.mem[..])[sp].mark then SlotSwept(d, sp) else d
  {
    hide *;
    ghost var m, l, t := ld.mem[..], ld.logical, ld.threads;
    SweepParts(ld, y, l0, d, needs, local);
    SlotReads(y, l0, d, m, l, t, sp);
    e := d;
    if ld.mem[sp].mark {
      ghost var k := l[sp := l[sp].(mark := false)];
      e := SlotSwept(d, sp);
      SlotCleared(y, l, sp, k);
      C.ClearMark(ld, sp);
      C.IsThreaded(ld);
      C.Counters(ld);
      Reads(ld.mem[..], k, t, sp);
      if ld.mem[sp].word.Ptr? && ld.mem[sp].word.addr <= ld.gTop {
        SweepThreadable(y, l0, d, m, l, t, l[sp].word.addr, sp);
        UnmarkedThreadable(l, t, l[sp].word.addr, sp);
        RankPushed(t, l[sp].word.addr, sp);
        ld.localMarked := ld.localMarked - 1;
        C.MakeConsistent(ld);
        IntoRelocationChain(ld, sp);
        C.IsThreaded(ld);
        SlotThreaded(y, l0, d, m, l, t, sp, ld.mem[..], k, ld.threads);
      } else {
        SlotPlain(y, l0, d, m, l, t, sp, ld.mem[..], k);
      }
      SameTop(d, sp);
      SweepWhole(ld, y, l0, e, needs, local);
    }
  }

  lemma SameTop(d: Done, a: int)
    ensures SlotSwept(d, a) == d.(slots := d.slots + {a})
  {
  }

  lemma UnmarkedThreadable(l: Memory, t: Threads, h: nat, a: nat)
    requires Threadable(l, t, h, a) == true && a < |l|
    ensures Threadable(l[a := l[a].(mark := false)], t, h, a) == true
  {
  }

  ghost predicate SlotsIn(d: Done, l0: Memory, slots: seq<nat>) {
    forall a {:trigger a in slots} :: a in slots ==> a in d.slots || !Marked(l0, a)
  }

  /** The loop over the variables of a frame in sweep_environments(), and over the references
      of a foreign frame in sweep_foreign(). */
  method SweepSlots(ld: LocalData, slots: seq<nat>, ghost y: Layout, ghost l0: Memory, ghost d0: Done, ghost needs: int, ghost local: int)
      returns (ghost d: Done)
    requires InSweep(ld, y, l0, d0, needs, local) == true
    requires forall a :: a in slots ==> Slot(y, a)
    modifies ld`localMarked, ld`relocationChains, ld`relocationCells, ld`threads, ld`logical, ld.mem
    ensures InSweep(ld, y, l0, d, needs, local) == true
    ensures d == d0.(slots := d.slots) && d0.slots <= d.slots && SlotsIn(d, l0, slots) == true
  {
    hide *;
    d := d0;
    for i := 0 to |slots|
      invariant InSweep(ld, y, l0, d, needs, local) == true
      invariant d == d0.(slots := d.slots) && d0.slots <= d.slots
      invariant forall j :: 0 <= j < i ==> slots[j] in d.slots || !Marked(l0, slots[j])
    {
      SweepParts(ld, y, l0, d, needs, local);
      SlotReads(y, l0, d, ld.mem[..], ld.logical, ld.threads, slots[i]);
      NotMarkedAt(l0, slots[i]);
      ghost var e := d;
      SameTop(d, slots[i]);
      d := SweepSlot(ld, slots[i], y, l0, d, needs, local);
    }
    AreIn(d, l0, slots);
  }

  lemma NotMarkedAt(l0: Memory, a: nat)
    ensures a < |l0| && !l0[a].mark ==> !Marked(l0, a)
  {
  }

  lemma AreIn(d: Done, l0: Memory, slots: seq<nat>)
    requires forall j :: 0 <= j < |slots| ==> slots[j] in d.slots || !Marked(l0, slots[j])
    ensures SlotsIn(d, l0, slots) == true
  {
  }

  // ---------- the trail

  lemma TrailReads(y: Layout, l0: Memory, d: Done, m: Memory, l: Memory, t: Threads, te: int)
    requires SweepState(y, l0, d, m, l, t) && y.tBase <= te == d.lo - 1
    ensures y.lBase <= te < |m| == |l| == |l0| && 0 <= te
    ensures te !in t.rank && te !in t.chains && m[te] == l[te] == l0[te] && !l[te].first && l[te].word.Ptr?
    ensures TrailRef(y, l0, te) ==> IsObject(y.objs, l[te].word.addr)
    ensures !Slot(y, te)
  {
    assert OnTrail(y, te) && EntryLeft(y, l0, te);
    assert Slot(y, te) ==> Local(y, |l0|, te);
    assert te !in y.globalTops;
    UnsweptReads(y, l0, d, m, l, t, te);
  }

  lemma EntryPassed(y: Layout, l0: Memory, d: Done, m: Memory, l: Memory, t: Threads, te: int)
    requires SweepState(y, l0, d, m, l, t) && y.tBase <= te == d.lo - 1 && !TrailRef(y, l0, te)
    ensures SweepState(y, l0, d.(lo := te), m, l, t) == true
  {
    LoLowered(y, l0, d, l, te);
  }

  lemma LoLowered(y: Layout, l0: Memory, d: Done, l: Memory, te: int)
    requires |y.objs| >= 2 && Swept(y, l0, d, l)
    ensures Swept(y, l0, d.(lo := te), l)
  {
    forall c {:trigger SweptCell(y, l0, d.(lo := te), l, c)} | 0 <= c < |l|
      ensures SweptCell(y, l0, d.(lo := te), l, c)
    {
      SweptAt(y, l0, d, l, c);
    }
  }

  lemma EntryThreaded(y: Layout, l0: Memory, d: Done, m: Memory, l: Memory, t: Threads, te: int, n: Memory, u: Threads)
    requires SweepState(y, l0, d, m, l, t) && y.tBase <= te == d.lo - 1 && 0 <= te < |l| && TrailRef(y, l0, te)
    requires l[te].word.Ptr? && Threaded(n, l, u) && u == Push(t, l[te].word.addr, te)
    ensures SweepState(y, l0, d.(lo := te), n, l, u) == true
  {
    LoLowered(y, l0, d, l, te);
    forall c
      ensures c in u.rank <==> Rooting(y, l0, d.(lo := te), l, c)
    {
      assert c in t.rank <==> Rooting(y, l0, d, l, c);
    }
  }

  /** pl-gc.c, sweep_trail(). */
  method SweepTrail(ld: LocalData, ghost y: Layout, ghost l0: Memory, ghost d0: Done, ghost needs: int, ghost local: int)
      returns (ghost d: Done)
    requires InSweep(ld, y, l0, d0, needs, local) == true && d0.lo == d0.top
    modifies ld`needsRelocation, ld`relocationChains, ld`relocationCells, ld`threads, ld.mem
    ensures InSweep(ld, y, l0, d, needs, local) == true && d == d0.(lo := y.tBase)
  {
    hide *;
    d := d0;
    SweepParts(ld, y, l0, d, needs, local);
    LoInside(y, d);
    var te := ld.tTop - 1;
    while te >= ld.tBase
      invariant InSweep(ld, y, l0, d, needs, local) == true
      invariant d == d0.(lo := te + 1) && y.tBase - 1 <= te && ld.tBase == y.tBase
    {
      ghost var m, l, t := ld.mem[..], ld.logical, ld.threads;
      SweepParts(ld, y, l0, d, needs, local);
      TrailReads(y, l0, d, m, l, t, te);
      TrailRefIs(y, l0, te);
      if ld.mem[te].word.tag == TRAILVAL || ld.mem[te].word.addr < ld.lBase {
        SweepThreadable(y, l0, d, m, l, t, l[te].word.addr, te);
        RankPushed(t, l[te].word.addr, te);
        C.Counters(ld);
        C.IsThreaded(ld);
        ld.needsRelocation := ld.needsRelocation + 1;
        C.MakeConsistent(ld);
        IntoRelocationChain(ld, te);
        C.IsThreaded(ld);
        EntryThreaded(y, l0, d, m, l, t, te, ld.mem[..], ld.threads);
      } else {
        EntryPassed(y, l0, d, m, l, t, te);
      }
      d := d.(lo := te);
      SweepWhole(ld, y, l0, d, needs, local);
      te := te - 1;
    }
  }

  lemma TrailRefIs(y: Layout, l0: Memory, e: int)
    requires 0 <= e < |l0| && l0[e].word.Ptr?
    ensures TrailRef(y, l0, e) <==> (l0[e].word.tag == TRAILVAL || l0[e].word.addr < y.lBase)
  {
  }

  lemma LoInside(y: Layout, d: Done)
    requires DoneOk(y, d) == true
    ensures y.tBase <= d.lo <= d.top <= y.tTop
  {
  }

  // ---------- the saved tops of the global stack

  /** What sweep_mark() reads below address objs[i]. */
  lemma BelowReads(y: Layout, l0: Memory, d: Done, m: Memory, l: Memory, t: Threads, i: int)
    requires SweepState(y, l0, d, m, l, t) && 0 < i < |y.objs| - 1
    ensures 0 <= y.objs[i - 1] < y.objs[i] <= |m| && |m| == |l| == |l0|
    ensures m[y.objs[i] - 1].first ==> IsObject(y.objs, y.objs[i])
    ensures !m[y.objs[i] - 1].first ==> y.objs[i] - 1 - OffsetCell(m[y.objs[i] - 1].word) == y.objs[i - 1]
    ensures m[y.objs[i - 1]].mark == Marked(l0, y.objs[i - 1])
  {
    var o, last := y.objs[i - 1], y.objs[i] - 1;
    assert ObjectAt(l0, y.objs, i - 1) && IsObject(y.objs, o);
    Increasing(l0, y.objs, i, |y.objs| - 1);
    GlobalReads(y, l0, d, m, l, t, o);
    GlobalReads(y, l0, d, m, l, t, last);
  }

  lemma GlobalReads(y: Layout, l0: Memory, d: Done, m: Memory, l: Memory, t: Threads, a: int)
    requires SweepState(y, l0, d, m, l, t) && 0 <= a < y.lBase && a < |m|
    ensures |m| == |l| == |l0| && m[a].mark == l0[a].mark && l[a] == l0[a]
    ensures !m[a].first ==> m[a].word == l0[a].word
  {
    GlobalUnswept(y, l0, d, a);
    SweptAt(y, l0, d, l, a);
    Reads(m, l, t, a);
    if a in t.rank {
      RootTarget(y, l0, d, l, a);
    }
  }

  lemma TopSwept(y: Layout, l0: Memory, d: Done, m: Memory, l: Memory, t: Threads, c: nat, w: Word, n: Memory, u: Threads)
    requires SweepState(y, l0, d, m, l, t) && c in y.globalTops && c !in d.tops && c < |l|
    requires l0[c].word.Ptr? && w.Ptr? && w.tag == Address && SamePlace(y, l0, l0[c].word.addr, w.addr)
    requires Threaded(n, l[c := l[c].(word := w)], u)
    requires w.addr == y.objs[0] ==> u == t
    requires w.addr != y.objs[0] ==> u == Push(t, w.addr, c)
    ensures SweepState(y, l0, d.(tops := d.tops + {c}), n, l[c := l[c].(word := w)], u) == true
  {
    var e, k := d.(tops := d.tops + {c}), l[c := l[c].(word := w)];
    TopPlace(y, l0, d, c);
    TopChanged(y, l0, d, l, c, w);
    forall a
      ensures a in u.rank <==> Rooting(y, l0, e, k, a)
    {
      assert a in t.rank <==> Rooting(y, l0, d, l, a);
    }
  }

  lemma TopPlace(y: Layout, l0: Memory, d: Done, c: int)
    requires Sweepable(y, l0, d.top) && DoneOk(y, d) && c in y.globalTops
    ensures y.lBase <= c < |l0| && !OnTrail(y, c) && !Slot(y, c) && c !in d.slots && !(d.lo <= c < d.top)
    ensures l0[c].word.Ptr? && l0[c].word.tag == Address && IsObject(y.objs, l0[c].word.addr)
  {
    assert Slot(y, c) ==> Local(y, |l0|, c);
  }

  lemma TopChanged(y: Layout, l0: Memory, d: Done, l: Memory, c: nat, w: Word)
    requires |y.objs| >= 2 && Swept(y, l0, d, l) && c < |l| && c !in d.slots && c !in d.tops
    requires l0[c].word.Ptr? && w.Ptr? && w.tag == Address && SamePlace(y, l0, l0[c].word.addr, w.addr)
    ensures Swept(y, l0, d.(tops := d.tops + {c}), l[c := l[c].(word := w)]) == true
  {
    var e, k := d.(tops := d.tops + {c}), l[c := l[c].(word := w)];
    SweptAt(y, l0, d, l, c);
    forall a {:trigger SweptCell(y, l0, e, k, a)} | 0 <= a < |l|
      ensures SweptCell(y, l0, e, k, a)
    {
      SweptAt(y, l0, d, l, a);
    }
  }

  lemma SamePlaceBelow(y: Layout, l0: Memory, top: int, a: int, i: int)
    requires Sweepable(y, l0, top) && 0 < i < |y.objs| - 1 && SamePlace(y, l0, a, y.objs[i]) && !Marked(l0, y.objs[i - 1])
    ensures SamePlace(y, l0, a, y.objs[i - 1])
  {
    ToAt(l0, y.objs, i);
    ToAt(l0, y.objs, i - 1);
  }

  /** The search of sweep_mark(): the address of the object above the last live one below g,
      which moves to where g would. */
  method FindLive(ld: LocalData, g: nat, ghost y: Layout, ghost l0: Memory, ghost d: Done, ghost needs: int, ghost local: int)
      returns (gm: nat)
    requires InSweep(ld, y, l0, d, needs, local) == true && IsObject(y.objs, g) && |y.objs| >= 2
    ensures SamePlace(y, l0, g, gm) == true && IsObject(y.objs, gm)
  {
    hide *;
    ghost var m, l, t := ld.mem[..], ld.logical, ld.threads;
    SweepParts(ld, y, l0, d, needs, local);
    gm := g;
    ghost var i := Index(y.objs, g);
    ObjectsFrom(y, l0, d.top, i);
    SamePlaceSelf(y, l0, g);
    while gm != ld.gBase
      invariant 0 <= i < |y.objs| - 1 && gm == y.objs[i] && SamePlace(y, l0, g, gm) == true
      decreases i
    {
      ObjectsFrom(y, l0, d.top, i);
      BelowReads(y, l0, d, m, l, t, i);
      if ld.mem[gm - 1].first {
        break;
      }
      var prev := gm - 1 - OffsetCell(ld.mem[gm - 1].word);
      if ld.mem[prev].mark {
        break;
      }
      SamePlaceBelow(y, l0, d.top, g, i);
      gm := prev;
      i := i - 1;
    }
    ObjectsFrom(y, l0, d.top, i);
  }

  lemma ObjectsFrom(y: Layout, l0: Memory, top: int, i: int)
    requires Sweepable(y, l0, top) && 0 <= i < |y.objs| - 1
    ensures IsObject(y.objs, y.objs[i]) && (y.objs[i] != y.objs[0] ==> i > 0) && Index(y.objs, y.objs[i]) == i
  {
    ToAt(l0, y.objs, i);
  }

  lemma SamePlaceSelf(y: Layout, l0: Memory, g: int)
    requires |y.objs| >= 2 && IsObject(y.objs, g)
    ensures SamePlace(y, l0, g, g) == true
  {
  }

  lemma TopReads(y: Layout, l0: Memory, d: Done, m: Memory, l: Memory, t: Threads, c: nat)
    requires SweepState(y, l0, d, m, l, t) && c in y.globalTops && c !in d.tops
    ensures y.lBase <= c < |m| == |l| == |l0| && c !in t.rank && c !in t.chains && m[c] == l[c] == l0[c] && !l[c].first
    ensures l[c].word.Ptr? && l[c].word.tag == Address && IsObject(y.objs, l[c].word.addr) && !Slot(y, c)
  {
    TopPlace(y, l0, d, c);
    UnsweptReads(y, l0, d, m, l, t, c);
  }

  lemma TopThreadable(y: Layout, l0: Memory, d: Done, m: Memory, l: Memory, t: Threads, c: nat, gm: nat)
    requires SweepState(y, l0, d, m, l, t) && c in y.globalTops && c !in d.tops && c < |l| && IsObject(y.objs, gm)
    ensures Threadable(l[c := l[c].(word := Ptr(Address, gm))], t, gm, c) == true
  {
    TopReads(y, l0, d, m, l, t, c);
    ObjectInRange(y, l0, d.top, gm);
    if gm in t.rank {
      RootTarget(y, l0, d, l, gm);
    }
    SweptAt(y, l0, d, l, gm);
    GlobalUnswept(y, l0, d, gm);
  }

  lemma SlotsUnchanged(y: Layout, l: Memory, c: nat, w: Word)
    requires |y.objs| >= 2 && c < |l| && !Slot(y, c)
    ensures MarkedSlots(y, l[c := l[c].(word := w)]) == MarkedSlots(y, l)
  {
    var k := l[c := l[c].(word := w)];
    assert forall a :: 0 <= a < |l| && a != c ==> k[a] == l[a];
  }

  function TopDone(d: Done, c: int): Done { d.(tops := d.tops + {c}) }

  lemma SamePlaceObject(y: Layout, l0: Memory, a: int, b: int)
    requires |y.objs| >= 2 && SamePlace(y, l0, a, b)
    ensures IsObject(y.objs, b)
  {
  }

  /** pl-gc.c, sweep_mark(), for the saved top of the global stack in cell c. */
  method SweepMark(ld: LocalData, c: nat, ghost y: Layout, ghost l0: Memory, ghost d: Done, ghost needs: int, ghost local: int)
    requires InSweep(ld, y, l0, d, needs, local) == true && c in y.globalTops && c !in d.tops
    modifies ld`needsRelocation, ld`relocationChains, ld`relocationCells, ld`threads, ld`logical, ld.mem
    ensures InSweep(ld, y, l0, TopDone(d, c), needs, local) == true
  {
    hide *;
    ghost var m, l, t := ld.mem[..], ld.logical, ld.threads;
    SweepParts(ld, y, l0, d, needs, local);
    TopReads(y, l0, d, m, l, t, c);
    var gm := FindLive(ld, ld.mem[c].word.addr, y, l0, d, needs, local);
    SamePlaceObject(y, l0, l0[c].word.addr, gm);
    TopThreadable(y, l0, d, m, l, t, c, gm);
    SlotsUnchanged(y, l, c, Ptr(Address, gm));
    SetField(ld, c, gm);
    C.IsThreaded(ld);
    C.Counters(ld);
    if gm != ld.gBase {
      RankPushed(t, gm, c);
      ld.needsRelocation := ld.needsRelocation + 1;
      C.MakeConsistent(ld);
      IntoRelocationChain(ld, c);
      C.IsThreaded(ld);
    }
    TopSwept(y, l0, d, m, l, t, c, Ptr(Address, gm), ld.mem[..], ld.threads);
    IsTopDone(d, c);
    SweepWhole(ld, y, l0, TopDone(d, c), needs, local);
  }

  lemma IsTopDone(d: Done, c: int)
    ensures TopDone(d, c) == d.(tops := d.tops + {c})
  {
  }

  /** `m->globaltop = gm` */
  method SetField(ld: LocalData, c: nat, gm: nat)
    requires ld.Consistent() == true && c < ld.mem.Length && c !in ld.threads.rank && c !in ld.threads.chains
    requires c < |ld.logical| && ld.mem[c] == ld.logical[c]
    modifies ld`logical, ld.mem
    ensures ld.Consistent() == true && ld.logical == old(ld.logical)[c := old(ld.logical)[c].(word := Ptr(Address, gm))]
  {
    hide *;
    ghost var m, l, t := ld.mem[..], ld.logical, ld.threads;
    C.Counters(ld);
    C.IsThreaded(ld);
    C.Length(ld, l);
    Write(m, l, t, c, l[c].(word := Ptr(Address, gm)));
    ld.mem[c] := ld.mem[c].(word := Ptr(Address, gm));
    assert ld.mem[..] == m[c := l[c].(word := Ptr(Address, gm))];
    ld.logical := l[c := l[c].(word := Ptr(Address, gm))];
    C.MakeConsistent(ld);
  }

  // ---------- all sweeps

  /** The saved tops lo of the choice points, and `from` to `to` of the foreign frames, are
      swept. */
  ghost predicate TopsDone(y: Layout, d: Done, lo: int, from: int, to: int)
    requires 0 <= lo <= from <= to <= |y.globalTops|
  {
    forall c {:trigger c in d.tops} :: c in d.tops <==> c in y.globalTops[..lo] || c in y.globalTops[from..to]
  }

  ghost predicate FramesDone(y: Layout, l0: Memory, d: Done, j: int)
    requires 0 <= j <= |y.choices|
  {
    forall i {:trigger y.choices[i]} :: 0 <= i < j ==> SlotsIn(d, l0, y.choices[i].query) && SlotsIn(d, l0, y.choices[i].frames)
  }

  ghost predicate ForeignSwept(y: Layout, l0: Memory, d: Done, j: int)
    requires 0 <= j <= |y.foreign|
  {
    forall i {:trigger y.foreign[i]} :: 0 <= i < j ==> SlotsIn(d, l0, y.foreign[i])
  }

  lemma StillIn(d: Done, e: Done, l0: Memory, y: Layout, i: int, j: int)
    requires d.slots <= e.slots && 0 <= i <= |y.foreign| && 0 <= j <= |y.choices|
    ensures ForeignSwept(y, l0, d, i) ==> ForeignSwept(y, l0, e, i) == true
    ensures FramesDone(y, l0, d, j) ==> FramesDone(y, l0, e, j) == true
    ensures forall s {:trigger SlotsIn(e, l0, s)} :: SlotsIn(d, l0, s) ==> SlotsIn(e, l0, s)
  {
    forall s: seq<nat> | SlotsIn(d, l0, s)
      ensures SlotsIn(e, l0, s)
    {
      assert forall a :: a in s ==> a in d.slots || !Marked(l0, a);
    }
    if ForeignSwept(y, l0, d, i) {
      forall k {:trigger y.foreign[k]} | 0 <= k < i
        ensures SlotsIn(e, l0, y.foreign[k])
      {
        assert SlotsIn(d, l0, y.foreign[k]);
      }
    }
    if FramesDone(y, l0, d, j) {
      forall k {:trigger y.choices[k]} | 0 <= k < j
        ensures SlotsIn(e, l0, y.choices[k].query) && SlotsIn(e, l0, y.choices[k].frames)
      {
        assert SlotsIn(d, l0, y.choices[k].query) && SlotsIn(d, l0, y.choices[k].frames);
      }
    }
  }

  lemma NextTop(y: Layout, d: Done, lo: int, from: int, to: int)
    requires 0 <= lo <= from <= to < |y.globalTops| && Distinct(y.globalTops) && TopsDone(y, d, lo, from, to) == true
    ensures y.globalTops[to] in y.globalTops && y.globalTops[to] !in d.tops
    ensures TopsDone(y, TopDone(d, y.globalTops[to]), lo, from, to + 1) == true
  {
    assert y.globalTops[from..to + 1] == y.globalTops[from..to] + [y.globalTops[to]];
  }

  lemma NextChoiceTop(y: Layout, d: Done, lo: int, from: int, to: int)
    requires 0 <= lo < from <= to <= |y.globalTops| && Distinct(y.globalTops) && TopsDone(y, d, lo, from, to) == true
    ensures y.globalTops[lo] in y.globalTops && y.globalTops[lo] !in d.tops
    ensures TopsDone(y, TopDone(d, y.globalTops[lo]), lo + 1, from, to) == true
  {
    assert y.globalTops[..lo + 1] == y.globalTops[..lo] + [y.globalTops[lo]];
  }

  lemma SweepPlaced(y: Layout, l0: Memory, top: int)
    requires Sweepable(y, l0, top)
    ensures Distinct(y.globalTops) && |y.choices| + |y.foreign| == |y.globalTops|
    ensures forall j, a :: 0 <= j < |y.choices| && (a in y.choices[j].query || a in y.choices[j].frames) ==> Slot(y, a)
    ensures forall j, a :: 0 <= j < |y.foreign| && a in y.foreign[j] ==> Slot(y, a)
  {
  }

  lemma OnlySlots(y: Layout, d: Done, e: Done, lo: int, from: int, to: int)
    requires 0 <= lo <= from <= to <= |y.globalTops| && e == d.(slots := e.slots) && TopsDone(y, d, lo, from, to) == true
    ensures TopsDone(y, e, lo, from, to) == true
  {
  }

  lemma OnlyLo(y: Layout, l0: Memory, d: Done, e: Done, lo: int, from: int, to: int, i: int)
    requires 0 <= lo <= from <= to <= |y.globalTops| && e == d.(lo := e.lo) && TopsDone(y, d, lo, from, to) == true
    requires 0 <= i <= |y.foreign| && ForeignSwept(y, l0, d, i) == true
    ensures TopsDone(y, e, lo, from, to) == true && ForeignSwept(y, l0, e, i) == true
  {
    StillIn(d, e, l0, y, i, 0);
  }

  lemma OneForeign(y: Layout, l0: Memory, d: Done, i: int)
    requires 0 <= i < |y.foreign| && ForeignSwept(y, l0, d, i) == true && SlotsIn(d, l0, y.foreign[i]) == true
    ensures ForeignSwept(y, l0, d, i + 1) == true
  {
  }

  lemma OneChoice(y: Layout, l0: Memory, d: Done, j: int)
    requires 0 <= j < |y.choices| && FramesDone(y, l0, d, j) == true
    requires SlotsIn(d, l0, y.choices[j].query) == true && SlotsIn(d, l0, y.choices[j].frames) == true
    ensures FramesDone(y, l0, d, j + 1) == true
  {
  }

  lemma NothingDone(y: Layout, l0: Memory, d: Done)
    requires d.slots == {} && d.tops == {} && |y.choices| <= |y.globalTops|
    ensures TopsDone(y, d, 0, |y.choices|, |y.choices|) == true && ForeignSwept(y, l0, d, 0) == true && FramesDone(y, l0, d, 0) == true
  {
  }

  /** pl-gc.c, sweep_foreign(). */
  method SweepForeign(ld: LocalData, foreign: seq<seq<nat>>, globalTops: seq<nat>, first: nat, ghost y: Layout, ghost l0: Memory,
      ghost d0: Done, ghost needs: int, ghost local: int) returns (ghost d: Done)
    requires InSweep(ld, y, l0, d0, needs, local) == true && d0.slots == {} && d0.tops == {}
    requires foreign == y.foreign && globalTops == y.globalTops && first == |y.choices| && first + |foreign| == |globalTops|
    modifies ld`localMarked, ld`needsRelocation, ld`relocationChains, ld`relocationCells, ld`threads, ld`logical, ld.mem
    ensures InSweep(ld, y, l0, d, needs, local) == true && d.lo == d0.lo && d.top == d0.top
    ensures TopsDone(y, d, 0, first, |globalTops|) == true && ForeignSwept(y, l0, d, |foreign|) == true
  {
    hide *;
    d := d0;
    NothingDone(y, l0, d);
    for i := 0 to |foreign|
      invariant InSweep(ld, y, l0, d, needs, local) == true && d.lo == d0.lo && d.top == d0.top
      invariant TopsDone(y, d, 0, first, first + i) == true && ForeignSwept(y, l0, d, i) == true
    {
      SweepParts(ld, y, l0, d, needs, local);
      SweepPlaced(y, l0, d.top);
      NextTop(y, d, 0, first, first + i);
      SweepMark(ld, globalTops[first + i], y, l0, d, needs, local);
      IsTopDone(d, globalTops[first + i]);
      ghost var e := TopDone(d, globalTops[first + i]);
      StillIn(d, e, l0, y, i, 0);
      d := SweepSlots(ld, foreign[i], y, l0, e, needs, local);
      StillIn(e, d, l0, y, i, 0);
      OnlySlots(y, e, d, 0, first, first + i + 1);
      OneForeign(y, l0, d, i);
    }
  }

  /** pl-gc.c, sweep_stacks(), up to its check that all variables were found. */
  method SweepStacks(ld: LocalData, choices: seq<Choice>, globalTops: seq<nat>, ghost y: Layout, ghost l0: Memory,
      ghost d0: Done, ghost needs: int, ghost local: int) returns (ghost d: Done)
    requires InSweep(ld, y, l0, d0, needs, local) == true
    requires choices == y.choices && globalTops == y.globalTops && |choices| <= |globalTops|
    requires TopsDone(y, d0, 0, |choices|, |globalTops|) == true && ForeignSwept(y, l0, d0, |y.foreign|) == true
    modifies ld`localMarked, ld`needsRelocation, ld`relocationChains, ld`relocationCells, ld`threads, ld`logical, ld.mem
    ensures InSweep(ld, y, l0, d, needs, local) == true && d.lo == d0.lo && d.top == d0.top
    ensures TopsDone(y, d, |choices|, |choices|, |globalTops|) == true
    ensures ForeignSwept(y, l0, d, |y.foreign|) == true && FramesDone(y, l0, d, |choices|) == true
  {
    hide *;
    d := d0;
    NoFrames(y, l0, d);
    for j := 0 to |choices|
      invariant InSweep(ld, y, l0, d, needs, local) == true && d.lo == d0.lo && d.top == d0.top
      invariant TopsDone(y, d, j, |choices|, |globalTops|) == true
      invariant ForeignSwept(y, l0, d, |y.foreign|) == true && FramesDone(y, l0, d, j) == true
    {
      SweepParts(ld, y, l0, d, needs, local);
      SweepPlaced(y, l0, d.top);
      ghost var a := d;
      ghost var b := SweepSlots(ld, choices[j].query, y, l0, a, needs, local);
      StillIn(a, b, l0, y, |y.foreign|, j);
      d := SweepSlots(ld, choices[j].frames, y, l0, b, needs, local);
      StillIn(b, d, l0, y, |y.foreign|, j);
      OneChoice(y, l0, d, j);
      OnlySlots(y, a, d, j, |choices|, |globalTops|);
      NextChoiceTop(y, d, j, |choices|, |globalTops|);
      SweepMark(ld, globalTops[j], y, l0, d, needs, local);
      IsTopDone(d, globalTops[j]);
      ghost var e := TopDone(d, globalTops[j]);
      StillIn(d, e, l0, y, |y.foreign|, j + 1);
      d := e;
    }
  }

  lemma NoFrames(y: Layout, l0: Memory, d: Done)
    ensures FramesDone(y, l0, d, 0) == true
  {
  }

  lemma AllSwept(y: Layout, l0: Memory, d: Done, m: Memory, l: Memory, t: Threads)
    requires SweepState(y, l0, d, m, l, t) && ForeignSwept(y, l0, d, |y.foreign|) && FramesDone(y, l0, d, |y.choices|)
    ensures forall a {:trigger Slot(y, a)} :: Slot(y, a) ==> a in d.slots || !Marked(l0, a)
    ensures |MarkedSlots(y, l)| == 0
  {
    forall a {:trigger Slot(y, a)} | Slot(y, a)
      ensures a in d.slots || !Marked(l0, a)
      ensures a !in MarkedSlots(y, l)
    {
      SlotPlace(y, l0, d, a);
      SweptAt(y, l0, d, l, a);
    }
    assert MarkedSlots(y, l) == {};
  }

  ghost predicate Complete(y: Layout, l0: Memory, d: Done) {
    && (forall a {:trigger Slot(y, a)} :: Slot(y, a) && Marked(l0, a) ==> a in d.slots)
    && (forall c {:trigger c in y.globalTops} :: c in y.globalTops ==> c in d.tops)
    && d.lo == y.tBase
  }

  lemma IsComplete(y: Layout, l0: Memory, d: Done)
    requires forall a {:trigger Slot(y, a)} :: Slot(y, a) ==> a in d.slots || !Marked(l0, a)
    requires |y.choices| <= |y.globalTops| && TopsDone(y, d, |y.choices|, |y.choices|, |y.globalTops|) == true && d.lo == y.tBase
    ensures Complete(y, l0, d) == true
  {
    assert y.globalTops == y.globalTops[..|y.choices|] + y.globalTops[|y.choices|..|y.globalTops|];
  }

  /** The sweeps of collect_phase(). */
  method SweepAll(ld: LocalData, foreign: seq<seq<nat>>, choices: seq<Choice>, globalTops: seq<nat>, ghost y: Layout, ghost l0: Memory,
      ghost needs: int, ghost local: int) returns (ghost d: Done)
    requires InSweep(ld, y, l0, Done({}, {}, ld.tTop, ld.tTop), needs, local) == true
    requires foreign == y.foreign && choices == y.choices && globalTops == y.globalTops && |choices| + |foreign| == |globalTops|
    modifies ld`localMarked, ld`needsRelocation, ld`relocationChains, ld`relocationCells, ld`threads, ld`logical, ld.mem
    ensures InSweep(ld, y, l0, d, needs, local) == true && Complete(y, l0, d) == true && d.top == ld.tTop
    ensures ld.localMarked == 0
  {
    hide *;
    ghost var d0 := Done({}, {}, ld.tTop, ld.tTop);
    ghost var d1 := SweepForeign(ld, foreign, globalTops, |choices|, y, l0, d0, needs, local);
    ghost var d2 := SweepTrail(ld, y, l0, d1, needs, local);
    OnlyLo(y, l0, d1, d2, 0, |choices|, |globalTops|, |foreign|);
    d := SweepStacks(ld, choices, globalTops, y, l0, d2, needs, local);
    SweepParts(ld, y, l0, d, needs, local);
    AllSwept(y, l0, d, ld.mem[..], ld.logical, ld.threads);
    IsComplete(y, l0, d);
    assert ld.localMarked == 0;
  }
}
