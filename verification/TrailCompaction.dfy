/** Compaction of the trail (pl-gc.c, compact_trail()). */
module TrailCompaction {
  import opened Words
  import opened Relocation
  import opened Stacks
  import opened MarkPhase
  import C = Compaction

  /** The number of trail entries from lo to hi - 1 that are not deleted. */
  ghost function Kept(l: Memory, lo: int, hi: int): (n: nat)
    ensures n <= if lo <= hi then hi - lo else 0
    decreases hi - lo
  {
    if hi <= lo then 0 else Kept(l, lo, hi - 1) + (if 0 <= hi - 1 < |l| && l[hi - 1].word != Var then 1 else 0)
  }

  lemma {:induction false} KeptMonotone(l: Memory, lo: int, e: int, hi: int)
    requires lo <= e <= hi
    ensures Kept(l, lo, e) <= Kept(l, lo, hi)
    ensures 0 <= e < |l| && e < hi && l[e].word != Var ==> Kept(l, lo, e) < Kept(l, lo, hi)
    decreases hi - e
  {
    if e < hi {
      KeptMonotone(l, lo, e, hi - 1);
    }
  }

  /** Where entry e goes. */
  ghost function NewEntry(y: Layout, l: Memory, e: int): int {
    y.tBase + Kept(l, y.tBase, e)
  }

  /** A saved trail top that leads below `current`. */
  ghost predicate Passed(y: Layout, l: Memory, current: int, c: int) {
    c in y.trailTops && 0 <= c < |l| && l[c].word.Ptr? && l[c].word.addr < current
  }

  /** Memory when the entries below `current` are moved. */
  ghost predicate Moved(y: Layout, l: Memory, current: int, k: Memory) {
    && |k| == |l|
    && (forall a {:trigger k[a]} :: 0 <= a < |l| && OnTrail(y, a) ==> !k[a].mark && !k[a].first)
    && (forall e {:trigger l[e]} :: 0 <= e < |l| && y.tBase <= e < current && l[e].word != Var ==>
          NewEntry(y, l, e) < |l| && 0 <= NewEntry(y, l, e) && k[NewEntry(y, l, e)] == l[e])
    && (forall a {:trigger k[a]} :: 0 <= a < |l| && !(y.tBase <= a < current) ==>
          k[a] == if Passed(y, l, current, a) then l[a].(word := Ptr(Address, MovedTop(y, l, l[a].word))) else l[a])
  }

  ghost function MovedTop(y: Layout, l: Memory, w: Word): nat
    requires w.Ptr?
  {
    if y.tBase >= 0 then NewEntry(y, l, w.addr) else 0
  }

  /** The saved trail tops that are still threaded lead to `current` or above. */
  ghost predicate StillThreaded(y: Layout, l: Memory, t: Threads, current: int) {
    forall c {:trigger c in t.rank} :: c in t.rank <==> c in y.trailTops && 0 <= c < |l| && l[c].word.Ptr? && l[c].word.addr >= current
  }

  ghost predicate TrailState(y: Layout, l: Memory, current: int, m: Memory, k: Memory, t: Threads) {
    Threaded(m, k, t) && Moved(y, l, current, k) && StillThreaded(y, l, t, current)
  }

  lemma TrailStart(y: Layout, l: Memory, m: Memory, t: Threads)
    requires StacksOk(y, l) && Threaded(m, l, t) && TopsThreaded(y, t, |y.trailTops|)
    ensures TrailState(y, l, y.tBase, m, l, t) == true
  {
    assert y.trailTops[..|y.trailTops|] == y.trailTops;
    forall a | 0 <= a < |l| && OnTrail(y, a)
      ensures !l[a].mark && !l[a].first
    {
      SlotOutside(y, l, a);
      assert Slot(y, a) ==> Local(y, |l|, a);
    }
    forall c | c in y.trailTops
      ensures 0 <= c < |l| && l[c].word.Ptr? && l[c].word.addr >= y.tBase
    {
      assert OnTrail(y, l[c].word.addr);
    }
  }

  /** What the loop reads at `current`. */
  lemma CurrentReads(y: Layout, l: Memory, current: int, m: Memory, k: Memory, t: Threads)
    requires StacksOk(y, l) && TrailState(y, l, current, m, k, t) && OnTrail(y, current)
    ensures 0 <= current < |m| && current !in t.rank && k[current] == l[current]
    ensures m[current].first <==> current in t.chains
    ensures current !in t.chains ==> m[current] == l[current]
  {
    assert current !in y.trailTops;
    Reads(m, k, t, current);
  }

  lemma TopCell(y: Layout, l: Memory, c: int)
    requires StacksOk(y, l) && c in y.trailTops
    ensures 0 <= c < |l| && !OnTrail(y, c) && l[c].word.Ptr? && l[c].word.tag == Address && OnTrail(y, l[c].word.addr)
  {
  }

  /** Unwinding the chain of the entry at `current`. */
  lemma EntryUnwound(y: Layout, l: Memory, current: int, m: Memory, k: Memory, t: Threads, n: Memory, r: Memory, u: Threads, dest: nat)
    requires StacksOk(y, l) && TrailState(y, l, current, m, k, t) && OnTrail(y, current) && current in t.chains
    requires dest == NewEntry(y, l, current)
    requires Threaded(n, r, u) && r == Redirect(k, t, current, dest) && u == Drop(k, t, current)
    ensures EntryFree(y, l, current, n, r, u) == true
  {
    forall c
      ensures On(k, t, current, c) <==> c in y.trailTops && 0 <= c < |l| && l[c].word.Ptr? && l[c].word.addr == current
    {
      if c in y.trailTops {
        TopCell(y, l, c);
        assert k[c] == if Passed(y, l, current, c) then l[c].(word := Ptr(Address, MovedTop(y, l, l[c].word))) else l[c];
      }
    }
    forall c
      ensures c in u.rank <==> c in t.rank && !On(k, t, current, c)
    {
    }
    hide StacksOk, Threaded;
    FreeMoved(y, l, current, k, t, r, dest);
  }

  /** As TrailState, when the chain of the entry at `current` is gone, too. */
  ghost predicate EntryFree(y: Layout, l: Memory, current: int, m: Memory, k: Memory, t: Threads) {
    Threaded(m, k, t) && HalfMoved(y, l, current, k) && StillThreaded(y, l, t, current + 1) && current !in t.chains
  }

  ghost predicate HalfMoved(y: Layout, l: Memory, current: int, k: Memory) {
    && |k| == |l|
    && (forall a {:trigger k[a]} :: 0 <= a < |l| && OnTrail(y, a) ==> !k[a].mark && !k[a].first)
    && (forall e {:trigger l[e]} :: 0 <= e < |l| && y.tBase <= e < current && l[e].word != Var ==>
          NewEntry(y, l, e) < |l| && 0 <= NewEntry(y, l, e) && k[NewEntry(y, l, e)] == l[e])
    && (forall a {:trigger k[a]} :: 0 <= a < |l| && !(y.tBase <= a < current) ==>
          k[a] == if Passed(y, l, current + 1, a) then l[a].(word := Ptr(Address, MovedTop(y, l, l[a].word))) else l[a])
  }

  lemma FreeMoved(y: Layout, l: Memory, current: int, k: Memory, t: Threads, r: Memory, dest: nat)
    requires 0 <= y.tBase <= current <= y.tTop && Moved(y, l, current, k) && r == Redirect(k, t, current, dest) && dest == NewEntry(y, l, current)
    requires forall c {:trigger On(k, t, current, c)} ::
               On(k, t, current, c) <==> c in y.trailTops && 0 <= c < |l| && l[c].word.Ptr? && l[c].word.addr == current
    requires forall c :: c in y.trailTops ==> 0 <= c < |l| && !OnTrail(y, c) && l[c].word.Ptr? && l[c].word.tag == Address
    ensures HalfMoved(y, l, current, r) == true
  {
    forall e {:trigger l[e]} | 0 <= e < |l| && y.tBase <= e < current && l[e].word != Var
      ensures NewEntry(y, l, e) < |l| && 0 <= NewEntry(y, l, e) && r[NewEntry(y, l, e)] == l[e]
    {
      assert OnTrail(y, NewEntry(y, l, e));
      assert !On(k, t, current, NewEntry(y, l, e));
    }
    assert forall a :: 0 <= a < |l| ==> r[a].mark == k[a].mark && r[a].first == k[a].first;
    forall a {:trigger r[a]} | 0 <= a < |l| && !(y.tBase <= a < current)
      ensures r[a] == if Passed(y, l, current + 1, a) then l[a].(word := Ptr(Address, MovedTop(y, l, l[a].word))) else l[a]
    {
      assert k[a] == if Passed(y, l, current, a) then l[a].(word := Ptr(Address, MovedTop(y, l, l[a].word))) else l[a];
    }
  }

  lemma EntryUnchained(y: Layout, l: Memory, current: int, m: Memory, k: Memory, t: Threads)
    requires StacksOk(y, l) && TrailState(y, l, current, m, k, t) && OnTrail(y, current) && current !in t.chains
    ensures EntryFree(y, l, current, m, k, t) == true
  {
    forall c | c in y.trailTops
      ensures 0 <= c < |l| && l[c].word.Ptr? && l[c].word.addr != current
    {
      TopCell(y, l, c);
      assert c in t.rank ==> !Passed(y, l, current, c) && k[c] == l[c];
    }
  }

  /** The entry at `current` is deleted. */
  lemma EntryIsNoTop(y: Layout, l: Memory, current: int)
    requires StacksOk(y, l) && OnTrail(y, current) && current < |l|
    ensures current !in y.trailTops && 0 <= y.tBase <= current
  {
  }

  lemma EntrySkipped(y: Layout, l: Memory, current: int, m: Memory, k: Memory, t: Threads)
    requires StacksOk(y, l) && EntryFree(y, l, current, m, k, t) && OnTrail(y, current) && current < |l| && l[current].word == Var
    ensures TrailState(y, l, current + 1, m, k, t) == true
    ensures NewEntry(y, l, current + 1) == NewEntry(y, l, current)
  {
    hide StacksOk, Threaded;
    EntryIsNoTop(y, l, current);
  }

  /** The entry at `current` is moved. */
  lemma EntryMoved(y: Layout, l: Memory, current: int, m: Memory, k: Memory, t: Threads, n: Memory, r: Memory)
    requires StacksOk(y, l) && EntryFree(y, l, current, m, k, t) && OnTrail(y, current) && current < |l| && l[current].word != Var
    requires 0 <= NewEntry(y, l, current) < |k| && Threaded(n, r, t) && current < |k| && r == k[NewEntry(y, l, current) := k[current]]
    ensures TrailState(y, l, current + 1, n, r, t) == true
    ensures NewEntry(y, l, current + 1) == NewEntry(y, l, current) + 1
  {
    hide StacksOk, Threaded;
    EntryIsNoTop(y, l, current);
    var d := NewEntry(y, l, current);
    assert k[current] == l[current];
    forall e {:trigger l[e]} | 0 <= e < |l| && y.tBase <= e < current + 1 && l[e].word != Var
      ensures NewEntry(y, l, e) < |l| && 0 <= NewEntry(y, l, e) && r[NewEntry(y, l, e)] == l[e]
    {
      KeptMonotone(l, y.tBase, e, current);
    }
    assert forall a :: 0 <= a < |l| && a != d ==> r[a] == k[a];
  }

  lemma FreeCell(y: Layout, l: Memory, current: int, m: Memory, k: Memory, t: Threads)
    requires StacksOk(y, l) && EntryFree(y, l, current, m, k, t) && OnTrail(y, current)
    ensures 0 <= current < |m| == |k| && m[current] == k[current] == l[current] && current !in t.rank && current !in t.chains
    ensures 0 <= NewEntry(y, l, current) <= current && NewEntry(y, l, current) !in t.rank && NewEntry(y, l, current) !in t.chains
  {
    assert current !in y.trailTops;
    var d := NewEntry(y, l, current);
    assert OnTrail(y, d) && d !in y.trailTops;
    Reads(m, k, t, current);
    if d in t.chains {
      ChainAbove(y, l, current, m, k, t, d);
    }
  }

  /** What is still threaded leads above `current`. */
  lemma ChainAbove(y: Layout, l: Memory, current: int, m: Memory, k: Memory, t: Threads, h: int)
    requires StacksOk(y, l) && EntryFree(y, l, current, m, k, t) && h in t.chains
    ensures h > current
  {
    var c := t.chains[h][0];
    assert c in t.rank;
    TopCell(y, l, c);
  }

  // ---------- the result

  /** The trail holds the entries that are not deleted, in their order, and every saved trail
      top leads above as many of them as before. */
  ghost predicate Compacted(y: Layout, l: Memory, k: Memory) {
    && |k| == |l| && 0 <= y.tBase
    && (forall a {:trigger k[a]} :: 0 <= a < |l| && OnTrail(y, a) ==> !k[a].mark && !k[a].first)
    && (forall e {:trigger l[e]} :: y.tBase <= e < y.tTop && 0 <= e < |l| && l[e].word != Var ==>
          0 <= NewEntry(y, l, e) < |l| && k[NewEntry(y, l, e)] == l[e])
    && (forall c {:trigger c in y.trailTops} :: c in y.trailTops ==>
          c < |l| && l[c].word.Ptr? && k[c] == l[c].(word := Ptr(Address, NewEntry(y, l, l[c].word.addr))))
    && (forall a {:trigger k[a]} :: 0 <= a < |l| && !OnTrail(y, a) && a !in y.trailTops ==> k[a] == l[a])
  }

  lemma TrailEnd(y: Layout, l: Memory, m: Memory, k: Memory, t: Threads)
    requires StacksOk(y, l) && EntryFree(y, l, y.tTop, m, k, t)
    ensures Compacted(y, l, k) == true && Unthreaded(t) == true
  {
    forall c
      ensures c !in t.rank
    {
      if c in y.trailTops {
        TopCell(y, l, c);
      }
    }
    NoneThreaded(k, t);
    forall c | c in y.trailTops
      ensures c < |l| && l[c].word.Ptr? && k[c] == l[c].(word := Ptr(Address, NewEntry(y, l, l[c].word.addr)))
    {
      TopCell(y, l, c);
      assert Passed(y, l, y.tTop + 1, c);
    }
  }

  /** `if ( is_first(&current->address) ) update_relocation_chain(...)` */
  method UnwindEntry(ld: LocalData, current: nat, dest: nat, ghost y: Layout, ghost l: Memory)
    requires ld.Consistent() == true && StacksOk(y, l) == true && OnTrail(y, current)
    requires TrailState(y, l, current, ld.mem[..], ld.logical, ld.threads) == true && dest == NewEntry(y, l, current)
    modifies ld`relocationChains, ld`relocatedCells, ld`threads, ld`logical, ld.mem
    ensures ld.Consistent() == true && EntryFree(y, l, current, ld.mem[..], ld.logical, ld.threads) == true
  {
    hide *;
    ghost var m, k, t := ld.mem[..], ld.logical, ld.threads;
    CurrentReads(y, l, current, m, k, t);
    if ld.mem[current].first {
      UpdateRelocationChain(ld, current, dest);
      C.IsThreaded(ld);
      EntryUnwound(y, l, current, m, k, t, ld.mem[..], ld.logical, ld.threads, dest);
    } else {
      EntryUnchained(y, l, current, m, k, t);
    }
  }

  lemma TrailSpan(y: Layout, l: Memory, current: int)
    requires StacksOk(y, l)
    ensures 0 <= y.tBase <= y.tTop < |l| && NewEntry(y, l, y.tBase) == y.tBase
    ensures y.tBase <= current <= y.tTop ==> OnTrail(y, current) && y.tBase <= NewEntry(y, l, current) <= current
  {
  }

  /** pl-gc.c, compact_trail(). */
  method CompactTrail(ld: LocalData, ghost y: Layout)
    requires Phase(ld, y, |y.trailTops|) == true
    modifies ld`tTop, ld`relocationChains, ld`relocatedCells, ld`threads, ld`logical, ld.mem
    ensures ld.Consistent() == true && Unthreaded(ld.threads) == true && Compacted(y, old(ld.logical), ld.logical) == true
    ensures ld.tTop == NewEntry(y, old(ld.logical), y.tTop)
    ensures ld.relocatedCells == ld.relocationCells
  {
    hide *;
    ghost var l := ld.logical;
    PhaseParts(ld, y, |y.trailTops|);
    LiveParts(y, l);
    TrailStart(y, l, ld.mem[..], ld.threads);
    TrailSpan(y, l, y.tBase);
    C.MakeConsistent(ld);
    var dest, current := ld.tBase, ld.tBase;
    while current < ld.tTop
      invariant ld.Consistent() == true && ld.tTop == y.tTop && y.tBase <= current <= y.tTop
      invariant TrailState(y, l, current, ld.mem[..], ld.logical, ld.threads) == true && dest == NewEntry(y, l, current)
    {
      TrailSpan(y, l, current);
      UnwindEntry(ld, current, dest, y, l);
      ghost var m, k, t := ld.mem[..], ld.logical, ld.threads;
      FreeCell(y, l, current, m, k, t);
      if ld.mem[current].word != Var {
        C.CopyCell(ld, current, dest);
        C.IsThreaded(ld);
        EntryMoved(y, l, current, m, k, t, ld.mem[..], ld.logical);
        dest, current := dest + 1, current + 1;
      } else {
        EntrySkipped(y, l, current, m, k, t);
        current := current + 1;
      }
    }
    TrailSpan(y, l, current);
    UnwindEntry(ld, current, dest, y, l);
    TrailEnd(y, l, ld.mem[..], ld.logical, ld.threads);
    C.IsThreaded(ld);
    C.Counters(ld);
    ld.tTop := dest;
    C.MakeConsistent(ld);
    C.NoChainsLeft(ld);
    assert ld.relocatedCells == ld.relocationCells;
  }
}
