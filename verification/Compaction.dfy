/** Sliding compaction of the global stack (pl-gc.c, compact_global()). */
module Compaction {
  import opened Words
  import opened GlobalStack
  import opened Relocation

  /** What compact_global() starts from: the stacks with all chains taken apart, the objects
      of the global stack, and the cells outside of it that are threaded. */
  datatype Plan = Plan(start: Memory, objs: seq<int>, roots: set<int>, lBase: int)

  ghost predicate Outside(p: Plan, a: int)
    requires |p.objs| > 0
  {
    a < p.objs[0] || p.objs[|p.objs| - 1] <= a
  }

  /** A marked cell of the global stack that holds a pointer. */
  ghost predicate PtrCell(p: Plan, a: int) {
    IsObject(p.objs, a) && 0 <= a < |p.start| && p.start[a].mark && p.start[a].word.Ptr?
  }

  ghost predicate RootOk(p: Plan, r: int)
    requires |p.objs| > 0
  {
    && 0 <= r < |p.start| && Outside(p, r) && !p.start[r].first
    && p.start[r].word.Ptr? && IsObject(p.objs, p.start[r].word.addr)
  }

  /** Marked cells point to marked objects; the roots may point to any object. */
  ghost predicate Sound(p: Plan) {
    && Laid(p.start, p.objs)
    && p.objs[|p.objs| - 1] <= p.lBase
    && (forall r :: r in p.roots ==> RootOk(p, r))
    && (forall i {:trigger ObjectAt(p.start, p.objs, i)} :: 0 <= i < |p.objs| - 1 ==>
          0 <= p.objs[i] < |p.start| && !p.start[p.objs[i]].first)
    && (forall a {:trigger PtrCell(p, a)} :: PtrCell(p, a) ==>
          var w := p.start[a].word;
          w.tag != Address && w.addr != a && IsObject(p.objs, w.addr) && w.addr < |p.start| && p.start[w.addr].mark)
  }

  type SoundPlan = p: Plan | Sound(p)
    ghost witness Plan([Cell(Var, false, false)], [0, 1], {}, 1)

  /** pl-gc.c, val_ptr(): a header read as a pointer leads into the local stack. */
  function ValPtr(w: Word, lBase: int): int
    requires w.Ptr? || w.Header?
  {
    match w
    case Ptr(_, addr) => addr
    case Header(_, size, pad) => lBase + 4 * size + pad
  }

  predicate IsPointerLike(w: Word) {
    (w.Ptr? && w.tag != Address) || w.Header?
  }

  /** pl-gc.c, is_downward_ref(). */
  predicate IsDownwardRef(w: Word, p: int, lBase: int) {
    IsPointerLike(w) && ValPtr(w, lBase) < p
  }

  /** pl-gc.c, is_upward_ref(). */
  predicate IsUpwardRef(w: Word, p: int, lBase: int) {
    IsPointerLike(w) && ValPtr(w, lBase) > p
  }

  // ---------- the downward scan

  /** The cells relocated by the downward scan. */
  ghost predicate Down(p: SoundPlan, a: int) {
    && 0 <= a < |p.start| && p.start[a].word.Ptr?
    && (a in p.roots || (PtrCell(p, a) && p.start[a].word.addr < a))
  }

  /** Down(p, a), and the scan has come down to address b and hence seen the cell. */
  ghost predicate Seen(p: SoundPlan, b: int, a: int) {
    Down(p, a) && (a in p.roots || b <= a)
  }

  /** Logical memory once all objects from address b up are processed. */
  ghost function DownMem(p: SoundPlan, b: int): (m: Memory)
    ensures |m| == |p.start|
    ensures forall a :: 0 <= a < |m| ==> m[a] == DownCell(p, b, a)
  {
    seq(|p.start|, a requires 0 <= a < |p.start| => DownCell(p, b, a))
  }

  ghost function AfterDown(p: SoundPlan): Memory {
    DownMem(p, p.objs[0])
  }

  ghost function DownCell(p: SoundPlan, b: int, a: int): Cell
    requires 0 <= a < |p.start|
  {
    var c := p.start[a];
    if Seen(p, b, a) && b <= c.word.addr then c.(word := Ptr(c.word.tag, NewAddr(p, c.word.addr))) else c
  }

  ghost function NewAddr(p: SoundPlan, a: int): nat
    requires IsObject(p.objs, a)
  {
    ToAt(p.start, p.objs, Index(p.objs, a));
    NewAtBelow(p.start, p.objs, Index(p.objs, a));
    assert ObjectAt(p.start, p.objs, 0);
    To(p.start, p.objs, a)
  }

  /** A cell that is then still threaded on an object below b. */
  ghost predicate Waiting(p: SoundPlan, b: int, a: int) {
    Seen(p, b, a) && p.start[a].word.addr < b
  }

  ghost predicate DownThreads(p: SoundPlan, b: int, t: Threads) {
    forall a :: a in t.rank <==> Waiting(p, b, a)
  }

  lemma TargetBelow(p: SoundPlan, i: int, a: int)
    requires 0 < i < |p.objs| && IsObject(p.objs, a)
    ensures p.objs[i - 1] < p.objs[i]
    ensures a < p.objs[i] <==> a <= p.objs[i - 1]
  {
    var k := Index(p.objs, a);
    Increasing(p.start, p.objs, i - 1, i);
    if k < i {
      Increasing(p.start, p.objs, k, i - 1);
    } else {
      Increasing(p.start, p.objs, i, k);
    }
  }

  lemma ObjectInside(p: SoundPlan, i: int)
    requires 0 <= i < |p.objs| - 1
    ensures 0 <= p.objs[i] < |p.start| && IsObject(p.objs, p.objs[i]) && p.objs[i] !in p.roots
    ensures ObjectAt(p.start, p.objs, i)
  {
    assert ObjectAt(p.start, p.objs, i);
    Increasing(p.start, p.objs, 0, i);
    Increasing(p.start, p.objs, i, |p.objs| - 1);
  }

  /** Coming down to object i - 1 redirects exactly the cells threaded on it. */
  lemma DownCellStep(p: SoundPlan, i: int, a: int)
    requires 0 < i < |p.objs| && 0 <= a < |p.start|
    ensures IsObject(p.objs, p.objs[i - 1])
    ensures var b, o := p.objs[i], p.objs[i - 1];
            DownCell(p, o, a) == if Waiting(p, b, a) && p.start[a].word.addr == o
                                 then p.start[a].(word := Ptr(p.start[a].word.tag, NewAddr(p, o)))
                                 else DownCell(p, b, a)
    ensures var b, o := p.objs[i], p.objs[i - 1];
            Waiting(p, o, a) <==> (Waiting(p, b, a) && p.start[a].word.addr != o) || (a == o && Down(p, o))
  {
    ObjectInside(p, i - 1);
    if Down(p, a) {
      assert IsObject(p.objs, p.start[a].word.addr);
      TargetBelow(p, i, p.start[a].word.addr);
      if PtrCell(p, a) {
        TargetBelow(p, i, a);
      }
    }
  }

  lemma DownStep(p: SoundPlan, i: int, t: Threads)
    requires 0 < i < |p.objs|
    requires Indexed(DownMem(p, p.objs[i]), t) && DownThreads(p, p.objs[i], t)
    ensures IsObject(p.objs, p.objs[i - 1])
    ensures p.objs[i - 1] in t.chains ==>
              && Redirect(DownMem(p, p.objs[i]), t, p.objs[i - 1], NewAddr(p, p.objs[i - 1])) == DownMem(p, p.objs[i - 1])
              && MidThreads(p, p.objs[i - 1], Drop(DownMem(p, p.objs[i]), t, p.objs[i - 1]))
    ensures p.objs[i - 1] !in t.chains ==>
              && DownMem(p, p.objs[i]) == DownMem(p, p.objs[i - 1])
              && MidThreads(p, p.objs[i - 1], t)
  {
    var o := p.objs[i - 1];
    var l := DownMem(p, p.objs[i]);
    ObjectInside(p, i - 1);
    forall a | 0 <= a < |p.start|
      ensures DownCell(p, o, a) == if On(l, t, o, a) then l[a].(word := Ptr(l[a].word.tag, NewAddr(p, o))) else l[a]
      ensures Waiting(p, o, a) && a != o <==> a in t.rank && !On(l, t, o, a)
    {
      DownCellStep(p, i, a);
      assert Waiting(p, p.objs[i], a) ==> l[a] == p.start[a];
    }
    if o !in t.chains {
      assert forall a :: !On(l, t, o, a);
    }
  }

  ghost predicate MidThreads(p: SoundPlan, o: int, t: Threads) {
    forall a :: a in t.rank <==> Waiting(p, o, a) && a != o
  }

  /** All objects from object i up are processed. */
  ghost predicate DownState(p: SoundPlan, i: int, m: Memory, l: Memory, t: Threads)
    requires 0 <= i < |p.objs|
  {
    Threaded(m, l, t) && l == DownMem(p, p.objs[i]) && DownThreads(p, p.objs[i], t)
  }

  /** So is object i - 1, but for threading its own pointer. */
  ghost predicate MidState(p: SoundPlan, i: int, m: Memory, l: Memory, t: Threads)
    requires 0 < i < |p.objs|
  {
    && Threaded(m, l, t) && l == DownMem(p, p.objs[i - 1])
    && MidThreads(p, p.objs[i - 1], t)
    && p.objs[i - 1] !in t.chains
  }

  /** Stepping back from the last word of object i - 1 lands on its first word, although that
      word may be the head of a chain. */
  lemma StepBack(p: SoundPlan, i: int, m: Memory, l: Memory, t: Threads)
    requires 0 < i < |p.objs| && DownState(p, i, m, l, t) == true
    ensures 0 <= p.objs[i - 1] < p.objs[i] <= |m|
    ensures var c := m[p.objs[i] - 1];
            p.objs[i] - 1 - (if c.mark || c.first then 0 else OffsetCell(c.word)) == p.objs[i - 1]
    ensures m[p.objs[i - 1]].mark == Marked(p.start, p.objs[i - 1])
    ensures m[p.objs[i - 1]].first <==> p.objs[i - 1] in t.chains
  {
    var o, last := p.objs[i - 1], p.objs[i] - 1;
    ObjectInside(p, i - 1);
    assert ObjectAt(p.start, p.objs, i - 1);
    NotSeen(p, i, o);
    NotSeen(p, i, last);
    Reads(m, DownMem(p, p.objs[i]), t, o);
    Reads(m, DownMem(p, p.objs[i]), t, last);
    if last != o && last in t.chains {
      HeadIsObject(p, i, t, last);
      OnlyStart(p, i - 1, last);
    }
  }

  lemma NotSeen(p: SoundPlan, i: int, a: int)
    requires 0 < i < |p.objs| && p.objs[i - 1] <= a < p.objs[i]
    ensures 0 <= a < |p.start| && !Waiting(p, p.objs[i], a) && DownMem(p, p.objs[i])[a] == p.start[a]
  {
    ObjectInside(p, i - 1);
    Increasing(p.start, p.objs, 0, i - 1);
    Increasing(p.start, p.objs, i, |p.objs| - 1);
    assert a in p.roots ==> RootOk(p, a);
  }

  lemma HeadIsObject(p: SoundPlan, i: int, t: Threads, h: int)
    requires 0 < i < |p.objs| && h in t.chains
    requires Indexed(DownMem(p, p.objs[i]), t) && DownThreads(p, p.objs[i], t)
    ensures IsObject(p.objs, h)
  {
    var c := t.chains[h][0];
    assert c in t.rank;
    assert DownMem(p, p.objs[i])[c] == p.start[c];
  }

  lemma OnlyStart(p: SoundPlan, i: int, a: int)
    requires 0 <= i < |p.objs| - 1 && IsObject(p.objs, a) && p.objs[i] <= a < p.objs[i + 1]
    ensures a == p.objs[i]
  {
    TargetBelow(p, i + 1, a);
  }

  lemma DownStart(p: SoundPlan, m: Memory, t: Threads)
    requires Threaded(m, p.start, t) == true && t.rank.Keys == p.roots
    ensures DownState(p, |p.objs| - 1, m, p.start, t) == true
  {
    var last := p.objs[|p.objs| - 1];
    forall a | 0 <= a < |p.start| && Seen(p, last, a)
      ensures a in p.roots && p.start[a].word.addr < last
    {
      if a !in p.roots {
        ObjectInside(p, Index(p.objs, a));
        Increasing(p.start, p.objs, Index(p.objs, a), |p.objs| - 1);
      } else {
        assert RootOk(p, a);
        Increasing(p.start, p.objs, Index(p.objs, p.start[a].word.addr), |p.objs| - 1);
      }
    }
    assert forall r :: r in p.roots ==> RootOk(p, r) && Seen(p, last, r);
    assert DownMem(p, last) == p.start;
  }

  lemma DownEnd(p: SoundPlan, i: int, m: Memory, l: Memory, t: Threads)
    requires 0 <= i < |p.objs| && DownState(p, i, m, l, t) == true && p.objs[i] <= p.objs[0]
    ensures i == 0 && l == AfterDown(p) && Unthreaded(t) == true
  {
    LowestFirst(p, i);
    forall a | Waiting(p, p.objs[0], a)
      ensures false
    {
      assert a in p.roots ==> RootOk(p, a);
      Increasing(p.start, p.objs, 0, Index(p.objs, p.start[a].word.addr));
    }
    assert forall a :: a !in t.rank;
    NoneThreaded(l, t);
  }

  lemma MidWhenUnchained(p: SoundPlan, i: int, m: Memory, l: Memory, t: Threads)
    requires 0 < i < |p.objs| && DownState(p, i, m, l, t) == true && p.objs[i - 1] !in t.chains
    ensures MidState(p, i, m, l, t) == true
  {
    DownStep(p, i, t);
  }

  lemma MidWhenUnwound(p: SoundPlan, i: int, m: Memory, l: Memory, t: Threads, n: Memory, k: Memory, u: Threads, dest: nat)
    requires 0 < i < |p.objs| && DownState(p, i, m, l, t) == true && p.objs[i - 1] in t.chains
    requires IsObject(p.objs, p.objs[i - 1]) && dest == NewAddr(p, p.objs[i - 1])
    requires Threaded(n, k, u) == true && k == Redirect(l, t, p.objs[i - 1], dest) && u == Drop(l, t, p.objs[i - 1])
    ensures MidState(p, i, n, k, u) == true
  {
    DownStep(p, i, t);
  }

  lemma MidObject(p: SoundPlan, i: int, m: Memory, l: Memory, t: Threads)
    requires 0 < i < |p.objs| && MidState(p, i, m, l, t) == true
    ensures 0 <= p.objs[i - 1] < |m| && m[p.objs[i - 1]] == l[p.objs[i - 1]] == p.start[p.objs[i - 1]]
    ensures Marked(p.start, p.objs[i - 1]) ==>
              (IsDownwardRef(p.start[p.objs[i - 1]].word, p.objs[i - 1], p.lBase) <==> Down(p, p.objs[i - 1]))
    ensures !Marked(p.start, p.objs[i - 1]) ==> !Down(p, p.objs[i - 1])
  {
    var o := p.objs[i - 1];
    ObjectInside(p, i - 1);
    Increasing(p.start, p.objs, i - 1, |p.objs| - 1);
    Reads(m, l, t, o);
    assert p.start[o].mark && p.start[o].word.Ptr? ==> PtrCell(p, o);
  }

  lemma NextWhenPlain(p: SoundPlan, i: int, m: Memory, l: Memory, t: Threads)
    requires 0 < i < |p.objs| && MidState(p, i, m, l, t) == true && !Down(p, p.objs[i - 1])
    ensures DownState(p, i - 1, m, l, t) == true
  {
  }

  lemma MidThreadable(p: SoundPlan, i: int, m: Memory, l: Memory, t: Threads)
    requires 0 < i < |p.objs| && MidState(p, i, m, l, t) == true && Down(p, p.objs[i - 1])
    ensures 0 <= p.objs[i - 1] < |l| && l[p.objs[i - 1]].word.Ptr?
    ensures Threadable(l, t, l[p.objs[i - 1]].word.addr, p.objs[i - 1]) == true
  {
    var o := p.objs[i - 1];
    ObjectInside(p, i - 1);
    var h := p.start[o].word.addr;
    assert PtrCell(p, o);
    ObjectInside(p, Index(p.objs, h));
    assert DownCell(p, o, o) == p.start[o];
    assert !Seen(p, o, h);
  }

  lemma NextWhenThreaded(p: SoundPlan, i: int, m: Memory, l: Memory, t: Threads, n: Memory, u: Threads)
    requires 0 < i < |p.objs| && MidState(p, i, m, l, t) == true && Down(p, p.objs[i - 1])
    requires 0 <= p.objs[i - 1] < |l| && l[p.objs[i - 1]].word.Ptr?
    requires u == Push(t, l[p.objs[i - 1]].word.addr, p.objs[i - 1]) && Threaded(n, l, u) == true
    ensures DownState(p, i - 1, n, l, u) == true
  {
    ObjectInside(p, i - 1);
    assert PtrCell(p, p.objs[i - 1]);
  }

  lemma PlanEnds(p: SoundPlan)
    ensures |p.objs| >= 2 && p.objs[|p.objs| - 1] == p.objs[|p.objs| - 2] + 1
    ensures p.objs[0] == NewAt(p.start, p.objs, 0) && p.objs[0] <= p.objs[|p.objs| - 2]
  {
    assert ObjectAt(p.start, p.objs, |p.objs| - 2);
    Increasing(p.start, p.objs, 0, |p.objs| - 2);
  }

  lemma LowestFirst(p: SoundPlan, i: int)
    requires 0 <= i < |p.objs|
    ensures i > 0 ==> p.objs[0] < p.objs[i]
  {
    Increasing(p.start, p.objs, 0, i);
  }

  /** The number of cells from object i up that point down. */
  ghost function DownCount(p: SoundPlan, i: int): nat
    requires 0 <= i < |p.objs|
    decreases |p.objs| - i
  {
    if i == |p.objs| - 1 then 0 else DownCount(p, i + 1) + (if Down(p, p.objs[i]) then 1 else 0)
  }

  lemma DownCountStep(p: SoundPlan, i: int)
    requires 0 < i < |p.objs|
    ensures DownCount(p, |p.objs| - 1) == 0
    ensures DownCount(p, i - 1) == DownCount(p, i) + (if Down(p, p.objs[i - 1]) then 1 else 0)
  {
  }

  lemma DestStep(p: SoundPlan, i: int)
    requires 0 < i < |p.objs|
    ensures IsObject(p.objs, p.objs[i - 1]) && NewAddr(p, p.objs[i - 1]) == NewAt(p.start, p.objs, i - 1)
    ensures NewAt(p.start, p.objs, i - 1) ==
            NewAt(p.start, p.objs, i) - (if Marked(p.start, p.objs[i - 1]) then p.objs[i] - p.objs[i - 1] else 0)
    ensures p.objs[0] <= p.objs[i - 1]
  {
    ToAt(p.start, p.objs, i - 1);
    Increasing(p.start, p.objs, 0, i - 1);
  }

  lemma IsThreaded(ld: LocalData)
    requires ld.Consistent() == true
    ensures Threaded(ld.mem[..], ld.logical, ld.threads) == true
  {
  }

  /** `if ( is_first(current) ) update_relocation_chain(current, dest)` of the downward scan. */
  method UnwindDown(ld: LocalData, current: nat, dest: nat, ghost p: SoundPlan, ghost i: int)
    requires ld.Consistent() == true && 0 < i < |p.objs| && DownState(p, i, ld.mem[..], ld.logical, ld.threads) == true
    requires current == p.objs[i - 1] < ld.mem.Length && IsObject(p.objs, current) && dest == NewAddr(p, current)
    requires ld.mem[current].first <==> current in ld.threads.chains
    modifies ld`relocationChains, ld`relocatedCells, ld`threads, ld`logical, ld.mem
    ensures ld.Consistent() == true && MidState(p, i, ld.mem[..], ld.logical, ld.threads) == true
  {
    ghost var m, l, t := ld.mem[..], ld.logical, ld.threads;
    hide *;
    if ld.mem[current].first {
      UpdateRelocationChain(ld, current, dest);
      IsThreaded(ld);
      MidWhenUnwound(p, i, m, l, t, ld.mem[..], ld.logical, ld.threads, dest);
    } else {
      MidWhenUnchained(p, i, m, l, t);
    }
  }

  /** `if ( is_downward_ref(current) ) into_relocation_chain(current, STG_GLOBAL)` */
  method ThreadDown(ld: LocalData, current: nat, ghost p: SoundPlan, ghost i: int)
    requires ld.Consistent() == true && ld.lBase == p.lBase && 0 < i < |p.objs|
    requires MidState(p, i, ld.mem[..], ld.logical, ld.threads) == true && Marked(p.start, p.objs[i - 1])
    requires current == p.objs[i - 1] < ld.mem.Length
    modifies ld`relocationChains, ld`relocationCells, ld`threads, ld.mem
    ensures ld.Consistent() == true
    ensures DownState(p, i - 1, ld.mem[..], ld.logical, ld.threads) == true
    ensures ld.relocationCells == old(ld.relocationCells) + (if Down(p, p.objs[i - 1]) then 1 else 0)
  {
    hide *;
    ghost var m, t := ld.mem[..], ld.threads;
    MidObject(p, i, m, ld.logical, t);
    if IsDownwardRef(ld.mem[current].word, current, ld.lBase) {
      MidThreadable(p, i, m, ld.logical, t);
      IntoRelocationChain(ld, current);
      IsThreaded(ld);
      NextWhenThreaded(p, i, m, ld.logical, t, ld.mem[..], ld.threads);
    } else {
      NextWhenPlain(p, i, m, ld.logical, t);
    }
  }

  /** The scan of compact_global() from gTop to gBase: unwinds the chain of every object and
      threads the cells that point down. */
  method ScanDown(ld: LocalData, ghost p: SoundPlan) returns (dest: int)
    requires ld.Consistent() == true && ld.lBase == p.lBase
    requires ld.logical == p.start && ld.threads.rank.Keys == p.roots
    requires p.objs[0] == ld.gBase && p.objs[|p.objs| - 2] == ld.gTop
    requires ld.gBase + ld.totalMarked == NewAt(p.start, p.objs, |p.objs| - 1)
    modifies ld`relocationChains, ld`relocationCells, ld`relocatedCells, ld`threads, ld`logical, ld.mem
    ensures ld.Consistent() == true
    ensures ld.logical == AfterDown(p) && Unthreaded(ld.threads) == true
    ensures dest == ld.gBase
    ensures ld.relocationCells == old(ld.relocationCells) + DownCount(p, 0)
  {
    hide *;
    var mem := ld.mem;
    IsThreaded(ld);
    DownStart(p, mem[..], ld.threads);
    PlanEnds(p);
    ghost var i := |p.objs| - 1;
    DownCountStep(p, i);
    dest := ld.gBase + ld.totalMarked;
    var current: int := ld.gTop;
    while current >= ld.gBase
      invariant 0 <= i < |p.objs| && current == p.objs[i] - 1
      invariant ld.Consistent() == true && DownState(p, i, mem[..], ld.logical, ld.threads) == true
      invariant dest == NewAt(p.start, p.objs, i)
      invariant ld.relocationCells == old(ld.relocationCells) + DownCount(p, i)
      decreases i
    {
      DestStep(p, i);
      DownCountStep(p, i);
      StepBack(p, i, mem[..], ld.logical, ld.threads);
      var offset := if mem[current].mark || mem[current].first then 0 else OffsetCell(mem[current].word);
      current := current - offset;
      if mem[current].mark {
        dest := dest - (offset + 1);
        UnwindDown(ld, current, dest, p, i);
        ThreadDown(ld, current, p, i);
      } else {
        UnwindDown(ld, current, dest, p, i);
        MidObject(p, i, mem[..], ld.logical, ld.threads);
        NextWhenPlain(p, i, mem[..], ld.logical, ld.threads);
      }
      current := current - 1;
      i := i - 1;
    }
    DownEnd(p, i, mem[..], ld.logical, ld.threads);
  }

  // ---------- the upward scan

  /** The first word of a live object after the move, when the pointers to objects below b
      are relocated. */
  ghost function MovedCell(p: SoundPlan, b: int, a: int): Cell
    requires IsObject(p.objs, a) && Marked(p.start, a)
  {
    var w := p.start[a].word;
    if w.Ptr? && (assert PtrCell(p, a); w.addr < b) then Cell(Ptr(w.tag, NewAddr(p, w.addr)), false, false)
    else Cell(w, false, false)
  }

  /** Live object j is in its new place. */
  ghost predicate ObjectMoved(p: SoundPlan, b: int, l: Memory, j: int)
    requires 0 <= j < |p.objs| - 1 && |l| == |p.start|
  {
    ToAt(p.start, p.objs, j);
    Marked(p.start, p.objs[j]) ==>
      var d := NewAt(p.start, p.objs, j);
      var size := p.objs[j + 1] - p.objs[j];
      && 0 <= d < d + size <= |l| && p.objs[j + 1] <= |l|
      && l[d] == MovedCell(p, b, p.objs[j])
      && forall w :: d < w < d + size ==> l[w] == p.start[p.objs[j] + (w - d)]
  }

  /** The objects below object i are moved, what lies above is untouched, and the pointers to
      objects below b are relocated. */
  ghost predicate UpMem(p: SoundPlan, i: int, b: int, l: Memory)
    requires 0 <= i < |p.objs|
  {
    && |l| == |p.start|
    && (forall a :: 0 <= a < |l| && (p.objs[i] <= a || Outside(p, a)) ==> l[a] == AfterDown(p)[a])
    && (forall j {:trigger ObjectMoved(p, b, l, j)} :: 0 <= j < i && j < |p.objs| - 1 ==> ObjectMoved(p, b, l, j))
  }

  /** Cell a holds a pointer that was moved there and leads to an object from b up. */
  ghost predicate Pending(p: SoundPlan, i: int, b: int, a: int) {
    exists j :: PendingObject(p, i, b, a, j)
  }

  ghost predicate PendingObject(p: SoundPlan, i: int, b: int, a: int, j: int) {
    && 0 <= j < i && j < |p.objs| - 1
    && PtrCell(p, p.objs[j]) && b <= p.start[p.objs[j]].word.addr && NewAt(p.start, p.objs, j) == a
  }

  ghost predicate UpThreads(p: SoundPlan, i: int, b: int, t: Threads) {
    forall a :: a in t.rank <==> Pending(p, i, b, a)
  }

  ghost predicate UpState(p: SoundPlan, i: int, b: int, m: Memory, l: Memory, t: Threads)
    requires 0 <= i < |p.objs|
  {
    Threaded(m, l, t) && UpMem(p, i, b, l) && UpThreads(p, i, b, t)
  }

  lemma MovedInside(p: SoundPlan, j: int, i: int)
    requires 0 <= j < i < |p.objs|
    ensures IsObject(p.objs, p.objs[j]) && p.objs[j] < p.objs[i]
    ensures 0 <= p.objs[0] <= NewAt(p.start, p.objs, j) <= p.objs[j]
    ensures Marked(p.start, p.objs[j]) ==>
              NewAt(p.start, p.objs, j) + (p.objs[j + 1] - p.objs[j]) <= NewAt(p.start, p.objs, i) <= p.objs[i]
    ensures p.objs[j + 1] - p.objs[j] >= 1 && p.objs[i] <= |p.start|
  {
    ToAt(p.start, p.objs, j);
    NewAtBelow(p.start, p.objs, j);
    NewAtBelow(p.start, p.objs, i);
    NewAtMonotone(p.start, p.objs, j, i);
    Increasing(p.start, p.objs, j, i);
    assert ObjectAt(p.start, p.objs, 0) && ObjectAt(p.start, p.objs, j) && ObjectAt(p.start, p.objs, i - 1);
  }

  lemma UpStart(p: SoundPlan, m: Memory, t: Threads)
    requires Threaded(m, AfterDown(p), t) == true && Unthreaded(t) == true
    ensures UpState(p, 0, p.objs[0], m, AfterDown(p), t) == true
  {
    assert forall a :: a !in t.rank;
  }

  /** Unwinding the chain of object i, or finding that it has none. */
  lemma UpRedirected(p: SoundPlan, i: int, l: Memory, t: Threads, dest: nat)
    requires 0 <= i < |p.objs| - 1 && Indexed(l, t) == true
    requires UpMem(p, i, p.objs[i], l) == true && UpThreads(p, i, p.objs[i], t) == true
    requires dest == NewAt(p.start, p.objs, i)
    ensures UpMem(p, i, p.objs[i + 1], Redirect(l, t, p.objs[i], dest)) == true
  {
    var o, r := p.objs[i], Redirect(l, t, p.objs[i], dest);
    forall a | 0 <= a < |l| && (o <= a || Outside(p, a))
      ensures r[a] == l[a]
    {
      if Pending(p, i, o, a) {
        var j :| PendingObject(p, i, o, a, j);
        MovedInside(p, j, i);
        Increasing(p.start, p.objs, i, |p.objs| - 1);
      }
    }
    forall j {:trigger ObjectMoved(p, p.objs[i + 1], r, j)} | 0 <= j < i
      ensures ObjectMoved(p, p.objs[i + 1], r, j)
    {
      assert ObjectMoved(p, o, l, j);
      ObjectRedirected(p, i, l, t, dest, j);
    }
  }

  lemma ObjectRedirected(p: SoundPlan, i: int, l: Memory, t: Threads, dest: nat, j: int)
    requires 0 <= j < i < |p.objs| - 1 && Indexed(l, t) == true && |l| == |p.start|
    requires ObjectMoved(p, p.objs[i], l, j) == true && UpThreads(p, i, p.objs[i], t) == true
    requires dest == NewAt(p.start, p.objs, i)
    ensures ObjectMoved(p, p.objs[i + 1], Redirect(l, t, p.objs[i], dest), j) == true
  {
    var o, r := p.objs[i], Redirect(l, t, p.objs[i], dest);
    MovedInside(p, j, i);
    if Marked(p.start, p.objs[j]) {
      var d := NewAt(p.start, p.objs, j);
      forall w | d < w < d + (p.objs[j + 1] - p.objs[j])
        ensures r[w] == l[w]
      {
        if Pending(p, i, o, w) {
          var jj :| PendingObject(p, i, o, w, jj);
          MovedApart(p, i, j, jj, w);
        }
      }
      PendingAt(p, i, o, j);
      if PtrCell(p, p.objs[j]) {
        TargetBelow(p, i + 1, p.start[p.objs[j]].word.addr);
        ToAt(p.start, p.objs, i);
      }
    }
  }

  lemma {:induction false} PendingAt(p: SoundPlan, i: int, b: int, j: int)
    requires 0 <= j < i < |p.objs| && Marked(p.start, p.objs[j])
    ensures Pending(p, i, b, NewAt(p.start, p.objs, j)) <==>
            PtrCell(p, p.objs[j]) && b <= p.start[p.objs[j]].word.addr
  {
    var d := NewAt(p.start, p.objs, j);
    MovedInside(p, j, i);
    if Pending(p, i, b, d) {
      var k :| PendingObject(p, i, b, d, k);
      MovedApart(p, i, j, k, d);
    }
    if PtrCell(p, p.objs[j]) && b <= p.start[p.objs[j]].word.addr {
      assert PendingObject(p, i, b, d, j);
    }
  }

  /** Moved objects do not overlap. */
  lemma MovedApart(p: SoundPlan, i: int, j: int, jj: int, w: int)
    requires 0 <= j < i < |p.objs| && 0 <= jj < i && Marked(p.start, p.objs[j]) && Marked(p.start, p.objs[jj])
    requires NewAt(p.start, p.objs, j) <= w < NewAt(p.start, p.objs, j) + (p.objs[j + 1] - p.objs[j])
    requires NewAt(p.start, p.objs, jj) == w
    ensures j == jj
  {
    if j < jj {
      MovedInside(p, j, jj);
    } else if jj < j {
      MovedInside(p, jj, j);
    }
  }

  lemma UpDropped(p: SoundPlan, i: int, l: Memory, t: Threads)
    requires 0 <= i < |p.objs| - 1 && Indexed(l, t) == true
    requires UpMem(p, i, p.objs[i], l) == true && UpThreads(p, i, p.objs[i], t) == true
    ensures forall a :: (a in t.rank && !On(l, t, p.objs[i], a)) <==> Pending(p, i, p.objs[i + 1], a)
  {
    forall a
      ensures (a in t.rank && !On(l, t, p.objs[i], a)) <==> Pending(p, i, p.objs[i + 1], a)
    {
      PendingBelow(p, i, a);
      if Pending(p, i, p.objs[i], a) {
        var j :| PendingObject(p, i, p.objs[i], a, j);
        PendingLogical(p, i, p.objs[i], l, j);
        PendingAt(p, i, p.objs[i + 1], j);
        TargetBelow(p, i + 1, p.start[p.objs[j]].word.addr);
      }
    }
  }

  lemma PendingBelow(p: SoundPlan, i: int, a: int)
    requires 0 <= i < |p.objs| - 1
    ensures Pending(p, i, p.objs[i + 1], a) ==> Pending(p, i, p.objs[i], a)
  {
    ObjectInside(p, i);
    if Pending(p, i, p.objs[i + 1], a) {
      var j :| PendingObject(p, i, p.objs[i + 1], a, j);
      assert PendingObject(p, i, p.objs[i], a, j);
    }
  }

  lemma {:induction false} PendingLogical(p: SoundPlan, i: int, b: int, l: Memory, j: int)
    requires 0 <= j < i < |p.objs| - 1 && UpMem(p, i, b, l) == true
    requires PtrCell(p, p.objs[j]) && b <= p.start[p.objs[j]].word.addr
    ensures 0 <= NewAt(p.start, p.objs, j) < |l|
    ensures l[NewAt(p.start, p.objs, j)].word == p.start[p.objs[j]].word
  {
    assert ObjectMoved(p, b, l, j);
  }

  /** In the upward scan all heads are live objects from b up. */
  lemma HeadAbove(p: SoundPlan, i: int, b: int, l: Memory, t: Threads, h: int)
    requires 0 <= i < |p.objs| - 1 && Indexed(l, t) == true && h in t.chains
    requires UpMem(p, i, b, l) == true && UpThreads(p, i, b, t) == true
    ensures b <= h && Marked(p.start, h)
  {
    var c := t.chains[h][0];
    assert c in t.rank;
    var j :| PendingObject(p, i, b, c, j);
    PendingLogical(p, i, b, l, j);
  }

  lemma UpUnwound(p: SoundPlan, i: int, m: Memory, l: Memory, t: Threads, n: Memory, k: Memory, u: Threads, dest: nat)
    requires 0 <= i < |p.objs| - 1 && UpState(p, i, p.objs[i], m, l, t) == true && p.objs[i] in t.chains
    requires dest == NewAt(p.start, p.objs, i)
    requires Threaded(n, k, u) == true && k == Redirect(l, t, p.objs[i], dest) && u == Drop(l, t, p.objs[i])
    ensures UpState(p, i, p.objs[i + 1], n, k, u) == true && p.objs[i] !in u.chains
  {
    UpRedirected(p, i, l, t, dest);
    UpDropped(p, i, l, t);
  }

  lemma UpUnchained(p: SoundPlan, i: int, m: Memory, l: Memory, t: Threads, dest: nat)
    requires 0 <= i < |p.objs| - 1 && UpState(p, i, p.objs[i], m, l, t) == true && p.objs[i] !in t.chains
    requires dest == NewAt(p.start, p.objs, i)
    ensures UpState(p, i, p.objs[i + 1], m, l, t) == true
  {
    UpRedirected(p, i, l, t, dest);
    UpDropped(p, i, l, t);
    assert forall a :: !On(l, t, p.objs[i], a);
    assert Redirect(l, t, p.objs[i], dest) == l;
  }

  /** What the upward scan reads at object i. */
  lemma UpReads(p: SoundPlan, i: int, b: int, m: Memory, l: Memory, t: Threads)
    requires 0 <= i < |p.objs| - 1 && UpState(p, i, b, m, l, t) == true
    requires b == p.objs[i] || (b == p.objs[i + 1] && p.objs[i] !in t.chains)
    ensures 0 <= p.objs[i] < |m| && m[p.objs[i]].mark == Marked(p.start, p.objs[i])
    ensures m[p.objs[i]].first <==> p.objs[i] in t.chains
    ensures !Marked(p.start, p.objs[i]) ==> p.objs[i] !in t.chains
    ensures p.objs[i] !in t.chains ==> m[p.objs[i]] == l[p.objs[i]] == AfterDown(p)[p.objs[i]]
    ensures p.objs[i] !in t.rank && OffsetCell(AfterDown(p)[p.objs[i]].word) + 1 == p.objs[i + 1] - p.objs[i]
  {
    var o := p.objs[i];
    ObjectInside(p, i);
    if o in t.rank {
      var j :| PendingObject(p, i, b, o, j);
      MovedInside(p, j, i);
    }
    Reads(m, l, t, o);
    if o in t.chains {
      HeadAbove(p, i, b, l, t, o);
    }
  }

  lemma UpSkip(p: SoundPlan, i: int, m: Memory, l: Memory, t: Threads)
    requires 0 <= i < |p.objs| - 1 && UpState(p, i, p.objs[i + 1], m, l, t) == true && !Marked(p.start, p.objs[i])
    ensures UpState(p, i + 1, p.objs[i + 1], m, l, t) == true
  {
    ObjectInside(p, i);
    assert ObjectMoved(p, p.objs[i + 1], l, i);
    UpThreadsNext(p, i, t);
  }

  lemma PendingNext(p: SoundPlan, i: int, a: int)
    requires 0 <= i < |p.objs| - 1
    ensures Pending(p, i + 1, p.objs[i + 1], a) <==>
            Pending(p, i, p.objs[i + 1], a) || PendingObject(p, i + 1, p.objs[i + 1], a, i)
  {
    if Pending(p, i, p.objs[i + 1], a) {
      var j :| PendingObject(p, i, p.objs[i + 1], a, j);
      assert PendingObject(p, i + 1, p.objs[i + 1], a, j);
    }
    if Pending(p, i + 1, p.objs[i + 1], a) {
      var j :| PendingObject(p, i + 1, p.objs[i + 1], a, j);
      assert j < i ==> PendingObject(p, i, p.objs[i + 1], a, j);
    }
  }

  lemma {:induction false} UpThreadsNext(p: SoundPlan, i: int, t: Threads)
    requires 0 <= i < |p.objs| - 1 && UpThreads(p, i, p.objs[i + 1], t) == true
    requires !PendingObject(p, i + 1, p.objs[i + 1], NewAt(p.start, p.objs, i), i)
    ensures UpThreads(p, i + 1, p.objs[i + 1], t) == true
  {
    forall a
      ensures a in t.rank <==> Pending(p, i + 1, p.objs[i + 1], a)
    {
      PendingNext(p, i, a);
    }
  }

  /** Memory n is l with object i copied to d and the mark of its first word cleared. */
  ghost predicate Copied(p: SoundPlan, i: int, l: Memory, n: Memory)
    requires 0 <= i < |p.objs| - 1
  {
    var o, d, size := p.objs[i], NewAt(p.start, p.objs, i), p.objs[i + 1] - p.objs[i];
    && |n| == |l| == |p.start| && 0 <= d <= o < o + size <= |l|
    && n[d] == l[o].(mark := false)
    && (forall w :: d < w < d + size ==> n[w] == l[o + (w - d)])
    && (forall w :: 0 <= w < |l| && !(d <= w < d + size) ==> n[w] == l[w])
  }

  lemma UpCopied(p: SoundPlan, i: int, l: Memory, n: Memory)
    requires 0 <= i < |p.objs| - 1 && UpMem(p, i, p.objs[i + 1], l) == true && Marked(p.start, p.objs[i])
    requires Copied(p, i, l, n) == true
    ensures UpMem(p, i + 1, p.objs[i + 1], n) == true
  {
    var o := p.objs[i];
    MovedInside(p, i, i + 1);
    Increasing(p.start, p.objs, i + 1, |p.objs| - 1);
    forall j {:trigger ObjectMoved(p, p.objs[i + 1], n, j)} | 0 <= j < i + 1
      ensures ObjectMoved(p, p.objs[i + 1], n, j)
    {
      if j < i {
        assert ObjectMoved(p, p.objs[i + 1], l, j);
        MovedInside(p, j, i);
      } else {
        CopiedMoved(p, i, l, n);
      }
    }
  }

  lemma CopiedMoved(p: SoundPlan, i: int, l: Memory, n: Memory)
    requires 0 <= i < |p.objs| - 1 && UpMem(p, i, p.objs[i + 1], l) == true && Marked(p.start, p.objs[i])
    requires Copied(p, i, l, n) == true
    ensures ObjectMoved(p, p.objs[i + 1], n, i) == true
  {
    var o := p.objs[i];
    ObjectInside(p, i);
    Increasing(p.start, p.objs, 0, i);
    MovedInside(p, i, i + 1);
    if PtrCell(p, o) {
      TargetBelow(p, i + 1, p.start[o].word.addr);
      Increasing(p.start, p.objs, 0, Index(p.objs, p.start[o].word.addr));
    }
    forall w | o < w < p.objs[i + 1]
      ensures AfterDown(p)[w] == p.start[w]
    {
      NotSeenInside(p, i, w);
    }
  }

  lemma NotSeenInside(p: SoundPlan, i: int, w: int)
    requires 0 <= i < |p.objs| - 1 && p.objs[i] < w < p.objs[i + 1]
    ensures 0 <= w < |p.start| && !Seen(p, p.objs[0], w)
  {
    ObjectInside(p, i);
    Increasing(p.start, p.objs, 0, i);
    Increasing(p.start, p.objs, i + 1, |p.objs| - 1);
    assert w in p.roots ==> RootOk(p, w);
    if IsObject(p.objs, w) {
      OnlyStart(p, i, w);
    }
  }

  /** The object that was moved is threaded when it points up. */
  lemma UpPointer(p: SoundPlan, i: int)
    requires 0 <= i < |p.objs| - 1 && Marked(p.start, p.objs[i])
    ensures 0 <= p.objs[i] < |p.start|
    ensures var w := AfterDown(p)[p.objs[i]].word; p.objs[i + 1] == p.objs[i] + 1 ==>
              (IsUpwardRef(w, p.objs[i], p.lBase) <==>
               PendingObject(p, i + 1, p.objs[i + 1], NewAt(p.start, p.objs, i), i))
    ensures var w := AfterDown(p)[p.objs[i]].word; p.objs[i + 1] != p.objs[i] + 1 ==>
              !PendingObject(p, i + 1, p.objs[i + 1], NewAt(p.start, p.objs, i), i)
    ensures PendingObject(p, i + 1, p.objs[i + 1], NewAt(p.start, p.objs, i), i) ==>
              AfterDown(p)[p.objs[i]].word == p.start[p.objs[i]].word
  {
    var o := p.objs[i];
    ObjectInside(p, i);
    Increasing(p.start, p.objs, 0, i);
    if PtrCell(p, o) {
      var h := p.start[o].word.addr;
      TargetBelow(p, i + 1, h);
      ToAt(p.start, p.objs, Index(p.objs, h));
      NewAtBelow(p.start, p.objs, Index(p.objs, h));
    }
  }

  lemma {:induction false} UpPlain(p: SoundPlan, i: int, n: Memory, k: Memory, t: Threads)
    requires 0 <= i < |p.objs| - 1 && UpThreads(p, i, p.objs[i + 1], t) == true
    requires Threaded(n, k, t) == true && UpMem(p, i + 1, p.objs[i + 1], k) == true
    requires !PendingObject(p, i + 1, p.objs[i + 1], NewAt(p.start, p.objs, i), i)
    ensures UpState(p, i + 1, p.objs[i + 1], n, k, t) == true
  {
    UpThreadsNext(p, i, t);
  }

  lemma {:induction false} UpPushed(p: SoundPlan, i: int, n: Memory, k: Memory, t: Threads, u: Threads)
    requires 0 <= i < |p.objs| - 1 && UpThreads(p, i, p.objs[i + 1], t) == true
    requires Threaded(n, k, u) == true && UpMem(p, i + 1, p.objs[i + 1], k) == true
    requires PendingObject(p, i + 1, p.objs[i + 1], NewAt(p.start, p.objs, i), i)
    requires forall a :: a in u.rank <==> a in t.rank || a == NewAt(p.start, p.objs, i)
    ensures UpState(p, i + 1, p.objs[i + 1], n, k, u) == true
  {
    forall a
      ensures a in u.rank <==> Pending(p, i + 1, p.objs[i + 1], a)
    {
      PendingNext(p, i, a);
    }
  }

  /** The words object i is copied to are on no chain. */
  lemma DestFree(p: SoundPlan, i: int, m: Memory, l: Memory, t: Threads, w: int)
    requires 0 <= i < |p.objs| - 1 && UpState(p, i, p.objs[i + 1], m, l, t) == true && Marked(p.start, p.objs[i])
    requires NewAt(p.start, p.objs, i) <= w < p.objs[i + 1]
    ensures w !in t.rank && w !in t.chains && 0 <= w < |m| == |l| && m[w] == l[w]
  {
    MovedInside(p, i, i + 1);
    if w in t.rank {
      var j :| PendingObject(p, i, p.objs[i + 1], w, j);
      MovedInside(p, j, i);
    }
    if w in t.chains {
      HeadAbove(p, i, p.objs[i + 1], l, t, w);
    }
    Reads(m, l, t, w);
  }

  lemma UpThreadable(p: SoundPlan, i: int, m: Memory, l: Memory, t: Threads)
    requires 0 <= i < |p.objs| - 1 && UpState(p, i, p.objs[i + 1], m, l, t) == true && Marked(p.start, p.objs[i])
    requires PendingObject(p, i + 1, p.objs[i + 1], NewAt(p.start, p.objs, i), i)
    ensures 0 <= p.objs[i] < |l| && 0 <= NewAt(p.start, p.objs, i) < |l| && l[p.objs[i]].word == p.start[p.objs[i]].word
    ensures Threadable(l[NewAt(p.start, p.objs, i) := l[p.objs[i]]], t,
                       p.start[p.objs[i]].word.addr, NewAt(p.start, p.objs, i)) == true
  {
    var o, d, h := p.objs[i], NewAt(p.start, p.objs, i), p.start[p.objs[i]].word.addr;
    MovedInside(p, i, i + 1);
    UpPointer(p, i);
    ObjectInside(p, i);
    ObjectInside(p, Index(p.objs, h));
    DestFree(p, i, m, l, t, d);
    if h in t.rank {
      var j :| PendingObject(p, i, p.objs[i + 1], h, j);
      MovedInside(p, j, i);
    }
  }

  /** The first n words of object i are copied. */
  ghost predicate CopiedWords(p: SoundPlan, i: int, l: Memory, n: int, k: Memory)
    requires 0 <= i < |p.objs| - 1
  {
    var o, d := p.objs[i], NewAt(p.start, p.objs, i);
    && |k| == |l| && 0 <= d <= o && 0 <= n <= p.objs[i + 1] - o && p.objs[i + 1] <= |l|
    && forall w {:trigger k[w]} :: 0 <= w < |l| ==> k[w] == if d <= w < d + n then l[o + (w - d)] else l[w]
  }

  lemma CopyWord(p: SoundPlan, i: int, l: Memory, n: int, k: Memory)
    requires 0 <= i < |p.objs| - 1 && CopiedWords(p, i, l, n, k) == true && n < p.objs[i + 1] - p.objs[i]
    ensures 0 <= NewAt(p.start, p.objs, i) + n < |k| && 0 <= p.objs[i] + n < |k|
    ensures CopiedWords(p, i, l, n + 1, k[NewAt(p.start, p.objs, i) + n := k[p.objs[i] + n]]) == true
  {
    var o, d := p.objs[i], NewAt(p.start, p.objs, i);
    var u := k[d + n := k[o + n]];
    forall w | 0 <= w < |l|
      ensures u[w] == if d <= w < d + (n + 1) then l[o + (w - d)] else l[w]
    {
      assert w != d + n ==> u[w] == k[w];
    }
  }

  lemma CopyDone(p: SoundPlan, i: int, l: Memory, k: Memory)
    requires 0 <= i < |p.objs| - 1 && CopiedWords(p, i, l, p.objs[i + 1] - p.objs[i], k) == true
    requires p.objs[i] < p.objs[i + 1] && |l| == |p.start|
    ensures 0 <= NewAt(p.start, p.objs, i) < |k|
    ensures Copied(p, i, l, k[NewAt(p.start, p.objs, i) := k[NewAt(p.start, p.objs, i)].(mark := false)]) == true
  {
    var o, d := p.objs[i], NewAt(p.start, p.objs, i);
    var u := k[d := k[d].(mark := false)];
    forall w | 0 <= w < |l| && w != d
      ensures u[w] == if d < w < d + (p.objs[i + 1] - o) then l[o + (w - d)] else l[w]
    {
      assert u[w] == k[w];
    }
  }

  lemma MakeConsistent(ld: LocalData)
    requires Threaded(ld.mem[..], ld.logical, ld.threads) == true
    requires ld.relocationChains == |ld.threads.chains|
    requires ld.relocationCells - ld.relocatedCells == |ld.threads.rank|
    ensures ld.Consistent() == true
  {
  }

  lemma Counters(ld: LocalData)
    requires ld.Consistent() == true
    ensures ld.relocationChains == |ld.threads.chains|
    ensures ld.relocationCells - ld.relocatedCells == |ld.threads.rank|
  {
  }

  /** `*dest = *current` for a cell that is on no chain. */
  method CopyCell(ld: LocalData, current: nat, dest: nat)
    requires ld.Consistent() == true && current < ld.mem.Length && dest < ld.mem.Length
    requires current !in ld.threads.chains && current !in ld.threads.rank
    requires dest !in ld.threads.chains && dest !in ld.threads.rank
    modifies ld`logical, ld.mem
    ensures ld.Consistent() == true && |old(ld.logical)| == ld.mem.Length
    ensures ld.logical == old(ld.logical)[dest := old(ld.logical)[current]]
    ensures ld.mem[current] == old(ld.mem[current])
  {
    IsThreaded(ld);
    Counters(ld);
    Reads(ld.mem[..], ld.logical, ld.threads, current);
    Write(ld.mem[..], ld.logical, ld.threads, dest, ld.mem[current]);
    ghost var m := ld.mem[..];
    hide *;
    ld.mem[dest] := ld.mem[current];
    assert ld.mem[..] == m[dest := m[current]];
    ld.logical := ld.logical[dest := ld.logical[current]];
    MakeConsistent(ld);
  }

  /** unmark(p) */
  method ClearMark(ld: LocalData, a: nat)
    requires ld.Consistent() == true && a < ld.mem.Length
    modifies ld`logical, ld.mem
    ensures ld.Consistent() == true && |old(ld.logical)| == ld.mem.Length
    ensures ld.logical == old(ld.logical)[a := old(ld.logical)[a].(mark := false)]
  {
    IsThreaded(ld);
    Counters(ld);
    Unmark(ld.mem[..], ld.logical, ld.threads, a);
    ghost var m := ld.mem[..];
    assert |m| == |ld.logical|;
    hide *;
    ld.mem[a] := ld.mem[a].(mark := false);
    assert ld.mem[..] == m[a := m[a].(mark := false)];
    ld.logical := ld.logical[a := ld.logical[a].(mark := false)];
    MakeConsistent(ld);
  }

  /** `if ( is_first(current) ) update_relocation_chain(current, dest)` of the upward scan. */
  method UnwindUp(ld: LocalData, current: nat, dest: nat, ghost p: SoundPlan, ghost i: int)
    requires ld.Consistent() == true && 0 <= i < |p.objs| - 1
    requires UpState(p, i, p.objs[i], ld.mem[..], ld.logical, ld.threads) == true
    requires current == p.objs[i] < ld.mem.Length && dest == NewAt(p.start, p.objs, i)
    requires ld.mem[current].first <==> current in ld.threads.chains
    modifies ld`relocationChains, ld`relocatedCells, ld`threads, ld`logical, ld.mem
    ensures ld.Consistent() == true && current !in ld.threads.chains
    ensures UpState(p, i, p.objs[i + 1], ld.mem[..], ld.logical, ld.threads) == true
  {
    ghost var m, l, t := ld.mem[..], ld.logical, ld.threads;
    hide *;
    if ld.mem[current].first {
      UpdateRelocationChain(ld, current, dest);
      IsThreaded(ld);
      UpUnwound(p, i, m, l, t, ld.mem[..], ld.logical, ld.threads, dest);
    } else {
      UpUnchained(p, i, m, l, t, dest);
    }
  }

  /** The upward scan of a cell that is not an indirect. */
  method MoveCell(ld: LocalData, current: nat, dest: nat, ghost p: SoundPlan, ghost i: int)
    requires ld.Consistent() == true && ld.lBase == p.lBase && 0 <= i < |p.objs| - 1
    requires UpState(p, i, p.objs[i + 1], ld.mem[..], ld.logical, ld.threads) == true && Marked(p.start, p.objs[i])
    requires current == p.objs[i] < ld.mem.Length && dest == NewAt(p.start, p.objs, i) && current !in ld.threads.chains
    requires p.objs[i + 1] == p.objs[i] + 1
    modifies ld`relocationChains, ld`relocationCells, ld`threads, ld`logical, ld.mem
    ensures ld.Consistent() == true
    ensures ld.relocationCells == old(ld.relocationCells) + (if Up(p, p.objs[i]) then 1 else 0)
    ensures UpState(p, i + 1, p.objs[i + 1], ld.mem[..], ld.logical, ld.threads) == true
  {
    ghost var m, l, t := ld.mem[..], ld.logical, ld.threads;
    MovedInside(p, i, i + 1);
    UpReads(p, i, p.objs[i + 1], m, l, t);
    DestFree(p, i, m, l, t, dest);
    UpPointer(p, i);
    UpCellCopied(p, i, l);
    UpIsPending(p, i);
    StateThreads(p, i, m, l, t);
    hide *;
    CopyCell(ld, current, dest);
    if IsUpwardRef(ld.mem[current].word, current, ld.lBase) {
      UpThreadable(p, i, m, l, t);
      IntoRelocationChain(ld, dest);
      PushRank(t, p.start[p.objs[i]].word.addr, dest);
      ClearMark(ld, dest);
      IsThreaded(ld);
      UpPushed(p, i, ld.mem[..], ld.logical, t, ld.threads);
    } else {
      ClearMark(ld, dest);
      IsThreaded(ld);
      UpPlain(p, i, ld.mem[..], ld.logical, t);
    }
  }

  /** A live cell that points up. */
  ghost predicate Up(p: SoundPlan, a: int) {
    PtrCell(p, a) && a < p.start[a].word.addr
  }

  lemma UpIsPending(p: SoundPlan, i: int)
    requires 0 <= i < |p.objs| - 1
    ensures Up(p, p.objs[i]) <==> PendingObject(p, i + 1, p.objs[i + 1], NewAt(p.start, p.objs, i), i)
  {
    ObjectInside(p, i);
    if PtrCell(p, p.objs[i]) {
      TargetBelow(p, i + 1, p.start[p.objs[i]].word.addr);
    }
  }

  /** The number of live cells below object i that point up. */
  ghost function UpCount(p: SoundPlan, i: int): nat
    requires 0 <= i < |p.objs|
  {
    if i == 0 then 0 else UpCount(p, i - 1) + (if Up(p, p.objs[i - 1]) then 1 else 0)
  }

  lemma UpCountStep(p: SoundPlan, i: int)
    requires 0 <= i < |p.objs| - 1
    ensures UpCount(p, 0) == 0
    ensures UpCount(p, i + 1) == UpCount(p, i) + (if Up(p, p.objs[i]) then 1 else 0)
    ensures !Marked(p.start, p.objs[i]) ==> !Up(p, p.objs[i])
  {
  }

  lemma StateThreads(p: SoundPlan, i: int, m: Memory, l: Memory, t: Threads)
    requires 0 <= i < |p.objs| - 1 && UpState(p, i, p.objs[i + 1], m, l, t) == true
    ensures UpThreads(p, i, p.objs[i + 1], t) == true
  {
  }

  lemma PushRank(t: Threads, h: nat, c: nat)
    ensures forall a :: a in Push(t, h, c).rank <==> a in t.rank || a == c
  {
  }

  lemma UpCellCopied(p: SoundPlan, i: int, l: Memory)
    requires 0 <= i < |p.objs| - 1 && UpMem(p, i, p.objs[i + 1], l) == true && Marked(p.start, p.objs[i])
    requires p.objs[i + 1] == p.objs[i] + 1
    ensures 0 <= NewAt(p.start, p.objs, i) <= p.objs[i] < |l|
    ensures var n := l[NewAt(p.start, p.objs, i) := l[p.objs[i]]];
            UpMem(p, i + 1, p.objs[i + 1],
                  n[NewAt(p.start, p.objs, i) := n[NewAt(p.start, p.objs, i)].(mark := false)]) == true
  {
    var d := NewAt(p.start, p.objs, i);
    MovedInside(p, i, i + 1);
    var n := l[d := l[p.objs[i]]];
    UpCopied(p, i, l, n[d := n[d].(mark := false)]);
  }

  /** The upward scan of an indirect: copies its words from below. */
  method MoveIndirect(ld: LocalData, current: nat, dest: nat, size: nat, ghost p: SoundPlan, ghost i: int)
    requires ld.Consistent() == true && 0 <= i < |p.objs| - 1
    requires UpState(p, i, p.objs[i + 1], ld.mem[..], ld.logical, ld.threads) == true && Marked(p.start, p.objs[i])
    requires current == p.objs[i] && dest == NewAt(p.start, p.objs, i)
    requires size == p.objs[i + 1] - p.objs[i] > 1
    modifies ld`logical, ld.mem
    ensures ld.Consistent() == true && !Up(p, p.objs[i])
    ensures UpState(p, i + 1, p.objs[i + 1], ld.mem[..], ld.logical, ld.threads) == true
  {
    ghost var m, l, t := ld.mem[..], ld.logical, ld.threads;
    MovedInside(p, i, i + 1);
    UpPointer(p, i);
    UpIsPending(p, i);
    StateThreads(p, i, m, l, t);
    StateMem(p, i, m, l, t);
    CopyNone(p, i, l);
    hide *;
    var n := 0;
    while n < size
      invariant n <= size && ld.Consistent() == true
      invariant CopiedWords(p, i, l, n, ld.logical) == true
    {
      DestFree(p, i, m, l, t, dest + n);
      DestFree(p, i, m, l, t, current + n);
      Length(ld, l);
      CopyWord(p, i, l, n, ld.logical);
      CopyCell(ld, current + n, dest + n);
      n := n + 1;
    }
    CopyDone(p, i, l, ld.logical);
    Length(ld, l);
    ClearMark(ld, dest);
    UpCopied(p, i, l, ld.logical);
    IsThreaded(ld);
    UpPlain(p, i, ld.mem[..], ld.logical, t);
  }

  lemma Length(ld: LocalData, l: Memory)
    requires ld.Consistent() == true
    ensures ld.mem.Length == |ld.logical|
  {
  }

  lemma StateMem(p: SoundPlan, i: int, m: Memory, l: Memory, t: Threads)
    requires 0 <= i < |p.objs| - 1 && UpState(p, i, p.objs[i + 1], m, l, t) == true
    ensures UpMem(p, i, p.objs[i + 1], l) == true && |l| == |p.start|
  {
  }

  lemma CopyNone(p: SoundPlan, i: int, l: Memory)
    requires 0 <= i < |p.objs| - 1 && UpMem(p, i, p.objs[i + 1], l) == true
    ensures CopiedWords(p, i, l, 0, l) == true
  {
    MovedInside(p, i, i + 1);
    NewAtBelow(p.start, p.objs, i);
    ToAt(p.start, p.objs, i);
  }

  lemma UpStep(p: SoundPlan, i: int)
    requires 0 <= i < |p.objs| - 1
    ensures NewAt(p.start, p.objs, i + 1) ==
            NewAt(p.start, p.objs, i) + (if Marked(p.start, p.objs[i]) then p.objs[i + 1] - p.objs[i] else 0)
    ensures 0 <= p.objs[0] <= NewAt(p.start, p.objs, i) <= p.objs[i] < p.objs[i + 1]
  {
    MovedInside(p, i, i + 1);
  }

  /** The scan of compact_global() from gBase to gTop: unwinds the chain of every live object,
      moves it and threads the cells that point up. */
  method ScanUp(ld: LocalData, ghost p: SoundPlan) returns (dest: nat)
    requires ld.Consistent() == true && ld.lBase == p.lBase
    requires ld.logical == AfterDown(p) && Unthreaded(ld.threads) == true
    requires p.objs[0] == ld.gBase && p.objs[|p.objs| - 2] == ld.gTop
    modifies ld`relocationChains, ld`relocationCells, ld`relocatedCells, ld`threads, ld`logical, ld.mem
    ensures ld.Consistent() == true && Unthreaded(ld.threads) == true
    ensures dest == NewAt(p.start, p.objs, |p.objs| - 1)
    ensures ld.relocationCells == old(ld.relocationCells) + UpCount(p, |p.objs| - 2)
    ensures UpMem(p, |p.objs| - 2, ld.gTop, ld.logical) == true
  {
    hide *;
    ghost var i := 0;
    var mem := ld.mem;
    IsThreaded(ld);
    UpStart(p, mem[..], ld.threads);
    PlanEnds(p);
    UpCountStep(p, 0);
    dest := ld.gBase;
    var current := ld.gBase;
    while current < ld.gTop
      invariant 0 <= i < |p.objs| - 1 && current == p.objs[i] && current <= ld.gTop
      invariant ld.Consistent() == true
      invariant UpState(p, i, p.objs[i], mem[..], ld.logical, ld.threads) == true
      invariant dest == NewAt(p.start, p.objs, i)
      invariant ld.relocationCells == old(ld.relocationCells) + UpCount(p, i)
      decreases |p.objs| - i
    {
      UpStep(p, i);
      UpCountStep(p, i);
      UpReads(p, i, p.objs[i], mem[..], ld.logical, ld.threads);
      BelowTop(p, i);
      if mem[current].mark {
        UnwindUp(ld, current, dest, p, i);
        UpReads(p, i, p.objs[i + 1], mem[..], ld.logical, ld.threads);
        var offset := OffsetCell(mem[current].word);
        if offset == 0 {
          MoveCell(ld, current, dest, p, i);
          dest := dest + 1;
          current := current + 1;
        } else {
          MoveIndirect(ld, current, dest, offset + 1, p, i);
          dest := dest + (offset + 1);
          current := current + (offset + 1);
        }
      } else {
        UpUnchained(p, i, mem[..], ld.logical, ld.threads, dest);
        UpSkip(p, i, mem[..], ld.logical, ld.threads);
        current := current + OffsetCell(mem[current].word) + 1;
      }
      i := i + 1;
    }
    UpEnd(p, i, mem[..], ld.logical, ld.threads);
  }

  lemma BelowTop(p: SoundPlan, i: int)
    requires 0 <= i < |p.objs| - 1 && p.objs[i] < p.objs[|p.objs| - 2]
    ensures i + 1 < |p.objs| - 1 && p.objs[i + 1] <= p.objs[|p.objs| - 2]
  {
    Increasing(p.start, p.objs, i + 1, |p.objs| - 2);
  }

  lemma {:induction false} UpEnd(p: SoundPlan, i: int, m: Memory, l: Memory, t: Threads)
    requires 0 <= i < |p.objs| - 1 && UpState(p, i, p.objs[i], m, l, t) == true && p.objs[|p.objs| - 2] <= p.objs[i]
    ensures i == |p.objs| - 2 && Unthreaded(t) == true
    ensures UpMem(p, i, p.objs[i], l) == true
    ensures NewAt(p.start, p.objs, i) == NewAt(p.start, p.objs, |p.objs| - 1)
  {
    Increasing(p.start, p.objs, i, |p.objs| - 2);
    assert ObjectAt(p.start, p.objs, i);
    forall a
      ensures !Pending(p, i, p.objs[i], a)
    {
      NonePending(p, a);
    }
    assert forall a :: a !in t.rank;
    NoneThreaded(l, t);
  }

  lemma NonePending(p: SoundPlan, a: int)
    ensures !Pending(p, |p.objs| - 2, p.objs[|p.objs| - 2], a)
  {
    var i := |p.objs| - 2;
    assert ObjectAt(p.start, p.objs, i);
    if Pending(p, i, p.objs[i], a) {
      var j :| PendingObject(p, i, p.objs[i], a, j);
      Increasing(p.start, p.objs, Index(p.objs, p.start[p.objs[j]].word.addr), i);
    }
  }

  // ---------- the whole phase

  ghost function Relocate(p: SoundPlan, w: Word): Word
    requires w.Ptr? ==> IsObject(p.objs, w.addr)
  {
    if w.Ptr? then Ptr(w.tag, NewAddr(p, w.addr)) else w
  }

  /** Live object i stands, with its pointers relocated, at its new address. */
  ghost predicate ObjectCompacted(p: SoundPlan, m: Memory, i: int)
    requires 0 <= i < |p.objs| - 1
  {
    ObjectInside(p, i);
    var o, d, size := p.objs[i], NewAt(p.start, p.objs, i), p.objs[i + 1] - p.objs[i];
    Marked(p.start, o) ==>
      && (p.start[o].word.Ptr? ==> IsObject(p.objs, p.start[o].word.addr))
      && 0 <= d < d + size <= |m| && o + size <= |p.start|
      && m[d] == Cell(Relocate(p, p.start[o].word), false, false)
      && forall w {:trigger m[w]} :: d < w < d + size ==> m[w] == p.start[o + (w - d)]
  }

  /** All live objects are moved to the bottom of the global stack, every pointer to an object
      leads to where the object went, and nothing else outside the global stack changed. */
  ghost predicate Compacted(p: SoundPlan, m: Memory) {
    && |m| == |p.start|
    && (forall i {:trigger ObjectCompacted(p, m, i)} :: 0 <= i < |p.objs| - 1 ==> ObjectCompacted(p, m, i))
    && (forall r {:trigger r in p.roots} :: r in p.roots ==>
          RootOk(p, r) && m[r] == p.start[r].(word := Relocate(p, p.start[r].word)))
    && (forall a {:trigger m[a]} :: 0 <= a < |m| && Outside(p, a) && a !in p.roots ==> m[a] == p.start[a])
  }

  lemma FinallyCompacted(p: SoundPlan, l: Memory)
    requires |p.objs| >= 2 && UpMem(p, |p.objs| - 2, p.objs[|p.objs| - 2], l) == true
    ensures Compacted(p, l) == true
  {
    var n := |p.objs| - 2;
    forall i {:trigger ObjectCompacted(p, l, i)} | 0 <= i < n + 1
      ensures ObjectCompacted(p, l, i)
    {
      ObjectInside(p, i);
      if i < n {
        assert ObjectMoved(p, p.objs[n], l, i);
        if PtrCell(p, p.objs[i]) {
          TopBounds(p, p.start[p.objs[i]].word.addr);
        }
      }
    }
    forall r | r in p.roots
      ensures RootOk(p, r) && l[r] == p.start[r].(word := Relocate(p, p.start[r].word))
    {
      assert RootOk(p, r);
      TopBounds(p, p.start[r].word.addr);
    }
    forall a | 0 <= a < |l| && Outside(p, a) && a !in p.roots
      ensures l[a] == p.start[a]
    {
      if IsObject(p.objs, a) {
        OutsideNoObject(p, a);
      }
    }
  }

  lemma TopBounds(p: SoundPlan, a: int)
    requires IsObject(p.objs, a)
    ensures p.objs[0] <= a <= p.objs[|p.objs| - 2]
    ensures Marked(p.start, a) ==> a < p.objs[|p.objs| - 2]
  {
    var k := Index(p.objs, a);
    Increasing(p.start, p.objs, 0, k);
    Increasing(p.start, p.objs, k, |p.objs| - 2);
    assert ObjectAt(p.start, p.objs, |p.objs| - 2);
  }

  lemma OutsideNoObject(p: SoundPlan, a: int)
    requires IsObject(p.objs, a)
    ensures !Outside(p, a)
  {
    var k := Index(p.objs, a);
    Increasing(p.start, p.objs, 0, k);
    Increasing(p.start, p.objs, k, |p.objs| - 1);
  }

  /** The number of cells of the global stack that hold a live pointer. */
  ghost function PtrCount(p: SoundPlan, i: int): nat
    requires 0 <= i < |p.objs|
  {
    if i == 0 then 0 else PtrCount(p, i - 1) + (if PtrCell(p, p.objs[i - 1]) then 1 else 0)
  }

  lemma {:induction false} CountsAgree(p: SoundPlan, i: int)
    requires 0 <= i < |p.objs|
    ensures UpCount(p, i) + DownCount(p, 0) - DownCount(p, i) == PtrCount(p, i)
  {
    if i > 0 {
      CountsAgree(p, i - 1);
      ObjectInside(p, i - 1);
    }
  }

  lemma {:induction false} AllCounted(p: SoundPlan)
    requires |p.objs| >= 2
    ensures DownCount(p, 0) + UpCount(p, |p.objs| - 2) == PtrCount(p, |p.objs| - 1)
  {
    CountsAgree(p, |p.objs| - 1);
    assert ObjectAt(p.start, p.objs, |p.objs| - 2);
  }

  lemma PlainMemory(ld: LocalData)
    requires ld.Consistent() == true && Unthreaded(ld.threads) == true
    ensures ld.mem[..] == ld.logical
    ensures ld.relocationChains == 0 && ld.relocationCells == ld.relocatedCells
  {
    var m, l, t := ld.mem[..], ld.logical, ld.threads;
    forall a | 0 <= a < |m|
      ensures m[a] == l[a]
    {
      Reads(m, l, t, a);
    }
  }

  lemma NoChainsLeft(ld: LocalData)
    requires ld.Consistent() == true && Unthreaded(ld.threads) == true
    ensures ld.relocationCells == ld.relocatedCells
  {
  }

  /** pl-gc.c, compact_global(), with the collector's own consistency checks as assertions. */
  method CompactGlobal(ld: LocalData, ghost p: SoundPlan)
    requires ld.Consistent() == true && ld.lBase == p.lBase
    requires ld.logical == p.start && ld.threads.rank.Keys == p.roots
    requires |p.objs| >= 2 && p.objs[0] == ld.gBase && p.objs[|p.objs| - 2] == ld.gTop
    requires ld.gBase + ld.totalMarked == NewAt(p.start, p.objs, |p.objs| - 1)
    modifies ld`relocationChains, ld`relocationCells, ld`relocatedCells, ld`threads, ld`logical, ld`gTop, ld.mem
    ensures ld.Consistent() == true && Unthreaded(ld.threads) == true
    ensures Compacted(p, ld.mem[..]) == true
    ensures ld.gTop == ld.gBase + ld.totalMarked
    ensures ld.relocationCells == old(ld.relocationCells) + PtrCount(p, |p.objs| - 1)
    ensures ld.relocationChains == 0 && ld.relocatedCells == ld.relocationCells
  {
    hide *;
    AllCounted(p);
    var down := ScanDown(ld, p);
    assert down == ld.gBase;
    NoChainsLeft(ld);
    assert ld.relocationCells == ld.relocatedCells;
    var dest := ScanUp(ld, p);
    assert dest == ld.gBase + ld.totalMarked;
    FinallyCompacted(p, ld.logical);
    PlainMemory(ld);
    IsThreaded(ld);
    Counters(ld);
    ld.gTop := dest;
    MakeConsistent(ld);
  }
}
