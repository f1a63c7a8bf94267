/** The mark phase (pl-gc.c, mark_variable()): a traversal that keeps its stack in the cells
    it passes by reversing their pointers. */
module Marking {
  import opened Words
  import opened GlobalStack
  import opened Terms
  import opened Relocation

  /** The state of the traversal.  `path` lists the cells between start and the current cell,
      each leading to the next, and `place` maps each to its place; `at` maps every functor
      whose arguments are being visited to the number of the argument that is, and `user` to
      the place of the cell that led to it. */
  datatype Walk = Walk(path: seq<int>, place: map<int, int>, at: map<int, int>, user: map<int, int>)

  ghost function Last(w: Walk): int
    requires |w.path| > 0
  {
    w.path[|w.path| - 1]
  }

  /** The cell to which the cell at place i leads. */
  ghost function Next(w: Walk, current: int, i: int): int
    requires 0 <= i < |w.path|
  {
    if i + 1 < |w.path| then w.path[i + 1] else current
  }

  ghost predicate Cellular(h: Heap, s: int, x: int) {
    0 <= x < |h.mem| && (x == s || (IsObject(h.objs, x) && IsValue(h.mem[x].word)))
  }

  /** An argument cell of a term being visited whose turn is still to come, or has come. */
  ghost predicate Waiting(h: Heap, w: Walk, x: int) {
    x in h.owner && h.owner[x] in w.at && x <= h.owner[x] + w.at[h.owner[x]]
  }

  /** Such cells carry FIRST, but for the first argument. */
  ghost predicate Flagged(h: Heap, w: Walk, x: int) {
    Waiting(h, w, x) && h.owner[x] + 2 <= x
  }

  ghost predicate LinkOk(h: Heap, w: Walk, current: int, i: int)
    requires 0 <= i < |w.path|
  {
    var a, x := w.path[i], Next(w, current, i);
    && 0 <= a < |h.mem| && h.mem[a].word.Ptr?
    && match h.mem[a].word.tag
       case Reference =>
         && x == h.mem[a].word.addr
         && (Flagged(h, w, x) ==> h.owner[x] in w.user && w.user[h.owner[x]] > i)
       case Compound =>
         var f := h.mem[a].word.addr;
         f in w.at && f in w.user && w.user[f] == i && x == f + w.at[f]
       case _ => false
  }

  ghost predicate ActiveOk(h: Heap, w: Walk, f: int)
    requires f in w.at
  {
    && f in w.user && 0 <= w.user[f] < |w.path|
    && FunctorAt(h, f) && 1 <= w.at[f] <= h.mem[f].word.arity
    && var a := w.path[w.user[f]]; 0 <= a < |h.mem| && h.mem[a].word == Ptr(Compound, f)
  }

  ghost predicate PathOk(h: Heap, s: int, w: Walk, current: int) {
    && Cellular(h, s, current)
    && (|w.path| == 0 <==> current == s)
    && (|w.path| > 0 ==> w.path[0] == s)
    && (forall x {:trigger x in w.place} :: x in w.place ==>
          0 <= w.place[x] < |w.path| && w.path[w.place[x]] == x && Cellular(h, s, x))
    && (forall i {:trigger LinkOk(h, w, current, i)} :: 0 <= i < |w.path| ==>
          w.path[i] in w.place && w.place[w.path[i]] == i && LinkOk(h, w, current, i))
    && (forall f {:trigger f in w.at} :: f in w.at ==> ActiveOk(h, w, f))
  }

  /** The reversed pointer to cell a. */
  function Back(h: Heap, a: int): Word {
    if 0 <= a < |h.mem| && h.mem[a].word.Ptr? then Ptr(h.mem[a].word.tag, a) else Var
  }

  /** What a cell holds, but for the current cell. */
  ghost function Base(h: Heap, w: Walk, x: int): Word
    requires 0 <= x < |h.mem|
  {
    if x in w.place && 0 < w.place[x] <= |w.path| then Back(h, w.path[w.place[x] - 1]) else h.mem[x].word
  }

  ghost function Expected(h: Heap, w: Walk, current: int, x: int): Word
    requires 0 <= x < |h.mem|
  {
    if x == current && |w.path| > 0 then Back(h, Last(w)) else Base(h, w, x)
  }

  ghost predicate WordsOk(h: Heap, w: Walk, m: Memory, current: int, val: Word)
    requires |m| == |h.mem|
  {
    && (forall x {:trigger m[x]} :: 0 <= x < |m| ==> m[x].word == Expected(h, w, current, x))
    && 0 <= current < |m| && val == Base(h, w, current)
  }

  ghost predicate FirstOk(h: Heap, s: int, w: Walk, m: Memory)
    requires |m| == |h.mem|
  {
    forall x {:trigger m[x]} :: 0 <= x < |m| ==> m[x].first == (x == s || Flagged(h, w, x) || h.mem[x].first)
  }

  ghost predicate Fresh(h: Heap, m: Memory, x: int)
    requires |m| == |h.mem|
  {
    0 <= x < |m| && m[x].mark && !h.mem[x].mark
  }

  ghost predicate MarksOk(h: Heap, s: int, w: Walk, m: Memory, current: int)
    requires |m| == |h.mem|
  {
    && (forall x {:trigger m[x]} :: 0 <= x < |m| && h.mem[x].mark ==> m[x].mark)
    && (forall x {:trigger x in w.place} :: x in w.place ==> Fresh(h, m, x))
    && (forall f {:trigger f in w.at} :: f in w.at ==> Fresh(h, m, f))
    && (forall x {:trigger Fresh(h, m, x)} :: Fresh(h, m, x) ==> Reach(h, s, x))
    && (forall x, y {:trigger Fresh(h, m, x), Edge(h, x, y)} :: Fresh(h, m, x) && Edge(h, x, y) ==>
          Marked(m, y) || y == current || Waiting(h, w, y))
    && Reach(h, s, current)
  }

  ghost predicate Walking(h: Heap, s: int, w: Walk, m: Memory, current: int, val: Word) {
    && |m| == |h.mem|
    && PathOk(h, s, w, current) && WordsOk(h, w, m, current, val)
    && FirstOk(h, s, w, m) && MarksOk(h, s, w, m, current)
  }

  /** Where mark_variable() may start: at a cell that is no argument of a term. */
  ghost predicate Startable(h: Heap, s: int)
    requires |h.objs| >= 2
  {
    && 0 <= s < |h.mem| && !h.mem[s].mark && !h.mem[s].first && s !in h.owner
    && IsValue(h.mem[s].word) && PointsRight(h, h.mem[s].word)
    && !(h.mem[s].word.Ptr? && h.mem[s].word.addr == s)
  }

  const NoWalk := Walk([], map[], map[], map[])

  lemma WalkStart(h: SoundHeap, s: int)
    requires Startable(h, s)
    ensures Walking(h, s, NoWalk, h.mem[s := h.mem[s].(first := true)], s, h.mem[s].word) == true
  {
    ReachSelf(h, s);
  }

  // ---------- going forward: the current cell is marked

  /** Marking a cell that has no edges, or whose edges all lead to marked or waiting cells. */
  lemma MarkLeaf(h: SoundHeap, s: int, w: Walk, m: Memory, current: int, val: Word)
    requires Startable(h, s) && Walking(h, s, w, m, current, val) == true && !m[current].mark
    requires forall y :: Edge(h, current, y) ==> Marked(m, y) || y == current || Waiting(h, w, y)
    ensures Walking(h, s, w, m[current := m[current].(mark := true)], current, val) == true
  {
    var n := m[current := m[current].(mark := true)];
    assert forall x :: 0 <= x < |m| && x != current ==> n[x] == m[x];
    assert forall x :: Fresh(h, n, x) <==> Fresh(h, m, x) || x == current;
  }

  lemma UnmarkedWord(h: SoundHeap, s: int, w: Walk, m: Memory, current: int, val: Word)
    requires Startable(h, s) && Walking(h, s, w, m, current, val) == true && !m[current].mark
    ensures 0 <= current < |h.mem| && current !in w.place && val == h.mem[current].word && IsValue(val)
    ensures PointsRight(h, val) && (val.Ptr? ==> val.addr != current) && !h.mem[current].mark
  {
  }

  function Enter(w: Walk, current: int): Walk {
    w.(path := w.path + [current], place := w.place[current := |w.path|])
  }

  lemma EnterPath(h: SoundHeap, s: int, w: Walk, current: int, next: nat)
    requires Startable(h, s) && PathOk(h, s, w, current) == true && current !in w.place
    requires h.mem[current].word == Ptr(Reference, next) && next != s && !Flagged(h, w, next)
    requires PointsRight(h, h.mem[current].word)
    ensures PathOk(h, s, Enter(w, current), next) == true
  {
    var u := Enter(w, current);
    forall i {:trigger u.path[i]} | 0 <= i < |u.path|
      ensures u.path[i] in u.place && u.place[u.path[i]] == i && LinkOk(h, u, next, i)
    {
      if i < |w.path| {
        assert LinkOk(h, w, current, i) && u.path[i] == w.path[i] && Next(u, next, i) == Next(w, current, i);
        assert Flagged(h, u, Next(w, current, i)) <==> Flagged(h, w, Next(w, current, i));
      } else {
        assert !Flagged(h, u, next);
      }
    }
    forall f | f in u.at
      ensures ActiveOk(h, u, f)
    {
      assert ActiveOk(h, w, f) && u.path[w.user[f]] == w.path[w.user[f]];
    }
    assert Cellular(h, s, next);
  }

  lemma EnterWords(h: SoundHeap, s: int, w: Walk, m: Memory, current: int, val: Word, n: Memory, next: int)
    requires Startable(h, s) && PathOk(h, s, w, current) == true && current !in w.place
    requires |m| == |h.mem| && WordsOk(h, w, m, current, val) == true && 0 <= next < |m|
    requires h.mem[current].word.Ptr?
    requires |n| == |m| && n[next].word == Back(h, current)
    requires forall x {:trigger n[x]} :: 0 <= x < |m| && x != next ==> n[x].word == m[x].word
    requires m[next].word == Base(h, Enter(w, current), next)
    ensures WordsOk(h, Enter(w, current), n, next, m[next].word) == true
  {
    var u := Enter(w, current);
    forall x | 0 <= x < |n|
      ensures n[x].word == Expected(h, u, next, x)
    {
      if x != next {
        assert n[x].word == m[x].word;
        BaseEntered(h, w, current, x);
      }
    }
  }

  lemma BaseEntered(h: Heap, w: Walk, current: int, x: int)
    requires 0 <= x < |h.mem| && current !in w.place
    requires forall y {:trigger y in w.place} :: y in w.place ==> 0 <= w.place[y] < |w.path|
    ensures Base(h, Enter(w, current), x) == if x == current then Expected(h, w, current, x) else Base(h, w, x)
  {
  }

  /** Following a reference to a cell without FIRST. */
  lemma EnterRef(h: SoundHeap, s: int, w: Walk, m: Memory, current: int, val: Word, n: Memory)
    requires Startable(h, s) && Walking(h, s, w, m, current, val) == true && !m[current].mark
    requires val.Ptr? && val.tag == Reference && val.addr < |m| && !m[val.addr].first
    requires n == m[current := m[current].(mark := true)]
                   [val.addr := m[val.addr].(word := Ptr(Reference, current))]
    ensures Walking(h, s, Enter(w, current), n, val.addr, m[val.addr].word) == true
  {
    UnmarkedWord(h, s, w, m, current, val);
    var next, u := val.addr, Enter(w, current);
    EnterPath(h, s, w, current, next);
    BaseEntered(h, w, current, next);
    EnterWords(h, s, w, m, current, val, n, next);
    assert forall x :: 0 <= x < |m| ==> n[x].first == m[x].first && n[x].mark == (m[x].mark || x == current);
    assert FirstOk(h, s, u, n) by {
      assert forall x :: Flagged(h, u, x) <==> Flagged(h, w, x);
    }
    EnterMarks(h, s, w, m, current, n, next);
  }

  lemma EnterMarks(h: SoundHeap, s: int, w: Walk, m: Memory, current: int, n: Memory, next: int)
    requires Startable(h, s) && |m| == |h.mem| == |n| && MarksOk(h, s, w, m, current) == true
    requires 0 <= current < |m| && h.mem[current].word.Ptr? && h.mem[current].word.addr == next && !h.mem[current].mark
    requires forall x {:trigger n[x]} :: 0 <= x < |m| ==> n[x].mark == (m[x].mark || x == current)
    ensures MarksOk(h, s, Enter(w, current), n, next) == true
  {
    var u := Enter(w, current);
    assert Reach(h, s, next) by {
      assert Edge(h, current, next);
      ReachStep(h, s, current, next);
    }
    assert forall x :: Fresh(h, n, x) <==> Fresh(h, m, x) || x == current;
    assert forall x :: Waiting(h, u, x) <==> Waiting(h, w, x);
  }

  function EnterArguments(w: Walk, current: int, f: int, arity: int): Walk {
    Enter(w, current).(at := w.at[f := arity], user := w.user[f := |w.path|])
  }

  lemma TermCells(h: SoundHeap, f: int, x: int)
    requires FunctorAt(h, f) && f < x <= f + h.mem[f].word.arity
    ensures x in h.owner && h.owner[x] == f && 0 <= x < |h.mem| && IsObject(h.objs, x) && IsValue(h.mem[x].word)
    ensures !h.mem[x].first
  {
  }

  lemma TermPath(h: SoundHeap, s: int, w: Walk, current: int, f: nat)
    requires Startable(h, s) && PathOk(h, s, w, current) == true && current !in w.place && f !in w.at
    requires h.mem[current].word == Ptr(Compound, f) && FunctorAt(h, f)
    ensures PathOk(h, s, EnterArguments(w, current, f, h.mem[f].word.arity), f + h.mem[f].word.arity) == true
  {
    var arity := h.mem[f].word.arity;
    var u := EnterArguments(w, current, f, arity);
    var next := f + arity;
    assert Cellular(h, s, next) && next != s by {
      assert ObjectOk(h, f);
      TermCells(h, f, next);
    }
    hide LinkOk, ActiveOk, Cellular, WellFormed, Startable;
    forall i {:trigger u.path[i]} | 0 <= i < |u.path|
      ensures u.path[i] in u.place && u.place[u.path[i]] == i && LinkOk(h, u, next, i)
    {
      assert i < |w.path| ==> LinkOk(h, w, current, i) && u.path[i] == w.path[i];
      TermLink(h, s, w, current, f, i);
    }
    forall g | g in u.at
      ensures ActiveOk(h, u, g)
    {
      assert g != f ==> ActiveOk(h, w, g);
      TermActive(h, w, current, f, g);
    }
  }

  lemma TermLink(h: SoundHeap, s: int, w: Walk, current: int, f: nat, i: int)
    requires 0 <= i <= |w.path| && (i < |w.path| ==> LinkOk(h, w, current, i)) && f !in w.at
    requires 0 <= current < |h.mem| && h.mem[current].word == Ptr(Compound, f) && FunctorAt(h, f)
    ensures LinkOk(h, EnterArguments(w, current, f, h.mem[f].word.arity), f + h.mem[f].word.arity, i) == true
  {
    var u, next := EnterArguments(w, current, f, h.mem[f].word.arity), f + h.mem[f].word.arity;
    if i < |w.path| {
      assert u.path[i] == w.path[i] && Next(u, next, i) == Next(w, current, i);
      var x := Next(w, current, i);
      assert Flagged(h, u, x) ==> Flagged(h, w, x) || h.owner[x] == f;
    }
  }

  lemma TermActive(h: SoundHeap, w: Walk, current: int, f: nat, g: int)
    requires g != f ==> g in w.at && ActiveOk(h, w, g)
    requires 0 <= current < |h.mem| && h.mem[current].word == Ptr(Compound, f) && FunctorAt(h, f)
    ensures g in EnterArguments(w, current, f, h.mem[f].word.arity).at
    ensures ActiveOk(h, EnterArguments(w, current, f, h.mem[f].word.arity), g) == true
  {
    assert ObjectOk(h, f);
    assert g != f ==> Enter(w, current).path[w.user[g]] == w.path[w.user[g]];
  }

  ghost predicate TermEntered(m: Memory, n: Memory, current: int, f: int, arity: int) {
    && |n| == |m| && current >= 0
    && forall x {:trigger n[x]} :: 0 <= x < |m| ==>
         n[x] == Cell(if x == f + arity then Ptr(Compound, current) else m[x].word,
                      m[x].mark || x == current || x == f,
                      m[x].first || f + 2 <= x <= f + arity)
  }

  /** Following the pointer to a term that is not marked yet: its arguments but the first get
      FIRST, and the last is visited. */
  lemma IsFunctorAt(h: Heap, f: int)
    requires IsObject(h.objs, f) && 0 <= f < |h.mem| && h.mem[f].word.Functor?
    ensures FunctorAt(h, f)
  {
  }

  lemma EnterTerm(h: SoundHeap, s: int, w: Walk, m: Memory, current: int, val: Word, n: Memory, arity: nat)
    requires Startable(h, s) && Walking(h, s, w, m, current, val) == true && !m[current].mark
    requires val.Ptr? && val.tag == Compound && val.addr < |m| && !m[val.addr].mark
    requires h.mem[val.addr].word.Functor? && h.mem[val.addr].word.arity == arity
    requires TermEntered(m, n, current, val.addr, arity) == true
    ensures 0 <= val.addr + arity < |m|
    ensures Walking(h, s, EnterArguments(w, current, val.addr, arity), n, val.addr + arity, m[val.addr + arity].word) == true
  {
    hide *;
    UnmarkedWord(h, s, w, m, current, val);
    var f := val.addr;
    var next, u := f + arity, EnterArguments(w, current, f, arity);
    TargetInside(h, val);
    WalkParts(h, s, w, m, current, val);
    IsFunctorAt(h, f);
    NotVisited(h, s, w, m, current, f);
    TermCells(h, f, next);
    TermPath(h, s, w, current, f);
    TermWords(h, s, w, m, current, val, n, f, arity);
    TermFirsts(h, s, w, m, current, n, f, arity);
    TermMarks(h, s, w, m, current, n, f, arity);
    TermLength(m, n, current, f, arity);
    WalkWhole(h, s, u, n, next, m[next].word);
  }

  lemma NotVisited(h: Heap, s: int, w: Walk, m: Memory, current: int, f: nat)
    requires |m| == |h.mem| && MarksOk(h, s, w, m, current) == true && f < |m| && !m[f].mark
    ensures f !in w.at
  {
  }

  lemma TermLength(m: Memory, n: Memory, current: int, f: int, arity: int)
    requires TermEntered(m, n, current, f, arity) == true
    ensures |n| == |m|
  {
  }

  lemma TermWords(h: SoundHeap, s: int, w: Walk, m: Memory, current: int, val: Word, n: Memory, f: nat, arity: nat)
    requires Startable(h, s) && PathOk(h, s, w, current) == true && current !in w.place && f !in w.at
    requires |m| == |h.mem| && WordsOk(h, w, m, current, val) == true && TermEntered(m, n, current, f, arity) == true
    requires 0 <= current < |h.mem| && h.mem[current].word == Ptr(Compound, f) && FunctorAt(h, f) && h.mem[f].word.arity == arity >= 1
    ensures 0 <= f + arity < |m| == |n|
    ensures WordsOk(h, EnterArguments(w, current, f, arity), n, f + arity, m[f + arity].word) == true
  {
    var next, u := f + arity, EnterArguments(w, current, f, arity);
    TermCells(h, f, next);
    BaseEntered(h, w, current, next);
    EnterWords(h, s, w, m, current, val, n, next);
    forall x | 0 <= x < |n|
      ensures n[x].word == Expected(h, u, next, x)
    {
      hide PathOk, TermEntered, FunctorAt;
      assert n[x].word == Expected(h, Enter(w, current), next, x);
      assert Base(h, u, x) == Base(h, Enter(w, current), x);
    }
  }

  lemma TermFirsts(h: SoundHeap, s: int, w: Walk, m: Memory, current: int, n: Memory, f: int, arity: nat)
    requires Startable(h, s) && |m| == |h.mem| && FirstOk(h, s, w, m) == true && f !in w.at
    requires FunctorAt(h, f) && h.mem[f].word.arity == arity && TermEntered(m, n, current, f, arity) == true
    ensures FirstOk(h, s, EnterArguments(w, current, f, arity), n) == true
  {
    var u := EnterArguments(w, current, f, arity);
    forall x | 0 <= x < |n|
      ensures n[x].first == (x == s || Flagged(h, u, x) || h.mem[x].first)
    {
      if f < x <= f + arity {
        TermCells(h, f, x);
      }
      assert m[x].first == (x == s || Flagged(h, w, x) || h.mem[x].first);
    }
  }

  lemma TermMarks(h: SoundHeap, s: int, w: Walk, m: Memory, current: int, n: Memory, f: nat, arity: nat)
    requires Startable(h, s) && |m| == |h.mem| && MarksOk(h, s, w, m, current) == true && f !in w.at && f < |m|
    requires 0 <= current < |m| && h.mem[current].word == Ptr(Compound, f) && !h.mem[current].mark && !m[f].mark
    requires FunctorAt(h, f) && h.mem[f].word.arity == arity >= 1 && TermEntered(m, n, current, f, arity) == true
    ensures MarksOk(h, s, EnterArguments(w, current, f, arity), n, f + arity) == true
  {
    var u := EnterArguments(w, current, f, arity);
    assert Edge(h, current, f) && Edge(h, f, f + arity);
    ReachStep(h, s, current, f);
    ReachStep(h, s, f, f + arity);
    assert forall x :: 0 <= x < |m| ==> n[x].mark == (m[x].mark || x == current || x == f);
    assert forall x :: Fresh(h, n, x) <==> Fresh(h, m, x) || x == current || x == f;
    forall x, y | Fresh(h, n, x) && Edge(h, x, y)
      ensures Marked(n, y) || y == f + arity || Waiting(h, u, y)
    {
      if x == f {
        TermCells(h, f, y);
      } else if x != current {
        assert Fresh(h, m, x);
        assert Marked(m, y) || y == current || Waiting(h, w, y);
      }
    }
  }

  // ---------- going backward: the current cell is done

  function Leave(w: Walk, last: int, done: set<int>): Walk
    requires |w.path| > 0
  {
    Walk(w.path[..|w.path| - 1], w.place - {last}, w.at - done, w.user - done)
  }

  lemma LastLink(h: SoundHeap, s: int, w: Walk, m: Memory, current: int, val: Word)
    requires Startable(h, s) && Walking(h, s, w, m, current, val) == true && current != s
    ensures |w.path| > 0 && 0 <= Last(w) < |h.mem| && h.mem[Last(w)].word.Ptr? && m[Last(w)].mark
    ensures m[current].word == Ptr(h.mem[Last(w)].word.tag, Last(w))
    ensures Last(w) in w.place && w.place[Last(w)] == |w.path| - 1 && LinkOk(h, w, current, |w.path| - 1)
  {
    assert LinkOk(h, w, current, |w.path| - 1);
    assert Fresh(h, m, Last(w));
  }

  /** Without FIRST, the last cell of the path refers to the current cell, or to the term of
      which it is the first argument. */
  lemma LinkBack(h: SoundHeap, s: int, w: Walk, m: Memory, current: int, val: Word)
    requires Startable(h, s) && Walking(h, s, w, m, current, val) == true && !m[current].first
    ensures |w.path| > 0 && 0 <= Last(w) < |h.mem| && h.mem[Last(w)].word.Ptr?
    ensures h.mem[Last(w)].word.tag == Reference ==> h.mem[Last(w)].word == Ptr(Reference, current)
    ensures h.mem[Last(w)].word.tag != Reference ==>
              && current >= 1 && h.mem[Last(w)].word == Ptr(Compound, current - 1)
              && current - 1 in w.at && w.at[current - 1] == 1
              && current - 1 in w.user && w.user[current - 1] == |w.path| - 1
  {
    LastLink(h, s, w, m, current, val);
    if h.mem[Last(w)].word.tag == Compound {
      var f := h.mem[Last(w)].word.addr;
      assert ActiveOk(h, w, f);
      TermCells(h, f, current);
      assert m[current].first == Flagged(h, w, current);
    }
  }

  /** The last link of the path goes, with the term that it led to when there is one. */
  lemma LeavePath(h: Heap, s: int, w: Walk, current: int, last: nat, done: set<int>)
    requires PathOk(h, s, w, current) == true && |w.path| > 0 && Last(w) == last
    requires forall f :: f in done && f in w.at ==> f in w.user && w.user[f] == |w.path| - 1
    requires forall f :: f in w.at && f in w.user && w.user[f] == |w.path| - 1 ==> f in done
    ensures PathOk(h, s, Leave(w, last, done), last) == true
  {
    hide LinkOk, ActiveOk, Cellular;
    var u := Leave(w, last, done);
    assert LinkOk(h, w, current, |w.path| - 1) && w.place[last] == |w.path| - 1;
    forall i {:trigger u.path[i]} | 0 <= i < |u.path|
      ensures u.path[i] in u.place && u.place[u.path[i]] == i && LinkOk(h, u, last, i)
    {
      assert LinkOk(h, w, current, i) && u.path[i] == w.path[i];
      LeaveLink(h, w, current, last, done, i);
    }
    forall f | f in u.at
      ensures ActiveOk(h, u, f)
    {
      assert ActiveOk(h, w, f);
      LeaveActive(h, w, last, done, f);
    }
    assert |u.path| == 0 <==> last == s;
  }

  lemma LeaveActive(h: Heap, w: Walk, last: nat, done: set<int>, f: int)
    requires |w.path| > 0 && f in w.at && f !in done && ActiveOk(h, w, f)
    requires forall f :: f in w.at && f in w.user && w.user[f] == |w.path| - 1 ==> f in done
    ensures ActiveOk(h, Leave(w, last, done), f) == true
  {
    var u := Leave(w, last, done);
    assert u.path[w.user[f]] == w.path[w.user[f]];
  }

  lemma LeaveLink(h: Heap, w: Walk, current: int, last: nat, done: set<int>, i: int)
    requires |w.path| > 0 && Last(w) == last && 0 <= i < |w.path| - 1 && LinkOk(h, w, current, i)
    requires forall f :: f in done && f in w.at ==> f in w.user && w.user[f] == |w.path| - 1
    ensures LinkOk(h, Leave(w, last, done), last, i) == true
  {
    var u := Leave(w, last, done);
    assert Next(u, last, i) == Next(w, current, i);
  }

  lemma BaseLeft(h: Heap, s: int, w: Walk, current: int, last: nat, done: set<int>, x: int)
    requires PathOk(h, s, w, current) == true && |w.path| > 0 && Last(w) == last && 0 <= x < |h.mem|
    ensures Base(h, Leave(w, last, done), x) == if x == last then h.mem[x].word else Base(h, w, x)
  {
    hide LinkOk, ActiveOk, Cellular;
    var u := Leave(w, last, done);
    assert LinkOk(h, w, current, |w.path| - 1) && w.place[last] == |w.path| - 1;
    if x in w.place && x != last {
      assert w.path[w.place[x]] == x;
      assert w.place[x] > 0 ==> u.path[w.place[x] - 1] == w.path[w.place[x] - 1];
    }
  }

  /** The current cell gets its word back and the cell before it becomes the current one. */
  ghost predicate Restored(m: Memory, n: Memory, current: int, val: Word) {
    && |n| == |m|
    && forall x {:trigger n[x]} :: 0 <= x < |m| ==> n[x] == if x == current then m[x].(word := val) else m[x]
  }

  lemma LeaveWords(h: Heap, s: int, w: Walk, m: Memory, current: int, val: Word, n: Memory, last: nat, done: set<int>)
    requires PathOk(h, s, w, current) == true && |w.path| > 0 && Last(w) == last < |h.mem|
    requires |m| == |h.mem| && WordsOk(h, w, m, current, val) == true && Restored(m, n, current, val) == true
    ensures |n| == |h.mem| && WordsOk(h, Leave(w, last, done), n, last, h.mem[last].word) == true
  {
    var u := Leave(w, last, done);
    forall x | 0 <= x < |n|
      ensures n[x].word == Expected(h, u, last, x)
    {
      hide PathOk;
      BaseLeft(h, s, w, current, last, done, x);
      assert m[x].word == Expected(h, w, current, x);
      LastBase(h, s, w, current, last);
    }
    BaseLeft(h, s, w, current, last, done, last);
  }

  lemma LastBase(h: Heap, s: int, w: Walk, current: int, last: nat)
    requires PathOk(h, s, w, current) == true && |w.path| > 0 && Last(w) == last < |h.mem|
    ensures Base(h, w, last) == if |w.path| == 1 then h.mem[last].word else Back(h, w.path[|w.path| - 2])
  {
    hide LinkOk, ActiveOk, Cellular;
    assert LinkOk(h, w, current, |w.path| - 1);
  }

  lemma LeaveFirsts(h: Heap, s: int, w: Walk, m: Memory, current: int, val: Word, n: Memory, last: nat, done: set<int>)
    requires |m| == |h.mem| && FirstOk(h, s, w, m) == true && Restored(m, n, current, val) == true && |w.path| > 0
    requires forall f :: f in done && f in w.at ==> w.at[f] == 1
    ensures FirstOk(h, s, Leave(w, last, done), n) == true
  {
    var u := Leave(w, last, done);
    forall x | 0 <= x < |n|
      ensures n[x].first == (x == s || Flagged(h, u, x) || h.mem[x].first)
    {
      assert m[x].first == (x == s || Flagged(h, w, x) || h.mem[x].first);
    }
  }

  lemma LeaveMarks(h: Heap, s: int, w: Walk, m: Memory, current: int, val: Word, n: Memory, last: nat, done: set<int>)
    requires |m| == |h.mem| && MarksOk(h, s, w, m, current) == true && Restored(m, n, current, val) == true && |w.path| > 0
    requires forall f :: f in done && f in w.at ==> w.at[f] == 1 && current == f + 1
    requires forall x {:trigger h.owner[x]} :: x in h.owner ==> h.owner[x] < x
    requires Marked(m, current) && last in w.place
    ensures MarksOk(h, s, Leave(w, last, done), n, last) == true
  {
    var u := Leave(w, last, done);
    assert Fresh(h, m, last);
    assert forall x :: Fresh(h, n, x) <==> Fresh(h, m, x);
    forall x, y | Fresh(h, n, x) && Edge(h, x, y)
      ensures Marked(n, y) || y == last || Waiting(h, u, y)
    {
      assert Fresh(h, m, x);
      assert Marked(m, y) || Waiting(h, w, y);
      assert Marked(m, y) ==> Marked(n, y);
    }
  }

  lemma StartFlagged(h: Heap, s: int, w: Walk, m: Memory, current: int, val: Word)
    requires Walking(h, s, w, m, current, val) == true && !m[current].first
    ensures current != s
  {
  }

  lemma WalkParts(h: Heap, s: int, w: Walk, m: Memory, current: int, val: Word)
    requires Walking(h, s, w, m, current, val) == true
    ensures |m| == |h.mem| && PathOk(h, s, w, current) == true && WordsOk(h, w, m, current, val) == true
    ensures FirstOk(h, s, w, m) == true && MarksOk(h, s, w, m, current) == true
    ensures 0 <= current < |m|
  {
  }

  lemma WalkWhole(h: Heap, s: int, w: Walk, m: Memory, current: int, val: Word)
    requires |m| == |h.mem| && PathOk(h, s, w, current) == true && WordsOk(h, w, m, current, val) == true
    requires FirstOk(h, s, w, m) == true && MarksOk(h, s, w, m, current) == true
    ensures Walking(h, s, w, m, current, val) == true
  {
  }

  lemma LeaveUsers(h: Heap, s: int, w: Walk, current: int, last: nat, done: set<int>)
    requires PathOk(h, s, w, current) == true && |w.path| > 0 && Last(w) == last < |h.mem| && h.mem[last].word.Ptr?
    requires done == if h.mem[last].word.tag == Reference then {} else {h.mem[last].word.addr as int}
    ensures forall f :: f in done && f in w.at ==> f in w.user && w.user[f] == |w.path| - 1
    ensures forall f :: f in w.at && f in w.user && w.user[f] == |w.path| - 1 ==> f in done
  {
    assert LinkOk(h, w, current, |w.path| - 1);
    forall f | f in w.at && f in w.user && w.user[f] == |w.path| - 1
      ensures f in done
    {
      assert ActiveOk(h, w, f);
    }
  }

  lemma OwnersBelow(h: SoundHeap)
    ensures forall x {:trigger h.owner[x]} :: x in h.owner ==> h.owner[x] < x
  {
  }

  lemma LeaveLength(w: Walk, last: int, done: set<int>)
    requires |w.path| > 0
    ensures |Leave(w, last, done).path| == |w.path| - 1
  {
  }

  lemma RestoredMarks(m: Memory, n: Memory, current: int, val: Word)
    requires Restored(m, n, current, val) == true
    ensures |n| == |m| && forall x {:trigger Marked(n, x)} :: Marked(n, x) <==> Marked(m, x)
  {
  }

  /** One turn of the inner loop: the pointer that led to the current cell is restored. */
  lemma LeaveCell(h: SoundHeap, s: int, w: Walk, m: Memory, current: int, val: Word, n: Memory) returns (u: Walk)
    requires Startable(h, s) && Walking(h, s, w, m, current, val) == true && Marked(m, current) && !m[current].first
    requires Restored(m, n, current, val) == true
    ensures m[current].word.Ptr? && m[current].word.addr < |n|
    ensures current > 0 || m[current].word.tag == Reference
    ensures Walking(h, s, u, n, m[current].word.addr,
                    if m[current].word.tag == Reference then Ptr(Reference, current) else Ptr(Compound, current - 1)) == true
    ensures |u.path| == |w.path| - 1 && Marked(n, m[current].word.addr)
  {
    StartFlagged(h, s, w, m, current, val);
    LastLink(h, s, w, m, current, val);
    LinkBack(h, s, w, m, current, val);
    var last := Last(w);
    var done := if h.mem[last].word.tag == Reference then {} else {current - 1};
    WalkParts(h, s, w, m, current, val);
    LeaveUsers(h, s, w, current, last, done);
    OwnersBelow(h);
    hide *;
    u := Leave(w, last, done);
    LeavePath(h, s, w, current, last, done);
    LeaveWords(h, s, w, m, current, val, n, last, done);
    LeaveFirsts(h, s, w, m, current, val, n, last, done);
    LeaveMarks(h, s, w, m, current, val, n, last, done);
    WalkWhole(h, s, u, n, last, h.mem[last].word);
    LeaveLength(w, last, done);
    RestoredMarks(m, n, current, val);
  }

  // ---------- FIRST is reached: the next argument, or the end

  function Turn(w: Walk, f: int): Walk
    requires f in w.at
  {
    w.(at := w.at[f := w.at[f] - 1])
  }

  /** FIRST on a cell that is not the start: it is the argument being visited of the term that
      was entered last. */
  lemma TopTerm(h: SoundHeap, s: int, w: Walk, m: Memory, current: int, val: Word)
    requires Startable(h, s) && Walking(h, s, w, m, current, val) == true && m[current].first && current != s
    ensures |w.path| > 0 && 0 <= Last(w) < |h.mem| && h.mem[Last(w)].word.Ptr? && h.mem[Last(w)].word.tag == Compound
    ensures var f := h.mem[Last(w)].word.addr;
            && f in w.at && f in w.user && w.user[f] == |w.path| - 1 && FunctorAt(h, f)
            && w.at[f] >= 2 && current == f + w.at[f] && current <= f + h.mem[f].word.arity
  {
    LastLink(h, s, w, m, current, val);
    var last := Last(w);
    assert Cellular(h, s, current) && IsObject(h.objs, current) && ObjectOk(h, current);
    assert m[current].first == Flagged(h, w, current);
    assert ActiveOk(h, w, h.owner[current]);
    if h.mem[last].word.tag == Compound {
      var f := h.mem[last].word.addr;
      assert ActiveOk(h, w, f);
      TermCells(h, f, current);
    }
  }

  lemma TurnPath(h: Heap, s: int, w: Walk, current: int, f: int)
    requires PathOk(h, s, w, current) == true && |w.path| > 0 && Cellular(h, s, current - 1) && current - 1 != s
    requires f in w.at && f in w.user && w.user[f] == |w.path| - 1 && w.at[f] >= 2 && current == f + w.at[f]
    requires 0 <= Last(w) < |h.mem| && h.mem[Last(w)].word.Ptr? && h.mem[Last(w)].word.tag == Compound && h.mem[Last(w)].word.addr == f
    ensures PathOk(h, s, Turn(w, f), current - 1) == true
  {
    hide LinkOk, ActiveOk, Cellular;
    var u := Turn(w, f);
    forall i {:trigger u.path[i]} | 0 <= i < |u.path|
      ensures u.path[i] in u.place && u.place[u.path[i]] == i && LinkOk(h, u, current - 1, i)
    {
      assert LinkOk(h, w, current, i) && u.path[i] == w.path[i];
      TurnLink(h, w, current, f, i);
    }
    forall g | g in u.at
      ensures ActiveOk(h, u, g)
    {
      assert ActiveOk(h, w, g);
      TurnActive(h, w, f, g);
    }
  }

  lemma TurnLink(h: Heap, w: Walk, current: int, f: int, i: int)
    requires 0 <= i < |w.path| && LinkOk(h, w, current, i)
    requires f in w.at && f in w.user && w.user[f] == |w.path| - 1 && w.at[f] >= 2 && current == f + w.at[f]
    requires 0 <= Last(w) < |h.mem| && h.mem[Last(w)].word.Ptr? && h.mem[Last(w)].word.tag == Compound && h.mem[Last(w)].word.addr == f
    ensures LinkOk(h, Turn(w, f), current - 1, i) == true
  {
    assert i < |w.path| - 1 ==> Next(Turn(w, f), current - 1, i) == Next(w, current, i);
  }

  lemma TurnActive(h: Heap, w: Walk, f: int, g: int)
    requires f in w.at && w.at[f] >= 2 && g in w.at && ActiveOk(h, w, g)
    ensures ActiveOk(h, Turn(w, f), g) == true
  {
  }

  /** The back pointer moves down to the argument below. */
  ghost predicate Turned(m: Memory, n: Memory, current: int, val: Word) {
    && |n| == |m| && 1 <= current < |m|
    && forall x {:trigger n[x]} :: 0 <= x < |m| ==>
         n[x] == if x == current then Cell(val, m[x].mark, false)
                 else if x == current - 1 then m[x].(word := m[current].word) else m[x]
  }

  lemma TurnWords(h: Heap, w: Walk, m: Memory, current: int, val: Word, n: Memory, f: int)
    requires |m| == |h.mem| && WordsOk(h, w, m, current, val) == true && Turned(m, n, current, val) == true
    requires f in w.at && |w.path| > 0
    ensures WordsOk(h, Turn(w, f), n, current - 1, m[current - 1].word) == true
  {
    var u := Turn(w, f);
    forall x | 0 <= x < |n|
      ensures n[x].word == Expected(h, u, current - 1, x)
    {
      assert m[x].word == Expected(h, w, current, x) && Base(h, u, x) == Base(h, w, x);
      assert m[current].word == Back(h, Last(w));
    }
    assert m[current - 1].word == Expected(h, w, current, current - 1);
  }

  lemma TurnFirsts(h: SoundHeap, s: int, w: Walk, m: Memory, current: int, val: Word, n: Memory, f: int)
    requires |m| == |h.mem| && FirstOk(h, s, w, m) == true && Turned(m, n, current, val) == true && current != s
    requires f in w.at && FunctorAt(h, f) && w.at[f] >= 2 && current == f + w.at[f] && current <= f + h.mem[f].word.arity
    ensures FirstOk(h, s, Turn(w, f), n) == true
  {
    var u := Turn(w, f);
    TermCells(h, f, current);
    forall x | 0 <= x < |n|
      ensures n[x].first == (x == s || Flagged(h, u, x) || h.mem[x].first)
    {
      assert m[x].first == (x == s || Flagged(h, w, x) || h.mem[x].first);
    }
  }

  lemma TurnMarks(h: SoundHeap, s: int, w: Walk, m: Memory, current: int, val: Word, n: Memory, f: int)
    requires |m| == |h.mem| && MarksOk(h, s, w, m, current) == true && Turned(m, n, current, val) == true
    requires f in w.at && FunctorAt(h, f) && w.at[f] >= 2 && current == f + w.at[f] && current <= f + h.mem[f].word.arity
    requires Marked(m, current)
    ensures MarksOk(h, s, Turn(w, f), n, current - 1) == true
  {
    var u := Turn(w, f);
    assert Fresh(h, m, f) && Edge(h, f, current - 1);
    ReachStep(h, s, f, current - 1);
    assert forall x :: Fresh(h, n, x) <==> Fresh(h, m, x);
    forall x, y | Fresh(h, n, x) && Edge(h, x, y)
      ensures Marked(n, y) || y == current - 1 || Waiting(h, u, y)
    {
      assert Fresh(h, m, x);
      assert Marked(m, y) || Waiting(h, w, y);
      assert Marked(m, y) ==> Marked(n, y);
    }
  }

  lemma NextArgument(h: SoundHeap, s: int, w: Walk, m: Memory, current: int, val: Word, n: Memory) returns (u: Walk)
    requires Startable(h, s) && Walking(h, s, w, m, current, val) == true && Marked(m, current)
    requires m[current].first && current != s && Turned(m, n, current, val) == true
    ensures Walking(h, s, u, n, current - 1, m[current - 1].word) == true
  {
    TopTerm(h, s, w, m, current, val);
    var f := h.mem[Last(w)].word.addr;
    TermCells(h, f, current - 1);
    assert Cellular(h, s, current - 1);
    WalkParts(h, s, w, m, current, val);
    hide *;
    u := Turn(w, f);
    TurnPath(h, s, w, current, f);
    TurnWords(h, w, m, current, val, n, f);
    TurnFirsts(h, s, w, m, current, val, n, f);
    TurnMarks(h, s, w, m, current, val, n, f);
    TurnedLength(m, n, current, val);
    WalkWhole(h, s, u, n, current - 1, m[current - 1].word);
  }

  lemma TurnedLength(m: Memory, n: Memory, current: int, val: Word)
    requires Turned(m, n, current, val) == true
    ensures |n| == |m| && 1 <= current < |m|
  {
  }

  /** Back at the start everything is as it was, but for the marks. */
  lemma WalkEnd(h: SoundHeap, s: int, w: Walk, m: Memory, val: Word)
    requires Startable(h, s) && Walking(h, s, w, m, s, val) == true && Marked(m, s)
    ensures forall x {:trigger m[x]} :: 0 <= x < |m| && x != s ==> m[x] == h.mem[x].(mark := m[x].mark)
    ensures m[s] == Cell(h.mem[s].word, true, true)
    ensures forall x {:trigger Fresh(h, m, x)} :: Fresh(h, m, x) ==> Reach(h, s, x)
    ensures forall x, y {:trigger Fresh(h, m, x), Edge(h, x, y)} :: Fresh(h, m, x) && Edge(h, x, y) ==> Marked(m, y)
  {
    assert forall f :: f !in w.at;
    assert forall x :: x !in w.place;
    forall x | 0 <= x < |m|
      ensures x != s ==> m[x] == h.mem[x].(mark := m[x].mark)
      ensures x == s ==> m[x] == Cell(h.mem[s].word, true, true)
    {
      assert m[x].word == Expected(h, w, s, x);
    }
  }

  // ---------- the counters

  /** A pointer into the global stack (pl-gc.c, isGlobalRef()). */
  ghost predicate IsGlobalRef(h: Heap, w: Word) {
    |h.objs| >= 2 && w.Ptr? && w.addr <= h.objs[|h.objs| - 2]
  }

  /** The marked cells that hold a pointer into the global stack. */
  ghost function Pointers(h: Heap, m: Memory): (s: set<int>)
    ensures forall x :: x in s <==> 0 <= x < |h.mem| && Marked(m, x) && IsGlobalRef(h, h.mem[x].word)
  {
    set x | 0 <= x < |h.mem| && Marked(m, x) && IsGlobalRef(h, h.mem[x].word)
  }

  /** Where the global stack ends once the cells that are not marked are gone. */
  ghost function Top(h: Heap, m: Memory): int {
    if h.objs == [] then 0 else NewAt(m, h.objs, |h.objs| - 1)
  }

  /** Memory n has one more mark than m, on cell x. */
  ghost predicate MarkedToo(m: Memory, n: Memory, x: int) {
    && |n| == |m| && 0 <= x < |m| && !m[x].mark
    && forall y {:trigger n[y]} :: 0 <= y < |m| ==> n[y].mark == (m[y].mark || y == x)
  }

  lemma {:induction false} NewAtMarked(h: SoundHeap, m: Memory, n: Memory, x: int, k: int)
    requires |m| == |h.mem| && MarkedToo(m, n, x) == true && 0 <= k < |h.objs|
    ensures NewAt(n, h.objs, k) == NewAt(m, h.objs, k) +
              (if IsObject(h.objs, x) && Index(h.objs, x) < k then Size(h.mem[x].word) else 0)
    decreases k
  {
    if k > 0 {
      NewAtMarked(h, m, n, x, k - 1);
      assert ObjectAt(h.mem, h.objs, k - 1);
      ToAt(h.mem, h.objs, k - 1);
      assert Marked(n, h.objs[k - 1]) <==> Marked(m, h.objs[k - 1]) || h.objs[k - 1] == x;
    }
  }

  lemma CountMark(h: SoundHeap, m: Memory, n: Memory, x: int)
    requires |m| == |h.mem| && MarkedToo(m, n, x) == true
    ensures Top(h, n) == Top(h, m) + (if IsObject(h.objs, x) then Size(h.mem[x].word) else 0)
    ensures |Pointers(h, n)| == |Pointers(h, m)| + (if IsGlobalRef(h, h.mem[x].word) then 1 else 0)
  {
    NewAtMarked(h, m, n, x, |h.objs| - 1);
    hide *;
    PointersMarked(h, m, n, x);
  }

  lemma PointersMarked(h: SoundHeap, m: Memory, n: Memory, x: int)
    requires |m| == |h.mem| && MarkedToo(m, n, x) == true
    ensures |Pointers(h, n)| == |Pointers(h, m)| + (if IsGlobalRef(h, h.mem[x].word) then 1 else 0)
  {
    if IsGlobalRef(h, h.mem[x].word) {
      assert Pointers(h, n) == Pointers(h, m) + {x};
    } else {
      assert Pointers(h, n) == Pointers(h, m);
    }
  }

  /** What mark_variable() has added to total_marked and to needs_relocation. */
  ghost predicate Counted(h: Heap, s: int, m: Memory, total: int, needs: int) {
    && total == Top(h, m) - Top(h, h.mem) - (if Marked(m, s) && !IsObject(h.objs, s) then 0 else 1)
    && needs == |Pointers(h, m)| - |Pointers(h, h.mem)|
  }

  lemma CountStep(h: SoundHeap, s: int, m: Memory, n: Memory, x: int, total: int, needs: int)
    requires |m| == |h.mem| && Counted(h, s, m, total, needs) == true && MarkedToo(m, n, x) == true
    requires IsObject(h.objs, x) || (x == s && Size(h.mem[x].word) == 1)
    ensures Counted(h, s, n, total + Size(h.mem[x].word), needs + (if IsGlobalRef(h, h.mem[x].word) then 1 else 0)) == true
  {
    CountMark(h, m, n, x);
    assert Marked(n, s) <==> Marked(m, s) || x == s;
  }

  lemma CountSame(h: SoundHeap, s: int, m: Memory, n: Memory, total: int, needs: int)
    requires |m| == |h.mem| == |n| && Counted(h, s, m, total, needs) == true
    requires forall x {:trigger n[x]} :: 0 <= x < |m| ==> n[x].mark == m[x].mark
    ensures Counted(h, s, n, total, needs) == true
  {
    NewAtSame(h.objs, m, n, |h.objs| - 1);
    assert Pointers(h, n) == Pointers(h, m);
  }

  lemma {:induction false} NewAtSame(objs: seq<int>, m: Memory, n: Memory, k: int)
    requires |m| == |n| && 0 <= k < |objs|
    requires forall x {:trigger n[x]} :: 0 <= x < |m| ==> n[x].mark == m[x].mark
    ensures NewAt(n, objs, k) == NewAt(m, objs, k)
    decreases k
  {
    if k > 0 {
      NewAtSame(objs, m, n, k - 1);
    }
  }

  ghost function Unmarked(m: Memory): (s: set<int>) {
    set x | 0 <= x < |m| && !m[x].mark
  }

  ghost function Firsts(m: Memory): (s: set<int>) {
    set x | 0 <= x < |m| && m[x].first
  }

  /** The two words of an indirect carry no pointers: only its header is marked. */
  lemma MarkHeader(h: SoundHeap, s: int, w: Walk, m: Memory, current: int, val: Word, a: nat)
    requires Startable(h, s) && Walking(h, s, w, m, current, val) == true && !m[current].mark
    requires val.Ptr? && val.addr == a && a < |m| && h.mem[a].word.Header? && !m[a].mark
    ensures Walking(h, s, w, m[a := m[a].(mark := true)], current, val) == true
  {
    UnmarkedWord(h, s, w, m, current, val);
    var n := m[a := m[a].(mark := true)];
    assert Edge(h, current, a);
    ReachStep(h, s, current, a);
    assert forall x :: 0 <= x < |m| && x != a ==> n[x] == m[x];
    assert forall x :: Fresh(h, n, x) <==> Fresh(h, m, x) || x == a;
    assert forall y :: !Edge(h, a, y);
  }

  ghost predicate State(ld: LocalData, h: SoundHeap, s: int, w: Walk, current: int, val: Word, total: int, needs: int)
    reads ld, ld.mem
  {
    && ld.gBase == h.objs[0] && ld.mem.Length == |h.mem|
    && Walking(h, s, w, ld.mem[..], current, val)
    && Counted(h, s, ld.mem[..], ld.totalMarked - total, ld.needsRelocation - needs)
  }

  lemma StateParts(ld: LocalData, h: SoundHeap, s: int, w: Walk, current: int, val: Word, total: int, needs: int)
    requires State(ld, h, s, w, current, val, total, needs) == true
    ensures ld.gBase == h.objs[0] && ld.mem.Length == |h.mem| == |ld.mem[..]| && 0 <= current < ld.mem.Length
    ensures Walking(h, s, w, ld.mem[..], current, val) == true
    ensures Counted(h, s, ld.mem[..], ld.totalMarked - total, ld.needsRelocation - needs) == true
  {
  }

  lemma StateWhole(ld: LocalData, h: SoundHeap, s: int, w: Walk, current: int, val: Word, total: int, needs: int)
    requires ld.gBase == h.objs[0] && Walking(h, s, w, ld.mem[..], current, val) == true
    requires Counted(h, s, ld.mem[..], ld.totalMarked - total, ld.needsRelocation - needs) == true
    ensures State(ld, h, s, w, current, val, total, needs) == true
  {
  }

  lemma FewerUnmarked(m: Memory, n: Memory, x: int)
    requires |n| == |m| && 0 <= x < |m| && !m[x].mark && n[x].mark
    requires forall y {:trigger n[y]} :: 0 <= y < |m| && m[y].mark ==> n[y].mark
    ensures Unmarked(n) < Unmarked(m)
  {
    assert x in Unmarked(m) && x !in Unmarked(n);
  }

  /** The pointer in a cell that is not marked leads into the global stack. */
  lemma TargetInside(h: SoundHeap, w: Word)
    requires PointsRight(h, w) && w.Ptr?
    ensures IsObject(h.objs, w.addr) && h.objs[0] <= w.addr < |h.mem| && w.tag != Address && IsGlobalRef(h, w)
    ensures w.tag == Compound ==> h.mem[w.addr].word.Functor? && h.mem[w.addr].word.arity >= 1 && Size(h.mem[w.addr].word) == 1
    ensures w.tag != Compound && w.tag != Reference ==> h.mem[w.addr].word.Header?
  {
    Increasing(h.mem, h.objs, 0, Index(h.objs, w.addr));
    assert ObjectOk(h, w.addr);
  }

  lemma CellInside(h: SoundHeap, s: int, w: Walk, m: Memory, current: int, val: Word)
    requires Startable(h, s) && Walking(h, s, w, m, current, val) == true && !m[current].mark
    ensures IsObject(h.objs, current) || current == s
    ensures 0 <= current < |h.mem| && h.mem[current].word == val && Size(val) == 1
  {
  }

  /** A cell with FIRST is visited sooner or later. */
  lemma FirstIsWaiting(h: SoundHeap, s: int, w: Walk, m: Memory, current: int, val: Word, y: nat)
    requires Startable(h, s) && Walking(h, s, w, m, current, val) == true && !m[current].mark
    requires val.Ptr? && val.addr == y < |m| && m[y].first
    ensures Marked(m, y) || Waiting(h, w, y)
  {
    UnmarkedWord(h, s, w, m, current, val);
    TargetInside(h, val);
    assert ObjectOk(h, y);
    assert m[y].first == (y == s || Flagged(h, w, y));
    if y == s {
      StartMarked(h, s, w, m, current, val);
    }
  }

  lemma StartMarked(h: SoundHeap, s: int, w: Walk, m: Memory, current: int, val: Word)
    requires Walking(h, s, w, m, current, val) == true && current != s
    ensures Marked(m, s)
  {
    assert LinkOk(h, w, current, 0);
    assert Fresh(h, m, s);
  }

  lemma MarkEdges(h: SoundHeap, s: int, w: Walk, m: Memory, current: int, val: Word)
    requires Startable(h, s) && Walking(h, s, w, m, current, val) == true && !m[current].mark
    ensures val.Ptr? ==> forall y :: Edge(h, current, y) ==> y == val.addr
    ensures !val.Ptr? ==> forall y :: !Edge(h, current, y)
  {
    UnmarkedWord(h, s, w, m, current, val);
  }

  /** The current cell needs no further visit. */
  lemma LeafState(ld: LocalData, h: SoundHeap, s: int, w: Walk, m: Memory, current: int, val: Word, total: int, needs: int, t: int, r: int)
    requires Startable(h, s) == true && ld.gBase == h.objs[0]
    requires |m| == |h.mem| && 0 <= current < |m| && !m[current].mark && Walking(h, s, w, m, current, val) == true
    requires val.Ptr? ==> Marked(m, val.addr) || Waiting(h, w, val.addr)
    requires Counted(h, s, m, t - total, r - needs) == true
    requires ld.mem[..] == m[current := m[current].(mark := true)]
    requires ld.totalMarked == t + 1 && ld.needsRelocation == r + (if val.Ptr? then 1 else 0)
    ensures State(ld, h, s, w, current, val, total, needs) == true
    ensures Marked(ld.mem[..], current) && Unmarked(ld.mem[..]) < Unmarked(m)
  {
    MarkEdges(h, s, w, m, current, val);
    CellInside(h, s, w, m, current, val);
    UnmarkedWord(h, s, w, m, current, val);
    if val.Ptr? {
      TargetInside(h, val);
    }
    CountStep(h, s, m, ld.mem[..], current, t - total, r - needs);
    FewerUnmarked(m, ld.mem[..], current);
    hide *;
    MarkLeaf(h, s, w, m, current, val);
    StateWhole(ld, h, s, w, current, val, total, needs);
  }

  /** `case TAG_REFERENCE` of mark_variable(). */
  method VisitReference(ld: LocalData, current: nat, val: Word, ghost h: SoundHeap, ghost s: int, ghost w: Walk,
      ghost total: int, ghost needs: int) returns (forward: bool, cell: nat, value: Word, ghost u: Walk)
    requires Startable(h, s) == true && State(ld, h, s, w, current, val, total, needs) == true
    requires current < ld.mem.Length && !ld.mem[current].mark && val.Ptr? && val.tag == Reference
    modifies ld`totalMarked, ld`needsRelocation, ld.mem
    ensures State(ld, h, s, u, cell, value, total, needs) == true
    ensures !forward ==> Marked(ld.mem[..], cell)
    ensures Unmarked(ld.mem[..]) < old(Unmarked(ld.mem[..]))
  {
    hide *;
    var mem := ld.mem;
    ghost var m, t, r := mem[..], ld.totalMarked, ld.needsRelocation;
    StateParts(ld, h, s, w, current, val, total, needs);
    UnmarkedWord(h, s, w, m, current, val);
    TargetInside(h, val);
    ReferenceApart(h, s, w, m, current, val);

    mem[current] := mem[current].(mark := true);
    ld.totalMarked := ld.totalMarked + 1;
    var next := val.addr;
    assert next >= ld.gBase;
    ld.needsRelocation := ld.needsRelocation + 1;
    if mem[next].first {
      FirstIsWaiting(h, s, w, m, current, val, next);
      LeafState(ld, h, s, w, m, current, val, total, needs, t, r);
      forward, cell, value, u := false, current, val, w;
    } else {
      ghost var n := mem[..];
      forward, cell, value, u := true, next, mem[next].word, Enter(w, current);
      mem[next] := mem[next].(word := Ptr(Reference, current));
      EnterRef(h, s, w, m, current, val, mem[..]);
      CellInside(h, s, w, m, current, val);
      FewerUnmarked(m, mem[..], current);
      OneMore(m, mem[..], current);
      CountStep(h, s, m, mem[..], current, t - total, r - needs);
      StateWhole(ld, h, s, u, cell, value, total, needs);
    }
  }

  lemma ReferenceApart(h: SoundHeap, s: int, w: Walk, m: Memory, current: int, val: Word)
    requires Startable(h, s) && Walking(h, s, w, m, current, val) == true && !m[current].mark && val.Ptr?
    ensures val.addr != current
  {
    UnmarkedWord(h, s, w, m, current, val);
  }

  lemma OneMore(m: Memory, n: Memory, x: int)
    requires |n| == |m| && 0 <= x < |m| && !m[x].mark
    requires forall y {:trigger n[y]} :: 0 <= y < |m| ==> n[y].mark == (m[y].mark || y == x)
    ensures MarkedToo(m, n, x) == true
  {
  }

  /** `for( next += 2; args > 0; args--, next++ ) mark_first(next)`: all arguments of the term
      but the first get FIRST. */
  method FlagArguments(ld: LocalData, f: nat, arity: nat)
    requires arity >= 1 && f + arity < ld.mem.Length
    modifies ld.mem
    ensures forall x {:trigger ld.mem[x]} :: 0 <= x < ld.mem.Length ==>
              ld.mem[x] == old(ld.mem[x]).(first := old(ld.mem[x]).first || f + 2 <= x <= f + arity)
  {
    var mem := ld.mem;
    var next, args := f + 2, arity - 1;
    while args > 0
      invariant next + args == f + arity + 1 && args >= 0 && f + 2 <= next
      invariant forall x {:trigger mem[x]} :: 0 <= x < mem.Length ==>
                  mem[x] == old(mem[x]).(first := old(mem[x]).first || f + 2 <= x < next)
    {
      mem[next] := mem[next].(first := true);
      args, next := args - 1, next + 1;
    }
  }

  /** `case TAG_COMPOUND` of mark_variable(). */
  method VisitTerm(ld: LocalData, current: nat, val: Word, ghost h: SoundHeap, ghost s: int, ghost w: Walk,
      ghost total: int, ghost needs: int) returns (forward: bool, cell: nat, value: Word, ghost u: Walk)
    requires Startable(h, s) == true && State(ld, h, s, w, current, val, total, needs) == true
    requires current < ld.mem.Length && !ld.mem[current].mark && val.Ptr? && val.tag == Compound
    modifies ld`totalMarked, ld`needsRelocation, ld.mem
    ensures State(ld, h, s, u, cell, value, total, needs) == true
    ensures !forward ==> Marked(ld.mem[..], cell)
    ensures Unmarked(ld.mem[..]) < old(Unmarked(ld.mem[..]))
  {
    hide *;
    var mem := ld.mem;
    ghost var m, t, r := mem[..], ld.totalMarked, ld.needsRelocation;
    StateParts(ld, h, s, w, current, val, total, needs);
    UnmarkedWord(h, s, w, m, current, val);
    TargetInside(h, val);

    mem[current] := mem[current].(mark := true);
    ld.totalMarked := ld.totalMarked + 1;
    var next := val.addr;
    ld.needsRelocation := ld.needsRelocation + 1;
    if mem[next].mark {
      TargetMarked(h, s, w, m, current, val);
      LeafState(ld, h, s, w, m, current, val, total, needs, t, r);
      forward, cell, value, u := false, current, val, w;
    } else {
      ghost var m1 := mem[..];
      assert mem[next].word.Functor? && mem[next].word.arity == h.mem[next].word.arity by {
        FunctorThere(h, s, w, m, current, val);
      }
      var arity := mem[next].word.arity;
      TermInside(h, next, arity);
      mem[next] := mem[next].(mark := true);
      ld.totalMarked := ld.totalMarked + 1;
      FlagArguments(ld, next, arity);
      var last := next + arity;
      ghost var m2 := mem[..];
      forward, cell, value, u := true, last, mem[last].word, EnterArguments(w, current, next, arity);
      mem[last] := mem[last].(word := Ptr(Compound, current));
      HasEntered(m, mem[..], current, next, arity);
      EnterTerm(h, s, w, m, current, val, mem[..], arity);
      FewerUnmarked(m, mem[..], current);
      CellInside(h, s, w, m, current, val);
      OneMore(m, m1, current);
      CountStep(h, s, m, m1, current, t - total, r - needs);
      OneMore(m1, mem[..], next);
      OffsetSize(h, h.mem[next].word);
      CountStep(h, s, m1, mem[..], next, t - total + 1, r - needs + 1);
      StateWhole(ld, h, s, u, cell, value, total, needs);
    }
  }

  lemma TargetMarked(h: SoundHeap, s: int, w: Walk, m: Memory, current: int, val: Word)
    requires Startable(h, s) && Walking(h, s, w, m, current, val) == true && !m[current].mark
    requires val.Ptr? && val.addr < |m| && m[current := m[current].(mark := true)][val.addr].mark
    ensures Marked(m, val.addr)
  {
    ReferenceApart(h, s, w, m, current, val);
  }

  /** The functor of a term that is not marked was not touched. */
  lemma FunctorThere(h: SoundHeap, s: int, w: Walk, m: Memory, current: int, val: Word)
    requires Startable(h, s) && Walking(h, s, w, m, current, val) == true && !m[current].mark
    requires val.Ptr? && val.addr < |m| && (h.mem[val.addr].word.Functor? || h.mem[val.addr].word.Header?)
    ensures m[val.addr].word == h.mem[val.addr].word
  {
    assert m[val.addr].word == Expected(h, w, current, val.addr);
    assert Cellular(h, s, current);
  }

  lemma TermInside(h: SoundHeap, f: nat, arity: nat)
    requires IsObject(h.objs, f) && f < |h.mem| && h.mem[f].word.Functor? && h.mem[f].word.arity == arity >= 1
    ensures f + arity < |h.mem|
  {
    TermCells(h, f, f + arity);
  }

  lemma HasEntered(m: Memory, n: Memory, current: nat, f: nat, arity: nat)
    requires |n| == |m| && current < |m| && f < |m|
    requires forall x {:trigger n[x]} :: 0 <= x < |m| ==>
         n[x] == Cell(if x == f + arity then Ptr(Compound, current) else m[x].word,
                      m[x].mark || x == current || x == f,
                      m[x].first || f + 2 <= x <= f + arity)
    ensures TermEntered(m, n, current, f, arity) == true
  {
  }

  /** The cases for indirects of mark_variable(). */
  method VisitIndirect(ld: LocalData, current: nat, val: Word, ghost h: SoundHeap, ghost s: int, ghost w: Walk,
      ghost total: int, ghost needs: int)
    requires Startable(h, s) == true && State(ld, h, s, w, current, val, total, needs) == true
    requires current < ld.mem.Length && !ld.mem[current].mark && val.Ptr? && val.tag != Compound && val.tag != Reference
    modifies ld`totalMarked, ld`needsRelocation, ld.mem
    ensures State(ld, h, s, w, current, val, total, needs) == true
    ensures Marked(ld.mem[..], current)
    ensures Unmarked(ld.mem[..]) < old(Unmarked(ld.mem[..]))
  {
    hide *;
    var mem := ld.mem;
    ghost var m, t, r := mem[..], ld.totalMarked, ld.needsRelocation;
    StateParts(ld, h, s, w, current, val, total, needs);
    UnmarkedWord(h, s, w, m, current, val);
    TargetInside(h, val);
    FunctorThere(h, s, w, m, current, val);
    ReferenceApart(h, s, w, m, current, val);

    mem[current] := mem[current].(mark := true);
    ld.totalMarked := ld.totalMarked + 1;
    var next := val.addr;
    ld.needsRelocation := ld.needsRelocation + 1;
    if mem[next].mark {
      TargetMarked(h, s, w, m, current, val);
      LeafState(ld, h, s, w, m, current, val, total, needs, t, r);
    } else {
      var offset := OffsetCell(mem[next].word);
      mem[next] := mem[next].(mark := true);
      ld.totalMarked := ld.totalMarked + 1;
      ld.totalMarked := ld.totalMarked + offset;
      ghost var n := m[next := m[next].(mark := true)];
      MarkHeader(h, s, w, m, current, val, next);
      OneMore(m, n, next);
      CountStep(h, s, m, n, next, t - total, r - needs);
      OffsetSize(h, h.mem[next].word);
      MarkedThere(n, next);
      LeafState(ld, h, s, w, n, current, val, total, needs, t + offset + 1, r);
      SubUnmarked(m, n, mem[..], next);
    }
  }

  lemma OffsetSize(h: SoundHeap, w: Word)
    ensures Size(w) == OffsetCell(w) + 1 && (!w.Ptr? ==> !IsGlobalRef(h, w))
  {
  }

  lemma MarkedThere(m: Memory, x: int)
    requires 0 <= x < |m| && m[x].mark
    ensures Marked(m, x)
  {
  }

  lemma SubUnmarked(m: Memory, n: Memory, k: Memory, x: nat)
    requires x < |m| && n == m[x := m[x].(mark := true)] && Unmarked(k) < Unmarked(n)
    ensures Unmarked(k) < Unmarked(m)
  {
  }

  /** The part of mark_variable() behind `forward`, for a cell that is not marked. */
  method Visit(ld: LocalData, current: nat, val: Word, ghost h: SoundHeap, ghost s: int, ghost w: Walk,
      ghost total: int, ghost needs: int) returns (forward: bool, cell: nat, value: Word, ghost u: Walk)
    requires Startable(h, s) == true && State(ld, h, s, w, current, val, total, needs) == true
    requires current < ld.mem.Length && !ld.mem[current].mark
    modifies ld`totalMarked, ld`needsRelocation, ld.mem
    ensures State(ld, h, s, u, cell, value, total, needs) == true
    ensures !forward ==> Marked(ld.mem[..], cell)
    ensures Unmarked(ld.mem[..]) < old(Unmarked(ld.mem[..]))
  {
    hide *;
    if val.Ptr? {
      match val.tag {
        case Reference =>
          forward, cell, value, u := VisitReference(ld, current, val, h, s, w, total, needs);
        case Compound =>
          forward, cell, value, u := VisitTerm(ld, current, val, h, s, w, total, needs);
        case _ =>
          VisitIndirect(ld, current, val, h, s, w, total, needs);
          forward, cell, value, u := false, current, val, w;
      }
    } else {
      ghost var m, t, r := ld.mem[..], ld.totalMarked, ld.needsRelocation;
      StateParts(ld, h, s, w, current, val, total, needs);
      ld.mem[current] := ld.mem[current].(mark := true);
      ld.totalMarked := ld.totalMarked + 1;
      LeafState(ld, h, s, w, m, current, val, total, needs, t, r);
      forward, cell, value, u := false, current, val, w;
    }
  }

  /** The inner loop behind `backward`: goes back over the pointers that were reversed until a
      cell has FIRST. */
  method GoBack(ld: LocalData, start: nat, value: Word, ghost h: SoundHeap, ghost s: int, ghost w0: Walk,
      ghost total: int, ghost needs: int) returns (current: nat, val: Word, ghost w: Walk)
    requires Startable(h, s) == true && State(ld, h, s, w0, start, value, total, needs) == true && Marked(ld.mem[..], start)
    modifies ld.mem
    ensures State(ld, h, s, w, current, val, total, needs) == true && current < ld.mem.Length
    ensures Marked(ld.mem[..], current) && ld.mem[current].first
    ensures Unmarked(ld.mem[..]) == old(Unmarked(ld.mem[..])) && Firsts(ld.mem[..]) == old(Firsts(ld.mem[..]))
  {
    hide *;
    var mem := ld.mem;
    current, val, w := start, value, w0;
    StateParts(ld, h, s, w, current, val, total, needs);
    while !mem[current].first
      invariant State(ld, h, s, w, current, val, total, needs) == true && current < mem.Length
      invariant Marked(mem[..], current)
      invariant Unmarked(mem[..]) == old(Unmarked(mem[..])) && Firsts(mem[..]) == old(Firsts(mem[..]))
      decreases |w.path|
    {
      ghost var m, a, v := mem[..], current, val;
      StateParts(ld, h, s, w, current, val, total, needs);
      var word := mem[current].word;
      ghost var n := m[current := m[current].(word := val)];
      IsRestored(m, n, current, val);
      w := LeaveCell(h, s, w, m, current, val, n);
      var next := word.addr;
      mem[current] := mem[current].(word := val);
      val := if word.tag == Reference then Ptr(Reference, current) else Ptr(Compound, current - 1);
      current := next;
      SameBits(m, mem[..], a);
      CountSame(h, s, m, mem[..], ld.totalMarked - total, ld.needsRelocation - needs);
      StateWhole(ld, h, s, w, current, val, total, needs);
      StateParts(ld, h, s, w, current, val, total, needs);
    }
  }

  lemma IsRestored(m: Memory, n: Memory, current: nat, val: Word)
    requires current < |m| && n == m[current := m[current].(word := val)]
    ensures Restored(m, n, current, val) == true
  {
  }

  lemma SameBits(m: Memory, n: Memory, current: nat)
    requires current < |m| == |n| && n == m[current := m[current].(word := n[current].word)]
    ensures forall x {:trigger n[x]} :: 0 <= x < |m| ==> n[x].mark == m[x].mark
    ensures Unmarked(n) == Unmarked(m) && Firsts(n) == Firsts(m)
  {
  }

  /** Everything that mark_variable() may have done to memory: it marked what `s` reaches. */
  ghost predicate MarkedFrom(h: SoundHeap, s: int, m: Memory) {
    && |m| == |h.mem|
    && (forall x {:trigger m[x]} :: 0 <= x < |m| ==> m[x] == h.mem[x].(mark := m[x].mark) && (h.mem[x].mark ==> m[x].mark))
    && Fresh(h, m, s)
    && (forall x {:trigger Fresh(h, m, x)} :: Fresh(h, m, x) ==> Reach(h, s, x))
    && (forall x, y {:trigger Fresh(h, m, x), Edge(h, x, y)} :: Fresh(h, m, x) && Edge(h, x, y) ==> Marked(m, y))
  }

  lemma Finish(ld: LocalData, h: SoundHeap, s: int, w: Walk, m: Memory, val: Word, total: int, needs: int)
    requires Startable(h, s) == true && Walking(h, s, w, m, s, val) == true && Marked(m, s)
    requires Counted(h, s, m, ld.totalMarked - total, ld.needsRelocation - needs) == true
    requires 0 <= s < |m| && ld.mem[..] == m[s := m[s].(first := false)]
    ensures MarkedFrom(h, s, ld.mem[..]) == true
    ensures Counted(h, s, ld.mem[..], ld.totalMarked - total, ld.needsRelocation - needs) == true
  {
    var n := ld.mem[..];
    WalkEnd(h, s, w, m, val);
    CountSame(h, s, m, n, ld.totalMarked - total, ld.needsRelocation - needs);
    hide Walking, Counted;
    assert forall x :: Fresh(h, n, x) <==> Fresh(h, m, x);
    assert forall x :: Marked(n, x) <==> Marked(m, x);
  }

  lemma NextState(ld: LocalData, h: SoundHeap, s: int, w: Walk, m: Memory, current: nat, val: Word, n: Memory,
      total: int, needs: int) returns (u: Walk)
    requires Startable(h, s) == true && ld.gBase == h.objs[0]
    requires Walking(h, s, w, m, current, val) == true && Marked(m, current) && current < |m| && m[current].first && current != s
    requires Counted(h, s, m, ld.totalMarked - total, ld.needsRelocation - needs) == true
    requires current > 0 ==> ld.mem[..] == m[current := Cell(val, m[current].mark, false)]
                                            [current - 1 := m[current - 1].(word := m[current].word)]
    ensures current > 0 && State(ld, h, s, u, current - 1, m[current - 1].word, total, needs) == true
    ensures Unmarked(ld.mem[..]) == Unmarked(m) && Firsts(ld.mem[..]) < Firsts(m)
  {
    hide *;
    StepDown(h, s, w, m, current, val);
    var n := ld.mem[..];
    HasTurned(m, n, current, val);
    u := NextArgument(h, s, w, m, current, val, n);
    TurnedBits(m, n, current, val);
    WalkParts(h, s, w, m, current, val);
    CountSame(h, s, m, n, ld.totalMarked - total, ld.needsRelocation - needs);
    StateWhole(ld, h, s, u, current - 1, m[current - 1].word, total, needs);
  }

  lemma HasTurned(m: Memory, n: Memory, current: nat, val: Word)
    requires 1 <= current < |m|
    requires n == m[current := Cell(val, m[current].mark, false)][current - 1 := m[current - 1].(word := m[current].word)]
    ensures Turned(m, n, current, val) == true
  {
  }

  lemma TurnedBits(m: Memory, n: Memory, current: nat, val: Word)
    requires Turned(m, n, current, val) == true && current < |m| && m[current].first
    ensures |m| == |n| && forall x {:trigger n[x]} :: 0 <= x < |m| ==> n[x].mark == m[x].mark
    ensures Unmarked(n) == Unmarked(m) && Firsts(n) < Firsts(m)
  {
    assert current in Firsts(m) && current !in Firsts(n);
  }

  /** pl-gc.c, mark_variable(). */
  method MarkVariable(ld: LocalData, start: nat, ghost h: SoundHeap)
    requires h.mem == ld.mem[..] && Startable(h, start) == true && ld.gBase == h.objs[0] && start < ld.mem.Length
    modifies ld`totalMarked, ld`needsRelocation, ld`localMarked, ld.mem
    ensures MarkedFrom(h, start, ld.mem[..]) == true
    ensures Counted(h, start, ld.mem[..], ld.totalMarked - old(ld.totalMarked), ld.needsRelocation - old(ld.needsRelocation)) == true
    ensures ld.localMarked == old(ld.localMarked) + 1
  {
    hide *;
    var mem := ld.mem;
    ghost var total, needs := ld.totalMarked, ld.needsRelocation;
    ghost var s := start;
    assert !mem[start].mark by {
      NotMarked(h, s);
    }
    ld.localMarked := ld.localMarked + 1;
    var current: nat := start;
    mem[current] := mem[current].(first := true);
    var val := mem[current].word;
    ld.totalMarked := ld.totalMarked - 1;
    ghost var w := NoWalk;
    WalkStart(h, s);
    CountStart(h, s, mem[..]);
    StateWhole(ld, h, s, w, current, val, total, needs);
    while true
      invariant State(ld, h, s, w, current, val, total, needs) == true && current < mem.Length
      invariant ld.localMarked == old(ld.localMarked) + 1
      decreases Unmarked(mem[..]), Firsts(mem[..])
    {
      var forward := false;
      if !mem[current].mark {
        forward, current, val, w := Visit(ld, current, val, h, s, w, total, needs);
        StateParts(ld, h, s, w, current, val, total, needs);
      } else {
        MarkedThere(mem[..], current);
      }
      if !forward {
        current, val, w := GoBack(ld, current, val, h, s, w, total, needs);
        StateParts(ld, h, s, w, current, val, total, needs);
        ghost var m := mem[..];
        mem[current] := mem[current].(first := false);
        if current == start {
          Finish(ld, h, s, w, m, val, total, needs);
          return;
        }
        StepDown(h, s, w, m, current, val);
        var tmp := mem[current].word;
        mem[current] := mem[current].(word := val);
        ghost var a, v := current, val;
        current := current - 1;
        val := mem[current].word;
        mem[current] := mem[current].(word := tmp);
        w := NextState(ld, h, s, w, m, a, v, mem[..], total, needs);
      }
    }
  }

  lemma NotMarked(h: SoundHeap, s: int)
    requires Startable(h, s)
    ensures 0 <= s < |h.mem| && !h.mem[s].mark
  {
  }

  lemma CountStart(h: SoundHeap, s: int, n: Memory)
    requires Startable(h, s) && n == h.mem[s := h.mem[s].(first := true)]
    ensures Counted(h, s, n, -1, 0) == true
  {
    NewAtSame(h.objs, h.mem, n, |h.objs| - 1);
    assert Pointers(h, n) == Pointers(h, h.mem);
  }

  lemma StepDown(h: SoundHeap, s: int, w: Walk, m: Memory, current: nat, val: Word)
    requires Startable(h, s) == true && current != s && current < |m| && m[current].first
    requires Walking(h, s, w, m, current, val) == true
    ensures current > 0
  {
    TopTerm(h, s, w, m, current, val);
  }

  // ---------- what is marked

  /** When every cell to which a marked object leads is marked, then mark_variable() marks
      exactly the cells that `s` reaches. */
  lemma MarkedExactly(h: SoundHeap, s: int, m: Memory, x: int)
    requires Startable(h, s) && MarkedFrom(h, s, m) == true
    requires forall y, z {:trigger Edge(h, y, z)} :: IsObject(h.objs, y) && Marked(h.mem, y) && Edge(h, y, z) ==> Marked(h.mem, z)
    ensures Marked(m, x) <==> Marked(h.mem, x) || Reach(h, s, x)
  {
    var closed := iset y | Marked(m, y) && (y == s || IsObject(h.objs, y));
    forall y, z | y in closed && Edge(h, y, z)
      ensures z in closed
    {
      EdgeObject(h, s, y, z);
      assert y == s ==> Fresh(h, m, y);
      assert Fresh(h, m, y) || Marked(h.mem, y);
    }
    if Reach(h, s, x) {
      var n: nat :| ReachIn(h, s, x, n);
      ReachClosed(h, s, x, n, closed);
    }
    if Marked(m, x) && !Marked(h.mem, x) {
      assert Fresh(h, m, x);
    }
  }

  lemma EdgeObject(h: SoundHeap, s: int, y: int, z: int)
    requires Startable(h, s) && (y == s || IsObject(h.objs, y)) && Edge(h, y, z)
    ensures IsObject(h.objs, z) && 0 <= z < |h.mem|
  {
    if y == s {
      TargetInside(h, h.mem[s].word);
    } else {
      assert ObjectOk(h, y);
      if h.mem[y].word.Ptr? {
        TargetInside(h, h.mem[y].word);
      } else {
        TermCells(h, y, z);
      }
    }
  }
}
