/** What the choice points can see, told from the stacks alone, and which variables early reset
    (pl-gc.c, mark_choicepoints()) therefore resets and which assignments it forgets. */
module Visibility {
  import opened Words
  import opened GlobalStack
  import opened Terms
  import opened Stacks
  import opened MarkPhase
  import opened EarlyReset
  import opened Backtracking

  // ---------- reachability from variables of frames

  /** Cell a is one of the roots, or a root or an old value on the trail leads to it. */
  ghost predicate Visible(y: Layout, m: Memory, roots: iset<int>, a: int)
    requires |y.objs| >= 2
  {
    a in roots || exists s :: Source(y, m, s) && (s in roots || s in y.saved) && Reach(HeapOf(y, m), s, a)
  }

  /** The variables of frames that are passed up to the query of choice point j. */
  ghost function QueryRoots(y: Layout, j: int): iset<int>
    requires 0 <= j < |y.choices|
  {
    iset a | Slot(y, a) && (Passed(y, j, a) || a in y.choices[j].query)
  }

  /** Those that are passed before choice point j. */
  ghost function FrameRoots(y: Layout, j: int): iset<int> {
    iset a | Slot(y, a) && Passed(y, j, a)
  }

  ghost predicate SameOffTrail(y: Layout, m: Memory, r: Memory) {
    |m| == |r| && forall a {:trigger m[a]} {:trigger r[a]} :: 0 <= a < |r| && !OnTrail(y, a) ==> m[a].word == r[a].word
  }

  lemma EdgeSame(y: Layout, m: Memory, r: Memory, a: int, b: int)
    requires SameOffTrail(y, m, r) && !OnTrail(y, a)
    ensures Edge(HeapOf(y, m), a, b) == Edge(HeapOf(y, r), a, b)
  {
  }

  lemma SourceOffTrail(y: Layout, m: Memory, r: Memory, s: int)
    requires StacksOk(y, r) && SameOffTrail(y, m, r)
    ensures Source(y, m, s) <==> Source(y, r, s)
    ensures Source(y, r, s) ==> !OnTrail(y, s)
  {
    if Slot(y, s) {
      assert Local(y, |r|, s);
    }
    if s in y.saved {
      ObjectBelow(y, r, s);
    }
  }

  lemma ObjectOffTrail(y: Layout, r: Memory, a: int)
    requires StacksOk(y, r) && IsObject(y.objs, a)
    ensures !OnTrail(y, a)
  {
    ObjectBelow(y, r, a);
  }

  lemma ReachMoves(y: Layout, m: Memory, r: Memory, s: int, x: int)
    requires StacksOk(y, r) && SameOffTrail(y, m, r) == true && Source(y, r, s) && Reach(HeapOf(y, r), s, x)
    ensures Reach(HeapOf(y, m), s, x)
  {
    var h, g := HeapOf(y, r), HeapOf(y, m);
    var n: nat :| ReachIn(h, s, x, n);
    var closed := iset a | (a == s || IsObject(y.objs, a)) && Reach(g, s, a);
    ReachSelf(g, s);
    hide SameOffTrail, Reach;
    forall a, b | a in closed && Edge(h, a, b)
      ensures b in closed
    {
      EdgeInside(y, r, s, a, b);
      SourceOffTrail(y, m, r, s);
      if a != s {
        ObjectOffTrail(y, r, a);
      }
      EdgeSame(y, m, r, a, b);
      ReachStep(g, s, a, b);
    }
    ReachClosed(h, s, x, n, closed);
  }

  lemma ReachIsMarked(y: Layout, m: Memory, r: Memory, s: int, x: int)
    requires StacksOk(y, r) && Closed(y, r) && SlotsClosed(y, r) && SameOffTrail(y, m, r) == true
    requires Source(y, r, s) && Marked(r, s) && Reach(HeapOf(y, m), s, x)
    ensures Marked(r, x)
  {
    var g := HeapOf(y, m);
    var n: nat :| ReachIn(g, s, x, n);
    var closed := iset a | (a == s || IsObject(y.objs, a)) && Marked(r, a);
    hide SameOffTrail, Reach;
    forall a, b | a in closed && Edge(g, a, b)
      ensures b in closed
    {
      SourceOffTrail(y, m, r, s);
      if a != s {
        ObjectOffTrail(y, r, a);
      }
      EdgeSame(y, m, r, a, b);
      EdgeInside(y, r, s, a, b);
      MarkedEdge(y, r, s, a, b);
    }
    ReachClosed(g, s, x, n, closed);
  }

  /** The marks of a stage, as visibility from its roots. */
  ghost predicate MarksAre(y: Layout, r: Memory, m: Memory, roots: iset<int>)
    requires |y.objs| >= 2
  {
    forall a {:trigger Marked(r, a)} {:trigger Visible(y, m, roots, a)} ::
      (Visible(y, m, roots, a) ==> Marked(r, a)) && (Marked(r, a) && !Unused(y, a) ==> Visible(y, m, roots, a))
  }

  ghost predicate SavedMarks(y: Layout, r: Memory) {
    forall s {:trigger s in y.saved} :: s in y.saved ==> Marked(r, s)
  }

  lemma MarkedVisible(y: Layout, r: Memory, m: Memory, roots: iset<int>, a: int)
    requires |y.objs| >= 2 && Live(y, r) && SameOffTrail(y, m, r) == true && Marked(r, a) && !Unused(y, a)
    requires forall x {:trigger Slot(y, x)} :: Slot(y, x) ==> (Marked(r, x) <==> x in roots)
    ensures Visible(y, m, roots, a)
  {
    if IsObject(y.objs, a) {
      assert Reached(y, r, a);
      var s :| Source(y, r, s) && Marked(r, s) && Reach(HeapOf(y, r), s, a);
      hide Reach, Closed, SlotsClosed, Rooted;
      SourceOffTrail(y, m, r, s);
      ReachMoves(y, m, r, s, a);
    } else {
      assert Slot(y, a);
    }
  }

  lemma VisibleMarked(y: Layout, r: Memory, m: Memory, roots: iset<int>, a: int)
    requires |y.objs| >= 2 && Live(y, r) && SameOffTrail(y, m, r) == true && Visible(y, m, roots, a) && SavedMarks(y, r)
    requires forall x {:trigger Slot(y, x)} :: Slot(y, x) ==> (Marked(r, x) <==> x in roots)
    requires forall x :: x in roots ==> Slot(y, x)
    ensures Marked(r, a)
  {
    if a !in roots {
      var s :| Source(y, m, s) && (s in roots || s in y.saved) && Reach(HeapOf(y, m), s, a);
      hide Reach, Closed, SlotsClosed, Rooted;
      SourceOffTrail(y, m, r, s);
      ReachIsMarked(y, m, r, s, a);
    }
  }

  lemma VisibleMarks(y: Layout, r: Memory, m: Memory, roots: iset<int>)
    requires |y.objs| >= 2 && Live(y, r) == true && SameOffTrail(y, m, r) == true && SavedMarks(y, r) == true
    requires forall x {:trigger Slot(y, x)} :: Slot(y, x) ==> (Marked(r, x) <==> x in roots)
    requires forall x :: x in roots ==> Slot(y, x)
    ensures MarksAre(y, r, m, roots) == true
  {
    hide Visible, Live, Marked, Slot, SavedMarks;
    forall a {:trigger Marked(r, a)} {:trigger Visible(y, m, roots, a)}
      ensures (Visible(y, m, roots, a) ==> Marked(r, a)) && (Marked(r, a) && !Unused(y, a) ==> Visible(y, m, roots, a))
    {
      if Marked(r, a) && !Unused(y, a) {
        MarkedVisible(y, r, m, roots, a);
      }
      if Visible(y, m, roots, a) {
        VisibleMarked(y, r, m, roots, a);
      }
    }
  }

  // ---------- early reset

  /** The trail entries that the scan for choice point j covers. */
  ghost predicate InSegment(y: Layout, l0: Memory, j: int, e: int)
    requires 0 <= j < |y.trailTops|
  {
    TrailTop(y, l0, j) <= e < if j == 0 then y.tTop else TrailTop(y, l0, j - 1)
  }

  /** Early reset for choice point j resets a: a younger goal has bound it, and nothing that runs
      before the machine backtracks to j can see it. */
  ghost predicate ResetAt(y: Layout, l0: Memory, m: Memory, j: int, a: int)
    requires |y.objs| >= 2 && 0 <= j < |y.choices| && j < |y.trailTops|
  {
    exists e {:trigger Records(l0, e, a)} ::
      InSegment(y, l0, j, e) && Records(l0, e, a) && a < y.choices[j].top && !Visible(y, m, QueryRoots(y, j), a)
  }

  /** Memory when the first j choice points are done, but for the trail. */
  ghost function ResetMemory(y: Layout, l0: Memory, j: int): (m: Memory)
    requires |y.objs| >= 2 && 0 <= j <= |y.choices| <= |y.trailTops|
    ensures |m| == |l0|
    decreases j
  {
    if j == 0 then l0
    else
      var m := ResetMemory(y, l0, j - 1);
      seq(|l0|, a requires 0 <= a < |l0| => if ResetAt(y, l0, m, j - 1, a) then Zero else m[a])
  }

  lemma ResetCell(y: Layout, l0: Memory, j: int, a: int)
    requires |y.objs| >= 2 && 0 <= j < |y.choices| <= |y.trailTops| && 0 <= a < |l0|
    ensures var m := ResetMemory(y, l0, j);
            ResetMemory(y, l0, j + 1)[a].word == if ResetAt(y, l0, m, j, a) then Var else m[a].word
  {
  }

  /** The bounds of the scan for choice point j. */
  ghost predicate Bounds(y: Layout, l0: Memory, j: int, lo: int, hi: int)
    requires 0 <= j < |y.trailTops|
  {
    lo == TrailTop(y, l0, j) && hi == (if j == 0 then y.tTop else TrailTop(y, l0, j - 1)) - 1
  }

  /** The trail records cells of the stacks only. */
  lemma RecordedUsed(y: Layout, l: Memory, e: int, a: int)
    requires StacksOk(y, l) && OnTrail(y, e) && Records(l, e, a)
    ensures !Unused(y, a) && (Slot(y, a) || IsObject(y.objs, a) || !Marked(l, a))
  {
    assert EntryOk(y, l, e);
    if IsObject(y.objs, a) {
      Increasing(l, y.objs, Index(y.objs, a), |y.objs| - 1);
    }
  }

  lemma ScanResets(y: Layout, l0: Memory, m: Memory, j: int, l: Memory, lo: int, hi: int, a: int)
    requires |y.objs| >= 2 && 0 <= j < |y.choices| && j < |y.trailTops| && Bounds(y, l0, j, lo, hi) && |l| == |l0|
    requires forall e {:trigger l[e]} :: lo <= e <= hi && 0 <= e < |l| ==> l[e].word == l0[e].word
    requires MarksAre(y, l, m, QueryRoots(y, j)) && 0 <= lo && y.tBase <= lo && hi <= y.tTop && StacksOk(y, l)
    ensures ResetBy(l, lo, hi, y.choices[j].top, a) <==> ResetAt(y, l0, m, j, a)
  {
    hide Visible, StacksOk;
    if ResetBy(l, lo, hi, y.choices[j].top, a) {
      var e :| lo <= e <= hi && Resets(l, y.choices[j].top, e, a);
      RecordedUsed(y, l, e, a);
      assert Records(l0, e, a) && InSegment(y, l0, j, e);
    }
    if ResetAt(y, l0, m, j, a) {
      var e :| InSegment(y, l0, j, e) && Records(l0, e, a) && a < y.choices[j].top && !Visible(y, m, QueryRoots(y, j), a);
      RecordedUsed(y, l, e, a);
      assert Resets(l, y.choices[j].top, e, a);
    }
  }

  lemma StageMatches(y: Layout, l0: Memory, j: int, st: Stage, after: Memory, te: int)
    requires |y.objs| >= 2 && 0 <= j < |y.choices| <= |y.trailTops|
    requires Staged(y, st, after, te, y.choices[j].top) && SameOffTrail(y, ResetMemory(y, l0, j), st.start)
    requires Bounds(y, l0, j, te + 1, st.te) && 0 <= te + 1
    requires forall e {:trigger st.start[e]} :: te < e <= st.te && 0 <= e < |l0| ==> st.start[e].word == l0[e].word
    requires MarksAre(y, st.before, ResetMemory(y, l0, j), QueryRoots(y, j)) == true
    requires Live(y, st.before) == true && st.te <= y.tTop
    ensures SameOffTrail(y, ResetMemory(y, l0, j + 1), after) == true
  {
    StageWords(y, st, after, te, y.choices[j].top);
    LiveParts(y, st.before);
    var m, now := ResetMemory(y, l0, j), ResetMemory(y, l0, j + 1);
    hide ResetMemory, MarksAre, ResetAt, ResetBy, QueryRoots;
    forall e {:trigger st.before[e]} | te + 1 <= e <= st.te && 0 <= e < |st.before|
      ensures st.before[e].word == l0[e].word
    {
      assert st.before[e].word == st.start[e].word;
    }
    forall a {:trigger after[a]} | 0 <= a < |after| && !OnTrail(y, a)
      ensures now[a].word == after[a].word
    {
      ResetCell(y, l0, j, a);
      ScanResets(y, l0, m, j, st.before, te + 1, st.te, a);
      assert st.scanned[a] == ScannedCell(y, st.before, te + 1, st.te, y.choices[j].top, a);
      assert st.before[a].word == st.start[a].word == m[a].word;
    }
  }

  lemma SavedStayMarked(y: Layout, p: Memory, r: Memory)
    requires SavedMarks(y, p) && Emptied(y, p, r) && StacksOk(y, p)
    ensures SavedMarks(y, r) == true
  {
    forall s {:trigger s in y.saved} | s in y.saved
      ensures Marked(r, s)
    {
      ObjectBelow(y, p, s);
    }
  }

  lemma {:induction false} BeforeMarks(y: Layout, l0: Memory, p: Memory, n: int, st: Stage)
    requires |y.objs| >= 2 && 0 <= n < |y.choices| <= |y.trailTops| && Origin(y, p) == true && SavedMarks(y, p) == true
    requires Emptied(y, p, st.start) == true && MarkedMore(y, st.start, st.before) == true && Live(y, st.before) == true
    requires SameOffTrail(y, ResetMemory(y, l0, n), st.start) == true && QueryMarked(y, st.before, n) == true
    ensures MarksAre(y, st.before, ResetMemory(y, l0, n), QueryRoots(y, n)) == true
  {
    StacksOf(y, p);
    SavedStayMarked(y, p, st.start);
    SavedMore(y, st.start, st.before);
    hide Live, ResetMemory, Origin, Emptied, Passed;
    VisibleMarks(y, st.before, ResetMemory(y, l0, n), QueryRoots(y, n));
  }

  lemma StacksOf(y: Layout, p: Memory)
    requires Origin(y, p) == true
    ensures StacksOk(y, p) == true
  {
  }

  lemma SavedMore(y: Layout, l: Memory, k: Memory)
    requires |y.objs| >= 2 && SavedMarks(y, l) && MarkedMore(y, l, k)
    ensures SavedMarks(y, k) == true
  {
  }

  lemma StageLive(y: Layout, n: int, st: Stage, l: Memory, te: int)
    requires |y.objs| >= 2 && 0 <= n < |y.choices| && n < |y.trailTops| && HasStage(y, n, st, l, te)
    ensures Live(y, st.before) == true && Live(y, l) == true && MarkedMore(y, st.start, st.before) == true
  {
  }

  /** The stages of a collection are what visibility says. */
  lemma {:induction false} HistoryMatches(y: Layout, l0: Memory, p: Memory, hs: seq<Stage>, l: Memory, te: int)
    requires |y.objs| >= 2 && |hs| <= |y.choices| <= |y.trailTops| && History(y, p, hs, l, te) == true && Origin(y, p) == true
    requires SlotsAre(y, p, 0) == true && SameWords(l0, p) == true && Older(y, p) == true && SavedMarks(y, p) == true
    ensures SameOffTrail(y, ResetMemory(y, l0, |hs|), l) == true
    ensures |hs| > 0 ==> MarksAre(y, l, ResetMemory(y, l0, |hs|), FrameRoots(y, |hs|)) == true
    ensures |hs| > 0 ==> MarksAre(y, hs[|hs| - 1].before, ResetMemory(y, l0, |hs| - 1), QueryRoots(y, |hs| - 1)) == true
    decreases |hs|
  {
    hide History, HasStage, Origin, Emptied, StillThere, Live, Staged, Older, ResetMemory, MarksAre, SameOffTrail, SlotsAre, QueryMarked, SavedMarks;
    if hs == [] {
      NoHistory(y, p, l, te);
      NothingReset(y, l0, p);
    } else {
      var n := |hs| - 1;
      var st := hs[n];
      HistoryParts(y, p, hs, l, te);
      HistoryMatches(y, l0, p, hs[..n], st.start, st.te);
      HistorySlots(y, p, hs, l, te);
      HistoryStays(y, p, hs[..n], st.start, st.te);
      ThereBounds(y, p, st.start, st.te);
      HistoryStays(y, p, hs, l, te);
      ThereBounds(y, p, l, te);
      StageIsStaged(y, n, st, l, te);
      StageLive(y, n, st, l, te);
      BeforeMarks(y, l0, p, n, st);
      SegmentIs(y, l0, p, hs, l, te);
      UntouchedWords(y, l0, p, st.start, st.te);
      StageMatches(y, l0, n, st, l, te);
      AfterMarks(y, l0, p, n + 1, l);
    }
  }

  lemma NothingReset(y: Layout, l0: Memory, p: Memory)
    requires |y.objs| >= 2 && |y.choices| <= |y.trailTops| && SameWords(l0, p) == true
    ensures SameOffTrail(y, ResetMemory(y, l0, 0), p) == true
  {
  }

  lemma UntouchedWords(y: Layout, l0: Memory, p: Memory, r: Memory, te: int)
    requires StillThere(y, p, r, te) == true && SameWords(l0, p) == true
    ensures forall e {:trigger r[e]} :: y.tBase <= e <= te && 0 <= e < |l0| ==> r[e].word == l0[e].word
  {
  }

  lemma {:induction false} AfterMarks(y: Layout, l0: Memory, p: Memory, n: int, l: Memory)
    requires |y.objs| >= 2 && 0 <= n <= |y.choices| <= |y.trailTops| && Origin(y, p) == true && SavedMarks(y, p) == true
    requires Emptied(y, p, l) == true && Live(y, l) == true && SameOffTrail(y, ResetMemory(y, l0, n), l) == true && SlotsAre(y, l, n) == true
    ensures MarksAre(y, l, ResetMemory(y, l0, n), FrameRoots(y, n)) == true
  {
    StacksOf(y, p);
    SavedStayMarked(y, p, l);
    hide Live, ResetMemory, Origin, Emptied, Passed;
    VisibleMarks(y, l, ResetMemory(y, l0, n), FrameRoots(y, n));
  }

  lemma TrailTopWords(y: Layout, l0: Memory, p: Memory, j: int)
    requires SameWords(l0, p) && 0 <= j < |y.trailTops|
    ensures TrailTop(y, l0, j) == TrailTop(y, p, j)
  {
  }

  lemma OlderWords(y: Layout, l0: Memory, p: Memory)
    requires Older(y, l0) && SameWords(l0, p) == true
    ensures Older(y, p)
  {
    forall i, j {:trigger y.choices[i], y.choices[j]} | 0 <= i < j < |y.choices|
      ensures y.choices[j].top <= y.choices[i].top && TrailTop(y, p, j) <= TrailTop(y, p, i)
    {
      TrailTopWords(y, l0, p, i);
      TrailTopWords(y, l0, p, j);
    }
  }

  lemma {:induction false} SegmentIs(y: Layout, l0: Memory, p: Memory, hs: seq<Stage>, l: Memory, te: int)
    requires |y.objs| >= 2 && 0 < |hs| <= |y.choices| <= |y.trailTops| && History(y, p, hs, l, te) == true && Origin(y, p) == true
    requires SameWords(l0, p) == true && Older(y, p) == true
    ensures Bounds(y, l0, |hs| - 1, te + 1, hs[|hs| - 1].te)
  {
    hide History, Origin, Older;
    var n := |hs| - 1;
    TrailTopWords(y, l0, p, n);
    ScanReaches(y, p, hs, l, te);
    HistoryParts(y, p, hs, l, te);
    if n > 0 {
      TrailTopWords(y, l0, p, n - 1);
      ScanReaches(y, p, hs[..n], hs[n].start, hs[n].te);
    } else {
      assert hs[..n] == [];
      NoHistory(y, p, hs[n].start, hs[n].te);
    }
  }

  // ---------- assignments that early reset forgets

  /** After the collection, entry e is deleted. */
  lemma {:induction false} EntryFate(y: Layout, l0: Memory, p: Memory, hs: seq<Stage>, l: Memory, te: int, i: int, e: int, a: int)
    requires |y.objs| >= 2 && |hs| == |y.choices| <= |y.trailTops| && History(y, p, hs, l, te) == true && Origin(y, p) == true
    requires SlotsAre(y, p, 0) == true && SameWords(l0, p) == true && Older(y, p) == true && SavedMarks(y, p) == true
    requires 0 <= i < |hs| && InSegment(y, l0, i, e) && Records(l0, e, a) && a < y.choices[i].top
    ensures 0 <= e < |l| && (l[e].word == Var <==> !Visible(y, ResetMemory(y, l0, i), QueryRoots(y, i), a))
  {
    hide History, HasStage, Origin, Emptied, StillThere, Live, Staged, Older, ResetMemory, SameOffTrail, SlotsAre, SavedMarks, Visible;
    var r, rt, g := After(hs, l, i), ScannedTo(hs, te, i), hs[..i + 1];
    LaterStages(y, p, hs, l, te, i);
    Prefix(hs, i);
    HistoryMatches(y, l0, p, g, r, rt);
    SegmentIs(y, l0, p, g, r, rt);
    HistoryParts(y, p, g, r, rt);
    HistoryStays(y, p, g[..i], hs[i].start, hs[i].te);
    ThereBounds(y, p, hs[i].start, hs[i].te);
    HistoryStays(y, p, g, r, rt);
    ThereBounds(y, p, r, rt);
    StageIsStaged(y, i, hs[i], r, rt);
    UntouchedWords(y, l0, p, hs[i].start, hs[i].te);
    EntryUsed(y, hs[i], r, rt, y.choices[i].top, e, a);
    DroppedExactly(y, hs[i], r, rt, y.choices[i].top, e, a);
  }

  lemma Prefix(hs: seq<Stage>, i: int)
    requires 0 <= i < |hs|
    ensures |hs[..i + 1]| == i + 1 && hs[..i + 1][i] == hs[i]
  {
  }

  lemma EntryUsed(y: Layout, st: Stage, after: Memory, te: int, top: int, e: int, a: int)
    requires |y.objs| >= 2 && Staged(y, st, after, te, top) && OnTrail(y, e) && 0 <= e < |after| && Records(st.start, e, a) && Live(y, st.before)
    ensures !Unused(y, a)
  {
    StageWords(y, st, after, te, top);
    LiveParts(y, st.before);
    hide StacksOk;
    assert Records(st.before, e, a);
    RecordedUsed(y, st.before, e, a);
  }

  lemma DroppedExactly(y: Layout, st: Stage, after: Memory, te: int, top: int, e: int, a: int)
    requires |y.objs| >= 2 && Staged(y, st, after, te, top) && te < e <= st.te && e < y.tTop && 0 <= e < |after|
    requires Records(st.start, e, a) && a < top && |st.start| == |after|
    ensures after[e].word == Var <==> !Marked(st.before, a)
  {
    StageWords(y, st, after, te, top);
    assert st.scanned[e] == ScannedCell(y, st.before, te + 1, st.te, top, e);
    assert st.before[e].word == st.start[e].word;
  }

  /** The oldest assignment to cell a since choice point j is forgotten: it replaced something,
      and nothing that runs before the machine backtracks below it can see a. */
  ghost predicate WillLose(y: Layout, l0: Memory, j: int, a: int)
    requires |y.objs| >= 2 && 0 <= j < |y.choices| <= |y.trailTops|
  {
    exists e, i {:trigger Oldest(l0, TrailTop(y, l0, j), y.tTop, a, e), InSegment(y, l0, i, e)} ::
      && 0 <= i <= j && InSegment(y, l0, i, e) && Oldest(l0, TrailTop(y, l0, j), y.tTop, a, e) && Undone(l0, e, y.tTop) != Var
      && !Visible(y, ResetMemory(y, l0, i), QueryRoots(y, i), a)
  }

  lemma {:induction false} FindSegment(y: Layout, l0: Memory, j: int, e: int) returns (i: int)
    requires 0 <= j < |y.trailTops| && TrailTop(y, l0, j) <= e < y.tTop
    ensures 0 <= i <= j && InSegment(y, l0, i, e)
    decreases j
  {
    if j == 0 || e < TrailTop(y, l0, j - 1) {
      i := j;
    } else {
      i := FindSegment(y, l0, j - 1, e);
    }
  }

  /** What the collector forgets, told beforehand. */
  lemma {:induction false} LostExactly(y: Layout, l0: Memory, p: Memory, hs: seq<Stage>, l: Memory, te: int, j: int, a: int)
    requires |y.objs| >= 2 && |hs| == |y.choices| <= |y.trailTops| && History(y, p, hs, l, te) == true && Origin(y, p) == true
    requires SlotsAre(y, p, 0) == true && SameWords(l0, p) == true && Older(y, p) == true && SavedMarks(y, p) == true
    requires 0 <= j < |hs| && a < y.choices[j].top
    ensures AssignmentLost(l0, l, TrailTop(y, l0, j), y.tTop, a) <==> WillLose(y, l0, j, a)
  {
    hide History, Origin, Older, ResetMemory, SlotsAre, SavedMarks, Visible, InSegment;
    var lo, hi := TrailTop(y, l0, j), y.tTop;
    if AssignmentLost(l0, l, lo, hi, a) {
      var e :| Oldest(l0, lo, hi, a, e) && 0 <= e < |l| && l[e].word == Var && Undone(l0, e, hi) != Var;
      OldestIn(l0, lo, hi, a, e);
      var i := FindSegment(y, l0, j, e);
      TopsFall(y, p, i, j);
      EntryFate(y, l0, p, hs, l, te, i, e, a);
    }
    if WillLose(y, l0, j, a) {
      var e, i :| && 0 <= i <= j && InSegment(y, l0, i, e) && Oldest(l0, lo, hi, a, e) && Undone(l0, e, hi) != Var
                  && !Visible(y, ResetMemory(y, l0, i), QueryRoots(y, i), a);
      OldestIn(l0, lo, hi, a, e);
      TopsFall(y, p, i, j);
      EntryFate(y, l0, p, hs, l, te, i, e, a);
    }
  }

  lemma OldestIn(l0: Memory, lo: int, hi: int, a: int, e: int)
    requires Oldest(l0, lo, hi, a, e)
    ensures lo <= e < hi && Records(l0, e, a)
  {
  }

  lemma TopsFall(y: Layout, p: Memory, i: int, j: int)
    requires Older(y, p) == true && 0 <= i <= j < |y.choices|
    ensures y.choices[j].top <= y.choices[i].top
  {
    if i < j {
      OlderTops(y, p, i, j);
    }
  }
}
