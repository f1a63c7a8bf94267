/** Backtracking after a garbage collection finds the terms that it would have found without it:
    the trail that is left undoes the moved cells just as the whole trail undoes the others. */
module UndoAfter {
  import opened Words
  import opened GlobalStack
  import opened Terms
  import opened Stacks
  import opened MarkPhase
  import opened EarlyReset
  import opened GarbageCollection
  import opened Isomorphism
  import opened Backtracking
  import opened Preservation
  import opened Visibility
  import T = TrailCompaction
  import S = Sweep

  // ---------- the entries that are left record live cells

  ghost predicate LeftMarked(y: Layout, r: Memory, te: int) {
    forall e {:trigger r[e]} :: te < e < y.tTop && 0 <= e < |r| && r[e].word.Ptr? && r[e].word.tag == Address ==> Marked(r, r[e].word.addr)
  }

  lemma LeftEntryMarked(y: Layout, st: Stage, after: Memory, te: int, top: int, e: int)
    requires |y.objs| >= 2 && Staged(y, st, after, te, top) && StacksOk(y, st.before) && st.te < y.tTop && LeftMarked(y, st.start, st.te)
    requires te < e < y.tTop && 0 <= e < |after| && after[e].word.Ptr? && after[e].word.tag == Address && y.tBase <= te + 1
    ensures Marked(after, after[e].word.addr)
  {
    StageWords(y, st, after, te, top);
    var again := Stage(st.before, st.te, st.before, st.scanned);
    MoreSame(y, st.before);
    StageEmpties(y, again, after, te, top);
    assert after[e].word == st.scanned[e].word == st.before[e].word == st.start[e].word by {
      assert st.scanned[e] == ScannedCell(y, st.before, te + 1, st.te, top, e);
      assert st.before[e].word == st.start[e].word;
    }
    var b := after[e].word.addr;
    EntryKind(y, st.before, e);
    if e <= st.te {
      assert st.scanned[e] == ScannedCell(y, st.before, te + 1, st.te, top, e);
      assert !Dropped(st.before, te + 1, st.te, top, e);
      assert Marked(st.before, b);
    } else {
      assert Marked(st.start, b);
    }
    assert st.before[b].mark;
  }

  lemma {:induction false} HistoryLeft(y: Layout, p: Memory, hs: seq<Stage>, l: Memory, te: int)
    requires |y.objs| >= 2 && |hs| <= |y.choices| && |hs| <= |y.trailTops| && History(y, p, hs, l, te) == true && Origin(y, p) == true
    ensures LeftMarked(y, l, te) == true
    decreases |hs|
  {
    hide History, HasStage, Origin, StillThere, Live, Staged, Emptied;
    if hs == [] {
      NoHistory(y, p, l, te);
    } else {
      var n := |hs| - 1;
      HistoryParts(y, p, hs, l, te);
      HistoryLeft(y, p, hs[..n], hs[n].start, hs[n].te);
      HistoryStays(y, p, hs[..n], hs[n].start, hs[n].te);
      ThereBounds(y, p, hs[n].start, hs[n].te);
      StageIsStaged(y, n, hs[n], l, te);
      LiveParts(y, hs[n].before);
      StageBound(y, hs[n], l, te, y.choices[n].top);
      hide StacksOk, LeftMarked;
      forall e {:trigger l[e]} | te < e < y.tTop && 0 <= e < |l| && l[e].word.Ptr? && l[e].word.tag == Address
        ensures Marked(l, l[e].word.addr)
      {
        LeftEntryMarked(y, hs[n], l, te, y.choices[n].top, e);
      }
      AllLeft(y, l, te);
    }
  }

  lemma AllLeft(y: Layout, r: Memory, te: int)
    requires forall e {:trigger r[e]} :: te < e < y.tTop && 0 <= e < |r| && r[e].word.Ptr? && r[e].word.tag == Address ==> Marked(r, r[e].word.addr)
    ensures LeftMarked(y, r, te) == true
  {
  }

  lemma StageBound(y: Layout, st: Stage, after: Memory, te: int, top: int)
    requires |y.objs| >= 2 && Staged(y, st, after, te, top)
    ensures y.tBase <= te + 1
  {
  }

  // ---------- undoing the trail that is left

  /** What the next entry that is left says about entry e. */
  lemma NextLeft(y: Layout, l: Memory, m: Memory, e: int)
    requires Live(y, l) == true && Collected(y, l, m) == true && y.tBase <= e < y.tTop && 0 <= e < |l| && l[e].word != Var
    ensures 0 <= T.NewEntry(y, l, e) < |m| == |l| && T.NewEntry(y, l, e + 1) == T.NewEntry(y, l, e) + 1
    ensures m[T.NewEntry(y, l, e)].word == Renamed(y, l, l[e].word)
  {
  }

  /** The old values on the trail are live. */
  ghost predicate SavedLive(y: Layout, l: Memory) {
    forall e {:trigger l[e]} :: y.tBase <= e < y.tTop && 0 <= e < |l| && IsSavedValue(l[e].word) ==>
      Marked(l, l[e].word.addr) && IsObject(y.objs, l[e].word.addr)
  }

  lemma TrailRegion(y: Layout, l: Memory)
    requires Live(y, l) == true
    ensures 0 <= y.tBase <= y.tTop < |l|
  {
  }

  /** An old value that is left follows its address. */
  lemma LeftPair(y: Layout, l: Memory, e: int)
    requires Live(y, l) == true && y.tBase <= e < y.tTop && 0 <= e < |l| && IsSavedValue(l[e].word)
    ensures y.tBase <= e - 1 && 0 <= e - 1 && l[e - 1].word != Var
  {
    assert EntryOk(y, l, e);
  }

  lemma {:induction false} NotFollowed(y: Layout, l: Memory, m: Memory, e: int)
    requires Live(y, l) == true && Collected(y, l, m) == true && y.tBase <= e < y.tTop && 0 <= e < |l| - 1 && l[e].word != Var
    requires e + 1 < y.tTop ==> !IsSavedValue(l[e + 1].word)
    requires T.NewEntry(y, l, e) + 1 < T.NewEntry(y, l, y.tTop)
    ensures 0 <= T.NewEntry(y, l, e) + 1 < |m| && !IsSavedValue(m[T.NewEntry(y, l, e) + 1].word)
  {
    hide Live, Collected, T.NewEntry;
    TrailRegion(y, l);
    NextLeft(y, l, m, e);
    NewEntryLow(y, l, e);
    var i := S.EntrySource(y, l, y.tTop, T.NewEntry(y, l, e) + 1);
    NextLeft(y, l, m, i);
    SameTag(y, l, l[i].word);
    if IsSavedValue(l[i].word) {
      LeftPair(y, l, i);
      NextLeft(y, l, m, i - 1);
      if i - 1 < e {
        EntryOrder(y, l, i - 1, e);
      } else if e < i - 1 {
        EntryOrder(y, l, e, i - 1);
      }
    }
  }

  lemma NewEntryLow(y: Layout, l: Memory, e: int)
    ensures y.tBase <= T.NewEntry(y, l, e)
  {
  }

  lemma EntryOrder(y: Layout, l: Memory, e: int, i: int)
    requires y.tBase <= e < i && 0 <= e < |l| && l[e].word != Var
    ensures T.NewEntry(y, l, e) < T.NewEntry(y, l, i)
  {
    T.KeptMonotone(l, y.tBase, e, i);
  }

  lemma SameTag(y: Layout, l: Memory, w: Word)
    ensures IsSavedValue(Renamed(y, l, w)) <==> IsSavedValue(w)
  {
  }

  /** The value an entry restores moved along. */
  lemma {:induction false} UndoneHome(y: Layout, l: Memory, m: Memory, e: int)
    requires Live(y, l) == true && Collected(y, l, m) == true && SavedLive(y, l) && y.tBase <= e < y.tTop && 0 <= e < |l| && l[e].word != Var
    ensures 0 <= T.NewEntry(y, l, e) < |m|
    ensures Undone(m, T.NewEntry(y, l, e), T.NewEntry(y, l, y.tTop)) == Renamed(y, l, Undone(l, e, y.tTop))
  {
    hide Live, Collected, T.NewEntry, Kept, Renamed, Place;
    TrailRegion(y, l);
    NextLeft(y, l, m, e);
    NotRenamed(y, l, Var);
    var d, hi := T.NewEntry(y, l, e), T.NewEntry(y, l, y.tTop);
    if e + 1 < y.tTop && IsSavedValue(l[e + 1].word) {
      SavedTag(l[e + 1].word);
      NextLeft(y, l, m, e + 1);
      EntryOrder(y, l, e + 1, y.tTop);
      SavedHome(y, l, m, e + 1);
    } else if d + 1 < hi {
      NotFollowed(y, l, m, e);
    }
  }

  lemma SavedHome(y: Layout, l: Memory, m: Memory, e: int)
    requires Live(y, l) == true && Collected(y, l, m) == true && SavedLive(y, l) && y.tBase <= e < y.tTop && 0 <= e < |l| && IsSavedValue(l[e].word)
    ensures var a := l[e].word.addr; var w := Renamed(y, l, l[e].word);
            && a < |l| == |m| && IsSavedValue(w) && w.addr < |m| && m[w.addr].word == Renamed(y, l, l[a].word)
  {
    var a := l[e].word.addr;
    ObjectIndex(y, l, a);
    ArgumentPlace(y, l, a);
    CellKept(y, l, m, a);
  }

  /** The entry at e records a live cell, and afterwards its new place. */
  lemma RecordsHome(y: Layout, l: Memory, m: Memory, e: int, x: int)
    requires Live(y, l) == true && Collected(y, l, m) == true && y.tBase <= e < y.tTop && 0 <= e < |l| && l[e].word != Var
    requires l[e].word.Ptr? && l[e].word.tag == Address ==> Kept(y, l, l[e].word.addr)
    requires Kept(y, l, x)
    ensures Records(m, T.NewEntry(y, l, e), Place(y, l, x)) <==> Records(l, e, x)
  {
    hide Live, Collected, T.NewEntry;
    NextLeft(y, l, m, e);
    if l[e].word.Ptr? && l[e].word.tag == Address {
      var b := l[e].word.addr;
      KeptPlace(y, l, b);
      if b < x {
        PlaceOrder(y, l, b, x);
      } else if x < b {
        PlaceOrder(y, l, x, b);
      }
    }
  }

  lemma EntrySkipped(y: Layout, l: Memory, e: int)
    requires y.tBase <= e && 0 <= e < |l| && l[e].word == Var
    ensures T.NewEntry(y, l, e + 1) == T.NewEntry(y, l, e)
  {
  }

  lemma EntryLimit(y: Layout, l: Memory, lo: int)
    requires y.tBase <= lo <= y.tTop
    ensures T.NewEntry(y, l, lo) <= T.NewEntry(y, l, y.tTop)
  {
    T.KeptMonotone(l, y.tBase, lo, y.tTop);
  }

  ghost predicate AllKept(y: Layout, l: Memory, lo: int) {
    forall e {:trigger l[e]} :: lo <= e < y.tTop && 0 <= e < |l| && l[e].word.Ptr? && l[e].word.tag == Address ==> Kept(y, l, l[e].word.addr)
  }

  /** Undoing the trail that is left sets a cell, at its new place, to what undoing the whole
      trail sets it to. */
  lemma {:induction false} UndoHome(y: Layout, l: Memory, m: Memory, lo: int, x: int)
    requires Live(y, l) == true && Collected(y, l, m) == true && SavedLive(y, l) == true && AllKept(y, l, lo) == true
    requires y.tBase <= lo <= y.tTop && Kept(y, l, x) == true && 0 <= x < |l| && 0 <= Place(y, l, x) < |m|
    ensures Undo(m, T.NewEntry(y, l, lo), T.NewEntry(y, l, y.tTop), Place(y, l, x)) == Renamed(y, l, Undo(l, lo, y.tTop, x))
    decreases y.tTop - lo
  {
    hide Live, Collected, T.NewEntry, Kept, Place, Renamed, SavedLive, AllKept, Records, Undone;
    TrailRegion(y, l);
    CellKept(y, l, m, x);
    if lo < y.tTop {
      KeptLower(y, l, lo);
      if l[lo].word == Var {
        EntrySkipped(y, l, lo);
        NoRecord(l, lo, x);
        UndoHome(y, l, m, lo + 1, x);
      } else {
        NextLeft(y, l, m, lo);
        EntryLimit(y, l, lo + 1);
        RecordsHome(y, l, m, lo, x);
        if Records(l, lo, x) {
          UndoneHome(y, l, m, lo);
        } else {
          UndoHome(y, l, m, lo + 1, x);
        }
      }
    }
  }

  lemma KeptLower(y: Layout, l: Memory, lo: int)
    requires AllKept(y, l, lo) == true && lo < y.tTop
    ensures AllKept(y, l, lo + 1) == true
    ensures 0 <= lo < |l| && l[lo].word.Ptr? && l[lo].word.tag == Address ==> Kept(y, l, l[lo].word.addr)
  {
  }

  lemma NoRecord(l: Memory, e: int, x: int)
    requires 0 <= e < |l| && l[e].word == Var
    ensures !Records(l, e, x)
  {
  }

  // ---------- what backtracking brings back

  /** Everything that is known when choice point j is taken after the collection: r is memory
      when its frames had been marked, u0 and um are memory after backtracking without and with
      the collection. */
  ghost predicate Taken(y: Layout, l0: Memory, p: Memory, hs: seq<Stage>, te: int, l: Memory, m: Memory, j: int, u0: Memory, um: Memory) {
    && |y.objs| >= 2 && |hs| == |y.choices| <= |y.trailTops| && 0 <= j < |hs| && TopsLocal(y)
    && Origin(y, p) && SameWords(l0, p) && History(y, p, hs, l, te) && Older(y, p)
    && Live(y, l) && Collected(y, l, m) && Live(y, After(hs, l, j))
    && PartlyUndone(l0, u0, TrailTop(y, p, j), y.tTop)
    && PartlyUndone(m, um, T.NewEntry(y, l, TrailTop(y, p, j)), T.NewEntry(y, l, y.tTop))
  }

  /** No variable that choice point j can see has lost the assignment that backtracking would
      undo. */
  ghost predicate NothingLost(y: Layout, p: Memory, r: Memory, l: Memory, tm: int, top: int) {
    forall x {:trigger Marked(r, x)} :: Marked(r, x) && x < top && !OnTrail(y, x) ==> !AssignmentLost(p, l, tm, y.tTop, x)
  }

  /** References between variables of frames lead down the local stack. */
  ghost predicate LocalDown(y: Layout, r: Memory, top: int)
    requires |y.objs| >= 2
  {
    forall a {:trigger Slot(y, a)} :: Slot(y, a) && a < top && 0 <= a < |r| && Marked(r, a) && r[a].word.Ptr? && r[a].word.addr > GTop(y) ==>
      r[a].word.addr < top
  }

  ghost function Seen(y: Layout, r: Memory, top: int): (s: iset<int>)
    ensures forall x {:trigger x in s} :: x in s <==> Kept(y, r, x) && Marked(r, x) && x < top
  {
    iset x | Kept(y, r, x) && Marked(r, x) && x < top
  }

  /** The facts about the stage of choice point j. */
  ghost predicate AtStage(y: Layout, p: Memory, r: Memory, l: Memory, tm: int) {
    && Emptied(y, p, r) && Emptied(y, r, l) && Live(y, r) && Live(y, l) && AllKept(y, l, tm) && SavedLive(y, l)
    && y.tBase <= tm <= y.tTop && Origin(y, p)
  }

  lemma TakenStage(y: Layout, l0: Memory, p: Memory, hs: seq<Stage>, te: int, l: Memory, m: Memory, j: int, u0: Memory, um: Memory)
    requires Taken(y, l0, p, hs, te, l, m, j, u0, um) == true
    ensures 0 <= j < |hs| && j < |y.trailTops| && AtStage(y, p, After(hs, l, j), l, TrailTop(y, p, j)) == true
  {
    hide *;
    TakenParts(y, l0, p, hs, te, l, m, j, u0, um);
    var r, rt := After(hs, l, j), ScannedTo(hs, te, j);
    LaterStages(y, p, hs, l, te, j);
    HistoryStays(y, p, hs[..j + 1], r, rt);
    ScanReaches(y, p, hs[..j + 1], r, rt);
    HistoryStays(y, p, hs, l, te);
    HistoryLeft(y, p, hs, l, te);
    TopInside(y, p, j);
    KeptEntries(y, l, te, TrailTop(y, p, j));
    SavedStillLive(y, p, l);
    StageKnown(y, p, r, l, TrailTop(y, p, j));
  }

  lemma {:induction false} TakenParts(y: Layout, l0: Memory, p: Memory, hs: seq<Stage>, te: int, l: Memory, m: Memory, j: int, u0: Memory, um: Memory)
    requires Taken(y, l0, p, hs, te, l, m, j, u0, um) == true
    ensures |y.objs| >= 2 && |hs| == |y.choices| <= |y.trailTops| && 0 <= j < |hs| && Origin(y, p) == true && SameWords(l0, p) == true
    ensures History(y, p, hs, l, te) == true && Older(y, p) == true && Live(y, l) == true && Collected(y, l, m) == true
    ensures Live(y, After(hs, l, j)) == true && y.choices[j].top >= y.lBase
    ensures PartlyUndone(l0, u0, TrailTop(y, p, j), y.tTop) == true
    ensures PartlyUndone(m, um, T.NewEntry(y, l, TrailTop(y, p, j)), T.NewEntry(y, l, y.tTop)) == true
    ensures |hs[..j + 1]| == j + 1
  {
  }

  lemma StageKnown(y: Layout, p: Memory, r: Memory, l: Memory, tm: int)
    requires Emptied(y, p, r) == true && Emptied(y, r, l) == true && Live(y, r) == true && Live(y, l) == true
    requires AllKept(y, l, tm) == true && SavedLive(y, l) == true && y.tBase <= tm <= y.tTop && Origin(y, p) == true
    ensures AtStage(y, p, r, l, tm) == true
  {
  }

  lemma KeptEntries(y: Layout, l: Memory, te: int, lo: int)
    requires Live(y, l) == true && LeftMarked(y, l, te) == true && te < lo && y.tBase <= lo
    ensures AllKept(y, l, lo) == true
  {
    forall e {:trigger l[e]} | lo <= e < y.tTop && 0 <= e < |l| && l[e].word.Ptr? && l[e].word.tag == Address
      ensures Kept(y, l, l[e].word.addr)
    {
      assert Marked(l, l[e].word.addr);
      RecordedUsed(y, l, e, l[e].word.addr);
    }
  }

  lemma SavedStillLive(y: Layout, p: Memory, l: Memory)
    requires Origin(y, p) == true && Emptied(y, p, l) == true
    ensures SavedLive(y, l) == true
  {
    forall e {:trigger l[e]} | y.tBase <= e < y.tTop && 0 <= e < |l| && IsSavedValue(l[e].word)
      ensures Marked(l, l[e].word.addr) && IsObject(y.objs, l[e].word.addr)
    {
      assert l[e].word == p[e].word;
      SavedSource(y, p, e);
      SavedObject(y, p, e);
    }
  }

  lemma SavedObject(y: Layout, p: Memory, e: int)
    requires Origin(y, p) == true && y.tBase <= e < y.tTop && 0 <= e < |p| && IsSavedValue(p[e].word)
    ensures IsObject(y.objs, p[e].word.addr) && Marked(p, p[e].word.addr) && !OnTrail(y, p[e].word.addr)
  {
    assert OnTrail(y, e) && EntryOk(y, p, e);
    ObjectBelow(y, p, p[e].word.addr);
  }

  lemma {:induction false} UndoCases(l: Memory, lo: int, hi: int, x: int)
    requires 0 <= x < |l| && 0 <= lo && hi <= |l|
    ensures || Undo(l, lo, hi, x) == l[x].word || Undo(l, lo, hi, x) == Var
            || exists e {:trigger l[e]} :: lo < e < hi && IsSavedValue(l[e].word) && l[e].word.addr < |l| && Undo(l, lo, hi, x) == l[l[e].word.addr].word
    decreases hi - lo
  {
    if lo < hi {
      if Records(l, lo, x) {
        assert Undo(l, lo, hi, x) == Undone(l, lo, hi);
        if lo + 1 < hi {
          var w := l[lo + 1].word;
        }
      } else {
        UndoCases(l, lo + 1, hi, x);
      }
    }
  }

  lemma RecordedVar(y: Layout, l: Memory, e: int, x: int)
    requires Live(y, l) == true && y.tBase <= e < y.tTop
    ensures Records(l, e, x) ==> x >= y.lBase || (IsObject(y.objs, x) && 0 <= x < |l| && IsValue(l[x].word))
  {
    assert OnTrail(y, e) && EntryOk(y, l, e);
  }

  /** A cell that no entry can record keeps its word. */
  lemma {:induction false} NotRecorded(y: Layout, l: Memory, lo: int, x: int)
    requires Live(y, l) == true && y.tBase <= lo && 0 <= x < y.lBase && x < |l| && (IsObject(y.objs, x) ==> !IsValue(l[x].word))
    ensures Undo(l, lo, y.tTop, x) == l[x].word
  {
    forall e {:trigger Records(l, e, x)} | lo <= e < y.tTop
      ensures !Records(l, e, x)
    {
      RecordedVar(y, l, e, x);
    }
    hide Live;
    UndoNone(l, lo, y.tTop, x);
  }

  /** What a visible cell holds after backtracking, without and with the collection. */
  lemma {:induction false} ValueAgrees(y: Layout, l0: Memory, p: Memory, hs: seq<Stage>, te: int, l: Memory, m: Memory, j: int, u0: Memory, um: Memory, x: int)
    requires Taken(y, l0, p, hs, te, l, m, j, u0, um) == true
    requires NothingLost(y, p, After(hs, l, j), l, TrailTop(y, p, j), y.choices[j].top) == true
    requires x in Seen(y, After(hs, l, j), y.choices[j].top)
    ensures 0 <= x < |l| == |u0| == |um| && 0 <= Place(y, l, x) < |um| && Kept(y, l, x) && Marked(l, x)
    ensures u0[x].word == Undo(l, TrailTop(y, p, j), y.tTop, x)
    ensures um[Place(y, l, x)].word == Renamed(y, l, u0[x].word)
  {
    TakenParts(y, l0, p, hs, te, l, m, j, u0, um);
    TakenStage(y, l0, p, hs, te, l, m, j, u0, um);
    var r, tm := After(hs, l, j), TrailTop(y, p, j);
    StageParts(y, p, r, l, tm);
    assert Kept(y, r, x) && Marked(r, x) && x < y.choices[j].top;
    NotLost(y, p, r, l, tm, y.choices[j].top, x);
    hide *;
    StillKept(y, r, l, x);
    UndoneAlike(y, p, hs, te, l, j, x);
    UndoWords(l0, p, tm, y.tTop, x);
    UndoneAt(l0, u0, tm, y.tTop, x);
    SameSize(l0, p);
    CellKept(y, l, m, x);
    UndoHome(y, l, m, tm, x);
    UndoneAt(m, um, T.NewEntry(y, l, tm), T.NewEntry(y, l, y.tTop), Place(y, l, x));
  }

  lemma NotLost(y: Layout, p: Memory, r: Memory, l: Memory, tm: int, top: int, x: int)
    requires NothingLost(y, p, r, l, tm, top) && Marked(r, x) && x < top
    ensures !OnTrail(y, x) ==> !AssignmentLost(p, l, tm, y.tTop, x)
  {
  }

  lemma SameSize(p: Memory, q: Memory)
    requires SameWords(p, q) == true
    ensures |p| == |q|
  {
  }

  lemma {:induction false} UndoneAt(l: Memory, n: Memory, lo: int, hi: int, a: int)
    requires PartlyUndone(l, n, lo, hi) == true && 0 <= a < |l|
    ensures |n| == |l| && n[a].word == Undo(l, lo, hi, a)
  {
  }

  lemma StageParts(y: Layout, p: Memory, r: Memory, l: Memory, tm: int)
    requires AtStage(y, p, r, l, tm) == true
    ensures Emptied(y, p, r) == true && Emptied(y, r, l) == true && Live(y, r) == true && Live(y, l) == true
    ensures AllKept(y, l, tm) == true && SavedLive(y, l) == true && y.tBase <= tm <= y.tTop && Origin(y, p) == true
    ensures |p| == |r| == |l|
  {
  }

  /** A pointer that a visible cell holds after backtracking leads to a visible cell. */
  lemma {:induction false} ValueLeads(y: Layout, p: Memory, r: Memory, l: Memory, tm: int, top: int, x: int)
    requires AtStage(y, p, r, l, tm) == true && |y.objs| >= 2 && top >= y.lBase
    requires LocalRefs(y, r) == true && LocalRefs(y, l) == true && LocalDown(y, r, top) == true
    requires x in Seen(y, r, top) && 0 <= x < |l| && Undo(l, tm, y.tTop, x).Ptr?
    ensures var w := Undo(l, tm, y.tTop, x); Leads(y, l, w) && w.addr in Seen(y, r, top)
  {
    StageParts(y, p, r, l, tm);
    TrailRegion(y, l);
    UndoCases(l, tm, y.tTop, x);
    hide Live, Undo, AtStage, Emptied, SavedLive, LocalRefs, LocalDown, AllKept, Leads;
    var w := Undo(l, tm, y.tTop, x);
    if w == l[x].word {
      HeldLeads(y, p, r, l, tm, top, x);
    } else {
      var e :| tm < e < y.tTop && IsSavedValue(l[e].word) && l[e].word.addr < |l| && w == l[l[e].word.addr].word;
      SavedSeen(y, p, r, l, tm, top, e);
      HeldLeads(y, p, r, l, tm, top, l[e].word.addr);
    }
  }

  lemma SavedSeen(y: Layout, p: Memory, r: Memory, l: Memory, tm: int, top: int, e: int)
    requires AtStage(y, p, r, l, tm) == true && top >= y.lBase && tm <= e < y.tTop && 0 <= e < |l| && IsSavedValue(l[e].word)
    ensures l[e].word.addr in Seen(y, r, top)
  {
    StageParts(y, p, r, l, tm);
    assert l[e].word == r[e].word == p[e].word;
    SavedObject(y, p, e);
    hide Live, AtStage;
    ObjectIndex(y, r, l[e].word.addr);
  }

  lemma HeldLeads(y: Layout, p: Memory, r: Memory, l: Memory, tm: int, top: int, x: int)
    requires AtStage(y, p, r, l, tm) == true && |y.objs| >= 2 && top >= y.lBase
    requires LocalRefs(y, r) == true && LocalRefs(y, l) == true && LocalDown(y, r, top) == true
    requires x in Seen(y, r, top) && 0 <= x < |l| && l[x].word.Ptr?
    ensures Leads(y, l, l[x].word) == true && l[x].word.addr in Seen(y, r, top)
  {
    StageParts(y, p, r, l, tm);
    assert Kept(y, r, x) && Marked(r, x) && x < top;
    hide Live, AtStage, Emptied, AllKept, SavedLive, LocalRefs, Origin;
    StillKept(y, r, l, x);
    PointerKept(y, r, x);
    PointerKept(y, l, x);
    DownTop(y, r, top, x);
  }

  lemma DownTop(y: Layout, r: Memory, top: int, x: int)
    requires Live(y, r) == true && LocalDown(y, r, top) && top >= y.lBase && Kept(y, r, x) && Marked(r, x) && x < top
    requires 0 <= x < |r| && r[x].word.Ptr? && Leads(y, r, r[x].word) && |y.objs| >= 2
    ensures r[x].word.addr in Seen(y, r, top)
  {
    var b := r[x].word.addr;
    KeptPlace(y, r, b);
    KeptPlace(y, r, x);
    ObjectsBelow(y, r, b);
    if IsObject(y.objs, x) && !IsObject(y.objs, b) {
      ObjectPointer(y, r, x);
    }
  }

  lemma ObjectsBelow(y: Layout, r: Memory, b: int)
    requires Live(y, r) == true && |y.objs| >= 2
    ensures b >= y.lBase ==> b > GTop(y)
  {
    LiveParts(y, r);
    GlobalLaid(y, r);
    assert ObjectAt(r, y.objs, |y.objs| - 2);
  }

  lemma ObjectPointer(y: Layout, r: Memory, x: int)
    requires Live(y, r) == true && IsObject(y.objs, x) && 0 <= x < |r| && r[x].word.Ptr?
    ensures IsObject(y.objs, r[x].word.addr)
  {
    assert ObjectOk(HeapOf(y, r), x);
  }

  lemma SeenStays(y: Layout, p: Memory, r: Memory, l: Memory, tm: int, top: int, b: int)
    requires AtStage(y, p, r, l, tm) == true && b in Seen(y, r, top)
    ensures 0 <= b < |r| == |l| && Kept(y, l, b) && Marked(l, b) && l[b].word == r[b].word
    ensures IsObject(y.objs, b) ==> b < y.lBase
  {
    StageParts(y, p, r, l, tm);
    StillKept(y, r, l, b);
    KeptPlace(y, r, b);
  }

  lemma SeenArgument(y: Layout, p: Memory, r: Memory, l: Memory, tm: int, top: int, b: int, x: int)
    requires AtStage(y, p, r, l, tm) == true && top >= y.lBase && b in Seen(y, r, top) && IsObject(y.objs, b)
    requires 0 <= b < |l| && l[b].word.Functor? && b < x <= b + l[b].word.arity
    ensures x in Seen(y, r, top)
  {
    hide *;
    SeenStays(y, p, r, l, tm, top, b);
    StageParts(y, p, r, l, tm);
    InSeen(y, r, top, x);
    SeenMarked(y, r, top, b);
    ArgumentIs(y, r, b, x - b);
    ObjectIndex(y, r, x);
  }

  lemma InSeen(y: Layout, r: Memory, top: int, x: int)
    ensures IsObject(y.objs, x) && Marked(r, x) && x < top ==> x in Seen(y, r, top)
  {
  }

  lemma SeenMarked(y: Layout, r: Memory, top: int, b: int)
    requires b in Seen(y, r, top)
    ensures Marked(r, b) && Kept(y, r, b) && b < top
  {
  }

  lemma SeenArguments(y: Layout, p: Memory, r: Memory, l: Memory, tm: int, top: int)
    requires AtStage(y, p, r, l, tm) == true && top >= y.lBase
    ensures Arguments(y, l, Seen(y, r, top)) == true
  {
    hide AtStage, Seen, IsObject;
    var s := Seen(y, r, top);
    forall b, x {:trigger b in s, x in s} | b in s && IsObject(y.objs, b) && 0 <= b < |l| && l[b].word.Functor? && b < x <= b + l[b].word.arity
      ensures x in s
    {
      SeenArgument(y, p, r, l, tm, top, b, x);
    }
  }

  /** The data words of a visible indirect are what they were before the collection. */
  lemma SeenBlocks(y: Layout, l0: Memory, p: Memory, r: Memory, l: Memory, tm: int, top: int, u0: Memory)
    requires AtStage(y, p, r, l, tm) == true && SameWords(l0, p) == true && PartlyUndone(l0, u0, tm, y.tTop) == true
    ensures |u0| == |l| && Blocks(y, l, u0, Seen(y, r, top)) == true
  {
    var s := Seen(y, r, top);
    StageParts(y, p, r, l, tm);
    SameSize(l0, p);
    UndoneSize(l0, u0, tm, y.tTop);
    hide AtStage, Live, Emptied, AllKept, SavedLive, Origin;
    forall b, w {:trigger BlockAt(y, l, s, b), u0[w]} | BlockAt(y, l, s, b) && b < w <= b + l[b].word.size && w < |u0|
      ensures u0[w].word == l[w].word
    {
      SeenStays(y, p, r, l, tm, top, b);
      BlockWord(y, l0, p, r, l, tm, u0, b, w);
    }
  }

  lemma UndoneSize(l: Memory, n: Memory, lo: int, hi: int)
    requires PartlyUndone(l, n, lo, hi) == true
    ensures |n| == |l|
  {
  }

  lemma BlockWord(y: Layout, l0: Memory, p: Memory, r: Memory, l: Memory, tm: int, u0: Memory, b: int, w: int)
    requires AtStage(y, p, r, l, tm) == true && SameWords(l0, p) == true && PartlyUndone(l0, u0, tm, y.tTop) == true
    requires IsObject(y.objs, b) && 0 <= b < |r| && r[b].word.Header? && b < w <= b + r[b].word.size
    ensures 0 <= w < |l| == |u0| && u0[w].word == l[w].word
  {
    StageParts(y, p, r, l, tm);
    ObjectIndex(y, r, b);
    LaidOut(y, r);
    InnerWord(y, r, Index(y.objs, b), w);
    SameSize(l0, p);
    assert 0 <= w < y.lBase;
    hide Live, AtStage, Origin;
    StartLive(y, p, r, l, tm, w);
    UndoWords(l0, p, tm, y.tTop, w);
    UndoneAt(l0, u0, tm, y.tTop, w);
  }

  lemma {:induction false} StartLive(y: Layout, p: Memory, r: Memory, l: Memory, tm: int, w: int)
    requires AtStage(y, p, r, l, tm) == true && 0 <= w < y.lBase && w < |p| && !IsObject(y.objs, w)
    ensures |p| == |l| && Undo(p, tm, y.tTop, w) == p[w].word == l[w].word
  {
    StageParts(y, p, r, l, tm);
    hide Live;
    assert l[w].word == r[w].word == p[w].word;
    forall e {:trigger Records(p, e, w)} | tm <= e < y.tTop
      ensures !Records(p, e, w)
    {
      StartEntry(y, p, e, w);
    }
    UndoNone(p, tm, y.tTop, w);
  }

  lemma StartEntry(y: Layout, p: Memory, e: int, w: int)
    requires Origin(y, p) && y.tBase <= e < y.tTop
    ensures Records(p, e, w) ==> w >= y.lBase || IsObject(y.objs, w)
  {
    assert OnTrail(y, e) && EntryOk(y, p, e);
  }

  /** And in their new place nothing is recorded. */
  lemma SeenBlocksHome(y: Layout, p: Memory, r: Memory, l: Memory, m: Memory, tm: int, top: int, um: Memory)
    requires AtStage(y, p, r, l, tm) == true && Collected(y, l, m) == true
    requires PartlyUndone(m, um, T.NewEntry(y, l, tm), T.NewEntry(y, l, y.tTop)) == true
    ensures |m| == |um| && BlocksHome(y, l, m, um, Seen(y, r, top)) == true
  {
    var s := Seen(y, r, top);
    StageParts(y, p, r, l, tm);
    UndoneSize(m, um, T.NewEntry(y, l, tm), T.NewEntry(y, l, y.tTop));
    hide AtStage, Live, Emptied, AllKept, SavedLive, Origin, Home, Collected, T.NewEntry;
    forall b, w {:trigger BlockAt(y, l, s, b), um[w]} |
        BlockAt(y, l, s, b) && Home(y, l, b) < w <= Home(y, l, b) + l[b].word.size && 0 <= w < |um|
      ensures um[w].word == m[w].word
    {
      SeenStays(y, p, r, l, tm, top, b);
      HomeWord(y, l, m, tm, um, b, w);
    }
  }

  lemma {:induction false} HomeWord(y: Layout, l: Memory, m: Memory, tm: int, um: Memory, b: int, w: int)
    requires Live(y, l) == true && Collected(y, l, m) == true && AllKept(y, l, tm) == true && y.tBase <= tm <= y.tTop
    requires PartlyUndone(m, um, T.NewEntry(y, l, tm), T.NewEntry(y, l, y.tTop)) == true
    requires IsObject(y.objs, b) && Marked(l, b) && 0 <= b < |l| && l[b].word.Header? && Home(y, l, b) < w <= Home(y, l, b) + l[b].word.size
    requires 0 <= w < |m|
    ensures |um| == |m| && um[w].word == m[w].word
  {
    hide Live, Collected, T.NewEntry, Home, AllKept, Records;
    var lo, hi := T.NewEntry(y, l, tm), T.NewEntry(y, l, y.tTop);
    forall e {:trigger Records(m, e, w)} | lo <= e < hi
      ensures !Records(m, e, w)
    {
      NotInBlock(y, l, m, tm, b, w, e);
    }
    UndoNone(m, lo, hi, w);
    UndoneAt(m, um, lo, hi, w);
  }

  lemma {:induction false} NotInBlock(y: Layout, l: Memory, m: Memory, tm: int, b: int, w: int, e: int)
    requires Live(y, l) == true && Collected(y, l, m) == true && AllKept(y, l, tm) == true && y.tBase <= tm <= y.tTop
    requires IsObject(y.objs, b) && Marked(l, b) && 0 <= b < |l| && l[b].word.Header? && Home(y, l, b) < w <= Home(y, l, b) + l[b].word.size
    requires T.NewEntry(y, l, tm) <= e < T.NewEntry(y, l, y.tTop)
    ensures !Records(m, e, w)
  {
    hide Live, Collected, T.NewEntry, Home, AllKept, Renamed, Place;
    TrailRegion(y, l);
    NewEntryLow(y, l, tm);
    var i := S.EntrySource(y, l, y.tTop, e);
    NextLeft(y, l, m, i);
    EntryAbove(y, l, tm, i);
    if Records(m, e, w) {
      RecordedPlace(y, l, tm, i, m[e].word);
      HeaderSize(y, l, l[b].word);
      var x := l[i].word.addr;
      PlaceApart(y, l, b, x);
    }
  }

  lemma EntryAbove(y: Layout, l: Memory, tm: int, i: int)
    requires T.NewEntry(y, l, tm) <= T.NewEntry(y, l, i) && y.tBase <= i && 0 <= i < |l| && l[i].word != Var
    ensures tm <= i
  {
    if i < tm {
      T.KeptMonotone(l, y.tBase, i, tm);
    }
  }

  /** An address that is left on the trail is that of a variable that is kept. */
  lemma RecordedPlace(y: Layout, l: Memory, tm: int, i: int, w: Word)
    requires Live(y, l) == true && AllKept(y, l, tm) == true && y.tBase <= tm <= i < y.tTop && 0 <= i < |l|
    requires w == Renamed(y, l, l[i].word) && w.Ptr? && w.tag == Address
    ensures l[i].word.Ptr? && Kept(y, l, l[i].word.addr) == true && w.addr == Place(y, l, l[i].word.addr)
    ensures var x := l[i].word.addr; x >= y.lBase || (IsObject(y.objs, x) && x < |l| && IsValue(l[x].word))
  {
    assert OnTrail(y, i) && EntryOk(y, l, i);
    KeptPlace(y, l, l[i].word.addr);
  }

  lemma {:induction false} PlaceApart(y: Layout, l: Memory, b: int, x: int)
    requires Live(y, l) == true && IsObject(y.objs, b) && Marked(l, b) && 0 <= b < |l| && l[b].word.Header? && Kept(y, l, x) == true
    requires x >= y.lBase || (IsObject(y.objs, x) && 0 <= x < |l| && IsValue(l[x].word))
    ensures Place(y, l, x) < Home(y, l, b) || Home(y, l, b) + Size(l[b].word) <= Place(y, l, x)
  {
    hide Live, Home, Size;
    KeptPlace(y, l, x);
    ObjectIndex(y, l, b);
    if IsObject(y.objs, x) {
      if x < b {
        ObjectOrder(y, l, x, b);
      } else {
        ObjectOrder(y, l, b, x);
      }
    }
  }

  // ---------- the theorem

  lemma {:induction false} SeenLeading(y: Layout, l0: Memory, p: Memory, r: Memory, l: Memory, tm: int, top: int, u0: Memory)
    requires AtStage(y, p, r, l, tm) == true && |y.objs| >= 2 && top >= y.lBase && |u0| == |l|
    requires LocalRefs(y, r) == true && LocalRefs(y, l) == true && LocalDown(y, r, top) == true
    requires forall x {:trigger x in Seen(y, r, top)} :: x in Seen(y, r, top) ==> 0 <= x < |l| && u0[x].word == Undo(l, tm, y.tTop, x)
    ensures Leading(y, l, u0, Seen(y, r, top)) == true
  {
    hide AtStage, Seen, LocalRefs, LocalDown, Undo, Leads;
    var s := Seen(y, r, top);
    forall x {:trigger x in s} | x in s && 0 <= x < |u0| && u0[x].word.Ptr?
      ensures u0[x].word.addr in s && Leads(y, l, u0[x].word)
      ensures u0[x].word.tag != Reference ==> u0[x].word.addr < |u0| && u0[u0[x].word.addr].word == l[u0[x].word.addr].word
    {
      assert u0[x].word == Undo(l, tm, y.tTop, x);
      ValueLeads(y, p, r, l, tm, top, x);
      var b := u0[x].word.addr;
      SeenStays(y, p, r, l, tm, top, b);
      assert u0[b].word == Undo(l, tm, y.tTop, b);
      if u0[x].word.tag != Reference {
        BodyCell(y, p, r, l, tm, top, u0[x].word);
      }
    }
  }

  lemma {:induction false} BodyCell(y: Layout, p: Memory, r: Memory, l: Memory, tm: int, top: int, w: Word)
    requires AtStage(y, p, r, l, tm) == true && Leads(y, l, w) && w.addr in Seen(y, r, top) && w.tag != Reference && w.addr < |l|
    ensures Undo(l, tm, y.tTop, w.addr) == l[w.addr].word
  {
    StageParts(y, p, r, l, tm);
    SeenStays(y, p, r, l, tm, top, w.addr);
    hide AtStage, Live, Undo;
    NotRecorded(y, l, tm, w.addr);
  }

  lemma {:induction false} SeenAgrees(y: Layout, l0: Memory, p: Memory, hs: seq<Stage>, te: int, l: Memory, m: Memory, j: int, u0: Memory, um: Memory)
    requires Taken(y, l0, p, hs, te, l, m, j, u0, um) == true
    requires NothingLost(y, p, After(hs, l, j), l, TrailTop(y, p, j), y.choices[j].top) == true
    ensures |u0| == |l| == |um| && Agrees(y, l, u0, um, Seen(y, After(hs, l, j), y.choices[j].top)) == true
    ensures forall x {:trigger x in Seen(y, After(hs, l, j), y.choices[j].top)} :: x in Seen(y, After(hs, l, j), y.choices[j].top) ==>
              0 <= x < |l| && u0[x].word == Undo(l, TrailTop(y, p, j), y.tTop, x)
  {
    hide *;
    TakenParts(y, l0, p, hs, te, l, m, j, u0, um);
    TakenStage(y, l0, p, hs, te, l, m, j, u0, um);
    var s := Seen(y, After(hs, l, j), y.choices[j].top);
    StageParts(y, p, After(hs, l, j), l, TrailTop(y, p, j));
    SameSize(l0, p);
    UndoneSize(l0, u0, TrailTop(y, p, j), y.tTop);
    UndoneSize(m, um, T.NewEntry(y, l, TrailTop(y, p, j)), T.NewEntry(y, l, y.tTop));
    CollectedSize(y, l, m);
    forall x {:trigger x in s} | x in s
      ensures Kept(y, l, x) && 0 <= x < |l| && 0 <= Place(y, l, x) < |um| && um[Place(y, l, x)].word == Renamed(y, l, u0[x].word)
      ensures u0[x].word == Undo(l, TrailTop(y, p, j), y.tTop, x)
    {
      ValueAgrees(y, l0, p, hs, te, l, m, j, u0, um, x);
    }
    AgreesWhole(y, l, u0, um, s);
  }

  lemma AgreesWhole(y: Layout, l: Memory, u0: Memory, um: Memory, s: iset<int>)
    requires |u0| == |l| == |um|
    requires forall x {:trigger x in s} :: x in s ==>
      Kept(y, l, x) && 0 <= x < |l| && 0 <= Place(y, l, x) < |um| && um[Place(y, l, x)].word == Renamed(y, l, u0[x].word)
    ensures Agrees(y, l, u0, um, s) == true
  {
    hide Kept, Place, Renamed;
  }

  lemma CollectedSize(y: Layout, l: Memory, m: Memory)
    requires Collected(y, l, m) == true
    ensures |m| == |l|
  {
  }

  lemma BodiesWhole(y: Layout, l: Memory, m: Memory, u0: Memory, um: Memory, s: iset<int>)
    requires |u0| == |l| == |m| == |um| && Arguments(y, l, s) == true && Blocks(y, l, u0, s) == true && BlocksHome(y, l, m, um, s) == true
    ensures Bodies(y, l, m, u0, um, s) == true
  {
  }

  /** A cell that choice point j can see holds, after the collection and backtracking to j, the
      term that it holds after backtracking alone. */
  lemma {:induction false} SeenKept(y: Layout, l0: Memory, p: Memory, hs: seq<Stage>, te: int, l: Memory, m: Memory, j: int, u0: Memory, um: Memory, a: int, n: nat)
    requires Taken(y, l0, p, hs, te, l, m, j, u0, um) == true
    requires NothingLost(y, p, After(hs, l, j), l, TrailTop(y, p, j), y.choices[j].top) == true
    requires |y.objs| >= 2 && LocalRefs(y, After(hs, l, j)) == true && LocalRefs(y, l) == true
    requires LocalDown(y, After(hs, l, j), y.choices[j].top) == true
    requires a in Seen(y, After(hs, l, j), y.choices[j].top)
    ensures Read(um, Place(y, l, a), n) == Rename((x: int) => Place(y, l, x), Read(u0, a, n))
  {
    hide *;
    TakenParts(y, l0, p, hs, te, l, m, j, u0, um);
    TakenStage(y, l0, p, hs, te, l, m, j, u0, um);
    var r, tm, top := After(hs, l, j), TrailTop(y, p, j), y.choices[j].top;
    var s := Seen(y, r, top);
    CollectedSize(y, l, m);
    SeenAgrees(y, l0, p, hs, te, l, m, j, u0, um);
    SeenLeading(y, l0, p, r, l, tm, top, u0);
    SeenArguments(y, p, r, l, tm, top);
    SeenBlocks(y, l0, p, r, l, tm, top, u0);
    SeenBlocksHome(y, p, r, l, m, tm, top, um);
    BodiesWhole(y, l, m, u0, um, s);
    RegionCarried(y, l, m, u0, um, s);
    ReadCarried(u0, um, s, (x: int) => Place(y, l, x), a, n);
  }

  lemma {:induction false} IsTaken(y: Layout, l0: Memory, p: Memory, hs: seq<Stage>, te: int, l: Memory, m: Memory, j: int, u0: Memory, um: Memory)
    requires |y.objs| >= 2 && |hs| == |y.choices| <= |y.trailTops| && 0 <= j < |hs| && TopsLocal(y) == true
    requires Origin(y, p) == true && SameWords(l0, p) == true && History(y, p, hs, l, te) == true && Older(y, p) == true
    requires Live(y, l) == true && Collected(y, l, m) == true && Live(y, After(hs, l, j)) == true
    requires PartlyUndone(l0, u0, TrailTop(y, p, j), y.tTop) == true
    requires PartlyUndone(m, um, T.NewEntry(y, l, TrailTop(y, p, j)), T.NewEntry(y, l, y.tTop)) == true
    ensures Taken(y, l0, p, hs, te, l, m, j, u0, um) == true
  {
  }

  // ---------- told from the stacks at the start of the collection

  ghost predicate SavedListed(y: Layout, l0: Memory) {
    forall s :: s in y.saved ==>
      exists e {:trigger l0[e]} :: y.tBase <= e < y.tTop && 0 <= e < |l0| && IsSavedValue(l0[e].word) && l0[e].word.addr == s
  }

  /** The stacks at the start of a collection: an older choice point saved lower tops, and the
      old values of assignments are those on the trail. */
  ghost predicate Backtrackable(y: Layout, l0: Memory) {
    Begun(y, l0) && TopsLocal(y) && Older(y, l0) && SavedListed(y, l0)
  }

  lemma {:induction false} FromBacktrackable(y: Layout, l0: Memory, pre: Memory, hs: seq<Stage>, te: int, l: Memory, m: Memory)
    requires Backtrackable(y, l0) == true && CollectedFrom(y, l0, pre, hs, te, l, m) == true
    ensures |y.objs| >= 2 && |hs| == |y.choices| <= |y.trailTops| && History(y, pre, hs, l, te) == true && Origin(y, pre) == true
    ensures SlotsAre(y, pre, 0) == true && SameWords(l0, pre) == true && Older(y, pre) == true && SavedMarks(y, pre) == true
    ensures TopsLocal(y) == true && LocalsOk(y, l0) == true && Live(y, l) == true && Collected(y, l, m) == true
  {
    hide *;
    BacktrackableParts(y, l0);
    FromStart(y, l0, pre, hs, te, l, m);
    SavedAreMarked(y, l0, pre);
    OlderWords(y, l0, pre);
  }

  lemma BacktrackableParts(y: Layout, l0: Memory)
    requires Backtrackable(y, l0) == true
    ensures Begun(y, l0) == true && TopsLocal(y) == true && Older(y, l0) == true && SavedListed(y, l0) == true
  {
    hide Begun;
  }

  lemma SavedAreMarked(y: Layout, l0: Memory, pre: Memory)
    requires SavedListed(y, l0) == true && SameWords(l0, pre) == true && Origin(y, pre) == true
    ensures SavedMarks(y, pre) == true
  {
    forall s {:trigger s in y.saved} | s in y.saved
      ensures Marked(pre, s)
    {
      var e :| y.tBase <= e < y.tTop && 0 <= e < |l0| && IsSavedValue(l0[e].word) && l0[e].word.addr == s;
      assert l0[e].word == pre[e].word;
    }
  }

  /** What choice point j can see when its frames have been marked. */
  ghost predicate SeenFrom(y: Layout, l0: Memory, j: int, a: int)
    requires |y.objs| >= 2 && 0 <= j < |y.choices| <= |y.trailTops|
  {
    Visible(y, ResetMemory(y, l0, j + 1), FrameRoots(y, j + 1), a)
  }

  lemma {:induction false} StageSees(y: Layout, l0: Memory, p: Memory, hs: seq<Stage>, te: int, l: Memory, j: int)
    requires |y.objs| >= 2 && |hs| == |y.choices| <= |y.trailTops| && History(y, p, hs, l, te) == true && Origin(y, p) == true
    requires SlotsAre(y, p, 0) == true && SameWords(l0, p) == true && Older(y, p) == true && SavedMarks(y, p) == true
    requires 0 <= j < |hs|
    ensures Live(y, After(hs, l, j)) == true && SlotsAre(y, After(hs, l, j), j + 1) == true && Emptied(y, p, After(hs, l, j)) == true
    ensures forall a {:trigger Marked(After(hs, l, j), a)} ::
              (SeenFrom(y, l0, j, a) ==> Marked(After(hs, l, j), a)) && (Marked(After(hs, l, j), a) && !Unused(y, a) ==> SeenFrom(y, l0, j, a))
  {
    hide History, HasStage, Origin, Emptied, Live, Older, SlotsAre, SavedMarks, ResetMemory, Visible, FrameRoots;
    var r, rt, g := After(hs, l, j), ScannedTo(hs, te, j), hs[..j + 1];
    LaterStages(y, p, hs, l, te, j);
    Prefix(hs, j);
    HistoryMatches(y, l0, p, g, r, rt);
    HistorySlots(y, p, g, r, rt);
    HistoryParts(y, p, g, r, rt);
    HistoryStays(y, p, g, r, rt);
    StageLive(y, j, hs[j], r, rt);
  }

  /** Backtracking to choice point j sets a cell that j can see to the same word, whether the
      collector has reset variables early or not, unless the oldest assignment to it since j is
      forgotten. */
  lemma {:induction false} ResetIsSafe(y: Layout, l0: Memory, pre: Memory, hs: seq<Stage>, te: int, l: Memory, m: Memory, j: int, a: int)
    requires Backtrackable(y, l0) == true && CollectedFrom(y, l0, pre, hs, te, l, m) == true
    requires |y.objs| >= 2 && 0 <= j < |y.choices| <= |y.trailTops| && SeenFrom(y, l0, j, a) == true && a < y.choices[j].top
    ensures 0 <= a < |l| == |l0|
    ensures Undo(l, TrailTop(y, l0, j), y.tTop, a) == Undo(l0, TrailTop(y, l0, j), y.tTop, a) <==> !WillLose(y, l0, j, a)
  {
    hide *;
    FromBacktrackable(y, l0, pre, hs, te, l, m);
    StageSees(y, l0, pre, hs, te, l, j);
    TrailTopWords(y, l0, pre, j);
    MarkedOffTrail(y, After(hs, l, j), a);
    UndoneAlike(y, pre, hs, te, l, j, a);
    SameSize(l0, pre);
    UndoWords(l0, pre, TrailTop(y, l0, j), y.tTop, a);
    LostWords(l0, pre, l, TrailTop(y, l0, j), y.tTop, a);
    LostExactly(y, l0, pre, hs, l, te, j, a);
  }

  lemma MarkedOffTrail(y: Layout, r: Memory, a: int)
    requires Live(y, r) == true && Marked(r, a)
    ensures !OnTrail(y, a)
  {
    LiveParts(y, r);
    hide Live;
    if OnTrail(y, a) {
      TrailUnmarked(y, r, a);
    }
  }

  /** No assignment that choice point j would notice is forgotten. */
  ghost predicate NoneForgotten(y: Layout, l0: Memory, j: int)
    requires |y.objs| >= 2 && 0 <= j < |y.choices| <= |y.trailTops|
  {
    forall x {:trigger WillLose(y, l0, j, x)} :: SeenFrom(y, l0, j, x) && x < y.choices[j].top ==> !WillLose(y, l0, j, x)
  }

  /** So it is when there is no destructive assignment to undo. */
  lemma NoAssignments(y: Layout, l0: Memory, j: int)
    requires |y.objs| >= 2 && 0 <= j < |y.choices| <= |y.trailTops|
    requires forall e {:trigger l0[e]} :: TrailTop(y, l0, j) <= e < y.tTop && 0 <= e < |l0| ==> !IsSavedValue(l0[e].word)
    ensures NoneForgotten(y, l0, j)
  {
    hide SeenFrom, Visible;
    forall x, e {:trigger Oldest(l0, TrailTop(y, l0, j), y.tTop, x, e)} | Oldest(l0, TrailTop(y, l0, j), y.tTop, x, e)
      ensures 0 <= e < |l0| && Undone(l0, e, y.tTop) == Var
    {
    }
  }

  lemma {:induction false} NothingIsLost(y: Layout, l0: Memory, pre: Memory, hs: seq<Stage>, te: int, l: Memory, j: int)
    requires |y.objs| >= 2 && |hs| == |y.choices| <= |y.trailTops| && History(y, pre, hs, l, te) == true && Origin(y, pre) == true
    requires SlotsAre(y, pre, 0) == true && SameWords(l0, pre) == true && Older(y, pre) == true && SavedMarks(y, pre) == true
    requires 0 <= j < |hs| && NoneForgotten(y, l0, j)
    ensures NothingLost(y, pre, After(hs, l, j), l, TrailTop(y, pre, j), y.choices[j].top) == true
  {
    hide History, Origin, SlotsAre, Older, SavedMarks, SeenFrom, WillLose, AssignmentLost;
    StageSees(y, l0, pre, hs, te, l, j);
    TrailTopWords(y, l0, pre, j);
    var r, top := After(hs, l, j), y.choices[j].top;
    forall x {:trigger Marked(r, x)} | Marked(r, x) && x < top && !OnTrail(y, x)
      ensures !AssignmentLost(pre, l, TrailTop(y, pre, j), y.tTop, x)
    {
      if Unused(y, x) {
        TopInside(y, pre, j);
        UnusedNotLost(y, pre, l, TrailTop(y, pre, j), x);
      } else {
        LostExactly(y, l0, pre, hs, l, te, j, x);
        LostWords(l0, pre, l, TrailTop(y, l0, j), y.tTop, x);
      }
    }
  }

  /** No assignment is recorded for a cell between the stacks. */
  lemma UnusedNotLost(y: Layout, p: Memory, l: Memory, lo: int, x: int)
    requires Origin(y, p) == true && y.tBase <= lo && Unused(y, x)
    ensures !AssignmentLost(p, l, lo, y.tTop, x)
  {
    hide StacksOk, Untouched;
    forall e {:trigger Oldest(p, lo, y.tTop, x, e)} | Oldest(p, lo, y.tTop, x, e)
      ensures false
    {
      RecordedUsed(y, p, e, x);
    }
  }

  lemma LocalsDown(y: Layout, l0: Memory, pre: Memory, r: Memory, j: int, top: int)
    requires |y.objs| >= 2 && LocalsOk(y, l0) && SlotsAre(y, r, j) && 0 <= j && SameWords(l0, pre) && Emptied(y, pre, r)
    ensures LocalRefs(y, r) == true && LocalDown(y, r, top) == true
  {
    RefsMarked(y, l0, r, j);
    hide SlotsAre, PassedWith;
    forall a {:trigger Slot(y, a)} | Slot(y, a) && a < top && 0 <= a < |r| && Marked(r, a) && r[a].word.Ptr? && r[a].word.addr > GTop(y)
      ensures r[a].word.addr < top
    {
      assert r[a].word == l0[a].word;
    }
  }

  lemma PassedSeen(y: Layout, r: Memory, j: int, top: int, a: int)
    requires SlotsAre(y, r, j) && Slot(y, a) && Passed(y, j, a) && a < top
    ensures a in Seen(y, r, top)
  {
  }

  /** Collecting garbage and then backtracking to choice point j (memory um) gives all variables
      of frames that are older than j the terms that backtracking alone (memory u0) gives them,
      with unbound variables renamed. */
  lemma {:induction false} BacktrackingKeepsTerms(y: Layout, l0: Memory, pre: Memory, hs: seq<Stage>, te: int, l: Memory, m: Memory, j: int,
      u0: Memory, um: Memory, a: int, n: nat)
    requires Backtrackable(y, l0) == true && CollectedFrom(y, l0, pre, hs, te, l, m) == true
    requires |y.objs| >= 2 && 0 <= j < |y.choices| <= |y.trailTops| && NoneForgotten(y, l0, j) == true
    requires PartlyUndone(l0, u0, TrailTop(y, l0, j), y.tTop) == true
    requires PartlyUndone(m, um, T.NewEntry(y, l, TrailTop(y, l0, j)), T.NewEntry(y, l, y.tTop)) == true
    requires Slot(y, a) && Passed(y, j + 1, a) == true && a < y.choices[j].top
    ensures Read(um, a, n) == Rename((x: int) => Place(y, l, x), Read(u0, a, n))
  {
    hide *;
    FromBacktrackable(y, l0, pre, hs, te, l, m);
    TrailTopWords(y, l0, pre, j);
    StageSees(y, l0, pre, hs, te, l, j);
    NothingIsLost(y, l0, pre, hs, te, l, j);
    IsTaken(y, l0, pre, hs, te, l, m, j, u0, um);
    LocalsDown(y, l0, pre, After(hs, l, j), j + 1, y.choices[j].top);
    HistorySlots(y, pre, hs, l, te);
    HistoryStays(y, pre, hs, l, te);
    AllRefs(y, l0, pre, l, |hs|);
    PassedSeen(y, After(hs, l, j), j + 1, y.choices[j].top, a);
    SlotPlace(y, l, a);
    SeenKept(y, l0, pre, hs, te, l, m, j, u0, um, a, n);
  }
}
