/** Backtracking after a garbage collection: undoing the trail (pl-wam.c, __do_undo()) leaves a
    cell with the same word as if its variable had not been reset early. */
module Backtracking {
  import opened Words
  import opened GlobalStack
  import opened Relocation
  import opened Stacks
  import opened MarkPhase
  import opened EarlyReset

  /** Trail entry e records the address a. */
  predicate Records(l: Memory, e: int, a: int) {
    0 <= e < |l| && l[e].word.Ptr? && l[e].word.tag == Address && l[e].word.addr == a
  }

  /** The word to which backtracking sets the address that entry e records: nothing, or the old
      value of a destructive assignment. */
  function Undone(l: Memory, e: int, hi: int): Word
    requires 0 <= e < |l|
  {
    if e + 1 < hi && e + 1 < |l| && IsSavedValue(l[e + 1].word) && l[e + 1].word.addr < |l| then l[l[e + 1].word.addr].word else Var
  }

  /** What cell a holds after backtracking has undone the entries lo to hi - 1: what the oldest
      of them that records a says. */
  function Undo(l: Memory, lo: int, hi: int, a: int): Word
    requires 0 <= a < |l|
    decreases hi - lo
  {
    if hi <= lo then l[a].word
    else if Records(l, lo, a) then Undone(l, lo, hi)
    else Undo(l, lo + 1, hi, a)
  }

  /** The trail from lo to hi - 1 as the machine writes it: an old value follows the address to
      which it belongs, and is in a cell that is not recorded itself. */
  ghost predicate Undoable(l: Memory, lo: int, hi: int) {
    && 0 <= lo <= hi <= |l|
    && (forall e {:trigger l[e]} :: lo <= e < hi ==> l[e].word.Ptr? && l[e].word.addr < |l| && !(lo <= l[e].word.addr < hi))
    && (forall e {:trigger l[e]} :: lo <= e < hi && l[e].word.tag != Address ==>
          && lo < e && l[e].word.tag == TRAILVAL && l[e - 1].word.tag == Address
          && forall i {:trigger l[i]} :: lo <= i < hi && l[i].word.tag == Address ==> l[i].word.addr != l[e].word.addr)
  }

  lemma {:induction false} UndoNone(l: Memory, lo: int, hi: int, a: int)
    requires 0 <= a < |l| && forall e {:trigger Records(l, e, a)} :: lo <= e < hi ==> !Records(l, e, a)
    ensures Undo(l, lo, hi, a) == l[a].word
    decreases hi - lo
  {
    if lo < hi {
      assert !Records(l, lo, a);
      UndoNone(l, lo + 1, hi, a);
    }
  }

  lemma {:induction false} UndoOldest(l: Memory, lo: int, hi: int, a: int, e: int)
    requires 0 <= a < |l| && lo <= e < hi && Records(l, e, a)
    requires forall i {:trigger Records(l, i, a)} :: lo <= i < e ==> !Records(l, i, a)
    ensures Undo(l, lo, hi, a) == Undone(l, e, hi)
    decreases hi - lo
  {
    if lo < e {
      assert !Records(l, lo, a);
      UndoOldest(l, lo + 1, hi, a, e);
    }
  }

  /** Memory n is l with the entries from mid up undone. */
  ghost predicate PartlyUndone(l: Memory, n: Memory, mid: int, hi: int) {
    |n| == |l| && forall a {:trigger n[a]} :: 0 <= a < |l| ==> n[a] == l[a].(word := Undo(l, mid, hi, a))
  }

  lemma UndoKeeps(l: Memory, n: Memory, lo: int, mid: int, hi: int, a: int)
    requires Undoable(l, lo, hi) && lo <= mid <= hi && PartlyUndone(l, n, mid, hi) && 0 <= a < |l|
    requires (lo <= a < hi) || (exists e :: lo <= e < hi && l[e].word.tag != Address && l[e].word.addr == a)
    ensures n[a] == l[a]
  {
    forall e {:trigger Records(l, e, a)} | mid <= e < hi
      ensures !Records(l, e, a)
    {
      assert l[e].word.addr == l[e].word.addr;
    }
    UndoNone(l, mid, hi, a);
  }

  lemma UndoStep(l: Memory, n: Memory, lo: int, mid: int, hi: int, r: Memory)
    requires Undoable(l, lo, hi) && lo < mid <= hi && PartlyUndone(l, n, mid, hi) && |r| == |l|
    requires l[mid - 1].word.tag == Address
    requires forall a {:trigger r[a]} :: 0 <= a < |l| ==>
               r[a] == if a == l[mid - 1].word.addr then n[a].(word := Undone(l, mid - 1, hi)) else n[a]
    ensures PartlyUndone(l, r, mid - 1, hi) == true
  {
    forall a | 0 <= a < |l|
      ensures r[a] == l[a].(word := Undo(l, mid - 1, hi, a))
    {
      assert Records(l, mid - 1, a) <==> a == l[mid - 1].word.addr;
    }
  }

  /** What __do_undo() reads at entry e. */
  lemma UndoReads(l: Memory, n: Memory, lo: int, e: int, hi: int)
    requires Undoable(l, lo, hi) && lo <= e < hi && PartlyUndone(l, n, e + 1, hi) && (e + 1 < hi ==> l[e + 1].word.tag == Address)
    ensures 0 <= lo && hi <= |l| == |n| && n[e].word == l[e].word && l[e].word.Ptr? && l[e].word.addr < |l|
    ensures !IsSavedValue(l[e].word) ==> l[e].word.tag == Address && Undone(l, e, hi) == Var
    ensures IsSavedValue(l[e].word) ==>
              && lo < e && n[l[e].word.addr] == l[l[e].word.addr] && n[e - 1] == l[e - 1]
              && l[e - 1].word.Ptr? && l[e - 1].word.tag == Address && l[e - 1].word.addr < |l|
              && Undone(l, e - 1, hi) == l[l[e].word.addr].word && PartlyUndone(l, n, e, hi)
  {
    UndoKeeps(l, n, lo, e + 1, hi, e);
    if IsSavedValue(l[e].word) {
      UndoKeeps(l, n, lo, e + 1, hi, l[e].word.addr);
      UndoKeeps(l, n, lo, e + 1, hi, e - 1);
      UndoSkip(l, n, lo, e, hi);
    } else {
      UndoPlain(l, lo, e, hi);
    }
  }

  /** pl-wam.c, __do_undo(). */
  method DoUndo(ld: LocalData, trailTop: nat, globalTop: nat)
    requires trailTop <= ld.tTop && Undoable(ld.mem[..], trailTop, ld.tTop) == true
    modifies ld`tTop, ld`gTop, ld.mem
    ensures PartlyUndone(old(ld.mem[..]), ld.mem[..], trailTop, old(ld.tTop)) == true
    ensures ld.tTop == trailTop && ld.gTop == globalTop
  {
    hide *;
    var mem := ld.mem;
    ghost var l, hi := mem[..], ld.tTop;
    UndoStarts(l, hi);
    var tt := ld.tTop - 1;
    while tt >= trailTop
      invariant trailTop - 1 <= tt < hi
      invariant PartlyUndone(l, mem[..], tt + 1, hi) == true
      invariant tt + 1 < hi <= |l| ==> l[tt + 1].word.Ptr? && l[tt + 1].word.tag == Address
    {
      ghost var n := mem[..];
      TrailFits(l, trailTop, hi);
      UndoReads(l, n, trailTop, tt, hi);
      var p := mem[tt].word;
      if IsSavedValue(p) {
        tt := tt - 1;
        var a := mem[tt].word.addr;
        mem[a] := mem[a].(word := mem[p.addr].word);
      } else {
        mem[p.addr] := mem[p.addr].(word := Var);
      }
      UndoStep(l, n, trailTop, tt + 1, hi, mem[..]);
      tt := tt - 1;
    }
    ld.tTop, ld.gTop := trailTop, globalTop;
  }

  lemma TrailFits(l: Memory, lo: int, hi: int)
    requires Undoable(l, lo, hi)
    ensures 0 <= lo <= hi <= |l|
  {
  }

  lemma UndoStarts(l: Memory, hi: int)
    ensures PartlyUndone(l, l, hi, hi) == true
  {
  }

  /** The entry with an old value changes nothing by itself. */
  lemma UndoSkip(l: Memory, n: Memory, lo: int, e: int, hi: int)
    requires Undoable(l, lo, hi) && lo <= e < hi && IsSavedValue(l[e].word) && PartlyUndone(l, n, e + 1, hi) == true
    ensures PartlyUndone(l, n, e, hi) == true && lo < e && l[e - 1].word.tag == Address
    ensures Undone(l, e - 1, hi) == l[l[e].word.addr].word
  {
    assert forall a :: !Records(l, e, a);
  }

  lemma UndoPlain(l: Memory, lo: int, e: int, hi: int)
    requires Undoable(l, lo, hi) && lo <= e < hi && !IsSavedValue(l[e].word) && (e + 1 < hi ==> l[e + 1].word.tag == Address)
    ensures l[e].word.tag == Address && Undone(l, e, hi) == Var
  {
  }

  // ---------- the fate of the entries that record one cell

  ghost predicate KeptAt(p: Memory, r: Memory, e: int) {
    && 0 <= e < |p| - 1 && |r| == |p| && r[e].word == p[e].word
    && (IsSavedValue(p[e + 1].word) ==> r[e + 1].word == p[e + 1].word)
  }

  ghost predicate DroppedAt(p: Memory, r: Memory, e: int) {
    && 0 <= e < |p| - 1 && |r| == |p| && r[e].word == Var
    && (IsSavedValue(p[e + 1].word) ==> r[e + 1].word == Var)
  }

  /** The entries above te that record a: p is memory before the choice points were marked and
      r is memory now.  The younger ones were deleted, and then a was reset; or a is marked. */
  ghost predicate Tracked(y: Layout, p: Memory, r: Memory, te: int, a: int) {
    && |r| == |p| && 0 <= a < |p|
    && (forall e {:trigger Records(p, e, a)} :: te < e < y.tTop && Records(p, e, a) ==>
          (KeptAt(p, r, e) && Marked(r, a)) || (DroppedAt(p, r, e) && r[a].word == Var))
    && (forall e, i {:trigger Records(p, e, a), Records(p, i, a)} ::
          te < e < i < y.tTop && Records(p, e, a) && Records(p, i, a) && r[e].word == Var ==> r[i].word == Var)
    && ((forall e {:trigger Records(p, e, a)} :: te < e < y.tTop && Records(p, e, a) ==> r[e].word != Var) ==> r[a].word == p[a].word)
  }

  /** The entries up to te are still what they were, and te + 1 does not split an assignment. */
  ghost predicate StillThere(y: Layout, p: Memory, r: Memory, te: int) {
    && |r| == |p| && 0 <= y.tBase <= te + 1 && te < y.tTop < |p|
    && (forall e {:trigger r[e]} :: y.tBase <= e <= te && 0 <= e < |r| ==> r[e].word == p[e].word)
    && !IsSavedValue(p[te + 1].word) && !IsSavedValue(r[te + 1].word)
  }

  /** How one scan changes the cell a and the entries that record it. */
  lemma ScanFate(y: Layout, l: Memory, k: Memory, lo: int, hi: int, top: int, a: int, e: int)
    requires Scanned(y, l, k, lo, hi, top) && y.tBase <= lo && hi < y.tTop && 0 <= e < |l| - 1 && e < y.tTop && Records(l, e, a)
    requires 0 <= a < |l| && !OnTrail(y, a) && a < top && lo <= hi + 1 && (0 <= hi + 1 < |l| ==> !IsSavedValue(l[hi + 1].word))
    requires y.tBase <= e
    ensures lo <= e <= hi && !Marked(l, a) ==> DroppedAt(l, k, e) && k[a] == Zero
    ensures lo <= e <= hi && Marked(l, a) ==> KeptAt(l, k, e) && k[a] == l[a]
  {
    assert k[e] == ScannedCell(y, l, lo, hi, top, e);
    assert k[e + 1] == ScannedCell(y, l, lo, hi, top, e + 1);
    if lo <= e <= hi && !Marked(l, a) {
      assert Resets(l, top, e, a) && ResetBy(l, lo, hi, top, a);
    }
  }

  lemma ScanOther(y: Layout, l: Memory, k: Memory, lo: int, hi: int, top: int, a: int)
    requires Scanned(y, l, k, lo, hi, top) && 0 <= a < |l| && (if OnTrail(y, a) then a < lo || hi < a else true)
    requires !OnTrail(y, a) ==> Marked(l, a) || forall e {:trigger Records(l, e, a)} :: lo <= e <= hi ==> !Records(l, e, a)
    ensures k[a] == l[a]
  {
    if !OnTrail(y, a) && ResetBy(l, lo, hi, top, a) {
      var e :| lo <= e <= hi && Resets(l, top, e, a);
      assert Records(l, e, a);
    }
  }

  /** Memory on the way through one stage: its words at the start, before the scan, after the
      scan and at the end. */
  ghost predicate Staged(y: Layout, st: Stage, after: Memory, te: int, top: int)
    requires |y.objs| >= 2
  {
    && MarkedMore(y, st.start, st.before) && Scanned(y, st.before, st.scanned, te + 1, st.te, top)
    && MarkedMore(y, st.scanned, after) && y.tBase <= te + 1 && te <= st.te
  }

  lemma StageWords(y: Layout, st: Stage, after: Memory, te: int, top: int)
    requires |y.objs| >= 2 && Staged(y, st, after, te, top)
    ensures |st.start| == |st.before| == |st.scanned| == |after|
    ensures forall a {:trigger st.before[a]} :: 0 <= a < |after| ==> st.before[a].word == st.start[a].word && (st.start[a].mark ==> st.before[a].mark)
    ensures forall a {:trigger after[a]} :: 0 <= a < |after| ==> after[a].word == st.scanned[a].word && (st.scanned[a].mark ==> after[a].mark)
  {
  }

  lemma StageEntry(y: Layout, p: Memory, st: Stage, after: Memory, te: int, top: int, a: int, e: int)
    requires |y.objs| >= 2 && Staged(y, st, after, te, top) && StillThere(y, p, st.start, st.te) && Tracked(y, p, st.start, st.te, a)
    requires a < top && !OnTrail(y, a) && te < e < y.tTop && Records(p, e, a)
    ensures Marked(st.before, a) && e <= st.te ==> KeptAt(p, after, e)
    ensures !Marked(st.before, a) ==> DroppedAt(p, after, e)
    ensures e > st.te ==> after[e].word == st.start[e].word
    ensures e > st.te ==> (KeptAt(p, st.start, e) ==> KeptAt(p, after, e)) && (DroppedAt(p, st.start, e) ==> DroppedAt(p, after, e))
  {
    StageWords(y, st, after, te, top);
    var l, k := st.before, st.scanned;
    if e <= st.te {
      assert st.start[e].word == p[e].word && l[e].word == st.start[e].word;
      assert l[e + 1].word == st.start[e + 1].word && l[st.te + 1].word == st.start[st.te + 1].word;
      assert e + 1 <= st.te ==> st.start[e + 1].word == p[e + 1].word;
      ScanFate(y, l, k, te + 1, st.te, top, a, e);
    } else {
      ScanOther(y, l, k, te + 1, st.te, top, e);
      ScanOther(y, l, k, te + 1, st.te, top, e + 1);
    }
  }

  lemma StageCell(y: Layout, p: Memory, st: Stage, after: Memory, te: int, top: int, a: int)
    requires |y.objs| >= 2 && Staged(y, st, after, te, top) && StillThere(y, p, st.start, st.te) && 0 <= a < |p|
    requires a < top && !OnTrail(y, a)
    ensures Marked(st.before, a) ==> after[a].word == st.start[a].word && Marked(after, a)
    ensures (forall e {:trigger Records(p, e, a)} :: te < e <= st.te ==> !Records(p, e, a)) ==> after[a].word == st.start[a].word
    ensures !Marked(st.before, a) ==> after[a].word == st.start[a].word || after[a].word == Var
    ensures !Marked(st.before, a) && (exists e :: te < e <= st.te && Records(p, e, a)) ==> after[a].word == Var
  {
    StageWords(y, st, after, te, top);
    var l, k := st.before, st.scanned;
    forall e | te < e <= st.te
      ensures Records(l, e, a) <==> Records(p, e, a)
    {
      assert st.start[e].word == p[e].word && l[e].word == st.start[e].word;
    }
    assert k[a] == ScannedCell(y, l, te + 1, st.te, top, a);
    if e :| te < e <= st.te && Records(p, e, a) {
      if !Marked(l, a) {
        assert Resets(l, top, e, a) && ResetBy(l, te + 1, st.te, top, a);
      }
    } else {
      ScanOther(y, l, k, te + 1, st.te, top, a);
    }
    if Marked(l, a) {
      ScanOther(y, l, k, te + 1, st.te, top, a);
    }
  }

  lemma StageTracks(y: Layout, p: Memory, st: Stage, after: Memory, te: int, top: int, a: int)
    requires |y.objs| >= 2 && Staged(y, st, after, te, top) && StillThere(y, p, st.start, st.te) && Tracked(y, p, st.start, st.te, a)
    requires a < top && !OnTrail(y, a)
    requires forall e {:trigger p[e]} :: y.tBase <= e < y.tTop && 0 <= e < |p| ==> p[e].word.Ptr?
    ensures Tracked(y, p, after, te, a) == true
  {
    StageWords(y, st, after, te, top);
    StageCell(y, p, st, after, te, top, a);
    hide Staged, StillThere;
    forall e {:trigger Records(p, e, a)} | te < e < y.tTop && Records(p, e, a)
      ensures (KeptAt(p, after, e) && Marked(after, a)) || (DroppedAt(p, after, e) && after[a].word == Var)
    {
      StageEntry(y, p, st, after, te, top, a, e);
      assert e <= st.te || (KeptAt(p, st.start, e) && Marked(st.start, a)) || (DroppedAt(p, st.start, e) && st.start[a].word == Var);
      assert Marked(st.start, a) ==> Marked(st.before, a);
    }
    forall e, i {:trigger Records(p, e, a), Records(p, i, a)} | te < e < i < y.tTop && Records(p, e, a) && Records(p, i, a) && after[e].word == Var
      ensures after[i].word == Var
    {
      StageEntry(y, p, st, after, te, top, a, e);
      StageEntry(y, p, st, after, te, top, a, i);
    }
    if forall e {:trigger Records(p, e, a)} :: te < e < y.tTop && Records(p, e, a) ==> after[e].word != Var {
      StageUntouched(y, p, st, after, te, top, a);
    }
  }

  lemma StageUntouched(y: Layout, p: Memory, st: Stage, after: Memory, te: int, top: int, a: int)
    requires |y.objs| >= 2 && Staged(y, st, after, te, top) && StillThere(y, p, st.start, st.te) && Tracked(y, p, st.start, st.te, a)
    requires a < top && !OnTrail(y, a)
    requires forall e {:trigger Records(p, e, a)} :: te < e < y.tTop && Records(p, e, a) ==> after[e].word != Var
    ensures after[a].word == p[a].word
  {
    StageWords(y, st, after, te, top);
    StageCell(y, p, st, after, te, top, a);
    forall e {:trigger Records(p, e, a)} | te < e < y.tTop && Records(p, e, a)
      ensures Marked(st.before, a)
      ensures e > st.te ==> st.start[e].word != Var
    {
      StageEntry(y, p, st, after, te, top, a, e);
    }
  }

  lemma StageStays(y: Layout, p: Memory, st: Stage, after: Memory, te: int, top: int)
    requires |y.objs| >= 2 && Staged(y, st, after, te, top) && StillThere(y, p, st.start, st.te)
    requires te < st.te ==> !IsSavedValue(st.start[te + 1].word)
    ensures StillThere(y, p, after, te) == true
  {
    StageWords(y, st, after, te, top);
    forall e {:trigger after[e]} | y.tBase <= e <= te + 1 && 0 <= e < |after|
      ensures e <= te ==> after[e].word == p[e].word
      ensures after[e].word == st.start[e].word || after[e].word == Var
    {
      assert st.scanned[e] == ScannedCell(y, st.before, te + 1, st.te, top, e);
      assert st.before[e].word == st.start[e].word && after[e].word == st.scanned[e].word;
    }
  }

  // ---------- over all choice points

  /** What the stages of a history start from and leave alone: the stacks are in order, the
      trail is complete, and the old values of assignments are marked. */
  ghost predicate Origin(y: Layout, p: Memory) {
    && StacksOk(y, p) && Untouched(y, p, y.tTop - 1) && SavedMarked(y, p, y.tBase)
  }

  /** The trail top that choice point j saved. */
  function TrailTop(y: Layout, l: Memory, j: int): int
    requires 0 <= j < |y.trailTops|
  {
    if y.trailTops[j] < |l| && l[y.trailTops[j]].word.Ptr? then l[y.trailTops[j]].word.addr else 0
  }

  lemma StageIsStaged(y: Layout, j: int, st: Stage, after: Memory, te: int)
    requires |y.objs| >= 2 && 0 <= j < |y.choices| && j < |y.trailTops| && HasStage(y, j, st, after, te) && 0 <= y.tBase <= st.te + 1
    ensures Staged(y, st, after, te, y.choices[j].top)
    ensures Live(y, st.before) && te == (var tm := TrailTop(y, st.start, j); if st.te < tm then st.te else tm - 1)
    ensures 0 <= te + 1 < |st.before| ==> te < st.te ==> !IsSavedValue(st.before[te + 1].word)
  {
    LiveParts(y, st.before);
    ChoiceTop(y, st.before, j);
    assert st.before[y.trailTops[j]].word == st.start[y.trailTops[j]].word;
  }

  /** Nothing but variables and trail entries changes, and those become empty. */
  ghost predicate Emptied(y: Layout, p: Memory, r: Memory) {
    && |r| == |p|
    && (forall a {:trigger r[a]} :: 0 <= a < |p| ==>
          r[a].word == p[a].word || (r[a].word == Var && (a >= y.lBase || IsObject(y.objs, a))))
    && (forall a {:trigger r[a]} :: 0 <= a < |p| && !OnTrail(y, a) && p[a].mark ==> r[a].mark && r[a].word == p[a].word)
    && (forall c {:trigger c in y.trailTops} :: c in y.trailTops && c < |p| ==> r[c].word == p[c].word)
  }

  lemma EmptiedMore(y: Layout, p: Memory, q: Memory, r: Memory)
    requires Emptied(y, p, q) && Emptied(y, q, r)
    ensures Emptied(y, p, r) == true
  {
  }

  lemma StageEmpties(y: Layout, st: Stage, after: Memory, te: int, top: int)
    requires |y.objs| >= 2 && Staged(y, st, after, te, top) && StacksOk(y, st.before) && st.te < y.tTop
    ensures Emptied(y, st.start, after) == true
  {
    StageWords(y, st, after, te, top);
    ScanClears(y, st.before, st.scanned, te + 1, st.te, top);
    ClearedFieldCells(y, st.before, st.scanned);
    assert y.tBase >= y.lBase;
    hide Staged, StacksOk;
    forall a {:trigger after[a]} | 0 <= a < |after|
      ensures after[a].word == st.start[a].word || (after[a].word == Var && (a >= y.lBase || IsObject(y.objs, a)))
      ensures st.start[a].mark ==> after[a].mark && after[a].word == st.start[a].word
    {
      assert st.before[a].word == st.start[a].word && (st.start[a].mark ==> st.before[a].mark);
      assert st.scanned[a] == st.before[a] || (st.scanned[a] == Zero && !st.before[a].mark);
    }
  }

  lemma {:induction false} HistoryStays(y: Layout, p: Memory, hs: seq<Stage>, l: Memory, te: int)
    requires |y.objs| >= 2 && |hs| <= |y.choices| && |hs| <= |y.trailTops| && History(y, p, hs, l, te) && Origin(y, p)
    ensures StillThere(y, p, l, te) == true && Emptied(y, p, l) == true
    decreases |hs|
  {
    if hs != [] {
      var j := |hs| - 1;
      HistoryStays(y, p, hs[..j], hs[j].start, hs[j].te);
      StageIsStaged(y, j, hs[j], l, te);
      hide Live, History, Origin;
      StageOn(y, p, j, hs[j], l, te);
    }
  }

  lemma StageOn(y: Layout, p: Memory, j: int, st: Stage, l: Memory, te: int)
    requires |y.objs| >= 2 && 0 <= j < |y.choices| && StillThere(y, p, st.start, st.te) == true && Emptied(y, p, st.start) == true
    requires Staged(y, st, l, te, y.choices[j].top) && Live(y, st.before)
    requires 0 <= te + 1 < |st.before| ==> te < st.te ==> !IsSavedValue(st.before[te + 1].word)
    ensures StillThere(y, p, l, te) == true && Emptied(y, p, l) == true
  {
    LiveParts(y, st.before);
    hide Live;
    StageEmpties(y, st, l, te, y.choices[j].top);
    EmptiedMore(y, p, st.start, l);
    StageWords(y, st, l, te, y.choices[j].top);
    assert te < st.te ==> st.before[te + 1].word == st.start[te + 1].word;
    StageStays(y, p, st, l, te, y.choices[j].top);
  }

  lemma TrackStarts(y: Layout, p: Memory, a: int)
    requires 0 <= a < |p|
    ensures Tracked(y, p, p, y.tTop - 1, a) == true
  {
  }

  lemma {:induction false} HistoryTracks(y: Layout, p: Memory, hs: seq<Stage>, l: Memory, te: int, a: int)
    requires |y.objs| >= 2 && |hs| <= |y.choices| && |hs| <= |y.trailTops| && History(y, p, hs, l, te) && Origin(y, p)
    requires 0 <= a < |p| && !OnTrail(y, a) && forall i {:trigger y.choices[i]} :: 0 <= i < |hs| ==> a < y.choices[i].top
    ensures Tracked(y, p, l, te, a) == true
    decreases |hs|
  {
    if hs == [] {
      TrackStarts(y, p, a);
    } else {
      var j := |hs| - 1;
      HistoryStays(y, p, hs[..j], hs[j].start, hs[j].te);
      HistoryTracks(y, p, hs[..j], hs[j].start, hs[j].te, a);
      StageIsStaged(y, j, hs[j], l, te);
      assert a < y.choices[j].top;
      TrailComplete(y, p);
      hide Live, History, Origin;
      StageTracks(y, p, hs[j], l, te, y.choices[j].top, a);
    }
  }

  lemma TrailComplete(y: Layout, p: Memory)
    requires Origin(y, p)
    ensures forall e {:trigger p[e]} :: y.tBase <= e < y.tTop && 0 <= e < |p| ==> p[e].word.Ptr?
  {
  }

  /** Memory after stage j, and how far the trail was scanned then. */
  function After(hs: seq<Stage>, l: Memory, j: int): Memory
    requires 0 <= j < |hs|
  {
    if j + 1 == |hs| then l else hs[j + 1].start
  }

  function ScannedTo(hs: seq<Stage>, te: int, j: int): int
    requires 0 <= j < |hs|
  {
    if j + 1 == |hs| then te else hs[j + 1].te
  }

  lemma HistoryParts(y: Layout, p: Memory, hs: seq<Stage>, l: Memory, te: int)
    requires |y.objs| >= 2 && 0 < |hs| <= |y.choices| && |hs| <= |y.trailTops| && History(y, p, hs, l, te) == true
    ensures History(y, p, hs[..|hs| - 1], hs[|hs| - 1].start, hs[|hs| - 1].te) == true
    ensures HasStage(y, |hs| - 1, hs[|hs| - 1], l, te) == true
  {
  }

  lemma ThereBounds(y: Layout, p: Memory, r: Memory, te: int)
    requires StillThere(y, p, r, te) == true
    ensures |r| == |p| && 0 <= y.tBase <= te + 1 && te < y.tTop < |p|
  {
  }

  /** The choice points after number j leave alone what is marked by then, and the entries
      scanned by then. */
  lemma {:induction false} LaterStages(y: Layout, p: Memory, hs: seq<Stage>, l: Memory, te: int, j: int)
    requires |y.objs| >= 2 && |hs| <= |y.choices| && |hs| <= |y.trailTops| && History(y, p, hs, l, te) == true
    requires Origin(y, p) == true && 0 <= j < |hs|
    ensures History(y, p, hs[..j + 1], After(hs, l, j), ScannedTo(hs, te, j)) == true
    ensures Emptied(y, After(hs, l, j), l) == true && te <= ScannedTo(hs, te, j) && |After(hs, l, j)| == |l|
    ensures forall e {:trigger l[e]} :: ScannedTo(hs, te, j) < e < y.tTop && 0 <= e < |l| ==> l[e].word == After(hs, l, j)[e].word
    decreases |hs|
  {
    hide History, HasStage, Origin, Emptied, StillThere, Live, Staged;
    var n := |hs| - 1;
    if j == n {
      assert hs[..j + 1] == hs;
      EmptiedSelf(y, l);
    } else {
      var ls, lt := hs[n].start, hs[n].te;
      HistoryParts(y, p, hs, l, te);
      LaterStages(y, p, hs[..n], ls, lt, j);
      assert hs[..n][..j + 1] == hs[..j + 1];
      assert After(hs[..n], ls, j) == After(hs, l, j) && ScannedTo(hs[..n], lt, j) == ScannedTo(hs, te, j);
      HistoryStays(y, p, hs[..n], ls, lt);
      ThereBounds(y, p, ls, lt);
      StageIsStaged(y, n, hs[n], l, te);
      LastStage(y, n, hs[n], l, te);
      EmptiedMore(y, After(hs, l, j), ls, l);
    }
  }

  lemma EmptiedSelf(y: Layout, l: Memory)
    ensures Emptied(y, l, l) == true
  {
  }

  lemma LastStage(y: Layout, n: int, st: Stage, l: Memory, te: int)
    requires |y.objs| >= 2 && 0 <= n < |y.choices| && Staged(y, st, l, te, y.choices[n].top) && Live(y, st.before)
    requires st.te < y.tTop && y.tBase <= st.te + 1
    ensures Emptied(y, st.start, l) == true && |l| == |st.start| && te <= st.te
    ensures forall e {:trigger l[e]} :: st.te < e < y.tTop && 0 <= e < |l| ==> l[e].word == st.start[e].word
  {
    LiveParts(y, st.before);
    hide Live;
    StageEmpties(y, st, l, te, y.choices[n].top);
    StageWords(y, st, l, te, y.choices[n].top);
    forall e {:trigger l[e]} | st.te < e < y.tTop && 0 <= e < |l|
      ensures l[e].word == st.start[e].word
    {
      ScanOther(y, st.before, st.scanned, te + 1, st.te, y.choices[n].top, e);
      assert st.before[e].word == st.start[e].word;
    }
  }

  // ---------- the variables that are marked at each stage

  /** The marked variables of frames when those of the query of choice point j have been marked. */
  ghost predicate QueryMarked(y: Layout, l: Memory, j: int)
    requires 0 <= j < |y.choices|
  {
    forall a {:trigger Slot(y, a)} :: Slot(y, a) ==> (Marked(l, a) <==> Passed(y, j, a) || a in y.choices[j].query)
  }

  lemma StageSlots(y: Layout, j: int, st: Stage, after: Memory, te: int)
    requires |y.objs| >= 2 && 0 <= j < |y.choices| && j < |y.trailTops| && HasStage(y, j, st, after, te) && SlotsAre(y, st.start, j)
    requires y.tBase <= te + 1 && st.te < y.tTop
    ensures QueryMarked(y, st.before, j) == true && SlotsAre(y, after, j + 1) == true
  {
    LiveParts(y, st.before);
    hide Live;
    ScanClears(y, st.before, st.scanned, te + 1, st.te, y.choices[j].top);
    hide Scanned, StacksOk, MarkedMore;
    forall a {:trigger Slot(y, a)} | Slot(y, a)
      ensures Marked(after, a) <==> Passed(y, j + 1, a)
    {
      ClearedMarks(y, st.before, st.scanned, a);
      PassedNext(y, j, a);
    }
  }

  lemma PassedNext(y: Layout, j: int, a: int)
    requires 0 <= j < |y.choices|
    ensures Passed(y, j + 1, a) <==> Passed(y, j, a) || a in y.choices[j].query || a in y.choices[j].frames
  {
    if a in y.choices[j].query || a in y.choices[j].frames {
      assert Passed(y, j + 1, a);
    }
  }

  lemma {:induction false} HistorySlots(y: Layout, p: Memory, hs: seq<Stage>, l: Memory, te: int)
    requires |y.objs| >= 2 && |hs| <= |y.choices| && |hs| <= |y.trailTops| && History(y, p, hs, l, te) == true
    requires Origin(y, p) == true && SlotsAre(y, p, 0) == true
    ensures SlotsAre(y, l, |hs|) == true
    ensures |hs| > 0 ==> QueryMarked(y, hs[|hs| - 1].before, |hs| - 1) == true
    decreases |hs|
  {
    hide History, HasStage, Origin, StillThere, Live, Staged, Emptied, SlotsAre, QueryMarked;
    if hs == [] {
      NoHistory(y, p, l, te);
    } else {
      var n := |hs| - 1;
      HistoryParts(y, p, hs, l, te);
      HistorySlots(y, p, hs[..n], hs[n].start, hs[n].te);
      HistoryStays(y, p, hs[..n], hs[n].start, hs[n].te);
      ThereBounds(y, p, hs[n].start, hs[n].te);
      HistoryStays(y, p, hs, l, te);
      ThereBounds(y, p, l, te);
      StageSlots(y, n, hs[n], l, te);
    }
  }

  // ---------- the theorem

  /** The oldest entry from lo up that records a. */
  ghost predicate Oldest(p: Memory, lo: int, hi: int, a: int, e: int) {
    lo <= e < hi && Records(p, e, a) && forall i {:trigger Records(p, i, a)} :: lo <= i < e ==> !Records(p, i, a)
  }

  /** Early reset has deleted the oldest entry for a, which was an assignment that replaced
      something other than an unbound variable. */
  ghost predicate AssignmentLost(p: Memory, l: Memory, lo: int, hi: int, a: int) {
    exists e {:trigger Oldest(p, lo, hi, a, e)} ::
      Oldest(p, lo, hi, a, e) && 0 <= e < |l| && l[e].word == Var && Undone(p, e, hi) != Var
  }

  lemma {:induction false} FindOldest(p: Memory, lo: int, hi: int, a: int) returns (e: int)
    requires lo <= hi
    ensures lo <= e <= hi && (e < hi ==> Oldest(p, lo, hi, a, e))
    ensures e == hi ==> forall i {:trigger Records(p, i, a)} :: lo <= i < hi ==> !Records(p, i, a)
  {
    e := lo;
    while e < hi && !Records(p, e, a)
      invariant lo <= e <= hi && forall i {:trigger Records(p, i, a)} :: lo <= i < e ==> !Records(p, i, a)
    {
      e := e + 1;
    }
  }

  /** Memory r of stage j, when l is memory at the end. */
  ghost predicate Between(y: Layout, p: Memory, r: Memory, te: int, l: Memory) {
    && |p| == |r| == |l| && Emptied(y, p, r) && Emptied(y, r, l) && 0 <= y.tBase <= te + 1 && te < y.tTop < |p|
    && (forall e {:trigger l[e]} :: te < e < y.tTop && 0 <= e < |l| ==> l[e].word == r[e].word)
    && (forall e {:trigger p[e]} :: y.tBase <= e < y.tTop && 0 <= e < |p| ==> p[e].word.Ptr?)
    && (forall e {:trigger p[e]} :: y.tBase <= e < y.tTop && IsSavedValue(p[e].word) ==>
          p[e].word.addr < |p| && !OnTrail(y, p[e].word.addr) && Marked(p, p[e].word.addr))
    && !IsSavedValue(p[y.tTop].word)
  }

  lemma {:induction false} UndoSame(y: Layout, p: Memory, r: Memory, te: int, l: Memory, a: int)
    requires Between(y, p, r, te, l) && Tracked(y, p, r, te, a) && !OnTrail(y, a) && Marked(r, a)
    ensures Undo(l, te + 1, y.tTop, a) == Undo(p, te + 1, y.tTop, a) <==> !AssignmentLost(p, l, te + 1, y.tTop, a)
  {
    var lo, hi := te + 1, y.tTop;
    var e := FindOldest(p, lo, hi, a);
    assert l[a].word == r[a].word;
    forall i | lo <= i < hi
      ensures Records(l, i, a) ==> Records(p, i, a)
    {
      assert l[i].word == r[i].word;
      assert r[i].word == p[i].word || r[i].word == Var;
    }
    if e == hi {
      UndoNone(p, lo, hi, a);
      UndoNone(l, lo, hi, a);
    } else {
      UndoOldest(p, lo, hi, a, e);
      assert l[e].word == r[e].word;
      if r[e].word == Var {
        LostOldest(y, p, r, te, l, a, e);
      } else {
        KeptOldest(y, p, r, te, l, a, e);
      }
    }
  }

  lemma {:induction false} LostOldest(y: Layout, p: Memory, r: Memory, te: int, l: Memory, a: int, e: int)
    requires Between(y, p, r, te, l) && Tracked(y, p, r, te, a) && !OnTrail(y, a) && Marked(r, a)
    requires Oldest(p, te + 1, y.tTop, a, e) && r[e].word == Var && l[e].word == Var
    ensures Undo(l, te + 1, y.tTop, a) == Var
    ensures Undone(p, e, y.tTop) == Var <==> !AssignmentLost(p, l, te + 1, y.tTop, a)
  {
    forall i {:trigger Records(l, i, a)} | te + 1 <= i < y.tTop
      ensures !Records(l, i, a)
    {
      assert l[i].word == r[i].word;
      if Records(p, i, a) {
        assert i >= e;
        assert r[i].word == Var;
      } else {
        assert r[i].word == p[i].word || r[i].word == Var;
      }
    }
    UndoNone(l, te + 1, y.tTop, a);
    assert l[a].word == r[a].word == Var;
    forall i {:trigger Oldest(p, te + 1, y.tTop, a, i)} | Oldest(p, te + 1, y.tTop, a, i)
      ensures i == e
    {
    }
  }

  lemma {:induction false} KeptOldest(y: Layout, p: Memory, r: Memory, te: int, l: Memory, a: int, e: int)
    requires Between(y, p, r, te, l) && Tracked(y, p, r, te, a) && !OnTrail(y, a) && Marked(r, a)
    requires Oldest(p, te + 1, y.tTop, a, e) && r[e].word != Var && l[e].word == r[e].word
    ensures Undo(l, te + 1, y.tTop, a) == Undone(p, e, y.tTop) && !AssignmentLost(p, l, te + 1, y.tTop, a)
  {
    assert KeptAt(p, r, e);
    forall i {:trigger Records(l, i, a)} | te + 1 <= i < e
      ensures !Records(l, i, a)
    {
      assert l[i].word == r[i].word && !Records(p, i, a);
      assert r[i].word == p[i].word || r[i].word == Var;
    }
    UndoOldest(l, te + 1, y.tTop, a, e);
    SameUndone(y, p, r, te, l, e);
    forall i {:trigger Oldest(p, te + 1, y.tTop, a, i)} | Oldest(p, te + 1, y.tTop, a, i)
      ensures i == e
    {
    }
  }

  lemma SameUndone(y: Layout, p: Memory, r: Memory, te: int, l: Memory, e: int)
    requires Between(y, p, r, te, l) && te < e < y.tTop && KeptAt(p, r, e)
    ensures Undone(l, e, y.tTop) == Undone(p, e, y.tTop)
  {
    assert r[e + 1].word == p[e + 1].word || r[e + 1].word == Var;
    assert l[e + 1].word == r[e + 1].word || l[e + 1].word == Var;
    if IsSavedValue(p[e + 1].word) {
      var a := p[e + 1].word.addr;
      assert r[a].word == p[a].word && Marked(r, a);
      assert l[a].word == r[a].word;
    }
  }

  // ---------- seen from the start of the collection

  ghost predicate SameWords(p: Memory, q: Memory) {
    |p| == |q| && forall a {:trigger p[a]} {:trigger q[a]} :: 0 <= a < |p| ==> p[a].word == q[a].word
  }

  lemma {:induction false} UndoWords(p: Memory, q: Memory, lo: int, hi: int, a: int)
    requires SameWords(p, q) && 0 <= a < |p|
    ensures Undo(p, lo, hi, a) == Undo(q, lo, hi, a)
    decreases hi - lo
  {
    if lo < hi {
      assert Records(p, lo, a) <==> Records(q, lo, a);
      UndoWords(p, q, lo + 1, hi, a);
      assert Records(p, lo, a) ==> Undone(p, lo, hi) == Undone(q, lo, hi);
    }
  }

  lemma LostWords(p: Memory, q: Memory, l: Memory, lo: int, hi: int, a: int)
    requires SameWords(p, q)
    ensures AssignmentLost(p, l, lo, hi, a) <==> AssignmentLost(q, l, lo, hi, a)
  {
    assert forall e :: Records(p, e, a) <==> Records(q, e, a);
    forall e
      ensures Oldest(p, lo, hi, a, e) <==> Oldest(q, lo, hi, a, e)
      ensures Oldest(p, lo, hi, a, e) ==> Undone(p, e, hi) == Undone(q, e, hi)
    {
    }
    if AssignmentLost(p, l, lo, hi, a) {
      var e :| Oldest(p, lo, hi, a, e) && 0 <= e < |l| && l[e].word == Var && Undone(p, e, hi) != Var;
      assert Oldest(q, lo, hi, a, e);
    }
    if AssignmentLost(q, l, lo, hi, a) {
      var e :| Oldest(q, lo, hi, a, e) && 0 <= e < |l| && l[e].word == Var && Undone(q, e, hi) != Var;
      assert Oldest(p, lo, hi, a, e);
    }
  }

  /** An older choice point saved a lower trail and a lower local stack. */
  ghost predicate Older(y: Layout, l: Memory) {
    && |y.choices| <= |y.trailTops|
    && forall i, j {:trigger y.choices[i], y.choices[j]} :: 0 <= i < j < |y.choices| ==>
         y.choices[j].top <= y.choices[i].top && TrailTop(y, l, j) <= TrailTop(y, l, i)
  }

  lemma {:induction false} ScanReaches(y: Layout, p: Memory, hs: seq<Stage>, l: Memory, te: int)
    requires |y.objs| >= 2 && 0 < |hs| <= |y.choices| && |hs| <= |y.trailTops| && History(y, p, hs, l, te) == true
    requires Origin(y, p) == true && Older(y, p) == true
    ensures te == TrailTop(y, p, |hs| - 1) - 1
    decreases |hs|
  {
    hide History, HasStage, Origin, Emptied, StillThere, Live, Staged, Older;
    var n := |hs| - 1;
    HistoryParts(y, p, hs, l, te);
    HistoryStays(y, p, hs[..n], hs[n].start, hs[n].te);
    ThereBounds(y, p, hs[n].start, hs[n].te);
    StageIsStaged(y, n, hs[n], l, te);
    SameTop(y, p, hs[n].start, n);
    TopInside(y, p, n);
    if n > 0 {
      ScanReaches(y, p, hs[..n], hs[n].start, hs[n].te);
      OlderTops(y, p, n - 1, n);
    } else {
      assert hs[..n] == [];
      NoHistory(y, p, hs[n].start, hs[n].te);
    }
  }

  lemma {:induction false} NoHistory(y: Layout, p: Memory, l: Memory, te: int)
    requires |y.objs| >= 2 && History(y, p, [], l, te) == true
    ensures l == p && te == y.tTop - 1
  {
  }

  lemma OlderTops(y: Layout, p: Memory, i: int, j: int)
    requires Older(y, p) && 0 <= i < j < |y.choices|
    ensures y.choices[j].top <= y.choices[i].top && TrailTop(y, p, j) <= TrailTop(y, p, i)
  {
  }

  lemma TopInside(y: Layout, p: Memory, j: int)
    requires Origin(y, p) && 0 <= j < |y.trailTops|
    ensures y.trailTops[j] < |p| && p[y.trailTops[j]].word.Ptr? && y.tBase <= TrailTop(y, p, j) <= y.tTop
  {
    ChoiceTop(y, p, j);
  }

  lemma SameTop(y: Layout, p: Memory, r: Memory, j: int)
    requires Emptied(y, p, r) && 0 <= j < |y.trailTops|
    ensures TrailTop(y, r, j) == TrailTop(y, p, j)
  {
    assert y.trailTops[j] in y.trailTops;
  }

  lemma IsBetween(y: Layout, p: Memory, r: Memory, te: int, l: Memory)
    requires Origin(y, p) && StillThere(y, p, r, te) && Emptied(y, p, r) && Emptied(y, r, l)
    requires forall e {:trigger l[e]} :: te < e < y.tTop && 0 <= e < |l| ==> l[e].word == r[e].word
    ensures Between(y, p, r, te, l) == true
  {
    forall e {:trigger p[e]} | y.tBase <= e < y.tTop && IsSavedValue(p[e].word)
      ensures p[e].word.addr < |p| && !OnTrail(y, p[e].word.addr) && Marked(p, p[e].word.addr)
    {
      assert OnTrail(y, e);
      SavedSource(y, p, e);
    }
  }

  /** Backtracking to choice point j sets a cell that is live at j to the same word, whether the
      collector has reset variables early or not; except when it has deleted the oldest
      assignment to the cell, and that assignment replaced something. */
  lemma {:induction false} UndoneAlike(y: Layout, p: Memory, hs: seq<Stage>, te: int, l: Memory, j: int, a: int)
    requires |y.objs| >= 2 && |hs| == |y.choices| <= |y.trailTops| && History(y, p, hs, l, te) == true
    requires Origin(y, p) == true && Older(y, p) == true && 0 <= j < |hs|
    requires Marked(After(hs, l, j), a) && a < y.choices[j].top && !OnTrail(y, a)
    ensures 0 <= a < |l| == |p|
    ensures Undo(l, TrailTop(y, p, j), y.tTop, a) == Undo(p, TrailTop(y, p, j), y.tTop, a) <==>
            !AssignmentLost(p, l, TrailTop(y, p, j), y.tTop, a)
  {
    hide History, HasStage, Origin, Emptied, StillThere, Live, Staged, Older, Undo, AssignmentLost, Tracked, Between;
    var r, rt := After(hs, l, j), ScannedTo(hs, te, j);
    LaterStages(y, p, hs, l, te, j);
    HistoryStays(y, p, hs[..j + 1], r, rt);
    ThereBounds(y, p, r, rt);
    ScanReaches(y, p, hs[..j + 1], r, rt);
    forall i {:trigger y.choices[i]} | 0 <= i < j + 1
      ensures a < y.choices[i].top
    {
      if i < j {
        OlderTops(y, p, i, j);
      }
    }
    HistoryTracks(y, p, hs[..j + 1], r, rt, a);
    IsBetween(y, p, r, rt, l);
    UndoSame(y, p, r, rt, l, a);
  }
}
