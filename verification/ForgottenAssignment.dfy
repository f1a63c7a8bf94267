/** Early reset forgets destructive assignments (pl-gc.c, mark_choicepoints()): a term f(1), whose
    argument was replaced by 2 after the last choice point and which only the frames of that
    choice point can see, does not come back as f(1) when the machine backtracks. */
module ForgottenAssignment {
  import opened Words
  import opened GlobalStack
  import opened Terms
  import opened Stacks
  import opened EarlyReset
  import opened GarbageCollection
  import opened Backtracking
  import opened Visibility
  import opened Preservation
  import opened UndoAfter
  import R = Relocation

  function Plain(w: Word): Cell {
    Cell(w, false, false)
  }

  /** The term f(2), the old argument, the top of the global stack; the variable of the frame of
      the choice point, its saved tops; the assignment on the trail, and the top of the trail. */
  const STACKS: Memory := [
    Plain(Functor(0, 1)), Plain(Atomic(2)), Plain(Atomic(1)), Plain(Var),
    Plain(Ptr(Compound, 0)), Plain(Ptr(Address, 7)), Plain(Ptr(Address, 3)),
    Plain(Ptr(Address, 1)), Plain(Ptr(TRAILVAL, 2)), Plain(Var)]

  const LAYOUT := Layout([0, 1, 2, 3, 4], map[1 := 0], 4, 7, 9, [], [Choice([], 5, [4])], [5], [6], {2})

  lemma Objects(a: int)
    ensures IsObject(LAYOUT.objs, a) <==> 0 <= a <= 3
    ensures Slot(LAYOUT, a) <==> a == 4
  {
    assert 0 <= a <= 3 ==> LAYOUT.objs[a] == a;
    assert LAYOUT.choices[0].frames == [4];
  }

  lemma GlobalVars(a: int)
    requires a == 1 || a == 2
    ensures GlobalVar(LAYOUT, STACKS, a)
  {
    Objects(a);
  }

  lemma PlacedFine()
    ensures Placed(LAYOUT, |STACKS|)
  {
    forall a
      ensures Slot(LAYOUT, a) ==> Local(LAYOUT, |STACKS|, a)
    {
      Objects(a);
    }
  }

  lemma LaidFine()
    ensures Laid(STACKS, LAYOUT.objs)
  {
    forall i | 0 <= i < 4
      ensures ObjectAt(STACKS, LAYOUT.objs, i)
    {
    }
  }

  lemma OwnersFine()
    ensures ArgumentsOwned(HeapOf(LAYOUT, STACKS))
  {
    forall a
      ensures FunctorAt(HeapOf(LAYOUT, STACKS), a) <==> a == 0
    {
      Objects(a);
    }
    Objects(1);
  }

  lemma ObjectsFine(a: int)
    requires IsObject(LAYOUT.objs, a)
    ensures ObjectOk(HeapOf(LAYOUT, STACKS), a)
  {
    Objects(a);
  }

  lemma GlobalFine()
    ensures Placed(LAYOUT, |STACKS|) && WellFormed(HeapOf(LAYOUT, STACKS))
  {
    PlacedFine();
    LaidFine();
    OwnersFine();
    hide Placed, Laid, ArgumentsOwned, ObjectOk, IsObject;
    forall a {:trigger IsObject(LAYOUT.objs, a)} | IsObject(LAYOUT.objs, a)
      ensures ObjectOk(HeapOf(LAYOUT, STACKS), a)
    {
      ObjectsFine(a);
    }
  }

  lemma LocalsFine()
    ensures |LAYOUT.objs| >= 2 && LocalOk(LAYOUT, STACKS) && SavedOk(LAYOUT, STACKS)
  {
    forall a
      ensures Slot(LAYOUT, a) <==> a == 4
    {
      Objects(a);
    }
    Objects(0);
    GlobalVars(2);
    hide GlobalVar;
  }

  lemma FieldsFine()
    ensures MarkFieldsOk(LAYOUT, STACKS)
  {
    Objects(3);
  }

  lemma TrailFine()
    ensures |LAYOUT.objs| >= 2 && TrailOk(LAYOUT, STACKS)
  {
    GlobalVars(1);
    GlobalVars(2);
    hide GlobalVar;
    forall e {:trigger EntryOk(LAYOUT, STACKS, e)} | OnTrail(LAYOUT, e)
      ensures EntryOk(LAYOUT, STACKS, e)
    {
      assert e == 7 || e == 8 || e == 9;
    }
  }

  /** These are stacks as the collector expects them. */
  lemma StacksFine()
    ensures Backtrackable(LAYOUT, STACKS)
  {
    GlobalFine();
    LocalsFine();
    FieldsFine();
    TrailFine();
    hide Placed, WellFormed, LocalOk, SavedOk, MarkFieldsOk, TrailOk, Slot;
    forall a
      ensures Slot(LAYOUT, a) <==> a == 4
    {
      Objects(a);
    }
    assert LocalsOk(LAYOUT, STACKS);
    assert IsSavedValue(STACKS[8].word);
  }

  /** Before the choice point is taken nothing sees the argument, */
  lemma NotVisible()
    ensures !Visible(LAYOUT, STACKS, QueryRoots(LAYOUT, 0), 1)
  {
    Objects(1);
    forall s | Source(LAYOUT, STACKS, s) && (s in QueryRoots(LAYOUT, 0) || s in LAYOUT.saved)
      ensures !Reach(HeapOf(LAYOUT, STACKS), s, 1)
    {
      Objects(s);
      if n: nat :| ReachIn(HeapOf(LAYOUT, STACKS), s, 1, n) {
        ReachClosed(HeapOf(LAYOUT, STACKS), s, 1, n, iset{2});
      }
    }
  }

  lemma FrameUnchanged(a: int)
    requires a == 0 || a == 4
    ensures ResetMemory(LAYOUT, STACKS, 1)[a].word == STACKS[a].word
  {
    ResetCell(LAYOUT, STACKS, 0, a);
  }

  /** and afterwards its frame does. */
  lemma FrameSees()
    ensures SeenFrom(LAYOUT, STACKS, 0, 1)
  {
    var m := ResetMemory(LAYOUT, STACKS, 1);
    FrameUnchanged(0);
    FrameUnchanged(4);
    hide ResetMemory;
    Objects(4);
    assert 4 in FrameRoots(LAYOUT, 1) by {
      assert LAYOUT.choices[0].frames == [4];
      assert Passed(LAYOUT, 1, 4);
    }
    var h := HeapOf(LAYOUT, m);
    ReachSelf(h, 4);
    ReachStep(h, 4, 4, 0);
    ReachStep(h, 4, 0, 1);
    assert Source(LAYOUT, m, 4);
  }

  lemma IsForgotten()
    ensures WillLose(LAYOUT, STACKS, 0, 1) && Undo(STACKS, 7, 9, 1) == Atomic(1) && TrailTop(LAYOUT, STACKS, 0) == 7
  {
    NotVisible();
    assert Records(STACKS, 7, 1);
    assert Oldest(STACKS, TrailTop(LAYOUT, STACKS, 0), LAYOUT.tTop, 1, 7);
    assert Undone(STACKS, 7, 9) == Atomic(1);
    assert InSegment(LAYOUT, STACKS, 0, 7);
  }

  /** Any collection of these stacks makes backtracking give the argument another value. */
  lemma AssignmentIsLost(pre: Memory, hs: seq<Stage>, te: int, l: Memory, m: Memory)
    requires CollectedFrom(LAYOUT, STACKS, pre, hs, te, l, m)
    ensures |l| == |STACKS| && Undo(STACKS, 7, 9, 1) == Atomic(1) && Undo(l, 7, 9, 1) != Atomic(1)
  {
    hide CollectedFrom;
    StacksFine();
    IsForgotten();
    FrameSees();
    hide Backtrackable, WillLose, SeenFrom;
    ResetIsSafe(LAYOUT, STACKS, pre, hs, te, l, m, 0, 1);
  }

  /** The collector can be called with these stacks. */
  lemma CanCollect(ld: R.LocalData)
    requires ld.mem[..] == STACKS && ld.gBase == 0 && ld.gTop == 3 && ld.lBase == 4 && ld.tBase == 7 && ld.tTop == 9
    ensures Collectable(ld, LAYOUT) && Capped(LAYOUT, ld.mem[..]) == STACKS
  {
    StacksFine();
    hide StacksOk, LocalsOk;
    assert Capped(LAYOUT, STACKS) == STACKS;
    forall a {:trigger STACKS[a]} | 0 <= a < |STACKS|
      ensures !STACKS[a].mark
    {
    }
  }

  /** The collector runs and forgets the assignment. */
  method Forget() returns (ghost l: Memory)
    ensures |l| == |STACKS| && Undo(STACKS, 7, 9, 1) == Atomic(1) && Undo(l, 7, 9, 1) != Atomic(1)
  {
    hide Collectable, CollectedFrom, Undo;
    var stacks := STACKS;
    var mem := new Cell[|stacks|](i requires 0 <= i < |stacks| => stacks[i]);
    assert mem[..] == STACKS;
    var ld := new R.LocalData(mem);
    ld.gBase, ld.gTop, ld.lBase, ld.tBase, ld.tTop := 0, 3, 4, 7, 9;
    CanCollect(ld);
    ghost var pre, hs, te;
    pre, hs, te, l := GarbageCollect(ld, LAYOUT.foreign, LAYOUT.choices, LAYOUT.trailTops, LAYOUT.globalTops, LAYOUT);
    AssignmentIsLost(pre, hs, te, l, mem[..]);
  }
}
