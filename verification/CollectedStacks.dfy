/** After a garbage collection the stacks are as the collector expects them again: the checks that
    garbageCollect() makes at its end (pl-gc.c, scan_global()) cannot fail, and another collection
    may follow. */
module CollectedStacks {
  import opened Words
  import opened GlobalStack
  import opened Terms
  import opened Stacks
  import opened MarkPhase
  import opened EarlyReset
  import opened GarbageCollection
  import opened Isomorphism
  import opened Backtracking
  import opened Preservation
  import opened UndoAfter
  import V = Visibility
  import R = Relocation
  import T = TrailCompaction
  import S = Sweep

  // ---------- where everything is

  /** The new addresses of the live objects among the first i. */
  ghost function Homes(y: Layout, l: Memory, i: nat): seq<int>
    requires i <= |y.objs|
  {
    if i == 0 then []
    else Homes(y, l, i - 1) + (if Marked(l, y.objs[i - 1]) then [NewAt(l, y.objs, i - 1)] else [])
  }

  ghost function NewTop(y: Layout, l: Memory): int
    requires |y.objs| >= 2
  {
    NewAt(l, y.objs, |y.objs| - 1)
  }

  ghost function NewObjs(y: Layout, l: Memory): (s: seq<int>)
    requires |y.objs| >= 2
    ensures |s| >= 2 && s[|s| - 2] == NewTop(y, l) && s[|s| - 1] == NewTop(y, l) + 1
  {
    Homes(y, l, |y.objs| - 1) + [NewTop(y, l), NewTop(y, l) + 1]
  }

  /** The live argument x of a live term goes to b. */
  ghost predicate OwnedAt(y: Layout, l: Memory, x: int, b: int) {
    x in y.owner && IsObject(y.objs, x) && IsObject(y.objs, y.owner[x]) && Marked(l, x) && Marked(l, y.owner[x]) && Home(y, l, x) == b
  }

  ghost function OwnerAt(y: Layout, l: Memory, b: int): int
    requires exists x :: OwnedAt(y, l, x, b)
  {
    var x :| OwnedAt(y, l, x, b);
    Home(y, l, y.owner[x])
  }

  ghost function NewOwner(y: Layout, l: Memory): map<int, int>
    requires |y.objs| >= 2
  {
    map b | b in Range(y.objs[0], NewTop(y, l)) && exists x :: OwnedAt(y, l, x, b) :: OwnerAt(y, l, b)
  }

  ghost predicate SavedAt(y: Layout, l: Memory, e: int) {
    0 <= e < |l| && IsSavedValue(l[e].word) && IsObject(y.objs, l[e].word.addr)
  }

  /** The old values of the assignments that are left on the trail. */
  ghost function NewSaved(y: Layout, l: Memory): set<int> {
    set e | e in Range(y.tBase, y.tTop) && SavedAt(y, l, e) :: Home(y, l, l[e].word.addr)
  }

  /** The stacks after the collection that makes m of l. */
  ghost function Moved(y: Layout, l: Memory): Layout
    requires |y.objs| >= 2
  {
    y.(objs := NewObjs(y, l), owner := NewOwner(y, l), tTop := T.NewEntry(y, l, y.tTop), saved := NewSaved(y, l))
  }

  /** l is live, m is what the collection makes of it, and all that the trail records is live. */
  ghost predicate Finished(y: Layout, l: Memory, m: Memory) {
    Live(y, l) && Collected(y, l, m) && AllKept(y, l, y.tBase) && SavedLive(y, l)
  }

  lemma FinishedParts(y: Layout, l: Memory, m: Memory)
    requires Finished(y, l, m) == true
    ensures Live(y, l) == true && Collected(y, l, m) == true && AllKept(y, l, y.tBase) == true && SavedLive(y, l) == true
    ensures |y.objs| >= 2 && |l| == |m| && StacksOk(y, l) == true && BitsHome(y, l, m) == true
  {
  }

  // ---------- objects

  ghost predicate GoesTo(y: Layout, l: Memory, o: int, b: int) {
    IsObject(y.objs, o) && Marked(l, o) && Home(y, l, o) == b
  }

  ghost predicate IsHome(y: Layout, l: Memory, b: int) {
    exists o :: GoesTo(y, l, o, b)
  }

  lemma {:induction false} HomesAre(y: Layout, l: Memory, i: nat, k: nat) returns (j: nat)
    requires i <= |y.objs| && k < |Homes(y, l, i)|
    ensures j < i && Marked(l, y.objs[j]) && Homes(y, l, i)[k] == NewAt(l, y.objs, j)
    decreases i
  {
    if k < |Homes(y, l, i - 1)| {
      j := HomesAre(y, l, i - 1, k);
    } else {
      j := i - 1;
    }
  }

  lemma {:induction false} HomesHave(y: Layout, l: Memory, i: nat, j: nat)
    requires j < i <= |y.objs| && Marked(l, y.objs[j])
    ensures exists k :: 0 <= k < |Homes(y, l, i)| && Homes(y, l, i)[k] == NewAt(l, y.objs, j)
    decreases i
  {
    if j < i - 1 {
      HomesHave(y, l, i - 1, j);
      var k :| 0 <= k < |Homes(y, l, i - 1)| && Homes(y, l, i - 1)[k] == NewAt(l, y.objs, j);
      assert Homes(y, l, i)[k] == NewAt(l, y.objs, j);
    } else {
      assert Homes(y, l, i)[|Homes(y, l, i)| - 1] == NewAt(l, y.objs, j);
    }
  }

  /** The object in place j goes to its new address. */
  lemma {:induction false} PlaceGoes(y: Layout, l: Memory, j: int)
    requires Live(y, l) == true && 0 <= j < |y.objs| - 1
    ensures IsObject(y.objs, y.objs[j]) && Home(y, l, y.objs[j]) == NewAt(l, y.objs, j)
  {
    LaidOut(y, l);
    ToAt(l, y.objs, j);
  }

  lemma {:induction false} NewObjects(y: Layout, l: Memory, b: int)
    requires Live(y, l) == true && |y.objs| >= 2
    ensures IsObject(NewObjs(y, l), b) <==> b == NewTop(y, l) || IsHome(y, l, b)
  {
    hide Live, NewAt, Home, Homes;
    var h, s := Homes(y, l, |y.objs| - 1), NewObjs(y, l);
    if IsObject(s, b) {
      var k :| 0 <= k < |s| - 1 && s[k] == b;
      if k < |h| {
        var j := HomesAre(y, l, |y.objs| - 1, k);
        PlaceGoes(y, l, j);
        assert GoesTo(y, l, y.objs[j], b);
      }
    }
    if IsHome(y, l, b) {
      var o :| GoesTo(y, l, o, b);
      var j := Index(y.objs, o);
      PlaceGoes(y, l, j);
      HomesHave(y, l, |y.objs| - 1, j);
      var k :| 0 <= k < |h| && h[k] == NewAt(l, y.objs, j);
      assert s[k] == b;
    }
    if b == NewTop(y, l) {
      assert s[|s| - 2] == b;
    }
  }

  lemma {:induction false} HomeBelowTop(y: Layout, l: Memory, o: int)
    requires Live(y, l) == true && |y.objs| >= 2 && IsObject(y.objs, o)
    ensures 0 <= o < |l| && y.objs[0] <= Home(y, l, o) <= NewTop(y, l)
    ensures Marked(l, o) ==> Home(y, l, o) + Size(l[o].word) <= NewTop(y, l) && o < GTop(y)
  {
    hide *;
    ObjectIndex(y, l, o);
    LaidOut(y, l);
    HomeIs(y, l, o);
    NewAtMonotone(l, y.objs, Index(y.objs, o), |y.objs| - 1);
    NewAtBelow(l, y.objs, Index(y.objs, o));
    TopIs(y, l);
    if Marked(l, o) {
      LiveBelow(y, l, o);
    }
  }

  lemma TopIs(y: Layout, l: Memory)
    requires |y.objs| >= 2
    ensures NewTop(y, l) == NewAt(l, y.objs, |y.objs| - 1)
  {
    hide NewAt;
  }

  lemma LiveBelow(y: Layout, l: Memory, o: int)
    requires Live(y, l) == true && IsObject(y.objs, o) && Marked(l, o)
    ensures |y.objs| >= 2 && o < GTop(y)
  {
    hide Live;
    LaidOut(y, l);
    var i := Index(y.objs, o);
    if i < |y.objs| - 2 {
      Increasing(l, y.objs, i, |y.objs| - 2);
    }
  }

  lemma {:induction false} TopBelow(y: Layout, l: Memory)
    requires Live(y, l) == true && |y.objs| >= 2
    ensures 0 <= y.objs[0] <= NewTop(y, l) <= GTop(y) < GTop(y) + 1 <= y.lBase <= y.tBase <= T.NewEntry(y, l, y.tTop) <= y.tTop < |l|
    ensures GTop(y) + 1 == y.objs[|y.objs| - 1]
  {
    LaidOut(y, l);
    var n := |y.objs| - 2;
    NewAtBelow(l, y.objs, n);
    assert ObjectAt(l, y.objs, n) && ObjectAt(l, y.objs, 0);
    assert NewAt(l, y.objs, n + 1) == NewAt(l, y.objs, n);
  }

  /** Memory with the sentinels that the next collection writes. */
  ghost predicate CappedAt(y: Layout, l: Memory, m: Memory, c: Memory)
    requires |y.objs| >= 2
  {
    |c| == |m| && forall a {:trigger c[a]} :: 0 <= a < |m| ==>
      c[a] == if a == NewTop(y, l) || a == T.NewEntry(y, l, y.tTop) then Zero else m[a]
  }

  lemma CapsAre(y: Layout, l: Memory, m: Memory)
    requires Finished(y, l, m) == true && |y.objs| >= 2
    ensures CappedAt(y, l, m, Capped(Moved(y, l), m))
  {
    FinishedParts(y, l, m);
    TopBelow(y, l);
    hide Finished, Live, Collected, NewAt, T.NewEntry, NewOwner, NewSaved, StacksOk, BitsHome, Homes;
  }

  /** The cell to which a live object goes. */
  lemma {:induction false} HomeCell(y: Layout, l: Memory, m: Memory, c: Memory, o: int)
    requires Finished(y, l, m) == true && |y.objs| >= 2 && CappedAt(y, l, m, c) && IsObject(y.objs, o) && Marked(l, o)
    ensures 0 <= o < |l| && 0 <= Home(y, l, o) < |c| && c[Home(y, l, o)] == Cell(Renamed(y, l, l[o].word), false, false)
    ensures y.objs[0] <= Home(y, l, o) < NewTop(y, l) && o < GTop(y)
  {
    FinishedParts(y, l, m);
    HomeBelowTop(y, l, o);
    TopBelow(y, l);
    hide Finished, Live, Collected, NewAt, T.NewEntry, StacksOk, BitsHome;
    HomeGiven(y, l, m, o);
    HomeIs(y, l, o);
    hide Renamed;
  }

  // ---------- the global stack is laid out again

  lemma {:induction false} HomeObject(y: Layout, l: Memory, m: Memory, i: int)
    requires Live(y, l) == true && Collected(y, l, m) == true && 0 <= i < |y.objs| - 1 && Marked(l, y.objs[i])
    ensures var o, d := y.objs[i], NewAt(l, y.objs, i);
            && 0 <= o < |l| && 0 <= d < d + Size(l[o].word) <= |m| && m[d] == Cell(Renamed(y, l, l[o].word), false, false)
            && NewAt(l, y.objs, i + 1) == d + Size(l[o].word)
            && (l[o].word.Header? ==> m[d + Size(l[o].word) - 1] == Cell(l[o].word, false, false))
  {
    hide Live, Collected, Laid, Renamed, NewAt;
    LaidOut(y, l);
    AnObject(l, y.objs, i);
    HomeAt(y, l, m, i);
    NewAtStep(l, y.objs, i);
  }

  lemma AnObject(l: Memory, objs: seq<int>, i: int)
    requires Laid(l, objs) == true && 0 <= i < |objs| - 1
    ensures ObjectAt(l, objs, i)
  {
  }

  lemma HomeAt(y: Layout, l: Memory, m: Memory, i: int)
    requires Collected(y, l, m) == true && 0 <= i < |y.objs| - 1
    ensures ObjectHome(y, l, m, i)
  {
    hide ObjectHome;
  }

  lemma RenamedSize(y: Layout, l: Memory, w: Word)
    ensures Size(Renamed(y, l, w)) == Size(w) && (Renamed(y, l, w).Header? ==> Renamed(y, l, w) == w)
    ensures IsValue(Renamed(y, l, w)) == IsValue(w) && (w.Functor? ==> Renamed(y, l, w) == w)
  {
    hide Home;
  }

  lemma {:induction false} HomesLaid(y: Layout, l: Memory, m: Memory, i: nat, k: nat)
    requires Live(y, l) == true && Collected(y, l, m) == true && i <= |y.objs| - 1 && k < |Homes(y, l, i)|
    ensures ObjectAt(m, Homes(y, l, i) + [NewAt(l, y.objs, i)], k)
    decreases i
  {
    hide Live, Collected, NewAt, Renamed;
    var s, next := Homes(y, l, i - 1) + [NewAt(l, y.objs, i - 1)], Homes(y, l, i) + [NewAt(l, y.objs, i)];
    NewAtNext(l, y.objs, i - 1);
    if k < |Homes(y, l, i - 1)| {
      HomesLaid(y, l, m, i - 1, k);
      assert next[k] == s[k] && next[k + 1] == s[k + 1];
    } else {
      HomeObject(y, l, m, i - 1);
      RenamedSize(y, l, l[y.objs[i - 1]].word);
      assert next[k] == NewAt(l, y.objs, i - 1) && next[k + 1] == NewAt(l, y.objs, i);
    }
  }

  lemma NewAtNext(l: Memory, objs: seq<int>, i: int)
    requires 0 <= i < |objs| - 1
    ensures !Marked(l, objs[i]) ==> NewAt(l, objs, i + 1) == NewAt(l, objs, i)
  {
  }

  lemma {:induction false} NewLaid(y: Layout, l: Memory, m: Memory, c: Memory)
    requires Finished(y, l, m) == true && |y.objs| >= 2 && CappedAt(y, l, m, c)
    ensures Laid(c, NewObjs(y, l)) == true
  {
    hide *;
    FinishedParts(y, l, m);
    TopBelow(y, l);
    TopCell(y, l, m, c);
    var n := |y.objs| - 1;
    var h, s := Homes(y, l, n), NewObjs(y, l);
    forall k {:trigger ObjectAt(c, s, k)} | 0 <= k < |h|
      ensures k < |s| - 1 && ObjectAt(c, s, k) == true
    {
      OneLaid(y, l, m, c, k);
    }
    NewObjsAre(y, l);
    LaidIf(c, s, |h|);
  }

  lemma NewObjsAre(y: Layout, l: Memory)
    requires |y.objs| >= 2
    ensures NewObjs(y, l) == Homes(y, l, |y.objs| - 1) + [NewTop(y, l), NewTop(y, l) + 1]
  {
    hide Homes, NewTop;
  }

  lemma LaidIf(c: Memory, s: seq<int>, n: nat)
    requires |s| == n + 2 && s[n + 1] == s[n] + 1 && 0 <= s[n] < |c| && c[s[n]] == Cell(Var, false, false)
    requires forall k {:trigger ObjectAt(c, s, k)} :: 0 <= k < n ==> ObjectAt(c, s, k) == true
    ensures Laid(c, s) == true
  {
    forall k {:trigger ObjectAt(c, s, k)} | 0 <= k < |s| - 1
      ensures ObjectAt(c, s, k)
    {
      assert k < n ==> ObjectAt(c, s, k);
    }
  }

  lemma {:induction false} OneLaid(y: Layout, l: Memory, m: Memory, c: Memory, k: nat)
    requires Finished(y, l, m) == true && |y.objs| >= 2 && CappedAt(y, l, m, c) == true && k < |Homes(y, l, |y.objs| - 1)|
    ensures k < |NewObjs(y, l)| - 1 && ObjectAt(c, NewObjs(y, l), k) == true
  {
    hide *;
    FinishedParts(y, l, m);
    SameLengthCapped(y, l, m, c);
    TopBelow(y, l);
    TopIs(y, l);
    NewObjsAre(y, l);
    var g := Homes(y, l, |y.objs| - 1) + [NewTop(y, l)];
    HomesLaid(y, l, m, |y.objs| - 1, k);
    HomesOrder(y, l, m, k);
    ObjectBounds(m, g, k);
    CapApart(y, l, m, c, g[k]);
    CapApart(y, l, m, c, g[k + 1] - 1);
    ObjectToo(m, c, g, NewObjs(y, l), k);
  }

  lemma ObjectBounds(m: Memory, s: seq<int>, k: nat)
    requires k < |s| - 1 && ObjectAt(m, s, k) == true
    ensures 0 <= s[k] < s[k + 1] <= |m|
  {
  }

  lemma ObjectToo(m: Memory, c: Memory, g: seq<int>, s: seq<int>, k: nat)
    requires k < |g| - 1 && k < |s| - 1 && ObjectAt(m, g, k) && s[k] == g[k] && s[k + 1] == g[k + 1] && |c| == |m|
    requires c[g[k]] == m[g[k]] && c[g[k + 1] - 1] == m[g[k + 1] - 1]
    ensures ObjectAt(c, s, k) == true
  {
  }

  /** The new addresses increase up to the new top. */
  lemma {:induction false} HomesOrder(y: Layout, l: Memory, m: Memory, k: nat)
    requires Live(y, l) == true && Collected(y, l, m) == true && |y.objs| >= 2 && k < |Homes(y, l, |y.objs| - 1)|
    ensures var g := Homes(y, l, |y.objs| - 1) + [NewTop(y, l)]; g[k] < NewTop(y, l) && g[k + 1] <= NewTop(y, l)
  {
    hide *;
    var n := |y.objs| - 1;
    var g := Homes(y, l, n) + [NewTop(y, l)];
    var j := HomesAre(y, l, n, k);
    PlaceGoes(y, l, j);
    HomeBelowTop(y, l, y.objs[j]);
    SizePositive(l[y.objs[j]].word);
    if k + 1 < |Homes(y, l, n)| {
      var i := HomesAre(y, l, n, k + 1);
      PlaceGoes(y, l, i);
      HomeBelowTop(y, l, y.objs[i]);
    }
  }

  // ---------- objects and terms

  lemma HasObject(y: Layout, l: Memory, w: Word)
    requires |y.objs| >= 2 && PointsRight(HeapOf(y, l), w) == true && w.Ptr?
    ensures IsObject(y.objs, w.addr) && w.addr < |l| && w.addr < GTop(y) && w.tag != Address
    ensures w.tag == Reference ==> IsValue(l[w.addr].word)
    ensures w.tag == Compound ==> l[w.addr].word.Functor?
    ensures w.tag != Reference && w.tag != Compound ==> l[w.addr].word.Header?
  {
  }

  /** A word leads to an object of the right kind. */
  lemma LeadsRight(h: Heap, w: Word)
    requires |h.objs| >= 2 && w.Ptr? && IsObject(h.objs, w.addr) && w.addr < |h.mem| && w.addr < h.objs[|h.objs| - 2] && w.tag != Address
    requires w.tag == Reference ==> IsValue(h.mem[w.addr].word)
    requires w.tag == Compound ==> h.mem[w.addr].word.Functor?
    requires w.tag != Reference && w.tag != Compound ==> h.mem[w.addr].word.Header?
    ensures PointsRight(h, w) == true
  {
  }

  lemma IsRenamed(y: Layout, l: Memory, w: Word)
    requires w.Ptr? && IsObject(y.objs, w.addr) && Home(y, l, w.addr) >= 0
    ensures Renamed(y, l, w) == Ptr(w.tag, Home(y, l, w.addr))
  {
  }

  lemma HomeIsObject(y: Layout, l: Memory, o: int)
    requires Live(y, l) == true && |y.objs| >= 2 && IsObject(y.objs, o) && Marked(l, o)
    ensures IsObject(NewObjs(y, l), Home(y, l, o))
  {
    hide Live, Home;
    assert GoesTo(y, l, o, Home(y, l, o));
    NewObjects(y, l, Home(y, l, o));
  }

  lemma SizesOf(y: Layout, l: Memory)
    requires |y.objs| >= 2
    ensures Moved(y, l).objs == NewObjs(y, l) && |NewObjs(y, l)| >= 2 && GTop(Moved(y, l)) == NewTop(y, l)
    ensures Moved(y, l).owner == NewOwner(y, l) && Moved(y, l).saved == NewSaved(y, l) && Moved(y, l).tTop == T.NewEntry(y, l, y.tTop)
  {
  }

  lemma HeapIs(y: Layout, l: Memory, c: Memory)
    requires |y.objs| >= 2
    ensures HeapOf(Moved(y, l), c) == Heap(c, NewObjs(y, l), NewOwner(y, l)) && HeapOf(y, l) == Heap(l, y.objs, y.owner)
  {
  }

  /** A live word still leads to what its tag says. */
  lemma {:induction false} PointsAgain(y: Layout, l: Memory, m: Memory, c: Memory, w: Word)
    requires Finished(y, l, m) == true && |y.objs| >= 2 && CappedAt(y, l, m, c) == true
    requires PointsRight(HeapOf(y, l), w) == true && (w.Ptr? ==> Marked(l, w.addr))
    ensures |Moved(y, l).objs| >= 2 && PointsRight(HeapOf(Moved(y, l), c), Renamed(y, l, w)) == true
  {
    hide *;
    SizesOf(y, l);
    HeapIs(y, l, c);
    if w.Ptr? {
      FinishedParts(y, l, m);
      HasObject(y, l, w);
      HomeCell(y, l, m, c, w.addr);
      IsRenamed(y, l, w);
      HomeIsObject(y, l, w.addr);
      RenamedSize(y, l, l[w.addr].word);
      RenamedHeader(y, l, l[w.addr].word);
      LeadsRight(HeapOf(Moved(y, l), c), Renamed(y, l, w));
    } else {
      NotRenamed(y, l, w);
      NoPointer(HeapOf(Moved(y, l), c), w);
    }
  }

  lemma RenamedHeader(y: Layout, l: Memory, w: Word)
    ensures w.Header? || w.Functor? ==> Renamed(y, l, w) == w
  {
  }

  lemma NoPointer(h: Heap, w: Word)
    requires |h.objs| >= 2 && !w.Ptr?
    ensures PointsRight(h, w) == true
  {
  }

  lemma {:induction false} OneGoes(y: Layout, l: Memory, o: int, p: int, b: int)
    requires Live(y, l) == true && GoesTo(y, l, o, b) && GoesTo(y, l, p, b)
    ensures o == p
  {
    hide Live, Home;
    if o < p {
      ObjectOrder(y, l, o, p);
    } else if p < o {
      ObjectOrder(y, l, p, o);
    }
  }

  lemma {:induction false} ObjectIs(y: Layout, l: Memory, o: int)
    requires Live(y, l) == true && |y.objs| >= 2 && IsObject(y.objs, o) && Marked(l, o)
    ensures 0 <= o < |l| && PointsRight(HeapOf(y, l), l[o].word) == true && (l[o].word.Functor? ==> l[o].word.arity >= 1)
    ensures l[o].word.Ptr? ==> l[o].word.addr != o && Marked(l, l[o].word.addr) && IsObject(y.objs, l[o].word.addr)
  {
    LiveParts(y, l);
    hide Live, StacksOk, SlotsClosed, Rooted;
    assert ObjectOk(HeapOf(y, l), o);
    if l[o].word.Ptr? {
      assert Edge(HeapOf(y, l), o, l[o].word.addr);
    }
  }

  lemma {:induction false} ObjectAgain(y: Layout, l: Memory, m: Memory, c: Memory, b: int)
    requires Finished(y, l, m) == true && |y.objs| >= 2 && CappedAt(y, l, m, c) == true && IsObject(NewObjs(y, l), b)
    ensures |Moved(y, l).objs| >= 2 && ObjectOk(HeapOf(Moved(y, l), c), b) == true
  {
    hide *;
    FinishedParts(y, l, m);
    SizesOf(y, l);
    HeapIs(y, l, c);
    NewObjects(y, l, b);
    if b == NewTop(y, l) {
      TopCell(y, l, m, c);
      BareOk(HeapOf(Moved(y, l), c), b);
    } else {
      var o := Came(y, l, b);
      HomeCell(y, l, m, c, o);
      ObjectIs(y, l, o);
      PointsAgain(y, l, m, c, l[o].word);
      RenamedHeader(y, l, l[o].word);
      RenamedKind(y, l, l[o].word);
      if l[o].word.Ptr? {
        var p := l[o].word.addr;
        HomeCell(y, l, m, c, p);
        IsRenamed(y, l, l[o].word);
        Apart(y, l, o, p);
      }
      IsOk(HeapOf(Moved(y, l), c), b);
    }
  }

  lemma Came(y: Layout, l: Memory, b: int) returns (o: int)
    requires IsHome(y, l, b)
    ensures GoesTo(y, l, o, b) && IsObject(y.objs, o) && Marked(l, o) && Home(y, l, o) == b
  {
    o :| GoesTo(y, l, o, b);
  }

  lemma RenamedKind(y: Layout, l: Memory, w: Word)
    ensures Renamed(y, l, w).Ptr? <==> w.Ptr?
    ensures Renamed(y, l, w).Functor? <==> w.Functor?
  {
    hide Home;
  }

  lemma {:induction false} Apart(y: Layout, l: Memory, o: int, p: int)
    requires Live(y, l) == true && IsObject(y.objs, o) && IsObject(y.objs, p) && Marked(l, o) && Marked(l, p) && o != p
    ensures Home(y, l, o) != Home(y, l, p)
  {
    hide Live, Home;
    if Home(y, l, o) == Home(y, l, p) {
      OneGoes(y, l, o, p, Home(y, l, o));
    }
  }

  lemma {:induction false} TopCell(y: Layout, l: Memory, m: Memory, c: Memory)
    requires Finished(y, l, m) == true && |y.objs| >= 2 && CappedAt(y, l, m, c)
    ensures 0 <= NewTop(y, l) < |c| && c[NewTop(y, l)] == Zero && Zero == Cell(Var, false, false)
    ensures 0 <= T.NewEntry(y, l, y.tTop) < |c| && c[T.NewEntry(y, l, y.tTop)] == Zero
  {
    FinishedParts(y, l, m);
    TopBelow(y, l);
    hide Finished, Live, Collected, NewAt, T.NewEntry, StacksOk, BitsHome;
  }

  lemma BareOk(h: Heap, b: int)
    requires |h.objs| >= 2 && 0 <= b < |h.mem| && h.mem[b] == Cell(Var, false, false)
    ensures ObjectOk(h, b) == true
  {
  }

  lemma IsOk(h: Heap, b: int)
    requires |h.objs| >= 2 && 0 <= b < |h.mem| && !h.mem[b].first && (h.mem[b].word.Functor? ==> h.mem[b].word.arity >= 1)
    requires PointsRight(h, h.mem[b].word) == true && (h.mem[b].word.Ptr? ==> h.mem[b].word.addr != b)
    ensures ObjectOk(h, b) == true
  {
  }

  // ---------- the arguments of terms

  /** The arguments of a live term have their term as owner. */
  lemma {:induction false} OwnerGoes(y: Layout, l: Memory, f: int, i: int)
    requires Live(y, l) == true && |y.objs| >= 2 && IsObject(y.objs, f) && Marked(l, f) && 0 <= f < |l| && l[f].word.Functor? && 1 <= i <= l[f].word.arity
    ensures IsObject(y.objs, f + i) && Marked(l, f + i)
    ensures Home(y, l, f + i) == Home(y, l, f) + i && OwnedAt(y, l, f + i, Home(y, l, f) + i) == true
    ensures f + i in y.owner && y.owner[f + i] == f
  {
    hide Live, Home, IsObject;
    ArgumentKept(y, l, f, i);
    OwnsArgument(y, l, f, f + i);
  }

  lemma OwnsArgument(y: Layout, l: Memory, f: int, x: int)
    requires Live(y, l) == true && IsObject(y.objs, f) && 0 <= f < |l| && l[f].word.Functor? && f < x <= f + l[f].word.arity
    ensures x in y.owner && y.owner[x] == f
  {
    LiveParts(y, l);
    hide Live, StacksOk, Closed, SlotsClosed, Rooted;
    assert FunctorAt(HeapOf(y, l), f);
  }

  lemma OwnedTerm(y: Layout, l: Memory, x: int)
    requires Live(y, l) == true && x in y.owner
    ensures var f := y.owner[x];
            && IsObject(y.objs, f) && 0 <= f < |l| && l[f].word.Functor? && f < x <= f + l[f].word.arity && IsObject(y.objs, x) && x < |l|
            && IsValue(l[x].word)
  {
    LiveParts(y, l);
    hide Live, StacksOk, Closed, SlotsClosed, Rooted;
    assert FunctorAt(HeapOf(y, l), y.owner[x]);
  }

  lemma {:induction false} NewOwnerIs(y: Layout, l: Memory, x: int, b: int)
    requires Live(y, l) == true && |y.objs| >= 2 && OwnedAt(y, l, x, b)
    ensures b in NewOwner(y, l) && NewOwner(y, l)[b] == Home(y, l, y.owner[x])
  {
    hide *;
    OwnedIs(y, l, x, b);
    HomeBelowTop(y, l, x);
    SizePositive(l[x].word);
    var z := OwnerChosen(y, l, b, x);
    OwnedIs(y, l, z, b);
    OneHome(y, l, x, z);
    OwnerListed(y, l, b, x);
  }

  lemma OneHome(y: Layout, l: Memory, x: int, z: int)
    requires Live(y, l) == true && IsObject(y.objs, x) && IsObject(y.objs, z) && Marked(l, x) && Marked(l, z) && Home(y, l, x) == Home(y, l, z)
    ensures x == z
  {
    hide Live, Home;
    OneGoes(y, l, x, z, Home(y, l, x));
  }

  lemma OwnerChosen(y: Layout, l: Memory, b: int, x: int) returns (z: int)
    requires OwnedAt(y, l, x, b)
    ensures OwnedAt(y, l, z, b) && z in y.owner && IsObject(y.objs, y.owner[z]) && OwnerAt(y, l, b) == Home(y, l, y.owner[z])
  {
    hide Home;
    z :| OwnedAt(y, l, z, b) && OwnerAt(y, l, b) == Home(y, l, y.owner[z]);
  }

  lemma OwnerListed(y: Layout, l: Memory, b: int, x: int)
    requires |y.objs| >= 2 && y.objs[0] <= b < NewTop(y, l) && OwnedAt(y, l, x, b)
    ensures b in NewOwner(y, l) && NewOwner(y, l)[b] == OwnerAt(y, l, b)
  {
    hide Home, NewTop, OwnedAt, OwnerAt;
  }

  lemma SizePositive(w: Word)
    ensures Size(w) >= 1
  {
  }

  lemma {:induction false} NewOwned(y: Layout, l: Memory, b: int) returns (x: int)
    requires |y.objs| >= 2 && b in NewOwner(y, l)
    ensures OwnedAt(y, l, x, b)
  {
    x :| OwnedAt(y, l, x, b);
  }

  lemma {:induction false} FunctorFrom(y: Layout, l: Memory, m: Memory, c: Memory, b: int) returns (f: int)
    requires Finished(y, l, m) == true && |y.objs| >= 2 && CappedAt(y, l, m, c) == true && FunctorAt(HeapOf(Moved(y, l), c), b)
    ensures GoesTo(y, l, f, b) && 0 <= f < |l| && 0 <= b < |c| && l[f].word == c[b].word && l[f].word.Functor?
  {
    hide Finished, CappedAt, Live, Collected, NewObjs, NewOwner, NewSaved, IsHome, NewTop, Home, Renamed, T.NewEntry;
    FinishedParts(y, l, m);
    NewObjects(y, l, b);
    TopCell(y, l, m, c);
    f := Came(y, l, b);
    HomeCell(y, l, m, c, f);
    RenamedHeader(y, l, l[f].word);
    RenamedKind(y, l, l[f].word);
  }

  lemma {:induction false} FunctorGoes(y: Layout, l: Memory, m: Memory, c: Memory, f: int)
    requires Finished(y, l, m) == true && |y.objs| >= 2 && CappedAt(y, l, m, c) == true && IsObject(y.objs, f) && Marked(l, f)
    requires 0 <= f < |l| && l[f].word.Functor?
    ensures FunctorAt(HeapOf(Moved(y, l), c), Home(y, l, f)) && c[Home(y, l, f)].word == l[f].word
  {
    hide Finished, CappedAt, Live, Collected, NewObjs, NewOwner, NewSaved, IsHome, NewTop, Home, Renamed, T.NewEntry, IsObject;
    FinishedParts(y, l, m);
    HomeCell(y, l, m, c, f);
    HomeIsObject(y, l, f);
    RenamedHeader(y, l, l[f].word);
  }

  /** The words behind a functor belong to it. */
  ghost predicate OwnsAll(h: Heap, f: int) {
    0 <= f < |h.mem| && h.mem[f].word.Functor? && forall x {:trigger x in h.owner} :: f < x <= f + h.mem[f].word.arity ==> x in h.owner && h.owner[x] == f
  }

  lemma {:induction false} OwnsAgain(y: Layout, l: Memory, m: Memory, c: Memory, f: int)
    requires Finished(y, l, m) == true && |y.objs| >= 2 && CappedAt(y, l, m, c) == true && FunctorAt(HeapOf(Moved(y, l), c), f)
    ensures OwnsAll(HeapOf(Moved(y, l), c), f) == true
  {
    hide Finished, CappedAt, Live, Collected, NewObjs, NewOwner, NewSaved, IsHome, NewTop, Home, T.NewEntry, IsObject, OwnedAt, GoesTo;
    FinishedParts(y, l, m);
    var o := FunctorFrom(y, l, m, c, f);
    GoesIs(y, l, o, f);
    forall x | f < x <= f + l[o].word.arity
      ensures x in NewOwner(y, l) && NewOwner(y, l)[x] == f
    {
      OwnerGoes(y, l, o, x - f);
      NewOwnerIs(y, l, o + (x - f), x);
    }
  }

  lemma {:induction false} OwnedAgain(y: Layout, l: Memory, m: Memory, c: Memory)
    requires Finished(y, l, m) == true && |y.objs| >= 2 && CappedAt(y, l, m, c) == true
    ensures ArgumentsOwned(HeapOf(Moved(y, l), c)) == true
  {
    hide *;
    FinishedParts(y, l, m);
    SizesOf(y, l);
    HeapIs(y, l, c);
    var h := HeapOf(Moved(y, l), c);
    forall f {:trigger OwnsAll(h, f)} | FunctorAt(h, f)
      ensures OwnsAll(h, f)
    {
      OwnsAgain(y, l, m, c, f);
    }
    forall x {:trigger x in h.owner} | x in h.owner
      ensures var f := h.owner[x];
              && FunctorAt(h, f) && 0 <= f < |h.mem| && h.mem[f].word.Functor? && f < x <= f + h.mem[f].word.arity && IsObject(h.objs, x) && 0 <= x < |h.mem|
              && IsValue(h.mem[x].word) && |h.objs| >= 2 && x < h.objs[|h.objs| - 2]
    {
      OwnerAgain(y, l, m, c, x);
    }
    AllOwned(h);
  }

  lemma GoesIs(y: Layout, l: Memory, o: int, b: int)
    requires GoesTo(y, l, o, b)
    ensures IsObject(y.objs, o) && Marked(l, o) && Home(y, l, o) == b
  {
  }

  lemma OwnedIs(y: Layout, l: Memory, x: int, b: int)
    requires OwnedAt(y, l, x, b)
    ensures x in y.owner && IsObject(y.objs, x) && IsObject(y.objs, y.owner[x]) && Marked(l, x) && Marked(l, y.owner[x]) && Home(y, l, x) == b
  {
  }

  lemma {:induction false} OwnerAgain(y: Layout, l: Memory, m: Memory, c: Memory, b: int)
    requires Finished(y, l, m) == true && |y.objs| >= 2 && CappedAt(y, l, m, c) == true && b in NewOwner(y, l)
    ensures var h := HeapOf(Moved(y, l), c); var f := NewOwner(y, l)[b];
            && FunctorAt(h, f) && 0 <= f < |h.mem| && h.mem[f].word.Functor? && f < b <= f + h.mem[f].word.arity && IsObject(h.objs, b) && 0 <= b < |h.mem|
            && IsValue(h.mem[b].word) && |h.objs| >= 2 && b < h.objs[|h.objs| - 2]
  {
    hide *;
    FinishedParts(y, l, m);
    SizesOf(y, l);
    HeapIs(y, l, c);
    var x := NewOwned(y, l, b);
    OwnedIs(y, l, x, b);
    NewOwnerIs(y, l, x, b);
    OwnedTerm(y, l, x);
    var f := y.owner[x];
    OwnerGoes(y, l, f, x - f);
    FunctorGoes(y, l, m, c, f);
    HomeCell(y, l, m, c, f);
    HomeCell(y, l, m, c, x);
    HomeIsObject(y, l, x);
    RenamedSize(y, l, l[x].word);
  }

  lemma AllOwned(h: Heap)
    requires forall f {:trigger OwnsAll(h, f)} :: FunctorAt(h, f) ==> OwnsAll(h, f) == true
    requires forall x {:trigger x in h.owner} :: x in h.owner ==>
               var f := h.owner[x];
               && FunctorAt(h, f) && 0 <= f < |h.mem| && h.mem[f].word.Functor? && f < x <= f + h.mem[f].word.arity && IsObject(h.objs, x) && 0 <= x < |h.mem|
               && IsValue(h.mem[x].word) && |h.objs| >= 2 && x < h.objs[|h.objs| - 2]
    ensures ArgumentsOwned(h) == true
  {
    forall f, x {:trigger FunctorAt(h, f), x in h.owner} | FunctorAt(h, f) && f < x <= f + h.mem[f].word.arity
      ensures x in h.owner && h.owner[x] == f
    {
      assert OwnsAll(h, f);
    }
  }

  lemma {:induction false} WellFormedAgain(y: Layout, l: Memory, m: Memory, c: Memory)
    requires Finished(y, l, m) == true && |y.objs| >= 2 && CappedAt(y, l, m, c) == true
    ensures WellFormed(HeapOf(Moved(y, l), c)) == true
  {
    hide *;
    SizesOf(y, l);
    HeapIs(y, l, c);
    NewLaid(y, l, m, c);
    OwnedAgain(y, l, m, c);
    var h := HeapOf(Moved(y, l), c);
    forall b {:trigger IsObject(h.objs, b)} | IsObject(h.objs, b)
      ensures ObjectOk(h, b)
    {
      ObjectAgain(y, l, m, c, b);
    }
    IsWell(h);
  }

  lemma IsWell(h: Heap)
    requires Laid(h.mem, h.objs) == true && ArgumentsOwned(h) == true
    requires forall b {:trigger IsObject(h.objs, b)} :: IsObject(h.objs, b) ==> ObjectOk(h, b)
    ensures WellFormed(h) == true
  {
  }

  // ---------- frames, trail and marks

  /** A variable of a frame, or a saved top. */
  lemma {:induction false} OutsideCell(y: Layout, l: Memory, m: Memory, c: Memory, a: int)
    requires Finished(y, l, m) == true && |y.objs| >= 2 && CappedAt(y, l, m, c) && y.lBase <= a < |l| && !OnTrail(y, a)
    ensures 0 <= a < |m| == |c| && c[a] == m[a]
  {
    FinishedParts(y, l, m);
    TopBelow(y, l);
    hide Finished, Live, Collected, NewAt, T.NewEntry, StacksOk, BitsHome, NewTop;
    assert OnTrail(y, T.NewEntry(y, l, y.tTop));
  }

  lemma SameSlot(y: Layout, l: Memory, a: int)
    requires |y.objs| >= 2
    ensures Slot(Moved(y, l), a) <==> Slot(y, a)
  {
    hide NewObjs, NewOwner, NewSaved, T.NewEntry;
  }

  lemma {:induction false} NewPlaced(y: Layout, l: Memory, m: Memory, c: Memory)
    requires Finished(y, l, m) == true && |y.objs| >= 2 && CappedAt(y, l, m, c) == true
    ensures Placed(Moved(y, l), |c|) == true
  {
    FinishedParts(y, l, m);
    TopBelow(y, l);
    SizesOf(y, l);
    SameLengthCapped(y, l, m, c);
    hide Finished, Live, Collected, NewAt, T.NewEntry, BitsHome, NewTop, NewObjs, NewOwner, NewSaved, WellFormed, LocalOk, TrailOk, MarkFieldsOk, SavedOk;
    forall a {:trigger Slot(Moved(y, l), a)} | Slot(Moved(y, l), a)
      ensures Local(Moved(y, l), |c|, a)
    {
      SameSlot(y, l, a);
      assert Local(y, |l|, a);
    }
  }

  lemma SameLengthCapped(y: Layout, l: Memory, m: Memory, c: Memory)
    requires |y.objs| >= 2 && CappedAt(y, l, m, c) == true
    ensures |c| == |m|
  {
  }

  lemma {:induction false} SlotAgain(y: Layout, l: Memory, m: Memory, c: Memory, a: int)
    requires Finished(y, l, m) == true && |y.objs| >= 2 && CappedAt(y, l, m, c) == true && Slot(y, a) && AllMarked(y, l)
    ensures |Moved(y, l).objs| >= 2 && SlotOk(Moved(y, l), c, a) == true && 0 <= a < |l| && c[a] == Cell(Renamed(y, l, l[a].word), false, false)
    ensures l[a].word.Ptr? && c[a].word.addr > NewTop(y, l) ==> c[a].word == l[a].word && l[a].word.addr > GTop(y)
  {
    hide *;
    FinishedParts(y, l, m);
    SizesOf(y, l);
    SlotWhere(y, l, a);
    SlotCell(y, l, m, a);
    OutsideCell(y, l, m, c, a);
    RenamedSize(y, l, l[a].word);
    RenamedKind(y, l, l[a].word);
    TopBelow(y, l);
    HeapIs(y, l, c);
    if l[a].word.Ptr? {
      if l[a].word.addr <= GTop(y) {
        HasObject(y, l, l[a].word);
        PointsAgain(y, l, m, c, l[a].word);
        HomeCell(y, l, m, c, l[a].word.addr);
        IsRenamed(y, l, l[a].word);
      } else {
        NotObject(y, l, l[a].word.addr);
        NotMoved(y, l, l[a].word);
      }
    }
    SlotIs(Moved(y, l), c, a);
  }

  lemma SlotWhere(y: Layout, l: Memory, a: int)
    requires Live(y, l) == true && Slot(y, a) && AllMarked(y, l) == true
    ensures |y.objs| >= 2 && y.lBase <= a < |l| && 0 <= a && !OnTrail(y, a) && IsValue(l[a].word) && Local(y, |l|, a)
    ensures l[a].word.Ptr? && l[a].word.addr <= GTop(y) ==> PointsRight(HeapOf(y, l), l[a].word) == true && Marked(l, l[a].word.addr)
  {
    LiveParts(y, l);
    hide Live, Closed, Rooted;
    assert Local(y, |l|, a);
    assert SlotOk(y, l, a);
    assert Marked(l, a);
  }

  lemma SlotCell(y: Layout, l: Memory, m: Memory, a: int)
    requires Collected(y, l, m) == true && Slot(y, a)
    ensures |m| == |l| && 0 <= a < |l| && m[a] == Cell(Renamed(y, l, l[a].word), false, false)
  {
    hide GlobalHome, TopsHome, TrailHome, RestHome, BitsHome, Renamed;
  }

  lemma NotObject(y: Layout, l: Memory, a: int)
    requires Live(y, l) == true && |y.objs| >= 2 && a > GTop(y)
    ensures !IsObject(y.objs, a)
  {
    hide Live;
    LaidOut(y, l);
    if IsObject(y.objs, a) {
      Increasing(l, y.objs, Index(y.objs, a), |y.objs| - 2);
    }
  }

  lemma NotMoved(y: Layout, l: Memory, w: Word)
    requires w.Ptr? && !IsObject(y.objs, w.addr)
    ensures Renamed(y, l, w) == w
  {
  }

  lemma SlotIs(y: Layout, l: Memory, a: int)
    requires |y.objs| >= 2 && 0 <= a < |l| && IsValue(l[a].word)
    requires l[a].word.Ptr? && l[a].word.addr <= GTop(y) ==> PointsRight(HeapOf(y, l), l[a].word) == true
    ensures SlotOk(y, l, a) == true
  {
  }

  /** What is marked when the collection is done: cells between the stacks, if any. */
  lemma {:induction false} MarksAgain(y: Layout, l: Memory, m: Memory, c: Memory, a: int)
    requires Finished(y, l, m) == true && |y.objs| >= 2 && CappedAt(y, l, m, c) == true && 0 <= a < |c|
    ensures c[a].mark ==> NewTop(y, l) < a < y.lBase
    ensures y.lBase <= a ==> !c[a].first
  {
    hide *;
    FinishedParts(y, l, m);
    SameLengthCapped(y, l, m, c);
    TopBelow(y, l);
    CapCell(y, l, m, c, a);
    if y.lBase <= a || a < y.objs[0] {
      BitsClear(y, l, m, a);
    } else if a < NewTop(y, l) {
      InsideMarks(y, l, m, c, a);
    }
  }

  lemma CapCell(y: Layout, l: Memory, m: Memory, c: Memory, a: int)
    requires |y.objs| >= 2 && CappedAt(y, l, m, c) == true && 0 <= a < |c|
    ensures |c| == |m| && (c[a] == m[a] || c[a] == Cell(Var, false, false)) && (a == NewTop(y, l) ==> c[a] == Cell(Var, false, false))
  {
    hide NewTop, T.NewEntry;
  }

  lemma BitsClear(y: Layout, l: Memory, m: Memory, a: int)
    requires Live(y, l) == true && |y.objs| >= 2 && |l| == |m| && BitsHome(y, l, m) == true && 0 <= a < |m| && (y.lBase <= a || a < y.objs[0])
    ensures !m[a].mark && (y.lBase <= a ==> !m[a].first)
  {
    LiveParts(y, l);
    hide Live, Closed, SlotsClosed, Rooted, WellFormed, TrailOk, MarkFieldsOk, SavedOk;
    if a < y.objs[0] {
      LowUnmarked(y, l, a);
    }
  }

  lemma LowUnmarked(y: Layout, l: Memory, a: int)
    requires StacksOk(y, l) && 0 <= a < |l| && a < y.objs[0]
    ensures !l[a].mark
  {
    if IsObject(y.objs, a) {
      Increasing(l, y.objs, 0, Index(y.objs, a));
    }
    Increasing(l, y.objs, 0, |y.objs| - 1);
    assert Slot(y, a) ==> Local(y, |l|, a);
  }

  /** The words of an object below the new top. */
  lemma {:induction false} InsideMarks(y: Layout, l: Memory, m: Memory, c: Memory, a: int)
    requires Finished(y, l, m) == true && |y.objs| >= 2 && |m| == |l| && y.objs[0] <= a < NewTop(y, l) && 0 <= a < |m|
    ensures !m[a].mark
  {
    hide *;
    FinishedParts(y, l, m);
    TopIs(y, l);
    var i := Covering(y, l, a, |y.objs| - 1);
    HomeGivenAt(y, l, m, i);
    WordUnmarked(y, l, m, i, a);
  }

  /** The object whose new place covers a. */
  lemma {:induction false} Covering(y: Layout, l: Memory, a: int, n: nat) returns (i: int)
    requires n < |y.objs| && y.objs[0] <= a < NewAt(l, y.objs, n)
    ensures 0 <= i < n && Marked(l, y.objs[i]) && NewAt(l, y.objs, i) <= a < NewAt(l, y.objs, i) + (y.objs[i + 1] - y.objs[i])
    decreases n
  {
    if a < NewAt(l, y.objs, n - 1) {
      i := Covering(y, l, a, n - 1);
    } else {
      i := n - 1;
    }
  }

  lemma HomeGivenAt(y: Layout, l: Memory, m: Memory, i: int)
    requires Collected(y, l, m) == true && 0 <= i < |y.objs| - 1
    ensures ObjectHome(y, l, m, i) == true
  {
    HomeAt(y, l, m, i);
    hide Collected;
  }

  lemma {:induction false} WordUnmarked(y: Layout, l: Memory, m: Memory, i: int, a: int)
    requires Live(y, l) == true && Collected(y, l, m) == true && 0 <= i < |y.objs| - 1 && ObjectHome(y, l, m, i) == true && Marked(l, y.objs[i])
    requires 0 <= a < |m| && NewAt(l, y.objs, i) <= a < NewAt(l, y.objs, i) + (y.objs[i + 1] - y.objs[i])
    ensures !m[a].mark
  {
    hide *;
    LiveParts(y, l);
    LaidOut(y, l);
    var d, o := NewAt(l, y.objs, i), y.objs[i];
    HomeObject(y, l, m, i);
    HomeBlock(y, l, m, i);
    if d < a {
      assert m[a] == l[o + (a - d)];
      WordOf(y, l, i, o + (a - d));
    }
  }

  lemma {:induction false} WordOf(y: Layout, l: Memory, i: int, w: int)
    requires StacksOk(y, l) == true && Laid(l, y.objs) == true && 0 <= i < |y.objs| - 1 && y.objs[i] < w < y.objs[i + 1]
    ensures 0 <= w < |l| ==> !l[w].mark
  {
    InnerWord(y, l, i, w);
    Increasing(l, y.objs, i + 1, |y.objs| - 1);
    assert Slot(y, w) ==> Local(y, |l|, w);
  }

  // ---------- the trail

  ghost predicate VarAgain(y: Layout, l: Memory, c: Memory, a: int)
    requires |y.objs| >= 2
  {
    IsObject(y.objs, a) && Marked(l, a) && Home(y, l, a) >= 0 && GlobalVar(Moved(y, l), c, Home(y, l, a))
  }

  lemma {:induction false} GlobalVarAgain(y: Layout, l: Memory, m: Memory, c: Memory, a: int)
    requires Finished(y, l, m) == true && |y.objs| >= 2 && CappedAt(y, l, m, c) == true && GlobalVar(y, l, a) && Marked(l, a)
    ensures VarAgain(y, l, c, a) == true
  {
    hide Finished, CappedAt, Live, Collected, NewObjs, NewOwner, NewSaved, IsHome, NewTop, Home, T.NewEntry, IsObject, Renamed, IsValue;
    FinishedParts(y, l, m);
    SizesOf(y, l);
    HomeCell(y, l, m, c, a);
    HomeIsObject(y, l, a);
    RenamedSize(y, l, l[a].word);
  }

  lemma VarIs(y: Layout, l: Memory, c: Memory, w: Word)
    requires |y.objs| >= 2 && w.Ptr? && VarAgain(y, l, c, w.addr) == true
    ensures IsObject(y.objs, w.addr) && Home(y, l, w.addr) >= 0 && Renamed(y, l, w) == Ptr(w.tag, Home(y, l, w.addr))
    ensures GlobalVar(Moved(y, l), c, Home(y, l, w.addr)) == true
  {
    hide Home, NewObjs, NewOwner, NewSaved, T.NewEntry, GlobalVar;
  }

  /** What entry e of the trail records, if it is left. */
  lemma {:induction false} EntryParts(y: Layout, l: Memory, m: Memory, e: int)
    requires Finished(y, l, m) == true && |y.objs| >= 2 && y.tBase <= e < y.tTop && 0 <= e < |l| && l[e].word != Var
    ensures l[e].word.Ptr?
    ensures l[e].word.tag == Address ==>
              Kept(y, l, l[e].word.addr) && (Local(y, |l|, l[e].word.addr) || (GlobalVar(y, l, l[e].word.addr) && Marked(l, l[e].word.addr)))
    ensures l[e].word.tag != Address ==>
              && l[e].word.tag == TRAILVAL && GlobalVar(y, l, l[e].word.addr) && Marked(l, l[e].word.addr) && l[e].word.addr in y.saved
              && y.tBase < e && 0 <= e - 1 && l[e - 1].word.Ptr? && l[e - 1].word.tag == Address
              && GlobalVar(y, l, l[e - 1].word.addr) && Marked(l, l[e - 1].word.addr)
  {
    FinishedParts(y, l, m);
    hide Finished, Collected, BitsHome, WellFormed, LocalOk, MarkFieldsOk, SavedOk, Placed, Live;
    assert EntryOk(y, l, e);
    if l[e].word.tag == Address {
      KeptGlobal(y, l, l[e].word.addr);
    } else {
      KeptGlobal(y, l, l[e - 1].word.addr);
    }
  }

  lemma KeptGlobal(y: Layout, l: Memory, a: int)
    requires Live(y, l) == true && |y.objs| >= 2 && Kept(y, l, a)
    ensures GlobalVar(y, l, a) ==> Marked(l, a)
  {
    NotBoth(y, l, a);
    hide Live;
  }

  lemma {:induction false} TrailCell(y: Layout, l: Memory, m: Memory, c: Memory, e: int)
    requires Finished(y, l, m) == true && |y.objs| >= 2 && CappedAt(y, l, m, c) == true && y.tBase <= e < y.tTop && 0 <= e < |l| && l[e].word != Var
    ensures var p := T.NewEntry(y, l, e);
            y.tBase <= p < T.NewEntry(y, l, y.tTop) && 0 <= p < |c| && c[p].word == Renamed(y, l, l[e].word)
  {
    hide Finished, CappedAt, Live, Collected, T.NewEntry, Renamed, NewTop;
    FinishedParts(y, l, m);
    TopBelow(y, l);
    NextLeft(y, l, m, e);
    NewEntryLow(y, l, e);
    EntryOrder(y, l, e, y.tTop);
    CapApart(y, l, m, c, T.NewEntry(y, l, e));
  }

  lemma CapApart(y: Layout, l: Memory, m: Memory, c: Memory, a: int)
    requires |y.objs| >= 2 && CappedAt(y, l, m, c) == true && 0 <= a < |m| && a != NewTop(y, l) && a != T.NewEntry(y, l, y.tTop)
    ensures |c| == |m| && c[a] == m[a]
  {
    hide NewTop, T.NewEntry;
  }

  lemma LocalAgain(y: Layout, l: Memory, n: int, a: int)
    requires |y.objs| >= 2 && Local(y, n, a) && T.NewEntry(y, l, y.tTop) <= y.tTop
    ensures Local(Moved(y, l), n, a)
  {
    hide NewObjs, NewOwner, NewSaved, T.NewEntry;
  }

  lemma {:induction false} EntryAgain(y: Layout, l: Memory, m: Memory, c: Memory, e: int)
    requires Finished(y, l, m) == true && |y.objs| >= 2 && CappedAt(y, l, m, c) == true && y.tBase <= e < y.tTop && 0 <= e < |l| && l[e].word != Var
    ensures EntryOk(Moved(y, l), c, T.NewEntry(y, l, e)) == true && 0 <= T.NewEntry(y, l, e) < |c| && c[T.NewEntry(y, l, e)].word.Ptr?
  {
    hide *;
    FinishedParts(y, l, m);
    SizesOf(y, l);
    TopBelow(y, l);
    EntryParts(y, l, m, e);
    TrailCell(y, l, m, c, e);
    RenamedKind(y, l, l[e].word);
    var p, a := T.NewEntry(y, l, e), l[e].word.addr;
    SameLengthCapped(y, l, m, c);
    if l[e].word.tag != Address {
      GlobalVarAgain(y, l, m, c, a);
      VarIs(y, l, c, l[e].word);
      TrailBounds(y, l);
      RenamedKind(y, l, l[e - 1].word);
      var b := l[e - 1].word.addr;
      GlobalVarAgain(y, l, m, c, b);
      VarIs(y, l, c, l[e - 1].word);
      TrailCell(y, l, m, c, e - 1);
      NextLeft(y, l, m, e - 1);
      SavedHere(y, l, e);
      EntryIsValue(Moved(y, l), c, p);
    } else if Local(y, |l|, a) {
      LocalIs(y, |l|, a);
      SlotOutside(y, l, a);
      NotMoved(y, l, l[e].word);
      LocalAgain(y, l, |l|, a);
      EntryIsLocal(Moved(y, l), c, p);
    } else {
      GlobalVarAgain(y, l, m, c, a);
      VarIs(y, l, c, l[e].word);
      EntryIsGlobal(Moved(y, l), c, p);
    }
  }

  lemma LocalIs(y: Layout, n: int, a: int)
    requires Local(y, n, a)
    ensures y.lBase <= a
  {
  }

  lemma SavedHere(y: Layout, l: Memory, e: int)
    requires y.tBase <= e < y.tTop && 0 <= e < |l| && l[e].word.Ptr? && l[e].word.tag == TRAILVAL && IsObject(y.objs, l[e].word.addr)
    ensures Home(y, l, l[e].word.addr) in NewSaved(y, l)
  {
    hide Home;
    assert e in Range(y.tBase, y.tTop) && SavedAt(y, l, e);
  }

  lemma EntryIsValue(y: Layout, l: Memory, e: int)
    requires |y.objs| >= 2 && 0 <= e < |l| && l[e].word.Ptr? && l[e].word.tag == TRAILVAL && GlobalVar(y, l, l[e].word.addr) == true
    requires l[e].word.addr in y.saved && 0 <= y.tBase < e && l[e - 1].word.Ptr? && l[e - 1].word.tag == Address
    requires GlobalVar(y, l, l[e - 1].word.addr) == true
    ensures EntryOk(y, l, e) == true
  {
  }

  lemma EntryIsLocal(y: Layout, l: Memory, e: int)
    requires |y.objs| >= 2 && 0 <= e < |l| && l[e].word.Ptr? && l[e].word.tag == Address && Local(y, |l|, l[e].word.addr)
    ensures EntryOk(y, l, e) == true
  {
  }

  lemma EntryIsGlobal(y: Layout, l: Memory, e: int)
    requires |y.objs| >= 2 && 0 <= e < |l| && l[e].word.Ptr? && l[e].word.tag == Address && GlobalVar(y, l, l[e].word.addr) == true
    ensures EntryOk(y, l, e) == true
  {
  }

  lemma EntryIsFree(y: Layout, l: Memory, e: int)
    requires |y.objs| >= 2 && 0 <= e < |l| && l[e].word == Var
    ensures EntryOk(y, l, e) == true
  {
  }

  lemma {:induction false} NewTrail(y: Layout, l: Memory, m: Memory, c: Memory)
    requires Finished(y, l, m) == true && |y.objs| >= 2 && CappedAt(y, l, m, c) == true
    ensures |Moved(y, l).objs| >= 2 && TrailOk(Moved(y, l), c) == true && Untouched(Moved(y, l), c, T.NewEntry(y, l, y.tTop) - 1) == true
  {
    hide *;
    FinishedParts(y, l, m);
    SizesOf(y, l);
    TopBelow(y, l);
    TopCell(y, l, m, c);
    SameLengthCapped(y, l, m, c);
    var z, hi := Moved(y, l), T.NewEntry(y, l, y.tTop);
    TrailBounds(y, l);
    forall e {:trigger EntryOk(z, c, e)} {:trigger c[e]} | y.tBase <= e <= hi
      ensures 0 <= e < |c| && EntryOk(z, c, e) == true && (e < hi ==> c[e].word.Ptr?)
    {
      if e == hi {
        EntryIsFree(z, c, e);
      } else {
        var i := S.EntrySource(y, l, y.tTop, e);
        EntryAgain(y, l, m, c, i);
      }
    }
    TrailIsOk(z, c, hi);
  }

  lemma TrailBounds(y: Layout, l: Memory)
    requires |y.objs| >= 2
    ensures Moved(y, l).tBase == y.tBase && Moved(y, l).lBase == y.lBase && Moved(y, l).trailTops == y.trailTops && Moved(y, l).globalTops == y.globalTops
  {
  }

  lemma TrailIsOk(y: Layout, l: Memory, hi: int)
    requires |y.objs| >= 2 && hi == y.tTop && 0 <= y.tBase <= hi < |l| && l[hi].word == Var
    requires forall e {:trigger EntryOk(y, l, e)} {:trigger l[e]} :: y.tBase <= e <= hi ==> 0 <= e < |l| && EntryOk(y, l, e) == true && (e < hi ==> l[e].word.Ptr?)
    ensures TrailOk(y, l) == true && Untouched(y, l, hi - 1) == true
  {
    hide EntryOk;
  }

  // ---------- saved values and tops

  lemma {:induction false} SavedAgain(y: Layout, l: Memory, m: Memory, c: Memory)
    requires Finished(y, l, m) == true && |y.objs| >= 2 && CappedAt(y, l, m, c) == true
    ensures |Moved(y, l).objs| >= 2 && SavedOk(Moved(y, l), c) == true
  {
    hide *;
    SizesOf(y, l);
    var z := Moved(y, l);
    forall b {:trigger b in z.saved} | b in z.saved
      ensures GlobalVar(z, c, b) == true && b !in z.owner
    {
      OneSavedAgain(y, l, m, c, b);
    }
    SavedIsOk(z, c);
  }

  lemma SavedIsOk(y: Layout, l: Memory)
    requires |y.objs| >= 2 && forall a {:trigger a in y.saved} :: a in y.saved ==> GlobalVar(y, l, a) == true && a !in y.owner
    ensures SavedOk(y, l) == true
  {
  }

  lemma {:induction false} OneSavedAgain(y: Layout, l: Memory, m: Memory, c: Memory, b: int)
    requires Finished(y, l, m) == true && |y.objs| >= 2 && CappedAt(y, l, m, c) == true && b in NewSaved(y, l)
    ensures |Moved(y, l).objs| >= 2 && GlobalVar(Moved(y, l), c, b) == true && b !in NewOwner(y, l)
  {
    hide *;
    FinishedParts(y, l, m);
    SizesOf(y, l);
    var e := SavedFrom(y, l, b);
    var a := l[e].word.addr;
    EntryParts(y, l, m, e);
    GlobalVarAgain(y, l, m, c, a);
    VarIs(y, l, c, l[e].word);
    NotAnArgument(y, l, a);
    if b in NewOwner(y, l) {
      var x := NewOwned(y, l, b);
      OwnedIs(y, l, x, b);
      OneHome(y, l, x, a);
    }
  }

  lemma SavedFrom(y: Layout, l: Memory, b: int) returns (e: int)
    requires b in NewSaved(y, l)
    ensures y.tBase <= e < y.tTop && 0 <= e < |l| && l[e].word.Ptr? && l[e].word.tag == TRAILVAL && l[e].word != Var && TRAILVAL != Address
    ensures IsObject(y.objs, l[e].word.addr) && Home(y, l, l[e].word.addr) == b
  {
    hide Home;
    e :| e in Range(y.tBase, y.tTop) && SavedAt(y, l, e) && Home(y, l, l[e].word.addr) == b;
  }

  lemma NotAnArgument(y: Layout, l: Memory, a: int)
    requires Live(y, l) == true && a in y.saved
    ensures a !in y.owner
  {
    LiveParts(y, l);
    hide Live, Closed, SlotsClosed, Rooted, WellFormed, LocalOk, TrailOk, MarkFieldsOk;
  }

  /** Any object goes to the place of a live one, or to the new top. */
  lemma {:induction false} NewAtIs(y: Layout, l: Memory, i: nat)
    requires Live(y, l) == true && |y.objs| >= 2 && i < |y.objs|
    ensures NewAt(l, y.objs, i) == NewTop(y, l) || IsHome(y, l, NewAt(l, y.objs, i))
    decreases |y.objs| - i
  {
    hide Live, NewAt, Home;
    TopIs(y, l);
    if i < |y.objs| - 1 {
      if Marked(l, y.objs[i]) {
        PlaceGoes(y, l, i);
        assert GoesTo(y, l, y.objs[i], NewAt(l, y.objs, i));
      } else {
        NewAtNext(l, y.objs, i);
        NewAtIs(y, l, i + 1);
      }
    }
  }

  lemma {:induction false} TopAgain(y: Layout, l: Memory, m: Memory, c: Memory, a: int)
    requires Finished(y, l, m) == true && |y.objs| >= 2 && CappedAt(y, l, m, c) == true && a in y.globalTops
    ensures 0 <= a < |c| && c[a].word.Ptr? && c[a].word.tag == Address && IsObject(NewObjs(y, l), c[a].word.addr)
  {
    hide *;
    FinishedParts(y, l, m);
    TopWhere(y, l, m, a);
    OutsideCell(y, l, m, c, a);
    HomeIs(y, l, l[a].word.addr);
    NewAtIs(y, l, Index(y.objs, l[a].word.addr));
    NewObjects(y, l, c[a].word.addr);
  }

  lemma TopWhere(y: Layout, l: Memory, m: Memory, a: int)
    requires Live(y, l) == true && Collected(y, l, m) == true && a in y.globalTops
    ensures |m| == |l| && y.lBase <= a < |l| && !OnTrail(y, a) && 0 <= a && l[a].word.Ptr? && IsObject(y.objs, l[a].word.addr)
    ensures m[a].word.Ptr? && m[a].word.tag == Address && m[a].word.addr == Home(y, l, l[a].word.addr)
  {
    LiveParts(y, l);
    hide Live, Closed, SlotsClosed, Rooted, WellFormed, LocalOk, TrailOk, MarkFieldsOk, SavedOk, GlobalHome, SlotsHome, TrailHome, RestHome, BitsHome, Home;
  }

  lemma TrailTopWhere(y: Layout, l: Memory, m: Memory, a: int)
    requires Live(y, l) == true && Collected(y, l, m) == true && a in y.trailTops
    ensures |m| == |l| && y.lBase <= a < |l| && !OnTrail(y, a) && 0 <= a && l[a].word.Ptr? && y.tBase <= l[a].word.addr <= y.tTop
    ensures m[a].word.Ptr? && m[a].word.tag == Address && m[a].word.addr == T.NewEntry(y, l, l[a].word.addr)
    ensures l[a].word.addr < |l| && !IsSavedValue(l[l[a].word.addr].word)
  {
    LiveParts(y, l);
    hide Live, Closed, SlotsClosed, Rooted, WellFormed, LocalOk, TrailOk, SavedOk, GlobalHome, SlotsHome, TrailHome, RestHome, BitsHome, T.NewEntry;
  }

  /** The first entry that is left from t on is no old value, if the entry at t is none. */
  lemma {:induction false} NoValueFirst(y: Layout, l: Memory, m: Memory, c: Memory, t: int)
    requires Finished(y, l, m) == true && |y.objs| >= 2 && CappedAt(y, l, m, c) == true
    requires y.tBase <= t <= y.tTop && 0 <= t < |l| && !IsSavedValue(l[t].word)
    ensures y.tBase <= T.NewEntry(y, l, t) <= T.NewEntry(y, l, y.tTop) && 0 <= T.NewEntry(y, l, t) < |c|
    ensures !IsSavedValue(c[T.NewEntry(y, l, t)].word)
  {
    hide Finished, CappedAt, Live, Collected, T.NewEntry, Renamed, NewTop;
    FinishedParts(y, l, m);
    TopBelow(y, l);
    TopCell(y, l, m, c);
    NewEntryLow(y, l, t);
    EntryLimit(y, l, t);
    var p := T.NewEntry(y, l, t);
    if p < T.NewEntry(y, l, y.tTop) {
      var e := S.EntrySource(y, l, y.tTop, p);
      TrailCell(y, l, m, c, e);
      SameTag(y, l, l[e].word);
      if e < t {
        EntryOrder(y, l, e, t);
      } else if IsSavedValue(l[e].word) {
        LeftPair(y, l, e);
        NextLeft(y, l, m, e - 1);
        EntriesUp(y, l, t, e - 1);
      }
    }
  }

  lemma EntriesUp(y: Layout, l: Memory, t: int, e: int)
    requires y.tBase <= t
    ensures t <= e ==> T.NewEntry(y, l, t) <= T.NewEntry(y, l, e)
  {
    if t <= e {
      T.KeptMonotone(l, y.tBase, t, e);
    }
  }

  lemma {:induction false} MarksFields(y: Layout, l: Memory, m: Memory, c: Memory)
    requires Finished(y, l, m) == true && |y.objs| >= 2 && CappedAt(y, l, m, c) == true
    ensures MarkFieldsOk(Moved(y, l), c) == true
  {
    hide *;
    FinishedParts(y, l, m);
    SizesOf(y, l);
    TrailBounds(y, l);
    SameLengthCapped(y, l, m, c);
    var z := Moved(y, l);
    forall a {:trigger a in z.trailTops} | a in z.trailTops
      ensures 0 <= a < |c| && c[a].word.Ptr? && c[a].word.tag == Address && z.tBase <= c[a].word.addr <= z.tTop
      ensures c[a].word.addr < |c| && !IsSavedValue(c[c[a].word.addr].word)
    {
      TrailTopWhere(y, l, m, a);
      OutsideCell(y, l, m, c, a);
      NoValueFirst(y, l, m, c, l[a].word.addr);
    }
    forall a {:trigger a in z.globalTops} | a in z.globalTops
      ensures 0 <= a < |c| && c[a].word.Ptr? && c[a].word.tag == Address && IsObject(z.objs, c[a].word.addr)
    {
      TopAgain(y, l, m, c, a);
    }
    FieldsAre(z, c);
  }

  lemma FieldsAre(y: Layout, l: Memory)
    requires forall a {:trigger a in y.trailTops} :: a in y.trailTops ==>
               && 0 <= a < |l| && l[a].word.Ptr? && l[a].word.tag == Address && y.tBase <= l[a].word.addr <= y.tTop
               && l[a].word.addr < |l| && !IsSavedValue(l[l[a].word.addr].word)
    requires forall a {:trigger a in y.globalTops} :: a in y.globalTops ==>
               0 <= a < |l| && l[a].word.Ptr? && l[a].word.tag == Address && IsObject(y.objs, l[a].word.addr)
    ensures MarkFieldsOk(y, l) == true
  {
    hide IsObject, IsSavedValue;
  }

  // ---------- the stacks again

  lemma {:induction false} NewLocal(y: Layout, l: Memory, m: Memory, c: Memory)
    requires Finished(y, l, m) == true && |y.objs| >= 2 && CappedAt(y, l, m, c) == true && AllMarked(y, l) == true
    ensures |Moved(y, l).objs| >= 2 && LocalOk(Moved(y, l), c) == true && NoMarks(Moved(y, l), c) == true
  {
    hide *;
    FinishedParts(y, l, m);
    SizesOf(y, l);
    TrailBounds(y, l);
    SameLengthCapped(y, l, m, c);
    var z := Moved(y, l);
    forall a {:trigger c[a]} | 0 <= a < |c|
      ensures (c[a].mark ==> z.objs[|z.objs| - 1] <= a < z.lBase) && (z.lBase <= a ==> !c[a].first)
    {
      MarksAgain(y, l, m, c, a);
    }
    forall a {:trigger Slot(z, a)} | Slot(z, a)
      ensures SlotOk(z, c, a) == true
    {
      SameSlot(y, l, a);
      SlotAgain(y, l, m, c, a);
    }
    LocalIsOk(z, c);
  }

  lemma LocalIsOk(y: Layout, l: Memory)
    requires |y.objs| >= 2 && forall a {:trigger Slot(y, a)} :: Slot(y, a) ==> SlotOk(y, l, a) == true
    requires forall a {:trigger l[a]} :: 0 <= a < |l| ==> (l[a].mark ==> y.objs[|y.objs| - 1] <= a < y.lBase) && (y.lBase <= a ==> !l[a].first)
    ensures LocalOk(y, l) == true && NoMarks(y, l) == true
  {
    hide Slot, SlotOk, IsObject;
  }

  lemma AreStacks(y: Layout, l: Memory)
    requires Placed(y, |l|) == true && |y.objs| >= 2 && WellFormed(HeapOf(y, l)) == true && LocalOk(y, l) == true && TrailOk(y, l) == true
    requires MarkFieldsOk(y, l) == true && SavedOk(y, l) == true
    ensures StacksOk(y, l) == true
  {
    hide Placed, WellFormed, LocalOk, TrailOk, MarkFieldsOk, SavedOk;
  }

  lemma {:induction false} StacksAgain(y: Layout, l: Memory, m: Memory, c: Memory)
    requires Finished(y, l, m) == true && |y.objs| >= 2 && CappedAt(y, l, m, c) == true && AllMarked(y, l) == true
    ensures StacksOk(Moved(y, l), c) == true && |Moved(y, l).objs| >= 2 && NoMarks(Moved(y, l), c) == true
    ensures Untouched(Moved(y, l), c, T.NewEntry(y, l, y.tTop) - 1) == true
  {
    hide *;
    NewPlaced(y, l, m, c);
    WellFormedAgain(y, l, m, c);
    NewLocal(y, l, m, c);
    NewTrail(y, l, m, c);
    MarksFields(y, l, m, c);
    SavedAgain(y, l, m, c);
    AreStacks(Moved(y, l), c);
  }

  // ---------- what is live when the trail was scanned

  /** The oldest choice point saved the bottom of the trail, or there is nothing on the trail: so
      the collector scans all of it. */
  ghost predicate Covered(y: Layout, l0: Memory) {
    y.tBase == y.tTop || (0 < |y.choices| <= |y.trailTops| && TrailTop(y, l0, |y.choices| - 1) == y.tBase)
  }

  lemma {:induction false} LastScan(y: Layout, p: Memory, hs: seq<Stage>, l: Memory, te: int)
    requires |y.objs| >= 2 && 0 < |hs| == |y.choices| <= |y.trailTops| && History(y, p, hs, l, te) == true && Origin(y, p) == true
    ensures te < TrailTop(y, p, |hs| - 1)
  {
    hide History, HasStage, Origin, StillThere, Live, Staged, Emptied;
    var n := |hs| - 1;
    HistoryParts(y, p, hs, l, te);
    HistoryStays(y, p, hs[..n], hs[n].start, hs[n].te);
    ThereBounds(y, p, hs[n].start, hs[n].te);
    StageIsStaged(y, n, hs[n], l, te);
    TopInside(y, p, n);
    SameTop(y, p, hs[n].start, n);
  }

  lemma SameTop(y: Layout, p: Memory, r: Memory, j: int)
    requires Emptied(y, p, r) == true && 0 <= j < |y.trailTops| && y.trailTops[j] < |p|
    ensures TrailTop(y, r, j) == TrailTop(y, p, j)
  {
    assert y.trailTops[j] in y.trailTops;
  }

  lemma {:induction false} IsFinished(y: Layout, l0: Memory, pre: Memory, hs: seq<Stage>, te: int, l: Memory, m: Memory)
    requires Begun(y, l0) == true && Covered(y, l0) == true && CollectedFrom(y, l0, pre, hs, te, l, m) == true
    ensures |y.objs| >= 2 && Finished(y, l, m) == true && AllMarked(y, l) == true
  {
    hide *;
    FromStart(y, l0, pre, hs, te, l, m);
    HistoryLeft(y, pre, hs, l, te);
    HistoryStays(y, pre, hs, l, te);
    SavedStillLive(y, pre, l);
    CoverIs(y, l0);
    if y.tBase == y.tTop {
      NothingKept(y, l);
    } else {
      HistorySome(y, pre, hs, l, te);
      LastScan(y, pre, hs, l, te);
      V.TrailTopWords(y, l0, pre, |hs| - 1);
      KeptEntries(y, l, te, y.tBase);
    }
    FinishedIf(y, l, m);
  }

  lemma CoverIs(y: Layout, l0: Memory)
    requires Covered(y, l0) == true
    ensures y.tBase == y.tTop || (0 < |y.choices| <= |y.trailTops| && TrailTop(y, l0, |y.choices| - 1) == y.tBase)
  {
  }

  lemma HistorySome(y: Layout, p: Memory, hs: seq<Stage>, l: Memory, te: int)
    requires |y.objs| >= 2 && |hs| == |y.choices| <= |y.trailTops| && History(y, p, hs, l, te) == true && 0 < |y.choices|
    ensures |hs| > 0
  {
    hide History;
  }

  lemma NothingKept(y: Layout, l: Memory)
    requires y.tBase == y.tTop
    ensures AllKept(y, l, y.tBase) == true
  {
  }

  lemma FinishedIf(y: Layout, l: Memory, m: Memory)
    requires Live(y, l) == true && Collected(y, l, m) == true && AllKept(y, l, y.tBase) == true && SavedLive(y, l) == true
    ensures Finished(y, l, m) == true
  {
    hide Live, Collected, AllKept, SavedLive;
  }

  // ---------- local references and the order of choice points

  lemma SamePassed(y: Layout, l: Memory, a: int)
    requires |y.objs| >= 2
    ensures Current(Moved(y, l), a) <==> Current(y, a)
    ensures forall j {:trigger Passed(y, j, a)} {:trigger Passed(Moved(y, l), j, a)} :: Passed(Moved(y, l), j, a) <==> Passed(y, j, a)
  {
    hide NewObjs, NewOwner, NewSaved, T.NewEntry;
  }

  lemma {:induction false} LocalsAgain(y: Layout, l0: Memory, pre: Memory, l: Memory, m: Memory, c: Memory)
    requires Finished(y, l, m) == true && |y.objs| >= 2 && CappedAt(y, l, m, c) == true && AllMarked(y, l) == true
    requires LocalsOk(y, l0) == true && SameWords(l0, pre) == true && Emptied(y, pre, l) == true
    ensures |Moved(y, l).objs| >= 2 && LocalsOk(Moved(y, l), c) == true
  {
    hide *;
    SizesOf(y, l);
    var z := Moved(y, l);
    forall a {:trigger Slot(z, a)} | Slot(z, a) && 0 <= a < |c| && c[a].word.Ptr? && c[a].word.addr > NewTop(y, l)
      ensures c[a].word.tag == Reference && Slot(z, c[a].word.addr) && c[a].word.addr < a && PassedWith(z, a, c[a].word.addr) == true
    {
      SameSlot(y, l, a);
      SlotAgain(y, l, m, c, a);
      RenamedKind(y, l, l[a].word);
      WordBefore(y, l0, pre, l, a);
      LocalRef(y, l0, a);
      SameSlot(y, l, c[a].word.addr);
      PassedAgain(y, l, a, c[a].word.addr);
    }
    LocalsAre(z, c);
  }

  lemma WordBefore(y: Layout, l0: Memory, pre: Memory, l: Memory, a: int)
    requires SameWords(l0, pre) == true && Emptied(y, pre, l) == true && 0 <= a < |l| && l[a].word.Ptr?
    ensures a < |l0| && l0[a].word == l[a].word
  {
  }

  lemma LocalRef(y: Layout, l: Memory, a: int)
    requires |y.objs| >= 2 && LocalsOk(y, l) == true && Slot(y, a) && 0 <= a < |l| && l[a].word.Ptr? && l[a].word.addr > GTop(y)
    ensures l[a].word.tag == Reference && Slot(y, l[a].word.addr) && l[a].word.addr < a && PassedWith(y, a, l[a].word.addr) == true
  {
    hide PassedWith, Slot;
  }

  lemma PassedAgain(y: Layout, l: Memory, a: int, b: int)
    requires |y.objs| >= 2 && PassedWith(y, a, b) == true
    ensures PassedWith(Moved(y, l), a, b) == true
  {
    SamePassed(y, l, a);
    SamePassed(y, l, b);
    hide Current, Passed, Moved;
  }

  lemma LocalsAre(y: Layout, l: Memory)
    requires |y.objs| >= 2
    requires forall a {:trigger Slot(y, a)} :: Slot(y, a) && 0 <= a < |l| && l[a].word.Ptr? && l[a].word.addr > y.objs[|y.objs| - 2] ==>
               l[a].word.tag == Reference && Slot(y, l[a].word.addr) && l[a].word.addr < a && PassedWith(y, a, l[a].word.addr) == true
    ensures LocalsOk(y, l) == true
  {
    hide Slot, PassedWith;
  }

  /** The saved trail tops. */
  lemma {:induction false} TrailTopAgain(y: Layout, l0: Memory, pre: Memory, l: Memory, m: Memory, c: Memory, j: int)
    requires Finished(y, l, m) == true && |y.objs| >= 2 && CappedAt(y, l, m, c) == true && 0 <= j < |y.trailTops|
    requires SameWords(l0, pre) == true && Emptied(y, pre, l) == true
    ensures |Moved(y, l).trailTops| == |y.trailTops| && TrailTop(Moved(y, l), c, j) == T.NewEntry(y, l, TrailTop(y, l0, j))
    ensures y.tBase <= TrailTop(y, l0, j) <= y.tTop
  {
    hide *;
    FinishedParts(y, l, m);
    TrailBounds(y, l);
    var a := y.trailTops[j];
    TrailTopWhere(y, l, m, a);
    OutsideCell(y, l, m, c, a);
    WordBefore(y, l0, pre, l, a);
    TopIsWord(y, l0, j);
    TopIsWord(Moved(y, l), c, j);
  }

  lemma TopIsWord(y: Layout, l: Memory, j: int)
    requires 0 <= j < |y.trailTops| && y.trailTops[j] < |l| && l[y.trailTops[j]].word.Ptr?
    ensures TrailTop(y, l, j) == l[y.trailTops[j]].word.addr
  {
  }

  lemma {:induction false} CoveredAgain(y: Layout, l0: Memory, pre: Memory, l: Memory, m: Memory, c: Memory)
    requires Finished(y, l, m) == true && |y.objs| >= 2 && CappedAt(y, l, m, c) == true && Covered(y, l0) == true
    requires SameWords(l0, pre) == true && Emptied(y, pre, l) == true
    ensures Covered(Moved(y, l), c) == true
  {
    hide *;
    SizesOf(y, l);
    TrailBounds(y, l);
    SameChoices(y, l);
    CoverIs(y, l0);
    NewEntryLow(y, l, y.tBase);
    FromBase(y, l);
    if y.tBase != y.tTop {
      TrailTopAgain(y, l0, pre, l, m, c, |y.choices| - 1);
    }
    CoveredIf(Moved(y, l), c);
  }

  lemma SameChoices(y: Layout, l: Memory)
    requires |y.objs| >= 2
    ensures Moved(y, l).choices == y.choices && Moved(y, l).foreign == y.foreign
  {
  }

  lemma FromBase(y: Layout, l: Memory)
    ensures T.NewEntry(y, l, y.tBase) == y.tBase
  {
  }

  lemma CoveredIf(y: Layout, l: Memory)
    requires y.tBase == y.tTop || (0 < |y.choices| <= |y.trailTops| && TrailTop(y, l, |y.choices| - 1) == y.tBase)
    ensures Covered(y, l) == true
  {
  }

  lemma {:induction false} OlderAgain(y: Layout, l0: Memory, pre: Memory, l: Memory, m: Memory, c: Memory)
    requires Finished(y, l, m) == true && |y.objs| >= 2 && CappedAt(y, l, m, c) == true && Older(y, l0) == true
    requires SameWords(l0, pre) == true && Emptied(y, pre, l) == true
    ensures Older(Moved(y, l), c) == true
  {
    SameChoices(y, l);
    TrailBounds(y, l);
    hide Finished, CappedAt, SameWords, Emptied, TrailTop, Moved, T.NewEntry;
    forall i, j {:trigger y.choices[i], y.choices[j]} | 0 <= i < j < |y.choices|
      ensures y.choices[j].top <= y.choices[i].top && TrailTop(Moved(y, l), c, j) <= TrailTop(Moved(y, l), c, i)
    {
      TrailTopAgain(y, l0, pre, l, m, c, i);
      TrailTopAgain(y, l0, pre, l, m, c, j);
      EntriesUp(y, l, TrailTop(y, l0, j), TrailTop(y, l0, i));
    }
  }

  lemma {:induction false} ListedAgain(y: Layout, l: Memory, m: Memory, c: Memory)
    requires Finished(y, l, m) == true && |y.objs| >= 2 && CappedAt(y, l, m, c) == true
    ensures SavedListed(Moved(y, l), c) == true
  {
    hide *;
    SizesOf(y, l);
    TrailBounds(y, l);
    var z := Moved(y, l);
    forall s | s in z.saved
      ensures ListedAt(z, c, s) == true
    {
      var e := SavedFrom(y, l, s);
      EntryParts(y, l, m, e);
      GlobalVarAgain(y, l, m, c, l[e].word.addr);
      VarIs(y, l, c, l[e].word);
      TrailCell(y, l, m, c, e);
      ListedIf(z, c, s, T.NewEntry(y, l, e));
    }
    AllListed(z, c);
  }

  ghost predicate ListedAt(y: Layout, l: Memory, s: int) {
    exists e {:trigger l[e]} :: y.tBase <= e < y.tTop && 0 <= e < |l| && IsSavedValue(l[e].word) && l[e].word.addr == s
  }

  lemma ListedIf(y: Layout, l: Memory, s: int, e: int)
    requires y.tBase <= e < y.tTop && 0 <= e < |l| && l[e].word.Ptr? && l[e].word.tag == TRAILVAL && l[e].word.addr == s
    ensures ListedAt(y, l, s) == true
  {
  }

  lemma AllListed(y: Layout, l: Memory)
    requires forall s :: s in y.saved ==> ListedAt(y, l, s) == true
    ensures SavedListed(y, l) == true
  {
    forall s | s in y.saved
      ensures exists e {:trigger l[e]} :: y.tBase <= e < y.tTop && 0 <= e < |l| && IsSavedValue(l[e].word) && l[e].word.addr == s
    {
      assert ListedAt(y, l, s);
    }
  }

  // ---------- another collection

  lemma {:induction false} FirstHome(y: Layout, l: Memory, i: nat)
    requires i < |y.objs|
    ensures if Homes(y, l, i) == [] then NewAt(l, y.objs, i) == y.objs[0] else Homes(y, l, i)[0] == y.objs[0]
    decreases i
  {
    if i > 0 {
      FirstHome(y, l, i - 1);
    }
  }

  lemma SameBase(y: Layout, l: Memory)
    requires |y.objs| >= 2
    ensures NewObjs(y, l)[0] == y.objs[0]
  {
    FirstHome(y, l, |y.objs| - 1);
    hide NewAt, Homes;
  }

  /** The sentinels do not matter to what has been collected. */
  lemma {:induction false} CappedToo(y: Layout, l: Memory, m: Memory, c: Memory)
    requires Finished(y, l, m) == true && |y.objs| >= 2 && CappedAt(y, l, m, c) == true
    ensures Collected(y, l, c) == true
  {
    hide *;
    FinishedParts(y, l, m);
    SameLengthCapped(y, l, m, c);
    CapGlobal(y, l, m, c);
    CapSlots(y, l, m, c);
    CapTops(y, l, m, c);
    CapTrail(y, l, m, c);
    CapRest(y, l, m, c);
    CapBits(y, l, m, c);
    CollectedIf(y, l, c);
  }

  lemma CollectedIf(y: Layout, l: Memory, m: Memory)
    requires |m| == |l| && GlobalHome(y, l, m) == true && SlotsHome(y, l, m) == true && TopsHome(y, l, m) == true
    requires TrailHome(y, l, m) == true && RestHome(y, l, m) == true && |y.objs| >= 2 && BitsHome(y, l, m) == true
    ensures Collected(y, l, m) == true
  {
    hide GlobalHome, SlotsHome, TopsHome, TrailHome, RestHome, BitsHome;
  }

  lemma {:induction false} CapGlobal(y: Layout, l: Memory, m: Memory, c: Memory)
    requires Finished(y, l, m) == true && |y.objs| >= 2 && CappedAt(y, l, m, c) == true
    ensures GlobalHome(y, l, c) == true
  {
    hide Finished, Live, Collected, CappedAt, Renamed, NewAt, BitsHome, StacksOk, T.NewEntry;
    FinishedParts(y, l, m);
    forall i {:trigger ObjectHome(y, l, c, i)} | 0 <= i < |y.objs| - 1
      ensures ObjectHome(y, l, c, i)
    {
      HomeAt(y, l, m, i);
      if Marked(l, y.objs[i]) {
        CapBlock(y, l, m, c, i);
      }
    }
  }

  lemma {:induction false} CapBlock(y: Layout, l: Memory, m: Memory, c: Memory, i: int)
    requires Finished(y, l, m) == true && |y.objs| >= 2 && CappedAt(y, l, m, c) == true && 0 <= i < |y.objs| - 1 && Marked(l, y.objs[i])
    requires NewAt(l, y.objs, i) >= 0 && NewAt(l, y.objs, i) + (y.objs[i + 1] - y.objs[i]) <= |m|
    ensures |c| == |m| && forall w {:trigger c[w]} :: NewAt(l, y.objs, i) <= w < NewAt(l, y.objs, i) + (y.objs[i + 1] - y.objs[i]) && 0 <= w < |c| ==> c[w] == m[w]
  {
    hide *;
    FinishedParts(y, l, m);
    SameLengthCapped(y, l, m, c);
    TopBelow(y, l);
    LaidOut(y, l);
    NewAtMonotone(l, y.objs, i, |y.objs| - 1);
    TopIs(y, l);
    forall w {:trigger c[w]} | NewAt(l, y.objs, i) <= w < NewAt(l, y.objs, i) + (y.objs[i + 1] - y.objs[i]) && 0 <= w < |c|
      ensures c[w] == m[w]
    {
      CapApart(y, l, m, c, w);
    }
  }

  lemma {:induction false} CapSlots(y: Layout, l: Memory, m: Memory, c: Memory)
    requires Finished(y, l, m) == true && |y.objs| >= 2 && CappedAt(y, l, m, c) == true && |l| == |c|
    ensures SlotsHome(y, l, c) == true
  {
    FinishedParts(y, l, m);
    hide Finished, Live, Collected, CappedAt, Renamed, BitsHome, StacksOk;
    forall a {:trigger Slot(y, a)} | Slot(y, a)
      ensures 0 <= a < |l| && c[a] == Cell(Renamed(y, l, l[a].word), false, false)
    {
      SlotCell(y, l, m, a);
      SlotThere(y, l, a);
      OutsideCell(y, l, m, c, a);
    }
  }

  lemma SlotThere(y: Layout, l: Memory, a: int)
    requires Live(y, l) == true && Slot(y, a)
    ensures y.lBase <= a < |l| && !OnTrail(y, a)
  {
    assert Local(y, |l|, a);
  }

  lemma {:induction false} CapTops(y: Layout, l: Memory, m: Memory, c: Memory)
    requires Finished(y, l, m) == true && |y.objs| >= 2 && CappedAt(y, l, m, c) == true && |l| == |c|
    ensures TopsHome(y, l, c) == true
  {
    FinishedParts(y, l, m);
    hide Finished, Live, Collected, CappedAt, BitsHome, StacksOk, Home, T.NewEntry;
    forall a {:trigger a in y.globalTops} | a in y.globalTops
      ensures 0 <= a < |l| && c[a] == m[a]
    {
      TopWhere(y, l, m, a);
      OutsideCell(y, l, m, c, a);
    }
    forall a {:trigger a in y.trailTops} | a in y.trailTops
      ensures 0 <= a < |l| && c[a] == m[a]
    {
      TrailTopWhere(y, l, m, a);
      OutsideCell(y, l, m, c, a);
    }
    TopsAre(y, l, m);
  }

  lemma TopsAre(y: Layout, l: Memory, m: Memory)
    requires Collected(y, l, m) == true
    ensures |l| == |m| && TopsHome(y, l, m)
  {
    hide GlobalHome, SlotsHome, TrailHome, RestHome, BitsHome;
  }

  lemma {:induction false} CapTrail(y: Layout, l: Memory, m: Memory, c: Memory)
    requires Finished(y, l, m) == true && |y.objs| >= 2 && CappedAt(y, l, m, c) == true && |l| == |c|
    ensures TrailHome(y, l, c) == true
  {
    hide Finished, Live, Collected, CappedAt, BitsHome, StacksOk, Renamed, T.NewEntry;
    forall e {:trigger l[e]} | y.tBase <= e < y.tTop && 0 <= e < |l| && l[e].word != Var
      ensures 0 <= T.NewEntry(y, l, e) < |c| && c[T.NewEntry(y, l, e)].word == Renamed(y, l, l[e].word)
    {
      TrailCell(y, l, m, c, e);
    }
  }

  lemma {:induction false} CapRest(y: Layout, l: Memory, m: Memory, c: Memory)
    requires Finished(y, l, m) == true && |y.objs| >= 2 && CappedAt(y, l, m, c) == true && |l| == |c|
    ensures RestHome(y, l, c) == true
  {
    FinishedParts(y, l, m);
    RestIs(y, l, m);
    hide Finished, Live, Collected, CappedAt, BitsHome, StacksOk;
    forall a {:trigger c[a]} | 0 <= a < |l| && Local(y, |l|, a) && !Slot(y, a)
      ensures c[a] == l[a]
    {
      OutsideCell(y, l, m, c, a);
    }
  }

  lemma RestIs(y: Layout, l: Memory, m: Memory)
    requires Collected(y, l, m) == true
    ensures |l| == |m| && RestHome(y, l, m)
  {
    hide GlobalHome, SlotsHome, TrailHome, TopsHome, BitsHome;
  }

  lemma {:induction false} CapBits(y: Layout, l: Memory, m: Memory, c: Memory)
    requires Finished(y, l, m) == true && |y.objs| >= 2 && CappedAt(y, l, m, c) == true && |l| == |c|
    ensures BitsHome(y, l, c) == true
  {
    FinishedParts(y, l, m);
    TopBelow(y, l);
    hide Finished, Live, Collected, StacksOk, NewTop, T.NewEntry;
  }

  /** The stacks when a collection starts, and all that the theorems about it ask for. */
  ghost predicate Prepared(y: Layout, l0: Memory) {
    Begun(y, l0) && NoMarks(y, l0) && TopsLocal(y) && Covered(y, l0)
  }

  /** After a collection of such stacks they are such stacks again, with the sentinels that the next
      collection starts with; and if the choice points and assignments on the trail were in order,
      they still are. */
  lemma {:induction false} PreparedAgain(y: Layout, l0: Memory, pre: Memory, hs: seq<Stage>, te: int, l: Memory, m: Memory)
    requires |y.objs| >= 2 && Prepared(y, l0) == true && CollectedFrom(y, l0, pre, hs, te, l, m) == true
    ensures var z := Moved(y, l); var c := Capped(z, m);
            && |z.objs| >= 2 && z.objs[0] == y.objs[0] && GTop(z) == NewTop(y, l) && z.tTop == T.NewEntry(y, l, y.tTop)
            && GTop(z) < |m| && z.tTop < |m| && z.lBase == y.lBase && z.tBase == y.tBase && z.foreign == y.foreign && z.choices == y.choices
            && z.trailTops == y.trailTops && z.globalTops == y.globalTops
            && Prepared(z, c) == true && Collected(y, l, c) == true && (Older(y, l0) ==> Backtrackable(z, c) == true)
  {
    hide *;
    PreparedParts(y, l0);
    var z, c := Moved(y, l), Capped(Moved(y, l), m);
    IsFinished(y, l0, pre, hs, te, l, m);
    CapsAre(y, l, m);
    SizesOf(y, l);
    TrailBounds(y, l);
    SameChoices(y, l);
    SameBase(y, l);
    FinishedParts(y, l, m);
    TopBelow(y, l);
    FromStart(y, l0, pre, hs, te, l, m);
    HistoryStays(y, pre, hs, l, te);
    StacksAgain(y, l, m, c);
    LocalsAgain(y, l0, pre, l, m, c);
    CoveredAgain(y, l0, pre, l, m, c);
    CappedToo(y, l, m, c);
    TopsAgain(y, l);
    Begins(z, c);
    IsPrepared(z, c);
    if Older(y, l0) {
      OlderAgain(y, l0, pre, l, m, c);
      ListedAgain(y, l, m, c);
      IsBacktrackable(z, c);
    }
  }

  lemma PreparedParts(y: Layout, l0: Memory)
    requires |y.objs| >= 2 && Prepared(y, l0) == true
    ensures Begun(y, l0) == true && NoMarks(y, l0) == true && TopsLocal(y) == true && Covered(y, l0) == true
    ensures StacksOk(y, l0) == true && Untouched(y, l0, y.tTop - 1) == true && LocalsOk(y, l0) == true
  {
    hide StacksOk, Untouched, LocalsOk, NoMarks, TopsLocal, Covered;
  }

  lemma IsPrepared(y: Layout, l0: Memory)
    requires |y.objs| >= 2 && Begun(y, l0) == true && NoMarks(y, l0) == true && TopsLocal(y) == true && Covered(y, l0) == true
    ensures Prepared(y, l0) == true
  {
    hide Begun, NoMarks, TopsLocal, Covered;
  }

  lemma IsBacktrackable(y: Layout, l0: Memory)
    requires Begun(y, l0) == true && TopsLocal(y) == true && Older(y, l0) == true && SavedListed(y, l0) == true
    ensures Backtrackable(y, l0) == true
  {
    hide Begun, TopsLocal, Older, SavedListed;
  }

  lemma TopsAgain(y: Layout, l: Memory)
    requires |y.objs| >= 2 && TopsLocal(y) == true
    ensures TopsLocal(Moved(y, l)) == true
  {
    hide NewObjs, NewOwner, NewSaved, T.NewEntry;
  }

  lemma SwapCollected(y: Layout, l0: Memory, pre: Memory, hs: seq<Stage>, te: int, l: Memory, m: Memory, c: Memory)
    requires CollectedFrom(y, l0, pre, hs, te, l, m) == true && Collected(y, l, c) == true
    ensures CollectedFrom(y, l0, pre, hs, te, l, c) == true
  {
    hide Collected, History, Live;
  }

  lemma {:induction false} RenameTwice(f: int -> int, g: int -> int, t: Tree)
    ensures Rename(g, Rename(f, t)) == Rename((x: int) => g(f(x)), t)
    decreases t, 1, 0
  {
    if t.Struct? {
      RenameAllTwice(f, g, t, |t.args|);
      assert t.args[..|t.args|] == t.args;
    }
  }

  lemma {:induction false} RenameAllTwice(f: int -> int, g: int -> int, t: Tree, n: nat)
    requires t.Struct? && n <= |t.args|
    ensures |RenameAll(f, t.args[..n])| == n && RenameAll(g, RenameAll(f, t.args[..n])) == RenameAll((x: int) => g(f(x)), t.args[..n])
    decreases t, 0, n
  {
    if n > 0 {
      RenameAllTwice(f, g, t, n - 1);
      RenameTwice(f, g, t.args[n - 1]);
      assert t.args[..n] == t.args[..n - 1] + [t.args[n - 1]];
      RenameLast(f, t.args[..n - 1], t.args[n - 1]);
      RenameLast(g, RenameAll(f, t.args[..n - 1]), Rename(f, t.args[n - 1]));
      RenameLast((x: int) => g(f(x)), t.args[..n - 1], t.args[n - 1]);
    }
  }

  lemma {:induction false} RenameNot(t: Tree)
    ensures Rename((x: int) => x, t) == t
    decreases t, 1, 0
  {
    if t.Struct? {
      RenameAllNot(t, |t.args|);
      assert t.args[..|t.args|] == t.args;
    }
  }

  lemma {:induction false} RenameAllNot(t: Tree, n: nat)
    requires t.Struct? && n <= |t.args|
    ensures RenameAll((x: int) => x, t.args[..n]) == t.args[..n]
    decreases t, 0, n
  {
    if n > 0 {
      RenameAllNot(t, n - 1);
      RenameNot(t.args[n - 1]);
      assert t.args[..n] == t.args[..n - 1] + [t.args[n - 1]];
      RenameLast((x: int) => x, t.args[..n - 1], t.args[n - 1]);
    }
  }

  /** The program runs on these stacks. */
  ghost predicate Running(ld: R.LocalData, y: Layout)
    reads ld, ld.mem
  {
    Bounds(ld, y) && GTop(y) < ld.mem.Length && y.tTop < ld.mem.Length && Prepared(y, Capped(y, ld.mem[..]))
  }

  lemma RunningParts(ld: R.LocalData, y: Layout)
    requires Running(ld, y) == true
    ensures Collectable(ld, y) == true && |y.objs| >= 2 && Prepared(y, Capped(y, ld.mem[..])) == true && Bounds(ld, y) == true
    ensures GTop(y) < ld.mem.Length && y.tTop < ld.mem.Length && |Capped(y, ld.mem[..])| == ld.mem.Length
  {
    hide StacksOk, NoMarks, Untouched, TopsLocal, Covered, LocalsOk;
  }

  lemma RunsOn(ld: R.LocalData, y: Layout)
    requires |y.objs| >= 2 && ld.gBase == y.objs[0] && ld.gTop == GTop(y) && ld.lBase == y.lBase && ld.tBase == y.tBase && ld.tTop == y.tTop
    requires GTop(y) < ld.mem.Length && y.tTop < ld.mem.Length && Prepared(y, Capped(y, ld.mem[..])) == true
    ensures Running(ld, y) == true
  {
    hide Prepared;
  }

  /** The variable a stands for the same terms in q as in p, with unbound variables renamed. */
  ghost predicate SameTerm(p: Memory, q: Memory, f: int -> int, a: int) {
    forall n: nat {:trigger Read(q, a, n)} :: Read(q, a, n) == Rename(f, Read(p, a, n))
  }

  lemma {:induction false} SameTermTwice(p: Memory, q: Memory, r: Memory, f: int -> int, g: int -> int, a: int)
    requires SameTerm(p, q, f, a) && SameTerm(q, r, g, a)
    ensures SameTerm(p, r, (x: int) => g(f(x)), a)
  {
    hide Read, Rename;
    forall n: nat {:trigger Read(r, a, n)}
      ensures Read(r, a, n) == Rename((x: int) => g(f(x)), Read(p, a, n))
    {
      assert Read(q, a, n) == Rename(f, Read(p, a, n));
      RenameTwice(f, g, Read(p, a, n));
    }
  }

  lemma {:induction false} SameTermNow(p: Memory, a: int)
    ensures SameTerm(p, p, (x: int) => x, a) == true
  {
    hide Read, Rename;
    forall n: nat {:trigger Read(p, a, n)}
      ensures Read(p, a, n) == Rename((x: int) => x, Read(p, a, n))
    {
      RenameNot(Read(p, a, n));
    }
  }

  lemma {:induction false} KeptTerm(y: Layout, l0: Memory, pre: Memory, hs: seq<Stage>, te: int, l: Memory, c: Memory, a: int)
    requires Begun(y, l0) == true && CollectedFrom(y, l0, pre, hs, te, l, c) == true && Current(y, a) == true
    ensures SameTerm(l0, c, (x: int) => Place(y, l, x), a) == true
  {
    hide Begun, CollectedFrom, Current, Read, Rename, Place;
    forall n: nat {:trigger Read(c, a, n)}
      ensures Read(c, a, n) == Rename((x: int) => Place(y, l, x), Read(l0, a, n))
    {
      CollectionKeepsTerms(y, l0, pre, hs, te, l, c, a, n);
    }
  }

  /** Any number of collections, one after the other: the stacks stay as the collector expects them,
      and every variable of the frames in use stands for the same term all the time. */
  method CollectOften(ld: R.LocalData, foreign: seq<seq<nat>>, choices: seq<Choice>, trailTops: seq<nat>, globalTops: seq<nat>, n: nat,
      ghost y0: Layout) returns (ghost y: Layout, ghost f: int -> int)
    requires Running(ld, y0) == true
    requires foreign == y0.foreign && choices == y0.choices && trailTops == y0.trailTops && globalTops == y0.globalTops
    modifies ld, ld.mem
    ensures Running(ld, y) == true && y.foreign == y0.foreign && y.choices == y0.choices
    ensures forall a {:trigger Current(y0, a)} :: Current(y0, a) ==> SameTerm(old(Capped(y0, ld.mem[..])), Capped(y, ld.mem[..]), f, a)
  {
    hide *;
    ghost var p := Capped(y0, ld.mem[..]);
    y, f := y0, (x: int) => x;
    forall a {:trigger Current(y0, a)}
      ensures SameTerm(p, Capped(y, ld.mem[..]), f, a)
    {
      SameTermNow(p, a);
    }
    for k := 0 to n
      invariant Running(ld, y) == true
      invariant foreign == y.foreign && choices == y.choices && trailTops == y.trailTops && globalTops == y.globalTops
      invariant forall a {:trigger Current(y0, a)} :: Current(y0, a) ==> Current(y, a) && SameTerm(p, Capped(y, ld.mem[..]), f, a)
    {
      RunningParts(ld, y);
      ghost var l0 := Capped(y, ld.mem[..]);
      ghost var pre, hs, te, l;
      pre, hs, te, l := GarbageCollect(ld, foreign, choices, trailTops, globalTops, y);
      PreparedAgain(y, l0, pre, hs, te, l, ld.mem[..]);
      ghost var z := Moved(y, l);
      ghost var g := (x: int) => Place(y, l, x);
      TopIs(y, l);
      RunsOn(ld, z);
      PreparedParts(y, l0);
      SwapCollected(y, l0, pre, hs, te, l, ld.mem[..], Capped(z, ld.mem[..]));
      forall a {:trigger Current(y0, a)} | Current(y0, a)
        ensures Current(z, a) && SameTerm(p, Capped(z, ld.mem[..]), (x: int) => g(f(x)), a)
      {
        SamePassed(y, l, a);
        KeptTerm(y, l0, pre, hs, te, l, Capped(z, ld.mem[..]), a);
        SameTermTwice(p, l0, Capped(z, ld.mem[..]), f, g, a);
      }
      y, f := z, (x: int) => g(f(x));
    }
  }
}
