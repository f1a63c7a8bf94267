/** What the program sees of a garbage collection: the terms of the frames in use, and those
    that backtracking brings back, are the same as without it. */
module Preservation {
  import opened Words
  import opened GlobalStack
  import opened Stacks
  import R = Relocation
  import opened MarkPhase
  import opened EarlyReset
  import opened GarbageCollection
  import opened Isomorphism
  import opened Backtracking

  // ---------- regions of memory that are carried along

  /** The cells of s are kept by the collection that makes m of l; p and q are memories before
      and after it in which they hold the same, renamed words. */
  ghost predicate Agrees(y: Layout, l: Memory, p: Memory, q: Memory, s: iset<int>) {
    |p| == |l| == |q| && forall x {:trigger x in s} :: x in s ==>
      Kept(y, l, x) && 0 <= x < |l| && 0 <= Place(y, l, x) < |q| && q[Place(y, l, x)].word == Renamed(y, l, p[x].word)
  }

  /** Pointers of s lead to cells of s. */
  ghost predicate Leading(y: Layout, l: Memory, p: Memory, s: iset<int>) {
    |p| == |l| && forall x {:trigger x in s} :: x in s && 0 <= x < |p| && p[x].word.Ptr? ==>
      && p[x].word.addr in s && Leads(y, l, p[x].word)
      && (p[x].word.tag != Reference ==> p[x].word.addr < |p| && p[p[x].word.addr].word == l[p[x].word.addr].word)
  }

  ghost predicate BlockAt(y: Layout, l: Memory, s: iset<int>, b: int) {
    b in s && IsObject(y.objs, b) && 0 <= b < |l| && l[b].word.Header?
  }

  ghost predicate Arguments(y: Layout, l: Memory, s: iset<int>) {
    forall b, x {:trigger b in s, x in s} ::
      b in s && IsObject(y.objs, b) && 0 <= b < |l| && l[b].word.Functor? && b < x <= b + l[b].word.arity ==> x in s
  }

  ghost predicate Blocks(y: Layout, l: Memory, p: Memory, s: iset<int>)
    requires |p| == |l|
  {
    forall b, w {:trigger BlockAt(y, l, s, b), p[w]} ::
      BlockAt(y, l, s, b) && b < w <= b + l[b].word.size && w < |p| ==> p[w].word == l[w].word
  }

  ghost predicate BlocksHome(y: Layout, l: Memory, m: Memory, q: Memory, s: iset<int>)
    requires |m| == |q|
  {
    forall b, w {:trigger BlockAt(y, l, s, b), q[w]} ::
      BlockAt(y, l, s, b) && Home(y, l, b) < w <= Home(y, l, b) + l[b].word.size && 0 <= w < |q| ==> q[w].word == m[w].word
  }

  /** The arguments of the terms of s are in s, and the data of its indirects is unchanged. */
  ghost predicate Bodies(y: Layout, l: Memory, m: Memory, p: Memory, q: Memory, s: iset<int>) {
    |p| == |l| == |m| == |q| && Arguments(y, l, s) && Blocks(y, l, p, s) && BlocksHome(y, l, m, q, s)
  }

  lemma ArgumentsIn(y: Layout, l: Memory, m: Memory, p: Memory, q: Memory, s: iset<int>, b: nat, x: int)
    requires Bodies(y, l, m, p, q, s) == true && b in s && IsObject(y.objs, b) && b < |l| && l[b].word.Functor?
    requires b < x <= b + l[b].word.arity
    ensures x in s
  {
  }

  lemma IsNext(s: iset<int>, f: int -> int, b: int, x: int)
    requires x in s && f(x) == f(b) + (x - b)
    ensures Follows(s, f, b, x)
  {
  }

  lemma TermBody(p: Memory, q: Memory, s: iset<int>, f: int -> int, b: nat)
    requires b < |p| && p[b].word.Functor?
    requires forall x {:trigger Follows(s, f, b, x)} :: b < x <= b + p[b].word.arity ==> Follows(s, f, b, x)
    ensures CarriesBody(p, q, s, f, b) == true
  {
    hide Follows;
  }

  lemma TermCarried(y: Layout, l: Memory, m: Memory, p: Memory, q: Memory, s: iset<int>, b: nat)
    requires Live(y, l) == true && Bodies(y, l, m, p, q, s) == true && b in s && b < |l| == |p|
    requires IsObject(y.objs, b) && Marked(l, b) && p[b].word == l[b].word && l[b].word.Functor?
    ensures CarriesBody(p, q, s, (x: int) => Place(y, l, x), b) == true
  {
    hide *;
    ArgumentPlace(y, l, b);
    var f := (x: int) => Place(y, l, x);
    forall x {:trigger Follows(s, f, b, x)} | b < x <= b + l[b].word.arity
      ensures Follows(s, f, b, x)
    {
      ArgumentsIn(y, l, m, p, q, s, b, x);
      ArgumentKept(y, l, b, x - b);
      ArgumentPlace(y, l, x);
      IsNext(s, f, b, x);
    }
    TermBody(p, q, s, f, b);
  }

  lemma {:induction false} BlockBody(y: Layout, l: Memory, p: Memory, q: Memory, s: iset<int>, b: nat)
    requires b < |l| == |p| && p[b].word == l[b].word && l[b].word.Header? && b + l[b].word.size + 2 <= |p|
    requires IsObject(y.objs, b) && Place(y, l, b) == Home(y, l, b) && 0 <= Home(y, l, b) && Home(y, l, b) + l[b].word.size + 2 <= |q|
    requires forall w {:trigger p[w]} :: b < w <= b + l[b].word.size ==> q[Home(y, l, b) + (w - b)].word == p[w].word
    ensures CarriesBody(p, q, s, (x: int) => Place(y, l, x), b) == true
  {
    hide Place, Home;
  }

  lemma BlockSame(y: Layout, l: Memory, m: Memory, p: Memory, q: Memory, s: iset<int>, b: nat, w: int)
    requires Bodies(y, l, m, p, q, s) && b in s && IsObject(y.objs, b) && b < |l| && l[b].word.Header?
    requires b < w <= b + l[b].word.size && w < |p| && 0 <= Home(y, l, b) && Home(y, l, b) + (w - b) < |q|
    requires |p| == |l| == |m| == |q| && m[Home(y, l, b) + (w - b)] == l[w]
    ensures q[Home(y, l, b) + (w - b)].word == p[w].word
  {
    assert BlockAt(y, l, s, b);
    hide Home, IsObject;
    var v := Home(y, l, b) + (w - b);
    assert q[v].word == m[v].word;
  }

  lemma {:induction false} BlockCarried(y: Layout, l: Memory, m: Memory, p: Memory, q: Memory, s: iset<int>, b: nat)
    requires Live(y, l) == true && Collected(y, l, m) == true && Bodies(y, l, m, p, q, s) == true && b in s
    requires IsObject(y.objs, b) && Marked(l, b) && b < |l| == |p| == |m| == |q| && p[b].word == l[b].word && l[b].word.Header?
    ensures CarriesBody(p, q, s, (x: int) => Place(y, l, x), b) == true
  {
    hide *;
    ArgumentPlace(y, l, b);
    IndirectHome(y, l, m, b);
    var d := Home(y, l, b);
    forall w {:trigger p[w]} | b < w <= b + l[b].word.size
      ensures q[d + (w - b)].word == p[w].word
    {
      BlockSame(y, l, m, p, q, s, b, w);
    }
    BlockBody(y, l, p, q, s, b);
  }

  lemma BodyCarried(y: Layout, l: Memory, m: Memory, p: Memory, q: Memory, s: iset<int>, b: nat)
    requires Live(y, l) == true && Collected(y, l, m) == true && Bodies(y, l, m, p, q, s) == true && b in s
    requires IsObject(y.objs, b) && Marked(l, b) && b < |l| == |p| == |m| == |q| && p[b].word == l[b].word && (l[b].word.Functor? || l[b].word.Header?)
    ensures CarriesBody(p, q, s, (x: int) => Place(y, l, x), b) == true
  {
    hide *;
    if l[b].word.Functor? {
      TermCarried(y, l, m, p, q, s, b);
    } else {
      BlockCarried(y, l, m, p, q, s, b);
    }
  }

  lemma RegionCarried(y: Layout, l: Memory, m: Memory, p: Memory, q: Memory, s: iset<int>)
    requires Live(y, l) == true && Collected(y, l, m) == true
    requires Agrees(y, l, p, q, s) == true && Leading(y, l, p, s) == true && Bodies(y, l, m, p, q, s) == true
    ensures Carries(p, q, s, (x: int) => Place(y, l, x)) == true
  {
    forall x {:trigger x in s} | x in s
      ensures CarriesCell(p, q, s, (x: int) => Place(y, l, x), x)
    {
      RegionCell(y, l, m, p, q, s, x);
    }
  }

  lemma RegionCell(y: Layout, l: Memory, m: Memory, p: Memory, q: Memory, s: iset<int>, x: int)
    requires Live(y, l) == true && Collected(y, l, m) == true && x in s
    requires Agrees(y, l, p, q, s) == true && Leading(y, l, p, s) == true && Bodies(y, l, m, p, q, s) == true
    ensures CarriesCell(p, q, s, (x: int) => Place(y, l, x), x) == true
  {
    hide Live, Collected, Bodies, Kept, Place, Home, Leads, CarriesBody, Marked, IsObject;
    SameLengths(y, l, m, p, q, s);
    assert 0 <= x < |l|;
    var w := p[x].word;
    NotRenamed(y, l, w);
    if w.Ptr? {
      assert w.addr in s && Leads(y, l, w);
      TargetKept(y, l, m, w);
      if w.tag != Reference {
        NotRenamed(y, l, l[w.addr].word);
        BodyCarried(y, l, m, p, q, s, w.addr);
      }
    }
  }

  lemma SameLengths(y: Layout, l: Memory, m: Memory, p: Memory, q: Memory, s: iset<int>)
    requires Bodies(y, l, m, p, q, s)
    ensures |p| == |l| == |m| == |q|
  {
  }

  lemma NotRenamed(y: Layout, l: Memory, w: Word)
    ensures !w.Ptr? ==> Renamed(y, l, w) == w
  {
  }

  // ---------- what was marked before any variable was reset

  /** The cells that are marked in memory r. */
  ghost function MarkedRegion(y: Layout, r: Memory): (s: iset<int>)
    ensures forall x {:trigger x in s} :: x in s <==> Kept(y, r, x) && Marked(r, x)
  {
    iset x | Kept(y, r, x) && Marked(r, x)
  }

  lemma StillKept(y: Layout, r: Memory, l: Memory, x: int)
    requires Live(y, r) == true && Emptied(y, r, l) == true && Kept(y, r, x) && Marked(r, x)
    ensures 0 <= x < |r| == |l| && Kept(y, l, x) == true && Marked(l, x) && l[x].word == r[x].word && !OnTrail(y, x)
  {
    KeptPlace(y, r, x);
    if IsObject(y.objs, x) {
      ObjectIndex(y, r, x);
    } else {
      assert Local(y, |r|, x);
    }
  }

  lemma BodyUnchanged(y: Layout, r: Memory, l: Memory, b: nat, w: int)
    requires Live(y, r) == true && Emptied(y, r, l) == true && IsObject(y.objs, b) && b < |r| && r[b].word.Header?
    requires b < w <= b + r[b].word.size
    ensures 0 <= w < |r| == |l| && l[w].word == r[w].word
  {
    ObjectIndex(y, r, b);
    LaidOut(y, r);
    InnerWord(y, r, Index(y.objs, b), w);
    hide Live;
  }

  lemma InnerWord(y: Layout, r: Memory, i: int, w: int)
    requires Laid(r, y.objs) && 0 <= i < |y.objs| - 1 && y.objs[i] < w < y.objs[i + 1]
    ensures !IsObject(y.objs, w)
  {
    if IsObject(y.objs, w) {
      var k := Index(y.objs, w);
      if k <= i {
        Increasing(r, y.objs, k, i);
      } else {
        Increasing(r, y.objs, i + 1, k);
      }
    }
  }

  lemma MarkedAgrees(y: Layout, r: Memory, l: Memory, p: Memory, m: Memory, s: iset<int>)
    requires Live(y, r) == true && Live(y, l) == true && Collected(y, l, m) == true && Emptied(y, r, l) == true && SameWords(p, r)
    requires s == MarkedRegion(y, r)
    ensures Agrees(y, l, p, m, s) == true
  {
    hide Live, Collected, Emptied, Place;
    forall x {:trigger x in s} | x in s
      ensures Kept(y, l, x) && 0 <= x < |l| == |p| == |m| && 0 <= Place(y, l, x) < |m| && m[Place(y, l, x)].word == Renamed(y, l, p[x].word)
    {
      StillKept(y, r, l, x);
      CellKept(y, l, m, x);
    }
    SameLength(y, r, l, m);
  }

  lemma SameLength(y: Layout, r: Memory, l: Memory, m: Memory)
    requires Emptied(y, r, l) == true && Collected(y, l, m) == true
    ensures |r| == |l| == |m|
  {
  }

  lemma MarkedLeading(y: Layout, r: Memory, l: Memory, p: Memory, s: iset<int>)
    requires Live(y, r) == true && Live(y, l) == true && Emptied(y, r, l) == true && SameWords(p, r) && |y.objs| >= 2
    requires s == MarkedRegion(y, r) && LocalRefs(y, r) == true && LocalRefs(y, l) == true
    ensures |p| == |l| && Leading(y, l, p, s) == true
  {
    EmptiedLength(y, r, l);
    hide Live, Emptied, LocalRefs;
    forall x {:trigger x in s} | x in s && 0 <= x < |p| && p[x].word.Ptr?
      ensures p[x].word.addr in s && Leads(y, l, p[x].word)
      ensures p[x].word.tag != Reference ==> p[x].word.addr < |p| && p[p[x].word.addr].word == l[p[x].word.addr].word
    {
      MarkedPointer(y, r, l, p, s, x);
    }
  }

  lemma EmptiedLength(y: Layout, r: Memory, l: Memory)
    requires Emptied(y, r, l) == true
    ensures |l| == |r|
  {
  }

  lemma MarkedPointer(y: Layout, r: Memory, l: Memory, p: Memory, s: iset<int>, x: int)
    requires Live(y, r) == true && Live(y, l) == true && Emptied(y, r, l) == true && SameWords(p, r) && |y.objs| >= 2
    requires s == MarkedRegion(y, r) && LocalRefs(y, r) == true && LocalRefs(y, l) == true
    requires x in s && 0 <= x < |p| && p[x].word.Ptr?
    ensures p[x].word.addr in s && Leads(y, l, p[x].word) == true && |l| == |p|
    ensures p[x].word.tag != Reference ==> p[x].word.addr < |p| && p[p[x].word.addr].word == l[p[x].word.addr].word
  {
    EmptiedLength(y, r, l);
    StillKept(y, r, l, x);
    hide Live, Emptied, LocalRefs, Place, Renamed;
    PointerKept(y, r, x);
    PointerKept(y, l, x);
    var b := p[x].word.addr;
    assert Kept(y, r, b) && Marked(r, b);
    StillKept(y, r, l, b);
  }

  lemma MarkedArguments(y: Layout, r: Memory, l: Memory, s: iset<int>)
    requires Live(y, r) == true && Emptied(y, r, l) == true && s == MarkedRegion(y, r)
    ensures Arguments(y, l, s) == true
  {
    hide Live, Emptied;
    forall b, x {:trigger b in s, x in s} | b in s && IsObject(y.objs, b) && 0 <= b < |l| && l[b].word.Functor? && b < x <= b + l[b].word.arity
      ensures x in s
    {
      StillKept(y, r, l, b);
      ArgumentIs(y, r, b, x - b);
    }
  }

  lemma MarkedBlocks(y: Layout, r: Memory, l: Memory, p: Memory, s: iset<int>)
    requires Live(y, r) == true && Emptied(y, r, l) == true && s == MarkedRegion(y, r) && SameWords(p, r)
    ensures |p| == |l| && Blocks(y, l, p, s) == true
  {
    EmptiedLength(y, r, l);
    hide Live, Emptied;
    forall b, w {:trigger BlockAt(y, l, s, b), p[w]} | BlockAt(y, l, s, b) && b < w <= b + l[b].word.size && w < |p|
      ensures p[w].word == l[w].word
    {
      StillKept(y, r, l, b);
      BodyUnchanged(y, r, l, b, w);
    }
  }

  lemma MarkedBodies(y: Layout, r: Memory, l: Memory, m: Memory, p: Memory, s: iset<int>)
    requires Live(y, r) == true && Emptied(y, r, l) == true && Collected(y, l, m) == true && SameWords(p, r) == true
    requires s == MarkedRegion(y, r)
    ensures Bodies(y, l, m, p, m, s) == true
  {
    SameLength(y, r, l, m);
    MarkedArguments(y, r, l, s);
    MarkedBlocks(y, r, l, p, s);
    hide Live, Emptied, Collected, Home, Arguments, Blocks, IsObject;
  }

  lemma {:induction false} MarkedCarried(y: Layout, r: Memory, l: Memory, m: Memory, p: Memory, a: int, n: nat)
    requires Live(y, r) == true && Live(y, l) == true && Collected(y, l, m) == true && Emptied(y, r, l) == true && SameWords(p, r) == true
    requires |y.objs| >= 2 && LocalRefs(y, r) == true && LocalRefs(y, l) == true && Kept(y, r, a) && Marked(r, a)
    ensures Read(m, Place(y, l, a), n) == Rename((x: int) => Place(y, l, x), Read(p, a, n))
  {
    var s := MarkedRegion(y, r);
    MarkedAgrees(y, r, l, p, m, s);
    MarkedLeading(y, r, l, p, s);
    MarkedBodies(y, r, l, m, p, s);
    RegionCarried(y, l, m, p, m, s);
    assert a in s;
    hide *;
    ReadCarried(p, m, s, (x: int) => Place(y, l, x), a, n);
  }

  // ---------- the terms in use

  /** Memory when the frames of the current query and the foreign frames have been marked, and
      no variable has been reset yet. */
  ghost function InUse(hs: seq<Stage>, l: Memory): Memory {
    if hs == [] then l else hs[0].before
  }

  lemma {:induction false} InUseEmptied(y: Layout, p: Memory, hs: seq<Stage>, te: int, l: Memory)
    requires |y.objs| >= 2 && |hs| == |y.choices| <= |y.trailTops| && History(y, p, hs, l, te) == true && Origin(y, p) == true && Live(y, l) == true
    ensures Live(y, InUse(hs, l)) == true && Emptied(y, InUse(hs, l), l) == true && SameWords(p, InUse(hs, l)) == true
    ensures forall a {:trigger Marked(p, a)} :: Marked(p, a) ==> Marked(InUse(hs, l), a)
  {
    if hs == [] {
      NoHistory(y, p, l, te);
      EmptiedSelf(y, l);
    } else {
      FirstStage(y, p, hs, te, l);
    }
  }

  lemma {:induction false} FirstStage(y: Layout, p: Memory, hs: seq<Stage>, te: int, l: Memory)
    requires |y.objs| >= 2 && 0 < |hs| == |y.choices| <= |y.trailTops| && History(y, p, hs, l, te) == true && Origin(y, p) == true
    ensures Live(y, hs[0].before) == true && Emptied(y, hs[0].before, l) == true && SameWords(p, hs[0].before) == true
    ensures forall a {:trigger Marked(p, a)} :: Marked(p, a) ==> Marked(hs[0].before, a)
  {
    hide History, Origin, Live, Emptied;
    LaterStages(y, p, hs, l, te, 0);
    var r, rt := After(hs, l, 0), ScannedTo(hs, te, 0);
    HistoryParts(y, p, hs[..1], r, rt);
    assert hs[..1][..0] == [] && hs[..1][0] == hs[0];
    NoHistory(y, p, hs[0].start, hs[0].te);
    OneStage(y, p, hs[0], r, rt);
    EmptiedMore(y, hs[0].before, r, l);
  }

  lemma OneStage(y: Layout, p: Memory, st: Stage, r: Memory, rt: int)
    requires |y.objs| >= 2 && 0 < |y.choices| && 0 < |y.trailTops| && HasStage(y, 0, st, r, rt) == true && st.start == p && st.te == y.tTop - 1
    requires Origin(y, p) == true
    ensures Live(y, st.before) == true && Emptied(y, st.before, r) == true && SameWords(p, st.before) == true
    ensures forall a {:trigger Marked(p, a)} :: Marked(p, a) ==> Marked(st.before, a)
  {
    TrailIs(y, p);
    StageIsStaged(y, 0, st, r, rt);
    LiveParts(y, st.before);
    hide Live, Origin, StacksOk;
    var again := Stage(st.before, st.te, st.before, st.scanned);
    MoreSame(y, st.before);
    StageEmpties(y, again, r, rt, y.choices[0].top);
    StageWords(y, st, r, rt, y.choices[0].top);
  }

  lemma TrailIs(y: Layout, p: Memory)
    requires Origin(y, p) == true
    ensures 0 <= y.tBase <= y.tTop < |p|
  {
  }

  /** A variable of a frame of the current environment, or a reference from foreign code. */
  ghost predicate Current(y: Layout, a: int) {
    || (|y.choices| > 0 && a in y.choices[0].query)
    || exists k {:trigger y.foreign[k]} :: 0 <= k < |y.foreign| && a in y.foreign[k]
  }

  /** Variable b is passed no later than a. */
  ghost predicate PassedWith(y: Layout, a: int, b: int) {
    && (Current(y, a) ==> Current(y, b))
    && forall j {:trigger Passed(y, j, a)} :: 0 <= j && Passed(y, j, a) ==> Passed(y, j, b)
  }

  /** A reference between variables of frames leads down the local stack, to a frame that is
      passed no later: the same frame or an ancestor of it. */
  ghost predicate LocalsOk(y: Layout, l: Memory)
    requires |y.objs| >= 2
  {
    forall a {:trigger Slot(y, a)} :: Slot(y, a) && 0 <= a < |l| && l[a].word.Ptr? && l[a].word.addr > GTop(y) ==>
      l[a].word.tag == Reference && Slot(y, l[a].word.addr) && l[a].word.addr < a && PassedWith(y, a, l[a].word.addr)
  }

  /** The stacks at the start of a collection. */
  ghost predicate Begun(y: Layout, l0: Memory) {
    StacksOk(y, l0) && Untouched(y, l0, y.tTop - 1) && LocalsOk(y, l0)
  }

  lemma {:induction false} FromStart(y: Layout, l0: Memory, pre: Memory, hs: seq<Stage>, te: int, l: Memory, m: Memory)
    requires Begun(y, l0) && CollectedFrom(y, l0, pre, hs, te, l, m) == true
    ensures |y.objs| >= 2 && Origin(y, pre) == true && SameWords(l0, pre) == true && Live(y, l) == true && Collected(y, l, m) == true
    ensures |hs| == |y.choices| <= |y.trailTops| && History(y, pre, hs, l, te) == true && AllMarked(y, l) == true
    ensures SlotsAre(y, pre, 0) == true && LocalsOk(y, l0) == true
  {
    MarkedStacks(y, l0, pre);
    MoreWords(y, l0, pre, y.tTop - 1);
  }

  /** The marked variables refer to marked ones. */
  lemma RefsMarked(y: Layout, l0: Memory, r: Memory, j: int)
    requires |y.objs| >= 2 && LocalsOk(y, l0) && SlotsAre(y, r, j) && 0 <= j && |r| == |l0|
    requires forall a {:trigger Slot(y, a)} :: Slot(y, a) && 0 <= a < |r| && r[a].word != l0[a].word ==> r[a].word == Var
    ensures LocalRefs(y, r) == true
  {
    forall a {:trigger Slot(y, a)} | Slot(y, a) && 0 <= a < |r| && Marked(r, a) && r[a].word.Ptr? && r[a].word.addr > GTop(y)
      ensures r[a].word.tag == Reference && Slot(y, r[a].word.addr) && Marked(r, r[a].word.addr)
    {
      assert Passed(y, j, a);
      assert PassedWith(y, a, r[a].word.addr);
    }
  }

  /** So do those that are in use. */
  lemma RefsCurrent(y: Layout, l0: Memory, r: Memory)
    requires |y.objs| >= 2 && LocalsOk(y, l0) && SameWords(l0, r)
    requires forall a {:trigger Slot(y, a)} :: Slot(y, a) ==> (Marked(r, a) <==> Current(y, a))
    ensures LocalRefs(y, r) == true
  {
    forall a {:trigger Slot(y, a)} | Slot(y, a) && 0 <= a < |r| && Marked(r, a) && r[a].word.Ptr? && r[a].word.addr > GTop(y)
      ensures r[a].word.tag == Reference && Slot(y, r[a].word.addr) && Marked(r, r[a].word.addr)
    {
      assert PassedWith(y, a, r[a].word.addr);
    }
  }

  lemma SameWordsAgain(p: Memory, q: Memory, r: Memory)
    requires SameWords(p, q) == true && SameWords(q, r) == true
    ensures SameWords(p, r) == true
  {
  }

  lemma CurrentPassed(y: Layout, a: int)
    ensures |y.choices| > 0 ==> (Current(y, a) <==> Passed(y, 0, a) || a in y.choices[0].query)
    ensures |y.choices| == 0 ==> (Current(y, a) <==> Passed(y, 0, a))
    ensures Current(y, a) ==> Slot(y, a)
  {
  }

  /** The variables in use are those that are marked then. */
  lemma {:induction false} InUseSlots(y: Layout, pre: Memory, hs: seq<Stage>, te: int, l: Memory)
    requires |y.objs| >= 2 && |hs| == |y.choices| <= |y.trailTops| && History(y, pre, hs, l, te) == true
    requires Origin(y, pre) == true && SlotsAre(y, pre, 0) == true
    ensures forall a {:trigger Slot(y, a)} :: Slot(y, a) ==> (Marked(InUse(hs, l), a) <==> Current(y, a))
  {
    hide History, Origin, Emptied, Passed;
    if hs == [] {
      NoHistory(y, pre, l, te);
      forall a {:trigger Slot(y, a)} | Slot(y, a)
        ensures Marked(InUse(hs, l), a) <==> Current(y, a)
      {
        CurrentPassed(y, a);
      }
    } else {
      LaterStages(y, pre, hs, l, te, 0);
      HistorySlots(y, pre, hs[..1], After(hs, l, 0), ScannedTo(hs, te, 0));
      assert QueryMarked(y, hs[..1][0].before, 0);
      forall a {:trigger Slot(y, a)} | Slot(y, a)
        ensures Marked(InUse(hs, l), a) <==> Current(y, a)
      {
        CurrentPassed(y, a);
      }
    }
  }

  lemma AllRefs(y: Layout, l0: Memory, pre: Memory, l: Memory, j: int)
    requires |y.objs| >= 2 && LocalsOk(y, l0) == true && SlotsAre(y, l, j) == true && 0 <= j && SameWords(l0, pre) && Emptied(y, pre, l)
    ensures LocalRefs(y, l) == true
  {
    hide LocalsOk, SlotsAre, LocalRefs;
    RefsMarked(y, l0, l, j);
  }

  lemma SlotPlace(y: Layout, l: Memory, a: int)
    requires Live(y, l) == true && Slot(y, a)
    ensures Place(y, l, a) == a
  {
    NotBoth(y, l, a);
  }

  /** Garbage collection changes no term that the program can get at without backtracking: read
      to any depth it is the same, with its unbound variables renamed, at the same variable. */
  lemma {:induction false} CollectionKeepsTerms(y: Layout, l0: Memory, pre: Memory, hs: seq<Stage>, te: int, l: Memory, m: Memory, a: int, n: nat)
    requires Begun(y, l0) == true && CollectedFrom(y, l0, pre, hs, te, l, m) == true && Current(y, a) == true
    ensures Read(m, a, n) == Rename((x: int) => Place(y, l, x), Read(l0, a, n))
  {
    hide *;
    FromStart(y, l0, pre, hs, te, l, m);
    var r := InUse(hs, l);
    InUseEmptied(y, pre, hs, te, l);
    InUseSlots(y, pre, hs, te, l);
    SameWordsAgain(l0, pre, r);
    RefsCurrent(y, l0, r);
    HistorySlots(y, pre, hs, l, te);
    HistoryStays(y, pre, hs, l, te);
    AllRefs(y, l0, pre, l, |hs|);
    CurrentPassed(y, a);
    SlotPlace(y, l, a);
    SlotKept(y, r, a);
    MarkedCarried(y, r, l, m, l0, a, n);
  }

  lemma SlotKept(y: Layout, r: Memory, a: int)
    requires Slot(y, a)
    ensures Kept(y, r, a)
  {
  }

  /** A garbage collection, as the program sees it: everything it can get at is the same term as
      before, and the global stack holds nothing but what is live. */
  method Collect(ld: R.LocalData, foreign: seq<seq<nat>>, choices: seq<Choice>, trailTops: seq<nat>, globalTops: seq<nat>, ghost y: Layout)
      returns (ghost l: Memory)
    requires Collectable(ld, y) == true && |y.objs| >= 2 && LocalsOk(y, Capped(y, ld.mem[..])) == true
    requires foreign == y.foreign && choices == y.choices && trailTops == y.trailTops && globalTops == y.globalTops
    modifies ld, ld.mem
    ensures forall a, n: nat {:trigger Read(ld.mem[..], a, n)} :: Current(y, a) ==>
              Read(ld.mem[..], a, n) == Rename((x: int) => Place(y, l, x), Read(old(Capped(y, ld.mem[..])), a, n))
    ensures ld.gTop == NewAt(l, y.objs, |y.objs| - 1)
  {
    hide *;
    ghost var l0 := Capped(y, ld.mem[..]);
    CapsFit(ld, y);
    Begins(y, l0);
    ghost var pre, hs, te;
    pre, hs, te, l := GarbageCollect(ld, foreign, choices, trailTops, globalTops, y);
    forall a, n: nat {:trigger Read(ld.mem[..], a, n)} | Current(y, a)
      ensures Read(ld.mem[..], a, n) == Rename((x: int) => Place(y, l, x), Read(l0, a, n))
    {
      CollectionKeepsTerms(y, l0, pre, hs, te, l, ld.mem[..], a, n);
    }
  }

  lemma Begins(y: Layout, l0: Memory)
    requires |y.objs| >= 2 && StacksOk(y, l0) == true && Untouched(y, l0, y.tTop - 1) == true && LocalsOk(y, l0) == true
    ensures Begun(y, l0) == true
  {
  }
}
