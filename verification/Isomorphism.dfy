/** Garbage collection keeps every term: what a variable of a frame or a live cell stands for is
    the same afterwards, up to a renaming of unbound variables that keeps their order. */
module Isomorphism {
  import opened Words
  import opened GlobalStack
  import opened Terms
  import opened Stacks
  import opened Marking
  import opened MarkPhase
  import opened GarbageCollection

  /** A term, cut off at some depth. */
  datatype Tree =
    | Unbound(at: int)
    | Constant(id: int)
    | Block(header: Word, words: seq<Word>)
    | Struct(name: int, args: seq<Tree>)
    | Deep
    | Broken

  /** The term that starts in cell a, to depth n. */
  ghost function Read(m: Memory, a: int, n: nat): Tree
    decreases n, 0
  {
    if n == 0 then Deep
    else if !(0 <= a < |m|) then Broken
    else match m[a].word
      case Var => Unbound(a)
      case Atomic(id) => Constant(id)
      case Ptr(tag, b) =>
        if tag == Reference then Read(m, b, n - 1)
        else if b >= |m| then Broken
        else if tag == Compound then
          if m[b].word.Functor? then Struct(m[b].word.name, ReadArgs(m, b, m[b].word.arity, n - 1)) else Broken
        else if m[b].word.Header? && b + Size(m[b].word) <= |m| then Block(m[b].word, Contents(m, b, m[b].word.size)) else Broken
      case _ => Broken
  }

  /** The first k arguments of the term whose functor is in cell f. */
  ghost function ReadArgs(m: Memory, f: int, k: nat, n: nat): (s: seq<Tree>)
    ensures |s| == k
    decreases n, k
  {
    if k == 0 then [] else ReadArgs(m, f, k - 1, n) + [Read(m, f + k, n)]
  }

  /** The data words of the indirect with its header in cell b. */
  ghost function Contents(m: Memory, b: nat, size: nat): seq<Word>
    requires b + size + 2 <= |m|
  {
    if size == 0 then [] else Contents(m, b, size - 1) + [m[b + size].word]
  }

  /** The term with its unbound variables renamed. */
  ghost function Rename(f: int -> int, t: Tree): Tree {
    match t
    case Unbound(a) => Unbound(f(a))
    case Struct(name, args) => Struct(name, RenameAll(f, args))
    case _ => t
  }

  ghost function RenameAll(f: int -> int, s: seq<Tree>): seq<Tree> {
    if s == [] then [] else RenameAll(f, s[..|s| - 1]) + [Rename(f, s[|s| - 1])]
  }

  // ---------- renamings of cells

  ghost predicate Follows(s: iset<int>, f: int -> int, b: int, x: int) {
    x in s && f(x) == f(b) + (x - b)
  }

  /** The words that follow the functor or the header in cell b. */
  ghost predicate CarriesBody(p: Memory, q: Memory, s: iset<int>, f: int -> int, b: nat)
    requires b < |p|
  {
    match p[b].word
    case Functor(_, arity) => forall x {:trigger Follows(s, f, b, x)} :: b < x <= b + arity ==> Follows(s, f, b, x)
    case Header(_, size, _) =>
      b + size + 2 <= |p| && 0 <= f(b) && f(b) + size + 2 <= |q| && forall w {:trigger p[w]} :: b < w <= b + size ==> q[f(b) + (w - b)].word == p[w].word
    case _ => true
  }

  /** Cell x stands in q at f(x), and what it holds leads to cells that do, too. */
  ghost predicate CarriesCell(p: Memory, q: Memory, s: iset<int>, f: int -> int, x: int) {
    && 0 <= x < |p| && 0 <= f(x) < |q|
    && match p[x].word
       case Ptr(tag, b) =>
         && b in s && b < |p| && 0 <= f(b) < |q| && q[f(x)].word == Ptr(tag, f(b))
         && (tag == Reference || (q[f(b)].word == p[b].word && CarriesBody(p, q, s, f, b)))
       case w => q[f(x)].word == w
  }

  ghost predicate Carries(p: Memory, q: Memory, s: iset<int>, f: int -> int) {
    forall x {:trigger x in s} :: x in s ==> CarriesCell(p, q, s, f, x)
  }

  lemma {:induction false} ContentsCarried(p: Memory, q: Memory, s: iset<int>, f: int -> int, b: nat, size: nat)
    requires b < |p| && p[b].word.Header? && size <= p[b].word.size && CarriesBody(p, q, s, f, b)
    ensures 0 <= f(b) && f(b) + size + 2 <= |q| && b + size + 2 <= |p| && Contents(q, f(b), size) == Contents(p, b, size)
    decreases size
  {
    if size > 0 {
      ContentsCarried(p, q, s, f, b, size - 1);
      assert q[f(b) + size].word == p[b + size].word;
    }
  }

  /** A renaming of cells renames the terms that start in them. */
  lemma {:induction false} ReadCarried(p: Memory, q: Memory, s: iset<int>, f: int -> int, a: int, n: nat)
    requires Carries(p, q, s, f) == true && a in s
    ensures Read(q, f(a), n) == Rename(f, Read(p, a, n))
    decreases n, 0
  {
    hide Carries, CarriesBody, Contents;
    if n > 0 {
      CellCarried(p, q, s, f, a);
      var w := p[a].word;
      if w.Ptr? {
        var b := w.addr;
        if w.tag == Reference {
          ReadCarried(p, q, s, f, b, n - 1);
        } else if w.tag == Compound {
          if p[b].word.Functor? {
            ArgsCarried(p, q, s, f, b, p[b].word.arity, n - 1);
          }
        } else if p[b].word.Header? {
          ContentsCarried(p, q, s, f, b, p[b].word.size);
        }
      }
    }
  }

  lemma CellCarried(p: Memory, q: Memory, s: iset<int>, f: int -> int, a: int)
    requires Carries(p, q, s, f) && a in s
    ensures CarriesCell(p, q, s, f, a)
  {
  }

  lemma {:induction false} RenameLast(f: int -> int, s: seq<Tree>, t: Tree)
    ensures RenameAll(f, s + [t]) == RenameAll(f, s) + [Rename(f, t)]
  {
    assert (s + [t])[..|s|] == s;
  }

  lemma BodyArgument(p: Memory, q: Memory, s: iset<int>, f: int -> int, b: nat, k: int)
    requires b < |p| && p[b].word.Functor? && CarriesBody(p, q, s, f, b) && 1 <= k <= p[b].word.arity
    ensures b + k in s && f(b + k) == f(b) + k
  {
    assert Follows(s, f, b, b + k);
  }

  lemma {:induction false} ArgsCarried(p: Memory, q: Memory, s: iset<int>, f: int -> int, b: nat, k: nat, n: nat)
    requires Carries(p, q, s, f) == true && b < |p| && p[b].word.Functor? && CarriesBody(p, q, s, f, b) == true && k <= p[b].word.arity
    ensures ReadArgs(q, f(b), k, n) == RenameAll(f, ReadArgs(p, b, k, n))
    decreases n, k
  {
    hide *;
    ArgsStep(p, b, k, n);
    ArgsStep(q, f(b), k, n);
    if k > 0 {
      ArgsCarried(p, q, s, f, b, k - 1, n);
      BodyArgument(p, q, s, f, b, k);
      ReadCarried(p, q, s, f, b + k, n);
      RenameLast(f, ReadArgs(p, b, k - 1, n), Read(p, b + k, n));
    } else {
      RenameNone(f);
    }
  }

  lemma {:induction false} ArgsStep(m: Memory, f: int, k: nat, n: nat)
    ensures k == 0 ==> ReadArgs(m, f, k, n) == []
    ensures k > 0 ==> ReadArgs(m, f, k, n) == ReadArgs(m, f, k - 1, n) + [Read(m, f + k, n)]
  {
  }

  lemma RenameNone(f: int -> int)
    ensures RenameAll(f, []) == []
  {
  }

  // ---------- where cells go

  /** Where cell a is after the collection. */
  ghost function Place(y: Layout, l: Memory, a: int): int {
    if IsObject(y.objs, a) then Home(y, l, a) else a
  }

  /** The cells that are kept: live objects and variables of frames. */
  ghost predicate Kept(y: Layout, l: Memory, a: int) {
    (IsObject(y.objs, a) && Marked(l, a)) || Slot(y, a)
  }

  /** A variable of a frame that refers to another one refers to one that is in use, too. */
  ghost predicate LocalRefs(y: Layout, l: Memory)
    requires |y.objs| >= 2
  {
    forall a {:trigger Slot(y, a)} :: Slot(y, a) && 0 <= a < |l| && Marked(l, a) && l[a].word.Ptr? && l[a].word.addr > GTop(y) ==>
      l[a].word.tag == Reference && Slot(y, l[a].word.addr) && Marked(l, l[a].word.addr)
  }

  // ---------- places

  lemma ObjectIndex(y: Layout, l: Memory, a: int)
    requires Live(y, l) == true && IsObject(y.objs, a)
    ensures 0 <= a < y.lBase <= |l| && a == y.objs[Index(y.objs, a)] && 0 <= Home(y, l, a) <= a
    ensures y.objs[Index(y.objs, a) + 1] == a + Size(l[a].word) <= y.lBase
  {
    ObjectBelow(y, l, a);
    var i := Index(y.objs, a);
    assert ObjectAt(l, y.objs, i) && ObjectAt(l, y.objs, 0);
    NewAtBelow(l, y.objs, i);
    Increasing(l, y.objs, i + 1, |y.objs| - 1);
  }

  lemma NotBoth(y: Layout, l: Memory, a: int)
    requires Live(y, l) == true
    ensures Slot(y, a) ==> !IsObject(y.objs, a)
  {
    if Slot(y, a) {
      assert Local(y, |l|, a);
      SlotOutside(y, l, a);
    }
  }

  lemma {:induction false} ObjectOrder(y: Layout, l: Memory, a: int, b: int)
    requires Live(y, l) == true && IsObject(y.objs, a) && IsObject(y.objs, b) && Marked(l, a) && a < b
    ensures 0 <= a < |l| && Home(y, l, a) + Size(l[a].word) <= Home(y, l, b)
  {
    hide *;
    ObjectIndex(y, l, a);
    ObjectIndex(y, l, b);
    IndexOrder(y, l, a, b);
    LaidOut(y, l);
    NewAtMonotone(l, y.objs, Index(y.objs, a), Index(y.objs, b));
    HomeIs(y, l, a);
    HomeIs(y, l, b);
  }

  lemma {:induction false} HomeIs(y: Layout, l: Memory, a: int)
    requires IsObject(y.objs, a)
    ensures Home(y, l, a) == NewAt(l, y.objs, Index(y.objs, a)) && 0 <= Index(y.objs, a) < |y.objs| - 1
  {
  }

  lemma LaidOut(y: Layout, l: Memory)
    requires Live(y, l) == true
    ensures Laid(l, y.objs) == true
  {
  }

  lemma IndexOrder(y: Layout, l: Memory, a: int, b: int)
    requires Live(y, l) == true && IsObject(y.objs, a) && IsObject(y.objs, b) && a < b
    ensures Index(y.objs, a) < Index(y.objs, b)
  {
    LaidOut(y, l);
    hide Live;
    if Index(y.objs, b) <= Index(y.objs, a) {
      Increasing(l, y.objs, Index(y.objs, b), Index(y.objs, a));
    }
  }

  lemma KeptPlace(y: Layout, l: Memory, a: int)
    requires Live(y, l) == true && Kept(y, l, a)
    ensures 0 <= a < |l| && (IsObject(y.objs, a) <==> a < y.lBase) && (IsObject(y.objs, a) ==> Marked(l, a))
    ensures IsObject(y.objs, a) ==> 0 <= Home(y, l, a) <= a && Size(l[a].word) >= 1
  {
    if IsObject(y.objs, a) {
      ObjectIndex(y, l, a);
      NotBoth(y, l, a);
    } else {
      assert Local(y, |l|, a);
    }
  }

  /** The renaming keeps the order of cells. */
  lemma PlaceOrder(y: Layout, l: Memory, a: int, b: int)
    requires Live(y, l) == true && Kept(y, l, a) && Kept(y, l, b) && a < b
    ensures Place(y, l, a) < Place(y, l, b)
  {
    KeptPlace(y, l, a);
    KeptPlace(y, l, b);
    if IsObject(y.objs, a) && IsObject(y.objs, b) {
      ObjectOrder(y, l, a, b);
    }
  }

  /** What a live cell holds afterwards. */
  lemma {:induction false} CellKept(y: Layout, l: Memory, m: Memory, a: int)
    requires Live(y, l) == true && Collected(y, l, m) == true && Kept(y, l, a)
    ensures 0 <= a < |l| == |m| && 0 <= Place(y, l, a) < |m|
    ensures m[Place(y, l, a)].word == Renamed(y, l, l[a].word)
  {
    if Slot(y, a) {
      assert Local(y, |l|, a);
      NotBoth(y, l, a);
    } else {
      ObjectIndex(y, l, a);
      assert ObjectHome(y, l, m, Index(y.objs, a));
    }
  }

  // ---------- what kept cells lead to is kept

  /** The pointer w leads to a cell that is kept, of the kind that its tag says. */
  ghost predicate Leads(y: Layout, l: Memory, w: Word) {
    && w.Ptr? && w.addr < |l| && Kept(y, l, w.addr) && Place(y, l, w.addr) >= 0 && (Slot(y, w.addr) ==> Marked(l, w.addr))
    && Renamed(y, l, w) == Ptr(w.tag, Place(y, l, w.addr))
    && match w.tag
       case Reference => IsValue(l[w.addr].word)
       case Compound => IsObject(y.objs, w.addr) && Marked(l, w.addr) && l[w.addr].word.Functor?
       case _ => IsObject(y.objs, w.addr) && Marked(l, w.addr) && l[w.addr].word.Header?
  }

  lemma LeadsGlobal(y: Layout, l: Memory, w: Word)
    requires Live(y, l) == true && w.Ptr? && PointsRight(HeapOf(y, l), w) && Marked(l, w.addr)
    ensures Leads(y, l, w) == true
  {
    ObjectIndex(y, l, w.addr);
    NotBoth(y, l, w.addr);
  }

  /** The pointer of a kept cell. */
  lemma PointerKept(y: Layout, l: Memory, a: int)
    requires Live(y, l) == true && LocalRefs(y, l) == true && Kept(y, l, a) && 0 <= a < |l| && l[a].word.Ptr?
    requires Slot(y, a) ==> Marked(l, a)
    ensures Leads(y, l, l[a].word) == true
  {
    var b := l[a].word.addr;
    if IsObject(y.objs, a) {
      NotBoth(y, l, a);
      assert ObjectOk(HeapOf(y, l), a) && Edge(HeapOf(y, l), a, b);
      assert Marked(l, b);
      LeadsGlobal(y, l, l[a].word);
    } else if b <= GTop(y) {
      assert SlotOk(y, l, a);
      assert Marked(l, b);
      LeadsGlobal(y, l, l[a].word);
    } else {
      assert Slot(y, b);
      NotBoth(y, l, b);
      assert SlotOk(y, l, b);
    }
  }

  lemma ArgumentIs(y: Layout, l: Memory, f: int, i: int)
    requires Live(y, l) == true && IsObject(y.objs, f) && Marked(l, f) && 0 <= f < |l| && l[f].word.Functor? && 1 <= i <= l[f].word.arity
    ensures IsObject(y.objs, f + i) && Marked(l, f + i) && 0 <= f + i < |l| && IsValue(l[f + i].word) && Size(l[f + i].word) == 1
  {
    hide *;
    var x := f + i;
    LiveParts(y, l);
    ClosedEdge(y, l, f, x);
    OwnedArgument(y, l, f, x);
  }

  lemma ClosedEdge(y: Layout, l: Memory, f: int, x: int)
    requires Closed(y, l) && IsObject(y.objs, f) && Marked(l, f) && l[f].word.Functor? && f < x <= f + l[f].word.arity
    ensures Marked(l, x)
  {
    assert Edge(HeapOf(y, l), f, x);
  }

  lemma OwnedArgument(y: Layout, l: Memory, f: int, x: int)
    requires WellFormed(HeapOf(y, l)) && IsObject(y.objs, f) && 0 <= f < |l| && l[f].word.Functor? && f < x <= f + l[f].word.arity
    ensures IsObject(y.objs, x) && 0 <= x < |l| && IsValue(l[x].word) && Size(l[x].word) == 1
  {
    TermCells(HeapOf(y, l), f, x);
  }

  /** The arguments of a live term are live, and stay together. */
  lemma {:induction false} ArgumentKept(y: Layout, l: Memory, f: int, i: int)
    requires Live(y, l) == true && IsObject(y.objs, f) && Marked(l, f) && 0 <= f < |l| && l[f].word.Functor? && 1 <= i <= l[f].word.arity
    ensures IsObject(y.objs, f + i) && Marked(l, f + i) && 0 <= f + i < |l| && IsValue(l[f + i].word)
    ensures Home(y, l, f + i) == Home(y, l, f) + i
    decreases i
  {
    hide Live, Home, IsObject, IsValue;
    ArgumentIs(y, l, f, i);
    if i > 1 {
      ArgumentKept(y, l, f, i - 1);
      ArgumentIs(y, l, f, i - 1);
    }
    NextObject(y, l, f + i - 1, f + i);
  }

  lemma {:induction false} NextObject(y: Layout, l: Memory, a: int, b: int)
    requires Live(y, l) == true && IsObject(y.objs, a) && IsObject(y.objs, b) && b == a + 1 && Marked(l, a) && Size(l[a].word) == 1
    ensures Home(y, l, b) == Home(y, l, a) + 1
  {
    hide *;
    ObjectIndex(y, l, a);
    ObjectIndex(y, l, b);
    HomeIs(y, l, a);
    HomeIs(y, l, b);
    LaidOut(y, l);
    IndexOrder(y, l, a, b);
    Increasing(l, y.objs, Index(y.objs, a) + 1, Index(y.objs, b));
    NewAtStep(l, y.objs, Index(y.objs, a));
  }

  lemma NewAtStep(l: Memory, objs: seq<int>, i: int)
    requires 0 <= i < |objs| - 1 && Marked(l, objs[i])
    ensures NewAt(l, objs, i + 1) == NewAt(l, objs, i) + (objs[i + 1] - objs[i])
  {
  }

  lemma HomeGiven(y: Layout, l: Memory, m: Memory, b: int)
    requires Collected(y, l, m) == true && IsObject(y.objs, b)
    ensures ObjectHome(y, l, m, Index(y.objs, b)) == true
  {
    hide ObjectHome;
  }

  lemma {:induction false} HomeBlock(y: Layout, l: Memory, m: Memory, i: int)
    requires 0 <= i < |y.objs| - 1 && ObjectHome(y, l, m, i) == true && Marked(l, y.objs[i])
    ensures var o, d, size := y.objs[i], NewAt(l, y.objs, i), y.objs[i + 1] - y.objs[i];
      && 0 <= d < d + size <= |m| && o + size <= |l| && m[d].word == Renamed(y, l, l[o].word)
      && forall w {:trigger m[w]} :: d < w < d + size ==> m[w] == l[o + (w - d)]
  {
    hide NewAt, Renamed;
  }

  lemma {:induction false} IndirectHome(y: Layout, l: Memory, m: Memory, b: nat)
    requires Live(y, l) == true && Collected(y, l, m) == true && IsObject(y.objs, b) && Marked(l, b) && b < |l| && l[b].word.Header?
    ensures var d, size := Home(y, l, b), l[b].word.size + 2;
            && 0 <= d && d + size <= |m| && b + size <= |l| && m[d].word == l[b].word
            && forall w {:trigger m[w]} :: d < w < d + size ==> m[w] == l[b + (w - d)]
  {
    hide *;
    ObjectIndex(y, l, b);
    HomeIs(y, l, b);
    HomeGiven(y, l, m, b);
    HomeBlock(y, l, m, Index(y.objs, b));
    HeaderSize(y, l, l[b].word);
  }

  lemma HeaderSize(y: Layout, l: Memory, w: Word)
    requires w.Header?
    ensures Size(w) == w.size + 2 && Renamed(y, l, w) == w
  {
  }

  // ---------- the theorem

  lemma TargetKept(y: Layout, l: Memory, m: Memory, w: Word)
    requires Live(y, l) == true && Collected(y, l, m) == true && Leads(y, l, w) == true && w.Ptr?
    ensures 0 <= w.addr < |l| == |m| && 0 <= Place(y, l, w.addr) < |m| && Renamed(y, l, w) == Ptr(w.tag, Place(y, l, w.addr))
    ensures Kept(y, l, w.addr) == true
    ensures w.tag == Reference ==> IsValue(l[w.addr].word)
    ensures w.tag != Reference ==> IsObject(y.objs, w.addr) && Marked(l, w.addr) && Place(y, l, w.addr) == Home(y, l, w.addr)
    ensures w.tag != Reference ==> m[Place(y, l, w.addr)].word == l[w.addr].word
    ensures w.tag == Compound ==> l[w.addr].word.Functor?
    ensures w.tag != Reference && w.tag != Compound ==> l[w.addr].word.Header?
  {
    CellKept(y, l, m, w.addr);
  }

  lemma ArgumentPlace(y: Layout, l: Memory, x: int)
    requires Live(y, l) == true && IsObject(y.objs, x) && Marked(l, x)
    ensures Place(y, l, x) == Home(y, l, x) && Kept(y, l, x) == true && 0 <= x < |l|
  {
  }
}
