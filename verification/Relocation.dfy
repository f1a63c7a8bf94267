/** Relocation chains (pl-gc.c, "Relocation chain management").

    All pointers to one cell, the head, are threaded into a list that starts in the head:
    each cell of the list holds a pointer to the next with the tag that the *next* cell's
    own pointer has, and the last holds the word that was in the head.  FIRST is set on
    every cell of the list but the last.

    The proofs look at memory through `logical`, what the cells would hold if every chain
    were taken apart again, and through `threads`, the chains themselves. */
module Relocation {
  import opened Words

  /** `chains[h]` lists the cells threaded on head h, the oldest first; `rank` maps each
      threaded cell to its place in the list of the head it logically points to. */
  datatype Threads = Threads(chains: map<int, seq<int>>, rank: map<int, int>)

  /** There are no chains. */
  predicate Unthreaded(t: Threads) {
    |t.chains| == 0 && |t.rank| == 0
  }

  ghost predicate Listed(l: Memory, t: Threads) {
    forall h, i :: h in t.chains && 0 <= i < |t.chains[h]| ==>
      var c := t.chains[h][i]; c in t.rank && t.rank[c] == i && 0 <= c < |l| && l[c].word.Ptr? && l[c].word.addr == h
  }

  ghost predicate Ranked(l: Memory, t: Threads) {
    forall c :: c in t.rank ==>
      0 <= c < |l| && l[c].word.Ptr? && l[c].word.addr in t.chains && 0 <= t.rank[c] < |t.chains[l[c].word.addr]| &&
      t.chains[l[c].word.addr][t.rank[c]] == c
  }

  ghost predicate Headed(l: Memory, t: Threads) {
    forall h :: h in t.chains ==> 0 <= h < |l| && |t.chains[h]| > 0 && h !in t.rank
  }

  /** The two maps of `t` are inverse to each other and follow the pointers of `l`. */
  ghost predicate Indexed(l: Memory, t: Threads) {
    Listed(l, t) && Ranked(l, t) && Headed(l, t)
  }

  /** The word stored at place i of a chain, where the head has place |cs|: a link to the
      cell at the place below, and the head's own word at place 0. */
  function Link(l: Memory, h: nat, cs: seq<int>, i: nat): Word
    requires h < |l| && i <= |cs|
    requires forall k :: 0 <= k < |cs| ==> 0 <= cs[k] < |l| && l[cs[k]].word.Ptr?
  {
    if i == 0 then l[h].word else Ptr(l[cs[i - 1]].word.tag, cs[i - 1])
  }

  ghost predicate HeadsLinked(m: Memory, l: Memory, t: Threads)
    requires |m| == |l| && Indexed(l, t)
  {
    forall h {:trigger m[h]} :: h in t.chains ==>
      !l[h].first && m[h] == Cell(Link(l, h, t.chains[h], |t.chains[h]|), l[h].mark, true)
  }

  ghost predicate CellsLinked(m: Memory, l: Memory, t: Threads)
    requires |m| == |l| && Indexed(l, t)
  {
    forall c {:trigger m[c]} :: c in t.rank ==>
      && !l[c].first
      && m[c] == Cell(Link(l, l[c].word.addr, t.chains[l[c].word.addr], t.rank[c]), l[c].mark, t.rank[c] > 0)
  }

  ghost predicate RestPlain(m: Memory, l: Memory, t: Threads)
    requires |m| == |l|
  {
    forall a {:trigger m[a]} :: 0 <= a < |m| && a !in t.chains && a !in t.rank ==> m[a] == l[a]
  }

  /** Memory `m` is `l` with the chains `t` threaded through it. */
  ghost predicate Threaded(m: Memory, l: Memory, t: Threads) {
    |m| == |l| && Indexed(l, t) && RestPlain(m, l, t) && HeadsLinked(m, l, t) && CellsLinked(m, l, t)
  }

  lemma OldestThreaded(l: Memory, t: Threads, h: int)
    requires Indexed(l, t) && h in t.chains
    ensures t.chains[h][0] in t.rank
  {
  }

  lemma NoneThreaded(l: Memory, t: Threads)
    requires Indexed(l, t) && forall c :: c !in t.rank
    ensures Unthreaded(t)
  {
    forall h
      ensures h !in t.chains
    {
      if h in t.chains {
        OldestThreaded(l, t, h);
      }
    }
    assert t.chains.Keys == {};
    assert forall c :: c !in t.rank.Keys;
    assert t.rank.Keys == {};
  }

  /** How a cell of threaded memory reads. */
  lemma Reads(m: Memory, l: Memory, t: Threads, a: int)
    requires Threaded(m, l, t) && 0 <= a < |m|
    ensures m[a].mark == l[a].mark
    ensures a in t.chains ==> m[a].first && !l[a].first
    ensures a !in t.chains && a !in t.rank ==> m[a] == l[a]
  {
  }

  lemma SameLinks(l: Memory, k: Memory, t: Threads, h: int, i: int)
    requires |k| == |l| && Indexed(l, t) && Indexed(k, t)
    requires forall x :: 0 <= x < |l| && (x in t.chains || x in t.rank) ==> k[x].word == l[x].word
    requires h in t.chains && 0 <= i <= |t.chains[h]|
    ensures Link(k, h, t.chains[h], i) == Link(l, h, t.chains[h], i)
  {
    assert i > 0 ==> t.chains[h][i - 1] in t.rank;
  }

  lemma SameChains(m: Memory, l: Memory, n: Memory, k: Memory, t: Threads)
    requires Threaded(m, l, t) && |n| == |k| == |l|
    requires forall x :: 0 <= x < |l| && (x in t.chains || x in t.rank) ==>
               k[x].word == l[x].word && k[x].first == l[x].first && n[x] == m[x].(mark := k[x].mark)
    requires RestPlain(n, k, t)
    ensures Threaded(n, k, t)
  {
    assert Indexed(k, t);
    forall h | h in t.chains
      ensures !k[h].first && n[h] == Cell(Link(k, h, t.chains[h], |t.chains[h]|), k[h].mark, true)
    {
      SameLinks(l, k, t, h, |t.chains[h]|);
      assert m[h].first;
    }
    forall c | c in t.rank
      ensures !k[c].first && n[c] == Cell(Link(k, k[c].word.addr, t.chains[k[c].word.addr], t.rank[c]), k[c].mark, t.rank[c] > 0)
    {
      SameLinks(l, k, t, l[c].word.addr, t.rank[c]);
      assert m[c].first == (t.rank[c] > 0);
    }
  }

  /** A cell that is on no chain can be overwritten. */
  lemma Write(m: Memory, l: Memory, t: Threads, a: int, c: Cell)
    requires Threaded(m, l, t) && 0 <= a < |m| && a !in t.chains && a !in t.rank
    ensures Threaded(m[a := c], l[a := c], t)
  {
    forall x | 0 <= x < |l| && (x in t.chains || x in t.rank)
      ensures l[a := c][x] == l[x] && m[a := c][x] == m[x].(mark := l[x].mark)
    {
      Reads(m, l, t, x);
    }
    SameChains(m, l, m[a := c], l[a := c], t);
  }

  /** The mark of any cell can be cleared. */
  lemma Unmark(m: Memory, l: Memory, t: Threads, a: int)
    requires Threaded(m, l, t) && 0 <= a < |m|
    ensures Threaded(m[a := m[a].(mark := false)], l[a := l[a].(mark := false)], t)
  {
    var n, k := m[a := m[a].(mark := false)], l[a := l[a].(mark := false)];
    forall x | 0 <= x < |l|
      ensures k[x].word == l[x].word && k[x].first == l[x].first && n[x] == m[x].(mark := k[x].mark)
    {
      Reads(m, l, t, x);
    }
    assert RestPlain(n, k, t) by {
      forall x | 0 <= x < |l| && x !in t.chains && x !in t.rank
        ensures n[x] == k[x]
      {
        Reads(m, l, t, x);
      }
    }
    SameChains(m, l, n, k, t);
  }

  // ---------- threading one more cell

  /** Cell c holds a pointer to h and can be threaded on it. */
  ghost predicate Threadable(l: Memory, t: Threads, h: nat, c: nat)
  {
    && c < |l| && h < |l| && l[c].word.Ptr? && l[c].word.addr == h && c != h
    && c !in t.rank && c !in t.chains && h !in t.rank
    && !l[c].first && !l[h].first
  }

  function Push(t: Threads, h: nat, c: nat): Threads {
    var cs := if h in t.chains then t.chains[h] else [];
    Threads(t.chains[h := cs + [c]], t.rank[c := |cs|])
  }

  /** What into_relocation_chain() does to memory, seen on values. */
  function Thread(m: Memory, h: nat, c: nat): (r: Memory)
    requires h < |m| && c < |m| && h != c && m[c].word.Ptr?
    ensures |r| == |m| && forall a :: 0 <= a < |m| && a != h && a != c ==> r[a] == m[a]
    ensures forall a :: 0 <= a < |m| ==> r[a].mark == m[a].mark
  {
    m[c := m[c].(word := m[h].word, first := m[h].first)]
     [h := m[h].(word := Ptr(m[c].word.tag, c), first := true)]
  }

  lemma PushListed(l: Memory, t: Threads, h: nat, c: nat)
    requires Indexed(l, t) && Threadable(l, t, h, c)
    ensures Listed(l, Push(t, h, c))
  {
    var u := Push(t, h, c);
    forall k, i | k in u.chains && 0 <= i < |u.chains[k]|
      ensures var d := u.chains[k][i]; d in u.rank && u.rank[d] == i && 0 <= d < |l| && l[d].word.Ptr? && l[d].word.addr == k
    {
      if k in t.chains && i < |t.chains[k]| {
        assert u.chains[k][i] == t.chains[k][i];
      } else {
        assert k == h && u.chains[k][i] == c;
      }
    }
  }

  lemma PushRanked(l: Memory, t: Threads, h: nat, c: nat)
    requires Indexed(l, t) && Threadable(l, t, h, c)
    ensures Ranked(l, Push(t, h, c))
  {
    hide Listed, Headed;
    var u := Push(t, h, c);
    forall d | d in u.rank
      ensures 0 <= d < |l| && l[d].word.Ptr? && l[d].word.addr in u.chains && 0 <= u.rank[d] < |u.chains[l[d].word.addr]|
      ensures u.chains[l[d].word.addr][u.rank[d]] == d
    {
      if d != c {
        assert t.chains[l[d].word.addr][t.rank[d]] == d;
      }
    }
  }

  lemma PushIndexed(l: Memory, t: Threads, h: nat, c: nat)
    requires Indexed(l, t) && Threadable(l, t, h, c)
    ensures Indexed(l, Push(t, h, c))
  {
    PushListed(l, t, h, c);
    PushRanked(l, t, h, c);
    hide Listed, Ranked;
  }

  lemma PushPlain(m: Memory, l: Memory, t: Threads, h: nat, c: nat)
    requires Threaded(m, l, t) && Threadable(l, t, h, c)
    ensures m[c] == l[c] && RestPlain(Thread(m, h, c), l, Push(t, h, c))
  {
    hide Indexed, HeadsLinked, CellsLinked;
  }

  lemma PushHeads(m: Memory, l: Memory, t: Threads, h: nat, c: nat)
    requires Threaded(m, l, t) && Threadable(l, t, h, c) && m[c] == l[c]
    requires Indexed(l, Push(t, h, c))
    ensures HeadsLinked(Thread(m, h, c), l, Push(t, h, c))
  {
    hide CellsLinked;
    var u, n := Push(t, h, c), Thread(m, h, c);
    assert m[h].mark == l[h].mark;
    forall k | k in u.chains
      ensures !l[k].first && n[k] == Cell(Link(l, k, u.chains[k], |u.chains[k]|), l[k].mark, true)
    {
      assert k != h ==> n[k] == m[k];
    }
  }

  lemma PushCells(m: Memory, l: Memory, t: Threads, h: nat, c: nat)
    requires Threaded(m, l, t) && Threadable(l, t, h, c) && m[c] == l[c]
    requires Indexed(l, Push(t, h, c))
    ensures CellsLinked(Thread(m, h, c), l, Push(t, h, c))
  {
    var u, n := Push(t, h, c), Thread(m, h, c);
    assert n[c] == m[c].(word := m[h].word, first := m[h].first);
    forall d | d in u.rank
      ensures !l[d].first
      ensures n[d] == Cell(Link(l, l[d].word.addr, u.chains[l[d].word.addr], u.rank[d]), l[d].mark, u.rank[d] > 0)
    {
      if d != c {
        PushKeepsLink(l, t, h, c, d);
        assert n[d] == m[d];
      }
    }
  }

  lemma PushKeepsLink(l: Memory, t: Threads, h: nat, c: nat, d: nat)
    requires Indexed(l, t) && Indexed(l, Push(t, h, c)) && d in t.rank && c !in t.rank
    ensures l[d].word.addr in Push(t, h, c).chains && Push(t, h, c).rank[d] == t.rank[d]
    ensures Link(l, l[d].word.addr, Push(t, h, c).chains[l[d].word.addr], t.rank[d]) ==
            Link(l, l[d].word.addr, t.chains[l[d].word.addr], t.rank[d])
  {
    assert t.chains[l[d].word.addr] <= Push(t, h, c).chains[l[d].word.addr];
  }

  lemma PushThreaded(m: Memory, l: Memory, t: Threads, h: nat, c: nat)
    requires Threaded(m, l, t) == true && Threadable(l, t, h, c)
    ensures m[c] == l[c] && Threaded(Thread(m, h, c), l, Push(t, h, c)) == true
  {
    PushIndexed(l, t, h, c);
    PushPlain(m, l, t, h, c);
    PushHeads(m, l, t, h, c);
    PushCells(m, l, t, h, c);
  }

  // ---------- taking one chain apart

  /** Cell c is threaded on head h. */
  ghost predicate On(l: Memory, t: Threads, h: int, c: int) {
    c in t.rank && 0 <= c < |l| && l[c].word.Ptr? && l[c].word.addr == h
  }

  function Drop(l: Memory, t: Threads, h: int): Threads
    requires h in t.chains && Indexed(l, t)
  {
    Threads(t.chains - {h}, map c | c in t.rank && l[c].word.addr != h :: t.rank[c])
  }

  /** The logical effect of unwinding: the pointers threaded on h all lead to `dest`. */
  ghost function Redirect(l: Memory, t: Threads, h: int, dest: nat): (r: Memory)
    ensures |r| == |l|
    ensures forall a :: 0 <= a < |l| ==> r[a] == if On(l, t, h, a) then l[a].(word := Ptr(l[a].word.tag, dest)) else l[a]
  {
    seq(|l|, a requires 0 <= a < |l| => if On(l, t, h, a) then l[a].(word := Ptr(l[a].word.tag, dest)) else l[a])
  }

  lemma DropIndexed(l: Memory, t: Threads, h: nat, dest: nat)
    requires Indexed(l, t) && h in t.chains
    ensures Indexed(Redirect(l, t, h, dest), Drop(l, t, h))
  {
    var u, r := Drop(l, t, h), Redirect(l, t, h, dest);
    forall k, i | k in u.chains && 0 <= i < |u.chains[k]|
      ensures var c := u.chains[k][i]; c in u.rank && u.rank[c] == i && 0 <= c < |r| && r[c].word.Ptr? && r[c].word.addr == k
    {
      assert t.chains[k][i] in t.rank;
    }
  }

  lemma DropCounts(l: Memory, t: Threads, h: nat)
    requires Indexed(l, t) == true && h in t.chains
    ensures |Drop(l, t, h).chains| == |t.chains| - 1
    ensures |Drop(l, t, h).rank| == |t.rank| - |t.chains[h]|
  {
    var cs := t.chains[h];
    forall i, j | 0 <= i < j < |cs|
      ensures cs[i] != cs[j]
    {
      assert t.rank[cs[i]] == i && t.rank[cs[j]] == j;
    }
    var members := set c | c in cs;
    DistinctCard(cs, members);
    assert Drop(l, t, h).chains.Keys == t.chains.Keys - {h};
    assert Drop(l, t, h).rank.Keys == t.rank.Keys - members;
    assert members <= t.rank.Keys;
  }

  lemma DistinctCard(s: seq<int>, xs: set<int>)
    requires forall i, j :: 0 <= i < j < |s| ==> s[i] != s[j]
    requires xs == set x | x in s
    ensures |xs| == |s|
  {
    if s != [] {
      var p, x := s[..|s| - 1], s[|s| - 1];
      assert s == p + [x];
      DistinctCard(p, set y | y in p);
      assert xs == (set y | y in p) + {x};
    }
  }

  /** What a cell holds when the cells of rank k and up of h's chain are redirected to
      `dest`, FIRST being still set on the cell of rank k. */
  ghost function Unwinding(m: Memory, l: Memory, t: Threads, h: nat, k: nat, dest: nat, a: nat): Cell
    requires |m| == |l| && a < |m| && h in t.chains
  {
    if a == h then m[h].(first := k == |t.chains[h]|)
    else if On(l, t, h, a) && t.rank[a] >= k then Cell(Ptr(l[a].word.tag, dest), m[a].mark, t.rank[a] == k && k > 0)
    else m[a]
  }

  ghost predicate Unwound(m: Memory, n: Memory, l: Memory, t: Threads, h: nat, k: nat, dest: nat)
    requires |m| == |n| == |l| && h in t.chains
  {
    forall a :: 0 <= a < |m| ==> n[a] == Unwinding(m, l, t, h, k, dest, a)
  }

  /** The cell at place k of a chain, the head being above all others. */
  function Place(h: int, cs: seq<int>, k: nat): int
    requires k <= |cs|
  {
    if k == |cs| then h else cs[k]
  }

  lemma UnwindStart(m: Memory, l: Memory, t: Threads, h: nat, dest: nat)
    requires Threaded(m, l, t) == true && h in t.chains
    ensures Unwound(m, m, l, t, h, |t.chains[h]|, dest) == true
    ensures m[h].word == Link(l, h, t.chains[h], |t.chains[h]|)
  {
    assert m[h].first;
  }

  /** One turn of the loop of update_relocation_chain(). */
  lemma UnwindStep(m: Memory, n: Memory, p: Memory, l: Memory, t: Threads, h: nat, k: nat, dest: nat)
    requires Threaded(m, l, t) == true && h in t.chains && |m| == |n| == |p| && 0 < k <= |t.chains[h]|
    requires Unwound(m, n, l, t, h, k, dest) == true
    requires var cur, c := Place(h, t.chains[h], k), t.chains[h][k - 1];
             p == n[cur := n[cur].(first := false)][c := n[c].(word := Ptr(l[c].word.tag, dest))]
    ensures n[t.chains[h][k - 1]].word == Link(l, h, t.chains[h], k - 1)
    ensures p[t.chains[h][k - 1]].first == (k > 1)
    ensures Unwound(m, p, l, t, h, k - 1, dest) == true
  {
    hide HeadsLinked, RestPlain, Link;
    var cs := t.chains[h];
    var c, cur := cs[k - 1], Place(h, cs, k);
    assert c in t.rank && t.rank[c] == k - 1 && On(l, t, h, c);
    assert k < |cs| ==> cur in t.rank && t.rank[cur] == k && On(l, t, h, cur);
    assert n[c] == m[c];
    forall a | 0 <= a < |m|
      ensures p[a] == Unwinding(m, l, t, h, k - 1, dest, a)
    {
      if a != c && a != cur {
        assert p[a] == n[a];
        assert On(l, t, h, a) ==> cs[t.rank[a]] == a;
      }
    }
  }

  lemma PlacesDiffer(l: Memory, t: Threads, h: nat, k: nat)
    requires Indexed(l, t) == true && h in t.chains && 0 < k <= |t.chains[h]|
    ensures Place(h, t.chains[h], k) != t.chains[h][k - 1]
  {
    assert t.rank[t.chains[h][k - 1]] == k - 1;
  }

  lemma LinkCell(l: Memory, h: nat, cs: seq<int>, k: nat)
    requires h < |l| && k <= |cs|
    requires forall i :: 0 <= i < |cs| ==> 0 <= cs[i] < |l| && l[cs[i]].word.Ptr?
    ensures Link(l, h, cs, k) == if k == 0 then l[h].word else Ptr(l[cs[k - 1]].word.tag, cs[k - 1])
  {
  }

  /** Once the last cell is redirected and the head has its own word back, the chain is
      gone and every pointer in it leads to `dest`. */
  lemma UnwoundThreaded(m: Memory, n: Memory, p: Memory, l: Memory, t: Threads, h: nat, dest: nat)
    requires Threaded(m, l, t) == true && h in t.chains && |n| == |m|
    requires Unwound(m, n, l, t, h, 0, dest) == true
    requires p == n[h := n[h].(word := l[h].word)]
    ensures Threaded(p, Redirect(l, t, h, dest), Drop(l, t, h)) == true
  {
    DropIndexed(l, t, h, dest);
    UnwoundHeads(m, n, p, l, t, h, dest);
    UnwoundCells(m, n, p, l, t, h, dest);
    UnwoundPlain(m, n, p, l, t, h, dest);
  }

  lemma UnwoundPlain(m: Memory, n: Memory, p: Memory, l: Memory, t: Threads, h: nat, dest: nat)
    requires Threaded(m, l, t) && h in t.chains && |n| == |m|
    requires Unwound(m, n, l, t, h, 0, dest)
    requires p == n[h := n[h].(word := l[h].word)]
    ensures RestPlain(p, Redirect(l, t, h, dest), Drop(l, t, h))
  {
    forall a | 0 <= a < |p| && a !in t.chains - {h} && a !in Drop(l, t, h).rank
      ensures p[a] == Redirect(l, t, h, dest)[a]
    {
      assert n[a] == Unwinding(m, l, t, h, 0, dest, a) && m[a].mark == l[a].mark;
    }
  }

  lemma UnwoundHeads(m: Memory, n: Memory, p: Memory, l: Memory, t: Threads, h: nat, dest: nat)
    requires Threaded(m, l, t) && h in t.chains && |n| == |m|
    requires Unwound(m, n, l, t, h, 0, dest)
    requires p == n[h := n[h].(word := l[h].word)]
    requires Indexed(Redirect(l, t, h, dest), Drop(l, t, h))
    ensures HeadsLinked(p, Redirect(l, t, h, dest), Drop(l, t, h))
  {
    var r, u := Redirect(l, t, h, dest), Drop(l, t, h);
    forall k | k in u.chains
      ensures !r[k].first && p[k] == Cell(Link(r, k, u.chains[k], |u.chains[k]|), r[k].mark, true)
    {
      assert n[k] == m[k];
      DropKeepsLink(l, t, h, dest, k, |u.chains[k]|);
    }
  }

  lemma UnwoundCells(m: Memory, n: Memory, p: Memory, l: Memory, t: Threads, h: nat, dest: nat)
    requires Threaded(m, l, t) && h in t.chains && |n| == |m|
    requires Unwound(m, n, l, t, h, 0, dest)
    requires p == n[h := n[h].(word := l[h].word)]
    requires Indexed(Redirect(l, t, h, dest), Drop(l, t, h))
    ensures CellsLinked(p, Redirect(l, t, h, dest), Drop(l, t, h))
  {
    var r, u := Redirect(l, t, h, dest), Drop(l, t, h);
    forall c | c in u.rank
      ensures !r[c].first
      ensures p[c] == Cell(Link(r, r[c].word.addr, u.chains[r[c].word.addr], u.rank[c]), r[c].mark, u.rank[c] > 0)
    {
      assert n[c] == m[c];
      DropKeepsLink(l, t, h, dest, l[c].word.addr, t.rank[c]);
    }
  }

  lemma DropKeepsLink(l: Memory, t: Threads, h: nat, dest: nat, k: nat, i: nat)
    requires Indexed(l, t) && h in t.chains && k in t.chains && k != h && i <= |t.chains[k]|
    requires Indexed(Redirect(l, t, h, dest), Drop(l, t, h))
    ensures k in Drop(l, t, h).chains && Drop(l, t, h).chains[k] == t.chains[k]
    ensures Link(Redirect(l, t, h, dest), k, t.chains[k], i) == Link(l, k, t.chains[k], i)
  {
    assert i > 0 ==> t.chains[k][i - 1] in t.rank;
  }

  /** The state of the collector: the stacks, their bounds and the counters of pl-gc.c. */
  class LocalData {
    const mem: array<Cell>
    var gBase: nat
    var gTop: nat
    var lBase: nat
    var tBase: nat
    var tTop: nat
    var totalMarked: int
    var localMarked: int
    var needsRelocation: int
    var relocationChains: int
    var relocationCells: int
    var relocatedCells: int
    ghost var logical: Memory
    ghost var threads: Threads

    constructor (mem: array<Cell>)
      ensures this.mem == mem
    {
      this.mem := mem;
    }

    /** The stacks are `logical` with the chains threaded through it, and the counters agree
        with the chains. */
    ghost predicate Consistent()
      reads this, mem
    {
      && Threaded(mem[..], logical, threads)
      && relocationChains == |threads.chains|
      && relocationCells - relocatedCells == |threads.rank|
    }
  }

  /** pl-gc.c, into_relocation_chain(). */
  method IntoRelocationChain(ld: LocalData, current: nat)
    requires ld.Consistent() == true
    requires current < ld.mem.Length && ld.logical[current].word.Ptr?
    requires Threadable(ld.logical, ld.threads, ld.logical[current].word.addr, current) == true
    modifies ld`relocationChains, ld`relocationCells, ld`threads, ld.mem
    ensures ld.Consistent() == true
    ensures ld.threads == Push(old(ld.threads), ld.logical[current].word.addr, current)
    ensures ld.relocationCells == old(ld.relocationCells) + 1
  {
    var mem := ld.mem;
    ghost var h, m := ld.logical[current].word.addr, mem[..];
    ghost var t := ld.threads;
    PushThreaded(m, ld.logical, t, h, current);
    hide Indexed, RestPlain, HeadsLinked, CellsLinked;

    var val := mem[current].word;
    var head := val.addr;
    mem[current] := SetWord(mem[current], mem[head].word);
    mem[head] := SetWord(mem[head], Ptr(val.tag, current));
    if mem[head].first {
      mem[current] := mem[current].(first := true);
    } else {
      mem[head] := mem[head].(first := true);
      ld.relocationChains := ld.relocationChains + 1;
    }
    ld.relocationCells := ld.relocationCells + 1;
    ld.threads := Push(t, h, current);
    assert mem[..] == Thread(m, h, current);
  }

  lemma ConsistentParts(ld: LocalData)
    requires ld.Consistent() == true
    ensures Threaded(ld.mem[..], ld.logical, ld.threads) == true && Indexed(ld.logical, ld.threads) == true
    ensures |ld.logical| == ld.mem.Length
    ensures ld.relocationChains == |ld.threads.chains| && ld.relocationCells - ld.relocatedCells == |ld.threads.rank|
  {
  }

  lemma ConsistentWhole(ld: LocalData)
    requires Threaded(ld.mem[..], ld.logical, ld.threads) == true
    requires ld.relocationChains == |ld.threads.chains| && ld.relocationCells - ld.relocatedCells == |ld.threads.rank|
    ensures ld.Consistent() == true
  {
  }

  lemma ChainCells(m: Memory, l: Memory, t: Threads, h: int)
    requires Threaded(m, l, t) && h in t.chains
    ensures 0 <= h < |l| && |t.chains[h]| > 0
    ensures forall i :: 0 <= i < |t.chains[h]| ==> 0 <= t.chains[h][i] < |l| && l[t.chains[h][i]].word.Ptr?
  {
  }

  lemma PlaceInside(h: int, cs: seq<int>, k: nat, n: int)
    requires k <= |cs| && 0 <= h < n && forall i :: 0 <= i < |cs| ==> 0 <= cs[i] < n
    ensures 0 <= Place(h, cs, k) < n && Place(h, cs, k) == if k == |cs| then h else cs[k]
  {
  }

  lemma SetWordIs(c: Cell, w: Word)
    ensures SetWord(c, w) == c.(word := w)
  {
  }

  /** pl-gc.c, update_relocation_chain(). */
  method UpdateRelocationChain(ld: LocalData, head: nat, dest: nat)
    requires ld.Consistent() == true && head in ld.threads.chains
    modifies ld`relocationChains, ld`relocatedCells, ld`threads, ld`logical, ld.mem
    ensures ld.Consistent() == true
    ensures ld.logical == Redirect(old(ld.logical), old(ld.threads), head, dest)
    ensures ld.threads == Drop(old(ld.logical), old(ld.threads), head)
  {
    hide *;
    var mem := ld.mem;
    ghost var l, t, m := ld.logical, ld.threads, mem[..];
    ghost var cs := t.chains[head];
    ghost var k := |cs|;
    ConsistentParts(ld);
    ChainCells(m, l, t, head);
    DropCounts(l, t, head);
    UnwindStart(m, l, t, head, dest);
    PlaceInside(head, cs, |cs|, |l|);

    var current := head;
    var val := mem[current].word;
    var more := true;
    while more
      invariant k <= |cs| && (more ==> k > 0) && (!more ==> k == 0)
      invariant Unwound(m, mem[..], l, t, head, k, dest) == true
      invariant current == Place(head, cs, k) && val == Link(l, head, cs, k)
      invariant ld.relocatedCells == old(ld.relocatedCells) + |cs| - k
      invariant ld.relocationChains == old(ld.relocationChains)
      decreases k
    {
      ghost var n := mem[..];
      LinkCell(l, head, cs, k);
      PlacesDiffer(l, t, head, k);
      PlaceInside(head, cs, k, |l|);
      PlaceInside(head, cs, k - 1, |l|);
      SetWordIs(n[cs[k - 1]], Ptr(val.tag, dest));
      mem[current] := mem[current].(first := false);
      current := val.addr;
      var tag := val.tag;
      val := mem[current].word;
      mem[current] := SetWord(mem[current], Ptr(tag, dest));
      ld.relocatedCells := ld.relocatedCells + 1;
      assert mem[..] == n[Place(head, cs, k) := n[Place(head, cs, k)].(first := false)]
                         [current := n[current].(word := Ptr(tag, dest))];
      UnwindStep(m, n, mem[..], l, t, head, k, dest);
      k := k - 1;
      more := mem[current].first;
    }
    LinkCell(l, head, cs, 0);
    ghost var n := mem[..];
    SetWordIs(n[head], val);
    mem[head] := SetWord(mem[head], val);
    UnwoundThreaded(m, n, mem[..], l, t, head, dest);
    ld.relocationChains := ld.relocationChains - 1;
    ld.logical := Redirect(l, t, head, dest);
    ld.threads := Drop(l, t, head);
    ConsistentWhole(ld);
  }
}
