/** The layout of the global stack: consecutive objects, each one word, or an indirect framed
    by two headers so that the stack can be scanned in both directions.  `objs` lists the
    addresses of the objects from gBase on, the cell at gTop that garbageCollect() clears,
    and the address after that. */
module GlobalStack {
  import opened Words

  ghost predicate ObjectAt(m: Memory, objs: seq<int>, i: int)
    requires 0 <= i < |objs| - 1
  {
    && 0 <= objs[i] < objs[i + 1] <= |m|
    && objs[i + 1] == objs[i] + Size(m[objs[i]].word)
    && (m[objs[i]].word.Header? ==> m[objs[i + 1] - 1] == Cell(m[objs[i]].word, false, false))
  }

  ghost predicate Laid(m: Memory, objs: seq<int>) {
    && |objs| >= 2
    && (forall i {:trigger ObjectAt(m, objs, i)} :: 0 <= i < |objs| - 1 ==> ObjectAt(m, objs, i))
    && ObjectAt(m, objs, |objs| - 2) && m[objs[|objs| - 2]].word == Var && !m[objs[|objs| - 2]].mark
  }

  lemma Increasing(m: Memory, objs: seq<int>, i: int, j: int)
    requires Laid(m, objs) && 0 <= i <= j < |objs|
    ensures objs[i] + (j - i) <= objs[j]
    decreases j - i
  {
    if i < j {
      Increasing(m, objs, i, j - 1);
      assert ObjectAt(m, objs, j - 1);
    }
  }

  predicate Marked(m: Memory, a: int) {
    0 <= a < |m| && m[a].mark
  }

  /** The address object i moves to: gBase plus the sizes of the live objects below it. */
  function NewAt(m: Memory, objs: seq<int>, i: int): int
    requires 0 <= i < |objs|
    decreases i
  {
    if i == 0 then objs[0]
    else NewAt(m, objs, i - 1) + (if Marked(m, objs[i - 1]) then objs[i] - objs[i - 1] else 0)
  }

  ghost predicate IsObject(objs: seq<int>, a: int) {
    exists i :: 0 <= i < |objs| - 1 && objs[i] == a
  }

  ghost function Index(objs: seq<int>, a: int): (i: int)
    requires IsObject(objs, a)
    ensures 0 <= i < |objs| - 1 && objs[i] == a
  {
    var i :| 0 <= i < |objs| - 1 && objs[i] == a;
    i
  }

  /** The address to which the object at `a` moves. */
  ghost function To(m: Memory, objs: seq<int>, a: int): int
    requires Laid(m, objs) && IsObject(objs, a)
  {
    NewAt(m, objs, Index(objs, a))
  }

  lemma {:induction false} ToAt(m: Memory, objs: seq<int>, i: int)
    requires Laid(m, objs) && 0 <= i < |objs| - 1
    ensures IsObject(objs, objs[i]) && Index(objs, objs[i]) == i
    ensures To(m, objs, objs[i]) == NewAt(m, objs, i)
  {
    var k := Index(objs, objs[i]);
    if k < i {
      Increasing(m, objs, k, i);
    } else if i < k {
      Increasing(m, objs, i, k);
    }
  }

  lemma NewAtMonotone(m: Memory, objs: seq<int>, i: int, j: int)
    requires Laid(m, objs) && 0 <= i < j < |objs|
    ensures NewAt(m, objs, i) + (if Marked(m, objs[i]) then objs[i + 1] - objs[i] else 0) <= NewAt(m, objs, j)
    decreases j - i
  {
    assert ObjectAt(m, objs, j - 1);
    if i + 1 < j {
      NewAtMonotone(m, objs, i, j - 1);
    }
  }

  lemma {:induction false} NewAtBelow(m: Memory, objs: seq<int>, i: int)
    requires Laid(m, objs) && 0 <= i < |objs|
    ensures objs[0] <= NewAt(m, objs, i) <= objs[i]
  {
    if i > 0 {
      NewAtBelow(m, objs, i - 1);
      assert ObjectAt(m, objs, i - 1);
    }
  }

  // ---------- the same address, counted in words

  ghost predicate Covers(objs: seq<int>, i: int, w: int) {
    0 <= i < |objs| - 1 && objs[i] <= w < objs[i + 1]
  }

  /** Word w belongs to a live object. */
  ghost predicate LiveWord(m: Memory, objs: seq<int>, w: int) {
    exists i :: Covers(objs, i, w) && Marked(m, objs[i])
  }

  ghost function LiveWords(m: Memory, objs: seq<int>, top: int): set<int>
    requires |objs| > 0
  {
    set w | objs[0] <= w < top && LiveWord(m, objs, w)
  }

  function Range(lo: int, hi: int): (s: set<int>)
    ensures lo <= hi ==> |s| == hi - lo
    ensures forall w :: w in s <==> lo <= w < hi
    decreases hi - lo
  {
    if hi <= lo then {} else Range(lo, hi - 1) + {hi - 1}
  }

  lemma LiveWordIff(m: Memory, objs: seq<int>, i: int, w: int)
    requires Laid(m, objs) && Covers(objs, i, w)
    ensures LiveWord(m, objs, w) <==> Marked(m, objs[i])
  {
    assert ObjectAt(m, objs, i);
    if LiveWord(m, objs, w) {
      var k :| Covers(objs, k, w) && Marked(m, objs[k]);
      if i < k {
        Increasing(m, objs, i + 1, k);
      } else if k < i {
        Increasing(m, objs, k + 1, i);
      }
    }
  }

  lemma LiveWordsStep(m: Memory, objs: seq<int>, i: int)
    requires Laid(m, objs) && 0 <= i < |objs| - 1
    ensures objs[i] <= objs[i + 1]
    ensures LiveWords(m, objs, objs[i + 1]) ==
            LiveWords(m, objs, objs[i]) + (if Marked(m, objs[i]) then Range(objs[i], objs[i + 1]) else {})
  {
    assert ObjectAt(m, objs, i);
    Increasing(m, objs, 0, i);
    forall w | objs[i] <= w < objs[i + 1]
      ensures LiveWord(m, objs, w) <==> Marked(m, objs[i])
    {
      LiveWordIff(m, objs, i, w);
    }
    hide Laid, LiveWord;
  }

  /** An object moves to gBase plus the number of live words that were below it. */
  lemma {:induction false} NewAtCounts(m: Memory, objs: seq<int>, i: int)
    requires Laid(m, objs) && 0 <= i < |objs|
    ensures NewAt(m, objs, i) == objs[0] + |LiveWords(m, objs, objs[i])|
  {
    if i == 0 {
      assert LiveWords(m, objs, objs[0]) == {};
    } else {
      NewAtCounts(m, objs, i - 1);
      LiveWordsStep(m, objs, i - 1);
      hide Laid, LiveWord;
      var below, range := LiveWords(m, objs, objs[i - 1]), Range(objs[i - 1], objs[i]);
      assert below !! range;
    }
  }
}
