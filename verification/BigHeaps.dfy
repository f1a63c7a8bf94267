/** The doubly linked list of the areas that malloc() gave (pl-alloc.c, struct big_heap). */
module BigHeaps {

  /** The header of an area; the block starts behind it. */
  class BigHeap {
    const start: int
    const size: nat
    var next: BigHeap?
    var prev: BigHeap?

    constructor (start: int, size: nat)
      ensures this.start == start && this.size == size && next == null && prev == null
    {
      this.start, this.size, next, prev := start, size, null, null;
    }
  }

  ghost function At(s: seq<BigHeap>, i: int): BigHeap? {
    if 0 <= i < |s| then s[i] else null
  }

  ghost function Without(s: seq<BigHeap>, i: nat): (r: seq<BigHeap>)
    requires i < |s|
    ensures |r| == |s| - 1 && forall k :: 0 <= k < |r| ==> r[k] == s[if k < i then k else k + 1]
  {
    s[..i] + s[i + 1..]
  }

  class BigHeapList {
    var first: BigHeap?
    ghost var list: seq<BigHeap>

    ghost predicate Valid()
      reads this, list
    {
      && first == At(list, 0)
      && (forall i {:trigger list[i].next} :: 0 <= i < |list| ==> list[i].next == At(list, i + 1))
      && (forall i {:trigger list[i].prev} :: 0 <= i < |list| ==> list[i].prev == At(list, i - 1))
      && (forall i, j :: 0 <= i < j < |list| ==> list[i] != list[j])
    }

    constructor ()
      ensures Valid() && list == []
    {
      first, list := null, [];
    }

    /** pl-alloc.c, allocBigHeap() */
    method Add(h: BigHeap)
      requires Valid() && h !in list
      modifies this, h, list
      ensures Valid() && list == [h] + old(list)
    {
      ghost var was := list;
      h.next := first;
      h.prev := null;
      if first != null {
        first.prev := h;
      }
      first := h;
      list := [h] + was;
      assert forall i :: 0 <= i < |was| ==> list[i + 1] == was[i];
    }

    /** The neighbours of h skip it. */
    method Bypass(h: BigHeap, ghost i: nat)
      requires Valid() && i < |list| && list[i] == h
      modifies this`first, list
      ensures first == At(list, if i == 0 then 1 else 0)
      ensures forall k {:trigger list[k].next} :: 0 <= k < |list| && k != i ==> list[k].next == At(list, if k == i - 1 then i + 1 else k + 1)
      ensures forall k {:trigger list[k].prev} :: 0 <= k < |list| && k != i ==> list[k].prev == At(list, if k == i + 1 then i - 1 else k - 1)
    {
      if h.prev != null {
        h.prev.next := h.next;
      } else {
        first := h.next;
      }
      if h.next != null {
        h.next.prev := h.prev;
      }
    }

    /** pl-alloc.c, freeBigHeap() */
    method Unlink(h: BigHeap)
      requires Valid() && h in list
      modifies this, list
      ensures Valid() && forall b :: b in list <==> b in old(list) && b != h
      ensures |list| == |old(list)| - 1
    {
      hide Without;
      ghost var was := list;
      ghost var i :| 0 <= i < |was| && was[i] == h;
      Bypass(h, i);
      StillLinked(was, i);
      list := Without(was, i);
      OthersStay(was, i);
    }

    /** pl-alloc.c, freeAllBigHeaps(): frees every area once. */
    method FreeAll() returns (freed: seq<BigHeap>)
      requires Valid()
      modifies this
      ensures freed == old(list) && Valid() && list == []
    {
      freed := [];
      var h := first;
      while h != null
        invariant |freed| <= |list| && h == At(list, |freed|) && freed == list[..|freed|]
        invariant Valid() && list == old(list)
        decreases |list| - |freed|
      {
        var next := h.next;
        freed := freed + [h];
        h := next;
      }
      first, list := null, [];
    }
  }

  /** With their neighbours' links changed, the others are linked. */
  lemma StillLinked(s: seq<BigHeap>, i: nat)
    requires i < |s| && forall j, k :: 0 <= j < k < |s| ==> s[j] != s[k]
    requires forall k {:trigger s[k].next} :: 0 <= k < |s| && k != i ==> s[k].next == At(s, if k == i - 1 then i + 1 else k + 1)
    requires forall k {:trigger s[k].prev} :: 0 <= k < |s| && k != i ==> s[k].prev == At(s, if k == i + 1 then i - 1 else k - 1)
    ensures var r := Without(s, i);
            && At(r, 0) == At(s, if i == 0 then 1 else 0)
            && (forall k {:trigger r[k].next} :: 0 <= k < |r| ==> r[k].next == At(r, k + 1))
            && (forall k {:trigger r[k].prev} :: 0 <= k < |r| ==> r[k].prev == At(r, k - 1))
            && forall j, k :: 0 <= j < k < |r| ==> r[j] != r[k]
  {
    hide Without;
    var r := Without(s, i);
    forall k {:trigger r[k].next} | 0 <= k < |r|
      ensures r[k].next == At(r, k + 1)
    {
      var o := if k < i then k else k + 1;
      assert r[k] == s[o] && s[o].next == At(s, if o == i - 1 then i + 1 else o + 1);
    }
    forall k {:trigger r[k].prev} | 0 <= k < |r|
      ensures r[k].prev == At(r, k - 1)
    {
      var o := if k < i then k else k + 1;
      assert r[k] == s[o] && s[o].prev == At(s, if o == i + 1 then i - 1 else o - 1);
    }
  }

  lemma OthersStay(s: seq<BigHeap>, i: nat)
    requires i < |s| && forall j, k :: 0 <= j < k < |s| ==> s[j] != s[k]
    ensures forall b :: b in Without(s, i) <==> b in s && b != s[i]
  {
    var r := Without(s, i);
    forall b
      ensures b in r <==> b in s && b != s[i]
    {
      if b in r {
        var k :| 0 <= k < |r| && r[k] == b;
        assert s[if k < i then k else k + 1] == b;
      }
      if b in s && b != s[i] {
        var k :| 0 <= k < |s| && s[k] == b;
        assert r[if k < i then k else k - 1] == b;
      }
    }
  }
}
