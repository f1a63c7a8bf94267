/** The memory of the heap allocator (pl-alloc.c): the areas that malloc() gave, and the pieces
    into which the allocator has cut the chunks among them. */
module HeapPieces {

  datatype Kind = Live | Free | Spare

  datatype Piece = Piece(size: nat, kind: Kind)

  predicate Apart(s: int, n: nat, t: int, k: nat) {
    s + n <= t || t + k <= s
  }

  predicate Inside(b: int, s: int, n: nat) {
    s <= b < s + n
  }

  predicate Covered(pieces: map<int, Piece>, b: int) {
    exists s :: s in pieces && Inside(b, s, pieces[s].size)
  }

  predicate Housed(chunks: set<int>, size: nat, s: int, n: nat) {
    exists c :: c in chunks && c <= s && s + n <= c + size
  }

  ghost predicate AllHoused(pieces: map<int, Piece>, chunks: set<int>, size: nat) {
    forall s :: s in pieces ==> pieces[s].size > 0 && Housed(chunks, size, s, pieces[s].size)
  }

  ghost predicate AllApart(pieces: map<int, Piece>) {
    forall s, t :: s in pieces && t in pieces && s != t ==> Apart(s, pieces[s].size, t, pieces[t].size)
  }

  ghost predicate AllCovered(pieces: map<int, Piece>, chunks: set<int>, size: nat) {
    forall c, b :: c in chunks && Inside(b, c, size) ==> Covered(pieces, b)
  }

  /** The pieces do not overlap, and together they are the chunks: nothing of a chunk is lost. */
  ghost predicate Tiled(pieces: map<int, Piece>, chunks: set<int>, size: nat) {
    AllHoused(pieces, chunks, size) && AllApart(pieces) && AllCovered(pieces, chunks, size)
  }

  /** One piece is put to another use. */
  lemma Reused(pieces: map<int, Piece>, chunks: set<int>, size: nat, s: int, kind: Kind)
    requires Tiled(pieces, chunks, size) && s in pieces
    ensures Tiled(pieces[s := Piece(pieces[s].size, kind)], chunks, size)
  {
    var now := pieces[s := Piece(pieces[s].size, kind)];
    forall c, b | c in chunks && Inside(b, c, size)
      ensures Covered(now, b)
    {
      assert Covered(pieces, b);
      var t :| t in pieces && Inside(b, t, pieces[t].size);
      assert t in now && now[t].size == pieces[t].size;
    }
  }

  /** The first n bytes of piece s become a piece of their own. */
  function Cut(pieces: map<int, Piece>, s: int, n: nat, kind: Kind): map<int, Piece>
    requires s in pieces && n <= pieces[s].size
  {
    var rest := pieces[s].size - n;
    if rest == 0 then pieces[s := Piece(n, kind)] else pieces[s := Piece(n, kind)][s + n := Piece(rest, pieces[s].kind)]
  }

  lemma CutTiled(pieces: map<int, Piece>, chunks: set<int>, size: nat, s: int, n: nat, kind: Kind)
    requires Tiled(pieces, chunks, size) && s in pieces && 0 < n <= pieces[s].size
    ensures Tiled(Cut(pieces, s, n, kind), chunks, size) == true
    ensures n < pieces[s].size ==> s + n !in pieces
  {
    CutHoused(pieces, chunks, size, s, n);
    hide Housed, AllCovered, AllHoused;
    CutApart(pieces, s, n, kind);
    CutAllCovered(pieces, chunks, size, s, n, kind);
  }

  lemma CutApart(pieces: map<int, Piece>, s: int, n: nat, kind: Kind)
    requires AllApart(pieces) && s in pieces && 0 < n <= pieces[s].size && forall t :: t in pieces ==> pieces[t].size > 0
    ensures AllApart(Cut(pieces, s, n, kind)) == true && (n < pieces[s].size ==> s + n !in pieces)
  {
    forall t | t in pieces && t != s
      ensures Apart(s, pieces[s].size, t, pieces[t].size) && (n < pieces[s].size ==> t != s + n)
    {
    }
  }

  lemma CutAllCovered(pieces: map<int, Piece>, chunks: set<int>, size: nat, s: int, n: nat, kind: Kind)
    requires AllCovered(pieces, chunks, size) && s in pieces && 0 < n <= pieces[s].size && (n < pieces[s].size ==> s + n !in pieces)
    ensures AllCovered(Cut(pieces, s, n, kind), chunks, size) == true
  {
    var now := Cut(pieces, s, n, kind);
    hide Cut, Covered;
    forall c, b | c in chunks && Inside(b, c, size)
      ensures Covered(now, b)
    {
      CutCovers(pieces, s, n, kind, b);
    }
  }

  lemma CutHoused(pieces: map<int, Piece>, chunks: set<int>, size: nat, s: int, n: nat)
    requires AllHoused(pieces, chunks, size) && s in pieces && 0 < n <= pieces[s].size
    ensures forall kind :: AllHoused(Cut(pieces, s, n, kind), chunks, size) && forall t :: t in pieces ==> pieces[t].size > 0
  {
    assert Housed(chunks, size, s, pieces[s].size);
    var c :| c in chunks && c <= s && s + pieces[s].size <= c + size;
    assert Housed(chunks, size, s, n) && Housed(chunks, size, s + n, pieces[s].size - n);
  }

  lemma CutCovers(pieces: map<int, Piece>, s: int, n: nat, kind: Kind, b: int)
    requires s in pieces && 0 < n <= pieces[s].size && Covered(pieces, b) && (n < pieces[s].size ==> s + n !in pieces)
    ensures Covered(Cut(pieces, s, n, kind), b)
  {
    var now := Cut(pieces, s, n, kind);
    var t :| t in pieces && Inside(b, t, pieces[t].size);
    if t != s {
      assert t in now && now[t] == pieces[t];
    } else if b < s + n {
      assert s in now && Inside(b, s, now[s].size);
    } else {
      assert s + n in now && Inside(b, s + n, now[s + n].size);
    }
  }

  /** A new chunk is one spare piece. */
  lemma ChunkTiled(pieces: map<int, Piece>, chunks: set<int>, size: nat, c: int)
    requires Tiled(pieces, chunks, size) && size > 0 && forall d :: d in chunks ==> Apart(c, size, d, size)
    ensures Tiled(pieces[c := Piece(size, Spare)], chunks + {c}, size) && c !in pieces
  {
    var now := pieces[c := Piece(size, Spare)];
    forall s | s in pieces
      ensures Apart(c, size, s, pieces[s].size) && s != c && Housed(chunks + {c}, size, s, pieces[s].size)
    {
      assert Housed(chunks, size, s, pieces[s].size);
      var d :| d in chunks && d <= s && s + pieces[s].size <= d + size;
      assert Apart(c, size, d, size) && d in chunks + {c};
    }
    assert c in chunks + {c};
    assert Housed(chunks + {c}, size, c, size);
    forall d, b | d in chunks + {c} && Inside(b, d, size)
      ensures Covered(now, b)
    {
      if d in chunks {
        assert Covered(pieces, b);
        var t :| t in pieces && Inside(b, t, pieces[t].size);
        assert t in now && now[t] == pieces[t];
      } else {
        assert c in now && Inside(b, c, now[c].size);
      }
    }
  }

  // ---------- what malloc() gave

  /** A chunk to cut, or one large block; both lie behind a header. */
  datatype Area = Area(size: nat, chunk: bool)

  ghost predicate Separate(areas: map<int, Area>, header: nat) {
    && (forall a :: a in areas ==> a > header)
    && (forall a, b :: a in areas && b in areas && a != b ==> Apart(a - header, header + areas[a].size, b - header, header + areas[b].size))
  }

  ghost function Chunks(areas: map<int, Area>): set<int> {
    set a | a in areas && areas[a].chunk
  }

  // ---------- what the program holds

  /** The live blocks are the live pieces and the large areas. */
  ghost predicate Accounted(live: map<int, nat>, pieces: map<int, Piece>, areas: map<int, Area>, fast: nat) {
    && (forall p :: p in live && live[p] <= fast ==> p in pieces && pieces[p] == Piece(live[p], Live))
    && (forall p :: p in live && live[p] > fast ==> p in areas && areas[p] == Area(live[p], false))
    && (forall p :: p in pieces && pieces[p].kind == Live ==> p in live && live[p] == pieces[p].size <= fast)
    && (forall p :: p in areas && !areas[p].chunk ==> p in live && live[p] == areas[p].size > fast)
  }

  ghost function Total(live: map<int, nat>): nat {
    if forall p :: p !in live then 0 else
      var p :| p in live;
      live[p] + Total(live - {p})
  }

  lemma {:induction false} TotalWithout(live: map<int, nat>, p: int)
    requires p in live
    ensures Total(live) == live[p] + Total(live - {p})
    decreases |live|
  {
    var q :| q in live && Total(live) == live[q] + Total(live - {q});
    if q != p {
      TotalWithout(live - {q}, p);
      TotalWithout(live - {p}, q);
      assert live - {q} - {p} == live - {p} - {q};
    }
  }

  lemma TotalWith(live: map<int, nat>, p: int, n: nat)
    requires p !in live
    ensures Total(live[p := n]) == Total(live) + n
  {
    TotalWithout(live[p := n], p);
    assert live[p := n] - {p} == live;
  }

  /** A live block lies in one area; if that is not a chunk, then it is the whole area. */
  lemma LiveInArea(live: map<int, nat>, pieces: map<int, Piece>, areas: map<int, Area>, size: nat, fast: nat, p: int) returns (a: int)
    requires Tiled(pieces, Chunks(areas), size) && Accounted(live, pieces, areas, fast) && p in live
    requires forall a :: a in areas && areas[a].chunk ==> areas[a].size == size
    ensures a in areas && a <= p && p + live[p] <= a + areas[a].size
    ensures if areas[a].chunk then p in pieces && pieces[p].size == live[p] else p == a
  {
    if live[p] <= fast {
      assert p in pieces && Housed(Chunks(areas), size, p, pieces[p].size);
      a :| a in Chunks(areas) && a <= p && p + pieces[p].size <= a + size;
    } else {
      a := p;
    }
  }

  /** Live blocks never overlap. */
  lemma LiveApart(live: map<int, nat>, pieces: map<int, Piece>, areas: map<int, Area>, header: nat, size: nat, fast: nat, p: int, q: int)
    requires Tiled(pieces, Chunks(areas), size) && Separate(areas, header) && Accounted(live, pieces, areas, fast) == true
    requires forall a :: a in areas && areas[a].chunk ==> areas[a].size == size
    requires p in live && q in live && p != q
    ensures Apart(p, live[p], q, live[q])
  {
    hide Chunks, Housed, Covered;
    var a := LiveInArea(live, pieces, areas, size, fast, p);
    var b := LiveInArea(live, pieces, areas, size, fast, q);
    if a == b {
      assert areas[a].chunk;
    } else {
      assert Apart(a - header, header + areas[a].size, b - header, header + areas[b].size);
    }
  }
}
