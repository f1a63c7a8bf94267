/** What the heap allocator (pl-alloc.c) keeps true, and the steps that keep it. */
module HeapState {
  import opened HeapPieces

  /** ALIGN_SIZE, the size of a pointer, ALLOCFAST and ALLOCSIZE */
  datatype Sizes = Sizes(align: nat, word: nat, fast: nat, chunk: nat) {
    /** sizeof(struct big_heap) */
    function Header(): nat {
      2 * word
    }

    /** what initMemAlloc() asserts, and what the constants of pl-incl.h satisfy */
    predicate Valid() {
      0 < word <= align && align <= fast && 0 < chunk && chunk % align == 0 && fast <= chunk
    }

    function Units(n: nat): nat
      requires Valid()
    {
      n / align
    }

    /** ALLOCROUND() */
    function Round(n: nat): nat
      requires Valid()
    {
      (n + align - 1) / align * align
    }

    lemma RoundUp(n: nat)
      requires Valid()
      ensures n <= Round(n) < n + align && Round(n) % align == 0
    {
      var q := (n + align - 1) / align;
      DivIs(q * align, align, q);
    }

    lemma UnitsFit(n: nat)
      requires Valid() && n <= fast
      ensures Units(n) <= fast / word
    {
      var q, r := n / align, fast / word;
      if r < q {
        MulMono(r + 1, q, word);
        MulMono(word, align, q);
      }
    }

    lemma SameUnits(n: nat, k: nat)
      requires Valid() && n % align == 0 && k % align == 0 && Units(n) == Units(k)
      ensures n == k
    {
      assert n == n / align * align && k == k / align * align;
    }
  }

  lemma MulMono(a: int, b: int, k: nat)
    requires a <= b
    ensures a * k <= b * k
  {
  }

  lemma DivIs(x: int, a: int, q: int)
    requires a > 0 && q * a <= x < q * a + a
    ensures x / a == q
  {
    var d := x / a;
    if d < q {
      MulMono(d + 1, q, a);
    } else if q < d {
      MulMono(q + 1, d, a);
    }
  }

  /** The chains of free pieces, the pieces and areas that memory consists of, and the live
      blocks with their rounded sizes. */
  datatype State = State(chains: seq<seq<int>>, pieces: map<int, Piece>, areas: map<int, Area>, live: map<int, nat>)

  /** Chain m holds the free pieces of m units, each once. */
  ghost predicate Listed(chains: seq<seq<int>>, pieces: map<int, Piece>, z: Sizes)
    requires z.Valid()
  {
    && (forall m, s :: 0 <= m < |chains| && s in chains[m] ==> s in pieces && pieces[s].kind == Free && z.Units(pieces[s].size) == m)
    && (forall s :: s in pieces && pieces[s].kind == Free ==> z.Units(pieces[s].size) < |chains| && s in chains[z.Units(pieces[s].size)])
    && (forall m, i, j :: 0 <= m < |chains| && 0 <= i < j < |chains[m]| ==> chains[m][i] != chains[m][j])
  }

  /** The spare region is the one piece that is neither live nor free. */
  ghost predicate Rest(pieces: map<int, Piece>, ptr: int, free: nat) {
    && (forall s :: s in pieces && pieces[s].kind == Spare ==> s == ptr && pieces[s].size == free)
    && (free > 0 ==> ptr in pieces && pieces[ptr] == Piece(free, Spare))
  }

  ghost predicate Whole(pieces: map<int, Piece>, z: Sizes)
    requires z.Valid()
  {
    forall s :: s in pieces ==> pieces[s].size % z.align == 0
  }

  ghost predicate AreasFit(areas: map<int, Area>, z: Sizes) {
    Separate(areas, z.Header()) && forall a :: a in areas && areas[a].chunk ==> areas[a].size == z.chunk
  }

  ghost predicate Sound(g: State, z: Sizes, ptr: int, free: nat)
    requires z.Valid()
  {
    && |g.chains| == z.fast / z.word + 1
    && Listed(g.chains, g.pieces, z) && Rest(g.pieces, ptr, free) && Whole(g.pieces, z)
    && AreasFit(g.areas, z)
    && Tiled(g.pieces, Chunks(g.areas), z.chunk)
    && Accounted(g.live, g.pieces, g.areas, z.fast)
  }

  // ---------- the parts of the invariant, step by step

  lemma ListedPop(chains: seq<seq<int>>, pieces: map<int, Piece>, z: Sizes, m: nat)
    requires z.Valid() && Listed(chains, pieces, z) && m < |chains| && chains[m] != []
    ensures var p := chains[m][0]; p in pieces && pieces[p].kind == Free && z.Units(pieces[p].size) == m
    ensures var p := chains[m][0]; Listed(chains[m := chains[m][1..]], pieces[p := Piece(pieces[p].size, Live)], z)
    ensures var now := chains[m := chains[m][1..]]; forall k :: 0 <= k < |now| ==> chains[m][0] !in now[k]
  {
  }

  lemma ListedPush(chains: seq<seq<int>>, pieces: map<int, Piece>, z: Sizes, p: int, m: nat)
    requires z.Valid() && Listed(chains, pieces, z) && p in pieces && pieces[p].kind != Free && z.Units(pieces[p].size) == m < |chains|
    ensures Listed(chains[m := [p] + chains[m]], pieces[p := Piece(pieces[p].size, Free)], z)
    ensures forall k :: 0 <= k < |chains| ==> p !in chains[k]
  {
  }

  /** No free piece comes or goes. */
  lemma ListedOther(chains: seq<seq<int>>, pieces: map<int, Piece>, now: map<int, Piece>, z: Sizes)
    requires z.Valid() && Listed(chains, pieces, z)
    requires forall s :: s in now && now[s].kind == Free ==> s in pieces && pieces[s] == now[s]
    requires forall s :: s in pieces && pieces[s].kind == Free ==> s in now && pieces[s] == now[s]
    ensures Listed(chains, now, z)
  {
  }

  lemma AccountedTake(live: map<int, nat>, pieces: map<int, Piece>, areas: map<int, Area>, fast: nat, p: int, n: nat)
    requires Accounted(live, pieces, areas, fast) && n <= fast && (p in pieces ==> pieces[p].kind != Live) && (p in areas ==> areas[p].chunk)
    ensures p !in live && Accounted(live[p := n], pieces[p := Piece(n, Live)], areas, fast)
  {
  }

  lemma AccountedGive(live: map<int, nat>, pieces: map<int, Piece>, areas: map<int, Area>, fast: nat, p: int)
    requires Accounted(live, pieces, areas, fast) && p in live && live[p] <= fast
    ensures p in pieces && pieces[p] == Piece(live[p], Live)
    ensures Accounted(live - {p}, pieces[p := Piece(live[p], Free)], areas, fast)
  {
  }

  /** No live piece comes or goes. */
  lemma AccountedOther(live: map<int, nat>, pieces: map<int, Piece>, now: map<int, Piece>, areas: map<int, Area>, fast: nat)
    requires Accounted(live, pieces, areas, fast)
    requires forall s :: s in now && now[s].kind == Live ==> s in pieces && pieces[s] == now[s]
    requires forall s :: s in pieces && pieces[s].kind == Live ==> s in now && pieces[s] == now[s]
    ensures Accounted(live, now, areas, fast)
  {
  }

  lemma AccountedChunk(live: map<int, nat>, pieces: map<int, Piece>, areas: map<int, Area>, fast: nat, p: int, n: nat)
    requires Accounted(live, pieces, areas, fast) && p !in areas
    ensures Accounted(live, pieces, areas[p := Area(n, true)], fast)
  {
  }

  lemma AccountedBig(live: map<int, nat>, pieces: map<int, Piece>, areas: map<int, Area>, fast: nat, p: int, n: nat)
    requires Accounted(live, pieces, areas, fast) && p !in areas && n > fast && p !in pieces
    ensures p !in live && Accounted(live[p := n], pieces, areas[p := Area(n, false)], fast)
  {
  }

  lemma AccountedReturn(live: map<int, nat>, pieces: map<int, Piece>, areas: map<int, Area>, fast: nat, p: int)
    requires Accounted(live, pieces, areas, fast) && p in live && live[p] > fast
    ensures p in areas && areas[p] == Area(live[p], false) && Accounted(live - {p}, pieces, areas - {p}, fast)
  {
  }

  // ---------- the steps

  lemma PartsOf(g: State, z: Sizes, ptr: int, free: nat)
    requires z.Valid() && Sound(g, z, ptr, free)
    ensures |g.chains| == z.fast / z.word + 1 && Listed(g.chains, g.pieces, z) == true && Rest(g.pieces, ptr, free) == true
    ensures Whole(g.pieces, z) == true && AreasFit(g.areas, z) == true && Tiled(g.pieces, Chunks(g.areas), z.chunk) == true
    ensures Accounted(g.live, g.pieces, g.areas, z.fast) == true
  {
  }

  lemma PartsMake(g: State, z: Sizes, ptr: int, free: nat)
    requires z.Valid() && |g.chains| == z.fast / z.word + 1 && Listed(g.chains, g.pieces, z) == true && Rest(g.pieces, ptr, free) == true
    requires Whole(g.pieces, z) == true && AreasFit(g.areas, z) == true && Tiled(g.pieces, Chunks(g.areas), z.chunk) == true
    requires Accounted(g.live, g.pieces, g.areas, z.fast) == true
    ensures Sound(g, z, ptr, free) == true
  {
  }

  lemma RestOther(pieces: map<int, Piece>, ptr: int, free: nat, p: int, n: nat, kind: Kind)
    requires Rest(pieces, ptr, free) && p in pieces && pieces[p].kind != Spare && kind != Spare
    ensures Rest(pieces[p := Piece(n, kind)], ptr, free) == true
  {
  }

  lemma WholeOther(pieces: map<int, Piece>, z: Sizes, p: int, n: nat, kind: Kind)
    requires z.Valid() && Whole(pieces, z) && n % z.align == 0
    ensures Whole(pieces[p := Piece(n, kind)], z) == true
  {
  }

  lemma PieceOf(pieces: map<int, Piece>, chunks: set<int>, size: nat, z: Sizes, p: int)
    requires z.Valid() && Tiled(pieces, chunks, size) && Whole(pieces, z) && p in pieces
    ensures pieces[p].size > 0 && pieces[p].size % z.align == 0
  {
    hide Housed, Covered;
  }

  /** A piece that is a whole area starts a chunk. */
  lemma PieceNoBig(g: State, z: Sizes, p: int)
    requires AreasFit(g.areas, z) && Tiled(g.pieces, Chunks(g.areas), z.chunk) && p in g.pieces
    ensures p in g.areas ==> g.areas[p].chunk
    ensures exists a :: a in g.areas && g.areas[a].chunk && a <= p && p + g.pieces[p].size <= a + z.chunk
    ensures p > 0
  {
    assert Housed(Chunks(g.areas), z.chunk, p, g.pieces[p].size);
    var a :| a in Chunks(g.areas) && a <= p && p + g.pieces[p].size <= a + z.chunk;
    var n := z.Header();
    hide Tiled, Covered, Housed;
    AreasApart(g.areas, z, p, a);
  }

  lemma AreasApart(areas: map<int, Area>, z: Sizes, p: int, a: int)
    requires AreasFit(areas, z) && a in areas
    ensures p in areas && p != a ==> p + areas[p].size <= a - z.Header() || a + areas[a].size <= p - z.Header()
  {
    var n := z.Header();
    assert p in areas && p != a ==> Apart(p - n, n + areas[p].size, a - n, n + areas[a].size);
  }

  function Taken(g: State, m: nat, n: nat): State
    requires m < |g.chains| && g.chains[m] != []
  {
    var p := g.chains[m][0];
    g.(chains := g.chains[m := g.chains[m][1..]], pieces := g.pieces[p := Piece(n, Live)], live := g.live[p := n])
  }

  /** A free piece of the right size becomes live. */
  lemma TakenSound(g: State, z: Sizes, ptr: int, free: nat, n: nat)
    requires z.Valid() && Sound(g, z, ptr, free) == true && n % z.align == 0 && n <= z.fast
    requires z.Units(n) < |g.chains| && g.chains[z.Units(n)] != []
    ensures Sound(Taken(g, z.Units(n), n), z, ptr, free) == true
    ensures g.chains[z.Units(n)][0] !in g.live && g.chains[z.Units(n)][0] > 0
    ensures var now := Taken(g, z.Units(n), n).chains; forall k :: 0 <= k < |now| ==> g.chains[z.Units(n)][0] !in now[k]
  {
    hide *;
    PartsOf(g, z, ptr, free);
    var m := z.Units(n);
    var p := g.chains[m][0];
    ListedPop(g.chains, g.pieces, z, m);
    PieceOf(g.pieces, Chunks(g.areas), z.chunk, z, p);
    z.SameUnits(n, g.pieces[p].size);
    Reused(g.pieces, Chunks(g.areas), z.chunk, p, Live);
    RestOther(g.pieces, ptr, free, p, n, Live);
    WholeOther(g.pieces, z, p, n, Live);
    PieceNoBig(g, z, p);
    AccountedTake(g.live, g.pieces, g.areas, z.fast, p, n);
    TakenIs(g, m, n);
    PartsMake(Taken(g, m, n), z, ptr, free);
  }

  lemma TakenIs(g: State, m: nat, n: nat)
    requires m < |g.chains| && g.chains[m] != []
    ensures var p := g.chains[m][0];
            Taken(g, m, n) == State(g.chains[m := g.chains[m][1..]], g.pieces[p := Piece(n, Live)], g.areas, g.live[p := n])
  {
  }

  function Given(g: State, z: Sizes, p: int): State
    requires z.Valid() && p in g.live && z.Units(g.live[p]) < |g.chains|
  {
    var m := z.Units(g.live[p]);
    g.(chains := g.chains[m := [p] + g.chains[m]], pieces := g.pieces[p := Piece(g.live[p], Free)], live := g.live - {p})
  }

  /** A live piece becomes free. */
  lemma GivenSound(g: State, z: Sizes, ptr: int, free: nat, p: int)
    requires z.Valid() && Sound(g, z, ptr, free) == true && p in g.live && g.live[p] <= z.fast
    ensures z.Units(g.live[p]) < |g.chains| && p > 0 && Sound(Given(g, z, p), z, ptr, free) == true
    ensures forall k :: 0 <= k < |g.chains| ==> p !in g.chains[k]
  {
    hide *;
    PartsOf(g, z, ptr, free);
    AccountedGive(g.live, g.pieces, g.areas, z.fast, p);
    var n := g.live[p];
    z.UnitsFit(n);
    ListedPush(g.chains, g.pieces, z, p, z.Units(n));
    PieceOf(g.pieces, Chunks(g.areas), z.chunk, z, p);
    PieceNoBig(g, z, p);
    Reused(g.pieces, Chunks(g.areas), z.chunk, p, Free);
    RestOther(g.pieces, ptr, free, p, n, Free);
    WholeOther(g.pieces, z, p, n, Free);
    GivenIs(g, z, p);
    PartsMake(Given(g, z, p), z, ptr, free);
  }

  lemma GivenIs(g: State, z: Sizes, p: int)
    requires z.Valid() && p in g.live && z.Units(g.live[p]) < |g.chains|
    ensures var m := z.Units(g.live[p]);
            Given(g, z, p) == State(g.chains[m := [p] + g.chains[m]], g.pieces[p := Piece(g.live[p], Free)], g.areas, g.live - {p})
  {
  }

  function Carved(g: State, ptr: int, n: nat): State
    requires ptr in g.pieces && n <= g.pieces[ptr].size
  {
    g.(pieces := Cut(g.pieces, ptr, n, Live), live := g.live[ptr := n])
  }

  lemma CutRest(pieces: map<int, Piece>, ptr: int, free: nat, n: nat)
    requires Rest(pieces, ptr, free) && 0 < n <= free && (n < free ==> ptr + n !in pieces)
    ensures ptr in pieces && pieces[ptr] == Piece(free, Spare) && Rest(Cut(pieces, ptr, n, Live), ptr + n, free - n)
  {
  }

  lemma CutWhole(pieces: map<int, Piece>, z: Sizes, p: int, n: nat)
    requires z.Valid() && Whole(pieces, z) && p in pieces && n % z.align == 0 && n <= pieces[p].size
    ensures Whole(Cut(pieces, p, n, Live), z) == true
  {
    var k := pieces[p].size;
    assert k == k / z.align * z.align && n == n / z.align * z.align;
    DivIs(k - n, z.align, k / z.align - n / z.align);
  }

  lemma CutOthers(pieces: map<int, Piece>, p: int, n: nat)
    requires p in pieces && n <= pieces[p].size && pieces[p].kind == Spare && (n < pieces[p].size ==> p + n !in pieces)
    ensures var now := Cut(pieces, p, n, Live);
            && (forall s :: s in now && now[s].kind == Free ==> s in pieces && pieces[s] == now[s])
            && (forall s :: s in pieces && pieces[s].kind == Free ==> s in now && pieces[s] == now[s])
            && now == (if n < pieces[p].size then pieces[p + n := Piece(pieces[p].size - n, Spare)] else pieces)[p := Piece(n, Live)]
  {
  }

  /** The first n bytes of the spare region become live. */
  lemma CarvedSound(g: State, z: Sizes, ptr: int, free: nat, n: nat)
    requires z.Valid() && Sound(g, z, ptr, free) == true && 0 < n <= free && n % z.align == 0 && n <= z.fast
    ensures ptr in g.pieces && g.pieces[ptr].size == free && Sound(Carved(g, ptr, n), z, ptr + n, free - n) == true
    ensures ptr !in g.live && ptr > 0
  {
    hide *;
    PartsOf(g, z, ptr, free);
    SpareIs(g.pieces, ptr, free);
    PieceNoBig(g, z, ptr);
    CutTiled(g.pieces, Chunks(g.areas), z.chunk, ptr, n, Live);
    CutRest(g.pieces, ptr, free, n);
    CutWhole(g.pieces, z, ptr, n);
    CutOthers(g.pieces, ptr, n);
    var now := Cut(g.pieces, ptr, n, Live);
    ListedOther(g.chains, g.pieces, now, z);
    var mid := if n < free then g.pieces[ptr + n := Piece(free - n, Spare)] else g.pieces;
    MidLive(g, z, ptr, n, free);
    AccountedTake(g.live, mid, g.areas, z.fast, ptr, n);
    CarvedIs(g, ptr, n);
    PartsMake(Carved(g, ptr, n), z, ptr + n, free - n);
  }

  lemma SpareIs(pieces: map<int, Piece>, ptr: int, free: nat)
    requires Rest(pieces, ptr, free) && free > 0
    ensures ptr in pieces && pieces[ptr] == Piece(free, Spare)
  {
  }

  lemma MidLive(g: State, z: Sizes, ptr: int, n: nat, free: nat)
    requires Accounted(g.live, g.pieces, g.areas, z.fast) && ptr in g.pieces && g.pieces[ptr] == Piece(free, Spare) && n <= free
    requires n < free ==> ptr + n !in g.pieces
    ensures var mid := if n < free then g.pieces[ptr + n := Piece(free - n, Spare)] else g.pieces;
            Accounted(g.live, mid, g.areas, z.fast) == true && ptr in mid && (n > 0 ==> mid[ptr].kind != Live)
  {
    var mid := if n < free then g.pieces[ptr + n := Piece(free - n, Spare)] else g.pieces;
    AccountedOther(g.live, g.pieces, mid, g.areas, z.fast);
  }

  lemma CarvedIs(g: State, ptr: int, n: nat)
    requires ptr in g.pieces && n <= g.pieces[ptr].size
    ensures Carved(g, ptr, n) == State(g.chains, Cut(g.pieces, ptr, n, Live), g.areas, g.live[ptr := n])
  {
  }

  function Retired(g: State, z: Sizes, ptr: int): State
    requires z.Valid() && ptr in g.pieces && z.Units(g.pieces[ptr].size) < |g.chains|
  {
    var m := z.Units(g.pieces[ptr].size);
    g.(chains := g.chains[m := [ptr] + g.chains[m]], pieces := g.pieces[ptr := Piece(g.pieces[ptr].size, Free)])
  }

  /** The spare region becomes a free piece. */
  lemma RetiredSound(g: State, z: Sizes, ptr: int, free: nat)
    requires z.Valid() && Sound(g, z, ptr, free) == true && 0 < free <= z.fast
    ensures ptr in g.pieces && g.pieces[ptr].size == free && z.Units(free) < |g.chains| && ptr > 0
    ensures Sound(Retired(g, z, ptr), z, ptr, 0) == true
    ensures forall k :: 0 <= k < |g.chains| ==> ptr !in g.chains[k]
    ensures forall p :: p in g.live ==> Retired(g, z, ptr).live[p] == g.live[p]
  {
    hide *;
    PartsOf(g, z, ptr, free);
    SpareIs(g.pieces, ptr, free);
    z.UnitsFit(free);
    PieceNoBig(g, z, ptr);
    PieceOf(g.pieces, Chunks(g.areas), z.chunk, z, ptr);
    ListedPush(g.chains, g.pieces, z, ptr, z.Units(free));
    Reused(g.pieces, Chunks(g.areas), z.chunk, ptr, Free);
    WholeOther(g.pieces, z, ptr, free, Free);
    NoRest(g.pieces, ptr, free);
    NoLive(g, z, ptr, free);
    RetiredIs(g, z, ptr);
    PartsMake(Retired(g, z, ptr), z, ptr, 0);
  }

  lemma NoRest(pieces: map<int, Piece>, ptr: int, free: nat)
    requires Rest(pieces, ptr, free)
    ensures Rest(pieces[ptr := Piece(free, Free)], ptr, 0) == true
  {
  }

  lemma NoLive(g: State, z: Sizes, ptr: int, free: nat)
    requires Accounted(g.live, g.pieces, g.areas, z.fast) && ptr in g.pieces && g.pieces[ptr].kind == Spare
    ensures Accounted(g.live, g.pieces[ptr := Piece(free, Free)], g.areas, z.fast) == true
  {
    AccountedOther(g.live, g.pieces, g.pieces[ptr := Piece(free, Free)], g.areas, z.fast);
  }

  lemma RetiredIs(g: State, z: Sizes, ptr: int)
    requires z.Valid() && ptr in g.pieces && z.Units(g.pieces[ptr].size) < |g.chains|
    ensures var m := z.Units(g.pieces[ptr].size);
            Retired(g, z, ptr) == State(g.chains[m := [ptr] + g.chains[m]], g.pieces[ptr := Piece(g.pieces[ptr].size, Free)], g.areas, g.live)
  {
  }

  /** malloc() has returned an area that is apart from all others. */
  ghost predicate Fresh(areas: map<int, Area>, z: Sizes, a: int, n: nat) {
    a > z.Header() && forall b :: b in areas ==> Apart(b - z.Header(), z.Header() + areas[b].size, a - z.Header(), z.Header() + n)
  }

  lemma AreaAdded(areas: map<int, Area>, z: Sizes, a: int, n: nat, chunk: bool)
    requires z.Valid() && AreasFit(areas, z) && Fresh(areas, z, a, n) && n > 0 && (chunk ==> n == z.chunk)
    ensures a !in areas && AreasFit(areas[a := Area(n, chunk)], z) == true
    ensures Chunks(areas[a := Area(n, chunk)]) == if chunk then Chunks(areas) + {a} else Chunks(areas)
    ensures chunk ==> forall d :: d in Chunks(areas) ==> Apart(a, z.chunk, d, z.chunk)
  {
  }

  function Grown(g: State, z: Sizes, a: int): State {
    g.(pieces := g.pieces[a := Piece(z.chunk, Spare)], areas := g.areas[a := Area(z.chunk, true)])
  }

  /** A new chunk is the spare region. */
  lemma GrownSound(g: State, z: Sizes, ptr: int, a: int)
    requires z.Valid() && Sound(g, z, ptr, 0) == true && Fresh(g.areas, z, a, z.chunk) == true
    ensures a !in g.areas && Sound(Grown(g, z, a), z, a, z.chunk) == true
  {
    hide *;
    PartsOf(g, z, ptr, 0);
    ChunkThere(z);
    AreaAdded(g.areas, z, a, z.chunk, true);
    ChunkTiled(g.pieces, Chunks(g.areas), z.chunk, a);
    WholeOther(g.pieces, z, a, z.chunk, Spare);
    NewRest(g.pieces, Chunks(g.areas), z.chunk, ptr, a);
    NewOthers(g.pieces, a, z.chunk);
    ListedOther(g.chains, g.pieces, g.pieces[a := Piece(z.chunk, Spare)], z);
    AccountedOther(g.live, g.pieces, g.pieces[a := Piece(z.chunk, Spare)], g.areas, z.fast);
    AccountedChunk(g.live, g.pieces[a := Piece(z.chunk, Spare)], g.areas, z.fast, a, z.chunk);
    GrownIs(g, z, a);
    PartsMake(Grown(g, z, a), z, a, z.chunk);
  }

  lemma ChunkThere(z: Sizes)
    requires z.Valid()
    ensures z.chunk > 0 && z.chunk % z.align == 0
  {
  }

  lemma NewRest(pieces: map<int, Piece>, chunks: set<int>, size: nat, ptr: int, a: int)
    requires Rest(pieces, ptr, 0) && Tiled(pieces, chunks, size)
    ensures Rest(pieces[a := Piece(size, Spare)], a, size) == true
  {
    hide Housed, Covered;
  }

  lemma NewOthers(pieces: map<int, Piece>, a: int, n: nat)
    requires a !in pieces
    ensures var now := pieces[a := Piece(n, Spare)];
            && (forall s :: s in now && now[s].kind != Spare ==> s in pieces && pieces[s] == now[s])
            && (forall s :: s in pieces && pieces[s].kind != Spare ==> s in now && pieces[s] == now[s])
  {
  }

  lemma GrownIs(g: State, z: Sizes, a: int)
    ensures Grown(g, z, a) == State(g.chains, g.pieces[a := Piece(z.chunk, Spare)], g.areas[a := Area(z.chunk, true)], g.live)
  {
  }

  function Lent(g: State, a: int, n: nat): State {
    g.(areas := g.areas[a := Area(n, false)], live := g.live[a := n])
  }

  /** A large block is an area of its own. */
  lemma LentSound(g: State, z: Sizes, ptr: int, free: nat, a: int, n: nat)
    requires z.Valid() && Sound(g, z, ptr, free) == true && Fresh(g.areas, z, a, n) == true && n > z.fast
    ensures a !in g.areas && a !in g.live && Sound(Lent(g, a, n), z, ptr, free) == true
  {
    hide *;
    PartsOf(g, z, ptr, free);
    AreaAdded(g.areas, z, a, n, false);
    NoPiece(g, z, a, n);
    AccountedBig(g.live, g.pieces, g.areas, z.fast, a, n);
    LentIs(g, a, n);
    PartsMake(Lent(g, a, n), z, ptr, free);
  }

  lemma NoPiece(g: State, z: Sizes, a: int, n: nat)
    requires AreasFit(g.areas, z) && Tiled(g.pieces, Chunks(g.areas), z.chunk) && Fresh(g.areas, z, a, n) && n > 0
    ensures a !in g.pieces
  {
    if a in g.pieces {
      PieceNoBig(g, z, a);
      PieceOfSize(g.pieces, Chunks(g.areas), z.chunk, a);
    }
  }

  lemma PieceOfSize(pieces: map<int, Piece>, chunks: set<int>, size: nat, p: int)
    requires Tiled(pieces, chunks, size) && p in pieces
    ensures pieces[p].size > 0
  {
    hide Housed, Covered;
  }

  lemma LentIs(g: State, a: int, n: nat)
    ensures Lent(g, a, n) == State(g.chains, g.pieces, g.areas[a := Area(n, false)], g.live[a := n])
  {
  }

  function Returned(g: State, p: int): State {
    g.(areas := g.areas - {p}, live := g.live - {p})
  }

  lemma ReturnedSound(g: State, z: Sizes, ptr: int, free: nat, p: int)
    requires z.Valid() && Sound(g, z, ptr, free) == true && p in g.live && g.live[p] > z.fast
    ensures p in g.areas && g.areas[p] == Area(g.live[p], false) && Sound(Returned(g, p), z, ptr, free) == true
  {
    hide *;
    PartsOf(g, z, ptr, free);
    AccountedReturn(g.live, g.pieces, g.areas, z.fast, p);
    AreaDropped(g.areas, z, p);
    ReturnedIs(g, p);
    PartsMake(Returned(g, p), z, ptr, free);
  }

  lemma AreaDropped(areas: map<int, Area>, z: Sizes, p: int)
    requires AreasFit(areas, z) && p in areas && !areas[p].chunk
    ensures AreasFit(areas - {p}, z) == true && Chunks(areas - {p}) == Chunks(areas)
  {
  }

  lemma ReturnedIs(g: State, p: int)
    ensures Returned(g, p) == State(g.chains, g.pieces, g.areas - {p}, g.live - {p})
  {
  }

  // ---------- what the invariant means

  /** No live block starts at NULL. */
  lemma NullDead(g: State, z: Sizes, ptr: int, free: nat)
    requires z.Valid() && Sound(g, z, ptr, free)
    ensures forall p :: p in g.live ==> p > 0
  {
    hide Whole, Listed, Rest;
    forall p | p in g.live
      ensures p > 0
    {
      if g.live[p] <= z.fast {
        PieceNoBig(g, z, p);
      }
    }
  }

  /** The live blocks do not overlap. */
  lemma NothingOverlaps(g: State, z: Sizes, ptr: int, free: nat)
    requires z.Valid() && Sound(g, z, ptr, free) == true
    ensures forall p, q :: p in g.live && q in g.live && p != q ==> Apart(p, g.live[p], q, g.live[q])
  {
    hide *;
    PartsOf(g, z, ptr, free);
    AreasParts(g.areas, z);
    forall p, q | p in g.live && q in g.live && p != q
      ensures Apart(p, g.live[p], q, g.live[q])
    {
      LiveApart(g.live, g.pieces, g.areas, z.Header(), z.chunk, z.fast, p, q);
    }
  }

  lemma AreasParts(areas: map<int, Area>, z: Sizes)
    requires AreasFit(areas, z)
    ensures Separate(areas, z.Header()) == true && forall a :: a in areas && areas[a].chunk ==> areas[a].size == z.chunk
  {
  }

  /** A word in a live block is not the link of a free one. */
  lemma NotListed(g: State, z: Sizes, ptr: int, free: nat, p: int, x: int)
    requires z.Valid() && Sound(g, z, ptr, free) && p in g.live && p <= x < p + g.live[p]
    ensures forall m :: 0 <= m < |g.chains| ==> x !in g.chains[m]
  {
    var a := LiveInArea(g.live, g.pieces, g.areas, z.chunk, z.fast, p);
    forall m | 0 <= m < |g.chains|
      ensures x !in g.chains[m]
    {
      FreeElsewhere(g, z, ptr, free, p, a, x);
    }
  }

  /** Neither is it where the spare region starts. */
  lemma NotSpare(g: State, z: Sizes, ptr: int, free: nat, p: int, x: int)
    requires z.Valid() && Sound(g, z, ptr, free) && p in g.live && p <= x < p + g.live[p] && free > 0
    ensures x != ptr
  {
    var a := LiveInArea(g.live, g.pieces, g.areas, z.chunk, z.fast, p);
    FreeElsewhere(g, z, ptr, free, p, a, x);
  }

  /** The words of live blocks are as they were. */
  ghost predicate Untouched(was: map<int, int>, now: map<int, int>, live: map<int, nat>) {
    forall p, x {:trigger p in live, x in now} {:trigger p in live, x in was} ::
      p in live && p <= x < p + live[p] ==> (x in now <==> x in was) && (x in was ==> now[x] == was[x])
  }

  lemma OneStored(was: map<int, int>, x: int, v: int, live: map<int, nat>)
    requires forall p :: p in live ==> !(p <= x < p + live[p])
    ensures Untouched(was, was[x := v], live) == true
  {
  }

  lemma NothingStored(was: map<int, int>, live: map<int, nat>)
    ensures Untouched(was, was, live) == true
  {
  }

  lemma ListedNotLive(g: State, z: Sizes, ptr: int, free: nat, m: nat)
    requires z.Valid() && Sound(g, z, ptr, free) == true && m < |g.chains| && g.chains[m] != []
    ensures forall p :: p in g.live ==> !(p <= g.chains[m][0] < p + g.live[p])
  {
    hide Sound;
    forall p | p in g.live
      ensures !(p <= g.chains[m][0] < p + g.live[p])
    {
      if p <= g.chains[m][0] < p + g.live[p] {
        NotListed(g, z, ptr, free, p, g.chains[m][0]);
      }
    }
  }

  lemma SpareNotLive(g: State, z: Sizes, ptr: int, free: nat)
    requires z.Valid() && Sound(g, z, ptr, free) == true && free > 0
    ensures forall p :: p in g.live ==> !(p <= ptr < p + g.live[p])
  {
    hide Sound;
    forall p | p in g.live
      ensures !(p <= ptr < p + g.live[p])
    {
      if p <= ptr < p + g.live[p] {
        NotSpare(g, z, ptr, free, p, ptr);
      }
    }
  }

  lemma OthersElsewhere(g: State, z: Sizes, ptr: int, free: nat, p: int)
    requires z.Valid() && Sound(g, z, ptr, free) == true && p in g.live
    ensures forall q :: q in g.live - {p} ==> !(q <= p < q + (g.live - {p})[q])
  {
    hide Sound;
    NothingOverlaps(g, z, ptr, free);
  }

  lemma FreeElsewhere(g: State, z: Sizes, ptr: int, free: nat, p: int, a: int, x: int)
    requires z.Valid() && Sound(g, z, ptr, free) && p in g.live && p <= x < p + g.live[p]
    requires a in g.areas && a <= p && p + g.live[p] <= a + g.areas[a].size
    requires if g.areas[a].chunk then p in g.pieces && g.pieces[p].size == g.live[p] else p == a
    ensures x in g.pieces ==> g.pieces[x].kind == Live
  {
    if x in g.pieces {
      PieceNoBig(g, z, x);
      var b :| b in g.areas && g.areas[b].chunk && b <= x && x + g.pieces[x].size <= b + z.chunk;
      AreasApart(g.areas, z, b, a);
      PieceOf(g.pieces, Chunks(g.areas), z.chunk, z, x);
      if g.areas[a].chunk {
        PiecesApart(g.pieces, Chunks(g.areas), z.chunk, x, p, x);
      }
    }
  }

  /** Byte b of a chunk is in exactly one of these. */
  datatype Place = InLive(start: int) | OnChain(m: nat, start: int) | InSpare

  ghost predicate IsAt(g: State, ptr: int, free: nat, b: int, w: Place) {
    match w
    case InLive(p) => p in g.live && Inside(b, p, g.live[p])
    case OnChain(m, p) => m < |g.chains| && p in g.chains[m] && p in g.pieces && Inside(b, p, g.pieces[p].size)
    case InSpare => Inside(b, ptr, free)
  }

  /** Nothing of a chunk is lost, and nothing is used twice. */
  lemma EveryByteOnce(g: State, z: Sizes, ptr: int, free: nat, a: int, b: int) returns (w: Place)
    requires z.Valid() && Sound(g, z, ptr, free) && a in g.areas && g.areas[a].chunk && Inside(b, a, z.chunk)
    ensures IsAt(g, ptr, free, b, w) && forall v :: IsAt(g, ptr, free, b, v) ==> v == w
  {
    assert Covered(g.pieces, b);
    var s :| s in g.pieces && Inside(b, s, g.pieces[s].size);
    w := match g.pieces[s].kind
         case Live => InLive(s)
         case Free => OnChain(z.Units(g.pieces[s].size), s)
         case Spare => InSpare;
    forall v | IsAt(g, ptr, free, b, v)
      ensures v == w
    {
      OnePlace(g, z, ptr, free, a, b, s, v);
    }
  }

  lemma OnePlace(g: State, z: Sizes, ptr: int, free: nat, a: int, b: int, s: int, v: Place)
    requires z.Valid() && Sound(g, z, ptr, free) && a in g.areas && g.areas[a].chunk && Inside(b, a, z.chunk)
    requires s in g.pieces && Inside(b, s, g.pieces[s].size) && IsAt(g, ptr, free, b, v)
    ensures v == match g.pieces[s].kind
                 case Live => InLive(s)
                 case Free => OnChain(z.Units(g.pieces[s].size), s)
                 case Spare => InSpare
  {
    if v.InLive? {
      LivePiece(g, z, ptr, free, a, b, v.start);
    }
    var t := if v.InSpare? then ptr else v.start;
    assert t in g.pieces && Inside(b, t, g.pieces[t].size);
    PiecesApart(g.pieces, Chunks(g.areas), z.chunk, s, t, b);
  }

  lemma LivePiece(g: State, z: Sizes, ptr: int, free: nat, a: int, b: int, p: int)
    requires z.Valid() && Sound(g, z, ptr, free) && a in g.areas && g.areas[a].chunk && Inside(b, a, z.chunk)
    requires p in g.live && Inside(b, p, g.live[p])
    ensures p in g.pieces && g.pieces[p] == Piece(g.live[p], Live)
  {
    AreasApart(g.areas, z, p, a);
  }

  lemma PiecesApart(pieces: map<int, Piece>, chunks: set<int>, size: nat, s: int, t: int, b: int)
    requires Tiled(pieces, chunks, size) && s in pieces && t in pieces && Inside(b, s, pieces[s].size) && Inside(b, t, pieces[t].size)
    ensures s == t
  {
    hide Housed, Covered;
  }
}
