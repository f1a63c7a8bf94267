/** The heap allocator (pl-alloc.c): perfect fit below ALLOCFAST, malloc() above it. */
module HeapAllocator {
  import opened BigHeaps
  import opened HeapLinks
  import opened HeapPieces
  import opened HeapState

  class Allocator {
    const z: Sizes
    const freeChains: array<int>
    const bigHeaps: BigHeapList
    var headers: map<int, BigHeap>     // the header in front of an area, by the start of the area
    var memory: map<int, int>          // the words stored in the areas
    var spaceptr: int
    var spacefree: nat
    var heap: int                      // GD->statistics.heap
    ghost var g: State

    ghost predicate Linked()
      reads this`memory, this`g, freeChains
    {
      Chains(memory, freeChains[..], g.chains)
    }

    /** All areas are on the list of big heaps, each once. */
    ghost predicate Headed(areas: map<int, Area>)
      reads this`headers, bigHeaps, bigHeaps.list
    {
      && bigHeaps.Valid() && headers.Keys == areas.Keys
      && (forall a :: a in headers ==> headers[a].start == a && headers[a].size == areas[a].size && headers[a] in bigHeaps.list)
      && (forall h :: h in bigHeaps.list ==> h.start in headers && headers[h.start] == h)
    }

    ghost predicate Valid()
      reads this, freeChains, bigHeaps, bigHeaps.list
    {
      z.Valid() && Linked() && Headed(g.areas) && Sound(g, z, spaceptr, spacefree) && heap == Total(g.live)
    }

    constructor (z: Sizes)
      requires z.Valid()
      ensures Valid() && g.live == map[] && g.areas == map[] && this.z == z
      ensures fresh(freeChains) && fresh(bigHeaps) && fresh(bigHeaps.list)
    {
      this.z := z;
      var chains := new int[z.fast / z.word + 1](_ => 0);
      freeChains := chains;
      bigHeaps := new BigHeapList();
      headers, memory, spaceptr, spacefree, heap := map[], map[], 0, 0, 0;
      g := Nothing(z.fast / z.word + 1);
    }

    /** Takes the first block of chain m. */
    method Pop(m: nat, n: nat) returns (f: int)
      requires z.Valid() && Linked() && m < |g.chains| && g.chains[m] != []
      requires var now := g.chains[m := g.chains[m][1..]]; forall k :: 0 <= k < |now| ==> g.chains[m][0] !in now[k]
      modifies this`memory, this`g, freeChains
      ensures f == old(g.chains[m][0]) && g == Taken(old(g), m, n) && Linked() == true && memory == old(memory)[f := 0]
    {
      Popped(memory, freeChains[..], g.chains, m);
      f := freeChains[m];
      ghost var heads, was := freeChains[..], memory;
      freeChains[m] := memory[f];
      memory := memory[f := 0];
      g := Taken(g, m, n);
      assert freeChains[..] == heads[m := was[f]];
      Stored(was, freeChains[..], g.chains, f, 0);
    }

    /** p->next = freeChains[m]; freeChains[m] = p; */
    method Push(m: nat, p: int, ghost now: State)
      requires Linked() && m < |g.chains| && p > 0 && forall k :: 0 <= k < |g.chains| ==> p !in g.chains[k]
      requires now.chains == g.chains[m := [p] + g.chains[m]]
      modifies this`memory, this`g, freeChains
      ensures g == now && Linked() == true && p in memory && memory == old(memory)[p := memory[p]]
    {
      Stored(memory, freeChains[..], g.chains, p, freeChains[m]);
      ghost var heads := freeChains[..];
      memory := memory[p := freeChains[m]];
      Pushed(memory, heads, g.chains, m, p);
      freeChains[m] := p;
      assert freeChains[..] == heads[m := p];
      g := now;
    }

    /** The list of big heaps has only old nodes and new ones. */
    twostate predicate Owned()
      reads bigHeaps
    {
      forall h :: h in bigHeaps.list ==> h in old(bigHeaps.list) || fresh(h)
    }

    /** pl-alloc.c, allocBigHeap(), when malloc() has given an area that starts at a behind its header. */
    method AllocBigHeap(a: int, size: nat, ghost chunk: bool)
      requires Headed(g.areas) && a !in g.areas
      modifies this`headers, bigHeaps, bigHeaps.list
      ensures Headed(g.areas[a := Area(size, chunk)]) == true && Owned()
    {
      var h := new BigHeap(a, size);
      bigHeaps.Add(h);
      headers := headers[a := h];
    }

    /** pl-alloc.c, freeBigHeap() */
    method FreeBigHeap(p: int)
      requires Headed(g.areas) && p in g.areas
      modifies this`headers, bigHeaps, bigHeaps.list
      ensures Headed(g.areas - {p}) == true && Owned()
    {
      var h := headers[p];
      bigHeaps.Unlink(h);
      headers := headers - {p};
    }

    /** Takes n bytes from the spare region. */
    method Carve(n: nat) returns (p: int)
      requires z.Valid() && Linked() == true && Sound(g, z, spaceptr, spacefree) == true && 0 < n <= z.fast && n % z.align == 0 && n <= spacefree
      modifies this`g, this`spaceptr, this`spacefree
      ensures Linked() == true && Sound(g, z, spaceptr, spacefree) == true && p == old(spaceptr) && p > 0 && p !in old(g.live)
      ensures g == old(g).(pieces := g.pieces, live := old(g.live)[p := n])
    {
      hide Sound, Cut, Sizes.Units;
      CarvedSound(g, z, spaceptr, spacefree, n);
      g := Carved(g, spaceptr, n);
      p := spaceptr;
      spaceptr := spaceptr + n;
      spacefree := spacefree - n;
    }

    /** The rest of the spare region goes to its chain: there is one for every size below n. */
    method Retire(ghost n: nat)
      requires z.Valid() && Linked() == true && Sound(g, z, spaceptr, spacefree) == true && spacefree < n <= z.fast
      modifies this`memory, this`g, freeChains
      ensures Linked() == true && Sound(g, z, spaceptr, 0) == true && g.live == old(g.live) && g.areas == old(g.areas)
      ensures Untouched(old(memory), memory, old(g.live)) == true
    {
      hide Sound, Sizes.Units, Linked, Untouched;
      NothingStored(memory, g.live);
      SmallRest(g, z, spaceptr, spacefree);
      if spacefree >= z.word {
        var m := spacefree / z.align;
        RetiredSound(g, z, spaceptr, spacefree);
        UnitsAre(z, spacefree);
        if m <= z.fast / z.align {
          SpareNotLive(g, z, spaceptr, spacefree);
          ghost var was, live := memory, g.live;
          Push(m, spaceptr, Retired(g, z, spaceptr));
          OneStored(was, spaceptr, memory[spaceptr], live);
        }
      }
    }

    /** A new chunk becomes the spare region. */
    method Grow(core: int)
      requires z.Valid() && Linked() == true && Headed(g.areas) == true && Sound(g, z, spaceptr, 0) == true
      requires Fresh(g.areas, z, core, z.chunk) == true
      modifies this`headers, this`g, this`spaceptr, this`spacefree, bigHeaps, bigHeaps.list
      ensures Linked() == true && Headed(g.areas) == true && Owned() && Sound(g, z, spaceptr, spacefree) == true
      ensures spaceptr == core && spacefree == z.chunk
      ensures g == old(g).(pieces := g.pieces, areas := old(g.areas)[core := Area(z.chunk, true)])
    {
      hide Sound, Chains;
      GrownSound(g, z, spaceptr, core);
      AllocBigHeap(core, z.chunk, true);
      g := Grown(g, z, core);
      spaceptr, spacefree := core, z.chunk;
    }

    /** No perfect fit is available: memory comes from the spare region, or else from a new chunk,
        when what was left of the spare region is freed (pl-alloc.c, allocate()). */
    method Allocate(n: nat, core: int) returns (p: int)
      requires z.Valid() && Linked() == true && Headed(g.areas) == true && Sound(g, z, spaceptr, spacefree) == true
      requires 0 < n <= z.fast && n % z.align == 0
      requires core != 0 && n > spacefree ==> Fresh(g.areas, z, core, z.chunk) == true
      modifies this`headers, this`memory, this`g, this`spaceptr, this`spacefree, freeChains, bigHeaps, bigHeaps.list
      ensures p == 0 ==> core == 0
      ensures p != 0 ==>
                && Linked() == true && Headed(g.areas) == true && Owned() && Sound(g, z, spaceptr, spacefree) == true
                && p !in old(g.live) && g.live == old(g.live)[p := n]
                && g.areas == if n <= old(spacefree) then old(g.areas) else old(g.areas)[core := Area(z.chunk, true)]
      ensures Untouched(old(memory), memory, old(g.live)) == true
    {
      hide Sound, Linked, Headed, Sizes.Units, Untouched;
      NothingStored(memory, g.live);
      if n <= spacefree {
        p := Carve(n);
      } else {
        Retire(n);
        if core == 0 {
          p := 0;
        } else {
          Grow(core);
          p := Carve(n);
        }
      }
    }

    /** pl-alloc.c, allocHeap().  `core` is the block behind the header that malloc() would give,
        or 0 if it would fail; then allocHeap() does not return if it needs that block. */
    method AllocHeap(n: nat, core: int) returns (p: int)
      requires Valid() == true && z.Valid()
      requires core != 0 ==> Fresh(g.areas, z, core, if z.Round(n) <= z.fast then z.chunk else z.Round(n)) == true
      modifies this, freeChains, bigHeaps, bigHeaps.list
      ensures p == 0 && n > 0 ==> core == 0
      ensures n == 0 ==> p == 0 && Valid() == true && g == old(g)
      ensures p != 0 ==> Valid() == true && Owned() && p !in old(g.live) && g.live == old(g.live)[p := z.Round(n)]
      ensures n <= z.Round(n) < n + z.align && z.Round(n) % z.align == 0
      ensures Untouched(old(memory), memory, old(g.live)) == true && (z.Round(n) > z.fast ==> memory == old(memory))
      ensures p != 0 ==> g.areas == old(g.areas) || g.areas.Keys == old(g.areas).Keys + {core}
      ensures 0 < n && z.Round(n) <= z.fast && old(FirstOf(z.Round(n))) != 0 ==>
                p == old(FirstOf(z.Round(n))) && g.areas == old(g.areas) && memory == old(memory)[p := 0]
    {
      hide Sound, Linked, Headed, Total, Valid, FirstOf, Fresh, Sizes.Units, Sizes.Round, Untouched;
      z.RoundUp(n);
      NothingStored(memory, g.live);
      if n == 0 {
        return 0;
      }
      ValidIs();
      var k := z.Round(n);
      heap := heap + k;
      p := AllocRounded(k, core);
      if p != 0 {
        TotalWith(old(g.live), p, k);
        ValidIs();
      }
    }

    lemma ValidIs()
      ensures Valid() <==> z.Valid() && Linked() == true && Headed(g.areas) == true && Sound(g, z, spaceptr, spacefree) == true && heap == Total(g.live)
    {
    }

    method AllocRounded(k: nat, core: int) returns (p: int)
      requires z.Valid() && Linked() == true && Headed(g.areas) == true && Sound(g, z, spaceptr, spacefree) == true
      requires 0 < k && k % z.align == 0
      requires core != 0 ==> Fresh(g.areas, z, core, if k <= z.fast then z.chunk else k) == true
      modifies this`headers, this`memory, this`g, this`spaceptr, this`spacefree, freeChains, bigHeaps, bigHeaps.list
      ensures p == 0 ==> core == 0
      ensures p != 0 ==>
                && Linked() == true && Headed(g.areas) == true && Owned() && Sound(g, z, spaceptr, spacefree) == true
                && p !in old(g.live) && g.live == old(g.live)[p := k]
                && (g.areas == old(g.areas) || g.areas.Keys == old(g.areas).Keys + {core})
      ensures k <= z.fast && old(FirstOf(k)) != 0 ==> p == old(FirstOf(k)) && g.areas == old(g.areas) && memory == old(memory)[p := 0]
      ensures Untouched(old(memory), memory, old(g.live)) == true && (k > z.fast ==> memory == old(memory))
    {
      hide *;
      NothingStored(memory, g.live);
      if k <= z.fast {
        UnitsAre(z, k);
        ChainThere(g, z, spaceptr, spacefree, k);
        p := AllocSmall(k, core);
      } else if core == 0 {
        p := 0;
      } else {
        p := core;
        AllocBig(k, core);
      }
    }

    /** The block that the chain for n bytes starts with, or NULL. */
    ghost function FirstOf(n: nat): int
      requires z.Valid()
      reads this`g
    {
      if z.Units(n) < |g.chains| && g.chains[z.Units(n)] != [] then g.chains[z.Units(n)][0] else 0
    }

    method AllocSmall(k: nat, core: int) returns (p: int)
      requires z.Valid() && Linked() == true && Headed(g.areas) == true && Sound(g, z, spaceptr, spacefree) == true
      requires 0 < k <= z.fast && k % z.align == 0 && z.Units(k) == k / z.align < |g.chains|
      requires core != 0 ==> Fresh(g.areas, z, core, z.chunk) == true
      modifies this`headers, this`memory, this`g, this`spaceptr, this`spacefree, freeChains, bigHeaps, bigHeaps.list
      ensures p == 0 ==> core == 0
      ensures p != 0 ==>
                && Linked() == true && Headed(g.areas) == true && Owned() && Sound(g, z, spaceptr, spacefree) == true
                && p !in old(g.live) && g.live == old(g.live)[p := k]
                && (g.areas == old(g.areas) || g.areas.Keys == old(g.areas).Keys + {core})
      ensures old(FirstOf(k)) != 0 ==> p == old(FirstOf(k)) && g.areas == old(g.areas) && memory == old(memory)[p := 0]
      ensures Untouched(old(memory), memory, old(g.live)) == true
    {
      hide Sound, Linked, Headed, Sizes.Units, Untouched;
      var m := k / z.align;
      HeadOf(m);
      if freeChains[m] != 0 {
        TakenSound(g, z, spaceptr, spacefree, k);
        ListedNotLive(g, z, spaceptr, spacefree, m);
        OneStored(memory, g.chains[m][0], 0, g.live);
        p := Pop(m, k);
      } else {
        p := Allocate(k, core);
      }
    }

    lemma HeadOf(m: nat)
      requires Linked() && m < |g.chains|
      ensures m < freeChains.Length && freeChains[m] == (if g.chains[m] == [] then 0 else g.chains[m][0]) && (g.chains[m] != [] ==> freeChains[m] > 0)
    {
      assert Chained(memory, freeChains[..][m], g.chains[m]);
      assert g.chains[m] != [] ==> Link(memory, g.chains[m], 0);
    }

    method AllocBig(k: nat, core: int)
      requires z.Valid() && Linked() == true && Headed(g.areas) == true && Sound(g, z, spaceptr, spacefree) == true
      requires k > z.fast && Fresh(g.areas, z, core, k) == true
      modifies this`headers, this`g, bigHeaps, bigHeaps.list
      ensures Linked() == true && Headed(g.areas) == true && Owned() && Sound(g, z, spaceptr, spacefree) == true
      ensures core !in old(g.live) && g.live == old(g.live)[core := k] && g.areas.Keys == old(g.areas).Keys + {core}
    {
      hide Sound, Chains;
      LentSound(g, z, spaceptr, spacefree, core, k);
      AllocBigHeap(core, k, false);
      g := Lent(g, core, k);
    }

    /** pl-alloc.c, freeHeap(): callers give the size that they have allocated. */
    method FreeHeap(p: int, n: nat)
      requires Valid() == true && z.Valid() && (p != 0 ==> p in g.live && g.live[p] == z.Round(n))
      modifies this, freeChains, bigHeaps, bigHeaps.list
      ensures Valid() == true && Owned() && g.live == old(g.live) - {p}
      ensures p != 0 && z.Round(n) <= z.fast ==> FirstOf(z.Round(n)) == p
      ensures Untouched(old(memory), memory, g.live) == true && (p == 0 || z.Round(n) > z.fast ==> memory == old(memory))
    {
      hide Sound, Linked, Headed, Total, Valid, FirstOf, Sizes.Units, Sizes.Round, Untouched;
      ValidIs();
      NullDead(g, z, spaceptr, spacefree);
      NothingStored(memory, g.live - {p});
      if p == 0 {
        assert g.live - {0} == g.live;
        return;
      }
      var k := z.Round(n);
      TotalWithout(g.live, p);
      heap := heap - k;
      if k <= z.fast {
        FreeSmall(p, k);
      } else {
        FreeBig(p);
      }
      ValidIs();
    }

    method FreeSmall(p: int, k: nat)
      requires z.Valid() && Linked() == true && Sound(g, z, spaceptr, spacefree) == true && p in g.live && g.live[p] == k <= z.fast
      modifies this`memory, this`g, freeChains
      ensures Linked() == true && Sound(g, z, spaceptr, spacefree) == true && g.live == old(g.live) - {p} && g.areas == old(g.areas)
      ensures FirstOf(k) == p && Untouched(old(memory), memory, g.live) == true
    {
      hide Sound, Linked, Sizes.Units, Untouched;
      GivenSound(g, z, spaceptr, spacefree, p);
      UnitsAre(z, k);
      OthersElsewhere(g, z, spaceptr, spacefree, p);
      ghost var was, live := memory, g.live - {p};
      Push(k / z.align, p, Given(g, z, p));
      OneStored(was, p, memory[p], live);
    }

    method FreeBig(p: int)
      requires z.Valid() && Linked() == true && Headed(g.areas) == true && Sound(g, z, spaceptr, spacefree) == true
      requires p in g.live && g.live[p] > z.fast
      modifies this`headers, this`g, bigHeaps, bigHeaps.list
      ensures Linked() == true && Headed(g.areas) == true && Owned() && Sound(g, z, spaceptr, spacefree) == true
      ensures g.live == old(g.live) - {p}
    {
      hide Sound, Chains;
      ReturnedSound(g, z, spaceptr, spacefree, p);
      FreeBigHeap(p);
      g := Returned(g, p);
    }

    /** The program stores a word in a live block; this touches none of the allocator's lists. */
    method Store(p: int, x: int, v: int)
      requires Valid() == true && z.Valid() && p in g.live && p <= x < p + g.live[p]
      modifies this`memory
      ensures Valid() == true && memory == old(memory)[x := v]
    {
      hide Sound, Headed, Total;
      NotListed(g, z, spaceptr, spacefree, p, x);
      Stored(memory, freeChains[..], g.chains, x, v);
      memory := memory[x := v];
    }

    /** pl-alloc.c, cleanupMemAlloc(): every area is freed once.  The statistics still count what
        was live. */
    method Cleanup() returns (freed: seq<BigHeap>)
      requires Valid() == true && z.Valid()
      modifies this, freeChains, bigHeaps
      ensures freed == old(bigHeaps.list) && g.live == map[] && g.areas == map[]
      ensures Valid() <==> Total(old(g.live)) == 0
    {
      hide *;
      ValidParts();
      freed := bigHeaps.FreeAll();
      headers := map[];
      ClearChains();
      spacefree, spaceptr := 0, 0;
      g := Nothing(freeChains.Length);
      Emptied();
    }

    lemma ValidParts()
      requires Valid()
      ensures z.Valid() && bigHeaps.Valid() && freeChains.Length == z.fast / z.word + 1 && heap == Total(g.live)
    {
      hide Total;
    }

    method ClearChains()
      modifies freeChains
      ensures forall k :: 0 <= k < freeChains.Length ==> freeChains[k] == 0
    {
      for m := 0 to freeChains.Length
        invariant forall k :: 0 <= k < m ==> freeChains[k] == 0
      {
        freeChains[m] := 0;
      }
    }

    lemma Emptied()
      requires z.Valid() && g == Nothing(freeChains.Length) && headers == map[] && bigHeaps.Valid() && bigHeaps.list == []
      requires spacefree == 0 && freeChains.Length == z.fast / z.word + 1 && forall k :: 0 <= k < freeChains.Length ==> freeChains[k] == 0
      ensures g.live == map[] && g.areas == map[] && (Valid() <==> heap == 0)
    {
      NothingTotal();
      hide Total;
    }
  }

  ghost function Nothing(chains: nat): State {
    State(seq(chains, _ => []), map[], map[], map[])
  }

  lemma NothingTotal()
    ensures Total(map[]) == 0
  {
  }

  lemma ChainThere(g: State, z: Sizes, ptr: int, free: nat, n: nat)
    requires z.Valid() && Sound(g, z, ptr, free) == true && n <= z.fast
    ensures z.Units(n) < |g.chains|
  {
    z.UnitsFit(n);
    PartsOf(g, z, ptr, free);
  }

  lemma SmallRest(g: State, z: Sizes, ptr: int, free: nat)
    requires z.Valid() && Sound(g, z, ptr, free)
    ensures free < z.word ==> free == 0
  {
    assert free > 0 ==> ptr in g.pieces && free % z.align == 0;
  }

  lemma UnitsAre(z: Sizes, n: nat)
    requires z.Valid() && n <= z.fast
    ensures z.Units(n) == n / z.align <= z.fast / z.align
  {
    z.(word := z.align).UnitsFit(n);
  }
}
