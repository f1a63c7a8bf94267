/** Hash tables of the clauses of a predicate (pl-index.c, newClauseIndexTable() to
    hashDefinition()). */
module ClauseIndexes {
  import opened IndexKeys
  import opened ClauseChains

  // ---------- buckets of a list of clauses

  /** The clause is in bucket b: it is not indexed, or it hashes there. */
  predicate In(i: Index, b: nat, buckets: nat)
    requires buckets > 0
  {
    i.varmask == 0 || HashIndex(i.key, buckets) == b
  }

  /** The clauses of the list that are in bucket b. */
  ghost function Bucket(list: seq<Clause>, b: nat, buckets: nat): seq<Clause>
    requires buckets > 0
  {
    if list == [] then [] else (if In(list[0].index, b, buckets) then [list[0]] else []) + Bucket(list[1..], b, buckets)
  }

  lemma {:induction false} BucketJoins(x: seq<Clause>, y: seq<Clause>, b: nat, buckets: nat)
    requires buckets > 0
    ensures Bucket(x + y, b, buckets) == Bucket(x, b, buckets) + Bucket(y, b, buckets)
    decreases |x|
  {
    hide In;
    if x == [] {
      assert x + y == y;
    } else {
      var one := if In(x[0].index, b, buckets) then [x[0]] else [];
      assert (x + y)[1..] == x[1..] + y;
      BucketJoins(x[1..], y, b, buckets);
      var s, t := Bucket(x[1..], b, buckets), Bucket(y, b, buckets);
      assert Bucket(x + y, b, buckets) == one + Bucket(x[1..] + y, b, buckets);
      hide Bucket;
      assert one + (s + t) == (one + s) + t;
    }
  }

  lemma {:induction false} BucketOne(c: Clause, b: nat, buckets: nat)
    requires buckets > 0
    ensures Bucket([c], b, buckets) == if In(c.index, b, buckets) then [c] else []
  {
    hide In;
    assert [c][1..] == [];
    assert Bucket([], b, buckets) == [];
  }

  lemma {:induction false} BucketMinus(list: seq<Clause>, c: Clause, b: nat, buckets: nat)
    requires buckets > 0
    ensures Bucket(Minus(list, c), b, buckets) == Minus(Bucket(list, b, buckets), c)
    decreases |list|
  {
    hide In;
    if list != [] {
      var n := |list| - 1;
      BucketMinus(list[..n], c, b, buckets);
      assert list == list[..n] + [list[n]];
      BucketJoins(list[..n], [list[n]], b, buckets);
      BucketOne(list[n], b, buckets);
      MinusJoins(Bucket(list[..n], b, buckets), Bucket([list[n]], b, buckets), c);
      BucketJoins(Minus(list[..n], c), if list[n] == c then [] else [list[n]], b, buckets);
      MinusOne(list[n], c);
    }
  }

  lemma {:induction false} MinusOne(d: Clause, c: Clause)
    ensures Minus([d], c) == (if d == c then [] else [d]) && Minus([], c) == []
  {
    assert [d][..0] == [];
  }

  lemma {:induction false} AliveJoins(x: seq<Clause>, y: seq<Clause>)
    ensures Alive(x + y) == Alive(x) + Alive(y) && DeadCount(x + y) == DeadCount(x) + DeadCount(y)
    decreases |x|
  {
    if x == [] {
      assert x + y == y;
    } else {
      var one := if x[0].dead then [] else [x[0]];
      assert (x + y)[1..] == x[1..] + y;
      AliveJoins(x[1..], y);
      assert Alive(x + y) == one + Alive(x[1..] + y);
      var s, t := Alive(x[1..]), Alive(y);
      hide Alive;
      assert one + (s + t) == (one + s) + t;
    }
  }

  lemma {:induction false} BucketAlive(list: seq<Clause>, b: nat, buckets: nat)
    requires buckets > 0
    ensures Bucket(Alive(list), b, buckets) == Alive(Bucket(list, b, buckets))
    decreases |list|
  {
    hide In;
    if list != [] {
      BucketAlive(list[1..], b, buckets);
      var one := if list[0].dead then [] else [list[0]];
      BucketJoins(one, Alive(list[1..]), b, buckets);
      BucketOne(list[0], b, buckets);
      AliveJoins(Bucket([list[0]], b, buckets), Bucket(list[1..], b, buckets));
      AliveOne(list[0]);
    }
  }

  lemma AliveOne(c: Clause)
    ensures Alive([c]) == (if c.dead then [] else [c]) && DeadCount([c]) == (if c.dead then 1 else 0) && Alive([]) == [] && DeadCount([]) == 0
  {
    assert [c][1..] == [];
  }

  lemma {:induction false} BucketDistinct(list: seq<Clause>, b: nat, buckets: nat)
    requires buckets > 0 && Distinct(list)
    ensures Distinct(Bucket(list, b, buckets)) && forall c :: c in Bucket(list, b, buckets) <==> c in list && In(c.index, b, buckets)
    decreases |list|
  {
    hide In;
    if list != [] {
      BucketDistinct(list[1..], b, buckets);
      assert list == [list[0]] + list[1..];
    }
  }

  // ---------- counting

  ghost function IndexedCount(list: seq<Clause>): nat {
    if list == [] then 0 else (if list[0].index.varmask != 0 then 1 else 0) + IndexedCount(list[1..])
  }

  lemma {:induction false} IndexedJoins(x: seq<Clause>, y: seq<Clause>)
    ensures IndexedCount(x + y) == IndexedCount(x) + IndexedCount(y)
    decreases |x|
  {
    if x == [] {
      assert x + y == y;
    } else {
      assert (x + y)[1..] == x[1..] + y;
      IndexedJoins(x[1..], y);
    }
  }

  lemma IndexedOne(c: Clause)
    ensures IndexedCount([c]) == (if c.index.varmask != 0 then 1 else 0) && IndexedCount([]) == 0
  {
    assert [c][1..] == [];
  }

  lemma {:induction false} IndexedMinus(list: seq<Clause>, c: Clause)
    requires Distinct(list) && c in list
    ensures IndexedCount(Minus(list, c)) == IndexedCount(list) - if c.index.varmask != 0 then 1 else 0
  {
    var i :| 0 <= i < |list| && list[i] == c;
    var x, y := list[..i], list[i + 1..];
    assert list == x + [c] + y;
    hide *;
    assert Distinct(list);
    NotElsewhere(list, i);
    OneClauseLess(x, y, c);
    IndexedJoins(x + [c], y);
    IndexedJoins(x, [c]);
    IndexedJoins(x, y);
    IndexedOne(c);
  }

  lemma NotElsewhere(list: seq<Clause>, i: nat)
    requires Distinct(list) && i < |list|
    ensures list[i] !in list[..i] && list[i] !in list[i + 1..]
  {
  }

  /** All erased clauses of the list are indexed. */
  ghost predicate DeadIndexed(list: seq<Clause>)
    reads list
  {
    forall i :: 0 <= i < |list| && list[i].dead ==> list[i].index.varmask != 0
  }

  /** The erased clauses in the first n buckets. */
  ghost function DeadSum(list: seq<Clause>, n: nat, buckets: nat): nat
    requires buckets > 0
    reads list
  {
    if n == 0 then 0 else DeadSum(list, n - 1, buckets) + DeadCountIn(list, n - 1, buckets)
  }

  /** The erased clauses of the list that are in bucket b. */
  ghost function DeadCountIn(list: seq<Clause>, b: nat, buckets: nat): nat
    requires buckets > 0
    reads list
  {
    if list == [] then 0
    else (if list[0].dead && In(list[0].index, b, buckets) then 1 else 0) + DeadCountIn(list[1..], b, buckets)
  }

  lemma {:induction false} DeadInBucket(list: seq<Clause>, b: nat, buckets: nat)
    requires buckets > 0
    ensures DeadCountIn(list, b, buckets) == DeadCount(Bucket(list, b, buckets))
    decreases |list|
  {
    hide In;
    if list != [] {
      DeadInBucket(list[1..], b, buckets);
      var one := if In(list[0].index, b, buckets) then [list[0]] else [];
      AliveJoins(one, Bucket(list[1..], b, buckets));
      AliveOne(list[0]);
    }
  }

  lemma {:induction false} DeadSumStep(list: seq<Clause>, n: nat, buckets: nat)
    requires buckets > 0 && list != []
    ensures list[0].index.varmask != 0 ==>
              DeadSum(list, n, buckets) == DeadSum(list[1..], n, buckets) + if list[0].dead && HashIndex(list[0].index.key, buckets) < n then 1 else 0
    ensures !list[0].dead ==> DeadSum(list, n, buckets) == DeadSum(list[1..], n, buckets)
    decreases n
  {
    if n > 0 {
      DeadSumStep(list, n - 1, buckets);
    }
  }

  lemma {:induction false} NoSum(n: nat, buckets: nat)
    requires buckets > 0
    ensures DeadSum([], n, buckets) == 0
  {
    if n > 0 {
      NoSum(n - 1, buckets);
    }
  }

  /** If they are indexed, every erased clause is in one bucket. */
  lemma {:induction false} DeadSumAll(list: seq<Clause>, buckets: nat)
    requires buckets > 0 && DeadIndexed(list)
    ensures IndexedCount(Alive(list)) + DeadSum(list, buckets, buckets) == IndexedCount(list)
    decreases |list|
  {
    if list == [] {
      NoSum(buckets, buckets);
    } else {
      DeadSumAll(list[1..], buckets);
      DeadSumStep(list, buckets, buckets);
      IndexedJoins(if list[0].dead then [] else [list[0]], Alive(list[1..]));
      IndexedOne(list[0]);
      assert list[0] in list;
    }
  }

  lemma {:induction false} AllAlive(s: seq<Clause>)
    requires DeadCount(s) == 0
    ensures Alive(s) == s
    decreases |s|
  {
    if s != [] {
      AllAlive(s[1..]);
    }
  }

  /** n is a power of two. */
  predicate IsPower(n: nat)
  {
    n == 1 || (n > 1 && n % 2 == 0 && IsPower(n / 2))
  }

  // ---------- the table

  class ClauseIndex {
    const buckets: nat
    const entries: seq<ClauseChain>
    var size: int
    var alldirty: bool

    /** pl-index.c, newClauseIndexTable() */
    constructor (wanted: nat)
      ensures Valid() && Holds([]) && Counts([]) && !alldirty
      ensures buckets >= 4 && buckets >= wanted && IsPower(buckets) && (buckets == 4 || buckets / 2 < wanted)
      ensures forall ch :: ch in entries ==> fresh(ch) && ch.refs == []
    {
      var m := 4;
      assert IsPower(2) && IsPower(4);
      while m < wanted
        invariant m >= 4 && IsPower(m) && (m == 4 || m / 2 < wanted)
      {
        m := m * 2;
      }
      var chains: seq<ClauseChain> := [];
      while |chains| < m
        invariant |chains| <= m
        invariant forall i :: 0 <= i < |chains| ==> fresh(chains[i]) && chains[i].Valid() && chains[i].refs == [] && chains[i].dirty == 0
        invariant forall i, j :: 0 <= i < j < |chains| ==> chains[i] != chains[j]
        decreases m - |chains|
      {
        var ch := new ClauseChain();
        chains := chains + [ch];
      }
      buckets, entries, size, alldirty := m, chains, 0, false;
    }

    ghost function Cells(): set<ClauseRef>
      reads entries
    {
      set b, k | 0 <= b < |entries| && 0 <= k < |entries[b].refs| :: entries[b].refs[k]
    }

    ghost predicate Shape() {
      buckets > 0 && |entries| == buckets && forall b, d :: 0 <= b < d < buckets ==> entries[b] != entries[d]
    }

    ghost predicate Valid()
      reads entries, Cells()
    {
      Shape() && forall b :: 0 <= b < buckets ==> entries[b].Valid()
    }

    /** Every bucket holds, in the order of the list, the clauses that hash there and all that
        are not indexed. */
    ghost predicate Holds(list: seq<Clause>)
      reads entries
    {
      buckets > 0 && |entries| == buckets && forall b :: 0 <= b < buckets ==> entries[b].Clauses() == Bucket(list, b, buckets)
    }

    lemma CellsApart()
      requires Valid()
      ensures forall b, d, r :: 0 <= b < buckets && 0 <= d < buckets && b != d && r in entries[b].refs ==> r !in entries[d].refs
      ensures forall b, r :: 0 <= b < buckets && r in entries[b].refs ==> r in Cells()
    {
      forall b, d, r | 0 <= b < buckets && 0 <= d < buckets && b != d && r in entries[b].refs
        ensures r !in entries[d].refs
      {
        assert entries[b].Valid() && entries[d].Valid();
        assert entries[b] != entries[d];
      }
    }

    /** What happens to one bucket leaves the others valid. */
    twostate lemma OthersValid(b: nat)
      requires old(Valid()) && b < buckets && entries[b].Valid()
      requires forall d :: 0 <= d < buckets && d != b ==> unchanged(entries[d])
      requires forall d, r :: 0 <= d < buckets && d != b && r in entries[d].refs ==> old(r.next) == r.next
      ensures Valid()
    {
      forall d | 0 <= d < buckets && d != b
        ensures entries[d].Valid()
      {
        assert old(entries[d].Valid());
      }
    }

    /** What happens elsewhere leaves the table valid. */
    twostate lemma StaysValid()
      requires old(Valid()) == true
      requires forall d :: 0 <= d < |entries| ==> unchanged(entries[d])
      requires forall d, r :: 0 <= d < |entries| && r in entries[d].refs ==> old(r.next) == r.next
      ensures Valid() == true
    {
      forall d | 0 <= d < buckets
        ensures entries[d].Valid()
      {
        assert old(entries[d].Valid());
      }
    }

    /** appendClauseChain() on one bucket; the others stay. */
    method AppendTo(b: nat, c: Clause, start: bool)
      requires Valid() && b < buckets
      modifies entries[b], entries[b].refs
      ensures Valid() && entries[b].Longer(c, start)
      ensures entries[b].Clauses() == if start then [c] + old(entries[b].Clauses()) else old(entries[b].Clauses()) + [c]
      ensures entries[b].dirty == old(entries[b].dirty)
      ensures forall d :: 0 <= d < buckets && d != b ==> entries[d].refs == old(entries[d].refs) && entries[d].dirty == old(entries[d].dirty)
      ensures forall r :: r in entries[b].refs ==> r in old(entries[b].refs) || fresh(r)
    {
      hide ClausesOf, ClauseChain.Longer;
      CellsApart();
      entries[b].Append(c, start);
      OthersValid(b);
    }

    /** deleteClauseChain() on one bucket */
    method DeleteFrom(b: nat, c: Clause)
      requires Valid() && b < buckets && Distinct(entries[b].Clauses())
      modifies entries[b], entries[b].refs
      ensures Valid()
      ensures entries[b].Clauses() == Minus(old(entries[b].Clauses()), c) && entries[b].dirty == old(entries[b].dirty)
      ensures forall d :: 0 <= d < buckets && d != b ==> entries[d].refs == old(entries[d].refs) && entries[d].dirty == old(entries[d].dirty)
      ensures forall r :: r in entries[b].refs ==> r in old(entries[b].refs)
    {
      CellsApart();
      entries[b].Delete(c);
      OthersValid(b);
    }

    /** gcClauseChain() on one bucket */
    method CollectFrom(b: nat, left: int) returns (deleted: nat)
      requires Valid() && b < buckets
      requires var s := entries[b].Clauses(); left < 0 || (left == DeadCount(s) && forall c :: c in s && c.dead ==> c.index.varmask != 0)
      modifies entries[b], entries[b].refs
      ensures Valid() && deleted == if left < 0 then 0 else left
      ensures entries[b].Clauses() == old(Alive(entries[b].Clauses())) && entries[b].dirty == 0
      ensures forall d :: 0 <= d < buckets && d != b ==> entries[d].refs == old(entries[d].refs) && entries[d].dirty == old(entries[d].dirty)
      ensures forall r :: r in entries[b].refs ==> r in old(entries[b].refs)
    {
      CellsApart();
      deleted := entries[b].Gc(left);
      OthersValid(b);
    }

    // ---------- the invariant

    /** Unless all chains need to be looked at, each knows its number of erased clauses, which are
        indexed, and the size is the number of indexed clauses. */
    ghost predicate Counts(list: seq<Clause>)
      reads this, entries, list
    {
      buckets > 0 && |entries| == buckets &&
      (!alldirty ==>
         && size == IndexedCount(list) && DeadIndexed(list)
         && forall b :: 0 <= b < buckets ==> entries[b].dirty == DeadCountIn(list, b, buckets))
    }

    /** All cells are old or new ones. */
    twostate predicate Grown()
      reads entries
    {
      forall d, r :: 0 <= d < |entries| && r in entries[d].refs ==> r in old(entries[d].refs) || fresh(r)
    }

    /** Appends a clause that is not indexed to all buckets. */
    method AddToAll(c: Clause, start: bool, ghost list: seq<Clause>)
      requires Valid() && Holds(list) && c.index.varmask == 0
      modifies entries, Cells()
      ensures Valid() && Grown() && forall d :: 0 <= d < buckets ==> entries[d].Longer(c, start)
      ensures Holds(Extended(list, c, start)) && forall d :: 0 <= d < buckets ==> entries[d].dirty == old(entries[d].dirty)
    {
      hide Bucket, ClausesOf, Extended, Cells, In, Linked, ClauseChain.Valid;
      ghost var now := Extended(list, c, start);
      var i := 0;
      while i < buckets
        invariant 0 <= i <= buckets && Valid()
        invariant forall d :: 0 <= d < i ==> entries[d].Clauses() == Bucket(now, d, buckets) && entries[d].Longer(c, start)
        invariant forall d :: i <= d < buckets ==> entries[d].refs == old(entries[d].refs)
        invariant forall d :: 0 <= d < buckets ==> entries[d].dirty == old(entries[d].dirty)
        invariant Grown()
      {
        CellsIn(i);
        HashIn(c.index, buckets);
        AddedBucket(list, c, start, i, buckets);
        AppendTo(i, c, start);
        i := i + 1;
      }
    }

    lemma ValidShape()
      requires Valid()
      ensures buckets > 0 && |entries| == buckets
    {
    }

    lemma CellsAre()
      ensures forall r :: r in Cells() ==> exists d :: 0 <= d < |entries| && r in entries[d].refs
    {
    }

    /** The cells of a bucket that has not changed are among the old ones. */
    twostate lemma CellsIn(b: nat)
      requires b < |entries| && entries[b].refs == old(entries[b].refs)
      ensures forall r :: r in entries[b].refs ==> r in old(Cells())
    {
    }

    /** Appends an indexed clause to its bucket. */
    method AddToOne(c: Clause, start: bool, ghost list: seq<Clause>)
      requires Valid() && Holds(list) && c.index.varmask != 0
      modifies this`size, entries, Cells()
      ensures Valid() && Grown() && size == old(size) + 1 && forall d :: 0 <= d < buckets ==> entries[d].Longer(c, start)
      ensures Holds(Extended(list, c, start)) && forall d :: 0 <= d < buckets ==> entries[d].dirty == old(entries[d].dirty)
    {
      hide Bucket, ClausesOf, Extended, Cells, In;
      var hi := HashIndex(c.index.key, buckets);
      CellsIn(hi);
      HashIn(c.index, buckets);
      AppendTo(hi, c, start);
      forall d | 0 <= d < buckets
        ensures entries[d].Clauses() == Bucket(Extended(list, c, start), d, buckets)
      {
        AddedBucket(list, c, start, d, buckets);
      }
      size := size + 1;
    }

    /** As long as no clause is erased, the counts are the same. */
    twostate lemma {:induction false} StillDead(list: seq<Clause>)
      requires buckets > 0 && forall c :: c in list ==> c.dead == old(c.dead)
      ensures DeadIndexed(list) <==> old(DeadIndexed(list))
      ensures forall b :: 0 <= b < buckets ==> DeadCountIn(list, b, buckets) == old(DeadCountIn(list, b, buckets))
      decreases |list|
    {
      if list != [] {
        StillDead(list[1..]);
      }
    }

    lemma {:induction false} CountsAre(list: seq<Clause>)
      ensures Counts(list) <==>
                && buckets > 0 && |entries| == buckets
                && (!alldirty ==> size == IndexedCount(list) && DeadIndexed(list))
                && (!alldirty ==> forall b :: 0 <= b < buckets ==> entries[b].dirty == DeadCountIn(list, b, buckets))
    {
    }

    /** pl-index.c, addClauseToIndex() */
    method Add(c: Clause, start: bool, ghost list: seq<Clause>)
      requires Valid() && Holds(list) && Counts(list) && !c.dead
      modifies this`size, entries, Cells()
      ensures Valid() && Grown() && alldirty == old(alldirty) && forall d :: 0 <= d < buckets ==> entries[d].Longer(c, start)
      ensures Holds(Extended(list, c, start)) && Counts(Extended(list, c, start))
    {
      hide *;
      CountsAre(list);
      ValidShape();
      if c.index.varmask == 0 {
        AddToAll(c, start, list);
      } else {
        AddToOne(c, start, list);
      }
      AddedCount(list, c, start, buckets);
      StillDead(list);
      CountsAre(Extended(list, c, start));
    }

    method DeleteFromAll(c: Clause, ghost list: seq<Clause>)
      requires Valid() && Holds(list) && Distinct(list) && c.index.varmask == 0
      modifies entries, Cells()
      ensures Valid() && Grown()
      ensures Holds(Minus(list, c)) && forall d :: 0 <= d < buckets ==> entries[d].dirty == old(entries[d].dirty)
    {
      var i := 0;
      while i < buckets
        invariant 0 <= i <= buckets && Valid()
        invariant forall d :: 0 <= d < i ==> entries[d].Clauses() == Bucket(Minus(list, c), d, buckets)
        invariant forall d :: i <= d < buckets ==> entries[d].refs == old(entries[d].refs)
        invariant forall d :: 0 <= d < buckets ==> entries[d].dirty == old(entries[d].dirty)
        invariant Grown()
      {
        hide Bucket, ClausesOf, Minus, Cells, In;
        CellsIn(i);
        BucketMinus(list, c, i, buckets);
        BucketDistinct(list, i, buckets);
        DeleteFrom(i, c);
        i := i + 1;
      }
    }

    method DeleteFromOne(c: Clause, ghost list: seq<Clause>)
      requires Valid() && Holds(list) && Distinct(list) && c.index.varmask != 0
      modifies this`size, entries, Cells()
      ensures Valid() && Grown() && size == old(size) - 1
      ensures Holds(Minus(list, c)) && forall d :: 0 <= d < buckets ==> entries[d].dirty == old(entries[d].dirty)
    {
      hide Bucket, ClausesOf, Minus, Distinct, Cells;
      var hi := HashIndex(c.index.key, buckets);
      CellsIn(hi);
      BucketDistinct(list, hi, buckets);
      DeleteFrom(hi, c);
      forall d | 0 <= d < buckets
        ensures entries[d].Clauses() == Bucket(Minus(list, c), d, buckets)
      {
        BucketMinus(list, c, d, buckets);
        if d != hi {
          NotInBucket(list, c, d, buckets);
        }
      }
      size := size - 1;
    }

    /** pl-index.c, delClauseFromIndex() */
    method Remove(c: Clause, ghost list: seq<Clause>)
      requires Valid() && Holds(list) && Counts(list) && Distinct(list) && c in list && !c.dead
      modifies this`size, entries, Cells()
      ensures Valid() && Grown() && alldirty == old(alldirty)
      ensures Holds(Minus(list, c)) && Counts(Minus(list, c))
    {
      hide *;
      CountsAre(list);
      ValidShape();
      if c.index.varmask == 0 {
        DeleteFromAll(c, list);
      } else {
        DeleteFromOne(c, list);
      }
      IndexedMinus(list, c);
      SplitDead(list, c, buckets);
      StillDead(list);
      CountsAre(Minus(list, c));
    }

    /** pl-index.c, markDirtyClauseIndex() */
    method MarkDirty(c: Clause)
      requires Valid()
      modifies this`alldirty, entries`dirty
      ensures Valid() && forall d :: 0 <= d < buckets ==> entries[d].refs == old(entries[d].refs)
      ensures alldirty == (old(alldirty) || c.index.varmask == 0)
      ensures c.index.varmask != 0 ==>
                forall d :: 0 <= d < buckets ==> entries[d].dirty == old(entries[d].dirty) + if In(c.index, d, buckets) then 1 else 0
    {
      if c.index.varmask == 0 {
        alldirty := true;
      } else {
        var hi := HashIndex(c.index.key, buckets);
        entries[hi].dirty := entries[hi].dirty + 1;
        OthersValid(hi);
      }
    }

    /** Erases a clause of a predicate that is in use (pl-proc.c, retractClauseProcedure()). */
    method Erase(c: Clause, generation: nat, ghost list: seq<Clause>)
      requires Valid() && Holds(list) && Counts(list) && Distinct(list) && c in list && !c.dead
      modifies c`dead, c`erased, this`alldirty, entries`dirty
      ensures Valid() && Holds(list) && Counts(list) && c.dead && c.erased == generation
      ensures forall d :: 0 <= d < buckets ==> entries[d].refs == old(entries[d].refs)
    {
      hide Bucket, Minus, IndexedCount, DeadCountIn, DeadIndexed, Distinct, In, ClausesOf;
      SplitDead(list, c, buckets);
      c.dead := true;
      MarkDirty(c);
      c.erased := generation;
      NotInMinus(list, c);
      StillDead(Minus(list, c));
      SplitDead(list, c, buckets);
    }

    /** The erased clauses of one bucket. */
    method CollectBucket(b: nat, ghost list: seq<Clause>)
      requires Valid() && b < buckets && Distinct(list) && entries[b].Clauses() == Bucket(list, b, buckets)
      requires !alldirty ==> DeadIndexed(list) && entries[b].dirty == DeadCountIn(list, b, buckets)
      modifies this`size, entries[b], entries[b].refs
      ensures Valid() && entries[b].Clauses() == Bucket(Alive(list), b, buckets) && (!alldirty ==> entries[b].dirty == 0)
      ensures size == old(size) - if alldirty then 0 else DeadSum(list, b + 1, buckets) - DeadSum(list, b, buckets)
      ensures forall d :: 0 <= d < buckets && d != b ==> entries[d].refs == old(entries[d].refs) && entries[d].dirty == old(entries[d].dirty)
      ensures forall r :: r in entries[b].refs ==> r in old(entries[b].refs)
    {
      hide Bucket, ClausesOf, Alive, DeadCount, DeadCountIn, DeadIndexed, Distinct, DeadSum;
      BucketDead(list, b, buckets);
      if alldirty {
        var deleted := CollectFrom(b, -1);
        size := size - deleted;
      } else if entries[b].dirty != 0 {
        var deleted := CollectFrom(b, entries[b].dirty);
        size := size - deleted;
      }
    }

    /** The loop of gcClauseIndex(). */
    method CollectAll(ghost list: seq<Clause>)
      requires Valid() && Holds(list) && Distinct(list) == true
      requires !alldirty ==> DeadIndexed(list) == true && forall b :: 0 <= b < buckets ==> entries[b].dirty == DeadCountIn(list, b, buckets)
      modifies this`size, entries, Cells()
      ensures Valid() && Grown() && Holds(Alive(list))
      ensures !alldirty ==> forall d :: 0 <= d < buckets ==> entries[d].dirty == 0
      ensures size == old(size) - if alldirty then 0 else DeadSum(list, buckets, buckets)
    {
      hide Bucket, ClausesOf, Alive, DeadCount, DeadCountIn, DeadIndexed, Distinct, IndexedCount, DeadSum, Cells, Counts, Linked, ClauseChain.Valid;
      var i := 0;
      NothingSummed(list, buckets);
      while i < buckets
        invariant 0 <= i <= buckets && Valid()
        invariant forall d :: 0 <= d < i ==> entries[d].Clauses() == Bucket(Alive(list), d, buckets) && (!alldirty ==> entries[d].dirty == 0)
        invariant forall d :: i <= d < buckets ==> entries[d].refs == old(entries[d].refs) && entries[d].dirty == old(entries[d].dirty)
        invariant size == old(size) - if alldirty then 0 else DeadSum(list, i, buckets)
        invariant Grown()
      {
        CellsIn(i);
        CollectBucket(i, list);
        i := i + 1;
      }
    }

    /** pl-index.c, gcClauseIndex(): removes all erased clauses and no others. */
    method Collect(ghost list: seq<Clause>)
      requires Valid() && Holds(list) && Counts(list) && Distinct(list)
      modifies this`size, entries, Cells()
      ensures Valid() && Grown() && alldirty == old(alldirty)
      ensures Holds(Alive(list)) && Counts(Alive(list))
      ensures alldirty ==> size == old(size)
    {
      hide *;
      CountsAre(list);
      ValidShape();
      CollectAll(list);
      AliveCounts(list, buckets);
      CountsAre(Alive(list));
    }
  }

  /** The index and all that it consists of is new. */
  twostate predicate AllNew(new ci: ClauseIndex)
    reads ci, ci.entries
  {
    && fresh(ci) && (forall ch :: ch in ci.entries ==> fresh(ch))
    && forall d, r :: 0 <= d < |ci.entries| && r in ci.entries[d].refs ==> fresh(r)
  }

  /** pl-index.c, hashDefinition(): a new table for the clauses that are not erased. */
  method HashDefinition(clauses: seq<Clause>, buckets: nat) returns (ci: ClauseIndex)
    ensures fresh(ci) && ci.Valid() && ci.Holds(Alive(clauses)) && ci.Counts(Alive(clauses)) && !ci.alldirty
  {
    hide Bucket, ClausesOf, Alive, Extended, DeadCountIn, IndexedCount, DeadIndexed, In, ClauseIndex.Cells, ClauseIndex.Counts, ClauseIndex.Holds, ClauseIndex.Valid;
    ci := new ClauseIndex(buckets);
    NothingAlive();
    assert clauses[..0] == [];
    var i := 0;
    while i < |clauses|
      invariant 0 <= i <= |clauses| && AllNew(ci) && !ci.alldirty
      invariant ci.Valid() == true && ci.Holds(Alive(clauses[..i])) == true && ci.Counts(Alive(clauses[..i])) == true
    {
      AliveNext(clauses, i);
      if !clauses[i].dead {
        ci.CellsAre();
        ci.Add(clauses[i], false, Alive(clauses[..i]));
      }
      i := i + 1;
    }
    assert clauses[..i] == clauses;
  }

  lemma {:induction false} NothingAlive()
    ensures Alive([]) == []
  {
  }

  lemma AliveNext(list: seq<Clause>, i: nat)
    requires i < |list|
    ensures Alive(list[..i + 1]) == if list[i].dead then Alive(list[..i]) else Extended(Alive(list[..i]), list[i], false)
  {
    assert list[..i + 1] == list[..i] + [list[i]];
    AliveJoins(list[..i], [list[i]]);
    AliveOne(list[i]);
  }

  /** The list with a clause more. */
  ghost function Extended(list: seq<Clause>, c: Clause, start: bool): seq<Clause> {
    if start then [c] + list else list + [c]
  }

  lemma {:induction false} AddedBucket(list: seq<Clause>, c: Clause, start: bool, b: nat, buckets: nat)
    requires buckets > 0
    ensures var now, was := Bucket(Extended(list, c, start), b, buckets), Bucket(list, b, buckets);
            now == if !In(c.index, b, buckets) then was else if start then [c] + was else was + [c]
  {
    hide In, Bucket;
    BucketJoins([c], list, b, buckets);
    BucketJoins(list, [c], b, buckets);
    BucketOne(c, b, buckets);
  }

  lemma {:induction false} DeadJoins(x: seq<Clause>, y: seq<Clause>, b: nat, buckets: nat)
    requires buckets > 0
    ensures DeadCountIn(x + y, b, buckets) == DeadCountIn(x, b, buckets) + DeadCountIn(y, b, buckets)
    decreases |x|
  {
    hide In;
    if x == [] {
      assert x + y == y;
    } else {
      assert (x + y)[1..] == x[1..] + y;
      DeadJoins(x[1..], y, b, buckets);
    }
  }

  lemma {:induction false} DeadOne(c: Clause, b: nat, buckets: nat)
    requires buckets > 0
    ensures DeadCountIn([c], b, buckets) == if c.dead && In(c.index, b, buckets) then 1 else 0
  {
    hide In;
    assert [c][1..] == [];
  }

  lemma AddedCount(list: seq<Clause>, c: Clause, start: bool, buckets: nat)
    requires buckets > 0 && !c.dead
    ensures IndexedCount(Extended(list, c, start)) == IndexedCount(list) + if c.index.varmask != 0 then 1 else 0
    ensures DeadIndexed(Extended(list, c, start)) <==> DeadIndexed(list)
    ensures forall b :: 0 <= b < buckets ==> DeadCountIn(Extended(list, c, start), b, buckets) == DeadCountIn(list, b, buckets)
  {
    IndexedJoins([c], list);
    IndexedJoins(list, [c]);
    IndexedOne(c);
    forall b | 0 <= b < buckets
      ensures DeadCountIn(Extended(list, c, start), b, buckets) == DeadCountIn(list, b, buckets)
    {
      hide DeadCountIn;
      DeadJoins([c], list, b, buckets);
      DeadJoins(list, [c], b, buckets);
      DeadOne(c, b, buckets);
    }
  }

  lemma {:induction false} NotInBucket(list: seq<Clause>, c: Clause, b: nat, buckets: nat)
    requires buckets > 0 && Distinct(list) && !In(c.index, b, buckets)
    ensures Minus(Bucket(list, b, buckets), c) == Bucket(list, b, buckets)
  {
    hide In;
    BucketDistinct(list, b, buckets);
    NothingLess(Bucket(list, b, buckets), c);
  }

  lemma HashIn(i: Index, buckets: nat)
    requires buckets > 0
    ensures forall b :: In(i, b, buckets) <==> i.varmask == 0 || b == HashIndex(i.key, buckets)
  {
  }

  lemma {:induction false} NotInMinus(list: seq<Clause>, c: Clause)
    ensures c !in Minus(list, c)
    decreases |list|
  {
    if list != [] {
      NotInMinus(list[..|list| - 1], c);
    }
  }

  lemma DeadIndexedJoins(x: seq<Clause>, y: seq<Clause>)
    ensures DeadIndexed(x + y) <==> DeadIndexed(x) && DeadIndexed(y)
  {
    assert forall i :: 0 <= i < |y| ==> y[i] == (x + y)[|x| + i];
    assert forall i :: 0 <= i < |x| ==> x[i] == (x + y)[i];
  }

  /** The erased clauses of a list are those without c, and c. */
  lemma SplitDead(list: seq<Clause>, c: Clause, buckets: nat)
    requires buckets > 0 && Distinct(list) && c in list
    ensures DeadIndexed(list) <==> DeadIndexed(Minus(list, c)) && (c.dead ==> c.index.varmask != 0)
    ensures forall b :: 0 <= b < buckets ==>
              DeadCountIn(list, b, buckets) == DeadCountIn(Minus(list, c), b, buckets) + if c.dead && In(c.index, b, buckets) then 1 else 0
  {
    hide DeadCountIn, In, Distinct;
    SplitIndexed(list, c);
    forall b | 0 <= b < buckets
      ensures DeadCountIn(list, b, buckets) == DeadCountIn(Minus(list, c), b, buckets) + if c.dead && In(c.index, b, buckets) then 1 else 0
    {
      SplitDeadIn(list, c, b, buckets);
    }
  }

  lemma {:induction false} SplitIndexed(list: seq<Clause>, c: Clause)
    requires Distinct(list) && c in list
    ensures DeadIndexed(list) <==> DeadIndexed(Minus(list, c)) && (c.dead ==> c.index.varmask != 0)
  {
    var i :| 0 <= i < |list| && list[i] == c;
    var x, y := list[..i], list[i + 1..];
    assert list == x + [c] + y;
    assert DeadIndexed([c]) <==> (c.dead ==> c.index.varmask != 0) by { assert [c][0] == c; }
    hide *;
    NotElsewhere(list, i);
    OneClauseLess(x, y, c);
    DeadIndexedJoins(x + [c], y);
    DeadIndexedJoins(x, [c]);
    DeadIndexedJoins(x, y);
  }

  lemma {:induction false} SplitDeadIn(list: seq<Clause>, c: Clause, b: nat, buckets: nat)
    requires buckets > 0 && Distinct(list) && c in list
    ensures DeadCountIn(list, b, buckets) == DeadCountIn(Minus(list, c), b, buckets) + if c.dead && In(c.index, b, buckets) then 1 else 0
  {
    var i :| 0 <= i < |list| && list[i] == c;
    var x, y := list[..i], list[i + 1..];
    assert list == x + [c] + y;
    hide *;
    NotElsewhere(list, i);
    OneClauseLess(x, y, c);
    DeadJoins(x + [c], y, b, buckets);
    DeadJoins(x, [c], b, buckets);
    DeadJoins(x, y, b, buckets);
    DeadOne(c, b, buckets);
  }

  lemma {:induction false} BucketIndexed(list: seq<Clause>, b: nat, buckets: nat)
    requires buckets > 0 && DeadIndexed(list)
    ensures forall c :: c in Bucket(list, b, buckets) && c.dead ==> c.index.varmask != 0
    decreases |list|
  {
    hide In;
    if list != [] {
      assert list == [list[0]] + list[1..];
      DeadIndexedJoins([list[0]], list[1..]);
      BucketIndexed(list[1..], b, buckets);
    }
  }

  /** What is erased in a bucket. */
  lemma {:induction false} BucketDead(list: seq<Clause>, b: nat, buckets: nat)
    requires buckets > 0 && Distinct(list)
    ensures var s := Bucket(list, b, buckets);
            && DeadCount(s) == DeadCountIn(list, b, buckets) && Alive(s) == Bucket(Alive(list), b, buckets)
            && (DeadIndexed(list) ==> forall c :: c in s && c.dead ==> c.index.varmask != 0)
            && (DeadCount(s) == 0 ==> Alive(s) == s)
            && DeadSum(list, b + 1, buckets) == DeadSum(list, b, buckets) + DeadCountIn(list, b, buckets)
  {
    hide Bucket, Alive, DeadCount, Distinct, In;
    if DeadIndexed(list) {
      BucketIndexed(list, b, buckets);
    }
    DeadInBucket(list, b, buckets);
    BucketAlive(list, b, buckets);
    if DeadCount(Bucket(list, b, buckets)) == 0 {
      AllAlive(Bucket(list, b, buckets));
    }
  }

  lemma {:induction false} NothingSummed(list: seq<Clause>, buckets: nat)
    requires buckets > 0
    ensures DeadSum(list, 0, buckets) == 0
  {
  }

  lemma {:induction false} NoneIn(list: seq<Clause>, b: nat, buckets: nat)
    requires buckets > 0
    ensures DeadCountIn(Alive(list), b, buckets) == 0
    decreases |list|
  {
    if list != [] {
      NoneIn(list[1..], b, buckets);
      hide Alive, DeadCountIn, In;
      AliveOne(list[0]);
      assert list == [list[0]] + list[1..];
      AliveJoins([list[0]], list[1..]);
      DeadJoins(Alive([list[0]]), Alive(list[1..]), b, buckets);
      DeadOne(list[0], b, buckets);
      NoneInNothing(b, buckets);
    } else {
      NoneInNothing(b, buckets);
    }
  }

  lemma {:induction false} NoneInNothing(b: nat, buckets: nat)
    requires buckets > 0
    ensures DeadCountIn([], b, buckets) == 0 && Alive([]) == []
  {
  }

  lemma {:induction false} AliveMembers(list: seq<Clause>)
    ensures forall i :: 0 <= i < |Alive(list)| ==> !Alive(list)[i].dead
    decreases |list|
  {
    if list != [] {
      AliveMembers(list[1..]);
    }
  }

  lemma {:induction false} AliveCounts(list: seq<Clause>, buckets: nat)
    requires buckets > 0
    ensures DeadIndexed(Alive(list)) && forall b :: 0 <= b < buckets ==> DeadCountIn(Alive(list), b, buckets) == 0
    ensures DeadIndexed(list) ==> IndexedCount(Alive(list)) == IndexedCount(list) - DeadSum(list, buckets, buckets)
  {
    AliveMembers(list);
    if DeadIndexed(list) {
      DeadSumAll(list, buckets);
    }
    forall b | 0 <= b < buckets
      ensures DeadCountIn(Alive(list), b, buckets) == 0
    {
      NoneIn(list, b, buckets);
    }
  }
}
