/** The chains of free blocks that the heap allocator keeps inside the memory it manages
    (pl-alloc.c): they are linked through the first word of the blocks. A memory is the words
    that have been stored, by address; 0 is NULL. */
module HeapLinks {

  ghost function At(s: seq<int>, i: int): int {
    if 0 <= i < |s| then s[i] else 0
  }

  ghost predicate Link(memory: map<int, int>, chain: seq<int>, i: int) {
    0 <= i < |chain| && chain[i] > 0 && chain[i] in memory && memory[chain[i]] == At(chain, i + 1)
  }

  ghost predicate Chained(memory: map<int, int>, head: int, chain: seq<int>) {
    head == At(chain, 0) && forall i :: 0 <= i < |chain| ==> Link(memory, chain, i)
  }

  ghost predicate Chains(memory: map<int, int>, heads: seq<int>, chains: seq<seq<int>>) {
    |heads| == |chains| && forall m :: 0 <= m < |chains| ==> Chained(memory, heads[m], chains[m])
  }

  /** A word that is in no chain changes. */
  lemma Stored(memory: map<int, int>, heads: seq<int>, chains: seq<seq<int>>, x: int, v: int)
    requires Chains(memory, heads, chains) && forall m :: 0 <= m < |chains| ==> x !in chains[m]
    ensures Chains(memory[x := v], heads, chains)
  {
    var now := memory[x := v];
    forall m | 0 <= m < |chains|
      ensures Chained(now, heads[m], chains[m])
    {
      assert Chained(memory, heads[m], chains[m]);
      forall i | 0 <= i < |chains[m]|
        ensures Link(now, chains[m], i)
      {
        assert Link(memory, chains[m], i);
      }
    }
  }

  lemma Popped(memory: map<int, int>, heads: seq<int>, chains: seq<seq<int>>, m: nat)
    requires Chains(memory, heads, chains) && m < |chains| && chains[m] != []
    ensures heads[m] == chains[m][0] && heads[m] in memory
    ensures Chains(memory, heads[m := memory[heads[m]]], chains[m := chains[m][1..]])
  {
    var chain, now := chains[m], chains[m][1..];
    assert Chained(memory, heads[m], chain) && Link(memory, chain, 0);
    forall i | 0 <= i < |now|
      ensures Link(memory, now, i)
    {
      assert Link(memory, chain, i + 1);
    }
    assert Chained(memory, memory[chain[0]], now);
  }

  lemma Pushed(memory: map<int, int>, heads: seq<int>, chains: seq<seq<int>>, m: nat, x: int)
    requires Chains(memory, heads, chains) && m < |chains| && x > 0 && x in memory && memory[x] == heads[m]
    ensures Chains(memory, heads[m := x], chains[m := [x] + chains[m]])
  {
    var chain, now := chains[m], [x] + chains[m];
    assert Chained(memory, heads[m], chain);
    forall i | 0 <= i < |now|
      ensures Link(memory, now, i)
    {
      assert i > 0 ==> Link(memory, chain, i - 1);
    }
    assert Chained(memory, x, now);
  }
}
