/** Atoms, and the chains of the atom hash table (pl-atom.c). */
module AtomBuckets {

  class Atom {
    const name: string
    const handle: nat        // its place in the atom array
    var references: nat      // without the bit that marks it
    var marked: bool         // ATOM_MARKED_REFERENCE
    var next: Atom?
    ghost var home: Bucket?  // the chain that it is in

    constructor (name: string, handle: nat)
      ensures this.name == name && this.handle == handle && references == 1 && !marked && next == null && home == null
    {
      this.name, this.handle, references, marked, next, home := name, handle, 1, false, null, null;
    }
  }

  /** The atom at place i, or none behind the last one. */
  ghost function At(s: seq<Atom>, i: nat): Atom? {
    if i < |s| then s[i] else null
  }

  /** s without its place i */
  ghost function Cut(s: seq<Atom>, i: nat): seq<Atom>
    requires i < |s|
  {
    s[..i] + s[i + 1..]
  }

  class Bucket {
    var head: Atom?
    ghost var members: seq<Atom>

    ghost predicate Valid()
      reads this, members
    {
      && head == At(members, 0)
      && (forall i {:trigger members[i].next} :: 0 <= i < |members| ==> members[i].next == At(members, i + 1))
      && (forall i, j :: 0 <= i < j < |members| ==> members[i] != members[j])
      && (forall a :: a in members ==> a.home == this)
    }

    constructor ()
      ensures Valid() && members == []
    {
      head, members := null, [];
    }

    /** a->next = atomTable[v]; atomTable[v] = a; */
    method Push(a: Atom)
      requires Valid() && a !in members
      modifies this, a`next, a`home
      ensures Valid() && members == [a] + old(members)
    {
      ghost var was := members;
      a.next := head;
      a.home := this;
      head := a;
      members := [a] + was;
      assert forall i :: 0 <= i < |was| ==> members[i + 1] == was[i];
    }

    /** The loop of lookupAtom(). */
    method Find(s: string) returns (a: Atom?)
      requires Valid()
      ensures a != null ==> a in members && a.name == s
      ensures a == null ==> forall m :: m in members ==> m.name != s
    {
      a := head;
      ghost var i := 0;
      while a != null
        invariant 0 <= i <= |members| && a == At(members, i)
        invariant forall k :: 0 <= k < i ==> members[k].name != s
        decreases |members| - i
      {
        if |a.name| == |s| && a.name == s {
          return;
        }
        a := a.next;
        i := i + 1;
      }
    }

    /** The loop of collectAtoms() that deletes an atom from its chain. */
    method Remove(a: Atom)
      requires Valid() && a in members
      modifies this, members`next
      ensures Valid()
      ensures forall m :: m in members <==> m in old(members) && m != a
    {
      ghost var was := members;
      var prev: Atom?, c := null, head;
      ghost var i := 0;
      while c != a
        invariant 0 <= i < |was| && c == was[i] && a in was[i..]
        invariant prev == (if i == 0 then null else was[i - 1])
        decreases |was| - i
      {
        assert a in was[i + 1..];
        prev := c;
        c := c.next;
        i := i + 1;
      }
      members := Cut(was, i);
      assert forall k :: 0 <= k < i ==> members[k] == was[k];
      assert forall k :: i <= k < |members| ==> members[k] == was[k + 1];
      if prev == null {
        head := a.next;
      } else {
        prev.next := a.next;
      }
      CutMembers(was, i);
    }
  }

  lemma CutMembers(s: seq<Atom>, i: nat)
    requires i < |s| && forall j, k :: 0 <= j < k < |s| ==> s[j] != s[k]
    ensures forall m :: m in Cut(s, i) <==> m in s && m != s[i]
  {
    assert s == s[..i] + [s[i]] + s[i + 1..];
  }
}
