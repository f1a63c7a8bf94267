/** The atom array with its holes, the hash table and atom garbage collection (pl-atom.c). */
module AtomTables {
  import opened AtomBuckets

  /** The number of places that are not holes. */
  function Live(atoms: seq<Atom?>): (n: nat)
    ensures n <= |atoms|
  {
    if atoms == [] then 0 else Live(atoms[..|atoms| - 1]) + if atoms[|atoms| - 1] != null then 1 else 0
  }

  lemma {:induction false} LiveSet(atoms: seq<Atom?>, n: nat, a: Atom?)
    requires n < |atoms|
    ensures Live(atoms[n := a]) == Live(atoms) + (if a != null then 1 else 0) - if atoms[n] != null then 1 else 0
    decreases |atoms|
  {
    var m := |atoms| - 1;
    if n < m {
      assert atoms[n := a][..m] == atoms[..m][n := a];
      LiveSet(atoms[..m], n, a);
    } else {
      assert atoms[n := a][..m] == atoms[..m];
    }
  }

  lemma {:induction false} LiveAdd(atoms: seq<Atom?>, a: Atom)
    ensures Live(atoms + [a]) == Live(atoms) + 1
  {
    assert (atoms + [a])[..|atoms|] == atoms;
  }

  lemma {:induction false} LiveFull(atoms: seq<Atom?>)
    ensures Live(atoms) == |atoms| <==> forall n :: 0 <= n < |atoms| ==> atoms[n] != null
    decreases |atoms|
  {
    if atoms != [] {
      LiveFull(atoms[..|atoms| - 1]);
    }
  }

  // ---------- hash tables

  ghost function MembersOf(tab: seq<Bucket>): set<Atom>
    reads tab
  {
    set v, k | 0 <= v < |tab| && 0 <= k < |tab[v].members| :: tab[v].members[k]
  }

  ghost function AtomsOf(atoms: seq<Atom?>): set<Atom> {
    set n | 0 <= n < |atoms| && atoms[n] != null :: atoms[n]
  }

  /** A hash table whose chains are in order. */
  ghost predicate Sound(tab: seq<Bucket>)
    reads tab, MembersOf(tab)
  {
    && (forall v, w :: 0 <= v < w < |tab| ==> tab[v] != tab[w])
    && (forall v :: 0 <= v < |tab| ==> tab[v].Valid())
  }

  ghost function ChainsOf(tab: seq<Bucket>): (c: seq<seq<Atom>>)
    reads tab
    ensures |c| == |tab| && forall v :: 0 <= v < |tab| ==> c[v] == tab[v].members
  {
    seq(|tab|, v requires 0 <= v < |tab| reads tab => tab[v].members)
  }

  /** A new atom goes to the front of a chain; the other chains stay. */
  method Enter(tab: seq<Bucket>, v: nat, a: Atom)
    requires Sound(tab) && v < |tab| && forall w :: 0 <= w < |tab| ==> a !in tab[w].members
    modifies tab[v], a`next, a`home
    ensures Sound(tab) && ChainsOf(tab) == old(ChainsOf(tab))[v := [a] + old(tab[v].members)]
  {
    tab[v].Push(a);
  }

  lemma Apart(tab: seq<Bucket>, v: nat)
    requires Sound(tab) && v < |tab|
    ensures forall w, m :: 0 <= w < |tab| && w != v && m in tab[w].members ==> m !in tab[v].members
  {
    forall w, m | 0 <= w < |tab| && w != v && m in tab[w].members
      ensures m !in tab[v].members
    {
      assert tab[w].Valid() && tab[v].Valid() && tab[w] != tab[v];
    }
  }

  /** An atom leaves its chain; the other chains stay. */
  method Leave(tab: seq<Bucket>, v: nat, a: Atom)
    requires Sound(tab) && v < |tab| && a in tab[v].members
    modifies tab[v], tab[v].members`next
    ensures Sound(tab) && ChainsOf(tab) == old(ChainsOf(tab))[v := tab[v].members]
    ensures forall m :: m in tab[v].members <==> m in old(tab[v].members) && m != a
  {
    Apart(tab, v);
    ghost var gone := tab[v].members;
    tab[v].Remove(a);
    forall w | 0 <= w < |tab| && w != v
      ensures tab[w].Valid()
    {
      assert old(tab[w].Valid());
      assert forall k :: 0 <= k < |tab[w].members| ==> tab[w].members[k] !in gone;
      assert forall k :: 0 <= k < |tab[w].members| ==> tab[w].members[k].next == old(tab[w].members[k].next);
    }
  }

  /** The chains hold the first n atoms of the array: every atom of a chain is in the array at
      its handle, and every atom is in the chain of its text. */
  ghost predicate Holds(chains: seq<seq<Atom>>, atoms: seq<Atom?>, n: nat, hash: string -> nat)
    requires chains != [] && n <= |atoms|
  {
    && (forall v, a :: 0 <= v < |chains| && a in chains[v] ==> a.handle < n && atoms[a.handle] == a && hash(a.name) % |chains| == v)
    && (forall i :: 0 <= i < n && atoms[i] != null ==> atoms[i].handle == i && atoms[i] in chains[hash(atoms[i].name) % |chains|])
  }

  lemma HoldsNext(chains: seq<seq<Atom>>, atoms: seq<Atom?>, n: nat, a: Atom, hash: string -> nat)
    requires chains != [] && n < |atoms| && Holds(chains, atoms, n, hash) && atoms[n] == a && a.handle == n
    ensures var v := hash(a.name) % |chains|; Holds(chains[v := [a] + chains[v]], atoms, n + 1, hash)
    ensures forall v :: 0 <= v < |chains| ==> a !in chains[v]
  {
  }

  /** The array with an atom more. */
  ghost predicate Placed(was: seq<Atom?>, now: seq<Atom?>, a: Atom) {
    a.handle <= |was| && if a.handle < |was| then was[a.handle] == null && now == was[a.handle := a] else now == was + [a]
  }

  lemma HoldsPlaced(chains: seq<seq<Atom>>, was: seq<Atom?>, now: seq<Atom?>, a: Atom, hash: string -> nat)
    requires chains != [] && Holds(chains, was, |was|, hash) && Placed(was, now, a)
    ensures var v := hash(a.name) % |chains|; Holds(chains[v := [a] + chains[v]], now, |now|, hash)
    ensures forall v :: 0 <= v < |chains| ==> a !in chains[v]
  {
  }

  lemma PlacedNames(was: seq<Atom?>, now: seq<Atom?>, a: Atom)
    requires Placed(was, now, a) && DistinctNames(was) && !KnownIn(was, a.name)
    ensures DistinctNames(now)
  {
  }

  predicate KnownIn(atoms: seq<Atom?>, s: string) {
    exists n :: 0 <= n < |atoms| && atoms[n] != null && atoms[n].name == s
  }

  method NewTable(buckets: nat) returns (tab: seq<Bucket>)
    ensures |tab| == buckets && Sound(tab)
    ensures forall v :: 0 <= v < |tab| ==> fresh(tab[v]) && tab[v].members == []
  {
    tab := [];
    while |tab| < buckets
      invariant |tab| <= buckets
      invariant forall v :: 0 <= v < |tab| ==> fresh(tab[v]) && tab[v].Valid() && tab[v].members == []
      invariant forall v, w :: 0 <= v < w < |tab| ==> tab[v] != tab[w]
    {
      var b := new Bucket();
      tab := tab + [b];
    }
  }

  /** Enters all atoms of an array without holes into an empty table. */
  method FillTable(tab: seq<Bucket>, atoms: seq<Atom?>, hash: string -> nat)
    requires tab != [] && Sound(tab) && forall v :: 0 <= v < |tab| ==> tab[v].members == []
    requires forall n :: 0 <= n < |atoms| ==> atoms[n] != null && atoms[n].handle == n
    modifies tab, AtomsOf(atoms)`next, AtomsOf(atoms)`home
    ensures Sound(tab) && Holds(ChainsOf(tab), atoms, |atoms|, hash)
  {
    var i := 0;
    while i < |atoms|
      invariant 0 <= i <= |atoms| && Sound(tab) && Holds(ChainsOf(tab), atoms, i, hash)
    {
      hide Sound, Holds, MembersOf;
      var a := atoms[i];
      HoldsNext(ChainsOf(tab), atoms, i, a, hash);
      Enter(tab, hash(a.name) % |tab|, a);
      i := i + 1;
    }
  }

  ghost predicate DistinctNames(atoms: seq<Atom?>) {
    forall m, n :: 0 <= m < n < |atoms| && atoms[m] != null && atoms[n] != null ==> atoms[m].name != atoms[n].name
  }

  class AtomTable {
    const hash: string -> nat          // unboundStringHashValue()
    var table: seq<Bucket>
    var atoms: seq<Atom?>
    var builtin: nat
    var noHoleBefore: nat
    var count: nat                     // GD->statistics.atoms

    /** The array and the table hold the same atoms, whose texts are different. */
    ghost predicate Agree()
      reads this`table, this`atoms, table, MembersOf(table)
    {
      table != [] && Sound(table) && Holds(ChainsOf(table), atoms, |atoms|, hash) && DistinctNames(atoms)
    }

    /** No hole is passed over; the array has grown only when it was full, so it is not larger
        than the number of atoms has ever been; and the built-in part has holes only as long as
        the array has not grown beyond it. */
    ghost predicate Filled()
      reads this`atoms, this`builtin, this`noHoleBefore
    {
      && noHoleBefore <= |atoms| && builtin <= |atoms|
      && (forall n :: 0 <= n < noHoleBefore ==> atoms[n] != null)
      && (|atoms| > builtin ==> forall n :: 0 <= n < builtin ==> atoms[n] != null)
    }

    ghost predicate Counted()
      reads this`atoms, this`builtin, this`noHoleBefore, this`count
    {
      Filled() && count == Live(atoms)
    }

    ghost predicate Valid()
      reads this, table, MembersOf(table)
    {
      Agree() && Counted() && |atoms| <= 2 * |table|
    }

    /** Only built-in atoms may keep their mark after a collection. */
    ghost predicate Clean()
      reads this`atoms, this`builtin, AtomsOf(atoms)
    {
      forall n :: builtin <= n < |atoms| && atoms[n] != null ==> !atoms[n].marked
    }

    /** pl-atom.c, initAtoms() and registerBuiltinAtoms(), which do not set the counts of the built-in atoms. */
    constructor (hash: string -> nat, names: seq<string>, buckets: nat)
      requires 0 < buckets && |names| <= 2 * buckets
      requires forall i, j :: 0 <= i < j < |names| ==> names[i] != names[j]
      ensures Valid() == true && Clean() == true && builtin == |atoms| == |names| && |table| == buckets
      ensures forall n :: 0 <= n < |names| ==> atoms[n] != null && atoms[n].name == names[n] && atoms[n].references == 1 && !atoms[n].marked
      ensures forall v :: 0 <= v < |table| ==> fresh(table[v])
    {
      hide Agree, Live, AtomsOf, MembersOf, KnownIn;
      this.hash, table, atoms, builtin, noHoleBefore, count := hash, [], [], 0, 0, |names|;
      new;
      NewEmptyTable(buckets);
      RegisterBuiltins(names);
      Lock();
    }

    // ---------- the array

    /** pl-atom.c, registerAtom(): a new atom goes to the first hole, or to the end. */
    method Register(name: string) returns (a: Atom)
      requires Filled()
      modifies this`atoms, this`noHoleBefore
      ensures fresh(a) && a.name == name && a.references == 1 && !a.marked
      ensures Placed(old(atoms), atoms, a) && (a.handle == |old(atoms)| ==> old(Live(atoms)) == |old(atoms)|)
      ensures noHoleBefore == a.handle + 1 <= |atoms| && (forall m :: 0 <= m <= a.handle ==> atoms[m] != null)
      ensures Live(atoms) == old(Live(atoms)) + 1
    {
      hide Live, AtomsOf, MembersOf, KnownIn;
      var p := noHoleBefore;
      while p < |atoms|
        invariant p <= |atoms| && atoms == old(atoms) && noHoleBefore == old(noHoleBefore)
        invariant forall m :: 0 <= m < p ==> atoms[m] != null
      {
        if atoms[p] == null {
          a := new Atom(name, p);
          LiveSet(atoms, p, a);
          atoms := atoms[p := a];
          noHoleBefore := p + 1;
          return;
        }
        p := p + 1;
      }
      a := new Atom(name, |atoms|);
      LiveFull(atoms);
      LiveAdd(atoms, a);
      noHoleBefore := |atoms| + 1;
      atoms := atoms + [a];
    }

    // ---------- rehashing

    method SetTable(tab: seq<Bucket>)
      requires tab != [] && Sound(tab) == true && Holds(ChainsOf(tab), atoms, |atoms|, hash) == true && DistinctNames(atoms) == true
      modifies this`table
      ensures Agree() == true && table == tab
    {
      table := tab;
    }

    /** pl-atom.c, rehashAtoms(): the loop has no test for a hole. */
    method Rehash()
      requires Agree() && forall n :: 0 <= n < |atoms| ==> atoms[n] != null
      modifies this`table, AtomsOf(atoms)`next, AtomsOf(atoms)`home
      ensures Agree() == true && |table| == 2 * |old(table)| && forall v :: 0 <= v < |table| ==> fresh(table[v])
    {
      assert forall n :: 0 <= n < |atoms| ==> atoms[n].handle == n;
      hide Sound, Holds, DistinctNames;
      var tab := NewTable(2 * |table|);
      FillTable(tab, atoms, hash);
      SetTable(tab);
    }

    // ---------- looking up

    /** A text that is not in its chain is not in the array. */
    lemma NotKnown(s: string)
      requires Agree() && forall m :: m in table[hash(s) % |table|].members ==> m.name != s
      ensures !KnownIn(atoms, s)
    {
    }

    /** The atom that was added to the array goes to the front of its chain. */
    method Link(a: Atom, ghost was: seq<Atom?>)
      requires table != [] && Sound(table) && Holds(ChainsOf(table), was, |was|, hash) && DistinctNames(was)
      requires Placed(was, atoms, a) && !KnownIn(was, a.name)
      modifies table, a`next, a`home
      ensures Agree() == true
    {
      hide Holds, DistinctNames, Sound;
      HoldsPlaced(ChainsOf(table), was, atoms, a, hash);
      PlacedNames(was, atoms, a);
      Enter(table, hash(a.name) % |table|, a);
    }

    /** A new atom gets a place in the array and goes to the front of its chain. */
    method Insert(name: string) returns (a: Atom)
      requires Agree() && Counted() && !KnownIn(atoms, name)
      modifies this`atoms, this`noHoleBefore, this`count, table
      ensures Agree() == true && Counted() && table == old(table)
      ensures fresh(a) && a.name == name && a.references == 1 && !a.marked && Placed(old(atoms), atoms, a)
      ensures a.handle == |old(atoms)| ==> count == |atoms|
      ensures count == old(count) + 1
    {
      hide Holds, DistinctNames, Live;
      ghost var was := atoms;
      a := Register(name);
      count := count + 1;
      Link(a, was);
    }

    /** pl-atom.c, lookupAtom() */
    method Lookup(s: string) returns (h: nat)
      requires Valid() == true
      modifies this, table, AtomsOf(atoms)
      ensures Valid() == true && builtin == old(builtin)
      ensures h < |atoms| && atoms[h] != null && atoms[h].name == s
      ensures if KnownIn(old(atoms), s) then atoms == old(atoms) && atoms[h].references == old(atoms[h].references) + 1 && atoms[h].marked == old(atoms[h].marked)
              else Placed(old(atoms), atoms, atoms[h]) && atoms[h].handle == h && atoms[h].references == 1 && !atoms[h].marked
      ensures forall n :: 0 <= n < |old(atoms)| && n != h && old(atoms)[n] != null ==>
                old(atoms)[n].references == old(atoms[n].references) && old(atoms)[n].marked == old(atoms[n].marked)
    {
      hide Holds, DistinctNames, Live;
      var f := Find(s);
      if f == null {
        h := AddNew(s);
      } else {
        h := f.handle;
        AddReference(h);
      }
    }

    /** The first half of lookupAtom(). */
    method Find(s: string) returns (f: Atom?)
      requires Agree() == true
      ensures f == null ==> !KnownIn(atoms, s)
      ensures f != null ==> f.handle < |atoms| && atoms[f.handle] == f && f.name == s && KnownIn(atoms, s)
    {
      f := table[hash(s) % |table|].Find(s);
      if f == null {
        NotKnown(s);
      } else {
        ListedAt(f, hash(s) % |table|);
      }
    }

    lemma ListedAt(a: Atom, v: nat)
      requires Agree() && v < |table| && a in table[v].members
      ensures a.handle < |atoms| && atoms[a.handle] == a && a in AtomsOf(atoms) && KnownIn(atoms, a.name)
    {
    }

    /** No atom has two places. */
    lemma OnePlace(h: nat)
      requires Agree() && h < |atoms| && atoms[h] != null
      ensures atoms[h] in AtomsOf(atoms) && forall n :: 0 <= n < |atoms| && n != h ==> atoms[n] != atoms[h]
    {
    }

    /** pl-atom.c, PL_register_atom() */
    method AddReference(h: nat)
      requires Valid() == true && h < |atoms| && atoms[h] != null
      modifies AtomsOf(atoms)`references
      ensures Valid() == true && atoms[h].references == old(atoms[h].references) + 1
      ensures forall n :: 0 <= n < |atoms| && n != h && atoms[n] != null ==> atoms[n].references == old(atoms[n].references)
    {
      OnePlace(h);
      var a := atoms[h];
      a.references := a.references + 1;
    }

    /** pl-atom.c, PL_unregister_atom() */
    method DropReference(h: nat)
      requires Valid() == true && h < |atoms| && atoms[h] != null && atoms[h].references > 0
      modifies AtomsOf(atoms)`references
      ensures Valid() == true && atoms[h].references == old(atoms[h].references) - 1
      ensures forall n :: 0 <= n < |atoms| && n != h && atoms[n] != null ==> atoms[n].references == old(atoms[n].references)
    {
      OnePlace(h);
      var a := atoms[h];
      a.references := a.references - 1;
    }

    /** pl-atom.c, markAtom(): a handle from the stacks, which need not be that of an atom. */
    method Mark(h: nat)
      requires Valid() == true
      modifies AtomsOf(atoms)`marked
      ensures Valid() == true && (h < |atoms| && atoms[h] != null ==> atoms[h].marked)
      ensures forall n :: 0 <= n < |atoms| && n != h && atoms[n] != null ==> atoms[n].marked == old(atoms[n].marked)
    {
      if h < |atoms| && atoms[h] != null {
        OnePlace(h);
        var a := atoms[h];
        a.marked := true;
      }
    }

    /** pl-atom.c, lockAtoms() */
    method Lock()
      requires Valid() == true
      modifies this`builtin
      ensures Valid() == true && builtin == |atoms|
    {
      builtin := |atoms|;
    }

    /** The second half of lookupAtom(). */
    method AddNew(s: string) returns (h: nat)
      requires Valid() == true && !KnownIn(atoms, s)
      modifies this, table, AtomsOf(atoms)
      ensures Valid() == true && builtin == old(builtin)
      ensures h < |atoms| && atoms[h] != null && atoms[h].name == s
      ensures Placed(old(atoms), atoms, atoms[h]) && atoms[h].handle == h && atoms[h].references == 1 && !atoms[h].marked
      ensures forall n :: 0 <= n < |old(atoms)| && n != h && old(atoms)[n] != null ==>
                old(atoms)[n].references == old(atoms[n].references) && old(atoms)[n].marked == old(atoms[n].marked)
    {
      hide Holds, DistinctNames, Live, Sound;
      var a := Insert(s);
      h := a.handle;
      if |table| * 2 < count {
        LiveFull(atoms);
        Rehash();
      }
    }

    /** pl-atom.c, registerBuiltinAtoms(): the loop body. */
    method RegisterBuiltin(name: string)
      requires Agree() == true && Filled() && noHoleBefore == |atoms| && !KnownIn(atoms, name)
      modifies this`atoms, this`noHoleBefore, table
      ensures Agree() == true && Filled() && noHoleBefore == |atoms| && table == old(table)
      ensures |atoms| == |old(atoms)| + 1 && atoms[..|old(atoms)|] == old(atoms)
      ensures var a := atoms[|old(atoms)|]; a != null && a.name == name && a.references == 1 && !a.marked
      ensures Live(atoms) == old(Live(atoms)) + 1
    {
      hide Holds, DistinctNames, Live;
      ghost var was := atoms;
      var a := Register(name);
      Link(a, was);
    }

    method NewEmptyTable(buckets: nat)
      requires 0 < buckets && atoms == []
      modifies this`table
      ensures Agree() == true && |table| == buckets && forall v :: 0 <= v < |table| ==> fresh(table[v])
    {
      hide Sound;
      var tab := NewTable(buckets);
      SetTable(tab);
    }

    /** pl-atom.c, registerBuiltinAtoms() */
    method RegisterBuiltins(names: seq<string>)
      requires Agree() == true && atoms == [] && builtin == noHoleBefore == 0
      requires forall i, j :: 0 <= i < j < |names| ==> names[i] != names[j]
      modifies this`atoms, this`noHoleBefore, table
      ensures Agree() == true && Filled() && table == old(table)
      ensures |atoms| == |names| == Live(atoms)
      ensures forall n :: 0 <= n < |names| ==> atoms[n] != null && atoms[n].name == names[n] && atoms[n].references == 1 && !atoms[n].marked
    {
      hide Agree, Live;
      NoAtoms();
      while |atoms| < |names|
        invariant |atoms| <= |names| && Agree() == true && Filled() && noHoleBefore == |atoms| == Live(atoms)
        invariant forall n :: 0 <= n < |atoms| ==> atoms[n] != null && atoms[n].name == names[n] && atoms[n].references == 1 && !atoms[n].marked
      {
        ghost var was := atoms;
        RegisterBuiltin(names[|atoms|]);
        assert forall n :: 0 <= n < |was| ==> atoms[n] == atoms[..|was|][n];
      }
    }

    lemma NoAtoms()
      ensures Live([]) == 0
    {
    }

    // ---------- garbage collection

    /** Deletes the atom at n from its chain and from the array. */
    method Delete(n: nat)
      requires Agree() == true && n < |atoms| && atoms[n] != null
      modifies this`atoms, table, AtomsOf(atoms)`next
      ensures Agree() == true && atoms == old(atoms)[n := null]
    {
      hide DistinctNames, Live;
      var a := atoms[n];
      var v := hash(a.name) % |table|;
      ghost var chains := ChainsOf(table);
      assert a in table[v].members && a.handle == n;
      MembersListed();
      Leave(table, v, a);
      HoldsRemoved(chains, atoms, a, table[v].members, hash);
      NamesRemoved(atoms, n);
      hide Sound, Holds;
      SetAtoms(atoms[n := null]);
    }

    /** The collector takes the atom at n: it is not referenced, not marked, and the hook agrees. */
    predicate Garbage(n: nat, hook: nat -> bool)
      requires n < |atoms| && atoms[n] != null
      reads this`atoms, atoms[n]
    {
      atoms[n].references == 0 && !atoms[n].marked && hook(n)
    }

    /** No part of the system refers to the atom at n. */
    predicate Dead(n: nat, roots: seq<nat>, hook: nat -> bool)
      requires n < |atoms|
      reads this`atoms, this`builtin, atoms[n]
    {
      n >= builtin && atoms[n] != null && atoms[n].references == 0 && n !in roots && hook(n)
    }

    /** Deletes the atom at n if it is garbage and clears its mark if it is not. */
    method CollectAt(n: nat, hook: nat -> bool) returns (hole: bool)
      requires Agree() == true && count == Live(atoms) && n < |atoms|
      modifies this`atoms, this`count, table, AtomsOf(atoms)`next, AtomsOf(atoms)`marked
      ensures Agree() == true && count == Live(atoms)
      ensures atoms == if old(atoms[n] != null && Garbage(n, hook)) then old(atoms)[n := null] else old(atoms)
      ensures AtomsOf(atoms) <= old(AtomsOf(atoms)) && (hole <==> atoms[n] == null)
      ensures atoms[n] != null ==> !atoms[n].marked
      ensures forall m :: 0 <= m < |atoms| && m != n && old(atoms)[m] != null ==> old(atoms)[m].marked == old(atoms[m].marked)
    {
      hide Holds, DistinctNames, Live;
      hole := atoms[n] == null;
      if !hole {
        if Garbage(n, hook) {
          LiveSet(atoms, n, null);
          Delete(n);
          count := count - 1;
          hole := true;
        } else {
          Unmark(n);
        }
      }
    }

    method SetHole(n: nat)
      modifies this`noHoleBefore
      ensures noHoleBefore == n && Agree() == old(Agree())
    {
      noHoleBefore := n;
    }

    /** The loop of collectAtoms(), of which the holes before noHoleBefore matter later. */
    method CollectAll(hook: nat -> bool) returns (holes: nat)
      requires Agree() == true && count == Live(atoms) && builtin <= |atoms|
      modifies this`atoms, this`noHoleBefore, this`count, table, AtomsOf(atoms)`next, AtomsOf(atoms)`marked
      ensures Agree() == true && count == Live(atoms) && |atoms| == |old(atoms)|
      ensures forall n :: 0 <= n < |atoms| ==>
                atoms[n] == if n >= builtin && old(atoms)[n] != null && old(Garbage(n, hook)) then null else old(atoms)[n]
      ensures forall n :: builtin <= n < |atoms| && atoms[n] != null ==> !atoms[n].marked
      ensures if holes == 0 then noHoleBefore == old(noHoleBefore) else builtin <= noHoleBefore < |atoms|
      ensures forall n :: builtin <= n < |atoms| && (holes == 0 || n < noHoleBefore) ==> atoms[n] != null
    {
      hide Agree, Live;
      ghost var was := atoms;
      var n := builtin;
      holes := 0;
      while n < |atoms|
        invariant builtin <= n <= |atoms| == |was|
        invariant Agree() == true && count == Live(atoms) && AtomsOf(atoms) <= AtomsOf(was)
        invariant forall m {:trigger was[m]} :: builtin <= m < n ==> atoms[m] == if was[m] != null && old(Garbage(m, hook)) then null else was[m]
        invariant atoms[..builtin] == was[..builtin] && atoms[n..] == was[n..]
        invariant forall m :: builtin <= m < n && atoms[m] != null ==> !atoms[m].marked
        invariant forall m :: n <= m < |was| && was[m] != null ==> was[m].marked == old(was[m].marked)
        invariant if holes == 0 then noHoleBefore == old(noHoleBefore) else builtin <= noHoleBefore < n
        invariant forall m :: builtin <= m < n && (holes == 0 || m < noHoleBefore) ==> atoms[m] != null
      {
        assert atoms[n] == was[n] by { assert atoms[n] == atoms[n..][0]; }
        var hole := CollectAt(n, hook);
        if hole {
          if holes == 0 {
            SetHole(n);
          }
          holes := holes + 1;
        }
        n := n + 1;
      }
    }

    /** pl-atom.c, pl_garbage_collect_atoms(): marks the atoms of the stacks and collects the others. */
    method GarbageCollect(roots: seq<nat>, hook: nat -> bool)
      requires Valid() == true && Clean() == true
      modifies this, table, AtomsOf(atoms)`next, AtomsOf(atoms)`marked
      ensures Valid() == true && Clean() == true && |atoms| == |old(atoms)| && builtin == old(builtin)
      ensures forall n :: 0 <= n < |atoms| ==> atoms[n] == if old(Dead(n, roots, hook)) then null else old(atoms)[n]
    {
      hide Agree, Live;
      MarkAll(roots);
      var holes := CollectAll(hook);
    }

    /** markAtomsOnStacks(), given the handles that it finds */
    method MarkAll(roots: seq<nat>)
      requires Valid() == true
      modifies AtomsOf(atoms)`marked
      ensures Valid() == true
      ensures forall n :: 0 <= n < |atoms| && atoms[n] != null ==> atoms[n].marked == (old(atoms[n].marked) || n in roots)
    {
      hide Agree, Counted, AtomsOf;
      for i := 0 to |roots|
        invariant Valid() == true
        invariant forall n :: 0 <= n < |atoms| && atoms[n] != null ==> atoms[n].marked == (old(atoms[n].marked) || n in roots[..i])
      {
        Mark(roots[i]);
        assert roots[..i + 1] == roots[..i] + [roots[i]];
      }
    }

    method Unmark(n: nat)
      requires Agree() == true && n < |atoms| && atoms[n] != null
      modifies AtomsOf(atoms)`marked
      ensures Agree() == true && !atoms[n].marked
      ensures forall m :: 0 <= m < |atoms| && m != n && atoms[m] != null ==> atoms[m].marked == old(atoms[m].marked)
    {
      OnePlace(n);
      var a := atoms[n];
      a.marked := false;
    }

    method SetAtoms(now: seq<Atom?>)
      requires table != [] && Sound(table) == true && Holds(ChainsOf(table), now, |now|, hash) == true && DistinctNames(now) == true
      modifies this`atoms
      ensures Agree() == true && atoms == now
    {
      atoms := now;
    }

    lemma MembersListed()
      requires Agree()
      ensures forall v, m :: 0 <= v < |table| && m in table[v].members ==> m in AtomsOf(atoms)
    {
      forall v, m | 0 <= v < |table| && m in table[v].members
        ensures m in AtomsOf(atoms)
      {
        assert atoms[m.handle] == m;
      }
    }
  }

  lemma HoldsRemoved(chains: seq<seq<Atom>>, atoms: seq<Atom?>, a: Atom, rest: seq<Atom>, hash: string -> nat)
    requires chains != [] && Holds(chains, atoms, |atoms|, hash) && a.handle < |atoms| && atoms[a.handle] == a
    requires forall m :: m in rest <==> m in chains[hash(a.name) % |chains|] && m != a
    ensures Holds(chains[hash(a.name) % |chains| := rest], atoms[a.handle := null], |atoms|, hash)
  {
  }

  lemma NamesRemoved(atoms: seq<Atom?>, n: nat)
    requires n < |atoms| && DistinctNames(atoms)
    ensures DistinctNames(atoms[n := null])
  {
  }
}
