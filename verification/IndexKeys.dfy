/** Index keys and masks of clauses (pl-index.c, getIndex() and matchIndex()). */
module IndexKeys {
  /** A machine word; LONGBITSIZE is 32. */
  type Word = bv32

  const ONES: Word := 0xFFFF_FFFF

  function Or(x: Word, y: Word): Word { x | y }

  /** x, with the bits of f only */
  function Only(x: Word, f: Word): Word { x & f }

  /** v without the bits of f */
  function Without(v: Word, f: Word): Word { v & (f ^ 0xFFFF_FFFF) }

  /** x has no bits but those of f. */
  predicate Inside(x: Word, f: Word) { x & f == x }

  predicate Apart(e: Word, f: Word) { e & f == 0 }

  /** No bit of f is used yet. */
  predicate Clear(key: Word, varmask: Word, f: Word) { key & f == 0 && varmask & f == f }

  function Up(x: Word, n: nat): Word {
    if n == 0 then x else if n == 8 then x << 8 else if n == 10 then x << 10
    else if n == 16 then x << 16 else if n == 20 then x << 20 else if n == 24 then x << 24 else 0
  }

  datatype Index = Index(key: Word, varmask: Word)

  /** pl-index.c, matchIndex() */
  predicate Match(i: Index, j: Index) {
    WordsMatch(i.key, i.varmask, j.key, j.varmask)
  }

  predicate WordsMatch(k: Word, v: Word, l: Word, w: Word) { k & w == l & v }

  // ---------- bit groups

  /** mask_mask: for one argument it is empty. */
  function Mask(c: nat): Word {
    if c == 2 then 0xFFFF else if c == 3 then 0x3FF else if c == 4 then 0xFF else 0
  }

  /** mask_shift: LONGBITSIZE/c * a */
  function Shift(c: nat, a: nat): nat
    requires a < c <= 4
  {
    32 / c * a
  }

  function Field(c: nat, a: nat): Word
    requires a < c <= 4
  {
    Up(Mask(c), Shift(c, a))
  }

  /** The low bits of a word are its tag; hashing and indexing mix them with the value. */
  function Fold(key: Word): Word { key ^ (key >> 7) }

  function Group(c: nat, a: nat, key: Word): Word
    requires a < c <= 4
  {
    Up(Only(Fold(key), Mask(c)), Shift(c, a))
  }

  /** The key and the mask with one more argument; variable_mask[1][0] has all bits set. */
  function Grow(i: Index, c: nat, a: nat, key: Word): Index
    requires a < c <= 4
  {
    Index(Or(i.key, Group(c, a, key)), if key == 0 && c > 1 then Without(i.varmask, Field(c, a)) else i.varmask)
  }

  /** The index of the first n of at most four keys. */
  function Grouped(keys: seq<Word>, n: nat): Index
    requires n <= |keys| <= 4
  {
    if n == 0 then Index(0, ONES) else Grow(Grouped(keys, n - 1), |keys|, n - 1, keys[n - 1])
  }

  /** The index for the keys of the indexed arguments; `first` if that is the first argument
      only. */
  function IndexFor(keys: seq<Word>, first: bool): Index
    requires |keys| <= 4 && (first ==> |keys| == 1)
  {
    if first then Index(keys[0], if keys[0] != 0 then ONES else 0) else Grouped(keys, |keys|)
  }

  // ---------- bits

  lemma FieldsApart(c: nat, a: nat, b: nat)
    requires 2 <= c <= 4 && a < c && b < c && a != b
    ensures Apart(Field(c, a), Field(c, b))
  {
    assert Shift(2, 1) == 16 && Shift(3, 1) == 10 && Shift(3, 2) == 20 && Shift(4, 1) == 8 && Shift(4, 2) == 16 && Shift(4, 3) == 24;
  }

  lemma Half(y: Word)
    ensures Inside(Up(Only(y, 0xFFFF), 0), Up(0xFFFF, 0)) && Inside(Up(Only(y, 0xFFFF), 16), Up(0xFFFF, 16))
  {
  }

  lemma Third(y: Word)
    ensures Inside(Up(Only(y, 0x3FF), 0), Up(0x3FF, 0)) && Inside(Up(Only(y, 0x3FF), 10), Up(0x3FF, 10)) && Inside(Up(Only(y, 0x3FF), 20), Up(0x3FF, 20))
  {
  }

  lemma Quarter(y: Word)
    ensures Inside(Up(Only(y, 0xFF), 0), Up(0xFF, 0)) && Inside(Up(Only(y, 0xFF), 8), Up(0xFF, 8))
    ensures Inside(Up(Only(y, 0xFF), 16), Up(0xFF, 16)) && Inside(Up(Only(y, 0xFF), 24), Up(0xFF, 24))
  {
  }

  lemma NoBits(c: nat, a: nat)
    requires a < c <= 4
    ensures Group(c, a, 0) == 0
  {
    assert Fold(0) == 0;
    assert Only(0, Mask(c)) == 0;
    hide Mask, Shift, Fold, Only;
    assert Up(0, Shift(c, a)) == 0;
  }

  lemma GroupInside(c: nat, a: nat, key: Word)
    requires 2 <= c <= 4 && a < c
    ensures Inside(Group(c, a, key), Field(c, a))
  {
    hide Inside, Up, Fold, Only;
    Half(Fold(key));
    Third(Fold(key));
    Quarter(Fold(key));
  }

  lemma GroupBits(c: nat, a: nat, key: Word)
    requires 2 <= c <= 4 && a < c
    ensures Inside(Group(c, a, key), Field(c, a)) && (key == 0 ==> Group(c, a, key) == 0)
  {
    hide Inside, Group, Field;
    GroupInside(c, a, key);
    NoBits(c, a);
  }

  lemma KeyClear(k: Word, v: Word, f: Word, x: Word, e: Word)
    requires Clear(k, v, e) && Apart(f, e) && Inside(x, f)
    ensures Clear(Or(k, x), v, e)
  {
  }

  lemma MaskClear(k: Word, v: Word, f: Word, e: Word)
    requires Clear(k, v, e) && Apart(f, e)
    ensures Clear(k, Without(v, f), e)
  {
  }

  lemma StillClear(k: Word, v: Word, f: Word, x: Word, e: Word)
    requires Clear(k, v, e) && Apart(f, e) && Inside(x, f)
    ensures Clear(Or(k, x), v, e) && Clear(Or(k, x), Without(v, f), e)
  {
    hide Clear, Apart, Inside, Or, Without;
    KeyClear(k, v, f, x, e);
    MaskClear(Or(k, x), v, f, e);
  }

  // ---------- no lost solutions

  /** The groups from n on are still empty. */
  predicate Room(i: Index, c: nat, n: nat)
    requires c <= 4
  {
    forall b :: n <= b < c ==> Clear(i.key, i.varmask, Field(c, b))
  }

  lemma AllClear(f: Word)
    ensures Clear(0, ONES, f)
  {
  }

  lemma EmptyRoom(c: nat)
    requires c <= 4
    ensures Room(Index(0, ONES), c, 0)
  {
    hide Field, Clear;
    forall b | 0 <= b < c
      ensures Clear(0, ONES, Field(c, b))
    {
      AllClear(Field(c, b));
    }
  }

  lemma RoomStep(i: Index, c: nat, a: nat, key: Word)
    requires 2 <= c <= 4 && a < c && Room(i, c, a) == true
    ensures Room(Grow(i, c, a, key), c, a + 1) == true
  {
    hide Or, Without, Inside, Apart, Clear, Group, Field;
    var j := Grow(i, c, a, key);
    forall b | a + 1 <= b < c
      ensures Clear(j.key, j.varmask, Field(c, b))
    {
      FieldsApart(c, a, b);
      GroupBits(c, a, key);
      StillClear(i.key, i.varmask, Field(c, a), Group(c, a, key), Field(c, b));
    }
  }

  lemma {:induction false} GroupedRoom(keys: seq<Word>, n: nat)
    requires 2 <= |keys| <= 4 && n <= |keys|
    ensures Room(Grouped(keys, n), |keys|, n) == true
  {
    hide Room, Grow;
    if n == 0 {
      EmptyRoom(|keys|);
    } else {
      GroupedRoom(keys, n - 1);
      RoomStep(Grouped(keys, n - 1), |keys|, n - 1, keys[n - 1]);
    }
  }

  /** The low 32/c bits. */
  function LowBits(c: nat): Word
    requires 2 <= c <= 4
  {
    if c == 2 then (1 << 16) - 1 else if c == 3 then (1 << 10) - 1 else (1 << 8) - 1
  }

  /** The low bits of a key, mixed with its tag. */
  function LowPart(c: nat, key: Word): Word
    requires 2 <= c <= 4
  {
    (key ^ (key >> 7)) & LowBits(c)
  }

  /** Both arguments have a key, and mixed with their tags the keys differ in the low 32/c bits. */
  predicate ToldApart(c: nat, g: Word, h: Word)
    requires 2 <= c <= 4
  {
    g != 0 && h != 0 && LowPart(c, g) != LowPart(c, h)
  }

  lemma UpAlike(c: nat, a: nat, x: Word, y: Word)
    requires 2 <= c <= 4 && a < c && Inside(x, LowBits(c)) && Inside(y, LowBits(c))
    ensures Up(x, Shift(c, a)) == Up(y, Shift(c, a)) <==> x == y
  {
    hide Inside, Up, LowBits;
    UpDown(c, a, x);
    UpDown(c, a, y);
  }

  function Down(x: Word, n: nat): Word {
    if n == 0 then x else if n == 8 then x >> 8 else if n == 10 then x >> 10
    else if n == 16 then x >> 16 else if n == 20 then x >> 20 else if n == 24 then x >> 24 else 0
  }

  lemma UpDown(c: nat, a: nat, x: Word)
    requires 2 <= c <= 4 && a < c && Inside(x, LowBits(c))
    ensures Down(Up(x, Shift(c, a)), Shift(c, a)) == x
  {
    assert Shift(2, 1) == 16 && Shift(3, 1) == 10 && Shift(3, 2) == 20 && Shift(4, 1) == 8 && Shift(4, 2) == 16 && Shift(4, 3) == 24;
    assert Shift(c, 0) == 0;
    assert c == 2 ==> Inside(x, 0xFFFF);
    assert c == 3 ==> Inside(x, 0x3FF);
    assert c == 4 ==> Inside(x, 0xFF);
    hide Up, Down, Inside, LowBits, Shift;
    UpNothing(x);
    if c == 2 {
      HalfDown(x);
    } else if c == 3 {
      ThirdDown(x);
    } else {
      QuarterDown(x);
    }
  }

  lemma UpNothing(x: Word)
    ensures Down(Up(x, 0), 0) == x
  {
  }

  lemma HalfDown(x: Word)
    requires Inside(x, 0xFFFF)
    ensures Down(Up(x, 16), 16) == x
  {
  }

  lemma ThirdDown(x: Word)
    requires Inside(x, 0x3FF)
    ensures Down(Up(x, 10), 10) == x && Down(Up(x, 20), 20) == x
  {
  }

  lemma QuarterDown(x: Word)
    requires Inside(x, 0xFF)
    ensures Down(Up(x, 8), 8) == x && Down(Up(x, 16), 16) == x && Down(Up(x, 24), 24) == x
  {
  }

  lemma OnlyInside(x: Word, f: Word)
    ensures Inside(Only(x, f), f)
  {
  }

  lemma MaskIsLow(c: nat)
    requires 2 <= c <= 4
    ensures Mask(c) == LowBits(c)
  {
  }

  lemma LowPartIs(c: nat, g: Word)
    requires 2 <= c <= 4
    ensures LowPart(c, g) == Only(Fold(g), LowBits(c))
  {
    hide LowBits;
  }

  lemma GroupTells(c: nat, a: nat, g: Word, h: Word)
    requires 2 <= c <= 4 && a < c && g != 0 && h != 0
    ensures Group(c, a, g) != Group(c, a, h) <==> ToldApart(c, g, h)
  {
    hide Inside, Up, Fold, Only, Mask, LowBits, Shift, LowPart;
    LowPartIs(c, g);
    LowPartIs(c, h);
    MaskIsLow(c);
    OnlyInside(Fold(g), LowBits(c));
    OnlyInside(Fold(h), LowBits(c));
    UpAlike(c, a, Only(Fold(g), LowBits(c)), Only(Fold(h), LowBits(c)));
  }

  // ---------- what matches, one group after the other

  lemma MatchIs(k: Word, v: Word, l: Word, w: Word)
    ensures WordsMatch(k, v, l, w) <==> Only(k, w) == Only(l, v)
  {
  }

  lemma OutsideGroup(k: Word, x: Word, w: Word, f: Word)
    requires k & f == 0 && Inside(x, f)
    ensures Only(Or(k, x), Without(w, f)) == Only(k, w)
  {
  }

  lemma OutsideAfter(z: Word, w: Word, f: Word)
    ensures Without(Only(z, w), f) == Only(z, Without(w, f))
  {
  }

  lemma InGroup(k: Word, x: Word, w: Word, f: Word)
    requires k & f == 0 && Inside(x, f) && w & f == f
    ensures Only(Only(Or(k, x), w), f) == x
  {
  }

  lemma OrOnly(k: Word, x: Word, w: Word, f: Word)
    requires Inside(x, f) && w & f == f
    ensures Only(Or(k, x), w) == Or(Only(k, w), x)
  {
  }

  lemma BitsAdded(k: Word, v: Word, l: Word, w: Word, f: Word, x: Word, y: Word)
    requires Clear(k, v, f) && Clear(l, w, f) && Inside(x, f) && Inside(y, f)
    ensures WordsMatch(Or(k, x), v, Or(l, y), w) <==> WordsMatch(k, v, l, w) && x == y
  {
    hide WordsMatch, Only, Or, Without, Inside;
    MatchIs(Or(k, x), v, Or(l, y), w);
    MatchIs(k, v, l, w);
    OutsideGroup(k, x, w, f);
    OutsideGroup(l, y, v, f);
    OutsideAfter(Or(k, x), w, f);
    OutsideAfter(Or(l, y), v, f);
    InGroup(k, x, w, f);
    InGroup(l, y, v, f);
    OrOnly(k, x, w, f);
    OrOnly(l, y, v, f);
  }

  lemma OneWithout(k: Word, v: Word, l: Word, w: Word, f: Word, y: Word)
    requires Clear(k, v, f) && Clear(l, w, f) && Inside(y, f)
    ensures WordsMatch(Or(k, 0), Without(v, f), Or(l, y), w) <==> WordsMatch(k, v, l, w)
  {
    hide WordsMatch, Only, Or, Without, Inside;
    MatchIs(Or(k, 0), Without(v, f), Or(l, y), w);
    MatchIs(k, v, l, w);
    OrNothing(k);
    OutsideGroup(l, y, v, f);
  }

  lemma BothWithout(k: Word, v: Word, l: Word, w: Word, f: Word)
    requires Clear(k, v, f) && Clear(l, w, f)
    ensures WordsMatch(Or(k, 0), Without(v, f), Or(l, 0), Without(w, f)) <==> WordsMatch(k, v, l, w)
  {
    hide WordsMatch, Only, Or, Without, Inside;
    MatchIs(Or(k, 0), Without(v, f), Or(l, 0), Without(w, f));
    MatchIs(k, v, l, w);
    NothingInside(f);
    OutsideGroup(k, 0, w, f);
    OutsideGroup(l, 0, v, f);
  }

  lemma NothingInside(f: Word)
    ensures Inside(0, f)
  {
  }

  lemma MatchStep(i: Index, j: Index, c: nat, a: nat, g: Word, h: Word)
    requires 2 <= c <= 4 && a < c && Room(i, c, a) == true && Room(j, c, a) == true
    ensures Match(Grow(i, c, a, g), Grow(j, c, a, h)) <==> Match(i, j) && !ToldApart(c, g, h)
  {
    hide WordsMatch, Or, Without, Inside, Apart, Clear, Group, Field, Room, ToldApart;
    RoomClear(i, c, a);
    RoomClear(j, c, a);
    GroupBits(c, a, g);
    GroupBits(c, a, h);
    NoKeyTells(c, g, h);
    var f := Field(c, a);
    if g == 0 && h == 0 {
      BothWithout(i.key, i.varmask, j.key, j.varmask, f);
    } else if g == 0 {
      OneWithout(i.key, i.varmask, j.key, j.varmask, f, Group(c, a, h));
    } else if h == 0 {
      OneWithout(j.key, j.varmask, i.key, i.varmask, f, Group(c, a, g));
      MatchTurned(Grow(i, c, a, g), Grow(j, c, a, h));
      MatchTurned(i, j);
    } else {
      GroupTells(c, a, g, h);
      BitsAdded(i.key, i.varmask, j.key, j.varmask, f, Group(c, a, g), Group(c, a, h));
    }
  }

  lemma NoKeyTells(c: nat, g: Word, h: Word)
    requires 2 <= c <= 4
    ensures ToldApart(c, g, h) ==> g != 0 && h != 0
  {
    hide LowPart;
  }

  lemma RoomClear(i: Index, c: nat, a: nat)
    requires a < c <= 4 && Room(i, c, a)
    ensures Clear(i.key, i.varmask, Field(c, a)) == true
  {
    hide Field, Clear;
  }

  lemma MatchTurned(i: Index, j: Index)
    ensures Match(i, j) <==> Match(j, i)
  {
  }

  /** Where both sides have a key, it is the same. */
  predicate Compatible(g: seq<Word>, h: seq<Word>) {
    |g| == |h| && forall a :: 0 <= a < |g| ==> g[a] == 0 || h[a] == 0 || g[a] == h[a]
  }

  lemma {:induction false} GroupsMatch(g: seq<Word>, h: seq<Word>, n: nat)
    requires |g| == |h| && 2 <= |g| <= 4 && n <= |g|
    ensures Match(Grouped(g, n), Grouped(h, n)) <==> forall a :: 0 <= a < n ==> !ToldApart(|g|, g[a], h[a])
  {
    hide Match, Room, Grow, ToldApart;
    if n == 0 {
      SameMatches(Index(0, ONES));
    } else {
      GroupsMatch(g, h, n - 1);
      GroupedRoom(g, n - 1);
      GroupedRoom(h, n - 1);
      MatchStep(Grouped(g, n - 1), Grouped(h, n - 1), |g|, n - 1, g[n - 1], h[n - 1]);
    }
  }

  lemma SameMatches(i: Index)
    ensures Match(i, i)
  {
  }

  lemma FirstMatches(g: Word, h: Word)
    ensures Match(Index(g, if g != 0 then ONES else 0), Index(h, if h != 0 then ONES else 0)) <==> g == 0 || h == 0 || g == h
  {
    assert g & ONES == g && h & ONES == h && g & 0 == 0 == h & 0;
  }

  /** One indexed argument that is not the first has an empty group, which matches everything. */
  lemma {:induction false} OneGroup(keys: seq<Word>)
    requires |keys| == 1
    ensures Grouped(keys, 1) == Index(0, ONES)
  {
    var i := Grouped(keys, 0);
    assert i == Index(0, ONES);
    assert Group(1, 0, keys[0]) == 0;
    assert Grouped(keys, 1) == Grow(i, 1, 0, keys[0]);
  }

  /** What an index tells apart: different keys of the first argument, if that is the only one; of
      two to four arguments those that differ in the low bits; and nothing of a single other one. */
  lemma MatchesExactly(g: seq<Word>, h: seq<Word>, first: bool)
    requires 1 <= |g| == |h| <= 4 && (first ==> |g| == 1)
    ensures first ==> (Match(IndexFor(g, first), IndexFor(h, first)) <==> g[0] == 0 || h[0] == 0 || g[0] == h[0])
    ensures |g| >= 2 ==> (Match(IndexFor(g, first), IndexFor(h, first)) <==> forall a :: 0 <= a < |g| ==> !ToldApart(|g|, g[a], h[a]))
    ensures |g| == 1 && !first ==> Match(IndexFor(g, first), IndexFor(h, first))
  {
    hide Match, Grouped, ToldApart;
    if first {
      FirstMatches(g[0], h[0]);
    } else if |g| >= 2 {
      GroupsMatch(g, h, |g|);
    } else {
      OneGroup(g);
      OneGroup(h);
      SameMatches(Index(0, ONES));
    }
  }

  /** If the indexed arguments of a goal may unify with those of a clause, their indexes match. */
  lemma NoLostSolutions(g: seq<Word>, h: seq<Word>, first: bool)
    requires Compatible(g, h) && 1 <= |g| <= 4 && (first ==> |g| == 1)
    ensures Match(IndexFor(g, first), IndexFor(h, first))
  {
    hide Match, IndexFor, ToldApart;
    MatchesExactly(g, h, first);
    if |g| >= 2 {
      forall a | 0 <= a < |g|
        ensures !ToldApart(|g|, g[a], h[a])
      {
        SameNotTold(|g|, g[a], h[a]);
      }
    }
  }

  lemma SameNotTold(c: nat, g: Word, h: Word)
    requires 2 <= c <= 4 && (g == 0 || h == 0 || g == h)
    ensures !ToldApart(c, g, h)
  {
    hide LowPart;
  }

  // ---------- hashing

  /** pl-index.c, hashIndex(): as the number of buckets is a power of two, masking with
      buckets - 1 takes the remainder. */
  function HashIndex(key: Word, buckets: nat): (h: nat)
    requires buckets > 0
    ensures h < buckets
  {
    Fold(key) as nat % buckets
  }

  // ---------- getIndex()

  /** The arguments that the pattern of an index selects. */
  function Chosen(argv: seq<Word>, pattern: seq<bool>): seq<Word>
    requires |pattern| <= |argv|
    decreases |pattern|
  {
    if pattern == [] then []
    else
      var n := |pattern| - 1;
      Chosen(argv, pattern[..n]) + if pattern[n] then [argv[n]] else []
  }

  lemma {:induction false} ChosenPrefix(argv: seq<Word>, pattern: seq<bool>, n: nat)
    requires n <= |pattern| <= |argv|
    ensures Chosen(argv, pattern[..n]) <= Chosen(argv, pattern)
    decreases |pattern|
  {
    var m := |pattern| - 1;
    if n == |pattern| {
      assert pattern[..n] == pattern;
    } else {
      ChosenPrefix(argv, pattern[..m], n);
      assert pattern[..m][..n] == pattern[..n];
    }
  }

  lemma {:induction false} ChosenStep(argv: seq<Word>, pattern: seq<bool>, n: nat)
    requires n < |pattern| <= |argv|
    ensures Chosen(argv, pattern[..n + 1]) == Chosen(argv, pattern[..n]) + if pattern[n] then [argv[n]] else []
  {
    assert pattern[..n + 1][..n] == pattern[..n];
  }

  /** The pattern 0x1. */
  predicate FirstOnly(pattern: seq<bool>) {
    |pattern| >= 1 && pattern[0] && forall i :: 1 <= i < |pattern| ==> !pattern[i]
  }

  lemma {:induction false} FirstChosen(argv: seq<Word>, pattern: seq<bool>)
    requires |pattern| <= |argv| && FirstOnly(pattern)
    ensures Chosen(argv, pattern) == [argv[0]]
    decreases |pattern|
  {
    var n := |pattern| - 1;
    if n > 0 {
      FirstChosen(argv, pattern[..n]);
    } else {
      assert pattern[..0] == [];
    }
  }

  /** pl-index.c, getIndex(): argv holds the key of each argument, card is the number of indexed
      ones. */
  method GetIndex(argv: seq<Word>, pattern: seq<bool>, card: nat) returns (index: Index)
    requires |pattern| <= |argv| && card == |Chosen(argv, pattern)| <= 4
    ensures FirstOnly(pattern) ==> |Chosen(argv, pattern)| == 1
    ensures index == IndexFor(Chosen(argv, pattern), FirstOnly(pattern))
  {
    hide Grow;
    if FirstOnly(pattern) {
      FirstChosen(argv, pattern);
      index := Index(argv[0], if argv[0] != 0 then ONES else 0);
    } else {
      ghost var keys := Chosen(argv, pattern);
      index := Index(0, ONES);
      var p := 0;
      assert Chosen(argv, pattern[..0]) == [] by { assert pattern[..0] == []; }
      for a := 0 to card
        invariant p <= |pattern| && index == Grouped(keys, a)
        invariant Chosen(argv, pattern[..p]) == keys[..a]
      {
        while p < |pattern| && !pattern[p]
          invariant p <= |pattern| && Chosen(argv, pattern[..p]) == keys[..a]
        {
          ChosenStep(argv, pattern, p);
          p := p + 1;
        }
        assert p < |pattern| by {
          assert pattern[..|pattern|] == pattern;
        }
        ChosenStep(argv, pattern, p);
        ChosenPrefix(argv, pattern, p + 1);
        assert keys[a] == argv[p];
        index := Grow(index, card, a, argv[p]);
        p := p + 1;
      }
    }
  }

  // ---------- the special cases of nextClause()

  /** With all bits set, the key alone decides. */
  lemma OnlyKey(ctx: Index, i: Index)
    requires ctx.varmask == ONES
    ensures Match(ctx, i) <==> Only(ctx.key, i.varmask) == i.key
  {
    assert i.key & ONES == i.key;
  }

  lemma NoKey(ctx: Index, i: Index)
    requires ctx.varmask == 0 && ctx.key == 0
    ensures Match(ctx, i)
  {
  }

  predicate Has(v: Word, f: Word) { v & f == f }

  lemma StillHas(v: Word, f: Word, e: Word)
    requires Has(v, e) && Apart(f, e)
    ensures Has(Without(v, f), e)
  {
  }

  lemma FieldIsThere(c: nat, a: nat)
    requires 2 <= c <= 4 && a < c
    ensures Field(c, a) != 0 && !Has(0, Field(c, a))
  {
    assert Shift(2, 1) == 16 && Shift(3, 1) == 10 && Shift(3, 2) == 20 && Shift(4, 1) == 8 && Shift(4, 2) == 16 && Shift(4, 3) == 24;
  }

  lemma ClearHas(k: Word, v: Word, f: Word)
    requires Clear(k, v, f)
    ensures Has(v, f)
  {
  }

  lemma OrNothing(k: Word)
    ensures Or(k, 0) == k
  {
  }

  /** The mask has the bits of every argument with a key. */
  lemma {:induction false} MaskHas(keys: seq<Word>, n: nat, a: nat)
    requires 2 <= |keys| <= 4 && a < n <= |keys| && keys[a] != 0
    ensures Has(Grouped(keys, n).varmask, Field(|keys|, a)) == true
    decreases n
  {
    hide Has, Field, Group, Or, Without, Room, Apart, Clear;
    var c := |keys|;
    var i := Grouped(keys, n - 1);
    if a == n - 1 {
      GroupedRoom(keys, n - 1);
      RoomHas(i, c, a);
    } else {
      MaskHas(keys, n - 1, a);
      FieldsApart(c, n - 1, a);
      StillHas(i.varmask, Field(c, n - 1), Field(c, a));
    }
  }

  lemma RoomHas(i: Index, c: nat, a: nat)
    requires a < c <= 4 && Room(i, c, a) == true
    ensures Has(i.varmask, Field(c, a)) == true
  {
    hide Has, Field, Clear;
    assert Clear(i.key, i.varmask, Field(c, a));
    ClearHas(i.key, i.varmask, Field(c, a));
  }

  lemma {:induction false} NoKeys(keys: seq<Word>, n: nat)
    requires n <= |keys| <= 4 && |keys| >= 1 && forall a :: 0 <= a < n ==> keys[a] == 0
    ensures Grouped(keys, n).key == 0
  {
    hide Field, Group, Or, Without;
    if n > 0 {
      NoKeys(keys, n - 1);
      NoBits(|keys|, n - 1);
      OrNothing(0);
    }
  }

  /** An empty mask means that no argument has a key. */
  lemma EmptyMask(keys: seq<Word>, first: bool)
    requires |keys| <= 4 && (first ==> |keys| == 1) && IndexFor(keys, first).varmask == 0
    ensures IndexFor(keys, first).key == 0
  {
    if !first {
      if |keys| == 1 {
        OneGroup(keys);
      }
      hide Grow, Field, Has;
      if |keys| >= 2 {
        forall a | 0 <= a < |keys|
          ensures keys[a] == 0
        {
          if keys[a] != 0 {
            MaskHas(keys, |keys|, a);
            FieldIsThere(|keys|, a);
          }
        }
        NoKeys(keys, |keys|);
      }
    }
  }
}
