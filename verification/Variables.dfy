/** The numbering of the variables of a clause (pl-comp.c, analyse_variables()), and the round
    trip of clauses with named variables. */
module Variables {
  import opened Clauses
  import opened Decompiler
  import opened BodyRoundTrip
  import opened HeadRoundTrip

  /** An entry of vardefs. */
  datatype Slot = Free | Taken(id: nat, times: nat)

  /** vardefs, and the entry that each variable seen so far refers to. */
  datatype Table = Table(slots: seq<Slot>, place: map<nat, nat>)

  /** A term as it is before the analysis: every variable has a name. */
  predicate Named(t: Term) {
    !t.Void? && (t.Struct? ==> forall i :: 0 <= i < |t.args| ==> Named(t.args[i]))
  }

  function Note(x: nat, d: Table, arity: nat, argn: nat): Table {
    if x in d.place then
      var n := d.place[x];
      if n < |d.slots| && d.slots[n].Taken? then d.(slots := d.slots[n := d.slots[n].(times := d.slots[n].times + 1)]) else d
    else if argn < arity && argn < |d.slots| then Table(d.slots[argn := Taken(x, 1)], d.place[x := argn])
    else Table(d.slots + [Taken(x, 1)], d.place[x := |d.slots|])
  }

  /** pl-comp.c, analyseVariables2(), of a term that is the plain argument argn of the head if
      argn < arity. */
  function Scan(t: Term, d: Table, arity: nat, argn: nat): Table
    decreases t, 1, 0
  {
    if t.Var? then Note(t.index, d, arity, argn)
    else if t.Struct? then ScanArgs(t, |t.args|, d, arity, arity)
    else d
  }

  /** The first n arguments of t; `from` is 0 for the head. */
  function ScanArgs(t: Term, n: nat, d: Table, arity: nat, from: nat): Table
    requires t.Struct? && n <= |t.args|
    decreases t, 0, n
  {
    if n == 0 then d else Scan(t.args[n - 1], ScanArgs(t, n - 1, d, arity, from), arity, from + n - 1)
  }

  function Frees(n: nat): (s: seq<Slot>)
    ensures |s| == n && forall i :: 0 <= i < n ==> s[i] == Free
  {
    seq(n, i => Free)
  }

  function Analysed(h: Term, body: Term): Table
    requires IsHead(h)
  {
    var arity := HeadFunctor(h).arity;
    var d := if h.Atom? then Table([], map[]) else ScanArgs(h, arity, Table(Frees(arity), map[]), arity, 0);
    Scan(body, d, arity, arity)
  }

  /** The variables of the body block before entry n that occur once. */
  function BodyVoids(d: Table, arity: nat, n: nat): (v: nat)
    requires n <= |d.slots|
    ensures v <= if n <= arity then 0 else n - arity
    decreases n
  {
    if n <= arity then 0
    else BodyVoids(d, arity, n - 1) + if d.slots[n - 1].Taken? && d.slots[n - 1].times == 1 then 1 else 0
  }

  function Offset(d: Table, arity: nat, n: nat): nat
    requires n <= |d.slots|
  {
    n - BodyVoids(d, arity, n)
  }

  /** *nv of analyse_variables(), and the arity. */
  function VarCount(d: Table, arity: nat): nat {
    Offset(d, arity, |d.slots|)
  }

  predicate Known(d: Table, x: nat) {
    x in d.place && d.place[x] < |d.slots| && d.slots[d.place[x]].Taken?
  }

  function Times(d: Table, x: nat): nat {
    if Known(d, x) then d.slots[d.place[x]].times else 0
  }

  /** The variable as the compiler sees it: void if it occurs once, its offset otherwise. */
  function Numbered(d: Table, arity: nat, x: nat): Term {
    if !Known(d, x) || Times(d, x) == 1 then Void else Var(Offset(d, arity, d.place[x]))
  }

  /** The variable as the decompiler shows it. */
  function Placed(d: Table, arity: nat, x: nat): Term {
    if !Known(d, x) || (Times(d, x) == 1 && d.place[x] >= arity) then Void else Var(Offset(d, arity, d.place[x]))
  }

  /** Replaces the variables of t. */
  function Replace(t: Term, f: nat -> Term): Term
    decreases t
  {
    match t
    case Var(x) => f(x)
    case Struct(fun, args) => Struct(fun, seq(|args|, i requires 0 <= i < |args| => Replace(args[i], f)))
    case _ => t
  }

  function NumberedTerm(t: Term, d: Table, arity: nat): Term {
    Replace(t, (x: nat) => Numbered(d, arity, x))
  }

  function PlacedTerm(t: Term, d: Table, arity: nat): Term {
    Replace(t, (x: nat) => Placed(d, arity, x))
  }

  // ---------- the table

  predicate Sound(d: Table, arity: nat) {
    && arity <= |d.slots|
    && (forall x :: x in d.place ==> Known(d, x) && d.slots[d.place[x]].id == x)
    && (forall n :: 0 <= n < |d.slots| && d.slots[n].Taken? ==> d.slots[n].times >= 1 && d.slots[n].id in d.place && d.place[d.slots[n].id] == n)
    && (forall n :: arity <= n < |d.slots| ==> d.slots[n].Taken?)
  }

  /** Variables keep their places, and the plain entries from n on are as they were. */
  predicate Grown(d: Table, e: Table, arity: nat) {
    && |d.slots| <= |e.slots|
    && (forall x :: x in d.place ==> x in e.place && e.place[x] == d.place[x])
  }

  function Occurs(t: Term, x: nat): nat
    decreases t, 1, 0
  {
    if t.Var? then (if t.index == x then 1 else 0)
    else if t.Struct? then OccursIn(t, |t.args|, x)
    else 0
  }

  function OccursIn(t: Term, n: nat, x: nat): nat
    requires t.Struct? && n <= |t.args|
    decreases t, 0, n
  {
    if n == 0 then 0 else OccursIn(t, n - 1, x) + Occurs(t.args[n - 1], x)
  }

  /** e is d with the occurrences in t counted. */
  ghost predicate Counted(d: Table, e: Table, t: Term) {
    forall x :: Times(e, x) == Times(d, x) + Occurs(t, x)
  }

  ghost predicate CountedArgs(d: Table, e: Table, t: Term, n: nat)
    requires t.Struct? && n <= |t.args|
  {
    forall x :: Times(e, x) == Times(d, x) + OccursIn(t, n, x)
  }

  /** The plain entries of e are those of d. */
  predicate SamePlain(d: Table, e: Table, arity: nat) {
    && (forall n :: 0 <= n < arity && n < |d.slots| && n < |e.slots| ==> (d.slots[n].Taken? <==> e.slots[n].Taken?))
    && (forall n :: 0 <= n < arity && n < |d.slots| && n < |e.slots| && d.slots[n].Taken? ==> e.slots[n].Taken? && e.slots[n].id == d.slots[n].id)
  }

  lemma NoteCounts(x: nat, d: Table, arity: nat, argn: nat)
    requires Sound(d, arity) && (argn < arity ==> d.slots[argn] == Free)
    ensures Counted(d, Note(x, d, arity, argn), Var(x))
    ensures x in Note(x, d, arity, argn).place
  {
  }

  lemma NoteSound(x: nat, d: Table, arity: nat, argn: nat)
    requires Sound(d, arity) && (argn < arity ==> d.slots[argn] == Free)
    ensures var e := Note(x, d, arity, argn); Sound(e, arity) && Grown(d, e, arity)
  {
    if x in d.place {
      CountSound(x, d, arity);
    } else if argn < arity {
      PlaceSound(x, d, arity, argn);
    } else {
      NewSound(x, d, arity);
    }
  }

  lemma CountSound(x: nat, d: Table, arity: nat)
    requires Sound(d, arity) && x in d.place
    ensures var n := d.place[x];
            n < |d.slots| && d.slots[n].Taken? && Sound(d.(slots := d.slots[n := d.slots[n].(times := d.slots[n].times + 1)]), arity)
  {
  }

  lemma PlaceSound(x: nat, d: Table, arity: nat, argn: nat)
    requires Sound(d, arity) && x !in d.place && argn < arity && d.slots[argn] == Free
    ensures Sound(Table(d.slots[argn := Taken(x, 1)], d.place[x := argn]), arity)
  {
  }

  lemma NewSound(x: nat, d: Table, arity: nat)
    requires Sound(d, arity) && x !in d.place
    ensures Sound(Table(d.slots + [Taken(x, 1)], d.place[x := |d.slots|]), arity)
  {
  }

  lemma NotePlain(x: nat, d: Table, arity: nat, argn: nat)
    requires Sound(d, arity) && argn >= arity
    ensures SamePlain(d, Note(x, d, arity, argn), arity)
  {
  }

  lemma SamePlainJoins(c: Table, d: Table, e: Table, arity: nat)
    requires SamePlain(c, d, arity) && SamePlain(d, e, arity) && Grown(c, d, arity) && Grown(d, e, arity) && arity <= |c.slots|
    ensures SamePlain(c, e, arity) && Grown(c, e, arity)
  {
  }

  lemma {:induction false} ScanCounts(t: Term, d: Table, arity: nat, argn: nat)
    requires Sound(d, arity) && (argn < arity ==> d.slots[argn] == Free)
    ensures var e := Scan(t, d, arity, argn); Sound(e, arity) && Grown(d, e, arity) && Counted(d, e, t)
    ensures argn >= arity || !t.Var? ==> SamePlain(d, Scan(t, d, arity, argn), arity)
    decreases t, 1, 0
  {
    if t.Var? {
      NoteCounts(t.index, d, arity, argn);
      NoteSound(t.index, d, arity, argn);
      if argn >= arity {
        NotePlain(t.index, d, arity, argn);
      }
      hide Note, Sound, Grown;
    } else if t.Struct? {
      hide Sound, Grown, SamePlain, Times;
      ScanArgsCount(t, |t.args|, d, arity, arity);
    }
  }

  lemma {:induction false} ScanArgsCount(t: Term, n: nat, d: Table, arity: nat, from: nat)
    requires t.Struct? && n <= |t.args| && Sound(d, arity) && from >= arity
    ensures var e := ScanArgs(t, n, d, arity, from); Sound(e, arity) && Grown(d, e, arity) && CountedArgs(d, e, t, n) && SamePlain(d, e, arity)
    decreases t, 0, n
  {
    if n > 0 {
      ScanArgsCount(t, n - 1, d, arity, from);
      var c := ScanArgs(t, n - 1, d, arity, from);
      ScanCounts(t.args[n - 1], c, arity, from + n - 1);
      var e := ScanArgs(t, n, d, arity, from);
      assert Sound(c, arity) && Sound(d, arity);
      SamePlainJoins(d, c, e, arity);
      hide Sound, Grown, SamePlain, Times, Scan;
    }
  }

  // ---------- the head

  function Start(arity: nat): Table {
    Table(Frees(arity), map[])
  }

  /** The table after the first n arguments of the head. */
  function HeadTable(h: Term, n: nat): Table
    requires IsHead(h) && n <= |HeadArgs(h)|
  {
    if h.Atom? then Start(0) else ScanArgs(h, n, Start(|h.args|), |h.args|, 0)
  }

  /** An entry of the argument block belongs to the plain argument at its place, among the
      first n. */
  predicate Plain(h: Term, n: nat, d: Table)
    requires IsHead(h)
  {
    var args := HeadArgs(h);
    && |d.slots| >= |args|
    && forall k :: 0 <= k < |args| && d.slots[k].Taken? ==> k < n && args[k] == Var(d.slots[k].id)
  }

  lemma {:induction false} HeadScanned(h: Term, n: nat)
    requires IsHead(h) && n <= |HeadArgs(h)|
    ensures var d := HeadTable(h, n); Sound(d, |HeadArgs(h)|) && Plain(h, n, d)
    ensures h.Struct? ==> CountedArgs(Start(|HeadArgs(h)|), HeadTable(h, n), h, n)
    ensures n > 0 ==> Grown(HeadTable(h, n - 1), HeadTable(h, n), |HeadArgs(h)|)
    ensures n > 0 && HeadArgs(h)[n - 1].Var? ==> HeadArgs(h)[n - 1].index in HeadTable(h, n).place
    decreases n
  {
    if n > 0 {
      var arity := |HeadArgs(h)|;
      HeadScanned(h, n - 1);
      var d := HeadTable(h, n - 1);
      var t := HeadArgs(h)[n - 1];
      ScanCounts(t, d, arity, n - 1);
      PlainStep(h, n - 1, d);
      if t.Var? {
        NoteCounts(t.index, d, arity, n - 1);
      }
      hide Sound, Plain, Grown, SamePlain, Note, Scan, Times;
    }
  }

  lemma PlainStep(h: Term, n: nat, d: Table)
    requires IsHead(h) && n < |HeadArgs(h)| && Sound(d, |HeadArgs(h)|) && Plain(h, n, d)
    requires var t := HeadArgs(h)[n]; !t.Var? ==> var e := Scan(t, d, |HeadArgs(h)|, n); SamePlain(d, e, |HeadArgs(h)|) && Grown(d, e, |HeadArgs(h)|)
    ensures Plain(h, n + 1, Scan(HeadArgs(h)[n], d, |HeadArgs(h)|, n))
  {
    var t := HeadArgs(h)[n];
    if t.Var? {
    } else {
      hide Scan;
    }
  }

  lemma {:induction false} HeadGrows(h: Term, m: nat, n: nat)
    requires IsHead(h) && m <= n <= |HeadArgs(h)|
    ensures Grown(HeadTable(h, m), HeadTable(h, n), |HeadArgs(h)|)
    decreases n - m
  {
    if m < n {
      HeadGrows(h, m, n - 1);
      HeadScanned(h, n);
      hide HeadTable;
    }
  }

  /** What the table of a clause says. */
  ghost predicate Truth(h: Term, body: Term, d: Table)
    requires IsHead(h)
  {
    && Sound(d, |HeadArgs(h)|) && Plain(h, |HeadArgs(h)|, d)
    && forall x :: Times(d, x) == Occurs(h, x) + Occurs(body, x)
  }

  lemma PlainStays(h: Term, d: Table, e: Table)
    requires IsHead(h) && Plain(h, |HeadArgs(h)|, d) && SamePlain(d, e, |HeadArgs(h)|) && Grown(d, e, |HeadArgs(h)|)
    ensures Plain(h, |HeadArgs(h)|, e)
  {
  }

  lemma {:induction false} Analyses(h: Term, body: Term)
    requires IsHead(h)
    ensures Truth(h, body, Analysed(h, body)) && Grown(HeadTable(h, |HeadArgs(h)|), Analysed(h, body), |HeadArgs(h)|)
  {
    var arity := |HeadArgs(h)|;
    HeadScanned(h, arity);
    var d, e := HeadTable(h, arity), Analysed(h, body);
    hide ScanArgs, Scan, Occurs, OccursIn;
    ScanCounts(body, d, arity, arity);
    PlainStays(h, d, e);
    hide Sound, Plain, Grown, SamePlain;
  }

  /** The first occurrence of a variable with an entry in the argument block is that argument. */
  lemma PlainIsFirst(h: Term, body: Term, n: nat)
    requires IsHead(h) && n < |HeadArgs(h)| && HeadArgs(h)[n].Var?
    ensures var x, d, arity := HeadArgs(h)[n].index, Analysed(h, body), |HeadArgs(h)|;
            x in d.place && (d.place[x] < arity ==> d.place[x] <= n && HeadArgs(h)[d.place[x]] == Var(x))
  {
    var x, d, arity := HeadArgs(h)[n].index, Analysed(h, body), |HeadArgs(h)|;
    HeadScanned(h, n + 1);
    HeadGrows(h, n + 1, arity);
    Analyses(h, body);
    hide HeadTable, Analysed, Times;
  }

  // ---------- offsets

  lemma {:induction false} OffsetsIncrease(d: Table, arity: nat, m: nat, n: nat)
    requires m < n <= |d.slots| && (m < arity || !d.slots[m].Taken? || d.slots[m].times != 1)
    ensures Offset(d, arity, m) < Offset(d, arity, n)
    decreases n
  {
    if m + 1 < n {
      OffsetsIncrease(d, arity, m, n - 1);
    }
  }

  /** Offsets of the argument block are the places, the others lie above. */
  lemma OffsetRange(d: Table, arity: nat, n: nat)
    requires n <= |d.slots|
    ensures n < arity ==> Offset(d, arity, n) == n
    ensures n >= arity ==> Offset(d, arity, n) >= arity
  {
  }

  /** Variables are renamed: two of them do not become the same, and one that gets no name
      occurs only once. */
  lemma {:induction false} Renames(h: Term, body: Term, x: nat, y: nat)
    requires IsHead(h) && Occurs(h, x) + Occurs(body, x) > 0 && Occurs(h, y) + Occurs(body, y) > 0
    ensures var d, arity := Analysed(h, body), |HeadArgs(h)|;
            && (x != y && Placed(d, arity, x) == Placed(d, arity, y) ==> Placed(d, arity, x) == Void)
            && (Placed(d, arity, x) == Void ==> Occurs(h, x) + Occurs(body, x) == 1)
            && (Placed(d, arity, x) != Void ==> Placed(d, arity, x).Var? && Placed(d, arity, x).index < VarCount(d, arity))
  {
    var d, arity := Analysed(h, body), |HeadArgs(h)|;
    Analyses(h, body);
    hide Analysed;
    assert Times(d, x) > 0 && Times(d, y) > 0;
    var m, n := d.place[x], d.place[y];
    if Placed(d, arity, x) != Void {
      OffsetsIncrease(d, arity, m, |d.slots|);
      if x != y && Placed(d, arity, y) != Void {
        if m < n {
          OffsetsIncrease(d, arity, m, n);
        } else {
          OffsetsIncrease(d, arity, n, m);
        }
      }
    }
  }

  lemma {:induction false} SlotFor(d: Table, arity: nat, j: nat, n: nat) returns (m: nat)
    requires n <= |d.slots| && arity <= j < Offset(d, arity, n)
    ensures arity <= m < n && Offset(d, arity, m) == j && !(d.slots[m].Taken? && d.slots[m].times == 1)
    decreases n
  {
    if j < Offset(d, arity, n - 1) {
      m := SlotFor(d, arity, j, n - 1);
    } else {
      m := n - 1;
    }
  }

  /** Every slot above the arguments belongs to a variable: the frame has no room to spare. */
  lemma {:induction false} EverySlot(h: Term, body: Term, j: nat)
    requires IsHead(h) && |HeadArgs(h)| <= j < VarCount(Analysed(h, body), |HeadArgs(h)|)
    ensures exists x: nat :: Occurs(h, x) + Occurs(body, x) > 1 && Numbered(Analysed(h, body), |HeadArgs(h)|, x) == Var(j)
  {
    var d, arity := Analysed(h, body), |HeadArgs(h)|;
    Analyses(h, body);
    hide Analysed, Occurs;
    var m := SlotFor(d, arity, j, |d.slots|);
    var x := d.slots[m].id;
    assert Times(d, x) == Occurs(h, x) + Occurs(body, x);
  }

  // ---------- terms with their variables replaced

  lemma {:induction false} ReplaceKeeps(t: Term, f: nat -> Term)
    requires Proper(t) && forall x: nat :: f(x).Var? || f(x).Void?
    ensures Proper(Replace(t, f))
    ensures !t.Var? ==> (Replace(t, f).Struct? <==> t.Struct?) && (!t.Struct? ==> Replace(t, f) == t)
    decreases t
  {
    if t.Struct? {
      forall i | 0 <= i < |t.args|
        ensures Proper(Replace(t.args[i], f))
      {
        ReplaceKeeps(t.args[i], f);
      }
    }
  }

  lemma {:induction false} OccursInArg(t: Term, n: nat, i: nat, x: nat)
    requires t.Struct? && i < n <= |t.args|
    ensures OccursIn(t, n, x) >= Occurs(t.args[i], x)
    decreases n
  {
    hide Occurs;
    if i < n - 1 {
      OccursInArg(t, n - 1, i, x);
    }
  }

  lemma {:induction false} OccursTwice(t: Term, n: nat, i: nat, k: nat, x: nat)
    requires t.Struct? && i < n <= |t.args| && k < n && i != k
    ensures OccursIn(t, n, x) >= Occurs(t.args[i], x) + Occurs(t.args[k], x)
    decreases n
  {
    hide Occurs;
    if i == n - 1 {
      OccursInArg(t, n - 1, k, x);
    } else if k == n - 1 {
      OccursInArg(t, n - 1, i, x);
    } else {
      OccursTwice(t, n - 1, i, k, x);
    }
  }

  lemma {:induction false} ReplaceSame(t: Term, f: nat -> Term, g: nat -> Term)
    requires forall x: nat :: Occurs(t, x) > 0 ==> f(x) == g(x)
    ensures Replace(t, f) == Replace(t, g)
    decreases t
  {
    if t.Var? {
      assert Occurs(t, t.index) == 1;
    } else if t.Struct? {
      forall i | 0 <= i < |t.args|
        ensures Replace(t.args[i], f) == Replace(t.args[i], g)
      {
        forall x: nat | Occurs(t.args[i], x) > 0
          ensures f(x) == g(x)
        {
          OccursInArg(t, |t.args|, i, x);
        }
        ReplaceSame(t.args[i], f, g);
      }
    }
  }

  /** A variable that occurs once, as a plain argument of the head, occurs nowhere else. */
  lemma {:induction false} PlainOnce(h: Term, body: Term, x: nat)
    requires IsHead(h) && Numbered(Analysed(h, body), |HeadArgs(h)|, x) != Placed(Analysed(h, body), |HeadArgs(h)|, x)
    ensures var n := Analysed(h, body).place[x];
            && n < |HeadArgs(h)| && HeadArgs(h)[n] == Var(x) && Occurs(body, x) == 0
            && Placed(Analysed(h, body), |HeadArgs(h)|, x) == Var(n)
            && (forall i :: 0 <= i < |HeadArgs(h)| && i != n ==> Occurs(HeadArgs(h)[i], x) == 0)
  {
    var d, arity := Analysed(h, body), |HeadArgs(h)|;
    Analyses(h, body);
    hide Analysed;
    var n := d.place[x];
    OffsetRange(d, arity, n);
    assert Occurs(HeadArgs(h)[n], x) == 1;
    OccursInArg(h, arity, n, x);
    forall i | 0 <= i < arity && i != n
      ensures Occurs(HeadArgs(h)[i], x) == 0
    {
      OccursTwice(h, arity, i, n, x);
    }
  }

  /** The body is compiled with the variables that it is decompiled with. */
  lemma NumberedBody(h: Term, body: Term)
    requires IsHead(h)
    ensures NumberedTerm(body, Analysed(h, body), |HeadArgs(h)|) == PlacedTerm(body, Analysed(h, body), |HeadArgs(h)|)
  {
    hide Analysed, Numbered, Placed;
    var d, arity := Analysed(h, body), |HeadArgs(h)|;
    forall x: nat | Occurs(body, x) > 0
      ensures Numbered(d, arity, x) == Placed(d, arity, x)
    {
      if Numbered(d, arity, x) != Placed(d, arity, x) {
        PlainOnce(h, body, x);
      }
    }
    ReplaceSame(body, (x: nat) => Numbered(d, arity, x), (x: nat) => Placed(d, arity, x));
  }

  function NumberedHead(h: Term, body: Term): Term
    requires IsHead(h)
  {
    NumberedTerm(h, Analysed(h, body), |HeadArgs(h)|)
  }

  lemma NumberedShape(h: Term, body: Term)
    requires IsHead(h)
    ensures IsHead(NumberedHead(h, body)) && HeadFunctor(NumberedHead(h, body)) == HeadFunctor(h)
    ensures forall i :: 0 <= i < |HeadArgs(h)| ==>
              HeadArgs(NumberedHead(h, body))[i] == NumberedTerm(HeadArgs(h)[i], Analysed(h, body), |HeadArgs(h)|)
  {
    hide Analysed;
    var d, arity := Analysed(h, body), |HeadArgs(h)|;
    ReplaceKeeps(h, (x: nat) => Numbered(d, arity, x));
  }

  lemma NumberedIsFirst(h: Term, body: Term)
    requires IsHead(h)
    ensures IsHead(NumberedHead(h, body)) && HeadNumbered(NumberedHead(h, body))
  {
    hide Analysed, Known, Times;
    var d, arity := Analysed(h, body), |HeadArgs(h)|;
    NumberedShape(h, body);
    var args := HeadArgs(NumberedHead(h, body));
    forall n | 0 <= n < |args| && args[n].Var? && args[n].index < |args|
      ensures args[n].index <= n && args[args[n].index] == args[n]
    {
      assert HeadArgs(h)[n].Var?;
      var x := HeadArgs(h)[n].index;
      PlainIsFirst(h, body, n);
      assert d.place[x] <= |d.slots| by { Analyses(h, body); }
      OffsetRange(d, arity, d.place[x]);
    }
  }

  // ---------- clauses with named variables

  /** A plain argument of the head, as it is decompiled. */
  lemma {:induction false} ShownArg(h: Term, body: Term, n: nat)
    requires IsHead(h) && Named(h) && n < |HeadArgs(h)|
    ensures HeadArg(NumberedTerm(HeadArgs(h)[n], Analysed(h, body), |HeadArgs(h)|), n) ==
            PlacedTerm(HeadArgs(h)[n], Analysed(h, body), |HeadArgs(h)|)
  {
    hide Analysed, Numbered, Placed;
    var d, arity := Analysed(h, body), |HeadArgs(h)|;
    var t := HeadArgs(h)[n];
    if t.Var? {
      var x := t.index;
      if Numbered(d, arity, x) != Placed(d, arity, x) {
        PlainOnce(h, body, x);
        assert Occurs(t, x) == 1;
        NumberedIsVoid(d, arity, x);
      } else {
        PlainIsFirst(h, body, n);
        VoidStays(h, body, n);
      }
    } else {
      forall x: nat | Occurs(t, x) > 0
        ensures Numbered(d, arity, x) == Placed(d, arity, x)
      {
        if Numbered(d, arity, x) != Placed(d, arity, x) {
          PlainOnce(h, body, x);
        }
      }
      ReplaceSame(t, (y: nat) => Numbered(d, arity, y), (y: nat) => Placed(d, arity, y));
    }
  }

  lemma NumberedIsVoid(d: Table, arity: nat, x: nat)
    requires Numbered(d, arity, x) != Placed(d, arity, x)
    ensures Numbered(d, arity, x) == Void
  {
  }

  /** A variable that occurs once, as a plain argument, has an entry in the argument block. */
  lemma VoidStays(h: Term, body: Term, n: nat)
    requires IsHead(h) && n < |HeadArgs(h)| && HeadArgs(h)[n].Var?
    requires var x, d, arity := HeadArgs(h)[n].index, Analysed(h, body), |HeadArgs(h)|; Numbered(d, arity, x) == Placed(d, arity, x)
    ensures Numbered(Analysed(h, body), |HeadArgs(h)|, HeadArgs(h)[n].index) != Void
  {
    var x, d, arity := HeadArgs(h)[n].index, Analysed(h, body), |HeadArgs(h)|;
    Analyses(h, body);
    assert Occurs(HeadArgs(h)[n], x) == 1;
    OccursInArg(h, arity, n, x);
    if Times(d, x) == 1 {
      OnceIsPlain(h, body, n);
    }
  }

  lemma OnceIsPlain(h: Term, body: Term, n: nat)
    requires IsHead(h) && n < |HeadArgs(h)| && HeadArgs(h)[n].Var?
    requires Times(Analysed(h, body), HeadArgs(h)[n].index) == 1
    ensures var d := Analysed(h, body); HeadArgs(h)[n].index in d.place && d.place[HeadArgs(h)[n].index] == n
  {
    var x, d, arity := HeadArgs(h)[n].index, Analysed(h, body), |HeadArgs(h)|;
    Analyses(h, body);
    HeadScanned(h, n);
    HeadScanned(h, n + 1);
    HeadGrows(h, n + 1, arity);
    assert Occurs(HeadArgs(h)[n], x) == 1;
    var c := HeadTable(h, n);
    SplitCount(h, n, x);
    HeadTableStep(h, n);
    assert Times(Start(arity), x) == 0;
    hide HeadTable, Analysed, Note, Occurs, OccursIn, Plain;
    assert Times(c, x) == OccursIn(h, n, x) == 0;
    NoteNew(x, c, arity, n);
  }

  lemma HeadTableStep(h: Term, n: nat)
    requires IsHead(h) && n < |HeadArgs(h)| && HeadArgs(h)[n].Var?
    ensures HeadTable(h, n + 1) == Note(HeadArgs(h)[n].index, HeadTable(h, n), |HeadArgs(h)|, n)
  {
    assert HeadTable(h, n + 1) == Scan(h.args[n], HeadTable(h, n), |h.args|, n);
  }

  lemma {:induction false} SplitCount(t: Term, n: nat, x: nat)
    requires t.Struct? && n < |t.args|
    ensures OccursIn(t, |t.args|, x) >= OccursIn(t, n, x) + Occurs(t.args[n], x)
  {
    CountGrows(t, n + 1, |t.args|, x);
  }

  lemma {:induction false} CountGrows(t: Term, m: nat, n: nat, x: nat)
    requires t.Struct? && m <= n <= |t.args|
    ensures OccursIn(t, m, x) <= OccursIn(t, n, x)
    decreases n
  {
    hide Occurs;
    if m < n {
      CountGrows(t, m, n - 1, x);
    }
  }

  lemma NoteNew(x: nat, d: Table, arity: nat, argn: nat)
    requires Sound(d, arity) && Times(d, x) == 0 && argn < arity
    ensures x in Note(x, d, arity, argn).place && Note(x, d, arity, argn).place[x] == argn
  {
  }

  /** The head that is compiled with numbers is shown with every variable in place. */
  lemma {:induction false} ShownHead(h: Term, body: Term)
    requires IsHead(h) && Named(h)
    ensures IsHead(NumberedHead(h, body)) && HeadFunctor(NumberedHead(h, body)) == HeadFunctor(h)
    ensures HeadTerm(HeadFunctor(h), HeadShown(HeadArgs(NumberedHead(h, body)))) == PlacedTerm(h, Analysed(h, body), |HeadArgs(h)|)
  {
    hide Analysed, Numbered, Placed, HeadArg;
    NumberedShape(h, body);
    var d, arity := Analysed(h, body), |HeadArgs(h)|;
    if h.Struct? {
      var s := HeadShown(HeadArgs(NumberedHead(h, body)));
      var p := PlacedTerm(h, d, arity);
      assert |p.args| == |s|;
      forall n | 0 <= n < |s|
        ensures s[n] == p.args[n]
      {
        ShownArg(h, body, n);
      }
      assert s == p.args;
    }
  }

  /** The code that is made for a clause. */
  function ClauseCode(h: Term, body: Term, inline: set<Functor>): Option<Codes>
    requires IsHead(h) && Proper(body)
  {
    var d, arity := Analysed(h, body), HeadFunctor(h).arity;
    ReplaceKeeps(h, (x: nat) => Numbered(d, arity, x));
    ReplaceKeeps(body, (x: nat) => Numbered(d, arity, x));
    CompileClause(NumberedTerm(h, d, arity), NumberedTerm(body, d, arity), VarCount(d, arity), inline)
  }

  /** Decompiling the code of a clause gives the clause back, with its variables renamed. */
  lemma {:induction false} ClauseRoundTrip(h: Term, body: Term, inline: set<Functor>)
    requires IsHead(h) && Named(h) && Proper(body) && ClauseCode(h, body, inline).Some?
    ensures var d, arity := Analysed(h, body), HeadFunctor(h).arity;
            && Proper(PlacedTerm(body, d, arity))
            && Decompile(ClauseCode(h, body, inline).value, HeadFunctor(h), body == TRUE) ==
               Some(Decompiled(PlacedTerm(h, d, arity), Joined(Goals(PlacedTerm(body, d, arity)))))
  {
    var d, arity := Analysed(h, body), HeadFunctor(h).arity;
    hide Analysed, Numbered, Placed, Decompile, CompileClause, Goals, Joined, HeadNumbered, Named;
    NumberedBody(h, body);
    NumberedShape(h, body);
    NumberedIsFirst(h, body);
    ShownHead(h, body);
    var b := NumberedTerm(body, d, arity);
    BodyShape(h, body);
    if body == TRUE {
      FactRoundTrip(NumberedHead(h, body), VarCount(d, arity), inline);
    } else {
      RuleRoundTrip(NumberedHead(h, body), b, VarCount(d, arity), inline);
    }
  }

  lemma {:induction false} BodyShape(h: Term, body: Term)
    requires IsHead(h) && Proper(body)
    ensures var b := NumberedTerm(body, Analysed(h, body), |HeadArgs(h)|);
            Proper(b) && (b == TRUE <==> body == TRUE) && Joined(Goals(TRUE)) == TRUE
  {
    hide Analysed;
    var d, arity := Analysed(h, body), |HeadArgs(h)|;
    ReplaceKeeps(body, (x: nat) => Numbered(d, arity, x));
  }
}
