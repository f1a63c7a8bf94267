/** Reading back the code of an argument gives the argument (pl-comp.c, compileArgument(),
    decompile_head() and decompileBody()). */
module ArgumentRoundTrip {
  import opened Clauses
  import opened Decompiler

  // ---------- ending terms

  /** All terms from height n up end together with the one below. */
  predicate RightAbove(b: Building, n: nat) {
    forall i :: n <= i < |b.open| ==> b.open[i].right
  }

  lemma ShutHeight(b: Building)
    requires b.open != []
    ensures |Shut(b).open| == |b.open| - 1
    ensures forall i :: 0 <= i < |b.open| - 1 ==> Shut(b).open[i].right == b.open[i].right
  {
  }

  /** Ends the terms from height n up. */
  function CloseTo(b: Building, n: nat): Building
    decreases |b.open|
  {
    if |b.open| <= n then b else CloseTo(Shut(b), n)
  }

  lemma {:induction false} CloseHeight(b: Building, n: nat)
    requires n <= |b.open|
    ensures |CloseTo(b, n).open| == n
    ensures forall i :: 0 <= i < n ==> CloseTo(b, n).open[i].right == b.open[i].right
    decreases |b.open|
  {
    if n < |b.open| {
      ShutHeight(b);
      CloseHeight(Shut(b), n);
    }
  }

  lemma {:induction false} PopCloses(b: Building, n: nat)
    requires 0 < n <= |b.open| && RightAbove(b, n) && !b.open[n - 1].right
    ensures |CloseTo(b, n).open| == n && Pop(b) == Some(Shut(CloseTo(b, n)))
    decreases |b.open|
  {
    CloseHeight(b, n);
    if n < |b.open| {
      ShutHeight(b);
      PopCloses(Shut(b), n);
    }
  }

  lemma {:induction false} CloseStep(b: Building, n: nat)
    requires n < |b.open|
    ensures |CloseTo(b, n + 1).open| == n + 1 && CloseTo(b, n) == Shut(CloseTo(b, n + 1))
    decreases |b.open|
  {
    CloseHeight(b, n + 1);
    if n + 1 < |b.open| {
      ShutHeight(b);
      CloseStep(Shut(b), n);
    }
  }

  // ---------- reading arguments

  /** b with a term begun, some of whose arguments are there. */
  function Begun(b: Building, f: Functor, right: bool, args: seq<Term>): Building {
    b.(open := b.open + [Frame(f, args, right)])
  }

  lemma PutBegun(b: Building, f: Functor, right: bool, args: seq<Term>, t: Term)
    ensures Put(Begun(b, f, right, args), t) == Begun(b, f, right, args + [t])
  {
    var c := Begun(b, f, right, args);
    assert c.open[..|c.open| - 1] == b.open;
  }

  lemma ShutBegun(b: Building, f: Functor, right: bool, args: seq<Term>)
    ensures Shut(Begun(b, f, right, args)) == Put(b, Finish(Frame(f, args, right)))
  {
    var c := Begun(b, f, right, args);
    assert c.open[..|c.open| - 1] == b.open;
  }

  predicate Fits(w: Where, b: Building) {
    (w.arg <==> b.open != []) && (w.right ==> w.arg)
  }

  /** What the code of t adds to b; a plain argument of the head without a value of its own is
      the variable of its place. */
  function Added(t: Term, r: Out, w: Where, b: Building): Building {
    Put(b, if r.void && !w.arg then Var(|b.done|) else t)
  }

  /** The code of t was read, up to the end of a term that is still to come. */
  predicate ReadBack(t: Term, r: Out, w: Where, b: Building, c: Building) {
    if w.right && t.Struct? then |b.open| <= |c.open| && RightAbove(c, |b.open|) && CloseTo(c, |b.open|) == Added(t, r, w, b)
    else c == Added(t, r, w, b)
  }

  lemma {:induction false} OneStep(code: Codes, pc: nat, end: nat, b: Building, c: Building)
    requires pc < end <= |code| && Step(code, pc, b) == Some(Next(end, c))
    ensures Run(code, pc, end, b) == Some(c)
  {
  }

  lemma DataRead(code: Codes, pc: nat, words: seq<int>)
    requires At(code, pc, Data(words))
    ensures AllData(code, pc, |words|) && Words(code, pc, |words|) == words
  {
    forall i | 0 <= i < |words|
      ensures pc + i < |code| && code[pc + i] == Num(words[i])
    {
      AtWord(code, pc, Data(words), i);
    }
    assert forall i :: pc <= i < pc + |words| ==> code[i] == code[pc + (i - pc)];
  }

  lemma {:induction false} ReadVarBack(i: nat, w: Where, arity: nat, used: set<nat>, code: Codes, pc: nat, b: Building)
    requires Fits(w, b) && At(code, pc, CompileVar(i, w, arity, used).code)
    ensures var r := CompileVar(i, w, arity, used); Run(code, pc, pc + |r.code|, b) == Some(Added(Var(i), r, w, b))
  {
    var r := CompileVar(i, w, arity, used);
    AtWord(code, pc, r.code, 0);
    if |r.code| == 2 {
      AtWord(code, pc, r.code, 1);
    }
    OneStep(code, pc, pc + |r.code|, b, Added(Var(i), r, w, b));
  }

  lemma ReadTextBack(words: seq<int>, w: Where, code: Codes, pc: nat, b: Building)
    requires At(code, pc, [Op(if w.body then B_INDIRECT else H_INDIRECT), Num(|words|)] + Data(words))
    ensures Run(code, pc, pc + 2 + |words|, b) == Some(Put(b, Text(words)))
  {
    var start := [Op(if w.body then B_INDIRECT else H_INDIRECT), Num(|words|)];
    AtSplit(code, pc, start, Data(words));
    AtWord(code, pc, start, 0);
    AtWord(code, pc, start, 1);
    DataRead(code, pc + 2, words);
    OneStep(code, pc, pc + 2 + |words|, b, Put(b, Text(words)));
  }

  lemma ReadFloatBack(low: int, high: int, w: Where, code: Codes, pc: nat, b: Building)
    requires At(code, pc, [Op(if w.body then B_FLOAT else H_FLOAT), Num(low), Num(high)])
    ensures Run(code, pc, pc + 3, b) == Some(Put(b, Float(low, high)))
  {
    var x := [Op(if w.body then B_FLOAT else H_FLOAT), Num(low), Num(high)];
    AtWord(code, pc, x, 0);
    AtWord(code, pc, x, 1);
    AtWord(code, pc, x, 2);
    OneStep(code, pc, pc + 3, b, Put(b, Float(low, high)));
  }

  lemma {:induction false} ReadTwo(op: Opcode, operand: Code, code: Codes, pc: nat, b: Building, t: Term)
    requires At(code, pc, [Op(op), operand])
    requires (op in {H_CONST, B_CONST} && operand == Constant(t)) || (op in {H_INTEGER, B_INTEGER} && operand.Num? && t == Big(operand.n))
    ensures Run(code, pc, pc + 2, b) == Some(Put(b, t))
  {
    AtWord(code, pc, [Op(op), operand], 0);
    AtWord(code, pc, [Op(op), operand], 1);
    OneStep(code, pc, pc + 2, b, Put(b, t));
  }

  lemma {:induction false} ReadOne(op: Opcode, code: Codes, pc: nat, b: Building)
    requires At(code, pc, [Op(op)]) && op in {H_NIL, B_NIL, B_VOID, H_VOID}
    ensures Run(code, pc, pc + 1, b) ==
            Some(Put(b, if op in {H_NIL, B_NIL} then Atom(Nil) else if op == H_VOID && b.open == [] then Var(|b.done|) else Void))
  {
    AtWord(code, pc, [Op(op)], 0);
    OneStep(code, pc, pc + 1, b, Step(code, pc, b).value.b);
  }

  /** An argument that is no compound term. */
  lemma {:induction false} ReadSimple(t: Term, w: Where, arity: nat, used: set<nat>, code: Codes, pc: nat, b: Building)
    requires Proper(t) && !t.Struct? && Fits(w, b) && At(code, pc, CompileArgument(t, w, arity, used).code)
    ensures var r := CompileArgument(t, w, arity, used); Run(code, pc, pc + |r.code|, b) == Some(Added(t, r, w, b))
  {
    hide Run, Step, At;
    match t
    case Var(i) => ReadVarBack(i, w, arity, used, code, pc, b);
    case Text(words) => ReadTextBack(words, w, code, pc, b);
    case Float(low, high) => ReadFloatBack(low, high, w, code, pc, b);
    case Big(n) => ReadTwo(if w.body then B_INTEGER else H_INTEGER, Num(n), code, pc, b, t);
    case Small(n) => ReadTwo(if w.body then B_CONST else H_CONST, Constant(t), code, pc, b, t);
    case Void => ReadOne(if w.body then B_VOID else H_VOID, code, pc, b);
    case Atom(name) =>
      if name == Nil {
        ReadOne(if w.body then B_NIL else H_NIL, code, pc, b);
      } else {
        ReadTwo(if w.body then B_CONST else H_CONST, Constant(t), code, pc, b, t);
      }
    case Struct(_, _) =>
  }

  lemma {:induction false} ReadOpening(f: Functor, w: Where, code: Codes, pc: nat, b: Building)
    requires Fits(w, b) && At(code, pc, Opening(f, w))
    ensures Run(code, pc, pc + |Opening(f, w)|, b) == Some(Begun(b, f, w.right, []))
  {
    AtWord(code, pc, Opening(f, w), 0);
    if f != DOT {
      AtWord(code, pc, Opening(f, w), 1);
    }
    OneStep(code, pc, pc + |Opening(f, w)|, b, Begun(b, f, w.right, []));
  }

  lemma {:induction false} ReadPop(code: Codes, pc: nat, b: Building)
    requires At(code, pc, [Op(I_POPF)]) && Pop(b).Some?
    ensures Run(code, pc, pc + 1, b) == Pop(b)
  {
    AtWord(code, pc, [Op(I_POPF)], 0);
    OneStep(code, pc, pc + 1, b, Pop(b).value);
  }

  lemma {:induction false} ArgumentsStep(t: Term, n: nat, w: Where, arity: nat, used: set<nat>)
    requires Proper(t) && t.Struct? && n < |t.args|
    ensures CompileArguments(t, 0, w, arity, used) == Outs([], used, 0)
    ensures var a := CompileArguments(t, n, w, arity, used);
            var b := CompileArgument(t.args[n], w, arity, a.used);
            CompileArguments(t, n + 1, w, arity, used) == Outs(a.code + b.code, b.used, if b.void then a.kept else |a.code + b.code|)
  {
    hide CompileArgument;
  }

  lemma {:induction false} VoidArgument(t: Term, w: Where, arity: nat, used: set<nat>)
    requires Proper(t) && w.arg && CompileArgument(t, w, arity, used).void
    ensures t == Void
  {
  }

  lemma CutOff(x: Codes, y: Codes, k: nat)
    requires k <= |x|
    ensures (x + y)[..k] == x[..k] && (x + y)[..|x + y|] == x + y
  {
  }

  /** Cutting off the H_VOIDs at the end leaves the code of the first m arguments. */
  lemma {:induction false} KeptCode(t: Term, n: nat, w: Where, arity: nat, used: set<nat>) returns (m: nat)
    requires Proper(t) && t.Struct? && n <= |t.args|
    ensures m <= n && CompileArguments(t, n, w, arity, used).code[..CompileArguments(t, n, w, arity, used).kept]
                      == CompileArguments(t, m, w, arity, used).code
    ensures w.arg ==> forall i :: m <= i < n ==> t.args[i] == Void
    ensures forall i :: m <= i < n ==> CompileArgument(t.args[i], w, arity, CompileArguments(t, i, w, arity, used).used).void
    decreases n
  {
    hide CompileArgument, CompileArguments;
    ArgumentsStep(t, if n == 0 then 0 else n - 1, w, arity, used);
    if n == 0 {
      m := 0;
    } else {
      var a := CompileArguments(t, n - 1, w, arity, used);
      var b := CompileArgument(t.args[n - 1], w, arity, a.used);
      CutOff(a.code, b.code, a.kept);
      if b.void {
        m := KeptCode(t, n - 1, w, arity, used);
        if w.arg {
          VoidArgument(t.args[n - 1], w, arity, a.used);
        }
      } else {
        m := n;
      }
    }
  }

  lemma {:induction false} ReadArguments(t: Term, n: nat, body: bool, arity: nat, used: set<nat>, code: Codes, pc: nat, b: Building, right: bool)
    requires Proper(t) && t.Struct? && n <= |t.args|
    requires At(code, pc, CompileArguments(t, n, Where(body, true, false), arity, used).code)
    ensures Run(code, pc, pc + |CompileArguments(t, n, Where(body, true, false), arity, used).code|, Begun(b, t.functor, right, [])) ==
            Some(Begun(b, t.functor, right, t.args[..n]))
    decreases t, 0, n
  {
    hide Run, Step, CompileArgument;
    var w := Where(body, true, false);
    if n == 0 {
      RunNothing(code, pc, Begun(b, t.functor, right, []));
    } else {
      var a := CompileArguments(t, n - 1, w, arity, used);
      var r := CompileArgument(t.args[n - 1], w, arity, a.used);
      AtSplit(code, pc, a.code, r.code);
      ReadArguments(t, n - 1, body, arity, used, code, pc, b, right);
      var c := Begun(b, t.functor, right, t.args[..n - 1]);
      ReadArgument(t.args[n - 1], w, arity, a.used, code, pc + |a.code|, c);
      PutBegun(b, t.functor, right, t.args[..n - 1], t.args[n - 1]);
      assert t.args[..n - 1] + [t.args[n - 1]] == t.args[..n];
      RunSplit(code, pc, pc + |a.code|, pc + |a.code| + |r.code|, Begun(b, t.functor, right, []));
    }
  }

  lemma {:induction false} RunNothing(code: Codes, pc: nat, b: Building)
    requires pc <= |code|
    ensures Run(code, pc, pc, b) == Some(b)
  {
  }

  /** All of t but its end is read: c is b with t begun, when the terms in last arguments are
      ended. */
  ghost predicate AtEnd(t: Term, w: Where, b: Building, c: Building)
    requires t.Struct?
  {
    var h := |b.open|;
    && h + 1 <= |c.open| && RightAbove(c, h + 1) && c.open[h].right == w.right
    && exists args: seq<Term> :: CloseTo(c, h + 1) == Begun(b, t.functor, w.right, args) && Finish(Frame(t.functor, args, w.right)) == t
  }

  lemma {:induction false} EndRead(t: Term, w: Where, b: Building, c: Building)
    requires t.Struct? && AtEnd(t, w, b, c)
    ensures w.right ==> RightAbove(c, |b.open|) && CloseTo(c, |b.open|) == Put(b, t) && |b.open| <= |c.open|
    ensures !w.right ==> Pop(c) == Some(Put(b, t))
  {
    var h := |b.open|;
    var args: seq<Term> :| CloseTo(c, h + 1) == Begun(b, t.functor, w.right, args) && Finish(Frame(t.functor, args, w.right)) == t;
    ShutBegun(b, t.functor, w.right, args);
    if w.right {
      CloseStep(c, h);
    } else {
      PopCloses(c, h + 1);
    }
  }

  lemma BegunEnd(t: Term, w: Where, b: Building, args: seq<Term>)
    requires t.Struct? && Finish(Frame(t.functor, args, w.right)) == t
    ensures AtEnd(t, w, b, Begun(b, t.functor, w.right, args))
  {
    var c := Begun(b, t.functor, w.right, args);
    assert CloseTo(c, |b.open| + 1) == c;
  }

  lemma {:induction false} AllVoids(t: Term, m: nat)
    requires t.Struct? && m <= |t.args| == t.functor.arity && forall i :: m <= i < |t.args| ==> t.args[i] == Void
    ensures Finish(Frame(t.functor, t.args[..m], false)) == t && Finish(Frame(t.functor, t.args[..m], true)) == t
  {
    assert t.args[..m] + Voids(t.functor.arity - m) == t.args;
  }

  function Ending(w: Where): Codes {
    if w.right then [] else [Op(I_POPF)]
  }

  /** The opening instruction of a term, the code x of its arguments and, unless it is a last
      argument itself, the end. */
  function Parts(f: Functor, w: Where, x: Codes): (y: Codes)
    ensures |y| == |Opening(f, w)| + |x| + |Ending(w)|
  {
    Opening(f, w) + x + Ending(w)
  }

  /** Reading the words y from pc makes c of b. */
  predicate ReadsTo(code: Codes, pc: nat, y: Codes, b: Building, c: Building) {
    pc + |y| <= |code| && Run(code, pc, pc + |y|, b) == Some(c)
  }

  /** Reading the code y of t, which stands at pc. */
  ghost predicate Reads(t: Term, y: Codes, void: bool, w: Where, code: Codes, pc: nat, b: Building) {
    exists c :: ReadsTo(code, pc, y, b, c) && ReadBack(t, Out(y, {}, void), w, b, c)
  }

  lemma ReadsOn(code: Codes, pc: nat, x: Codes, y: Codes, b: Building, c: Building, d: Building)
    requires ReadsTo(code, pc, x, b, c) && ReadsTo(code, pc + |x|, y, c, d)
    ensures ReadsTo(code, pc, x + y, b, d)
  {
    hide Run;
    RunSplit(code, pc, pc + |x|, pc + |x| + |y|, b);
  }

  lemma ReadParts(t: Term, w: Where, b: Building, code: Codes, pc: nat, x: Codes, c: Building)
    requires t.Struct? && Fits(w, b) && At(code, pc, Parts(t.functor, w, x))
    requires ReadsTo(code, pc + |Opening(t.functor, w)|, x, Begun(b, t.functor, w.right, []), c) && AtEnd(t, w, b, c) == true
    ensures Reads(t, Parts(t.functor, w, x), false, w, code, pc, b)
  {
    hide Run, AtEnd, Opening, At, ReadsTo, Fits;
    var f := t.functor;
    var o := Opening(f, w);
    AtSplit(code, pc, o + x, Ending(w));
    AtSplit(code, pc, o, x);
    OpeningReads(f, w, code, pc, b);
    ReadsOn(code, pc, o, x, b, Begun(b, f, w.right, []), c);
    var d := EndReads(t, w, b, code, pc + |o| + |x|, c);
    ReadsOn(code, pc, o + x, Ending(w), b, c, d);
  }

  lemma OpeningReads(f: Functor, w: Where, code: Codes, pc: nat, b: Building)
    requires Fits(w, b) && At(code, pc, Opening(f, w))
    ensures ReadsTo(code, pc, Opening(f, w), b, Begun(b, f, w.right, []))
  {
    hide Run, Opening, Fits;
    ReadOpening(f, w, code, pc, b);
  }

  lemma EndReads(t: Term, w: Where, b: Building, code: Codes, pc: nat, c: Building) returns (d: Building)
    requires t.Struct? && At(code, pc, Ending(w)) && AtEnd(t, w, b, c) == true
    ensures ReadsTo(code, pc, Ending(w), c, d) && ReadBack(t, Out([], {}, false), w, b, d)
  {
    hide AtEnd;
    EndRead(t, w, b, c);
    if w.right {
      d := c;
    } else {
      hide Run;
      ReadPop(code, pc, c);
      d := Pop(c).value;
    }
  }

  lemma PartsAt(f: Functor, w: Where, code: Codes, pc: nat, x: Codes)
    requires At(code, pc, Parts(f, w, x))
    ensures At(code, pc + |Opening(f, w)|, x) && pc + |Parts(f, w, x)| <= |code|
  {
    AtSplit(code, pc, Opening(f, w) + x, Ending(w));
    AtSplit(code, pc, Opening(f, w), x);
  }

  lemma {:induction false} StructCode(t: Term, w: Where, arity: nat, used: set<nat>)
    requires Proper(t) && t.Struct?
    ensures var n := |t.args| - 1;
            var a := CompileArguments(t, n, Where(w.body, true, false), arity, used);
            var last := CompileArgument(t.args[n], Where(w.body, true, true), arity, a.used);
            CompileArgument(t, w, arity, used) ==
              if t.args[n].Void? && !w.body then Out(Opening(t.functor, w) + a.code[..a.kept] + Ending(w), a.used, false)
              else Out(Opening(t.functor, w) + a.code + last.code + Ending(w), last.used, false)
  {
    hide CompileArguments, Opening;
  }

  /** The code of a term whose trailing voids were cut off. */
  lemma TrimmedCode(t: Term, w: Where, arity: nat, used: set<nat>) returns (m: nat)
    requires Proper(t) && t.Struct? && t.args[|t.args| - 1].Void? && !w.body
    ensures m < |t.args| && forall i :: m <= i < |t.args| ==> t.args[i] == Void
    ensures var r := CompileArgument(t, w, arity, used);
            !r.void && r.code == Parts(t.functor, w, CompileArguments(t, m, Where(w.body, true, false), arity, used).code)
  {
    hide CompileArgument, CompileArguments, Opening;
    var n, u := |t.args| - 1, Where(w.body, true, false);
    m := KeptCode(t, n, u, arity, used);
    StructCode(t, w, arity, used);
  }

  lemma WholeCode(t: Term, w: Where, arity: nat, used: set<nat>)
    requires Proper(t) && t.Struct? && !(t.args[|t.args| - 1].Void? && !w.body)
    ensures var n := |t.args| - 1;
            var a := CompileArguments(t, n, Where(w.body, true, false), arity, used);
            var last := CompileArgument(t.args[n], Where(w.body, true, true), arity, a.used);
            var r := CompileArgument(t, w, arity, used);
            !r.void && r.code == Parts(t.functor, w, a.code + last.code) && r.used == last.used
  {
    hide CompileArgument, CompileArguments, Opening;
    StructCode(t, w, arity, used);
    var n := |t.args| - 1;
    var a := CompileArguments(t, n, Where(w.body, true, false), arity, used);
    var last := CompileArgument(t.args[n], Where(w.body, true, true), arity, a.used);
    assert Opening(t.functor, w) + a.code + last.code + Ending(w) == Opening(t.functor, w) + (a.code + last.code) + Ending(w);
  }

  lemma {:induction false} ReadTrimmed(t: Term, w: Where, arity: nat, used: set<nat>, code: Codes, pc: nat, b: Building)
    requires Proper(t) && t.Struct? && Fits(w, b) && t.args[|t.args| - 1].Void? && !w.body
    requires At(code, pc, CompileArgument(t, w, arity, used).code)
    ensures var r := CompileArgument(t, w, arity, used); !r.void && Reads(t, r.code, false, w, code, pc, b) == true
    decreases t, 0, |t.args| + 1
  {
    hide CompileArgument, CompileArguments, Run, Step, At, Parts, Opening, Fits, AtEnd, Begun, Reads;
    var n, u := |t.args| - 1, Where(w.body, true, false);
    var m := TrimmedCode(t, w, arity, used);
    var x := CompileArguments(t, m, u, arity, used).code;
    PartsAt(t.functor, w, code, pc, x);
    ReadArguments(t, m, w.body, arity, used, code, pc + |Opening(t.functor, w)|, b, w.right);
    InBounds(code, pc + |Opening(t.functor, w)|, x);
    AllVoids(t, m);
    BegunEnd(t, w, b, t.args[..m]);
    ReadParts(t, w, b, code, pc, x, Begun(b, t.functor, w.right, t.args[..m]));
  }

  lemma {:induction false} ReadWhole(t: Term, w: Where, arity: nat, used: set<nat>, code: Codes, pc: nat, b: Building)
    requires Proper(t) && t.Struct? && Fits(w, b) && !(t.args[|t.args| - 1].Void? && !w.body)
    requires At(code, pc, CompileArgument(t, w, arity, used).code)
    ensures var r := CompileArgument(t, w, arity, used); !r.void && Reads(t, r.code, false, w, code, pc, b) == true
    decreases t, 0, |t.args| + 1
  {
    hide CompileArgument, CompileArguments, Run, Step, At, Parts, Opening, Fits, AtEnd, Reads;
    var n, u, v := |t.args| - 1, Where(w.body, true, false), Where(w.body, true, true);
    var a := CompileArguments(t, n, u, arity, used);
    var last := CompileArgument(t.args[n], v, arity, a.used);
    WholeCode(t, w, arity, used);
    var p := pc + |Opening(t.functor, w)|;
    PartsAt(t.functor, w, code, pc, a.code + last.code);
    AtSplit(code, p, a.code, last.code);
    InBounds(code, p, a.code);
    ReadArguments(t, n, w.body, arity, used, code, p, b, w.right);
    var c := Begun(b, t.functor, w.right, t.args[..n]);
    FitsBegun(b, t.functor, w.right, t.args[..n], v);
    ReadArgument(t.args[n], v, arity, a.used, code, p + |a.code|, c);
    InBounds(code, p + |a.code|, last.code);
    var e := Run(code, p + |a.code|, p + |a.code| + |last.code|, c).value;
    ReadsOn(code, p, a.code, last.code, Begun(b, t.functor, w.right, []), c, e);
    LastEnd(t, w, b, last, e);
    ReadParts(t, w, b, code, pc, a.code + last.code, e);
  }

  lemma FitsBegun(b: Building, f: Functor, right: bool, args: seq<Term>, v: Where)
    requires v.arg
    ensures Fits(v, Begun(b, f, right, args))
  {
  }

  lemma InBounds(code: Codes, pc: nat, x: Codes)
    requires At(code, pc, x)
    ensures pc + |x| <= |code|
  {
  }

  /** With its last argument read, a term is at its end. */
  lemma {:induction false} LastEnd(t: Term, w: Where, b: Building, last: Out, c: Building)
    requires Proper(t) && t.Struct?
    requires var n := |t.args| - 1; ReadBack(t.args[n], last, Where(w.body, true, true), Begun(b, t.functor, w.right, t.args[..n]), c)
    ensures AtEnd(t, w, b, c)
  {
    var n := |t.args| - 1;
    var d := Begun(b, t.functor, w.right, t.args[..n]);
    PutBegun(b, t.functor, w.right, t.args[..n], t.args[n]);
    assert t.args[..n] + [t.args[n]] == t.args == t.args[..|t.args|];
    AllVoids(t, |t.args|);
    CloseHeight(c, |b.open| + 1);
    assert CloseTo(c, |b.open| + 1) == Begun(b, t.functor, w.right, t.args);
  }

  lemma {:induction false} ReadsGive(t: Term, r: Out, w: Where, code: Codes, pc: nat, b: Building)
    requires Reads(t, r.code, r.void, w, code, pc, b)
    ensures pc + |r.code| <= |code| && Run(code, pc, pc + |r.code|, b).Some?
    ensures ReadBack(t, r, w, b, Run(code, pc, pc + |r.code|, b).value)
  {
    hide Run;
  }

  lemma {:induction false} SimpleReads(t: Term, w: Where, arity: nat, used: set<nat>, code: Codes, pc: nat, b: Building)
    requires Proper(t) && !t.Struct? && Fits(w, b) && At(code, pc, CompileArgument(t, w, arity, used).code)
    ensures var r := CompileArgument(t, w, arity, used); Reads(t, r.code, r.void, w, code, pc, b)
  {
    hide Run, CompileArgument, Fits;
    var r := CompileArgument(t, w, arity, used);
    ReadSimple(t, w, arity, used, code, pc, b);
    assert ReadsTo(code, pc, r.code, b, Added(t, r, w, b));
  }

  /** Reading the code of an argument builds the argument. */
  lemma {:induction false} ReadArgument(t: Term, w: Where, arity: nat, used: set<nat>, code: Codes, pc: nat, b: Building)
    requires Proper(t) && Fits(w, b) && At(code, pc, CompileArgument(t, w, arity, used).code)
    ensures var r := CompileArgument(t, w, arity, used);
            Run(code, pc, pc + |r.code|, b).Some? && ReadBack(t, r, w, b, Run(code, pc, pc + |r.code|, b).value)
    decreases t, 1, 0
  {
    hide *;
    InBounds(code, pc, CompileArgument(t, w, arity, used).code);
    if !t.Struct? {
      SimpleReads(t, w, arity, used, code, pc, b);
    } else {
      ArgumentsThere(t);
      if t.args[|t.args| - 1].Void? && !w.body {
        ReadTrimmed(t, w, arity, used, code, pc, b);
      } else {
        ReadWhole(t, w, arity, used, code, pc, b);
      }
    }
    ReadsGive(t, CompileArgument(t, w, arity, used), w, code, pc, b);
  }

  lemma {:induction false} ArgumentsThere(t: Term)
    requires Proper(t) && t.Struct?
    ensures t.args != [] && Proper(t.args[|t.args| - 1])
  {
  }
}
