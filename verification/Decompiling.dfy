/** The decompiler at work: it reads the code with a program counter and keeps the terms it has built
    on a stack (pl-comp.c, decompileInfo, decompile_head(), decompileBody() and build_term()). */
module Decompiling {
  import opened Clauses
  import opened Decompiler
  import opened BodyDecompiler
  import opened BodyRoundTrip
  import opened HeadRoundTrip
  import opened Variables
  import opened Compiling

  class DecompileInfo {
    const code: Codes
    var pc: nat
    var b: Building                  // the stack at ARGP

    constructor (code: Codes)
      ensures this.code == code && pc == 0 && b == Building([], [])
    {
      this.code, pc, b := code, 0, Building([], []);
    }

    /** One instruction for an argument. */
    method Argument() returns (ok: bool)
      requires pc < |code|
      modifies this`pc, this`b
      ensures var r := Step(code, old(pc), old(b)); ok == r.Some? && (ok ==> pc == r.value.pc && b == r.value.b)
      ensures ok ==> old(pc) < pc <= |code|
    {
      var s := Step(code, pc, b);
      if s.None? {
        return false;
      }
      StepAdvances(code, pc, b);
      pc, b := s.value.pc, s.value.b;
      ok := true;
    }

    /** pl-comp.c, decompile_head() */
    method Head(f: Functor) returns (head: Option<Term>)
      modifies this`pc, this`b
      ensures var r := DecompileHead(code, old(pc), f, old(b));
              && head.Some? == r.Some? && (r.Some? ==> head == Some(r.value.term) && pc == r.value.pc)
    {
      hide Step;
      while pc < |code| && !EndsHead(code[pc])
        invariant DecompileHead(code, pc, f, b) == DecompileHead(code, old(pc), f, old(b))
        decreases |code| - pc
      {
        var ok := Argument();
        if !ok {
          return None;
        }
      }
      if pc >= |code| || b.open != [] || |b.done| > f.arity {
        return None;
      }
      pc := pc + 1;
      head := Some(HeadTerm(f, b.done + Rest(|b.done|, f.arity)));
    }

    /** pl-comp.c, build_term() */
    method BuildTerm(f: Functor) returns (ok: bool)
      modifies this`b
      ensures var r := Build(old(b), f); ok == r.Some? && (ok ==> b == r.value)
    {
      if b.open != [] || |b.done| < f.arity {
        return false;
      }
      if f.arity == 0 {
        b := Put(b, Atom(f.name));
      } else {
        var n := |b.done| - f.arity;
        b := b.(done := b.done[..n] + [Struct(f, b.done[n..])]);
      }
      ok := true;
    }

    /** pl-comp.c, decompileBody(): up to the instruction `end`, or to the address `until`. */
    method Body(end: Option<Opcode>, until: Option<nat>) returns (ok: bool)
      modifies this`pc, this`b
      ensures var r := DecompileBody(code, old(pc), end, until, old(b)); ok == r.Some? && (ok ==> pc == r.value.pc && b == r.value.b)
      decreases |code| - pc, 3
    {
      hide Loop, Construct, Build, Join;
      var pushed := 0;
      while pc <= |code| && until != Some(pc)
        invariant pc >= old(pc) && Loop(code, pc, end, until, b, pushed) == Loop(code, old(pc), end, until, old(b), 0)
        decreases |code| - pc
      {
        LoopStep(code, pc, end, until, b, pushed);
        if pc == |code| {
          return false;
        }
        if end.Some? && code[pc] == Op(end.value) {
          break;
        }
        ok, pushed := Turn(pushed);
        if !ok {
          return false;
        }
      }
      LoopStep(code, pc, end, until, b, pushed);
      if pc > |code| {
        return false;
      }
      while pushed > 1
        invariant Join(b, pushed) == Join(Loop(code, old(pc), end, until, old(b), 0).value.b, Loop(code, old(pc), end, until, old(b), 0).value.pushed)
        invariant pc == Loop(code, old(pc), end, until, old(b), 0).value.pc
      {
        JoinStep(b, pushed);
        ok := BuildTerm(COMMA);
        if !ok {
          return false;
        }
        pushed := pushed - 1;
      }
      JoinStep(b, pushed);
      ok := true;
    }

    /** DECOMPILETOJUMP */
    method ToJump() returns (ok: bool)
      modifies this`pc, this`b
      ensures var r := BodyDecompiler.ToJump(code, old(pc), old(b)); ok == r.Some? && (ok ==> pc == r.value.pc && b == r.value.b)
      decreases |code| - pc, 4
    {
      hide DecompileBody;
      var j := Number(code, pc);
      if j.None? {
        return false;
      }
      pc := pc + 1;
      ok := Body(None, Some(pc + j.value));
    }

    /** build_term() of a construct that ends in front of pc. */
    method Finish(f: Functor, pushed: nat) returns (ok: bool, now: nat)
      requires pc <= |code|
      modifies this`b
      ensures var r := Called(pc, old(b), f, pushed); ok == r.Some? && (ok ==> pc == r.value.pc && b == r.value.b && now == r.value.pushed)
    {
      hide Build;
      ok := BuildTerm(f);
      now := pushed + 1;
    }

    /** A ; B */
    method Or(pushed: nat) returns (ok: bool, now: nat)
      requires pc <= |code|
      modifies this`pc, this`b
      ensures var r := ReadOr(code, old(pc), old(b), pushed);
              ok == r.Some? && (ok ==> pc == r.value.pc && b == r.value.b && now == r.value.pushed && old(pc) < pc <= |code|)
      decreases |code| - pc, 5
    {
      hide BodyDecompiler.ToJump, Called;
      now := pushed;
      var from := pc;
      ok := ToJump();
      if !ok || pc <= from + 1 {
        return false, now;
      }
      ok, now := Alternative(pushed);
    }

    /** \+ A */
    method NotProvableTerm(pushed: nat) returns (ok: bool, now: nat)
      requires pc <= |code|
      modifies this`pc, this`b
      ensures var r := ReadNot(code, old(pc), old(b), pushed);
              ok == r.Some? && (ok ==> pc == r.value.pc && b == r.value.b && now == r.value.pushed && old(pc) < pc <= |code|)
      decreases |code| - pc, 5
    {
      hide DecompileBody, Called;
      now := pushed;
      pc := pc + 2;
      ok := Body(Some(C_CUT), None);
      if !ok || pc + 3 > |code| {
        return false, now;
      }
      pc := pc + 3;
      ok, now := Finish(Functor(NotProvable, 1), pushed);
    }

    /** A -> B */
    method IfThenTerm(pushed: nat) returns (ok: bool, now: nat)
      requires pc <= |code|
      modifies this`pc, this`b
      ensures var r := ReadIfThen(code, old(pc), old(b), pushed);
              ok == r.Some? && (ok ==> pc == r.value.pc && b == r.value.b && now == r.value.pushed && old(pc) < pc <= |code|)
      decreases |code| - pc, 5
    {
      hide DecompileBody, Called;
      now := pushed;
      pc := pc + 1;
      ok := Body(Some(C_CUT), None);
      if !ok {
        return false, now;
      }
      pc := pc + 2;
      ok := Body(Some(C_END), None);
      if !ok || pc + 1 > |code| {
        return false, now;
      }
      pc := pc + 1;
      ok, now := Finish(Functor(Arrow, 2), pushed);
    }

    /** The part behind the jump at the end of A or of A -> B. */
    method Alternative(pushed: nat) returns (ok: bool, now: nat)
      requires 1 <= pc <= |code|
      modifies this`pc, this`b
      ensures var z := BodyDecompiler.ToJump(code, old(pc) - 1, old(b));
              if z.None? then !ok
              else
                var r := Called(z.value.pc, z.value.b, Functor(Semicolon, 2), pushed);
                ok == r.Some? && (ok ==> pc == r.value.pc && b == r.value.b && now == r.value.pushed && old(pc) - 1 < pc <= |code|)
      decreases |code| - pc + 1, 5
    {
      hide BodyDecompiler.ToJump, Called;
      now := pushed;
      pc := pc - 1;
      ok := ToJump();
      if ok {
        ok, now := Finish(Functor(Semicolon, 2), pushed);
      }
    }

    /** A -> B or A *-> B in front of an alternative. */
    method Guard(cut: Opcode, f: Functor) returns (ok: bool)
      requires pc <= |code|
      modifies this`pc, this`b
      ensures var r := GuardOf(code, old(pc), old(b), cut, f); ok == r.Some? && (ok ==> pc == r.value.pc && b == r.value.b && old(pc) + 2 <= pc <= |code|)
      decreases |code| - pc, 5
    {
      hide DecompileBody, Build, Number;
      var j, from := Number(code, pc + 1), pc;
      if j.None? {
        return false;
      }
      pc := pc + 2;
      ok := Body(Some(cut), None);
      if !ok {
        return false;
      }
      pc := pc + 2;
      ok := Body(None, Some(from + 2 + j.value));
      if ok {
        ok := BuildTerm(f);
      }
    }

    /** A -> B ; C and A *-> B ; C */
    method IfThenElseTerm(pushed: nat, cut: Opcode, f: Functor) returns (ok: bool, now: nat)
      requires pc <= |code|
      modifies this`pc, this`b
      ensures var r := ReadIfThenElse(code, old(pc), old(b), pushed, cut, f);
              ok == r.Some? && (ok ==> pc == r.value.pc && b == r.value.b && now == r.value.pushed && old(pc) < pc <= |code|)
      decreases |code| - pc, 6
    {
      hide BodyDecompiler.ToJump, Called, GuardOf, ReadIfThenElse;
      GuardedIs(code, pc, b, pushed, cut, f);
      now := pushed;
      ok := Guard(cut, f);
      if ok {
        ok, now := Alternative(pushed);
      }
    }

    /** One turn of the loop. */
    method Turn(pushed: nat) returns (ok: bool, now: nat)
      requires pc < |code|
      modifies this`pc, this`b
      ensures var r := Construct(code, old(pc), old(b), pushed);
              ok == r.Some? && (ok ==> pc == r.value.pc && b == r.value.b && now == r.value.pushed && old(pc) < pc <= |code|)
      decreases |code| - pc, 2
    {
      hide SubGoal, ReadOr, ReadNot, ReadIfThen, ReadIfThenElse;
      var c := code[pc];
      if c in {Op(C_CUT), Op(C_VAR), Op(C_JMP)} {
        ok, now := pc + 1 < |code|, pushed;
        pc := if ok then pc + 2 else pc;
      } else if c in {Op(C_OR), Op(C_NOT), Op(C_MARK), Op(C_IFTHENELSE), Op(C_SOFTIF)} {
        pc := pc + 1;
        if c == Op(C_OR) {
          ok, now := Or(pushed);
        } else if c == Op(C_NOT) {
          ok, now := NotProvableTerm(pushed);
        } else if c == Op(C_MARK) {
          ok, now := IfThenTerm(pushed);
        } else if c == Op(C_IFTHENELSE) {
          ok, now := IfThenElseTerm(pushed, C_CUT, Functor(Arrow, 2));
        } else {
          ok, now := IfThenElseTerm(pushed, C_SOFTCUT, Functor(SoftArrow, 2));
        }
      } else {
        var r := SubGoal(code, pc, b, pushed);
        ok, now := r.Some?, pushed;
        if r.Some? {
          pc, b, now := r.value.pc, r.value.b, r.value.pushed;
        }
      }
    }
  }

  lemma {:induction false} LoopStep(code: Codes, pc: nat, end: Option<Opcode>, until: Option<nat>, b: Building, pushed: nat)
    ensures pc > |code| ==> Loop(code, pc, end, until, b, pushed) == None
    ensures pc <= |code| && until == Some(pc) ==> Loop(code, pc, end, until, b, pushed) == Some(Read(pc, b, pushed))
    ensures pc == |code| && until != Some(pc) ==> Loop(code, pc, end, until, b, pushed) == None
    ensures pc < |code| && until != Some(pc) && end.Some? && code[pc] == Op(end.value) ==> Loop(code, pc, end, until, b, pushed) == Some(Read(pc, b, pushed))
    ensures pc < |code| && until != Some(pc) && !(end.Some? && code[pc] == Op(end.value)) ==>
              var r := Construct(code, pc, b, pushed);
              Loop(code, pc, end, until, b, pushed) == if r.None? then None else Loop(code, r.value.pc, end, until, r.value.b, r.value.pushed)
  {
    hide Construct;
  }

  function GuardOf(code: Codes, pc: nat, b: Building, cut: Opcode, f: Functor): (r: Option<Next>)
    requires pc <= |code|
    ensures r.Some? ==> pc + 2 <= r.value.pc <= |code|
  {
    var j := Number(code, pc + 1);
    if j.None? then None
    else
      var x := DecompileBody(code, pc + 2, Some(cut), None, b);
      if x.None? then None
      else
        var y := DecompileBody(code, x.value.pc + 2, None, Some(pc + 2 + j.value), x.value.b);
        if y.None? then None
        else
          var c := Build(y.value.b, f);
          if c.None? then None else Some(Next(y.value.pc, c.value))
  }

  lemma GuardedIs(code: Codes, pc: nat, b: Building, pushed: nat, cut: Opcode, f: Functor)
    requires pc <= |code|
    ensures var g := GuardOf(code, pc, b, cut, f);
            ReadIfThenElse(code, pc, b, pushed, cut, f) ==
            if g.None? then None
            else
              var z := ToJump(code, g.value.pc - 1, g.value.b);
              if z.None? then None else Called(z.value.pc, z.value.b, Functor(Semicolon, 2), pushed)
  {
    hide DecompileBody, ToJump, Called, Build, Number;
  }

  lemma JoinStep(b: Building, pushed: nat)
    ensures pushed <= 1 ==> Join(b, pushed) == Some(b)
    ensures pushed > 1 ==> var c := Build(b, COMMA); Join(b, pushed) == if c.None? then None else Join(c.value, pushed - 1)
  {
    hide Build;
  }

  /** pl-comp.c, decompile(): f is the functor of the procedure. */
  method DecompileClause(code: Codes, f: Functor, unit: bool) returns (r: Option<Decompiled>)
    ensures r == Decompile(code, f, unit)
  {
    hide DecompileHead, DecompileBody;
    var di := new DecompileInfo(code);
    var head := di.Head(f);
    if head.None? {
      return None;
    }
    if unit {
      return Some(Decompiled(head.value, TRUE));
    }
    di.b := Building([], []);
    var ok := di.Body(Some(I_EXIT), None);
    r := if !ok || |di.b.done| != 1 || di.b.open != [] then None else Some(Decompiled(head.value, di.b.done[0]));
  }

  /** What is compiled and then listed is the clause, with its variables renamed and its
      conjunctions associated to the right. */
  method Listed(h: Term, body: Term, inline: set<Functor>) returns (r: Option<Decompiled>)
    requires IsHead(h) && Named(h) && Proper(body)
    ensures r.None? <==> ClauseCode(h, body, inline).None?
    ensures r.Some? ==>
              var d, arity := Analysed(h, body), HeadFunctor(h).arity;
              && Proper(PlacedTerm(body, d, arity))
              && r == Some(Decompiled(PlacedTerm(h, d, arity), Joined(Goals(PlacedTerm(body, d, arity)))))
  {
    hide Decompile, ClauseCode, Analysed, PlacedTerm, Goals, Joined, Named;
    var code := CompileTerm(h, body, inline);
    if code.None? {
      return None;
    }
    ClauseRoundTrip(h, body, inline);
    r := DecompileClause(code.value, HeadFunctor(h), body == TRUE);
  }
}
