/**
 Macros in any assembled program, every use of them. The emulator goes to the target of a conditional
 jump exactly when the comparison holds that the macro is named for; JMP, JNZ and CALL go where they
 say; macros that compute leave what their instructions compute.
 */
module Jumps {
  import opened Words
  import opened Isa
  import opened Source
  import opened Names
  import opened Machine
  import opened Simulation
  import opened Running
  import opened Core
  import opened Macros
  import opened Blocks
  import opened Linking
  import Choosing
  import Interleaving
  import T = MacroTable
  import X = Expand
  import S = Spelling

  /** Those with a register, an operand and a target. */
  predicate IsJump(name: T.Name) { name in {T.JLT, T.JLE, T.JEQ, T.JNE, T.JGE, T.JGT, T.JMS, T.JMN} }

  /** Those with a target alone, which go by the flags. */
  predicate IsFlagJump(name: T.Name) { name in {T.JLT, T.JLE, T.JEQ, T.JNE, T.JGE, T.JGT, T.JC, T.JNC, T.JB, T.JNB} }

  /**
   When the jump is taken, by the unsigned values compared, or by the bits of a and the mask b: JMS
   when one of them is set, JMN when one is clear. JGE is always taken.
   */
  ghost predicate Goes(name: T.Name, a: byte, b: byte)
    requires IsJump(name)
  {
    match name
    case JLT => a < b
    case JLE => a <= b
    case JEQ => a == b
    case JNE => a != b
    case JGT => a > b
    case JGE => true
    case JMS => Meet(a, b)
    case JMN => Meet(Not(a), b)
  }

  /** The value of the operand. That of a mask is looked at after F has been set. */
  function Against(name: T.Name, r: Reg, x: Arg8, g: Regs): byte
    requires IsJump(name)
  {
    match name
    case JMS => MaskSeen(g, r, x)
    case JMN => MaskSeenNot(g, r, x)
    case _ => x.Value(g)
  }

  /** When the form without operands is taken, by the bits of F. */
  predicate GoesOn(name: T.Name, f: byte)
    requires IsFlagJump(name)
  {
    var less, equal := Bit(f, 0), Bit(f, 1);
    match name
    case JLT => less
    case JLE => less || equal
    case JEQ => equal
    case JNE => !equal
    case JGT => !less && !equal
    case JGE => true
    case JC => Bit(f, 2)
    case JNC => !Bit(f, 2)
    case JB => Bit(f, 3)
    case JNB => !Bit(f, 3)
  }

  function TestOf(name: T.Name, r: Reg, x: Arg8): Block
    requires IsJump(name)
  {
    match name
    case JLT => Jlt(r, x)
    case JLE => Jle(r, x)
    case JEQ => Jeq(r, x)
    case JNE => Jne(r, x)
    case JGT => Jgt(r, x)
    case JGE => Jge(r, x)
    case JMS => Jms(r, x)
    case JMN => Jmn(r, x)
  }

  function FlagTestOf(name: T.Name): Block
    requires IsFlagJump(name)
  {
    match name
    case JLT => JltFlag()
    case JLE => JleFlag()
    case JEQ => JeqFlag()
    case JNE => JneFlag()
    case JGT => JgtFlag()
    case JGE => JgeFlag()
    case JC => JcFlag()
    case JNC => JncFlag()
    case JB => JbFlag()
    case JNB => JnbFlag()
  }

  lemma Tested(name: T.Name, g: Regs, r: Reg, x: Arg8)
    requires IsJump(name)
    ensures Tests(TestOf(name, r, x), g, Goes(name, g.Get(r), Against(name, r, x, g)))
  {
    hide Tests, Jlt, Jle, Jeq, Jne, Jgt, Jge, Jms, Jmn, Regs.Get, Arg8.Value, Meet, MaskSeen, MaskSeenNot;
    JumpTests(g, r, x);
    JgeAlwaysJumps(g, r, x);
    MaskTests(g, r, x);
  }

  lemma FlagTested(name: T.Name, g: Regs)
    requires IsFlagJump(name)
    ensures Tests(FlagTestOf(name), g, GoesOn(name, g.f))
  {
    hide Tests, JltFlag, JleFlag, JeqFlag, JneFlag, JgtFlag, JgeFlag, JcFlag, JncFlag, JbFlag, JnbFlag, Bit;
    FlagJumps(g);
    CarryJumps(g);
  }

  /** The macro table spells each of them as its test and a far jump. */
  lemma JumpSpells(name: T.Name, r: Reg, v: X.Arg, t: X.Arg)
    requires IsJump(name) && S.Small(v) && S.IsTarget(t)
    ensures S.Spells(4, X.Do(name, S.A3(X.Register(r), v, t)), Branch(TestOf(name, r, X.ByteArg(v)), S.FarWord(t)), S.FarOperand(t))
  {
    hide X.ExpandTo, S.Lay, Branch, Jlt, Jle, Jeq, Jne, Jgt, Jge, Jms, Jmn, X.ByteArg, S.FarWord, S.FarOperand;
    match name
    case JLT => S.JltSpells(r, v, t);
    case JLE => S.JleSpells(r, v, t);
    case JEQ => S.JeqSpells(r, v, t);
    case JNE => S.JneSpells(r, v, t);
    case JGT => S.JgtSpells(r, v, t);
    case JGE => S.JgeSpells(r, v, t);
    case JMS => S.JmsSpells(r, v, t);
    case JMN => S.JmnSpells(r, v, t);
  }

  lemma FlagJumpSpells(name: T.Name, t: X.Arg)
    requires IsFlagJump(name) && S.IsTarget(t)
    ensures S.Spells(4, X.Do(name, S.A1(t)), Branch(FlagTestOf(name), S.FarWord(t)), S.FarOperand(t))
  {
    hide X.ExpandTo, S.Lay, Branch, JltFlag, JleFlag, JeqFlag, JneFlag, JgtFlag, JgeFlag, JcFlag, JncFlag, JbFlag, JnbFlag;
    hide S.FarWord, S.FarOperand;
    match name
    case JLT => S.JltFlagSpells(t);
    case JLE => S.JleFlagSpells(t);
    case JEQ => S.JeqFlagSpells(t);
    case JNE => S.JneFlagSpells(t);
    case JGT => S.JgtFlagSpells(t);
    case JGE => S.JgeFlagSpells(t);
    case JC => S.JcSpells(t);
    case JNC => S.JncSpells(t);
    case JB => S.JbSpells(t);
    case JNB => S.JnbSpells(t);
  }

  // ----- where a jump goes -----

  lemma {:induction false} OneScope(lines: seq<Line>, k: nat, j: nat)
    requires k <= j <= |lines| && forall n | k <= n < j :: lines[n].Op?
    ensures Scope(lines, j) == Scope(lines, k)
    decreases j
  {
    if k < j {
      OneScope(lines, k, j - 1);
    }
  }

  lemma {:induction false} OneLabel(lines: seq<Line>, k: nat, j: nat, name: string)
    requires k <= j <= |lines| && forall n | k <= n < j :: lines[n].Op?
    ensures Binding(lines, j, name) == Binding(lines, k, name)
    decreases j
  {
    OneScope(lines, k, j);
    if k < j {
      OneLabel(lines, k, j - 1, name);
    }
  }

  /** A reference among the operations from line k on gets the label that its name has on line k. */
  lemma JumpMeansLabel(lines: seq<Line>, base: word, k: nat, count: nat, j: nat, i: Native, name: string, dotted: bool)
    requires HasRoom(lines, base) && k <= j < k + count <= |lines| && forall n | k <= n < k + count :: lines[n].Op?
    requires IsLine(lines, base, j, Op(i, Ref(name, dotted))) && HasAddress(i)
    ensures Binding(lines, k, name).Some?
    ensures Means(lines, base, k, count, Ref(name, dotted), Address(lines, base, Binding(lines, k, name).value))
  {
    hide Fits, WellFormed, Bound, Binding, Offset, IsLine;
    NameComes(lines, base, j, i, name, dotted);
    OneLabel(lines, k, j, name);
    forall n | k <= n < k + count
      ensures Binding(lines, n, name) == Binding(lines, k, name)
    {
      OneLabel(lines, k, n, name);
    }
  }

  /** The target has a label, which is the one that is meant exactly when its name has a dot just where it has no global label. */
  ghost predicate Aimed(lines: seq<Line>, k: nat, t: X.Arg) {
    && k <= |lines|
    && (t.Symbol? ==>
          && Binding(lines, k, t.name).Some?
          && (UniqueNames(lines) ==>
                (Binding(lines, k, t.name) == Intended(lines, k, t.name, t.dotted) <==> t.dotted == NoGlobal(lines, t.name))))
  }

  /** The address that a target on line k stands for. */
  ghost function Goal(lines: seq<Line>, base: word, k: nat, t: X.Arg): word
    requires Good(lines, base) && Aimed(lines, k, t)
  {
    if t.Symbol? then Address(lines, base, Binding(lines, k, t.name).value) else S.FarWord(t)
  }

  /** Where the LDA of a jump stands among operations from line k on, they all mean its target. */
  lemma GoalMeant(lines: seq<Line>, base: word, k: nat, count: nat, j: nat, t: X.Arg)
    requires HasRoom(lines, base) && k <= j < k + count <= |lines| && forall n | k <= n < k + count :: lines[n].Op?
    requires IsLine(lines, base, j, Op(LDA(S.FarWord(t)), S.FarOperand(t)))
    ensures Aimed(lines, k, t)
    ensures Means(lines, base, k, count, S.FarOperand(t), Goal(lines, base, k, t))
  {
    hide Fits, WellFormed, Bound, Binding, Offset, Intended, UniqueNames, NoGlobal, IsLine, Address;
    if t.Symbol? {
      JumpMeansLabel(lines, base, k, count, j, LDA(0), t.name, t.dotted);
      if UniqueNames(lines) {
        MeantExactly(lines, k, t.name, t.dotted);
      }
    }
  }

  /** The test has no far jump of its own. */
  predicate Near(b: Block) {
    match b
    case Nop => true
    case Single(i) => !i.LDA?
    case Join(p, q) => Near(p) && Near(q)
  }

  lemma {:induction false} AimNear(b: Block, x: Operand, w: word)
    requires Near(b)
    ensures Aim(b, x, w) == b
  {
    match b
    case Join(p, q) => AimNear(p, x, w); AimNear(q, x, w);
    case _ =>
  }

  lemma NearParts()
    ensures forall i {:trigger Near(One(i))} :: Near(One(i)) == !i.LDA?
    ensures forall p, q {:trigger Near(Cat(p, q))} :: Near(Cat(p, q)) == (Near(p) && Near(q))
    ensures forall p, m {:trigger Near(Masked(p, m))} :: Near(Masked(p, m)) == Near(p)
    ensures forall p, x {:trigger Near(MaskedBy(p, x))} :: Near(MaskedBy(p, x)) == Near(p)
    ensures forall r, x {:trigger Near(Cmp(r, x))} :: Near(Cmp(r, x))
    ensures Near(Nop) && Near(NotF())
  {
  }

  lemma TestNear(name: T.Name, r: Reg, x: Arg8)
    requires IsJump(name)
    ensures Near(TestOf(name, r, x))
  {
    hide Near, Len, Pure, Masked, MaskedBy, Cmp, NotF;
    NearParts();
  }

  lemma FlagTestNear(name: T.Name)
    requires IsFlagJump(name)
    ensures Near(FlagTestOf(name))
  {
    hide Near, Len, Pure, Masked, MaskedBy, Cmp, NotF;
    NearParts();
  }

  /** LDA and a conditional jump by x. */
  function FarBy(t: word, x: Arg8): (block: Block)
    ensures Len(block) == 3 + Size(JNZ(x)) && Count(block) == 2
  {
    Cat(One(LDA(t)), One(JNZ(x)))
  }

  lemma AimFar(t: X.Arg, x: Arg8, w: word)
    requires t.Symbol? || w == S.FarWord(t)
    ensures Aim(FarBy(S.FarWord(t), x), S.FarOperand(t), w) == FarBy(w, x)
  {
    hide Aim;
    Aiming();
  }

  lemma FirstLine(lines: seq<Line>, base: word, k: nat, l: Line, rest: X.Lines)
    requires IsPart(lines, base, k, X.Put(l, rest))
    ensures k < |lines| && IsLine(lines, base, k, l)
  {
  }

  lemma FarLine(lines: seq<Line>, base: word, k: nat, t: X.Arg, x: Arg8, after: X.Lines)
    requires IsPart(lines, base, k, S.Lay(FarBy(S.FarWord(t), x), S.FarOperand(t), after)) && S.IsTarget(t)
    ensures k < |lines| && IsLine(lines, base, k, Op(LDA(S.FarWord(t)), S.FarOperand(t)))
  {
    hide S.Lay, IsPart, IsLine;
    S.Laying();
    FirstLine(lines, base, k, Op(LDA(S.FarWord(t)), S.FarOperand(t)), S.Lay(One(JNZ(x)), S.FarOperand(t), after));
  }

  /** The code of a jump: a test, and a far jump aimed at what its target means. */
  lemma FarStands(lines: seq<Line>, base: word, k: nat, test: Block, x: Arg8, t: X.Arg, after: X.Lines)
    requires HasRoom(lines, base) && S.IsTarget(t) && Near(test)
    requires IsPart(lines, base, k, S.Lay(test, S.FarOperand(t), S.Lay(FarBy(S.FarWord(t), x), S.FarOperand(t), after)))
    ensures k <= |lines| && Aimed(lines, k, t)
    ensures At(CodeOf(lines, base), Address(lines, base, k), Cat(test, FarBy(Goal(lines, base, k, t), x)))
  {
    hide S.Lay, Fits, WellFormed, Bound, Address, At, CodeOf, Count, Means, FarBy, Aim, Near, Aimed, Goal, IsPart, IsLine;
    hide S.FarWord, S.FarOperand;
    var o, far := S.FarOperand(t), FarBy(S.FarWord(t), x);
    var rest := S.Lay(far, o, after);
    LayPart(lines, base, k, test, o, rest);
    LayPart(lines, base, k + Count(test), far, o, after);
    FarLine(lines, base, k + Count(test), t, x, after);
    GoalMeant(lines, base, k, Count(test) + 2, k + Count(test), t);
    var w := Goal(lines, base, k, t);
    MeansPart(lines, base, k, Count(test), 2, o, w);
    LayBytes(lines, base, k, test, o, rest);
    LayAt(lines, base, k, test, o, w, rest);
    LayAt(lines, base, k + Count(test), far, o, w, after);
    AimNear(test, o, w);
    GoalIs(lines, base, k, t);
    AimFar(t, x, w);
    Glue(CodeOf(lines, base), Address(lines, base, k), test, FarBy(w, x));
  }

  lemma GoalIs(lines: seq<Line>, base: word, k: nat, t: X.Arg)
    requires Good(lines, base) && Aimed(lines, k, t)
    ensures t.Symbol? || Goal(lines, base, k, t) == S.FarWord(t)
  {
  }

  /** The lines of an operation that is spelled as a test and a far jump, where the text uses it. */
  lemma JumpStands(lines: seq<Line>, base: word, text: X.Text, op: X.Operation, test: Block, t: X.Arg, rest: X.Text) returns (k: nat)
    requires HasRoom(lines, base) && MadeFrom(lines, base, text, X.Uses(op, rest))
    requires S.IsTarget(t) && S.Spells(4, op, Branch(test, S.FarWord(t)), S.FarOperand(t)) && Near(test)
    ensures BeginsAt(lines, base, text, X.Uses(op, rest), k) && Aimed(lines, k, t)
    ensures At(CodeOf(lines, base), Address(lines, base, k), Branch(test, Goal(lines, base, k, t)))
  {
    hide X.ExpandText, X.ExpandTo, X.Joined, S.Lay, S.FarWord, S.FarOperand, IsPart, Address, At, CodeOf, Goal, Aimed, Fits, WellFormed, Bound;
    hide MadeFrom, BeginsAt, Near;
    k := UseStands(lines, base, text, op, Branch(test, S.FarWord(t)), S.FarOperand(t), rest);
    S.Laying();
    FarStands(lines, base, k, test, Rg(F), t, X.NoLines);
  }

  lemma UseStands(lines: seq<Line>, base: word, text: X.Text, op: X.Operation, b: Block, x: Operand, rest: X.Text) returns (k: nat)
    requires MadeFrom(lines, base, text, X.Uses(op, rest)) && S.Spells(4, op, b, x)
    ensures BeginsAt(lines, base, text, X.Uses(op, rest), k) && IsPart(lines, base, k, S.Lay(b, x, X.NoLines))
  {
    hide X.ExpandText, X.ExpandTo, X.Joined, S.Lay, IsPart, MadeFrom, BeginsAt;
    Expanding();
    Joining();
    k := PartStands(lines, base, text, X.Uses(op, X.End), rest, S.Lay(b, x, X.NoLines));
  }

  // ----- and what it does -----

  /** The run has gone to the label or on to the next instruction, and has changed F, H and L alone. */
  ghost predicate Jumped(s: State, s': State, goes: bool, there: word, next: int) {
    && s'.pc == (if goes then there else next) && s'.sp == s.sp && SameData(s.g, s'.g) && Untouched(s, s', {})
  }

  ghost predicate Arrives(s: State, goes: bool, there: word, next: int) {
    exists n: nat :: Jumped(s, Run(s, n), goes, there, next)
  }

  /** The machine holds the program and is about to run what stands on line k. */
  ghost predicate AtOp(s: State, lines: seq<Line>, base: word, k: nat) {
    Ready(s, lines, base, {}, {}) && k <= |lines| && s.pc == Address(lines, base, k)
  }

  lemma BranchRuns(s: State, lines: seq<Line>, base: word, k: nat, test: Block, t: word, cond: bool) returns (n: nat)
    requires AtOp(s, lines, base, k) && At(CodeOf(lines, base), s.pc, Branch(test, t)) && Tests(test, s.g, cond)
    ensures Jumped(s, Run(s, n), cond, t, s.pc + Len(test) + 4) && Loaded(Run(s, n), lines, base)
  {
    hide Run, Loaded, Fits, WellFormed, Bound, Halted, At, CodeOf, Tests, Reaches, Untouched, Branch, Ready, Address;
    AtOpIs(s, lines, base, k);
    var h := CoreOf(s, {}, {});
    var h' := RunBranch(CodeOf(lines, base), h, test, t, cond);
    n := RunsOnMachine(s, lines, base, {}, {}, h', {});
  }

  lemma BranchArrives(s: State, lines: seq<Line>, base: word, k: nat, test: Block, t: word, cond: bool)
    requires AtOp(s, lines, base, k) && At(CodeOf(lines, base), s.pc, Branch(test, t)) && Tests(test, s.g, cond)
    ensures Arrives(s, cond, t, s.pc + Len(test) + 4)
  {
    hide Run, Loaded, Fits, WellFormed, Bound, Halted, At, CodeOf, Tests, Untouched, Branch, Ready, Address, Jumped;
    var n := BranchRuns(s, lines, base, k, test, t, cond);
  }

  /**
   A comparing or masking jump in the source of any program, every use of it: a run that comes to the
   line where the use begins goes to what the assembler takes for the target there, exactly when the
   comparison holds, and keeps memory and data registers.
   */
  lemma JumpOnMachine(lines: seq<Line>, base: word, text: X.Text, name: T.Name, r: Reg, v: X.Arg, t: X.Arg, rest: X.Text)
    returns (k: nat)
    requires IsJump(name) && S.Small(v) && S.IsTarget(t)
    requires HasRoom(lines, base) && MadeFrom(lines, base, text, X.Uses(X.Do(name, S.A3(X.Register(r), v, t)), rest))
    ensures BeginsAt(lines, base, text, X.Uses(X.Do(name, S.A3(X.Register(r), v, t)), rest), k) && Aimed(lines, k, t)
    ensures
      var x := X.ByteArg(v);
      forall s: State {:trigger AtOp(s, lines, base, k)} | AtOp(s, lines, base, k) ::
        Arrives(s, Goes(name, s.g.Get(r), Against(name, r, x, s.g)), Goal(lines, base, k, t), s.pc + Len(TestOf(name, r, x)) + 4)
  {
    hide BeginsAt, MadeFrom, S.Spells, Address, TestOf, Goes, Against, At, CodeOf, Aimed, Goal, Fits, WellFormed, Bound;
    hide Branch, Arrives, AtOp, Near, Len, Tests, Regs.Get, X.ByteArg, S.FarWord, S.FarOperand, IsJump;
    var x := X.ByteArg(v);
    JumpSpells(name, r, v, t);
    TestNear(name, r, x);
    k := JumpStands(lines, base, text, X.Do(name, S.A3(X.Register(r), v, t)), TestOf(name, r, x), t, rest);
    forall s: State | AtOp(s, lines, base, k)
      ensures Arrives(s, Goes(name, s.g.Get(r), Against(name, r, x, s.g)), Goal(lines, base, k, t), s.pc + Len(TestOf(name, r, x)) + 4)
    {
      Tested(name, s.g, r, x);
      AtOpIs(s, lines, base, k);
      BranchArrives(s, lines, base, k, TestOf(name, r, x), Goal(lines, base, k, t), Goes(name, s.g.Get(r), Against(name, r, x, s.g)));
    }
  }

  lemma AtOpIs(s: State, lines: seq<Line>, base: word, k: nat)
    requires AtOp(s, lines, base, k)
    ensures k <= |lines| && Good(lines, base) && s.pc == Address(lines, base, k)
  {
  }

  /** The same for the form without operands, which goes by what F holds. */
  lemma FlagJumpOnMachine(lines: seq<Line>, base: word, text: X.Text, name: T.Name, t: X.Arg, rest: X.Text) returns (k: nat)
    requires IsFlagJump(name) && S.IsTarget(t)
    requires HasRoom(lines, base) && MadeFrom(lines, base, text, X.Uses(X.Do(name, S.A1(t)), rest))
    ensures BeginsAt(lines, base, text, X.Uses(X.Do(name, S.A1(t)), rest), k) && Aimed(lines, k, t)
    ensures
      forall s: State {:trigger AtOp(s, lines, base, k)} | AtOp(s, lines, base, k) ::
        Arrives(s, GoesOn(name, s.g.f), Goal(lines, base, k, t), s.pc + Len(FlagTestOf(name)) + 4)
  {
    hide BeginsAt, MadeFrom, S.Spells, Address, FlagTestOf, GoesOn, At, CodeOf, Aimed, Goal, Fits, WellFormed, Bound;
    hide Branch, Arrives, AtOp, Near, Len, Tests, S.FarWord, S.FarOperand, IsFlagJump;
    FlagJumpSpells(name, t);
    FlagTestNear(name);
    k := JumpStands(lines, base, text, X.Do(name, S.A1(t)), FlagTestOf(name), t, rest);
    forall s: State | AtOp(s, lines, base, k)
      ensures Arrives(s, GoesOn(name, s.g.f), Goal(lines, base, k, t), s.pc + Len(FlagTestOf(name)) + 4)
    {
      FlagTested(name, s.g);
      AtOpIs(s, lines, base, k);
      BranchArrives(s, lines, base, k, FlagTestOf(name), Goal(lines, base, k, t), GoesOn(name, s.g.f));
    }
  }

  lemma JzNear(r: Reg)
    ensures Near(Jz(r))
  {
    hide Near, Len, Pure, Masked, MaskedBy, Cmp, NotF;
    NearParts();
  }

  /** JZ, which compares with zero. */
  lemma JzOnMachine(lines: seq<Line>, base: word, text: X.Text, r: Reg, t: X.Arg, rest: X.Text) returns (k: nat)
    requires S.IsTarget(t)
    requires HasRoom(lines, base) && MadeFrom(lines, base, text, X.Uses(X.Do(T.JZ, S.A2(X.Register(r), t)), rest))
    ensures BeginsAt(lines, base, text, X.Uses(X.Do(T.JZ, S.A2(X.Register(r), t)), rest), k) && Aimed(lines, k, t)
    ensures
      forall s: State {:trigger AtOp(s, lines, base, k)} | AtOp(s, lines, base, k) ::
        Arrives(s, s.g.Get(r) == 0, Goal(lines, base, k, t), s.pc + Len(Jz(r)) + 4)
  {
    hide BeginsAt, MadeFrom, X.ExpandTo, S.Lay, Address, Jz, At, CodeOf, Aimed, Goal, Fits, WellFormed, Bound;
    hide Branch, Arrives, AtOp, Near, Len, Tests, Regs.Get, S.FarWord, S.FarOperand;
    S.JzSpells(r, t);
    JzNear(r);
    k := JumpStands(lines, base, text, X.Do(T.JZ, S.A2(X.Register(r), t)), Jz(r), t, rest);
    forall s: State | AtOp(s, lines, base, k)
      ensures Arrives(s, s.g.Get(r) == 0, Goal(lines, base, k, t), s.pc + Len(Jz(r)) + 4)
    {
      JzTest(s.g, r);
      AtOpIs(s, lines, base, k);
      BranchArrives(s, lines, base, k, Jz(r), Goal(lines, base, k, t), s.g.Get(r) == 0);
    }
  }

  // ----- JMP and JNZ -----

  lemma FarArrives(s: State, lines: seq<Line>, base: word, k: nat, x: Arg8, t: word)
    requires AtOp(s, lines, base, k) && At(CodeOf(lines, base), s.pc, FarBy(t, x))
    ensures Arrives(s, FarSeen(x, s.g, t) != 0, t, s.pc + 3 + Size(JNZ(x)))
  {
    hide Run, Loaded, Fits, WellFormed, Bound, Halted, At, CodeOf, Reaches, Untouched, Ready, Address, FarSeen, Jumped, Size;
    AtOpIs(s, lines, base, k);
    var h' := RunFar(CodeOf(lines, base), CoreOf(s, {}, {}), x, t);
    var n := RunsOnMachine(s, lines, base, {}, {}, h', {});
    JumpedBy(s, Run(s, n), FarSeen(x, s.g, t) != 0, t, s.pc + 3 + Size(JNZ(x)));
  }

  lemma JumpedBy(s: State, s': State, goes: bool, there: word, next: int)
    requires s'.pc == (if goes then there else next) && s'.sp == s.sp && SameData(s.g, s'.g) && Untouched(s, s', {})
    ensures Jumped(s, s', goes, there, next)
  {
  }

  /** An operation that is spelled as a far jump alone: it goes by its operand, read after H and L have been set. */
  lemma FarOnMachine(lines: seq<Line>, base: word, text: X.Text, op: X.Operation, x: Arg8, t: X.Arg, rest: X.Text) returns (k: nat)
    requires S.IsTarget(t) && S.Spells(4, op, FarBy(S.FarWord(t), x), S.FarOperand(t))
    requires HasRoom(lines, base) && MadeFrom(lines, base, text, X.Uses(op, rest))
    ensures BeginsAt(lines, base, text, X.Uses(op, rest), k) && Aimed(lines, k, t)
    ensures
      var there := Goal(lines, base, k, t);
      forall s: State {:trigger AtOp(s, lines, base, k)} | AtOp(s, lines, base, k) ::
        Arrives(s, FarSeen(x, s.g, there) != 0, there, s.pc + 3 + Size(JNZ(x)))
  {
    hide BeginsAt, MadeFrom, S.Spells, S.Lay, Address, At, CodeOf, Aimed, Goal, Fits, WellFormed, Bound, IsPart;
    hide Arrives, AtOp, FarBy, S.FarWord, S.FarOperand, FarSeen, Size, Near;
    k := UseStands(lines, base, text, op, FarBy(S.FarWord(t), x), S.FarOperand(t), rest);
    S.Laying();
    NearParts();
    FarStands(lines, base, k, Nop, x, t, X.NoLines);
    var there := Goal(lines, base, k, t);
    NoTest(CodeOf(lines, base), Address(lines, base, k), FarBy(there, x));
    forall s: State | AtOp(s, lines, base, k)
      ensures Arrives(s, FarSeen(x, s.g, there) != 0, there, s.pc + 3 + Size(JNZ(x)))
    {
      AtOpIs(s, lines, base, k);
      FarArrives(s, lines, base, k, x, there);
    }
  }

  lemma NoTest(code: Code, pc: int, b: Block)
    requires At(code, pc, Cat(Nop, b))
    ensures At(code, pc, b)
  {
  }

  /** `jnz v, [t]` and `jmp [t]` in the source of any program, every use of them. */
  lemma JnzOnMachine(lines: seq<Line>, base: word, text: X.Text, v: X.Arg, t: X.Arg, rest: X.Text) returns (k: nat)
    requires S.Small(v) && S.IsTarget(t)
    requires HasRoom(lines, base) && MadeFrom(lines, base, text, X.Uses(X.Do(T.JNZ, S.A2(v, t)), rest))
    ensures BeginsAt(lines, base, text, X.Uses(X.Do(T.JNZ, S.A2(v, t)), rest), k) && Aimed(lines, k, t)
    ensures
      var there, x := Goal(lines, base, k, t), X.ByteArg(v);
      forall s: State {:trigger AtOp(s, lines, base, k)} | AtOp(s, lines, base, k) ::
        Arrives(s, FarSeen(x, s.g, there) != 0, there, s.pc + 3 + Size(JNZ(x)))
  {
    hide BeginsAt, MadeFrom, X.ExpandTo, S.Lay, Aimed, Goal, Fits, WellFormed, Bound, Arrives, AtOp, S.FarWord, S.FarOperand;
    hide FarSeen, X.ByteArg, Size;
    S.JnzToSpells(v, t);
    k := FarOnMachine(lines, base, text, X.Do(T.JNZ, S.A2(v, t)), X.ByteArg(v), t, rest);
  }

  lemma JmpOnMachine(lines: seq<Line>, base: word, text: X.Text, t: X.Arg, rest: X.Text) returns (k: nat)
    requires S.IsTarget(t)
    requires HasRoom(lines, base) && MadeFrom(lines, base, text, X.Uses(X.Do(T.JMP, S.A1(t)), rest))
    ensures BeginsAt(lines, base, text, X.Uses(X.Do(T.JMP, S.A1(t)), rest), k) && Aimed(lines, k, t)
    ensures
      forall s: State {:trigger AtOp(s, lines, base, k)} | AtOp(s, lines, base, k) ::
        Arrives(s, true, Goal(lines, base, k, t), s.pc + 5)
  {
    hide BeginsAt, MadeFrom, X.ExpandTo, S.Lay, Aimed, Goal, Fits, WellFormed, Bound, Arrives, AtOp, S.FarWord, S.FarOperand;
    S.JmpToSpells(t);
    k := FarOnMachine(lines, base, text, X.Do(T.JMP, S.A1(t)), Imm(1), t, rest);
  }

  // ----- CALL -----

  /** The run has entered a routine with the address of the next instruction on the stack. */
  ghost predicate CalledFrom(s: State, s': State, there: word, next: int)
    requires 2 <= s.sp
  {
    && s'.pc == there && s'.sp == s.sp - 2 && SameData(s.g, s'.g)
    && Pair(Peek(s', s.sp), Peek(s', s.sp - 1)) == next && Untouched(s, s', {s.sp - 1, s.sp})
  }

  /** The machine is about to run what stands on line k, with two cells of the stack to write. */
  ghost predicate AtCall(s: State, lines: seq<Line>, base: word, k: nat) {
    2 <= s.sp && Ready(s, lines, base, {s.sp - 1, s.sp}, {}) && k <= |lines| && s.pc == Address(lines, base, k)
  }

  ghost predicate Enters(s: State, there: word, next: int)
    requires 2 <= s.sp
  {
    exists n: nat :: CalledFrom(s, Run(s, n), there, next)
  }

  lemma CallEnters(s: State, lines: seq<Line>, base: word, k: nat, t: word)
    requires AtCall(s, lines, base, k) && s.pc + 9 < 65536 && At(CodeOf(lines, base), s.pc, Call(t, s.pc + 9))
    ensures Enters(s, t, s.pc + 9)
  {
    hide Run, Loaded, Fits, WellFormed, Bound, Halted, At, CodeOf, Reaches, Untouched, Ready, Address, Call, Peek, Pair, Hi, Lo;
    var cells: set<word> := {s.sp - 1, s.sp};
    var h := CoreOf(s, cells, {});
    ReadyLoaded(s, lines, base, cells, {});
    var h' := RunCall(CodeOf(lines, base), h, t, s.pc + 9);
    var n := RunsOnMachine(s, lines, base, cells, {}, h', {s.sp - 1, s.sp});
    assert CalledFrom(s, Run(s, n), t, s.pc + 9);
  }

  /** `call [t]` in the source of any program, every use of it. */
  lemma CallOnMachine(lines: seq<Line>, base: word, text: X.Text, t: X.Arg, rest: X.Text) returns (k: nat)
    requires S.IsTarget(t)
    requires HasRoom(lines, base) && MadeFrom(lines, base, text, X.Uses(X.Do(T.CALL, S.A1(t)), rest))
    ensures BeginsAt(lines, base, text, X.Uses(X.Do(T.CALL, S.A1(t)), rest), k) && Aimed(lines, k, t)
    ensures
      forall s: State {:trigger AtCall(s, lines, base, k)} | AtCall(s, lines, base, k) ::
        Enters(s, Goal(lines, base, k, t), s.pc + 9)
  {
    hide BeginsAt, MadeFrom, X.ExpandText, X.ExpandTo, X.Joined, S.CallLines, IsPart, Address, At, CodeOf, Aimed, Goal, Fits, WellFormed, Bound;
    hide Enters, Call, S.FarWord, S.FarOperand, Ready, S.IsTarget;
    S.CallSpells(t);
    Expanding();
    Joining();
    k := PartStands(lines, base, text, X.Uses(X.Do(T.CALL, S.A1(t)), X.End), rest, S.CallLines(t, X.NoLines));
    CallStands(lines, base, k, t, X.NoLines);
    forall s: State | AtCall(s, lines, base, k)
      ensures Enters(s, Goal(lines, base, k, t), s.pc + 9)
    {
      CallEnters(s, lines, base, k, Goal(lines, base, k, t));
    }
  }

  lemma CallStands(lines: seq<Line>, base: word, k: nat, t: X.Arg, after: X.Lines)
    requires HasRoom(lines, base) && S.IsTarget(t) && IsPart(lines, base, k, S.CallLines(t, after))
    ensures Aimed(lines, k, t) && Address(lines, base, k) + 9 < 65536
    ensures At(CodeOf(lines, base), Address(lines, base, k), Call(Goal(lines, base, k, t), Address(lines, base, k) + 9))
  {
    hide IsLine, S.FarWord, S.FarOperand, Address, At, CodeOf, Aimed, Goal, Fits, WellFormed, Bound, Call, Means;
    CallPart(lines, base, k, t, after);
    CallLine(lines, base, k, t, after);
    GoalMeant(lines, base, k, 4, k + 2, t);
    GoalIs(lines, base, k, t);
    CallAt(lines, base, k, t, Goal(lines, base, k, t), after);
    AddressFits(lines, base, k + 4);
  }

  lemma CallLine(lines: seq<Line>, base: word, k: nat, t: X.Arg, after: X.Lines)
    requires S.IsTarget(t) && IsPart(lines, base, k, S.CallLines(t, after))
    ensures IsLine(lines, base, k + 2, Op(LDA(S.FarWord(t)), S.FarOperand(t)))
  {
    hide IsLine, S.FarWord, S.FarOperand;
    assert IsPart(lines, base, k + 1, S.CallLines(t, after).rest) && IsPart(lines, base, k + 2, S.CallLines(t, after).rest.rest);
  }

  // ----- macros that compute -----

  /** The run has changed the registers as the block does, and nothing else. */
  ghost predicate Computed(s: State, s': State, b: Block)
    requires Pure(b)
  {
    s'.g == RegsAfter(b, s.g) && s'.sp == s.sp && s'.pc == s.pc + Len(b) && Untouched(s, s', {})
  }

  ghost predicate Completes(s: State, b: Block)
    requires Pure(b)
  {
    exists n: nat :: Computed(s, Run(s, n), b)
  }

  lemma BlockCompletes(s: State, lines: seq<Line>, base: word, k: nat, b: Block)
    requires AtOp(s, lines, base, k) && At(CodeOf(lines, base), s.pc, b) && Pure(b)
    ensures Completes(s, b)
  {
    hide Run, Loaded, Fits, WellFormed, Bound, Halted, At, CodeOf, Reaches, Untouched, Ready, Address, RegsAfter, Len;
    AtOpIs(s, lines, base, k);
    var h := CoreOf(s, {}, {});
    RunPure(CodeOf(lines, base), h, b);
    var h' := h.(g := RegsAfter(b, h.g), pc := h.pc + Len(b));
    var n := RunsOnMachine(s, lines, base, {}, {}, h', {});
    assert Computed(s, Run(s, n), b);
  }

  lemma BlockThere(lines: seq<Line>, base: word, k: nat, op: X.Operation, op1: X.Operation, b: Block, rest: X.Text)
    requires HasRoom(lines, base) && k <= |lines| && Pure(b)
    requires Interleaving.Interleaved(X.Uses(op, rest), lines[..k], base) == Some(lines)
    requires Interleaving.SameText(X.Uses(op1, X.End), X.Uses(op, X.End), lines[..k], base) && S.Spells(4, op1, b, Written)
    ensures forall s: State {:trigger AtOp(s, lines, base, k)} | AtOp(s, lines, base, k) :: Completes(s, b)
  {
    hide X.ExpandText, X.ExpandTo, X.Joined, S.Lay, IsPart, Address, At, CodeOf, Fits, WellFormed, Bound, Pure, AtOp, Completes, Count;
    hide Interleaving.Interleaved, Interleaving.SameText;
    Expanding();
    Joining();
    EmitsThere(lines, base, k, X.Uses(op, X.End), rest, X.Uses(op1, X.End), S.Lay(b, Written, X.NoLines));
    PlainLinks(lines, base, k, b, X.NoLines);
    forall s: State | AtOp(s, lines, base, k)
      ensures Completes(s, b)
    {
      AtOpIs(s, lines, base, k);
      BlockCompletes(s, lines, base, k, b);
    }
  }

  lemma KnownTwice(args: X.Args, out: seq<Line>, base: word)
    ensures Choosing.KnownArgs(Choosing.KnownArgs(args, out, base), out, base) == Choosing.KnownArgs(args, out, base)
  {
    hide Choosing.Early;
  }

  /**
   A macro that is spelled as a block without memory or jumps, in the source of any program, every
   use of it: a run that comes to the line where the use begins computes what the block computes. It
   may be spelled so by its arguments as they are, or with the labels in front as numbers.
   */
  lemma BlockOnMachine(lines: seq<Line>, base: word, text: X.Text, op: X.Operation, b: Block, rest: X.Text) returns (k: nat)
    requires HasRoom(lines, base) && MadeFrom(lines, base, text, X.Uses(op, rest)) && Pure(b)
    ensures BeginsAt(lines, base, text, X.Uses(op, rest), k) && k <= |lines|
    ensures S.Spells(4, op, b, Written) || S.Spells(4, Choosing.KnownOp(op, lines[..k], base), b, Written) ==>
      forall s: State {:trigger AtOp(s, lines, base, k)} | AtOp(s, lines, base, k) :: Completes(s, b)
  {
    hide S.Spells, Fits, WellFormed, Bound, Pure, AtOp, Completes, MadeFrom, BeginsAt, Interleaving.Interleaved, Choosing.KnownArgs;
    k := PartBegins(lines, base, text, X.Uses(op, rest));
    if S.Spells(4, op, b, Written) {
      BlockThere(lines, base, k, op, op, b, rest);
    } else if S.Spells(4, Choosing.KnownOp(op, lines[..k], base), b, Written) {
      KnownTwice(op.args, lines[..k], base);
      BlockThere(lines, base, k, op, Choosing.KnownOp(op, lines[..k], base), b, rest);
    }
  }

  // ----- ADD16 of a label -----

  /** `add16 hi, lo, x` */
  function AddOf(hi: Reg, lo: Reg, x: X.Arg): X.Operation {
    X.Do(T.ADD16, S.A3(X.Register(hi), X.Register(lo), x))
  }

  /** Without the number of its label no overload of ADD16 has lines. */
  lemma AddNeedsNumber(hi: Reg, lo: Reg, t: X.Arg, rest: X.Text)
    requires t.Symbol?
    ensures
      var op := AddOf(hi, lo, t);
      var m := X.FirstMatch(T.Overloads(op.name), op.args);
      !X.IsNative(op) && (m.NoMacros? || X.Splice(m.body, op.args, rest).None?)
  {
    hide X.Accepts, X.FirstMatch, X.ArgAt, T.Overloads, T.NativeParams, X.Filled;
    S.Add16Entry();
    S.Accepting();
    S.Filling();
  }

  lemma AddKnown(lines: seq<Line>, base: word, k: nat, hi: Reg, lo: Reg, name: string, dotted: bool, rest: X.Text)
    requires k <= |lines| && Fits(lines, base)
    requires Interleaving.Interleaved(X.Uses(AddOf(hi, lo, X.Symbol(name, dotted)), rest), lines[..k], base).Some?
    ensures LastGlobal(lines, name, k).Some?
    ensures
      var w := Address(lines, base, LastGlobal(lines, name, k).value);
      Choosing.KnownOp(AddOf(hi, lo, X.Symbol(name, dotted)), lines[..k], base)
        == AddOf(hi, lo, X.Number(w))
  {
    hide X.FirstMatch, T.Overloads, X.Splice, X.IsNative, Interleaving.Interleaved, Fits, Offset, LastGlobal;
    var front, t := lines[..k], X.Symbol(name, dotted);
    Interleaving.SliceKeeps(lines, k, name, k);
    var op := AddOf(hi, lo, t);
    OneKnown(front, base, hi, lo, t);
    if Choosing.Early(front, base, name).None? {
      AddNeedsNumber(hi, lo, t, rest);
      Interleaving.MacroRound(op, rest, front, base);
    } else {
      var m := LastGlobal(lines, name, k).value;
      Interleaving.SliceKeeps(lines, k, name, m);
    }
  }

  lemma OneKnown(front: seq<Line>, base: word, hi: Reg, lo: Reg, t: X.Arg)
    ensures Choosing.KnownArgs(S.A3(X.Register(hi), X.Register(lo), t), front, base)
      == S.A3(X.Register(hi), X.Register(lo), Choosing.Known(t, front, base))
  {
    hide Choosing.Early;
    assert Choosing.KnownArgs(X.NoArgs, front, base) == X.NoArgs;
    assert Choosing.KnownArgs(S.A1(t), front, base) == S.A1(Choosing.Known(t, front, base));
    assert Choosing.KnownArgs(S.A2(X.Register(lo), t), front, base) == S.A2(X.Register(lo), Choosing.Known(t, front, base));
  }

  /**
   `add16 hi, lo, [x]` in the source of any program, every use of it (os/lib/gfx.asm, line 75): it
   assembles behind a label x alone, and adds the address of the last one.
   */
  lemma AddOnMachine(lines: seq<Line>, base: word, text: X.Text, hi: Reg, lo: Reg, name: string, dotted: bool, rest: X.Text)
    returns (k: nat)
    requires HasRoom(lines, base)
    requires MadeFrom(lines, base, text, X.Uses(AddOf(hi, lo, X.Symbol(name, dotted)), rest))
    ensures BeginsAt(lines, base, text, X.Uses(AddOf(hi, lo, X.Symbol(name, dotted)), rest), k)
    ensures k <= |lines| && LastGlobal(lines, name, k).Some?
    ensures
      var w := Address(lines, base, LastGlobal(lines, name, k).value);
      forall s: State {:trigger AtOp(s, lines, base, k)} | AtOp(s, lines, base, k) :: Completes(s, Add16(hi, lo, Imm(Hi(w)), Imm(Lo(w))))
  {
    hide Fits, WellFormed, Bound, Pure, AtOp, Completes, MadeFrom, BeginsAt, Interleaving.Interleaved, Choosing.KnownArgs;
    hide Address, LastGlobal, Add16, X.ExpandTo;
    var op := AddOf(hi, lo, X.Symbol(name, dotted));
    k := PartBegins(lines, base, text, X.Uses(op, rest));
    AddKnown(lines, base, k, hi, lo, name, dotted, rest);
    var w := Address(lines, base, LastGlobal(lines, name, k).value);
    S.Add16Spells(hi, lo, w, Written);
    KnownTwice(op.args, lines[..k], base);
    BlockThere(lines, base, k, op, Choosing.KnownOp(op, lines[..k], base), Add16(hi, lo, Imm(Hi(w)), Imm(Lo(w))), rest);
  }
}
