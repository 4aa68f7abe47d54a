/**
 Macros that halt, set flags, count, use ports, store constants, or go through HL or a pair of
 registers: the state of the whole machine after them, for every use in the text of any program.
 */
module Effects {
  import opened Words
  import opened Isa
  import opened Source
  import opened Names
  import opened Machine
  import opened Simulation
  import opened Core
  import opened Macros
  import opened Blocks
  import opened Calls
  import opened Sundry
  import opened Linking
  import opened Jumps
  import Choosing
  import Interleaving
  import T = MacroTable
  import X = Expand
  import S = Spelling

  // ----- a block on the machine, instruction by instruction -----

  /** What the instructions do one after the other, as long as none of them goes elsewhere before the last. */
  function ExecAll(b: Block, s: State): State
    decreases b
  {
    match b
    case Nop => s
    case Single(i) => Exec(i, s.(pc := U16(s.pc + Size(i))))
    case Join(p, q) => ExecAll(q, ExecAll(p, s))
  }

  /** They run to the last, and leave the program alone. */
  ghost predicate Fine(b: Block, s: State, lines: seq<Line>, base: word)
    requires Good(lines, base)
    decreases b
  {
    match b
    case Nop => true
    case Single(i) => !Halted(s) && Harmless(i, s, lines, base)
    case Join(p, q) => Fine(p, s, lines, base) && ExecAll(p, s).pc == s.pc + Len(p) && Fine(q, ExecAll(p, s), lines, base)
  }

  lemma {:induction false} BlockSteps(s: State, lines: seq<Line>, base: word, b: Block)
    requires Good(lines, base) && Loaded(s, lines, base) && At(CodeOf(lines, base), s.pc, b) && Fine(b, s, lines, base)
    ensures Run(s, Count(b)) == ExecAll(b, s) && Loaded(ExecAll(b, s), lines, base)
    decreases b
  {
    hide Exec, Step, CodeOf, Loaded, Harmless, Halted, Fits, WellFormed, Bound, Holds, Size;
    match b
    case Nop =>
    case Single(i) => OneStep(s, lines, base, i);
    case Join(p, q) =>
      BlockSteps(s, lines, base, p);
      BlockSteps(ExecAll(p, s), lines, base, q);
      RunAdd(s, Count(p), Count(q));
  }

  lemma OneStep(s: State, lines: seq<Line>, base: word, i: Native)
    requires Good(lines, base) && Loaded(s, lines, base) && At(CodeOf(lines, base), s.pc, Single(i))
    requires !Halted(s) && Harmless(i, s, lines, base)
    ensures Run(s, 1) == Exec(i, s.(pc := U16(s.pc + Size(i)))) && Loaded(Run(s, 1), lines, base)
  {
    hide Exec, Step, CodeOf, Loaded, Harmless, Halted, Fits, WellFormed, Bound, Holds;
    CodeHolds(s, lines, base, s.pc);
    StepMeetsSpec(s, i);
    StaysLoaded(s, lines, base);
    assert Run(s, 1) == Step(s) by { RunOnce(s); }
  }

  lemma RunOnce(s: State)
    ensures Run(s, 1) == Step(s)
  {
    hide Step;
  }

  /** The machine has the program in memory, runs, and is about to run what stands on line k. */
  ghost predicate AtLine(s: State, lines: seq<Line>, base: word, k: nat) {
    && Good(lines, base) && Loaded(s, lines, base) && !Halted(s)
    && k <= |lines| && s.pc == Address(lines, base, k)
  }

  // ----- what the macros are for -----

  datatype Result = Result(steps: nat, after: State)

  /** F with a flag as given: 0 LESS, 1 EQUAL, 2 CARRY, 3 BORROW. */
  function Flagged(s: State, k: nat, on: bool): Option<Result>
    requires k < 4
  {
    Some(Result(1, s.(g := s.g.(f := SetTo(s.g.f, k, on)), pc := U16(s.pc + 2))))
  }

  /** HL as the word of a pair, the high register first. */
  function ToHl(g: Regs, hi: Reg, lo: Reg): Regs { g.(h := g.Get(hi), l := LowSeen(g, hi, lo)) }

  /** HL one further on, with F as a sum of H and zero leaves it. */
  function Onward(g: Regs): Regs {
    var w := U16(g.HL() + 1);
    g.(h := Hi(w), l := Lo(w), f := if g.h == 0 then 2 else 0)
  }

  /** A pair of registers, and F apart from it. */
  predicate IsPair(hi: Reg, lo: Reg) { hi != lo && hi != F && lo != F }

  /** Without arguments. */
  function Meaning0(name: T.Name, s: State): Option<Result> {
    match name
    case HALT =>
      var f := SetTo(s.status, 3, true);
      Some(Result(3, s.(status := f, g := s.g.(f := f), pc := U16(s.pc + 6))))
    case CLF => Some(Result(1, s.(g := s.g.(f := 0), pc := U16(s.pc + 2))))
    case STL => Flagged(s, 0, true)
    case CLL => Flagged(s, 0, false)
    case STE => Flagged(s, 1, true)
    case CLE => Flagged(s, 1, false)
    case STC => Flagged(s, 2, true)
    case CLC => Flagged(s, 2, false)
    case STB => Flagged(s, 3, true)
    case CLB => Flagged(s, 3, false)
    case _ => None
  }

  /** On one register. */
  function Meaning1(name: T.Name, r: Reg, s: State): Option<Result> {
    var g, next := s.g, U16(s.pc + 2);
    match name
    case INC => Some(Result(1, s.(g := g.Set(r, U8(g.Get(r) + 1)).Set(F, Flags(g.Get(r), 1)), pc := next)))
    case FDEC =>
      var borrow := if Bit(g.f, 3) then 1 else 0;
      Some(Result(1, s.(g := g.Set(r, U8(g.Get(r) - 1 - borrow)).Set(F, Flags(g.Get(r), 1)), pc := next)))
    case _ => None
  }

  /** On a pair of registers. */
  function Meaning2(name: T.Name, hi: Reg, lo: Reg, s: State): Option<Result> {
    var g, past := s.g, U16(s.pc + 6);
    match name
    case LDA => Some(Result(2, s.(g := ToHl(g, hi, lo), pc := U16(s.pc + 4))))
    case JMP => Some(Result(3, s.(g := ToHl(g, hi, lo), pc := ToHl(g, hi, lo).HL())))
    case LW16 =>
      var g1 := Onward(g.Set(lo, Peek(s.(pc := U16(s.pc + 1)), g.HL())));
      Some(Result(4, s.(g := g1.Set(hi, Peek(s.(pc := past), g1.HL())), pc := past)))
    case SW16 =>
      var g1 := Onward(g);
      Some(Result(4, Poke(Poke(s.(g := g1, pc := past), g.HL(), g.Get(lo)), g1.HL(), g1.Get(hi))))
    case _ => None
  }

  /** With two numbers. */
  function MeaningOfNumbers(name: T.Name, a: int, v: int, s: State): Option<Result> {
    match name
    case OUTB =>
      if !(0 <= a < 256 && 0 <= v < 256) then None
      else Some(Result(2, Out(s.(g := s.g.(f := v), pc := U16(s.pc + 4)), a, v)))
    case SW =>
      if !(0 <= a < 65536 && 0 <= v < 256) then None
      else Some(Result(2, Poke(s.(g := s.g.(f := v), pc := U16(s.pc + 5)), a, v)))
    case SW16 =>
      if !(0 <= a < 65535 && 0 <= v < 65536) then None
      else Some(Result(4, Poke(Poke(s.(g := s.g.(f := Hi(v)), pc := U16(s.pc + 10)), a, Lo(v)), a + 1, Hi(v))))
    case _ => None
  }

  /** On a pair, with a register or a number besides. */
  function Meaning3(name: T.Name, hi: Reg, lo: Reg, x: X.Arg, s: State): Option<Result> {
    var g := s.g;
    if name.SW? && x.Number? && 0 <= x.v < 256 then
      var g1 := ToHl(g.(f := x.v), hi, lo);
      Some(Result(4, Poke(s.(g := g1, pc := U16(s.pc + 7)), g1.HL(), x.v)))
    else if name.ADD16? && x.Register? && IsPair(hi, lo) then
      var sum := U16(GetPair(g, hi, lo) + g.Get(x.r));
      Some(Result(2, s.(g := SetPair(g, hi, lo, sum).Set(F, Flags(g.Get(hi), 0)), pc := U16(s.pc + 4))))
    else if name.SUB16? && x.Register? && IsPair(hi, lo) && !Bit(g.f, 3) then
      var rest := U16(GetPair(g, hi, lo) - g.Get(x.r));
      Some(Result(2, s.(g := SetPair(g, hi, lo, rest).Set(F, Flags(g.Get(hi), 0)), pc := U16(s.pc + 4))))
    else None
  }

  /** One pair moved to another. */
  function Meaning4(hi: Reg, lo: Reg, p: Reg, q: Reg, s: State): Option<Result> {
    var g1 := s.g.Set(hi, s.g.Get(p));
    Some(Result(2, s.(g := g1.Set(lo, g1.Get(q)), pc := U16(s.pc + 4))))
  }

  /** How many instructions run, and the state of the machine behind the last. */
  function Meaning(op: X.Operation, s: State): Option<Result> {
    match op.args
    case NoArgs => Meaning0(op.name, s)
    case Args(Register(r), NoArgs) => Meaning1(op.name, r, s)
    case Args(Register(hi), Args(Register(lo), NoArgs)) => Meaning2(op.name, hi, lo, s)
    case Args(Number(a), Args(Number(v), NoArgs)) => MeaningOfNumbers(op.name, a, v, s)
    case Args(Register(hi), Args(Register(lo), Args(x, NoArgs))) => Meaning3(op.name, hi, lo, x, s)
    case Args(Register(hi), Args(Register(lo), Args(Register(p), Args(Register(q), NoArgs)))) =>
      if op.name.MW16? then Meaning4(hi, lo, p, q, s) else None
    case _ => None
  }

  /** The addresses that are stored to. */
  function Stores(op: X.Operation, s: State): seq<word> {
    match op.args
    case Args(Number(a), Args(Number(v), NoArgs)) =>
      if op.name.SW? then [U16(a)] else if op.name.SW16? then [U16(a), U16(a + 1)] else []
    case Args(Register(hi), Args(Register(lo), NoArgs)) =>
      if op.name.SW16? then [s.g.HL(), Onward(s.g).HL()] else []
    case Args(Register(hi), Args(Register(lo), Args(Number(v), NoArgs))) =>
      if op.name.SW? && 0 <= v < 256 then [ToHl(s.g.(f := v), hi, lo).HL()] else []
    case _ => []
  }

  /** Not PC, not the program, and not MB when part of the program lies in the banked window. */
  ghost predicate Clear(a: word, lines: seq<Line>, base: word)
    requires Good(lines, base)
  {
    var end := base + Offset(lines, |lines|);
    a < ADDR_PC && !(base <= a < end) && (ADDR_MB <= a < ADDR_SP ==> end <= 0x8000 || 0xC000 <= base)
  }

  ghost predicate Safe(op: X.Operation, s: State, lines: seq<Line>, base: word)
    requires Good(lines, base)
  {
    forall a | a in Stores(op, s) :: Clear(a, lines, base)
  }

  // ----- the blocks do that -----

  predicate IsFlagMacro(name: T.Name) { name in {T.STL, T.CLL, T.STE, T.CLE, T.STC, T.CLC, T.STB, T.CLB} }

  predicate Raises(name: T.Name) { name in {T.STL, T.STE, T.STC, T.STB} }

  function FlagMask(name: T.Name): byte {
    if name.STL? || name.CLL? then 1 else if name.STE? || name.CLE? then 2 else if name.STC? || name.CLC? then 4 else 8
  }

  function Block0(name: T.Name): Block {
    if name.HALT? then Halting()
    else if name.CLF? then One(MW(F, Imm(0)))
    else if Raises(name) then One(ALU(OR, F, Imm(FlagMask(name))))
    else One(ALU(AND, F, Imm(255 - FlagMask(name))))
  }

  function Block1(name: T.Name, r: Reg): Block {
    if name.INC? then One(ALU(ADD, r, Imm(1))) else One(ALU(SBB, r, Imm(1)))
  }

  function Block2(name: T.Name, hi: Reg, lo: Reg): Block {
    if name.LDA? then Point(hi, lo)
    else if name.JMP? then GotoPair(hi, lo)
    else if name.LW16? then LoadWord(hi, lo)
    else StoreWord(hi, lo)
  }

  function BlockOfNumbers(name: T.Name, a: int, v: int): Block {
    if name.OUTB? then Sending(U8(a), U8(v))
    else if name.SW? then Putting(U16(a), U8(v))
    else Cat(Putting(U16(a), Lo(U16(v))), Putting(U16(a + 1), Hi(U16(v))))
  }

  function Block3(name: T.Name, hi: Reg, lo: Reg, x: X.Arg): Block {
    if x.Number? then Cat(One(MW(F, Imm(U8(x.v)))), SwAt(hi, lo, F))
    else if !x.Register? then Nop
    else if name.ADD16? then Add16(hi, lo, Imm(0), Rg(x.r))
    else Sub16(hi, lo, Imm(0), Rg(x.r))
  }

  /** The instructions that the macro table spells an operation with. */
  function BlockOf(op: X.Operation): Block {
    match op.args
    case NoArgs => Block0(op.name)
    case Args(Register(r), NoArgs) => Block1(op.name, r)
    case Args(Register(hi), Args(Register(lo), NoArgs)) => Block2(op.name, hi, lo)
    case Args(Number(a), Args(Number(v), NoArgs)) => BlockOfNumbers(op.name, a, v)
    case Args(Register(hi), Args(Register(lo), Args(x, NoArgs))) => Block3(op.name, hi, lo, x)
    case Args(Register(hi), Args(Register(lo), Args(Register(p), Args(Register(q), NoArgs)))) =>
      Cat(One(MW(hi, Rg(p))), One(MW(lo, Rg(q))))
    case _ => Nop
  }

  /** The macro table spells them so. */
  lemma BlockSpells(op: X.Operation, s: State)
    requires Meaning(op, s).Some?
    ensures S.Spells(4, op, BlockOf(op), Written)
  {
    hide Len, Pure, X.ExpandTo, S.Lay, Poke, Peek, Out, Regs.Set, Regs.Get, Flags;
    var x := Written;
    match op
    case Do(HALT, NoArgs) => HaltSpells(x);
    case Do(CLF, NoArgs) => ClfSpells(x);
    case Do(STL, NoArgs) => StlSpells(x);
    case Do(CLL, NoArgs) => CllSpells(x);
    case Do(STE, NoArgs) => SteSpells(x);
    case Do(CLE, NoArgs) => CleSpells(x);
    case Do(STC, NoArgs) => StcSpells(x);
    case Do(CLC, NoArgs) => ClcSpells(x);
    case Do(STB, NoArgs) => StbSpells(x);
    case Do(CLB, NoArgs) => S.ClbSpells(x);
    case Do(INC, Args(Register(r), NoArgs)) => IncSpells(r, x);
    case Do(FDEC, Args(Register(r), NoArgs)) => FdecSpells(r, x);
    case Do(MW16, Args(Register(hi), Args(Register(lo), Args(Register(p), Args(Register(q), NoArgs))))) =>
      Mw16RegSpells(hi, lo, p, q, x);
    case Do(ADD16, Args(Register(hi), Args(Register(lo), Args(Register(q), NoArgs)))) => Add16ByteSpells(hi, lo, q, x);
    case Do(SUB16, Args(Register(hi), Args(Register(lo), Args(Register(q), NoArgs)))) => Sub16ByteSpells(hi, lo, q, x);
    case Do(LDA, Args(Register(hi), Args(Register(lo), NoArgs))) => LdaPairSpells(hi, lo, x);
    case Do(JMP, Args(Register(hi), Args(Register(lo), NoArgs))) => JmpPairSpells(hi, lo, x);
    case Do(OUTB, Args(Number(port), Args(Number(v), NoArgs))) => OutbTwoSpells(port, v, x);
    case Do(SW, Args(Number(a), Args(Number(v), NoArgs))) => SwNumberSpells(a, v, x);
    case Do(SW16, Args(Number(a), Args(Number(v), NoArgs))) => Sw16NumberSpells(a, v, x);
    case Do(SW, Args(Register(hi), Args(Register(lo), Args(Number(v), NoArgs)))) => SwPairNumberSpells(hi, lo, v, x);
    case Do(LW16, Args(Register(hi), Args(Register(lo), NoArgs))) => Lw16HlSpells(hi, lo, x);
    case Do(SW16, Args(Register(hi), Args(Register(lo), NoArgs))) => Sw16HlSpells(hi, lo, x);
    case _ =>
  }

  lemma OneExec(i: Native, s: State, lines: seq<Line>, base: word)
    requires Good(lines, base)
    ensures ExecAll(One(i), s) == Exec(i, s.(pc := U16(s.pc + Size(i)))) && Count(One(i)) == 1
    ensures Fine(One(i), s, lines, base) <==> !Halted(s) && Harmless(i, s, lines, base)
  {
    hide Exec, Harmless, Halted, Good;
  }

  lemma CatExec(p: Block, q: Block, s: State, lines: seq<Line>, base: word)
    requires Good(lines, base) && Fine(p, s, lines, base) && ExecAll(p, s).pc == s.pc + Len(p) && Fine(q, ExecAll(p, s), lines, base)
    ensures Fine(Cat(p, q), s, lines, base) && ExecAll(Cat(p, q), s) == ExecAll(q, ExecAll(p, s))
    ensures Count(Cat(p, q)) == Count(p) + Count(q)
  {
    hide Exec, Harmless, Halted, Good;
  }

  /** Blocks that only compute. */
  lemma {:induction false} PureExec(b: Block, s: State, lines: seq<Line>, base: word)
    requires Good(lines, base) && Pure(b) && s.pc + Len(b) <= 0xFFFA && !Halted(s)
    ensures Fine(b, s, lines, base) && ExecAll(b, s) == s.(g := RegsAfter(b, s.g), pc := s.pc + Len(b))
    decreases b
  {
    hide Good, Alu, Bit, Regs.Set, Regs.Get;
    match b
    case Nop =>
    case Single(i) =>
    case Join(p, q) =>
      PureExec(p, s, lines, base);
      PureExec(q, ExecAll(p, s), lines, base);
  }

  /** The operation means its block, from s. */
  ghost predicate Does(op: X.Operation, s: State, lines: seq<Line>, base: word)
    requires Good(lines, base)
  {
    var b := BlockOf(op);
    Fine(b, s, lines, base) && Meaning(op, s) == Some(Result(Count(b), ExecAll(b, s)))
  }

  lemma FlagDoes(op: X.Operation, s: State, lines: seq<Line>, base: word, on: bool, k: nat)
    requires Good(lines, base) && s.pc + 2 <= 0xFFFA && !Halted(s) && k < 4 && Meaning(op, s) == Flagged(s, k, on)
    requires 0 <= Power2(k) < 256
    requires BlockOf(op) == One(if on then ALU(OR, F, Imm(Power2(k))) else ALU(AND, F, Imm(255 - Power2(k))))
    ensures Does(op, s, lines, base)
  {
    hide Good, Halted, Meaning, BlockOf, Or, And, SetTo, Power2;
    PureExec(BlockOf(op), s, lines, base);
    OrSets(s.g.f, k);
    AndClears(s.g.f, k);
  }

  /** One of the forms that only compute. */
  predicate Counts(op: X.Operation) { op.name in {T.CLF, T.INC, T.FDEC, T.MW16, T.ADD16, T.SUB16, T.LDA} }

  lemma CountDoes(op: X.Operation, s: State, lines: seq<Line>, base: word)
    requires Good(lines, base) && s.pc + Len(BlockOf(op)) <= 0xFFFA && !Halted(s) && Counts(op) && Meaning(op, s).Some?
    ensures Does(op, s, lines, base)
  {
    hide Good, Halted, Flags, Regs.Get, Fine, ExecAll, Add16, Sub16, RegsAfter;
    var b, g := BlockOf(op), s.g;
    CountRegs(op, s);
    PureExec(b, s, lines, base);
  }

  /** ADD16 with one register for the low byte. */
  lemma AddByte(g: Regs, hi: Reg, lo: Reg, q: Reg)
    requires IsPair(hi, lo)
    ensures RegsAfter(Add16(hi, lo, Imm(0), Rg(q)), g)
      == SetPair(g, hi, lo, U16(GetPair(g, hi, lo) + g.Get(q))).Set(F, Flags(g.Get(hi), 0))
  {
    hide Flags, Regs.Get, Regs.Set, SetPair, GetPair, U16, Bit, RegsAfter, Add16;
    Add16Adds(g, hi, lo, Imm(0), Rg(q));
    PairLow(g.Get(q));
  }

  lemma AddByteIs(hi: Reg, lo: Reg, q: Reg)
    ensures var b := Add16(hi, lo, Imm(0), Rg(q)); Pure(b) && Len(b) == 4 && Count(b) == 2
  {
  }

  lemma AddByteRegs(hi: Reg, lo: Reg, q: Reg, s: State)
    ensures
      var b, m := Add16(hi, lo, Imm(0), Rg(q)), Meaning3(T.ADD16, hi, lo, X.Register(q), s);
      && Pure(b) && Len(b) == 4 && Count(b) == 2
      && (m.Some? ==> m == Some(Result(2, s.(g := RegsAfter(b, s.g), pc := U16(s.pc + 4)))))
  {
    hide Flags, Regs.Get, Regs.Set, SetPair, GetPair, U16, Bit, RegsAfter, Add16, Count, Len, Pure;
    AddByteIs(hi, lo, q);
    if IsPair(hi, lo) {
      AddByte(s.g, hi, lo, q);
    }
  }

  /** SUB16 with one register for the low byte. */
  lemma SubByte(g: Regs, hi: Reg, lo: Reg, q: Reg)
    requires IsPair(hi, lo) && !Bit(g.f, 3)
    ensures RegsAfter(Sub16(hi, lo, Imm(0), Rg(q)), g)
      == SetPair(g, hi, lo, U16(GetPair(g, hi, lo) - g.Get(q))).Set(F, Flags(g.Get(hi), 0))
  {
    hide Flags, Regs.Get, Regs.Set, SetPair, GetPair, U16, Bit, RegsAfter, Sub16;
    Sub16Subtracts(g, hi, lo, Imm(0), Rg(q));
    PairLow(g.Get(q));
  }

  lemma SubByteIs(hi: Reg, lo: Reg, q: Reg)
    ensures var b := Sub16(hi, lo, Imm(0), Rg(q)); Pure(b) && Len(b) == 4 && Count(b) == 2
  {
  }

  lemma SubByteRegs(hi: Reg, lo: Reg, q: Reg, s: State)
    ensures
      var b, m := Sub16(hi, lo, Imm(0), Rg(q)), Meaning3(T.SUB16, hi, lo, X.Register(q), s);
      && Pure(b) && Len(b) == 4 && Count(b) == 2
      && (m.Some? ==> m == Some(Result(2, s.(g := RegsAfter(b, s.g), pc := U16(s.pc + 4)))))
  {
    hide Flags, Regs.Get, Regs.Set, SetPair, GetPair, U16, Bit, RegsAfter, Sub16, Count, Len, Pure;
    SubByteIs(hi, lo, q);
    if IsPair(hi, lo) && !Bit(s.g.f, 3) {
      SubByte(s.g, hi, lo, q);
    }
  }

  /** What they compute on registers. */
  lemma CountRegs(op: X.Operation, s: State)
    requires Counts(op) && Meaning(op, s).Some?
    ensures var b := BlockOf(op);
      Pure(b) && Len(b) <= 4 && Meaning(op, s) == Some(Result(Count(b), s.(g := RegsAfter(b, s.g), pc := U16(s.pc + Len(b)))))
  {
    hide Flags, Regs.Get, Regs.Set, U8, U16, Point, ToHl, Meaning3, Block3;
    match op.args
    case Args(Register(hi), Args(Register(lo), NoArgs)) => PointRegs(s.g, hi, lo); PointKeeps(s.g, hi, lo);
    case Args(Register(hi), Args(Register(lo), Args(x, NoArgs))) => 
      NotNumber(op.name, hi, lo, x, s);
      if op.name.ADD16? { AddByteRegs(hi, lo, x.r, s); } else { SubByteRegs(hi, lo, x.r, s); }
    case _ => ClearIs(s.g);
  }

  lemma NotNumber(name: T.Name, hi: Reg, lo: Reg, x: X.Arg, s: State)
    requires Meaning3(name, hi, lo, x, s).Some? && !name.SW?
    ensures x.Register? && (name.ADD16? || name.SUB16?)
    ensures Block3(name, hi, lo, x) == if name.ADD16? then Add16(hi, lo, Imm(0), Rg(x.r)) else Sub16(hi, lo, Imm(0), Rg(x.r))
  {
    hide SetPair, GetPair, Flags, Regs.Get, Regs.Set, U16;
  }

  lemma PointRegs(g: Regs, hi: Reg, lo: Reg)
    ensures RegsAfter(Point(hi, lo), g) == ToHl(g, hi, lo)
  {
    hide Regs.Get;
    RegsCat(One(MW(H, Rg(hi))), One(MW(L, Rg(lo))), g);
    RegsOne(MW(H, Rg(hi)), g);
    RegsOne(MW(L, Rg(lo)), g.(h := g.Get(hi)));
    LowIs(g, hi, lo);
  }

  lemma LowIs(g: Regs, hi: Reg, lo: Reg)
    ensures g.(h := g.Get(hi)).Get(lo) == LowSeen(g, hi, lo)
  {
  }

  lemma ClearIs(g: Regs)
    ensures g.Set(F, 0) == g.(f := 0)
  {
  }

  /** HALT reads the status, sets its bit 3, and writes it back. */
  lemma HaltExec(s: State, lines: seq<Line>, base: word)
    requires Good(lines, base) && s.pc + 6 <= 0xFFFA && !Halted(s)
    ensures
      var f := SetTo(s.status, 3, true);
      Fine(Halting(), s, lines, base) && ExecAll(Halting(), s) == s.(status := f, g := s.g.(f := f), pc := U16(s.pc + 6))
  {
    hide Good, Bit, Or, SetTo;
    OrSets(s.status, 3);
    assert Power2(3) == 8;
  }

  lemma HaltIs(s: State)
    ensures
      var op, f := X.Do(T.HALT, X.NoArgs), SetTo(s.status, 3, true);
      && BlockOf(op) == Halting() && Count(Halting()) == 3
      && Meaning(op, s) == Some(Result(3, s.(status := f, g := s.g.(f := f), pc := U16(s.pc + 6))))
  {
    hide Len, Pure, SetTo;
  }

  lemma HaltDoes(s: State, lines: seq<Line>, base: word)
    requires Good(lines, base) && s.pc + 6 <= 0xFFFA && !Halted(s)
    ensures Does(X.Do(T.HALT, X.NoArgs), s, lines, base)
  {
    hide Good, Halted, SetTo, Fine, ExecAll, Halting, Meaning, BlockOf;
    HaltExec(s, lines, base);
    HaltIs(s);
  }

  lemma SendExec(s: State, lines: seq<Line>, base: word, port: byte, v: byte)
    requires Good(lines, base) && s.pc + 4 <= 0xFFFA && !Halted(s)
    ensures Fine(Sending(port, v), s, lines, base)
    ensures ExecAll(Sending(port, v), s) == Out(s.(g := s.g.(f := v), pc := U16(s.pc + 4)), port, v)
  {
    hide Good, Bit, Out;
  }

  lemma SendIs(s: State, port: byte, v: byte)
    ensures
      var op := X.Do(T.OUTB, S.A2(X.Number(port), X.Number(v)));
      && BlockOf(op) == Sending(port, v) && Count(Sending(port, v)) == 2
      && Meaning(op, s) == Some(Result(2, Out(s.(g := s.g.(f := v), pc := U16(s.pc + 4)), port, v)))
  {
    hide Len, Pure, Out;
  }

  lemma SendDoes(s: State, lines: seq<Line>, base: word, port: byte, v: byte)
    requires Good(lines, base) && s.pc + 4 <= 0xFFFA && !Halted(s)
    ensures Does(X.Do(T.OUTB, S.A2(X.Number(port), X.Number(v))), s, lines, base)
  {
    hide Good, Halted, Out, Fine, ExecAll, Sending, Meaning, BlockOf;
    SendExec(s, lines, base, port, v);
    SendIs(s, port, v);
  }

  /** A store does not look at registers or pc. */
  lemma PokeApart(s: State, g: Regs, p: word, a: word, v: byte)
    requires a < ADDR_PC
    ensures Poke(s.(g := g, pc := p), a, v) == Poke(s, a, v).(g := g, pc := p)
    ensures Poke(s, a, v).pc == s.pc && Poke(s, a, v).g == s.g && Poke(s, a, v).status == s.status
  {
    hide Pair, Hi, Lo;
  }

  lemma ClearHarmless(i: Native, s: State, lines: seq<Line>, base: word)
    requires Good(lines, base) && (StoreAddress(i, s).Some? ==> Clear(StoreAddress(i, s).value, lines, base))
    ensures Harmless(i, s, lines, base)
  {
  }

  /** MW of a constant to F, and a store of F. */
  lemma PutExec(s: State, lines: seq<Line>, base: word, a: word, v: byte)
    requires Good(lines, base) && s.pc + 5 <= 0xFFFA && !Halted(s) && Clear(a, lines, base)
    ensures Fine(Putting(a, v), s, lines, base) && Len(Putting(a, v)) == 5 && Count(Putting(a, v)) == 2
    ensures ExecAll(Putting(a, v), s) == Poke(s.(g := s.g.(f := v), pc := U16(s.pc + 5)), a, v)
  {
    hide Good, Bit, Poke, Harmless, Clear;
    var s1 := s.(g := s.g.(f := v), pc := U16(s.pc + 2));
    ClearHarmless(SW(Abs(a), F), s1, lines, base);
    ClearHarmless(MW(F, Imm(v)), s, lines, base);
  }

  lemma SwNumberIs(s: State, a: word, v: byte)
    ensures
      var op := X.Do(T.SW, S.A2(X.Number(a), X.Number(v)));
      && BlockOf(op) == Putting(a, v) && Stores(op, s) == [a]
      && Meaning(op, s) == Some(Result(2, Poke(s.(g := s.g.(f := v), pc := U16(s.pc + 5)), a, v)))
  {
    hide Len, Pure, Poke;
  }

  lemma SwNumberDoes(s: State, lines: seq<Line>, base: word, a: word, v: byte)
    requires Good(lines, base) && s.pc + 5 <= 0xFFFA && !Halted(s) && Clear(a, lines, base)
    ensures Does(X.Do(T.SW, S.A2(X.Number(a), X.Number(v))), s, lines, base)
  {
    hide Good, Halted, Poke, Clear, Fine, ExecAll, Putting, Meaning, BlockOf;
    PutExec(s, lines, base, a, v);
    SwNumberIs(s, a, v);
  }

  lemma PutTwiceExec(s: State, lines: seq<Line>, base: word, a: word, v: byte, w: byte)
    requires Good(lines, base) && s.pc + 10 <= 0xFFFA && !Halted(s) && a < 65535 && Clear(a, lines, base) && Clear(a + 1, lines, base)
    ensures var b := Cat(Putting(a, v), Putting(a + 1, w));
      && Fine(b, s, lines, base) && Count(b) == 4
      && ExecAll(b, s) == Poke(Poke(s.(g := s.g.(f := w), pc := U16(s.pc + 10)), a, v), a + 1, w)
  {
    hide Good, Bit, Poke, Clear, Putting;
    assert a < ADDR_PC && a + 1 < ADDR_PC by { IsClear(a, lines, base); IsClear(a + 1, lines, base); }
    PutExec(s, lines, base, a, v);
    PokeApart(s, s.g.(f := v), U16(s.pc + 5), a, v);
    PokeApart(s, s.g.(f := w), U16(s.pc + 10), a, v);
    PutExec(ExecAll(Putting(a, v), s), lines, base, a + 1, w);
  }

  lemma IsClear(a: word, lines: seq<Line>, base: word)
    requires Good(lines, base) && Clear(a, lines, base)
    ensures a < ADDR_PC
  {
  }

  lemma Sw16NumberIs(s: State, a: word, v: word)
    requires a < 65535
    ensures
      var op := X.Do(T.SW16, S.A2(X.Number(a), X.Number(v)));
      && BlockOf(op) == Cat(Putting(a, Lo(v)), Putting(a + 1, Hi(v))) && Stores(op, s) == [a, a + 1]
      && Meaning(op, s) == Some(Result(4, Poke(Poke(s.(g := s.g.(f := Hi(v)), pc := U16(s.pc + 10)), a, Lo(v)), a + 1, Hi(v))))
  {
    hide Len, Pure, Poke, Lo, Hi, Putting;
  }

  lemma Sw16NumberDoes(s: State, lines: seq<Line>, base: word, a: word, v: word)
    requires Good(lines, base) && s.pc + 10 <= 0xFFFA && !Halted(s) && a < 65535 && Clear(a, lines, base) && Clear(a + 1, lines, base)
    ensures Does(X.Do(T.SW16, S.A2(X.Number(a), X.Number(v))), s, lines, base)
  {
    hide Good, Halted, Poke, Clear, Fine, ExecAll, Putting, Meaning, BlockOf, Hi, Lo;
    PutTwiceExec(s, lines, base, a, Lo(v), Hi(v));
    Sw16NumberIs(s, a, v);
  }

  lemma SwThere(r: Reg, s: State)
    ensures Exec(SW(AtHL, r), s) == Poke(s, s.g.HL(), s.g.Get(r)) && Size(SW(AtHL, r)) == 1
  {
    hide Poke, Regs.Get, Regs.HL;
  }

  /** HL from a pair, and a store through it. */
  lemma SwAtExec(s: State, lines: seq<Line>, base: word, hi: Reg, lo: Reg, r: Reg)
    requires Good(lines, base) && s.pc + 5 <= 0xFFFA && !Halted(s) && Clear(ToHl(s.g, hi, lo).HL(), lines, base)
    ensures
      var g1 := ToHl(s.g, hi, lo);
      && Fine(SwAt(hi, lo, r), s, lines, base) && Count(SwAt(hi, lo, r)) == 3
      && ExecAll(SwAt(hi, lo, r), s) == Poke(s.(g := g1, pc := U16(s.pc + 5)), g1.HL(), g1.Get(r))
  {
    hide Good, Halted, Poke, Harmless, Clear, ToHl, Point, Regs.HL, Regs.Get, RegsAfter, ExecAll, Fine, Pure, Exec, Len, Count;
    var g1 := ToHl(s.g, hi, lo);
    var s1 := s.(g := g1, pc := U16(s.pc + 4));
    PointRegs(s.g, hi, lo);
    PureExec(Point(hi, lo), s, lines, base);
    PointKeeps(s.g, hi, lo);
    StillRuns(s, s1);
    HereHarmless(r, s1, lines, base);
    OneExec(SW(AtHL, r), s1, lines, base);
    SwThere(r, s1.(pc := U16(s1.pc + 1)));
    CatExec(Point(hi, lo), One(SW(AtHL, r)), s, lines, base);
  }

  lemma HereHarmless(r: Reg, s: State, lines: seq<Line>, base: word)
    requires Good(lines, base) && Clear(s.g.HL(), lines, base)
    ensures Harmless(SW(AtHL, r), s, lines, base)
  {
  }

  /** MW of a constant to F, HL from a pair, and a store of F through HL. */
  lemma PutPairExec(s: State, lines: seq<Line>, base: word, hi: Reg, lo: Reg, v: byte)
    requires Good(lines, base) && s.pc + 7 <= 0xFFFA && !Halted(s) && Clear(ToHl(s.g.(f := v), hi, lo).HL(), lines, base)
    ensures
      var b, g1 := Cat(One(MW(F, Imm(v))), SwAt(hi, lo, F)), ToHl(s.g.(f := v), hi, lo);
      && Fine(b, s, lines, base) && Count(b) == 4
      && ExecAll(b, s) == Poke(s.(g := g1, pc := U16(s.pc + 7)), g1.HL(), v)
  {
    hide Good, Halted, Poke, Harmless, Clear, ToHl, Regs.HL, Regs.Get, ExecAll, Fine, Pure, SwAt, Exec, Len, Count;
    var i, g0 := MW(F, Imm(v)), s.g.(f := v);
    var s0 := s.(g := g0, pc := U16(s.pc + 2));
    ClearHarmless(i, s, lines, base);
    OneExec(i, s, lines, base);
    MwThere(v, s.(pc := U16(s.pc + 2)));
    StillRuns(s, s0);
    SwAtExec(s0, lines, base, hi, lo, F);
    PointKeeps(g0, hi, lo);
    GetF(ToHl(g0, hi, lo));
    CatExec(One(i), SwAt(hi, lo, F), s, lines, base);
  }

  lemma MwThere(v: byte, s: State)
    ensures Exec(MW(F, Imm(v)), s) == s.(g := s.g.(f := v)) && Size(MW(F, Imm(v))) == 2
  {
  }

  lemma GetF(g: Regs)
    ensures g.Get(F) == g.f
  {
  }

  lemma PointKeeps(g: Regs, hi: Reg, lo: Reg)
    ensures ToHl(g, hi, lo).f == g.f && Count(Point(hi, lo)) == 2
  {
  }

  lemma SwPairNumberIs(s: State, hi: Reg, lo: Reg, v: byte)
    ensures
      var op, g1 := X.Do(T.SW, S.A3(X.Register(hi), X.Register(lo), X.Number(v))), ToHl(s.g.(f := v), hi, lo);
      && BlockOf(op) == Cat(One(MW(F, Imm(v))), SwAt(hi, lo, F)) && Stores(op, s) == [g1.HL()]
      && Meaning(op, s) == Some(Result(4, Poke(s.(g := g1, pc := U16(s.pc + 7)), g1.HL(), v)))
  {
    hide Len, Pure, Poke, ToHl, SwAt;
  }

  lemma SwPairNumberDoes(s: State, lines: seq<Line>, base: word, hi: Reg, lo: Reg, v: byte)
    requires Good(lines, base) && s.pc + 7 <= 0xFFFA && !Halted(s) && Clear(ToHl(s.g.(f := v), hi, lo).HL(), lines, base)
    ensures Does(X.Do(T.SW, S.A3(X.Register(hi), X.Register(lo), X.Number(v))), s, lines, base)
  {
    hide Good, Halted, Poke, Clear, Fine, ExecAll, SwAt, Meaning, BlockOf, ToHl;
    PutPairExec(s, lines, base, hi, lo, v);
    SwPairNumberIs(s, hi, lo, v);
  }

  /** INC16 of H and L. */
  lemma OnwardRegs(g: Regs)
    ensures RegsAfter(Inc16(H, L), g) == Onward(g) && Count(Inc16(H, L)) == 2
  {
    hide U16, Hi, Lo, Flags, Pair;
    Inc16Adds(g, H, L);
    assert Flags(g.h, 0) == if g.h == 0 then 2 else 0 by { FlagsOfZero(g.h); }
    assert RegsAfter(Inc16(H, L), g) == Onward(g);
    CountIncs();
  }

  lemma CountIncs()
    ensures Count(Inc16(H, L)) == 2
  {
  }

  lemma FlagsOfZero(h: byte)
    ensures Flags(h, 0) == if h == 0 then 2 else 0
  {
  }

  /** INC16 of HL, and one instruction more. */
  lemma StepOn(s: State, lines: seq<Line>, base: word, i: Native)
    requires Good(lines, base) && s.pc + 4 + Size(i) <= 0xFFFA && !Halted(s)
    requires Harmless(i, s.(g := Onward(s.g), pc := U16(s.pc + 4)), lines, base)
    ensures var b := Cat(Inc16(H, L), One(i));
      && Fine(b, s, lines, base) && Count(b) == 3
      && ExecAll(b, s) == Exec(i, s.(g := Onward(s.g), pc := U16(s.pc + 4 + Size(i))))
  {
    hide Good, Halted, Harmless, Onward, Inc16, RegsAfter, ExecAll, Fine, Pure, Exec, Size;
    var s1 := s.(g := Onward(s.g), pc := U16(s.pc + 4));
    OnwardRegs(s.g);
    PureExec(Inc16(H, L), s, lines, base);
    StillRuns(s, s1);
    OneExec(i, s1, lines, base);
    CatExec(Inc16(H, L), One(i), s, lines, base);
  }

  lemma LwThere(r: Reg, s: State)
    ensures Exec(LW(r, AtHL), s) == s.(g := s.g.Set(r, Peek(s, s.g.HL()))) && Size(LW(r, AtHL)) == 1
  {
    hide Peek, Regs.Set, Regs.HL;
  }

  lemma LoadWordExec(s: State, lines: seq<Line>, base: word, hi: Reg, lo: Reg)
    requires Good(lines, base) && s.pc + 6 <= 0xFFFA && !Halted(s)
    ensures
      var g1 := Onward(s.g.Set(lo, Peek(s.(pc := U16(s.pc + 1)), s.g.HL())));
      && Fine(LoadWord(hi, lo), s, lines, base) && Count(LoadWord(hi, lo)) == 4
      && ExecAll(LoadWord(hi, lo), s) == s.(g := g1.Set(hi, Peek(s.(pc := U16(s.pc + 6)), g1.HL())), pc := U16(s.pc + 6))
  {
    hide Good, Halted, Peek, Harmless, Onward, Inc16, Regs.HL, RegsAfter, Regs.Set, ExecAll, Fine, Clear, Pure, Exec, Len, Count;
    var g0 := s.g.Set(lo, Peek(s.(pc := U16(s.pc + 1)), s.g.HL()));
    var g1 := Onward(g0);
    var s0 := s.(g := g0, pc := U16(s.pc + 1));
    ClearHarmless(LW(lo, AtHL), s, lines, base);
    OneExec(LW(lo, AtHL), s, lines, base);
    LwThere(lo, s.(pc := U16(s.pc + 1)));
    LwThere(hi, s0.(g := g1, pc := U16(s0.pc + 5)));
    assert Len(One(LW(lo, AtHL))) == 1;
    StillRuns(s, s0);
    ClearHarmless(LW(hi, AtHL), s0.(g := g1, pc := U16(s0.pc + 4)), lines, base);
    StepOn(s0, lines, base, LW(hi, AtHL));
    PeekApart(s.(pc := U16(s.pc + 6)), g1, g1.HL());
    CatExec(One(LW(lo, AtHL)), Cat(Inc16(H, L), One(LW(hi, AtHL))), s, lines, base);
  }

  lemma StillRuns(s: State, s': State)
    requires s'.status == s.status
    ensures Halted(s') == Halted(s)
  {
  }

  lemma PeekApart(s: State, g: Regs, a: word)
    ensures Peek(s.(g := g), a) == Peek(s, a)
  {
  }

  lemma Lw16HlIs(s: State, hi: Reg, lo: Reg)
    ensures
      var op := X.Do(T.LW16, S.A2(X.Register(hi), X.Register(lo)));
      var g1 := Onward(s.g.Set(lo, Peek(s.(pc := U16(s.pc + 1)), s.g.HL())));
      && BlockOf(op) == LoadWord(hi, lo)
      && Meaning(op, s) == Some(Result(4, s.(g := g1.Set(hi, Peek(s.(pc := U16(s.pc + 6)), g1.HL())), pc := U16(s.pc + 6))))
  {
    hide Len, Pure, Peek, Onward, Regs.Set, Pair, LoadWord;
  }

  lemma Lw16HlDoes(s: State, lines: seq<Line>, base: word, hi: Reg, lo: Reg)
    requires Good(lines, base) && s.pc + 6 <= 0xFFFA && !Halted(s)
    ensures Does(X.Do(T.LW16, S.A2(X.Register(hi), X.Register(lo))), s, lines, base)
  {
    hide Good, Halted, Peek, Fine, ExecAll, LoadWord, Meaning, BlockOf, Onward, Regs.Set;
    LoadWordExec(s, lines, base, hi, lo);
    Lw16HlIs(s, hi, lo);
  }

  lemma StoreWordExec(s: State, lines: seq<Line>, base: word, hi: Reg, lo: Reg)
    requires Good(lines, base) && s.pc + 6 <= 0xFFFA && !Halted(s)
    requires Clear(s.g.HL(), lines, base) && Clear(Onward(s.g).HL(), lines, base)
    ensures
      var g1 := Onward(s.g);
      && Fine(StoreWord(hi, lo), s, lines, base) && Count(StoreWord(hi, lo)) == 4
      && ExecAll(StoreWord(hi, lo), s)
        == Poke(Poke(s.(g := g1, pc := U16(s.pc + 6)), s.g.HL(), s.g.Get(lo)), g1.HL(), g1.Get(hi))
  {
    hide Good, Halted, Poke, Harmless, Clear, Onward, Inc16, Regs.HL, Regs.Get, RegsAfter, ExecAll, Fine, Pure, Exec, Len, Count;
    var g, g1, a := s.g, Onward(s.g), s.g.HL();
    IsClear(a, lines, base);
    var s0 := Poke(s.(pc := U16(s.pc + 1)), a, g.Get(lo));
    PokeApart(s, g, U16(s.pc + 1), a, g.Get(lo));
    PokeApart(s, g1, U16(s.pc + 6), a, g.Get(lo));
    HereHarmless(lo, s, lines, base);
    OneExec(SW(AtHL, lo), s, lines, base);
    SwThere(lo, s.(pc := U16(s.pc + 1)));
    StillRuns(s, s0);
    HereHarmless(hi, s0.(g := g1, pc := U16(s0.pc + 4)), lines, base);
    SwThere(hi, s0.(g := g1, pc := U16(s0.pc + 5)));
    StepOn(s0, lines, base, SW(AtHL, hi));
    CatExec(One(SW(AtHL, lo)), Cat(Inc16(H, L), One(SW(AtHL, hi))), s, lines, base);
  }

  lemma Sw16HlIs(s: State, hi: Reg, lo: Reg)
    ensures
      var op, g1 := X.Do(T.SW16, S.A2(X.Register(hi), X.Register(lo))), Onward(s.g);
      && BlockOf(op) == StoreWord(hi, lo) && Stores(op, s) == [s.g.HL(), g1.HL()]
      && Meaning(op, s)
        == Some(Result(4, Poke(Poke(s.(g := g1, pc := U16(s.pc + 6)), s.g.HL(), s.g.Get(lo)), g1.HL(), g1.Get(hi))))
  {
    hide Len, Pure, Poke, Onward, Regs.Get, Pair, StoreWord;
  }

  lemma Sw16HlDoes(s: State, lines: seq<Line>, base: word, hi: Reg, lo: Reg)
    requires Good(lines, base) && s.pc + 6 <= 0xFFFA && !Halted(s)
    requires Clear(s.g.HL(), lines, base) && Clear(Onward(s.g).HL(), lines, base)
    ensures Does(X.Do(T.SW16, S.A2(X.Register(hi), X.Register(lo))), s, lines, base)
  {
    hide Good, Halted, Poke, Clear, Fine, ExecAll, StoreWord, Meaning, BlockOf, Onward, Regs.Get;
    StoreWordExec(s, lines, base, hi, lo);
    Sw16HlIs(s, hi, lo);
  }

  lemma GotoPairExec(s: State, lines: seq<Line>, base: word, hi: Reg, lo: Reg)
    requires Good(lines, base) && s.pc + 6 <= 0xFFFA && !Halted(s)
    ensures
      var g1 := ToHl(s.g, hi, lo);
      && Fine(GotoPair(hi, lo), s, lines, base) && Count(GotoPair(hi, lo)) == 3
      && ExecAll(GotoPair(hi, lo), s) == s.(g := g1, pc := g1.HL())
  {
    hide Good, Bit, ToHl, Point, RegsAfter, Harmless, Pair;
    PointRegs(s.g, hi, lo);
    PureExec(Point(hi, lo), s, lines, base);
    PointKeeps(s.g, hi, lo);
    ClearHarmless(JNZ(Imm(1)), ExecAll(Point(hi, lo), s), lines, base);
  }

  lemma JmpPairIs(s: State, hi: Reg, lo: Reg)
    ensures
      var op, g1 := X.Do(T.JMP, S.A2(X.Register(hi), X.Register(lo))), ToHl(s.g, hi, lo);
      BlockOf(op) == GotoPair(hi, lo) && Meaning(op, s) == Some(Result(3, s.(g := g1, pc := g1.HL())))
  {
    hide Len, Pure, ToHl, GotoPair, Pair;
  }

  lemma JmpPairDoes(s: State, lines: seq<Line>, base: word, hi: Reg, lo: Reg)
    requires Good(lines, base) && s.pc + 6 <= 0xFFFA && !Halted(s)
    ensures Does(X.Do(T.JMP, S.A2(X.Register(hi), X.Register(lo))), s, lines, base)
  {
    hide Good, Halted, Fine, ExecAll, GotoPair, Meaning, BlockOf, ToHl;
    GotoPairExec(s, lines, base, hi, lo);
    JmpPairIs(s, hi, lo);
  }

  lemma Plain0(name: T.Name, s: State)
    ensures var op := X.Do(name, X.NoArgs); BlockOf(op) == Block0(name) && Meaning(op, s) == Meaning0(name, s)
  {
    hide Block0, Meaning0;
  }

  /** The flag, and what becomes of it. */
  function FlagBit(name: T.Name): (k: nat)
    requires IsFlagMacro(name)
    ensures k < 4
  {
    if name.STL? || name.CLL? then 0 else if name.STE? || name.CLE? then 1 else if name.STC? || name.CLC? then 2 else 3
  }

  lemma FlagMacroIs(name: T.Name, s: State)
    requires IsFlagMacro(name)
    ensures Meaning0(name, s) == Flagged(s, FlagBit(name), Raises(name))
  {
    hide Flagged;
  }

  lemma FlagMacroBlock(name: T.Name)
    requires IsFlagMacro(name)
    ensures 0 <= Power2(FlagBit(name)) < 256
    ensures Block0(name) == One(if Raises(name) then ALU(OR, F, Imm(Power2(FlagBit(name)))) else ALU(AND, F, Imm(255 - Power2(FlagBit(name)))))
  {
    hide Power2, Len, Pure, One, Halting;
    FirstPowers();
  }

  lemma FirstPowers()
    ensures Power2(0) == 1 && Power2(1) == 2 && Power2(2) == 4 && Power2(3) == 8
  {
  }

  lemma FlagMacroDoes(name: T.Name, s: State, lines: seq<Line>, base: word)
    requires Good(lines, base) && s.pc + 2 <= 0xFFFA && !Halted(s) && IsFlagMacro(name)
    ensures Does(X.Do(name, X.NoArgs), s, lines, base)
  {
    hide Good, Halted, Flagged, Does, Block0, Meaning0, BlockOf, Meaning, FlagBit, Raises, Power2, IsFlagMacro;
    Plain0(name, s);
    FlagMacroIs(name, s);
    FlagMacroBlock(name);
    FlagDoes(X.Do(name, X.NoArgs), s, lines, base, Raises(name), FlagBit(name));
  }

  lemma Meaning0Does(name: T.Name, s: State, lines: seq<Line>, base: word)
    requires Good(lines, base) && s.pc + Len(Block0(name)) <= 0xFFFA && !Halted(s) && Meaning0(name, s).Some?
    ensures Does(X.Do(name, X.NoArgs), s, lines, base)
  {
    hide Good, Halted, SetTo, Flagged, Does, Halting;
    if name.HALT? {
      HaltLen();
      HaltDoes(s, lines, base);
    } else if name.CLF? {
      CountDoes(X.Do(name, X.NoArgs), s, lines, base);
    } else {
      FlagMacroDoes(name, s, lines, base);
    }
  }

  lemma HaltLen()
    ensures Len(Halting()) == 6
  {
  }

  lemma PairLens(hi: Reg, lo: Reg)
    ensures Len(LoadWord(hi, lo)) == 6 && Len(StoreWord(hi, lo)) == 6 && Len(GotoPair(hi, lo)) == 6
  {
  }

  lemma Meaning2Does(name: T.Name, hi: Reg, lo: Reg, s: State, lines: seq<Line>, base: word)
    requires Good(lines, base) && s.pc + Len(Block2(name, hi, lo)) <= 0xFFFA && !Halted(s) && Meaning2(name, hi, lo, s).Some?
    requires name.SW16? ==> Clear(s.g.HL(), lines, base) && Clear(Onward(s.g).HL(), lines, base)
    ensures Does(X.Do(name, S.A2(X.Register(hi), X.Register(lo))), s, lines, base)
  {
    hide Good, Halted, Does, Poke, Peek, Onward, Regs.Get, Regs.Set, Clear, ToHl, Meaning0, Meaning1, Meaning3, MeaningOfNumbers, Meaning4;
    hide LoadWord, StoreWord, GotoPair, Point, Pure, Regs.HL;
    PairLens(hi, lo);
    match name
    case LDA => CountDoes(X.Do(name, S.A2(X.Register(hi), X.Register(lo))), s, lines, base);
    case JMP => JmpPairDoes(s, lines, base, hi, lo);
    case LW16 => Lw16HlDoes(s, lines, base, hi, lo);
    case SW16 => Sw16HlDoes(s, lines, base, hi, lo);
    case _ =>
  }

  lemma MeaningOfNumbersDoes(name: T.Name, a: T.Immediate, v: T.Immediate, s: State, lines: seq<Line>, base: word)
    requires Good(lines, base) && s.pc + Len(BlockOfNumbers(name, a, v)) <= 0xFFFA && !Halted(s)
    requires MeaningOfNumbers(name, a, v, s).Some?
    requires name.SW? || name.SW16? ==> Clear(U16(a), lines, base)
    requires name.SW16? ==> Clear(U16(a + 1), lines, base)
    ensures Does(X.Do(name, S.A2(X.Number(a), X.Number(v))), s, lines, base)
  {
    hide Good, Halted, Does, Poke, Out, Clear, Hi, Lo;
    match name
    case OUTB => SendDoes(s, lines, base, a, v);
    case SW => SwNumberDoes(s, lines, base, a, v);
    case SW16 => Sw16NumberDoes(s, lines, base, a, v);
    case _ =>
  }

  lemma Meaning3Does(name: T.Name, hi: Reg, lo: Reg, x: X.Arg, s: State, lines: seq<Line>, base: word)
    requires Good(lines, base) && s.pc + Len(Block3(name, hi, lo, x)) <= 0xFFFA && !Halted(s) && Meaning3(name, hi, lo, x, s).Some?
    requires name.SW? && x.Number? && 0 <= x.v < 256 ==> Clear(ToHl(s.g.(f := x.v), hi, lo).HL(), lines, base)
    ensures Does(X.Do(name, S.A3(X.Register(hi), X.Register(lo), x)), s, lines, base)
  {
    hide Good, Halted, Does, Poke, Clear, ToHl, SetPair, GetPair, Flags, Regs.Get, Regs.Set, Bit;
    if name.SW? {
      SwPairNumberDoes(s, lines, base, hi, lo, x.v);
    } else {
      NotNumber(name, hi, lo, x, s);
      CountDoes(X.Do(name, S.A3(X.Register(hi), X.Register(lo), x)), s, lines, base);
    }
  }

  /** Each of the operations means the instructions that it is spelled with. */
  lemma MeaningDoes(op: X.Operation, s: State, lines: seq<Line>, base: word)
    requires Good(lines, base) && s.pc + Len(BlockOf(op)) <= 0xFFFA && !Halted(s)
    requires Meaning(op, s).Some? && Safe(op, s, lines, base)
    ensures Does(op, s, lines, base)
  {
    hide Good, Halted, Does, Clear, Meaning0, Meaning2, Meaning3, MeaningOfNumbers, Block0, Block2, Block3, BlockOfNumbers, U16, U8, Flags, Regs.Get, Regs.Set;
    match op.args
    case NoArgs => Meaning0Does(op.name, s, lines, base);
    case Args(Register(r), NoArgs) => CountDoes(op, s, lines, base);
    case Args(Register(hi), Args(Register(lo), NoArgs)) => Meaning2Does(op.name, hi, lo, s, lines, base);
    case Args(Number(a), Args(Number(v), NoArgs)) => MeaningOfNumbersDoes(op.name, a, v, s, lines, base);
    case Args(Register(hi), Args(Register(lo), Args(x, NoArgs))) => Meaning3Does(op.name, hi, lo, x, s, lines, base);
    case _ => CountDoes(op, s, lines, base);
  }

  // ----- in any program -----

  /** From line k the operation means what it should. */
  ghost predicate Takes(lines: seq<Line>, base: word, k: nat, op: X.Operation) {
    forall s: State {:trigger AtLine(s, lines, base, k)} |
      AtLine(s, lines, base, k) && Meaning(op, s).Some? && Safe(op, s, lines, base) ::
      var m := Meaning(op, s).value;
      Run(s, m.steps) == m.after && Loaded(m.after, lines, base)
  }

  lemma TakesThere(lines: seq<Line>, base: word, k: nat, op: X.Operation, s: State)
    requires HasRoom(lines, base) && AtLine(s, lines, base, k) && Meaning(op, s).Some? && Safe(op, s, lines, base)
    requires At(CodeOf(lines, base), Address(lines, base, k), BlockOf(op))
    ensures var m := Meaning(op, s).value; Run(s, m.steps) == m.after && Loaded(m.after, lines, base)
  {
    hide Run, Meaning, BlockOf, Fits, WellFormed, Bound, Loaded, CodeOf, ExecAll, Fine, Safe, Halted;
    AtLen(CodeOf(lines, base), s.pc, BlockOf(op));
    MeaningDoes(op, s, lines, base);
    BlockSteps(s, lines, base, BlockOf(op));
  }

  lemma AtLen(code: Code, pc: int, b: Block)
    requires At(code, pc, b)
    ensures pc + Len(b) <= 0xFFFA
  {
  }

  lemma TakesAll(lines: seq<Line>, base: word, k: nat, op: X.Operation, op1: X.Operation, rest: X.Text)
    requires HasRoom(lines, base) && k <= |lines|
    requires Interleaving.Interleaved(X.Uses(op, rest), lines[..k], base) == Some(lines)
    requires Interleaving.SameText(X.Uses(op1, X.End), X.Uses(op, X.End), lines[..k], base)
    ensures Takes(lines, base, k, op1)
  {
    hide X.ExpandText, X.ExpandTo, X.Joined, S.Lay, IsPart, Address, At, CodeOf, Fits, WellFormed, Bound, AtLine, Safe, Meaning, BlockOf, Count;
    hide Interleaving.Interleaved, Interleaving.SameText, Run, Loaded, Len, Pure;
    Expanding();
    Joining();
    forall s: State | AtLine(s, lines, base, k) && Meaning(op1, s).Some? && Safe(op1, s, lines, base)
      ensures var m := Meaning(op1, s).value; Run(s, m.steps) == m.after && Loaded(m.after, lines, base)
    {
      BlockSpells(op1, s);
      EmitsThere(lines, base, k, X.Uses(op, X.End), rest, X.Uses(op1, X.End), S.Lay(BlockOf(op1), Written, X.NoLines));
      PlainLinks(lines, base, k, BlockOf(op1), X.NoLines);
      TakesThere(lines, base, k, op1, s);
    }
  }

  /**
   Each of these macros in the source of any program, every use of it, as it is written or with the
   labels in front as numbers: a machine that comes to the line where the use begins is in the state
   that the macro is for, in all its parts, when as many instructions have run as the macro has.
   */
  lemma EffectOnMachine(lines: seq<Line>, base: word, text: X.Text, op: X.Operation, rest: X.Text) returns (k: nat)
    requires HasRoom(lines, base) && MadeFrom(lines, base, text, X.Uses(op, rest))
    ensures BeginsAt(lines, base, text, X.Uses(op, rest), k) && k <= |lines|
    ensures Takes(lines, base, k, op) && Takes(lines, base, k, Choosing.KnownOp(op, lines[..k], base))
  {
    hide Fits, WellFormed, Bound, Takes, MadeFrom, BeginsAt, Interleaving.Interleaved, Choosing.KnownArgs;
    k := PartBegins(lines, base, text, X.Uses(op, rest));
    TakesAll(lines, base, k, op, op, rest);
    KnownTwice(op.args, lines[..k], base);
    TakesAll(lines, base, k, op, Choosing.KnownOp(op, lines[..k], base), rest);
  }

  // ----- HALT -----

  lemma {:induction false} HaltedStays(s: State, n: nat)
    requires Halted(s)
    ensures Run(s, n) == s
    decreases n
  {
    hide Halted;
    if n != 0 {
      assert Step(s) == s;
      HaltedStays(s, n - 1);
    }
  }

  /** Stopped, with bit 3 of the status set and F the status: all else is as it was. */
  ghost predicate Stopped(s: State, s': State) {
    && Halted(s') && (forall j: nat | j < 8 :: Bit(s'.status, j) == (j == 3 || Bit(s.status, j)))
    && s' == s.(status := s'.status, g := s.g.(f := s'.status), pc := U16(s.pc + 6))
  }

  /** And for good. */
  ghost predicate Stops(s: State) {
    forall n: nat {:trigger Run(s, n)} | n >= 3 :: Stopped(s, Run(s, n))
  }

  /** HALT in the source of any program, every use of it. */
  lemma HaltOnMachine(lines: seq<Line>, base: word, text: X.Text, rest: X.Text) returns (k: nat)
    requires HasRoom(lines, base) && MadeFrom(lines, base, text, X.Uses(X.Do(T.HALT, X.NoArgs), rest))
    ensures BeginsAt(lines, base, text, X.Uses(X.Do(T.HALT, X.NoArgs), rest), k) && k <= |lines|
    ensures forall s: State {:trigger AtLine(s, lines, base, k)} | AtLine(s, lines, base, k) :: Stops(s)
  {
    hide Fits, WellFormed, Bound, MadeFrom, BeginsAt, AtLine, Run, Loaded, Stops, Stopped, SetTo, Halting, Meaning, BlockOf, Stores, Takes;
    var op := X.Do(T.HALT, X.NoArgs);
    k := EffectOnMachine(lines, base, text, op, rest);
    forall s: State | AtLine(s, lines, base, k)
      ensures Stops(s)
    {
      HaltIs(s);
      NoStores(s);
      AtLineIs(s, lines, base, k);
      TakesIs(lines, base, k, op, s);
      StoppedNow(s, Run(s, 3));
      StopsThen(s);
    }
  }

  lemma NoStores(s: State)
    ensures Stores(X.Do(T.HALT, X.NoArgs), s) == []
  {
  }

  lemma AtLineIs(s: State, lines: seq<Line>, base: word, k: nat)
    requires AtLine(s, lines, base, k)
    ensures Good(lines, base)
  {
  }

  lemma TakesIs(lines: seq<Line>, base: word, k: nat, op: X.Operation, s: State)
    requires Takes(lines, base, k, op) && AtLine(s, lines, base, k) && Meaning(op, s).Some? && Safe(op, s, lines, base)
    ensures Run(s, Meaning(op, s).value.steps) == Meaning(op, s).value.after
  {
    hide Run, Meaning, Safe, Loaded;
  }

  lemma StopsThen(s: State)
    requires Stopped(s, Run(s, 3))
    ensures Stops(s)
  {
    hide Run, Stopped;
    forall n: nat {:trigger Run(s, n)} | n >= 3
      ensures Stopped(s, Run(s, n))
    {
      StoppedOn(s, n);
    }
  }

  lemma StoppedOn(s: State, n: nat)
    requires Stopped(s, Run(s, 3)) && n >= 3
    ensures Stopped(s, Run(s, n))
  {
    hide Run, Stopped, Halted;
    IsStopped(s, Run(s, 3));
    RunAdd(s, 3, n - 3);
    HaltedStays(Run(s, 3), n - 3);
  }

  lemma IsStopped(s: State, s': State)
    requires Stopped(s, s')
    ensures Halted(s')
  {
  }

  lemma StoppedNow(s: State, s': State)
    requires var f := SetTo(s.status, 3, true); s' == s.(status := f, g := s.g.(f := f), pc := U16(s.pc + 6))
    ensures Stopped(s, s')
  {
    hide Bit, SetTo;
    assert Bit(SetTo(s.status, 3, true), 3);
  }

  // ----- words through HL -----

  /** LW16 through HL loads the word there when its low register is neither H, L nor F. */
  lemma LoadsWord(s: State, hi: Reg, lo: Reg)
    requires lo !in {H, L, F} && hi != lo && s.g.HL() < ADDR_PC - 1
    ensures
      var m := Meaning2(T.LW16, hi, lo, s);
      && m.Some? && m.value.after.g.Get(lo) == Peek(s, s.g.HL())
      && m.value.after.g.Get(hi) == Peek(s, s.g.HL() + 1)
  {
    hide Peek, Regs.Get, Regs.Set;
    var v: byte := Peek(s, s.g.HL());
    PeekPast(s, U16(s.pc + 1), s.g.HL());
    PeekPast(s, U16(s.pc + 6), s.g.HL() + 1);
    var g0 := s.g.Set(lo, v);
    OnwardKeeps(s.g, lo, v);
    GetSet(Onward(g0), hi, Peek(s, s.g.HL() + 1), lo);
    GetSet(Onward(g0), hi, Peek(s, s.g.HL() + 1), hi);
    PairHiLo(U16(s.g.HL() + 1));
  }

  lemma PeekPast(s: State, p: word, a: word)
    requires a < ADDR_PC
    ensures Peek(s.(pc := p), a) == Peek(s, a)
  {
  }

  lemma OnwardKeeps(g: Regs, r: Reg, v: byte)
    requires r !in {H, L, F}
    ensures g.Set(r, v).h == g.h && g.Set(r, v).l == g.l && Onward(g.Set(r, v)).Get(r) == v
  {
  }

  // ----- LDA of a label into a pair -----

  /** A pair of registers with the bytes of a word, H and L with them. */
  function WithPair(g: Regs, hi: Reg, lo: Reg, w: word): Regs {
    g.(h := Hi(w), l := Lo(w)).Set(hi, Hi(w)).Set(lo, if hi == L then Hi(w) else Lo(w))
  }

  lemma LoadAddressRegs(w: word, hi: Reg, lo: Reg, g: Regs)
    ensures var b := LoadAddress(w, hi, lo);
      Pure(b) && Len(b) == 7 && Count(b) == 3 && RegsAfter(b, g) == WithPair(g, hi, lo, w)
  {
    hide Regs.Set, Hi, Lo;
    var g1 := g.(h := Hi(w), l := Lo(w));
    GetH(g1);
    GetSet(g1, hi, Hi(w), L);
  }

  lemma AimLoadAddress(t: X.Arg, hi: Reg, lo: Reg, w: word)
    requires t.Symbol? || w == S.FarWord(t)
    ensures Aim(LoadAddress(S.FarWord(t), hi, lo), S.FarOperand(t), w) == LoadAddress(w, hi, lo)
  {
    hide Aim;
    Aiming();
  }

  lemma FarLineIs(t: X.Arg)
    requires S.IsTarget(t)
    ensures var o := S.FarOperand(t); Op(LDA(S.FarWord(t)), o) == if o.Ref? then Op(LDA(0), o) else Op(LDA(S.FarWord(t)), Written)
  {
  }

  lemma LdaStands(lines: seq<Line>, base: word, k: nat, hi: Reg, lo: Reg, t: X.Arg, after: X.Lines)
    requires HasRoom(lines, base) && S.IsTarget(t)
    requires IsPart(lines, base, k, S.Lay(LoadAddress(S.FarWord(t), hi, lo), S.FarOperand(t), after))
    ensures k <= |lines| && Aimed(lines, k, t)
    ensures At(CodeOf(lines, base), Address(lines, base, k), LoadAddress(Goal(lines, base, k, t), hi, lo))
  {
    hide S.Lay, Fits, WellFormed, Bound, Address, At, CodeOf, Means, Aim, Aimed, Goal, IsPart, IsLine, S.FarWord, S.FarOperand, Len, Pure;
    var b, o := LoadAddress(S.FarWord(t), hi, lo), S.FarOperand(t);
    assert Count(b) == 3;
    LayPart(lines, base, k, b, o, after);
    S.Laying();
    FarLineIs(t);
    FirstLine(lines, base, k, Op(LDA(S.FarWord(t)), o), S.Lay(Cat(One(MW(hi, Rg(H))), One(MW(lo, Rg(L)))), o, after));
    GoalMeant(lines, base, k, 3, k, t);
    var w := Goal(lines, base, k, t);
    LayAt(lines, base, k, b, o, w, after);
    GoalIs(lines, base, k, t);
    AimLoadAddress(t, hi, lo, w);
  }

  lemma LdaRuns(s: State, lines: seq<Line>, base: word, k: nat, hi: Reg, lo: Reg, w: word)
    requires AtLine(s, lines, base, k) && At(CodeOf(lines, base), s.pc, LoadAddress(w, hi, lo))
    ensures Run(s, 3) == s.(g := WithPair(s.g, hi, lo, w), pc := U16(s.pc + 7))
  {
    hide Run, Loaded, Fits, WellFormed, Bound, CodeOf, ExecAll, Fine, Halted, At, LoadAddress, Count, Len, Pure, WithPair, RegsAfter;
    var b := LoadAddress(w, hi, lo);
    LoadAddressRegs(w, hi, lo, s.g);
    AtLen(CodeOf(lines, base), s.pc, b);
    PureExec(b, s, lines, base);
    BlockSteps(s, lines, base, b);
  }

  /** `lda hi, lo, [t]` in the source of any program, every use of it: the pair gets the address that t stands for. */
  lemma LdaOnMachine(lines: seq<Line>, base: word, text: X.Text, hi: Reg, lo: Reg, t: X.Arg, rest: X.Text) returns (k: nat)
    requires S.IsTarget(t)
    requires HasRoom(lines, base) && MadeFrom(lines, base, text, X.Uses(X.Do(T.LDA, S.A3(X.Register(hi), X.Register(lo), t)), rest))
    ensures BeginsAt(lines, base, text, X.Uses(X.Do(T.LDA, S.A3(X.Register(hi), X.Register(lo), t)), rest), k) && Aimed(lines, k, t)
    ensures
      forall s: State {:trigger AtLine(s, lines, base, k)} | AtLine(s, lines, base, k) ::
        Run(s, 3) == s.(g := WithPair(s.g, hi, lo, Goal(lines, base, k, t)), pc := U16(s.pc + 7))
  {
    hide BeginsAt, MadeFrom, X.ExpandTo, S.Lay, Address, At, CodeOf, Aimed, Goal, Fits, WellFormed, Bound, IsPart, AtLine, Run;
    hide S.FarWord, S.FarOperand, LoadAddress, Count, Len, Pure, WithPair, S.IsTarget;
    var op := X.Do(T.LDA, S.A3(X.Register(hi), X.Register(lo), t));
    LdaToSpells(hi, lo, t);
    k := UseStands(lines, base, text, op, LoadAddress(S.FarWord(t), hi, lo), S.FarOperand(t), rest);
    LdaStands(lines, base, k, hi, lo, t, X.NoLines);
    forall s: State | AtLine(s, lines, base, k)
      ensures Run(s, 3) == s.(g := WithPair(s.g, hi, lo, Goal(lines, base, k, t)), pc := U16(s.pc + 7))
    {
      AtLineThere(s, lines, base, k);
      LdaRuns(s, lines, base, k, hi, lo, Goal(lines, base, k, t));
    }
  }

  lemma AtLineThere(s: State, lines: seq<Line>, base: word, k: nat)
    requires AtLine(s, lines, base, k)
    ensures k <= |lines| && Good(lines, base) && Loaded(s, lines, base) && !Halted(s) && s.pc == Address(lines, base, k)
  {
  }

  // ----- CALL through a pair -----

  lemma CallPairStands(lines: seq<Line>, base: word, k: nat, hi: Reg, lo: Reg, after: X.Lines)
    requires HasRoom(lines, base) && IsPart(lines, base, k, CallPairLines(hi, lo, after))
    ensures k <= |lines| && Address(lines, base, k) + 10 < 65536
    ensures At(CodeOf(lines, base), Address(lines, base, k), CallPair(hi, lo, Address(lines, base, k) + 10))
  {
    hide S.Lay, Fits, WellFormed, Bound, Address, At, CodeOf, IsLine, Hi, Lo, Point, Pure, Count;
    var more := S.Lay(GotoPair(hi, lo), Written, after);
    assert IsPart(lines, base, k + 1, X.Put(Op(PUSH(Imm(0)), Here(8, false)), more)) && IsPart(lines, base, k + 2, more);
    PushAt(lines, base, k, 10, true);
    PushAt(lines, base, k + 1, 8, false);
    PlainLinks(lines, base, k + 2, GotoPair(hi, lo), after);
    var code, pc := CodeOf(lines, base), Address(lines, base, k);
    Glue(code, pc, One(PUSH(Imm(Hi(pc + 10)))), One(PUSH(Imm(Lo(pc + 10)))));
    Glue(code, pc, Cat(One(PUSH(Imm(Hi(pc + 10)))), One(PUSH(Imm(Lo(pc + 10))))), GotoPair(hi, lo));
  }

  /** The machine behind a call through a pair: the target in pc and HL, the return address on the stack. */
  function CalledThrough(s: State, hi: Reg, lo: Reg): State
    requires 1 <= s.sp
  {
    var ret := U16(s.pc + 10);
    var s1 := Poke(Poke(s, s.sp, Hi(ret)), s.sp - 1, Lo(ret));
    s1.(sp := U16(s.sp - 2), g := ToHl(s.g, hi, lo), pc := ToHl(s.g, hi, lo).HL())
  }

  lemma PokeApartSp(s: State, p: word, sp: word, a: word, v: byte)
    requires a < ADDR_SP
    ensures Poke(s.(pc := p, sp := sp), a, v) == Poke(s, a, v).(pc := p, sp := sp)
    ensures Poke(s, a, v).pc == s.pc && Poke(s, a, v).sp == s.sp && Poke(s, a, v).g == s.g && Poke(s, a, v).status == s.status
  {
    hide Pair, Hi, Lo;
  }

  lemma PushThere(s: State, lines: seq<Line>, base: word, v: byte)
    requires Good(lines, base) && !Halted(s) && s.pc + 2 <= 0xFFFA && 1 <= s.sp < ADDR_SP && Clear(s.sp, lines, base)
    ensures Fine(One(PUSH(Imm(v))), s, lines, base)
    ensures ExecAll(One(PUSH(Imm(v))), s) == Poke(s, s.sp, v).(pc := s.pc + 2, sp := s.sp - 1)
  {
    hide Good, Halted, Poke, Harmless, Clear;
    ClearHarmless(PUSH(Imm(v)), s, lines, base);
    OneExec(PUSH(Imm(v)), s, lines, base);
    PokeApartSp(s, s.pc + 2, s.sp - 1, s.sp, v);
  }

  lemma CallPairExec(s: State, lines: seq<Line>, base: word, hi: Reg, lo: Reg)
    requires Good(lines, base) && !Halted(s) && s.pc + 10 <= 0xFFFA && 2 <= s.sp < ADDR_SP
    requires Clear(s.sp, lines, base) && Clear(s.sp - 1, lines, base)
    ensures var b := CallPair(hi, lo, s.pc + 10);
      Fine(b, s, lines, base) && Count(b) == 5 && ExecAll(b, s) == CalledThrough(s, hi, lo)
  {
    hide Good, Halted, Poke, Harmless, Clear, ToHl, ExecAll, Fine, Hi, Lo, Point, Regs.HL, Pure, Count;
    var ret := s.pc + 10;
    var p, q := One(PUSH(Imm(Hi(ret)))), One(PUSH(Imm(Lo(ret))));
    PushThere(s, lines, base, Hi(ret));
    PokeApartSp(s, s.pc + 2, s.sp - 1, s.sp, Hi(ret));
    var s1 := ExecAll(p, s);
    StillRuns(s, s1);
    PushThere(s1, lines, base, Lo(ret));
    PokeApartSp(Poke(s, s.sp, Hi(ret)), s.pc + 2, s.sp - 1, s.sp - 1, Lo(ret));
    var s2 := ExecAll(q, s1);
    StillRuns(s, s2);
    CatExec(p, q, s, lines, base);
    GotoPairExec(s2, lines, base, hi, lo);
    CatExec(Cat(p, q), GotoPair(hi, lo), s, lines, base);
    OneExec(PUSH(Imm(Hi(ret))), s, lines, base);
    OneExec(PUSH(Imm(Lo(ret))), s, lines, base);
  }

  /** `call hi, lo` in the source of any program, every use of it. */
  lemma CallPairOnMachine(lines: seq<Line>, base: word, text: X.Text, hi: Reg, lo: Reg, rest: X.Text) returns (k: nat)
    requires HasRoom(lines, base) && MadeFrom(lines, base, text, X.Uses(X.Do(T.CALL, S.A2(X.Register(hi), X.Register(lo))), rest))
    ensures BeginsAt(lines, base, text, X.Uses(X.Do(T.CALL, S.A2(X.Register(hi), X.Register(lo))), rest), k)
    ensures
      forall s: State {:trigger AtLine(s, lines, base, k)}
        | AtLine(s, lines, base, k) && 2 <= s.sp < ADDR_SP && Clear(s.sp, lines, base) && Clear(s.sp - 1, lines, base) ::
        Run(s, 5) == CalledThrough(s, hi, lo)
  {
    hide BeginsAt, MadeFrom, X.ExpandText, X.ExpandTo, X.Joined, CallPairLines, IsPart, Address, At, CodeOf, Fits, WellFormed, Bound;
    hide AtLine, Clear, CalledThrough, Run;
    var op := X.Do(T.CALL, S.A2(X.Register(hi), X.Register(lo)));
    Expanding();
    Joining();
    CallPairExpands(X.DEPTH, hi, lo, X.NoLines);
    k := PartStands(lines, base, text, X.Uses(op, X.End), rest, CallPairLines(hi, lo, X.NoLines));
    CallPairStands(lines, base, k, hi, lo, X.NoLines);
    forall s: State | AtLine(s, lines, base, k) && 2 <= s.sp < ADDR_SP && Clear(s.sp, lines, base) && Clear(s.sp - 1, lines, base)
      ensures Run(s, 5) == CalledThrough(s, hi, lo)
    {
      AtLineThere(s, lines, base, k);
      CallPairRuns(s, lines, base, k, hi, lo);
    }
  }

  lemma CallPairRuns(s: State, lines: seq<Line>, base: word, k: nat, hi: Reg, lo: Reg)
    requires AtLine(s, lines, base, k) && 2 <= s.sp < ADDR_SP && Clear(s.sp, lines, base) && Clear(s.sp - 1, lines, base)
    requires s.pc + 10 < 65536 && At(CodeOf(lines, base), s.pc, CallPair(hi, lo, s.pc + 10))
    ensures Run(s, 5) == CalledThrough(s, hi, lo)
  {
    hide Run, Loaded, Fits, WellFormed, Bound, CodeOf, ExecAll, Fine, Halted, At, CallPair, Count, Clear, CalledThrough;
    var b := CallPair(hi, lo, s.pc + 10);
    AtLen(CodeOf(lines, base), s.pc, b);
    CallPairExec(s, lines, base, hi, lo);
    BlockSteps(s, lines, base, b);
  }

  // ----- native instructions -----

  lemma NativeSpells(op: X.Operation, i: Native)
    requires X.IsNative(op) && X.NativeLine(op) == Some(Op(i, Written))
    ensures S.Spells(4, op, One(i), Written)
  {
    hide X.IsNative, X.NativeLine, X.FirstMatch, T.Overloads, X.ExpandBody;
  }

  /** An instruction written as it is, in the source of any program, every use of it: one step does what SPEC.txt says. */
  lemma NativeOnMachine(lines: seq<Line>, base: word, text: X.Text, op: X.Operation, i: Native, rest: X.Text) returns (k: nat)
    requires HasRoom(lines, base) && MadeFrom(lines, base, text, X.Uses(op, rest))
    requires X.IsNative(op) && X.NativeLine(op) == Some(Op(i, Written))
    ensures BeginsAt(lines, base, text, X.Uses(op, rest), k) && k <= |lines|
    ensures forall s: State {:trigger AtLine(s, lines, base, k)} | AtLine(s, lines, base, k) && Harmless(i, s, lines, base) ::
      Run(s, 1) == Exec(i, s.(pc := U16(s.pc + Size(i)))) && Loaded(Run(s, 1), lines, base)
  {
    hide Fits, WellFormed, Bound, MadeFrom, BeginsAt, AtLine, Harmless, Run, Exec, Loaded, Size, X.IsNative, X.NativeLine, IsPart, S.Lay;
    hide Address, At, CodeOf, Len, Pure;
    NativeSpells(op, i);
    k := UseStands(lines, base, text, op, One(i), Written, rest);
    PlainLinks(lines, base, k, One(i), X.NoLines);
    forall s: State | AtLine(s, lines, base, k) && Harmless(i, s, lines, base)
      ensures Run(s, 1) == Exec(i, s.(pc := U16(s.pc + Size(i)))) && Loaded(Run(s, 1), lines, base)
    {
      AtLineThere(s, lines, base, k);
      OneStep(s, lines, base, i);
    }
  }


  // ----- instructions with a name -----

  /** The instruction on such a line, with the address that the name stands for there. */
  lemma NamedAt(lines: seq<Line>, base: word, k: nat, i: Native, name: string, dotted: bool)
    requires HasRoom(lines, base) && HasAddress(i) && IsLine(lines, base, k, Op(i, Ref(name, dotted)))
    ensures Aimed(lines, k, X.Symbol(name, dotted)) && Address(lines, base, k + 1) == Address(lines, base, k) + 3
    ensures
      var w := Goal(lines, base, k, X.Symbol(name, dotted));
      At(CodeOf(lines, base), Address(lines, base, k), Single(WithAddress(i, w)))
  {
    hide UniqueNames, Binding, CodeOf, IsLine, Offset, Bound, Fits, Intended, NoGlobal;
    NextAddress(lines, base, k);
    CodeAt(lines, base, k);
    NameComes(lines, base, k, i, name, dotted);
    if UniqueNames(lines) {
      MeantExactly(lines, k, name, dotted);
    }
  }

  /**
   A native operation on a name, in the source of any program, every use of it, wherever the label is:
   one step does what SPEC.txt says of the instruction with the address that the name stands for.
   */
  lemma NamedOnMachine(lines: seq<Line>, base: word, text: X.Text, op: X.Operation, i: Native, name: string, dotted: bool, rest: X.Text)
    returns (k: nat)
    requires HasRoom(lines, base) && MadeFrom(lines, base, text, X.Uses(op, rest)) && HasAddress(i)
    requires X.IsNative(op) && X.NativeLine(op) == Some(Op(i, Ref(name, dotted)))
    ensures BeginsAt(lines, base, text, X.Uses(op, rest), k) && Aimed(lines, k, X.Symbol(name, dotted))
    ensures
      var j := WithAddress(i, Goal(lines, base, k, X.Symbol(name, dotted)));
      forall s: State {:trigger AtLine(s, lines, base, k)} | AtLine(s, lines, base, k) && Harmless(j, s, lines, base) ::
        Run(s, 1) == Exec(j, s.(pc := U16(s.pc + 3))) && Loaded(Run(s, 1), lines, base)
  {
    hide BeginsAt, MadeFrom, X.ExpandText, X.ExpandTo, X.Joined, IsLine, Address, At, CodeOf, Fits, WellFormed, Bound, Aimed, Goal;
    hide AtLine, Harmless, Run, Exec, Loaded, X.IsNative, X.NativeLine, WithAddress, HasAddress;
    Expanding();
    Joining();
    var line := Op(i, Ref(name, dotted));
    NativeExpands(X.DEPTH, op, line, X.NoLines);
    k := PartStands(lines, base, text, X.Uses(op, X.End), rest, X.Put(line, X.NoLines));
    NamedAt(lines, base, k, i, name, dotted);
    var j := WithAddress(i, Goal(lines, base, k, X.Symbol(name, dotted)));
    forall s: State | AtLine(s, lines, base, k) && Harmless(j, s, lines, base)
      ensures Run(s, 1) == Exec(j, s.(pc := U16(s.pc + 3))) && Loaded(Run(s, 1), lines, base)
    {
      AtLineThere(s, lines, base, k);
      OneStep(s, lines, base, j);
    }
  }

  /** The state behind a store of a number at the address w: F is the number, too. */
  function PutThere(s: State, w: word, v: byte): State {
    Poke(s.(g := s.g.(f := v), pc := U16(s.pc + 5)), w, v)
  }

  /** `sw [name], v` in the source of any program, every use of it, wherever the label is. */
  lemma SwNameOnMachine(lines: seq<Line>, base: word, text: X.Text, name: string, dotted: bool, v: byte, rest: X.Text) returns (k: nat)
    requires HasRoom(lines, base)
    requires MadeFrom(lines, base, text, X.Uses(X.Do(T.SW, S.A2(X.Symbol(name, dotted), X.Number(v))), rest))
    ensures BeginsAt(lines, base, text, X.Uses(X.Do(T.SW, S.A2(X.Symbol(name, dotted), X.Number(v))), rest), k)
    ensures k < |lines| && Aimed(lines, k + 1, X.Symbol(name, dotted))
    ensures
      var w := Goal(lines, base, k + 1, X.Symbol(name, dotted));
      forall s: State {:trigger AtLine(s, lines, base, k)} | AtLine(s, lines, base, k) && Clear(w, lines, base) ::
        Run(s, 2) == PutThere(s, w, v) && Loaded(Run(s, 2), lines, base)
  {
    hide BeginsAt, MadeFrom, X.ExpandText, X.ExpandTo, X.Joined, IsLine, Address, At, CodeOf, Fits, WellFormed, Bound, Aimed, Goal;
    hide AtLine, Clear, Run, PutThere, Loaded;
    Expanding();
    Joining();
    var op := X.Do(T.SW, S.A2(X.Symbol(name, dotted), X.Number(v)));
    var more := X.Put(Op(SW(Abs(0), F), Ref(name, dotted)), X.NoLines);
    var first := Op(MW(F, Imm(v)), Written);
    SwNameExpands(X.DEPTH, name, dotted, v, X.NoLines);
    k := PartStands(lines, base, text, X.Uses(op, X.End), rest, X.Put(first, more));
    assert IsPart(lines, base, k + 1, more);
    SwNameStands(lines, base, k, name, dotted, v);
    var w := Goal(lines, base, k + 1, X.Symbol(name, dotted));
    forall s: State | AtLine(s, lines, base, k) && Clear(w, lines, base)
      ensures Run(s, 2) == PutThere(s, w, v) && Loaded(Run(s, 2), lines, base)
    {
      AtLineThere(s, lines, base, k);
      SwNameRuns(s, lines, base, k, w, v);
    }
  }

  lemma SwNameStands(lines: seq<Line>, base: word, k: nat, name: string, dotted: bool, v: byte)
    requires HasRoom(lines, base) && IsLine(lines, base, k, Op(MW(F, Imm(v)), Written))
    requires IsLine(lines, base, k + 1, Op(SW(Abs(0), F), Ref(name, dotted)))
    ensures Aimed(lines, k + 1, X.Symbol(name, dotted))
    ensures At(CodeOf(lines, base), Address(lines, base, k), Putting(Goal(lines, base, k + 1, X.Symbol(name, dotted)), v))
  {
    hide UniqueNames, Binding, CodeOf, IsLine, Offset, Bound, Fits, Aimed, Goal, At;
    NamedAt(lines, base, k + 1, SW(Abs(0), F), name, dotted);
    LineAtAddress(lines, base, k, MW(F, Imm(v)), Written, 0);
    AimPlain(One(MW(F, Imm(v))), 0);
    Glue(CodeOf(lines, base), Address(lines, base, k), One(MW(F, Imm(v))), One(SW(Abs(Goal(lines, base, k + 1, X.Symbol(name, dotted))), F)));
  }

  lemma SwNameRuns(s: State, lines: seq<Line>, base: word, k: nat, w: word, v: byte)
    requires AtLine(s, lines, base, k) && Clear(w, lines, base) && At(CodeOf(lines, base), s.pc, Putting(w, v))
    ensures Run(s, 2) == PutThere(s, w, v) && Loaded(Run(s, 2), lines, base)
  {
    hide Run, Loaded, CodeOf, ExecAll, Fine, Halted, At, Clear, Poke, Count;
    AtLen(CodeOf(lines, base), s.pc, Putting(w, v));
    assert Len(Putting(w, v)) == 5;
    PutExec(s, lines, base, w, v);
    BlockSteps(s, lines, base, Putting(w, v));
  }
}
