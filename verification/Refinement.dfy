/**
 From a routine's private memory to the machine: a run proved on a Core is a run of the
 emulator on the assembled bytes, and every physical cell that the routine was not given to
 write keeps its value.
 */
module Refinement {
  import opened Words
  import opened Isa
  import opened Machine
  import opened Source
  import opened Simulation
  import opened Core

  /** An ordinary byte of memory: not a mapped register, and its bank is present. */
  predicate Ordinary(s: State, x: word) {
    x < ADDR_MB && Locate(s, x) != Absent
  }

  /** The machine is running, and agrees with the core on registers and on the cells the core was given. */
  ghost predicate Models(s: State, h: Core) {
    && !Halted(s) && s.g == h.g && s.sp == h.sp && s.pc == h.pc
    && forall x | x in h.ram :: Ordinary(s, x) && (x !in h.readOnly ==> !Refused(s, x)) && Peek(s, x) == h.ram[x]
  }

  /** The cells the core may write are clear of the program. */
  ghost predicate ClearOfImage(h: Core, lines: seq<Line>, base: word) {
    forall x | x in h.ram && x !in h.readOnly :: !(base <= x < base + Offset(lines, |lines|))
  }

  /** A physical cell that the core may write. */
  ghost predicate Lent(s: State, h: Core, c: Cell) {
    exists x :: x in h.ram && x !in h.readOnly && c == Locate(s, x)
  }

  /** Nothing but registers, stack pointer, pc and the lent cells is different. */
  ghost predicate Framed(s: State, s': State, h: Core) {
    && s'.mb == s.mb && s'.status == s.status && s'.io == s.io && s'.writeProtect == s.writeProtect
    && s'.banks.Keys == s.banks.Keys
    && forall c: Cell | ValidCell(s, c) && !c.Special? && !Lent(s, h, c) :: Read(s', c) == Read(s, c)
  }

  lemma PokeHere(s: State, a: word, v: byte)
    requires Ordinary(s, a) && !Refused(s, a)
    ensures Peek(Poke(s, a, v), a) == v
  {
  }

  /** A store to a lent cell, on both sides. */
  lemma StoreModels(s: State, h: Core, a: word, v: byte)
    requires Models(s, h) && h.Writable(a)
    ensures var s', h' := Poke(s, a, v), h.(ram := h.ram[a := v]);
      Models(s', h') && Framed(s, s', h)
  {
    hide Peek, Poke, Bit, Read;
    var s', h' := Poke(s, a, v), h.(ram := h.ram[a := v]);
    PokeShape(s, a, v);
    PokeHere(s, a, v);
    forall x | x in h'.ram
      ensures Ordinary(s', x) && (x !in h.readOnly ==> !Refused(s', x)) && Peek(s', x) == h'.ram[x]
    {
      assert Ordinary(s, x);
      if x != a {
        PokeElsewhere(s, a, v, x);
      }
    }
    forall c: Cell | ValidCell(s, c) && !c.Special? && !Lent(s, h, c)
      ensures Read(s', c) == Read(s, c)
    {
      PokeCell(s, a, v, c);
    }
  }

  lemma PokeShape(s: State, a: word, v: byte)
    requires Ordinary(s, a)
    ensures var s' := Poke(s, a, v);
      s'.mb == s.mb && s'.sp == s.sp && s'.pc == s.pc && s'.status == s.status && s'.io == s.io && s'.g == s.g
      && s'.writeProtect == s.writeProtect && s'.banks.Keys == s.banks.Keys
  {
  }

  lemma PokeCell(s: State, a: word, v: byte, c: Cell)
    requires Ordinary(s, a) && ValidCell(s, c) && !c.Special? && c != Locate(s, a)
    ensures ValidCell(Poke(s, a, v), c) && Read(Poke(s, a, v), c) == Read(s, c)
  {
  }

  /** Registers, stack pointer and pc are no part of memory. */
  lemma RegistersModel(s: State, h: Core, g: Regs, sp: word, pc: word)
    requires Models(s, h)
    ensures var s', h' := s.(g := g, sp := sp, pc := pc), h.(g := g, sp := sp, pc := pc);
      Models(s', h') && Framed(s, s', h)
  {
    hide Peek, Bit;
    var s' := s.(g := g, sp := sp, pc := pc);
    forall x | x in h.ram
      ensures Ordinary(s', x) && (x !in h.readOnly ==> !Refused(s', x)) && Peek(s', x) == h.ram[x]
    {
      assert Ordinary(s, x);
      PeekSame(s, s', x);
    }
  }

  /** The lent cells are the same cells after any step. */
  lemma FrameChain(s: State, s1: State, s2: State, h: Core, h1: Core)
    requires Framed(s, s1, h) && Framed(s1, s2, h1)
    requires h1.ram.Keys == h.ram.Keys && h1.readOnly == h.readOnly
    ensures Framed(s, s2, h)
  {
    hide Read;
    forall c: Cell | ValidCell(s, c) && !c.Special? && !Lent(s, h, c)
      ensures Read(s2, c) == Read(s, c)
    {
      assert !Lent(s1, h1, c);
    }
  }

  /** One step of the core is one operation of the program on the machine. */
  lemma StepModels(s: State, h: Core, code: Code)
    requires Models(s, h) && CanStep(code, h)
    ensures s.pc in code && s.pc + Size(code[s.pc]) < 65536
    ensures Models(SymStep(code, s), After(code[h.pc], h)) && Framed(s, SymStep(code, s), h)
    ensures After(code[h.pc], h).ram.Keys == h.ram.Keys && After(code[h.pc], h).readOnly == h.readOnly
  {
    hide Peek, Poke, Alu, Models, Framed, Regs.Set, Regs.Get, Size;
    SameRegisters(s, h);
    var i := code[h.pc];
    var s1, h1 := s.(pc := s.pc + Size(i)), h.(pc := h.pc + Size(i));
    RegistersModel(s, h, s.g, s.sp, s.pc + Size(i));
    assert s1 == s.(g := s.g, sp := s.sp, pc := s.pc + Size(i)) && h1 == h.(g := s.g, sp := s.sp, pc := s.pc + Size(i));
    var s2, h2 := Exec(i, s1), Effect(i, h1);
    match i {
      case SW(at, r) =>
        StoreModels(s1, h1, at.Value(h.g), h.g.Get(r));
      case PUSH(x) =>
        RegistersModel(s1, h1, s.g, s.sp - 1, s1.pc);
        var s3, h3 := s1.(sp := s.sp - 1), h1.(sp := s.sp - 1);
        assert s3 == s1.(g := s.g, sp := s.sp - 1, pc := s1.pc) && h3 == h1.(g := s.g, sp := s.sp - 1, pc := s1.pc);
        StoreModels(s3, h3, h.sp, x.Value(h.g));
        FrameChain(s1, s3, s2, h1, h3);
      case LW(r, at) =>
        Loads(s1, h1, at.Value(h.g));
        RegistersModel(s1, h1, h2.g, s1.sp, s1.pc);
      case POP(r) =>
        Loads(s1, h1, h.sp + 1);
        Loads(s1.(sp := s.sp + 1), h1.(sp := s.sp + 1), h.sp + 1) by {
          RegistersModel(s1, h1, s.g, s.sp + 1, s1.pc);
          assert s1.(sp := s.sp + 1) == s1.(g := s.g, sp := s.sp + 1, pc := s1.pc);
          assert h1.(sp := s.sp + 1) == h1.(g := s.g, sp := s.sp + 1, pc := s1.pc);
        }
        RegistersModel(s1, h1, h2.g, s.sp + 1, s1.pc);
      case _ =>
        RegistersModel(s1, h1, h2.g, s1.sp, h2.pc);
    }
    FrameChain(s, s1, s2, h, h1);
  }

  lemma SameRegisters(s: State, h: Core)
    requires Models(s, h)
    ensures s.g == h.g && s.sp == h.sp && s.pc == h.pc && !Halted(s)
  {
  }

  lemma Loads(s: State, h: Core, a: word)
    requires Models(s, h) && h.Readable(a)
    ensures Peek(s, a) == h.ram[a]
  {
  }

  /** A core stores only where it may, so it leaves the image alone. */
  lemma CoreHarmless(s: State, h: Core, lines: seq<Line>, base: word)
    requires Good(lines, base) && Models(s, h) && ClearOfImage(h, lines, base)
    requires CanStep(CodeOf(lines, base), h)
    ensures s.pc in CodeOf(lines, base) && Harmless(CodeOf(lines, base)[s.pc], s, lines, base)
  {
    hide Peek, Good, CodeOf;
    var i := CodeOf(lines, base)[s.pc];
    match StoreAddress(i, s)
    case None =>
    case Some(a) =>
      assert a in h.ram && a !in h.readOnly;
      assert Ordinary(s, a);
  }

  /** A run of the core is a run of the emulator on the assembled bytes. */
  lemma {:induction false} StepsRefine(s: State, h: Core, h': Core, lines: seq<Line>, base: word, n: nat)
    requires Good(lines, base) && Loaded(s, lines, base) && Models(s, h) && ClearOfImage(h, lines, base)
    requires Steps(CodeOf(lines, base), h, h', n)
    ensures Follows(s, lines, base, n) && Run(s, n) == SymRun(CodeOf(lines, base), s, n)
    ensures Models(Run(s, n), h') && Framed(s, Run(s, n), h) && Loaded(Run(s, n), lines, base)
    decreases n
  {
    hide Step, Exec, Good, Loaded, CodeOf, Holds, Harmless, Halted, Models, Framed, SymStep, After, Able;
    SameRegisters(s, h);
    if n == 0 {
      FrameRefl(s, h);
    } else {
      var code := CodeOf(lines, base);
      StepModels(s, h, code);
      CoreHarmless(s, h, lines, base);
      CodeHolds(s, lines, base, s.pc);
      StepMeetsSpec(s, code[s.pc]);
      StaysLoaded(s, lines, base);
      var s1, h1 := SymStep(code, s), After(code[h.pc], h);
      SymStepIsStep(s, code);
      StepsRefine(s1, h1, h', lines, base, n - 1);
      FrameChain(s, s1, Run(s, n), h, h1);
    }
  }

  lemma SymStepIsStep(s: State, code: Code)
    requires s.pc in code && s.pc + Size(code[s.pc]) < 65536
    ensures SymStep(code, s) == Exec(code[s.pc], s.(pc := s.pc + Size(code[s.pc])))
  {
    hide Exec;
  }

  lemma FrameRefl(s: State, h: Core)
    ensures Framed(s, s, h)
  {
  }

  /**
   Whatever is proved of a routine on its private memory holds of the emulator running the
   assembled program: the routine's final state is reached, everything not lent to it is untouched.
   */
  lemma RoutineOnMachine(s: State, h: Core, h': Core, lines: seq<Line>, base: word) returns (n: nat)
    requires Good(lines, base) && Loaded(s, lines, base) && Models(s, h) && ClearOfImage(h, lines, base)
    requires Reaches(CodeOf(lines, base), h, h')
    ensures Models(Run(s, n), h') && Framed(s, Run(s, n), h) && Loaded(Run(s, n), lines, base)
  {
    hide Good, Loaded, Models, Framed, Steps, Follows;
    n :| Steps(CodeOf(lines, base), h, h', n);
    StepsRefine(s, h, h', lines, base, n);
  }
}
