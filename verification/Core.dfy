/**
 Programs over a private memory. A Core is the part of a machine state that a routine may
 rely on: registers, stack pointer, program counter, and only those memory cells the routine
 has been given. Instructions come from a code map; touching a cell outside `ram`, or writing
 one that is read-only, is not a step. A routine proved here therefore changes nothing else.
 */
module Core {
  import opened Words
  import opened Isa

  datatype Core = Core(g: Regs, sp: word, pc: word, ram: map<word, byte>, readOnly: set<word>) {
    predicate Readable(a: int) { a in ram }

    predicate Writable(a: int) { a in ram && a !in readOnly }
  }

  /** The instruction touches only memory it was given, and does not talk to a port. */
  predicate Able(i: Native, h: Core) {
    match i
    case LW(_, at) => h.Readable(at.Value(h.g))
    case SW(at, _) => h.Writable(at.Value(h.g))
    case PUSH(_) => h.sp > 0 && h.Writable(h.sp)
    case POP(_) => h.Readable(h.sp + 1)
    case INB(_, _) => false
    case OUTB(_, _) => false
    case _ => true
  }

  function Effect(i: Native, h: Core): Core
    requires Able(i, h)
  {
    match i
    case MW(r, x) => h.(g := h.g.Set(r, x.Value(h.g)))
    case LW(r, at) => h.(g := h.g.Set(r, h.ram[at.Value(h.g)]))
    case SW(at, r) => h.(ram := h.ram[at.Value(h.g) := h.g.Get(r)])
    case PUSH(x) => h.(ram := h.ram[h.sp := x.Value(h.g)], sp := h.sp - 1)
    case POP(r) => h.(g := h.g.Set(r, h.ram[h.sp + 1]), sp := h.sp + 1)
    case LDA(w) => h.(g := h.g.(h := Hi(w), l := Lo(w)))
    case JNZ(x) => if x.Value(h.g) != 0 then h.(pc := h.g.HL()) else h
    case ALU(op, r, x) => h.(g := Alu(h.g, op, r, x.Value(h.g)))
  }

  predicate CanStep(code: Code, h: Core) {
    h.pc in code && h.pc + Size(code[h.pc]) < 65536 && Able(code[h.pc], h.(pc := h.pc + Size(code[h.pc])))
  }

  function After(i: Native, h: Core): Core
    requires h.pc + Size(i) < 65536 && Able(i, h.(pc := h.pc + Size(i)))
  {
    Effect(i, h.(pc := h.pc + Size(i)))
  }

  ghost predicate Steps(code: Code, h: Core, h': Core, n: nat)
    decreases n
  {
    if n == 0 then h == h' else CanStep(code, h) && Steps(code, After(code[h.pc], h), h', n - 1)
  }

  ghost predicate Reaches(code: Code, h: Core, h': Core) {
    exists n: nat :: Steps(code, h, h', n)
  }

  lemma {:induction false} StepsAdd(code: Code, h: Core, h1: Core, h2: Core, m: nat, n: nat)
    requires Steps(code, h, h1, m) && Steps(code, h1, h2, n)
    ensures Steps(code, h, h2, m + n)
    decreases m
  {
    hide Effect, Able;
    if m != 0 {
      StepsAdd(code, After(code[h.pc], h), h1, h2, m - 1, n);
    }
  }

  lemma Chain(code: Code, h: Core, h1: Core, h2: Core)
    requires Reaches(code, h, h1) && Reaches(code, h1, h2)
    ensures Reaches(code, h, h2)
  {
    var m: nat :| Steps(code, h, h1, m);
    var n: nat :| Steps(code, h1, h2, n);
    StepsAdd(code, h, h1, h2, m, n);
  }

  lemma Stay(code: Code, h: Core)
    ensures Reaches(code, h, h)
  {
    assert Steps(code, h, h, 0);
  }

  /** One more instruction at the end of a run. */
  lemma Then(code: Code, h: Core, h1: Core, i: Native)
    requires Reaches(code, h, h1)
    requires h1.pc in code && code[h1.pc] == i && h1.pc + Size(i) < 65536
    requires Able(i, h1.(pc := h1.pc + Size(i)))
    ensures Reaches(code, h, After(i, h1))
  {
    hide Effect, Able;
    var h2 := After(i, h1);
    assert Steps(code, h2, h2, 0);
    assert Steps(code, h1, h2, 1);
    Chain(code, h, h1, h2);
  }

  // ----- blocks of code -----

  datatype Block = Nop | Single(i: Native) | Join(first: Block, second: Block)

  function Len(b: Block): nat {
    match b
    case Nop => 0
    case Single(i) => Size(i)
    case Join(x, y) => Len(x) + Len(y)
  }

  predicate Computes(i: Native) { i.MW? || i.LDA? || i.ALU? }

  predicate Pure(b: Block) {
    match b
    case Nop => true
    case Single(i) => Computes(i)
    case Join(x, y) => Pure(x) && Pure(y)
  }

  function One(i: Native): (b: Block)
    ensures Len(b) == Size(i) && Pure(b) == Computes(i)
  {
    Single(i)
  }

  function Cat(x: Block, y: Block): (b: Block)
    ensures Len(b) == Len(x) + Len(y) && Pure(b) == (Pure(x) && Pure(y))
  {
    Join(x, y)
  }

  ghost predicate At(code: Code, pc: int, b: Block)
    decreases b
  {
    && 0 <= pc && pc + Len(b) <= 0xFFFA
    && match b
       case Nop => true
       case Single(i) => pc in code && code[pc] == i
       case Join(x, y) => At(code, pc, x) && At(code, pc + Len(x), y)
  }

  lemma Split(code: Code, pc: int, x: Block, y: Block)
    requires At(code, pc, Cat(x, y))
    ensures At(code, pc, x) && At(code, pc + Len(x), y) && pc + Len(x) + Len(y) <= 0xFFFA
  {
  }

  /** A block at the next instruction of a run of one instruction. */
  lemma RunOne(code: Code, h: Core, i: Native)
    requires At(code, h.pc, One(i)) && Able(i, h.(pc := h.pc + Size(i)))
    ensures h.pc + Size(i) <= 0xFFFA && Reaches(code, h, After(i, h))
  {
    hide Effect, Able, Reaches;
    Stay(code, h);
    Then(code, h, h, i);
  }

  /** A stretch of code between two labels, and where it starts. */
  datatype Part = Part(start: int, block: Block)

  ghost predicate Placed(code: Code, parts: seq<Part>) {
    forall p {:trigger p in parts} | p in parts :: At(code, p.start, p.block)
  }

  // ----- blocks that only compute on registers -----

  function OnRegs(i: Native, g: Regs): Regs
    requires Computes(i)
  {
    match i
    case MW(r, x) => g.Set(r, x.Value(g))
    case LDA(w) => g.(h := Hi(w), l := Lo(w))
    case ALU(op, r, x) => Alu(g, op, r, x.Value(g))
  }

  function RegsAfter(b: Block, g: Regs): Regs
    requires Pure(b)
    decreases b
  {
    match b
    case Nop => g
    case Single(i) => OnRegs(i, g)
    case Join(x, y) => RegsAfter(y, RegsAfter(x, g))
  }

  lemma RegsOne(i: Native, g: Regs)
    requires Computes(i)
    ensures Pure(One(i)) && RegsAfter(One(i), g) == OnRegs(i, g) && Len(One(i)) == Size(i)
  {
  }

  lemma RegsCat(x: Block, y: Block, g: Regs)
    requires Pure(x) && Pure(y)
    ensures Pure(Cat(x, y)) && RegsAfter(Cat(x, y), g) == RegsAfter(y, RegsAfter(x, g))
  {
  }

  lemma {:induction false} RunPure(code: Code, h: Core, b: Block)
    requires At(code, h.pc, b) && Pure(b)
    ensures h.pc + Len(b) <= 0xFFFA
    ensures Reaches(code, h, h.(g := RegsAfter(b, h.g), pc := h.pc + Len(b)))
    decreases b
  {
    hide Alu, Regs.Set, Arg8.Value, Size, Reaches;
    match b
    case Nop => Stay(code, h);
    case Single(i) => RunOne(code, h, i);
    case Join(x, y) =>
      RunPure(code, h, x);
      var h1 := h.(g := RegsAfter(x, h.g), pc := h.pc + Len(x));
      RunPure(code, h1, y);
      Chain(code, h, h1, h1.(g := RegsAfter(y, h1.g), pc := h1.pc + Len(y)));
  }
}
