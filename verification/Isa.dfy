/**
 The native instructions of the JDH-8 as SPEC.txt lists them: registers, operands, the
 arithmetic unit with its flags, and the encoding of an instruction as one to three bytes.
 */
module Isa {
  import opened Words

  datatype Reg = A | B | C | D | L | H | Z | F {
    function Code(): (k: nat)
      ensures k < 8
    {
      match this
      case A => 0 case B => 1 case C => 2 case D => 3 case L => 4 case H => 5 case Z => 6 case F => 7
    }
  }

  function RegOf(k: nat): Reg
    requires k < 8
  {
    match k
    case 0 => A case 1 => B case 2 => C case 3 => D case 4 => L case 5 => H case 6 => Z case _ => F
  }

  /** The register file. HL is the word whose low byte is L. */
  datatype Regs = Regs(a: byte, b: byte, c: byte, d: byte, l: byte, h: byte, z: byte, f: byte) {
    function Get(r: Reg): byte {
      match r
      case A => a case B => b case C => c case D => d case L => l case H => h case Z => z case F => f
    }

    function Set(r: Reg, v: byte): Regs {
      match r
      case A => this.(a := v) case B => this.(b := v) case C => this.(c := v) case D => this.(d := v)
      case L => this.(l := v) case H => this.(h := v) case Z => this.(z := v) case F => this.(f := v)
    }

    function HL(): word { Pair(h, l) }
  }

  lemma GetSet(g: Regs, r: Reg, v: byte, q: Reg)
    ensures g.Set(r, v).Get(q) == if q == r then v else g.Get(q)
  {
  }

  lemma SetGet(g: Regs, r: Reg)
    ensures g.Set(r, g.Get(r)) == g
  {
  }

  lemma SetFlags(g: Regs, v: byte)
    ensures g.Set(F, v).f == v
  {
  }

  lemma SetTwice(g: Regs, r: Reg, v: byte, w: byte)
    ensures g.Set(r, v).Set(r, w) == g.Set(r, w)
  {
  }

  lemma SetSwap(g: Regs, r: Reg, v: byte, q: Reg, w: byte)
    requires r != q
    ensures g.Set(r, v).Set(q, w) == g.Set(q, w).Set(r, v)
  {
  }

  /** The imm8/reg operand. */
  datatype Arg8 = Imm(v: byte) | Rg(r: Reg) {
    function Value(g: Regs): byte {
      match this
      case Imm(v) => v
      case Rg(r) => g.Get(r)
    }
  }

  /** The [imm16/HL] operand. */
  datatype Arg16 = Abs(w: word) | AtHL {
    function Value(g: Regs): word {
      match this
      case Abs(w) => w
      case AtHL => g.HL()
    }
  }

  datatype AluOp = ADD | ADC | AND | OR | NOR | CMP | SBB

  datatype Native =
    | MW(r: Reg, x: Arg8)
    | LW(r: Reg, at: Arg16)
    | SW(at: Arg16, r: Reg)
    | PUSH(x: Arg8)
    | POP(r: Reg)
    | LDA(w: word)
    | JNZ(x: Arg8)
    | INB(r: Reg, x: Arg8)
    | OUTB(x: Arg8, r: Reg)
    | ALU(op: AluOp, r: Reg, x: Arg8)

  /** Instructions by address. */
  type Code = map<word, Native>

  // ----- the arithmetic unit -----

  /** LESS, EQUAL, CARRY and BORROW, from bit 0 up. CARRY and BORROW look at the operands alone. */
  function Flags(a: byte, b: byte): byte {
    (if a < b then 1 else 0) + (if a == b then 2 else 0) + (if a + b > 255 then 4 else 0) + (if b > a then 8 else 0)
  }

  function Carry(f: byte): nat { if Bit(f, 2) then 1 else 0 }

  function Borrow(f: byte): nat { if Bit(f, 3) then 1 else 0 }

  function AluResult(op: AluOp, a: byte, b: byte, f: byte): byte {
    match op
    case ADD => U8(a + b)
    case ADC => U8(a + b + Carry(f))
    case AND => And(a, b)
    case OR => Or(a, b)
    case NOR => Nor(a, b)
    case CMP => a
    case SBB => U8(a - b - Borrow(f))
  }

  predicate LoadsFlags(op: AluOp) { op in {ADD, ADC, SBB, CMP} }

  function Alu(g: Regs, op: AluOp, r: Reg, b: byte): Regs {
    var a := g.Get(r);
    var g' := g.Set(r, AluResult(op, a, b, g.f));
    if LoadsFlags(op) then g'.Set(F, Flags(a, b)) else g'
  }

  /** What the flags register says about the last comparison or sum. */
  lemma FlagBits(a: byte, b: byte)
    ensures Bit(Flags(a, b), 0) <==> a < b
    ensures Bit(Flags(a, b), 1) <==> a == b
    ensures Bit(Flags(a, b), 2) <==> a + b > 255
    ensures Bit(Flags(a, b), 3) <==> a < b
  {
    assert Bit(Flags(a, b), 2) == Bit(Flags(a, b) / 2 / 2, 0);
    assert Bit(Flags(a, b), 3) == Bit(Flags(a, b) / 2 / 2 / 2, 0);
  }

  // ----- encoding -----

  function Opcode(i: Native): (k: nat)
    ensures k < 16
  {
    match i
    case MW(_, _) => 0 case LW(_, _) => 1 case SW(_, _) => 2 case PUSH(_) => 3 case POP(_) => 4
    case LDA(_) => 5 case JNZ(_) => 6 case INB(_, _) => 7 case OUTB(_, _) => 8
    case ALU(op, _, _) =>
      match op
      case ADD => 9 case ADC => 10 case AND => 11 case OR => 12 case NOR => 13 case CMP => 14 case SBB => 15
  }

  function First(opcode: nat, y: bool, z: nat): byte
    requires opcode < 16 && z < 8
  {
    16 * opcode + (if y then 8 else 0) + z
  }

  function Imm16(w: word): seq<byte> { [Lo(w), Hi(w)] }

  /** XXXXYZZZ and the operand bytes that follow it (SPEC.txt, INSTRUCTION LAYOUT). */
  function Encode(i: Native): (s: seq<byte>)
    ensures |s| == Size(i)
  {
    var k := Opcode(i);
    match i
    case LW(r, Abs(w)) => [First(k, false, r.Code())] + Imm16(w)
    case LW(r, AtHL) => [First(k, true, r.Code())]
    case SW(Abs(w), r) => [First(k, false, r.Code())] + Imm16(w)
    case SW(AtHL, r) => [First(k, true, r.Code())]
    case PUSH(Imm(v)) => [First(k, false, 0), v]
    case PUSH(Rg(q)) => [First(k, true, q.Code())]
    case JNZ(Imm(v)) => [First(k, false, 0), v]
    case JNZ(Rg(q)) => [First(k, true, q.Code())]
    case POP(r) => [First(k, true, r.Code())]
    case LDA(w) => [First(k, false, 0)] + Imm16(w)
    case MW(r, x) => Two(k, r, x)
    case INB(r, x) => Two(k, r, x)
    case OUTB(x, r) => Two(k, r, x)
    case ALU(_, r, x) => Two(k, r, x)
  }

  function Two(opcode: nat, r: Reg, x: Arg8): (s: seq<byte>)
    requires opcode < 16
    ensures |s| == 2
  {
    match x
    case Imm(v) => [First(opcode, false, r.Code()), v]
    case Rg(q) => [First(opcode, true, r.Code()), q.Code()]
  }

  function Size(i: Native): (n: nat)
    ensures 1 <= n <= 3
  {
    match i
    case LW(_, Abs(_)) => 3
    case LW(_, AtHL) => 1
    case SW(Abs(_), _) => 3
    case SW(AtHL, _) => 1
    case PUSH(Imm(_)) => 2
    case PUSH(Rg(_)) => 1
    case JNZ(Imm(_)) => 2
    case JNZ(Rg(_)) => 1
    case POP(_) => 1
    case LDA(_) => 3
    case _ => 2
  }
}
