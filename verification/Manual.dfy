/**
 The definitions that everything rests on, in the numbers and letters of SPEC.txt, common/jdh8.h,
 asm/asm.h and asm/macros.asm: instruction bytes, the arithmetic unit, ports, and what the
 operations take.
 */
module Manual {
  import opened Words
  import opened Isa
  import opened Source
  import opened Machine
  import Assembler
  import T = MacroTable
  import X = Expand

  // ----- instruction bytes -----

  lemma RegisterNumbers()
    ensures A.Code() == 0 && B.Code() == 1 && C.Code() == 2 && D.Code() == 3
    ensures L.Code() == 4 && H.Code() == 5 && Z.Code() == 6 && F.Code() == 7
  {
  }

  /** In a program a register is named by its letter, and nothing else names one. */
  lemma RegisterLetters(r: Reg, s: string)
    ensures X.RegNamed(s) == Some(r) <==> s == ["abcdlhzf"[r.Code()]]
  {
    var letters := "abcdlhzf";
    assert letters[0] == 'a' && letters[1] == 'b' && letters[2] == 'c' && letters[3] == 'd';
    assert letters[4] == 'l' && letters[5] == 'h' && letters[6] == 'z' && letters[7] == 'f';
    assert s == [letters[r.Code()]] <==> |s| == 1 && s[0] == letters[r.Code()];
  }

  /** The four bits of the instruction, then 8 for a register operand, then the register. */
  lemma MemoryBytes(r: Reg, v: byte, w: word)
    ensures Encode(LW(r, Abs(w))) == [0x10 + r.Code(), w % 256, w / 256] && Encode(LW(r, AtHL)) == [0x18 + r.Code()]
    ensures Encode(SW(Abs(w), r)) == [0x20 + r.Code(), w % 256, w / 256] && Encode(SW(AtHL, r)) == [0x28 + r.Code()]
    ensures Encode(PUSH(Imm(v))) == [0x30, v] && Encode(PUSH(Rg(r))) == [0x38 + r.Code()]
    ensures Encode(POP(r)) == [0x48 + r.Code()]
    ensures Encode(LDA(w)) == [0x50, w % 256, w / 256]
    ensures Encode(JNZ(Imm(v))) == [0x60, v] && Encode(JNZ(Rg(r))) == [0x68 + r.Code()]
  {
    hide Reg.Code;
  }

  lemma ByteOrRegister(r: Reg, q: Reg, v: byte)
    ensures Encode(MW(r, Imm(v))) == [r.Code(), v] && Encode(MW(r, Rg(q))) == [0x08 + r.Code(), q.Code()]
    ensures Encode(INB(r, Imm(v))) == [0x70 + r.Code(), v] && Encode(INB(r, Rg(q))) == [0x78 + r.Code(), q.Code()]
    ensures Encode(OUTB(Imm(v), r)) == [0x80 + r.Code(), v] && Encode(OUTB(Rg(q), r)) == [0x88 + r.Code(), q.Code()]
  {
    hide Reg.Code;
  }

  /** The first byte of an arithmetic instruction on a number, with register A. */
  function Group(op: AluOp): byte {
    match op
    case ADD => 0x90 case ADC => 0xA0 case AND => 0xB0 case OR => 0xC0 case NOR => 0xD0 case CMP => 0xE0 case SBB => 0xF0
  }

  lemma ArithmeticBytes(op: AluOp, r: Reg, q: Reg, v: byte)
    ensures Encode(ALU(op, r, Imm(v))) == [Group(op) + r.Code(), v]
    ensures Encode(ALU(op, r, Rg(q))) == [Group(op) + 0x08 + r.Code(), q.Code()]
  {
    hide Reg.Code;
  }

  // ----- the arithmetic unit -----

  lemma FlagValue(f: byte)
    ensures Carry(f) == f / 4 % 2 && Borrow(f) == f / 8 % 2
  {
    assert Bit(f, 2) == Bit(f / 2 / 2, 0) && Bit(f, 3) == Bit(f / 2 / 2 / 2, 0);
  }

  /** The result is a byte, whatever carries out of it. */
  lemma Sums(a: byte, b: byte, f: byte)
    ensures AluResult(ADD, a, b, f) == (a + b) % 256
    ensures AluResult(ADC, a, b, f) == (a + b + f / 4 % 2) % 256
    ensures AluResult(SBB, a, b, f) == (a - b - f / 8 % 2 + 512) % 256
    ensures AluResult(CMP, a, b, f) == a
  {
    hide Bit;
    FlagValue(f);
  }

  lemma BitByBit(a: byte, b: byte, f: byte, k: nat)
    requires k < 8
    ensures Bit(AluResult(AND, a, b, f), k) == (Bit(a, k) && Bit(b, k))
    ensures Bit(AluResult(OR, a, b, f), k) == (Bit(a, k) || Bit(b, k))
    ensures Bit(AluResult(NOR, a, b, f), k) == !(Bit(a, k) || Bit(b, k))
  {
    hide Bit, Bitwise;
    BitwiseBit(Both, a, b, 8, k);
    BitwiseBit(Either, a, b, 8, k);
    NotIs(Or(a, b), k);
  }

  /** ADD, ADC, CMP and SBB load the flags, also over a result in F; the others leave them as they are. */
  lemma FlagsAfter(g: Regs, op: AluOp, r: Reg, b: byte)
    ensures op == ADD || op == ADC || op == CMP || op == SBB ==> Alu(g, op, r, b).f == Flags(g.Get(r), b)
    ensures op == AND || op == OR || op == NOR ==> (r != F ==> Alu(g, op, r, b).f == g.f)
    ensures r != F || op == AND || op == OR || op == NOR ==> Alu(g, op, r, b).Get(r) == AluResult(op, g.Get(r), b, g.f)
    ensures forall q: Reg :: q != r && q != F ==> Alu(g, op, r, b).Get(q) == g.Get(q)
  {
    hide AluResult, Flags;
  }

  // ----- ports -----

  /** HALT is bit 3 of the status register. */
  lemma HaltBit(s: State)
    ensures Halted(s) <==> s.status / 8 % 2 == 1
  {
    assert Bit(s.status, 3) == Bit(s.status / 2 / 2 / 2, 0);
  }

  /** Port 0 is the status register, ports from 128 on are none, and the others are those of the devices. */
  lemma PortsAre(s: State, port: byte, v: byte)
    ensures In(s, 0) == (s.status, s) && Out(s, 0, v) == s.(status := v)
    ensures port >= 128 || (port > 0 && port !in s.io.present) ==> In(s, port) == (0, s) && Out(s, port, v) == s
    ensures 0 < port < 128 && port in s.io.present
      ==> In(s, port) == (s.io.send(s.io.received), s.(io := Ports(s.io.present, s.io.send, s.io.received + 1, s.io.sent)))
    ensures 0 < port < 128 && port in s.io.present
      ==> Out(s, port, v) == s.(io := Ports(s.io.present, s.io.send, s.io.received, s.io.sent + [(port, v)]))
  {
  }

  // ----- the origin -----

  /** Without `@org`, or with the origin 0xFFFF, a program begins at 0. */
  lemma OriginIs(org: word)
    ensures Assembler.Base(org) == if org == 0xFFFF then 0 else org
  {
  }

  // ----- what operations take -----

  /** The flags of asm/asm.h. */
  datatype Flag = OfReg | OfImm8 | OfImm16 | OfAddr | OfHL

  function FlagsOf(p: T.Param): set<Flag> {
    match p
    case REG => {OfReg}
    case IMM8_REG => {OfImm8, OfReg}
    case ADDR => {OfImm16, OfAddr}
    case IMM => {OfImm16, OfImm8}
    case IMM_ADDR => {OfImm16, OfImm8, OfAddr}
    case IMM16 => {OfImm16}
    case IMM16_HL => {OfImm16, OfHL, OfAddr}
  }

  /** The flags that an argument gets; a number is 8 bits wide up to 255, also a negative one. */
  function FlagsFor(a: X.Arg): set<Flag> {
    match a
    case Register(_) => {OfReg}
    case Number(v) => if v <= 0xFF then {OfImm8} else {OfImm16}
    case Symbol(_, _) => {OfAddr, OfImm16}
    case HereByte(_, _) => {OfImm8}
  }

  /** The four reasons why check_args refuses an argument. */
  lemma FailsByFlags(p: T.Param, a: X.Arg)
    ensures X.Fails(p, a) <==>
      var op, arg, imm := FlagsOf(p), FlagsFor(a), {OfImm8, OfImm16};
      || (OfAddr in op && arg !! imm)
      || (OfReg in op && op !! imm && OfReg !in arg)
      || (!(op !! imm) && OfReg !in op && arg !! imm)
      || (OfImm8 in op && OfImm16 !in op && OfImm16 in arg)
    ensures T.Optional(p) <==> OfHL in FlagsOf(p)
  {
    var imm := {OfImm8, OfImm16};
    assert OfImm8 in imm && OfImm16 in imm;
  }

  /** The first letter of a macro's parameter says what it takes, and brackets make it an address. */
  function KindOf(letter: char, brackets: bool): set<Flag> {
    (if letter == 'r' then {OfReg}
     else if letter == 'x' then {OfImm8, OfReg}
     else if letter == 'a' then {OfImm16, OfAddr}
     else if letter == 'i' then {OfImm16, OfImm8}
     else {}) + if brackets then {OfAddr} else {}
  }

  lemma Letters()
    ensures FlagsOf(T.REG) == KindOf('r', false) && FlagsOf(T.IMM8_REG) == KindOf('x', false)
    ensures FlagsOf(T.IMM) == KindOf('i', false)
    ensures FlagsOf(T.ADDR) == KindOf('a', false) == KindOf('a', true) && FlagsOf(T.IMM_ADDR) == KindOf('i', true)
  {
  }

  // ----- the headers of the operations, overload by overload -----

  lemma NativeHeaders()
    ensures T.NativeParams(T.MW) == T.NativeParams(T.INB) == Some(T.Takes2(T.REG, T.IMM8_REG))
    ensures T.NativeParams(T.LW) == Some(T.Takes2(T.REG, T.IMM16_HL))
    ensures T.NativeParams(T.SW) == Some(T.Takes2(T.IMM16_HL, T.REG))
    ensures T.NativeParams(T.PUSH) == T.NativeParams(T.JNZ) == Some(T.Takes1(T.IMM8_REG))
    ensures T.NativeParams(T.POP) == Some(T.Takes1(T.REG))
    ensures T.NativeParams(T.LDA) == Some(T.Takes1(T.IMM16))
    ensures T.NativeParams(T.OUTB) == Some(T.Takes2(T.IMM8_REG, T.REG))
    ensures forall op | op in {T.ADD, T.ADC, T.AND, T.OR, T.NOR, T.CMP, T.SBB} ::
      T.NativeParams(op) == Some(T.Takes2(T.REG, T.IMM8_REG))
  {
  }

  /** Overloads with these parameters, in this order, and no more. */
  predicate Has1(ms: T.Macros, p: T.Params) { ms.Macro? && ms.params == p && ms.rest.NoMacros? }

  predicate Has2(ms: T.Macros, p: T.Params, q: T.Params) { ms.Macro? && ms.params == p && Has1(ms.rest, q) }

  predicate Has3(ms: T.Macros, p: T.Params, q: T.Params, r: T.Params) { ms.Macro? && ms.params == p && Has2(ms.rest, q, r) }

  predicate Has4(ms: T.Macros, p: T.Params, q: T.Params, r: T.Params, s: T.Params) {
    ms.Macro? && ms.params == p && Has3(ms.rest, q, r, s)
  }

  lemma SystemHeaders()
    ensures Has1(T.HaltMacros(), T.NoParams)
    ensures Has1(T.OutbMacros(), T.Takes2(T.IMM, T.IMM))
    ensures Has1(T.ClfMacros(), T.NoParams)
    ensures Has1(T.StlMacros(), T.NoParams)
    ensures Has1(T.CllMacros(), T.NoParams)
    ensures Has1(T.SteMacros(), T.NoParams)
    ensures Has1(T.CleMacros(), T.NoParams)
    ensures Has1(T.StcMacros(), T.NoParams)
    ensures Has1(T.ClcMacros(), T.NoParams)
    ensures Has1(T.StbMacros(), T.NoParams)
    ensures Has1(T.ClbMacros(), T.NoParams)
  {
  }

  lemma ByteHeaders()
    ensures Has1(T.SubMacros(), T.Takes2(T.REG, T.IMM8_REG))
    ensures Has1(T.IncMacros(), T.Takes1(T.REG))
    ensures Has1(T.FdecMacros(), T.Takes1(T.REG))
    ensures Has1(T.DecMacros(), T.Takes1(T.REG))
    ensures Has1(T.SignMacros(), T.Takes1(T.IMM8_REG))
    ensures Has1(T.NotMacros(), T.Takes1(T.REG))
    ensures Has1(T.NandMacros(), T.Takes2(T.REG, T.IMM8_REG))
    ensures Has1(T.XnorMacros(), T.Takes2(T.REG, T.IMM8_REG))
    ensures Has1(T.XorMacros(), T.Takes2(T.REG, T.IMM8_REG))
  {
  }

  lemma WordHeaders()
    ensures Has2(T.Eq16Macros(), T.Takes3(T.REG, T.REG, T.IMM), T.Takes4(T.REG, T.REG, T.REG, T.REG))
    ensures Has1(T.Inc16Macros(), T.Takes2(T.REG, T.REG))
    ensures Has1(T.Dec16Macros(), T.Takes2(T.REG, T.REG))
    ensures Has3(T.Sub16Macros(), T.Takes3(T.REG, T.REG, T.REG),
              T.Takes4(T.REG, T.REG, T.REG, T.REG),
              T.Takes3(T.REG, T.REG, T.IMM))
    ensures Has3(T.Add16Macros(), T.Takes3(T.REG, T.REG, T.REG),
              T.Takes3(T.REG, T.REG, T.IMM),
              T.Takes4(T.REG, T.REG, T.REG, T.REG))
    ensures Has1(T.Sign16Macros(), T.Takes2(T.REG, T.REG))
    ensures Has2(T.Mw16Macros(), T.Takes3(T.REG, T.REG, T.IMM), T.Takes4(T.REG, T.REG, T.REG, T.REG))
  {
  }

  lemma MemoryHeaders()
    ensures Has2(T.LdaMacros(), T.Takes3(T.REG, T.REG, T.IMM_ADDR), T.Takes2(T.REG, T.REG))
    ensures Has2(T.Lw16Macros(), T.Takes3(T.REG, T.REG, T.ADDR), T.Takes2(T.REG, T.REG))
    ensures Has3(T.Sw16Macros(), T.Takes3(T.ADDR, T.REG, T.REG),
              T.Takes2(T.ADDR, T.IMM),
              T.Takes2(T.REG, T.REG))
    ensures Has1(T.LwMacros(), T.Takes3(T.REG, T.REG, T.REG))
    ensures Has3(T.SwMacros(), T.Takes3(T.REG, T.REG, T.REG),
              T.Takes2(T.ADDR, T.IMM),
              T.Takes3(T.REG, T.REG, T.IMM))
  {
  }

  lemma StackHeaders()
    ensures Has4(T.PushMacros(), T.Takes2(T.REG, T.REG),
              T.Takes3(T.REG, T.REG, T.REG),
              T.Takes4(T.REG, T.REG, T.REG, T.REG),
              T.Takes5(T.REG, T.REG, T.REG, T.REG, T.REG))
    ensures Has4(T.PopMacros(), T.Takes2(T.REG, T.REG),
              T.Takes3(T.REG, T.REG, T.REG),
              T.Takes4(T.REG, T.REG, T.REG, T.REG),
              T.Takes5(T.REG, T.REG, T.REG, T.REG, T.REG))
    ensures Has1(T.PushaMacros(), T.NoParams)
    ensures Has1(T.PopaMacros(), T.NoParams)
    ensures Has2(T.CallMacros(), T.Takes1(T.IMM_ADDR), T.Takes2(T.REG, T.REG))
    ensures Has1(T.RetMacros(), T.NoParams)
  {
  }

  lemma JumpHeaders()
    ensures Has2(T.JnzMacros(), T.Takes3(T.IMM8_REG, T.REG, T.REG), T.Takes2(T.IMM8_REG, T.IMM_ADDR))
    ensures Has3(T.JmpMacros(), T.NoParams,
              T.Takes2(T.REG, T.REG),
              T.Takes1(T.IMM_ADDR))
    ensures Has1(T.JmsMacros(), T.Takes3(T.REG, T.IMM8_REG, T.ADDR))
    ensures Has1(T.JmnMacros(), T.Takes3(T.REG, T.IMM8_REG, T.ADDR))
    ensures Has1(T.JzMacros(), T.Takes2(T.IMM8_REG, T.ADDR))
    ensures Has1(T.JcMacros(), T.Takes1(T.ADDR))
    ensures Has1(T.JncMacros(), T.Takes1(T.ADDR))
    ensures Has1(T.JbMacros(), T.Takes1(T.ADDR))
    ensures Has1(T.JnbMacros(), T.Takes1(T.ADDR))
  {
  }

  lemma ComparisonHeaders()
    ensures Has2(T.JltMacros(), T.Takes3(T.REG, T.IMM8_REG, T.ADDR), T.Takes1(T.ADDR))
    ensures Has2(T.JleMacros(), T.Takes3(T.REG, T.IMM8_REG, T.ADDR), T.Takes1(T.ADDR))
    ensures Has2(T.JeqMacros(), T.Takes3(T.REG, T.IMM8_REG, T.ADDR), T.Takes1(T.ADDR))
    ensures Has2(T.JneMacros(), T.Takes3(T.REG, T.IMM8_REG, T.ADDR), T.Takes1(T.ADDR))
    ensures Has2(T.JgeMacros(), T.Takes3(T.REG, T.IMM8_REG, T.ADDR), T.Takes1(T.ADDR))
    ensures Has2(T.JgtMacros(), T.Takes3(T.REG, T.IMM8_REG, T.ADDR), T.Takes1(T.ADDR))
  {
  }
}
