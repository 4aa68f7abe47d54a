/**
 The emulator: memory map (common/jdh8.h), ports and the `step` function (emu/libemu.c), and,
 beside it, the meaning SPEC.txt gives to each instruction.
 */
module Machine {
  import opened Words
  import opened Isa

  const ADDR_MB: word := 0xFFFA
  const ADDR_SP: word := 0xFFFC
  const ADDR_PC: word := 0xFFFE

  type Memory = m: seq<byte> | |m| == 0xFFFF witness seq(0xFFFF, _ => 0)
  type Bank = m: seq<byte> | |m| == 0x8000 witness seq(0x8000, _ => 0)

  /** The devices: which ports are taken, an arbitrary source of bytes for INB, a record of OUTB. */
  datatype Ports = Ports(present: set<byte>, send: nat -> byte, received: nat, sent: seq<(byte, byte)>)

  datatype State = State(
    status: byte,
    mb: word, sp: word, pc: word,
    mem: Memory,
    banks: map<word, Bank>,
    g: Regs,
    io: Ports,
    writeProtect: bool)

  // ----- memory -----

  /** The physical byte an address stands for. */
  datatype Cell = Main(offset: nat) | Banked(bank: word, offset: nat) | Special(k: nat) | Absent

  predicate InWindow(addr: word) { 0x8000 <= addr < 0xC000 }

  function CellOf(mb: word, banks: set<word>, addr: word): Cell {
    if addr >= ADDR_MB then Special(addr - ADDR_MB)
    else if mb != 0 && InWindow(addr) then
      if mb in banks then Banked(mb, addr - 0x8000) else Absent
    else Main(addr)
  }

  function Locate(s: State, addr: word): Cell {
    CellOf(s.mb, s.banks.Keys, addr)
  }

  predicate ValidCell(s: State, c: Cell) {
    match c
    case Main(n) => n < 0xFFFF
    case Banked(b, n) => b in s.banks && n < 0x8000
    case Special(k) => k < 6
    case Absent => true
  }

  function Read(s: State, c: Cell): byte
    requires ValidCell(s, c)
  {
    match c
    case Main(n) => s.mem[n]
    case Banked(b, n) => s.banks[b][n]
    case Special(k) => ReadSpecial(s, k)
    case Absent => 0
  }

  function ReadSpecial(s: State, k: nat): byte
    requires k < 6
  {
    match k
    case 0 => Lo(s.mb) case 1 => Hi(s.mb)
    case 2 => Lo(s.sp) case 3 => Hi(s.sp)
    case 4 => Lo(s.pc) case _ => Hi(s.pc)
  }

  function Write(s: State, c: Cell, v: byte): State
    requires ValidCell(s, c)
  {
    match c
    case Main(n) => s.(mem := s.mem[n := v])
    case Banked(b, n) => s.(banks := s.banks[b := s.banks[b][n := v]])
    case Special(k) => WriteSpecial(s, k, v)
    case Absent => s
  }

  function WriteSpecial(s: State, k: nat, v: byte): State
    requires k < 6
  {
    match k
    case 0 => s.(mb := Pair(Hi(s.mb), v)) case 1 => s.(mb := Pair(v, Lo(s.mb)))
    case 2 => s.(sp := Pair(Hi(s.sp), v)) case 3 => s.(sp := Pair(v, Lo(s.sp)))
    case 4 => s.(pc := Pair(Hi(s.pc), v)) case _ => s.(pc := Pair(v, Lo(s.pc)))
  }

  function Peek(s: State, addr: word): byte {
    Read(s, Locate(s, addr))
  }

  /** ROM refuses writes while write protection is on. */
  predicate Refused(s: State, addr: word) {
    s.writeProtect && addr < 0x8000
  }

  function Poke(s: State, addr: word, v: byte): State {
    if Refused(s, addr) then s else Write(s, Locate(s, addr), v)
  }

  // ----- ports -----

  predicate Halted(s: State) { Bit(s.status, 3) }

  function In(s: State, port: byte): (byte, State) {
    if port >= 128 then (0, s)
    else if port == 0 then (s.status, s)
    else if port in s.io.present then (s.io.send(s.io.received), s.(io := s.io.(received := s.io.received + 1)))
    else (0, s)
  }

  function Out(s: State, port: byte, v: byte): State {
    if port >= 128 then s
    else if port == 0 then s.(status := v)
    else if port in s.io.present then s.(io := s.io.(sent := s.io.sent + [(port, v)]))
    else s
  }

  // ----- step, as the emulator fetches and executes -----

  /** peek(state, pc++) */
  function Fetch(s: State): (byte, State) {
    var s' := s.(pc := U16(s.pc + 1));
    (Peek(s', s.pc), s')
  }

  /** The macro IMM8_REG: always one more byte, a register number when bit 3 of pc0 is set. */
  function FetchImm8Reg(s: State, pc0: byte): (byte, State) {
    var (pc1, s') := Fetch(s);
    (if Bit(pc0, 3) then s'.g.Get(RegOf(pc1 % 8)) else pc1, s')
  }

  /** The macro IMM8_PC0_REG: the register is named in pc0 itself. */
  function FetchImm8Pc0Reg(s: State, pc0: byte): (byte, State) {
    if Bit(pc0, 3) then (s.g.Get(RegOf(pc0 % 8)), s) else Fetch(s)
  }

  /** The macro IMM16, low byte first. */
  function FetchImm16(s: State): (word, State) {
    var (lo, s1) := Fetch(s);
    var (hi, s2) := Fetch(s1);
    (Pair(hi, lo), s2)
  }

  function FetchAddress(s: State, pc0: byte): (word, State) {
    if Bit(pc0, 3) then (s.g.HL(), s) else FetchImm16(s)
  }

  function AluOpOf(k: nat): AluOp
    requires 9 <= k < 16
  {
    match k
    case 9 => ADD case 10 => ADC case 11 => AND case 12 => OR case 13 => NOR case 14 => CMP case _ => SBB
  }

  /** The switch of `step`, once the first byte of the instruction is fetched. */
  function Executed(s1: State, pc0: byte): State {
    var r := RegOf(pc0 % 8);
    match pc0 / 16
    case 0 =>
      var (v, s2) := FetchImm8Reg(s1, pc0);
      s2.(g := s2.g.Set(r, v))
    case 1 =>
      var (addr, s2) := FetchAddress(s1, pc0);
      s2.(g := s2.g.Set(r, Peek(s2, addr)))
    case 2 =>
      var (addr, s2) := FetchAddress(s1, pc0);
      Poke(s2, addr, s2.g.Get(r))
    case 3 =>
      var (v, s2) := FetchImm8Pc0Reg(s1, pc0);
      Poke(s2.(sp := U16(s2.sp - 1)), s2.sp, v)
    case 4 =>
      var s2 := s1.(sp := U16(s1.sp + 1));
      s2.(g := s2.g.Set(r, Peek(s2, s2.sp)))
    case 5 =>
      var (w, s2) := FetchImm16(s1);
      s2.(g := s2.g.(l := Lo(w), h := Hi(w)))
    case 6 =>
      var (v, s2) := FetchImm8Pc0Reg(s1, pc0);
      if v != 0 then s2.(pc := s2.g.HL()) else s2
    case 7 =>
      var (port, s2) := FetchImm8Reg(s1, pc0);
      var (v, s3) := In(s2, port);
      s3.(g := s3.g.Set(r, v))
    case 8 =>
      var (port, s2) := FetchImm8Reg(s1, pc0);
      Out(s2, port, s2.g.Get(r))
    case k =>
      var (b, s2) := FetchImm8Reg(s1, pc0);
      s2.(g := Alu(s2.g, AluOpOf(k), r, b))
  }

  function Step(s: State): State {
    if Halted(s) then s
    else
      var (pc0, s1) := Fetch(s);
      Executed(s1, pc0)
  }

  function Run(s: State, n: nat): State
    decreases n
  {
    if n == 0 then s else Run(Step(s), n - 1)
  }

  lemma {:induction false} RunAdd(s: State, m: nat, n: nat)
    ensures Run(s, m + n) == Run(Run(s, m), n)
    decreases m
  {
    hide Step;
    if m != 0 {
      RunAdd(Step(s), m - 1, n);
    }
  }

  // ----- the meaning of an instruction, once pc has moved past it (SPEC.txt, INSTRUCTIONS) -----

  function Exec(i: Native, s: State): State {
    match i
    case MW(r, x) => s.(g := s.g.Set(r, x.Value(s.g)))
    case LW(r, at) => s.(g := s.g.Set(r, Peek(s, at.Value(s.g))))
    case SW(at, r) => Poke(s, at.Value(s.g), s.g.Get(r))
    case PUSH(x) => Poke(s.(sp := U16(s.sp - 1)), s.sp, x.Value(s.g))
    case POP(r) =>
      var s' := s.(sp := U16(s.sp + 1));
      s'.(g := s.g.Set(r, Peek(s', s'.sp)))
    case LDA(w) => s.(g := s.g.(h := Hi(w), l := Lo(w)))
    case JNZ(x) => if x.Value(s.g) != 0 then s.(pc := s.g.HL()) else s
    case INB(r, x) =>
      var (v, s') := In(s, x.Value(s.g));
      s'.(g := s'.g.Set(r, v))
    case OUTB(x, r) => Out(s, x.Value(s.g), s.g.Get(r))
    case ALU(op, r, x) => s.(g := Alu(s.g, op, r, x.Value(s.g)))
  }

  /** The bytes of instruction i lie at addr, below the memory-mapped registers. */
  ghost predicate Holds(s: State, addr: word, i: Native) {
    && addr + Size(i) <= ADDR_MB
    && forall k | 0 <= k < Size(i) :: Peek(s, addr + k) == Encode(i)[k]
  }

  /** Fetching below the memory-mapped registers: the byte at pc does not depend on pc itself. */
  lemma FetchAt(s: State, p: word)
    requires p < ADDR_MB
    ensures Fetch(s.(pc := p)) == (Peek(s, p), s.(pc := p + 1))
  {
  }

  lemma FirstByte(k: nat, y: bool, z: nat)
    requires k < 16 && z < 8
    ensures First(k, y, z) / 16 == k && First(k, y, z) % 8 == z && Bit(First(k, y, z), 3) == y
  {
    var b: int, v: int := First(k, y, z), if y then 1 else 0;
    Divides(b, 16, k, 8 * v + z);
    Divides(b, 8, 2 * k + v, z);
    assert b / 2 == 8 * k + 4 * v + z / 2 && b / 2 / 2 == 4 * k + 2 * v + z / 2 / 2 && b / 2 / 2 / 2 == 2 * k + v;
    assert Bit(b, 3) == Bit(b / 2 / 2 / 2, 0);
  }

  lemma RegCode(r: Reg)
    ensures RegOf(r.Code()) == r && r.Code() % 8 == r.Code()
  {
  }

  /**
   Fetching and executing the bytes of an instruction does what the instruction says: `step`
   on the encoded program is the SPEC.txt meaning of the instruction encoded at pc.
   */
  lemma StepMeetsSpec(s: State, i: Native)
    requires !Halted(s) && Holds(s, s.pc, i)
    ensures Step(s) == Exec(i, s.(pc := s.pc + Size(i)))
  {
    hide Peek, Fetch, Poke, Alu, Bit, Halted, First, RegOf, Pair, Hi, Lo, Regs.Set, Regs.Get, In, Out;
    var e := Encode(i);
    assert Peek(s, s.pc) == e[0] by { assert Peek(s, s.pc + 0) == e[0]; }
    assert s == s.(pc := s.pc);
    FetchAt(s, s.pc);
    if Size(i) > 1 {
      assert Peek(s, s.pc + 1) == e[1];
      FetchAt(s, s.pc + 1);
    }
    if Size(i) > 2 {
      assert Peek(s, s.pc + 2) == e[2];
      FetchAt(s, s.pc + 2);
    }
    match i
    case PUSH(Rg(q)) => FirstByte(3, true, q.Code()); RegCode(q);
    case PUSH(Imm(v)) => FirstByte(3, false, 0);
    case JNZ(Rg(q)) => FirstByte(6, true, q.Code()); RegCode(q);
    case JNZ(Imm(v)) => FirstByte(6, false, 0);
    case LDA(w) => FirstByte(5, false, 0); PairOf(w);
    case POP(r) => FirstByte(4, true, r.Code()); RegCode(r);
    case LW(r, at) => FirstByte(1, at.AtHL?, r.Code()); RegCode(r); if at.Abs? { PairOf(at.w); }
    case SW(at, r) => FirstByte(2, at.AtHL?, r.Code()); RegCode(r); if at.Abs? { PairOf(at.w); }
    case MW(r, x) => TwoFacts(0, r, x);
    case INB(r, x) => TwoFacts(7, r, x);
    case OUTB(x, r) => TwoFacts(8, r, x);
    case ALU(op, r, x) => TwoFacts(Opcode(i), r, x);
  }

  lemma PairOf(w: word)
    ensures Pair(Hi(w), Lo(w)) == w
  {
  }

  lemma TwoFacts(k: nat, r: Reg, x: Arg8)
    requires k < 16
    ensures var e := Two(k, r, x);
      e[0] / 16 == k && RegOf(e[0] % 8) == r && Bit(e[0], 3) == x.Rg? && (if x.Rg? then RegOf(e[1] % 8) == x.r else e[1] == x.v)
  {
    FirstByte(k, x.Rg?, r.Code());
    RegCode(r);
    if x.Rg? { RegCode(x.r); }
  }
}
