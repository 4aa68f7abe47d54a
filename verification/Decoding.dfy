/**
 Bytes back to instructions: reading an encoded program the way `step` fetches it, and
 writing it out as text, as asm2str (common/jdh8util.c) does for the debugger.
 */
module Decoding {
  import opened Words
  import opened Isa
  import opened Source
  import opened Machine

  // ----- back to instructions -----

  /** The operand that follows a first byte, when there are bytes enough. */
  function Follow(pc0: byte, data: seq<byte>): (x: Option<Arg8>)
    requires data != []
  {
    if |data| < 2 then None
    else Some(if Bit(pc0, 3) then Rg(RegOf(data[1] % 8)) else Imm(data[1]))
  }

  function Within(pc0: byte, data: seq<byte>): (x: Option<Arg8>)
    requires data != []
  {
    if Bit(pc0, 3) then Some(Rg(RegOf(pc0 % 8)))
    else if |data| < 2 then None
    else Some(Imm(data[1]))
  }

  function Place(pc0: byte, data: seq<byte>): (x: Option<Arg16>)
    requires data != []
  {
    if Bit(pc0, 3) then Some(AtHL)
    else if |data| < 3 then None
    else Some(Abs(Pair(data[2], data[1])))
  }

  /** The instruction at the front of data, field by field as `step` takes it apart. */
  function Decode(data: seq<byte>): Option<Native>
    requires data != []
  {
    var pc0 := data[0];
    var r := RegOf(pc0 % 8);
    var two, one, far := Follow(pc0, data), Within(pc0, data), Place(pc0, data);
    match pc0 / 16
    case 0 => if two.Some? then Some(MW(r, two.value)) else None
    case 1 => if far.Some? then Some(LW(r, far.value)) else None
    case 2 => if far.Some? then Some(SW(far.value, r)) else None
    case 3 => if one.Some? then Some(PUSH(one.value)) else None
    case 4 => Some(POP(r))
    case 5 => if |data| < 3 then None else Some(LDA(Pair(data[2], data[1])))
    case 6 => if one.Some? then Some(JNZ(one.value)) else None
    case 7 => if two.Some? then Some(INB(r, two.value)) else None
    case 8 => if two.Some? then Some(OUTB(two.value, r)) else None
    case k => if two.Some? then Some(ALU(AluOpOf(k), r, two.value)) else None
  }

  lemma DecodeTwo(k: nat, r: Reg, x: Arg8, rest: seq<byte>)
    requires k < 16
    ensures var data := Two(k, r, x) + rest;
      data[0] / 16 == k && RegOf(data[0] % 8) == r && Follow(data[0], data) == Some(x)
  {
    hide First, Bit, RegOf;
    TwoFacts(k, r, x);
    RegCode(r);
    if x.Rg? {
      FirstByte(k, true, r.Code());
      RegCode(x.r);
    } else {
      FirstByte(k, false, r.Code());
    }
  }

  lemma DecodeOne(k: nat, y: bool, r: Reg)
    requires k < 16
    ensures First(k, y, r.Code()) / 16 == k && RegOf(First(k, y, r.Code()) % 8) == r && Bit(First(k, y, r.Code()), 3) == y
  {
    hide First, Bit, RegOf;
    RegCode(r);
    FirstByte(k, y, r.Code());
  }

  /** Encoding and then decoding gives the instruction back, whatever comes behind it. */
  lemma DecodeEncode(i: Native, rest: seq<byte>)
    ensures Decode(Encode(i) + rest) == Some(i)
  {
    hide First, Bit, RegOf, Two, Follow;
    match i
    case LW(r, Abs(w)) => DecodeOne(1, false, r); PairOf(w);
    case LW(r, AtHL) => DecodeOne(1, true, r);
    case SW(Abs(w), r) => DecodeOne(2, false, r); PairOf(w);
    case SW(AtHL, r) => DecodeOne(2, true, r);
    case PUSH(Imm(v)) => FirstByte(3, false, 0);
    case PUSH(Rg(q)) => DecodeOne(3, true, q);
    case POP(r) => DecodeOne(4, true, r);
    case LDA(w) => FirstByte(5, false, 0); PairOf(w);
    case JNZ(Imm(v)) => FirstByte(6, false, 0);
    case JNZ(Rg(q)) => DecodeOne(6, true, q);
    case MW(r, x) => DecodeTwo(0, r, x, rest);
    case INB(r, x) => DecodeTwo(7, r, x, rest);
    case OUTB(x, r) => DecodeTwo(8, r, x, rest);
    case ALU(op, r, x) => DecodeTwo(Opcode(i), r, x, rest);
  }

  /** `step` does to every state what SPEC.txt says of the instruction that the bytes at pc decode to. */
  lemma StepDecodes(s: State)
    requires !Halted(s) && s.pc + 3 <= ADDR_MB
    ensures var i := Decode([Peek(s, s.pc), Peek(s, s.pc + 1), Peek(s, s.pc + 2)]);
      i.Some? && Step(s) == Exec(i.value, s.(pc := s.pc + Size(i.value)))
  {
    hide Peek, Fetch, Poke, Alu, Bit, Halted, RegOf, AluOpOf, Hi, Lo, Pair, Regs.Set, Regs.Get, In, Out;
    assert s == s.(pc := s.pc);
    FetchAt(s, s.pc);
    FetchAt(s, s.pc + 1);
    FetchAt(s, s.pc + 2);
    PairParts(Peek(s, s.pc + 2), Peek(s, s.pc + 1));
  }

  lemma PairParts(x: byte, y: byte)
    ensures Hi(Pair(x, y)) == x && Lo(Pair(x, y)) == y
  {
  }

  function EncodeAll(program: seq<Native>): seq<byte> {
    if program == [] then [] else Encode(program[0]) + EncodeAll(program[1..])
  }

  /** Instruction after instruction, each as long as its own encoding. */
  function DecodeAll(data: seq<byte>): Option<seq<Native>>
    decreases |data|
  {
    if data == [] then Some([])
    else
      var i := Decode(data);
      if i.None? || Size(i.value) > |data| then None
      else
        var more := DecodeAll(data[Size(i.value)..]);
        if more.None? then None else Some([i.value] + more.value)
  }

  /** A whole program comes back from its bytes, with the same boundaries. */
  lemma {:induction false} ProgramComesBack(program: seq<Native>)
    ensures DecodeAll(EncodeAll(program)) == Some(program)
  {
    hide Decode, Encode, Size;
    if program != [] {
      var i, rest := program[0], EncodeAll(program[1..]);
      ProgramComesBack(program[1..]);
      DecodeEncode(i, rest);
      assert (Encode(i) + rest)[Size(i)..] == rest;
      assert program == [i] + program[1..];
    }
  }

  /** No encoding begins another one: where an instruction ends is never in doubt. */
  lemma NoPrefix(i: Native, j: Native, data: seq<byte>)
    requires Encode(i) <= data && Encode(j) <= data
    ensures i == j
  {
    hide Decode, Encode, Size;
    assert data == Encode(i) + data[|Encode(i)|..] && data == Encode(j) + data[|Encode(j)|..];
    DecodeEncode(i, data[|Encode(i)|..]);
    DecodeEncode(j, data[|Encode(j)|..]);
  }

  // ----- as text -----

  function Mnemonic(k: nat): (s: string)
    requires k < 16
    ensures 2 <= |s| <= 4
  {
    match k
    case 0 => "MW" case 1 => "LW" case 2 => "SW" case 3 => "PUSH" case 4 => "POP" case 5 => "LDA" case 6 => "JNZ"
    case 7 => "INB" case 8 => "OUTB" case 9 => "ADD" case 10 => "ADC" case 11 => "AND" case 12 => "OR"
    case 13 => "NOR" case 14 => "CMP" case _ => "SBB"
  }

  function RegName(k: nat): (s: string)
    requires k < 8
    ensures |s| == 1
  {
    match k
    case 0 => "A" case 1 => "B" case 2 => "C" case 3 => "D" case 4 => "L" case 5 => "H" case 6 => "Z" case _ => "F"
  }

  function Digit(n: nat): char
    requires n < 16
  {
    "0123456789abcdef"[n]
  }

  /** 0x%02x */
  function Hex8(v: byte): (s: string)
    ensures |s| == 4
  {
    "0x" + [Digit(v / 16), Digit(v % 16)]
  }

  /** 0x%04x */
  function Hex16(w: word): (s: string)
    ensures |s| == 6
  {
    Hex8(Hi(w)) + [Digit(Lo(w) / 16), Digit(Lo(w) % 16)]
  }

  function Show8(x: Arg8): (s: string)
    ensures |s| == if x.Imm? then 4 else 1
  {
    match x
    case Imm(v) => Hex8(v)
    case Rg(r) => RegName(r.Code())
  }

  /** How an instruction reads: the mnemonic, then the operands; HL as a place is left out. */
  function Text(i: Native): string {
    var start := Mnemonic(Opcode(i)) + " ";
    match i
    case MW(r, x) => start + RegName(r.Code()) + ", " + Show8(x)
    case INB(r, x) => start + RegName(r.Code()) + ", " + Show8(x)
    case ALU(_, r, x) => start + RegName(r.Code()) + ", " + Show8(x)
    case LW(r, AtHL) => start + RegName(r.Code())
    case LW(r, Abs(w)) => start + RegName(r.Code()) + ", " + Hex16(w)
    case SW(AtHL, r) => start + RegName(r.Code())
    case SW(Abs(w), r) => start + Hex16(w) + ", " + RegName(r.Code())
    case PUSH(x) => start + Show8(x)
    case JNZ(x) => start + Show8(x)
    case POP(r) => start + RegName(r.Code())
    case LDA(w) => start + Hex16(w)
    case OUTB(x, r) => start + Show8(x) + ", " + RegName(r.Code())
  }

  /** -1, a look past the end of the table of register names, or 0. */
  datatype Ending = Failed | Undefined | Done

  const ILLEGAL := "ILLEGAL INSTRUCTION"

  /** POP without its register bit has no meaning. */
  predicate Illegal(data: seq<byte>)
    requires data != []
  {
    data[0] / 16 == 4 && !Bit(data[0], 3)
  }

  /** A register operand outside the table: OUTB alone cuts it down to three bits. */
  predicate Wild(data: seq<byte>)
    requires data != []
  {
    |data| > 1 && Bit(data[0], 3) && data[1] >= 8 && (data[0] / 16 in {0, 7} || data[0] / 16 >= 9)
  }

  /** An instruction of more than one byte is only looked at when there is one more byte behind it. */
  predicate Legible(data: seq<byte>)
    requires data != []
  {
    var i := Decode(data);
    i.Some? && (Size(i.value) == 1 || |data| > Size(i.value)) && !Wild(data)
  }

  function Reading(data: seq<byte>): string
    requires data != [] && Legible(data)
  {
    if Illegal(data) then ILLEGAL else Text(Decode(data).value)
  }

  /** __asm2str_append: the text and one more character must fit. */
  method Append(dst: array<char>, p: nat, s: string) returns (ok: bool, q: nat)
    requires p <= dst.Length
    modifies dst
    ensures ok <==> p + |s| < dst.Length
    ensures ok ==> q == p + |s| && dst[..q] == old(dst[..p]) + s
  {
    q := p;
    if p + |s| >= dst.Length {
      return false, q;
    }
    forall k | 0 <= k < |s| {
      dst[p + k] := s[k];
    }
    return true, p + |s|;
  }

  method AppendTwo(dst: array<char>, p: nat, s: string, t: string) returns (ok: bool, q: nat)
    requires p <= dst.Length
    modifies dst
    ensures ok <==> p + |s| + |t| < dst.Length
    ensures ok ==> q == p + |s| + |t| && dst[..q] == old(dst[..p]) + s + t
  {
    ok, q := Append(dst, p, s);
    if ok {
      ok, q := Append(dst, q, t);
    }
  }

  lemma CodeOfReg(k: nat)
    requires k < 8
    ensures RegOf(k).Code() == k
  {
  }

  /** What the bytes read as, opcode by opcode. */
  lemma ReadsRegisterFirst(data: seq<byte>)
    requires data != [] && (data[0] / 16 in {0, 7} || data[0] / 16 >= 9)
    ensures Legible(data) <==> |data| > 2 && !Wild(data)
    ensures Legible(data) ==>
      Reading(data) == Mnemonic(data[0] / 16) + " " + RegName(data[0] % 8) + ", " + Show8(Follow(data[0], data).value)
  {
    hide Bit, RegOf, Mnemonic, RegName, Show8;
    CodeOfReg(data[0] % 8);
  }

  lemma ReadsMemory(data: seq<byte>)
    requires data != [] && data[0] / 16 in {1, 2}
    ensures Legible(data) <==> Bit(data[0], 3) || |data| > 3
    ensures Bit(data[0], 3) ==> Reading(data) == Mnemonic(data[0] / 16) + " " + RegName(data[0] % 8)
    ensures !Bit(data[0], 3) && |data| > 3 && data[0] / 16 == 1 ==>
      Reading(data) == Mnemonic(1) + " " + RegName(data[0] % 8) + ", " + Hex16(Pair(data[2], data[1]))
    ensures !Bit(data[0], 3) && |data| > 3 && data[0] / 16 == 2 ==>
      Reading(data) == Mnemonic(2) + " " + Hex16(Pair(data[2], data[1])) + ", " + RegName(data[0] % 8)
  {
    hide Bit, RegOf, Mnemonic, RegName, Hex16;
    CodeOfReg(data[0] % 8);
  }

  lemma ReadsSingle(data: seq<byte>)
    requires data != [] && data[0] / 16 in {3, 6}
    ensures Legible(data) <==> Bit(data[0], 3) || |data| > 2
    ensures Legible(data) ==> Reading(data) == Mnemonic(data[0] / 16) + " " + Show8(Within(data[0], data).value)
  {
    hide Bit, RegOf, Mnemonic, Show8;
  }

  lemma ReadsPop(data: seq<byte>)
    requires data != [] && data[0] / 16 == 4
    ensures Legible(data)
    ensures Reading(data) == if Bit(data[0], 3) then Mnemonic(4) + " " + RegName(data[0] % 8) else ILLEGAL
  {
    hide Bit, RegOf, Mnemonic, RegName;
    CodeOfReg(data[0] % 8);
  }

  lemma ReadsAddress(data: seq<byte>)
    requires data != [] && data[0] / 16 == 5
    ensures Legible(data) <==> |data| > 3
    ensures Legible(data) ==> Reading(data) == Mnemonic(5) + " " + Hex16(Pair(data[2], data[1]))
  {
    hide Bit, RegOf, Mnemonic, Hex16;
  }

  lemma ReadsPort(data: seq<byte>)
    requires data != [] && data[0] / 16 == 8
    ensures Legible(data) <==> |data| > 2
    ensures Legible(data) ==>
      Reading(data) == Mnemonic(8) + " " + Show8(Follow(data[0], data).value) + ", " + RegName(data[0] % 8)
  {
    hide Bit, RegOf, Mnemonic, RegName, Show8;
    CodeOfReg(data[0] % 8);
  }

  /** Every reading is longer than its mnemonic and the blank. */
  lemma ReadsLong(data: seq<byte>)
    requires data != [] && Legible(data)
    ensures |Reading(data)| > |Mnemonic(data[0] / 16)| + 1
  {
    hide Mnemonic, RegName, Show8, Hex16, Legible, Reading;
    var k := data[0] / 16;
    if k == 0 || k == 7 || k >= 9 {
      ReadsRegisterFirst(data);
    } else if k == 1 || k == 2 {
      ReadsMemory(data);
    } else if k == 3 || k == 6 {
      ReadsSingle(data);
    } else if k == 4 {
      ReadsPop(data);
    } else if k == 5 {
      ReadsAddress(data);
    } else {
      ReadsPort(data);
    }
  }

  /** The mnemonic and a blank are written. */
  ghost predicate Started(dst: array<char>, p: nat, data: seq<byte>)
    requires data != []
    reads dst
  {
    p <= dst.Length && dst[..p] == Mnemonic(data[0] / 16) + " "
  }

  /** The reading is written if there is one and it fits. */
  ghost predicate Finished(r: Ending, dst: array<char>, q: nat, data: seq<byte>)
    requires data != []
    reads dst
  {
    && (r == Done <==> Legible(data) && |Reading(data)| < dst.Length)
    && (r == Done ==> q == |Reading(data)| && dst[..q] == Reading(data))
    && (r == Undefined ==> Wild(data))
  }

  /** The branch for an operand byte behind a register: MW, INB and the arithmetic. */
  method RegisterFirst(dst: array<char>, p: nat, data: seq<byte>) returns (r: Ending, q: nat)
    requires data != [] && (data[0] / 16 in {0, 7} || data[0] / 16 >= 9) && Started(dst, p, data)
    modifies dst
    ensures Finished(r, dst, q, data)
  {
    hide Bit, RegOf, Mnemonic, RegName, Hex8, Legible, Reading;
    ReadsRegisterFirst(data);
    q := p;
    if |data| <= 2 {
      return Failed, q;
    }
    var ok: bool;
    ok, q := AppendTwo(dst, q, RegName(data[0] % 8), ", ");
    if !ok {
      return Failed, q;
    }
    if Bit(data[0], 3) {
      if data[1] >= 8 {
        return Undefined, q;
      }
      CodeOfReg(data[1]);
      ok, q := Append(dst, q, RegName(data[1]));
    } else {
      ok, q := Append(dst, q, Hex8(data[1]));
    }
    return if ok then Done else Failed, q;
  }

  /** The branch for OUTB. */
  method PortFirst(dst: array<char>, p: nat, data: seq<byte>) returns (r: Ending, q: nat)
    requires data != [] && data[0] / 16 == 8 && Started(dst, p, data)
    modifies dst
    ensures Finished(r, dst, q, data)
  {
    hide Bit, RegOf, Mnemonic, RegName, Hex8, Legible, Reading;
    ReadsPort(data);
    q := p;
    if |data| <= 2 {
      return Failed, q;
    }
    var ok: bool;
    if Bit(data[0], 3) {
      CodeOfReg(data[1] % 8);
      ok, q := AppendTwo(dst, q, RegName(data[1] % 8), ", ");
    } else {
      ok, q := AppendTwo(dst, q, Hex8(data[1]), ", ");
    }
    if ok {
      ok, q := Append(dst, q, RegName(data[0] % 8));
    }
    return if ok then Done else Failed, q;
  }

  /** __asm2str_append_addr */
  method AppendAddress(dst: array<char>, p: nat, data: seq<byte>) returns (ok: bool, q: nat)
    requires data != [] && p <= dst.Length
    modifies dst
    ensures ok <==> |data| > 3 && p + 6 < dst.Length
    ensures ok ==> q == p + 6 && dst[..q] == old(dst[..p]) + Hex16(Pair(data[2], data[1]))
  {
    q := p;
    if |data| <= 3 {
      return false, q;
    }
    ok, q := Append(dst, q, Hex16(Pair(data[2], data[1])));
  }

  /** The branch for LW. */
  method Load(dst: array<char>, p: nat, data: seq<byte>) returns (r: Ending, q: nat)
    requires data != [] && data[0] / 16 == 1 && Started(dst, p, data)
    modifies dst
    ensures Finished(r, dst, q, data)
  {
    hide Bit, RegOf, Mnemonic, RegName, Hex16, Legible, Reading;
    ReadsMemory(data);
    var ok: bool;
    ok, q := Append(dst, p, RegName(data[0] % 8));
    if ok && !Bit(data[0], 3) {
      ok, q := Append(dst, q, ", ");
      if ok {
        ok, q := AppendAddress(dst, q, data);
      }
    }
    return if ok then Done else Failed, q;
  }

  /** The branch for SW. */
  method Store(dst: array<char>, p: nat, data: seq<byte>) returns (r: Ending, q: nat)
    requires data != [] && data[0] / 16 == 2 && Started(dst, p, data)
    modifies dst
    ensures Finished(r, dst, q, data)
  {
    hide Bit, RegOf, Mnemonic, RegName, Hex16, Legible, Reading;
    ReadsMemory(data);
    var ok := true;
    q := p;
    if !Bit(data[0], 3) {
      ok, q := AppendAddress(dst, q, data);
      if ok {
        ok, q := Append(dst, q, ", ");
      }
    }
    if ok {
      ok, q := Append(dst, q, RegName(data[0] % 8));
    }
    return if ok then Done else Failed, q;
  }

  /** The branch for PUSH and JNZ. */
  method Single(dst: array<char>, p: nat, data: seq<byte>) returns (r: Ending, q: nat)
    requires data != [] && data[0] / 16 in {3, 6} && Started(dst, p, data)
    modifies dst
    ensures Finished(r, dst, q, data)
  {
    hide Bit, RegOf, Mnemonic, RegName, Hex8, Legible, Reading;
    ReadsSingle(data);
    q := p;
    var ok: bool;
    if Bit(data[0], 3) {
      CodeOfReg(data[0] % 8);
      ok, q := Append(dst, q, RegName(data[0] % 8));
    } else if |data| <= 2 {
      ok := false;
    } else {
      ok, q := Append(dst, q, Hex8(data[1]));
    }
    return if ok then Done else Failed, q;
  }

  /** The branch for POP: without the register bit, the text starts again. */
  method PopBranch(dst: array<char>, p: nat, data: seq<byte>) returns (r: Ending, q: nat)
    requires data != [] && data[0] / 16 == 4 && Started(dst, p, data)
    modifies dst
    ensures Finished(r, dst, q, data)
  {
    hide Bit, RegOf, Mnemonic, RegName, Legible, Reading;
    ReadsPop(data);
    var ok: bool;
    if Bit(data[0], 3) {
      ok, q := Append(dst, p, RegName(data[0] % 8));
    } else {
      ok, q := Append(dst, 0, ILLEGAL);
    }
    return if ok then Done else Failed, q;
  }

  /** The branch for LDA. */
  method AddressOnly(dst: array<char>, p: nat, data: seq<byte>) returns (r: Ending, q: nat)
    requires data != [] && data[0] / 16 == 5 && Started(dst, p, data)
    modifies dst
    ensures Finished(r, dst, q, data)
  {
    hide Mnemonic, Hex16, Legible, Reading;
    ReadsAddress(data);
    var ok: bool;
    ok, q := AppendAddress(dst, p, data);
    return if ok then Done else Failed, q;
  }

  /**
   asm2str: 0 with the text and its terminator in dst exactly when the bytes are legible and
   the text fits with the terminator behind it.
   */
  method Asm2Str(dst: array<char>, data: seq<byte>) returns (r: Ending)
    requires data != []
    modifies dst
    ensures r == Done <==> Legible(data) && |Reading(data)| < dst.Length
    ensures r == Done ==> var t := Reading(data); dst[..|t|] == t && dst[|t|] == '\0'
    ensures r == Undefined ==> Wild(data)
  {
    hide Mnemonic, Legible, Reading, Wild;
    if dst.Length < 1 {
      return Failed;
    }
    var k := data[0] / 16;
    var ok, p := AppendTwo(dst, 0, Mnemonic(k), " ");
    if !ok {
      if Legible(data) { ReadsLong(data); }
      return Failed;
    }
    if k == 0 || k == 7 || k >= 9 {
      r, p := RegisterFirst(dst, p, data);
    } else if k == 1 {
      r, p := Load(dst, p, data);
    } else if k == 2 {
      r, p := Store(dst, p, data);
    } else if k == 3 || k == 6 {
      r, p := Single(dst, p, data);
    } else if k == 4 {
      r, p := PopBranch(dst, p, data);
    } else if k == 5 {
      r, p := AddressOnly(dst, p, data);
    } else {
      r, p := PortFirst(dst, p, data);
    }
    if r == Done {
      dst[p] := '\0';
    }
  }

  // ----- listings -----

  /** With a byte behind it, or being a single byte, an encoded instruction reads as itself. */
  lemma ReadsItself(i: Native, rest: seq<byte>)
    requires rest != [] || Size(i) == 1
    ensures var data := Encode(i) + rest; Legible(data) && Reading(data) == Text(i)
  {
    hide First, Bit, RegOf, Two, Text;
    DecodeEncode(i, rest);
    var data := Encode(i) + rest;
    match i
    case POP(r) => DecodeOne(4, true, r);
    case MW(r, x) => TwoTame(0, r, x, rest);
    case INB(r, x) => TwoTame(7, r, x, rest);
    case ALU(op, r, x) => TwoTame(Opcode(i), r, x, rest);
    case LW(r, Abs(w)) => DecodeOne(1, false, r);
    case LW(r, AtHL) => DecodeOne(1, true, r);
    case SW(Abs(w), r) => DecodeOne(2, false, r);
    case SW(AtHL, r) => DecodeOne(2, true, r);
    case PUSH(Imm(v)) => FirstByte(3, false, 0);
    case PUSH(Rg(q)) => DecodeOne(3, true, q);
    case LDA(w) => FirstByte(5, false, 0);
    case JNZ(Imm(v)) => FirstByte(6, false, 0);
    case JNZ(Rg(q)) => DecodeOne(6, true, q);
    case OUTB(x, r) => DecodeTwo(8, r, x, rest);
  }

  lemma TwoTame(k: nat, r: Reg, x: Arg8, rest: seq<byte>)
    requires k < 16
    ensures !Wild(Two(k, r, x) + rest) && (Two(k, r, x) + rest)[0] / 16 == k
  {
    hide First, Bit, RegOf, Follow;
    DecodeTwo(k, r, x, rest);
    match x
    case Imm(_) => FirstByte(k, false, r.Code());
    case Rg(q) =>
  }

  /** The last instruction of the bytes is read only if it is a single byte. */
  lemma NeedsOneMore(i: Native)
    ensures Legible(Encode(i)) <==> Size(i) == 1
  {
    hide Legible, Reading, Text, Decode, Encode;
    assert Encode(i) + [] == Encode(i);
    DecodeEncode(i, []);
    if Size(i) == 1 {
      ReadsItself(i, []);
    } else {
      Unread(Encode(i), i);
    }
  }

  lemma Unread(data: seq<byte>, i: Native)
    requires data != [] && Decode(data) == Some(i) && Size(i) > 1 && |data| == Size(i)
    ensures !Legible(data)
  {
    hide Decode, Wild;
  }

  /** At every instruction boundary of a program with something behind it, its own instruction is read. */
  lemma {:induction false} ListedAt(program: seq<Native>, k: nat, rest: seq<byte>)
    requires k < |program| && rest != []
    ensures |EncodeAll(program[..k])| < |EncodeAll(program) + rest|
    ensures var data := (EncodeAll(program) + rest)[|EncodeAll(program[..k])|..];
      Legible(data) && Reading(data) == Text(program[k])
    decreases k
  {
    hide Legible, Reading, Text, Encode;
    var i, more := program[0], EncodeAll(program[1..]);
    if k == 0 {
      assert EncodeAll(program) + rest == Encode(i) + (more + rest);
      ReadsItself(i, more + rest);
    } else {
      assert program[..k][1..] == program[1..][..k - 1];
      assert (EncodeAll(program) + rest)[|Encode(i)|..] == more + rest;
      ListedAt(program[1..], k - 1, rest);
      var n := |EncodeAll(program[1..][..k - 1])|;
      assert (EncodeAll(program) + rest)[|Encode(i)| + n..] == (more + rest)[n..];
    }
  }

  // ----- different instructions read differently -----

  lemma DigitTells(m: nat, n: nat)
    requires m < 16 && n < 16 && Digit(m) == Digit(n)
    ensures m == n
  {
  }

  lemma Hex8Tells(v: byte, w: byte)
    requires Hex8(v) == Hex8(w)
    ensures v == w
  {
    hide Digit;
    assert Hex8(v)[2] == Digit(v / 16) && Hex8(v)[3] == Digit(v % 16);
    assert Hex8(w)[2] == Digit(w / 16) && Hex8(w)[3] == Digit(w % 16);
    DigitTells(v / 16, w / 16);
    DigitTells(v % 16, w % 16);
  }

  lemma Hex16Tells(v: word, w: word)
    requires Hex16(v) == Hex16(w)
    ensures v == w
  {
    hide Digit, Hex8;
    assert Hex16(v)[..4] == Hex8(Hi(v)) && Hex16(w)[..4] == Hex8(Hi(w));
    Hex8Tells(Hi(v), Hi(w));
    assert Hex16(v)[4] == Digit(Lo(v) / 16) && Hex16(v)[5] == Digit(Lo(v) % 16);
    assert Hex16(w)[4] == Digit(Lo(w) / 16) && Hex16(w)[5] == Digit(Lo(w) % 16);
    DigitTells(Lo(v) / 16, Lo(w) / 16);
    DigitTells(Lo(v) % 16, Lo(w) % 16);
  }

  lemma RegTells(r: Reg, q: Reg)
    requires RegName(r.Code()) == RegName(q.Code())
    ensures r == q
  {
    hide Mnemonic;
    assert RegName(r.Code())[0] == RegName(q.Code())[0];
  }

  lemma Show8Tells(x: Arg8, y: Arg8)
    requires Show8(x) == Show8(y)
    ensures x == y
  {
    hide Hex8, RegName;
    match (x, y)
    case (Imm(v), Imm(w)) => Hex8Tells(v, w);
    case (Rg(r), Rg(q)) => RegTells(r, q);
    case _ =>
  }

  /** No mnemonic has a blank in it, and no two are the same. */
  lemma NoBlank(k: nat, n: nat)
    requires k < 16 && n < |Mnemonic(k)|
    ensures Mnemonic(k)[n] != ' '
  {
  }

  lemma MnemonicTells(k: nat, m: nat)
    requires k < 16 && m < 16 && Mnemonic(k) == Mnemonic(m)
    ensures k == m
  {
    assert Mnemonic(k)[0] == Mnemonic(m)[0] && Mnemonic(k)[1] == Mnemonic(m)[1];
    if |Mnemonic(k)| > 2 {
      assert Mnemonic(k)[2] == Mnemonic(m)[2];
    }
  }

  /** What stands before the first blank. */
  lemma FirstWord(k: nat, m: nat, s: string, t: string)
    requires k < 16 && m < 16 && Mnemonic(k) + " " + s == Mnemonic(m) + " " + t
    ensures k == m && s == t
  {
    hide Mnemonic;
    var x, y := Mnemonic(k), Mnemonic(m);
    assert (x + " " + s)[|x|] == ' ' && (y + " " + t)[|y|] == ' ';
    if |x| < |y| {
      NoBlank(m, |x|);
    } else if |y| < |x| {
      NoBlank(k, |y|);
    }
    assert (x + " " + s)[..|x|] == x && (y + " " + t)[..|y|] == y;
    MnemonicTells(k, m);
    assert (x + " " + s)[|x| + 1..] == s && (y + " " + t)[|y| + 1..] == t;
  }

  /** The operands, as they are written behind the mnemonic. */
  function Operands(i: Native): string {
    match i
    case MW(r, x) => RegName(r.Code()) + (", " + Show8(x))
    case INB(r, x) => RegName(r.Code()) + (", " + Show8(x))
    case ALU(_, r, x) => RegName(r.Code()) + (", " + Show8(x))
    case LW(r, AtHL) => RegName(r.Code())
    case LW(r, Abs(w)) => RegName(r.Code()) + (", " + Hex16(w))
    case SW(AtHL, r) => RegName(r.Code())
    case SW(Abs(w), r) => Hex16(w) + (", " + RegName(r.Code()))
    case PUSH(x) => Show8(x)
    case JNZ(x) => Show8(x)
    case POP(r) => RegName(r.Code())
    case LDA(w) => Hex16(w)
    case OUTB(x, r) => Show8(x) + (", " + RegName(r.Code()))
  }

  lemma Regroup(a: string, b: string, c: string, d: string)
    ensures a + b + c + d == a + (b + (c + d))
  {
  }

  lemma TextSplits(i: Native)
    ensures Text(i) == Mnemonic(Opcode(i)) + " " + Operands(i)
  {
    hide Mnemonic, RegName, Show8, Hex16;
    var start := Mnemonic(Opcode(i)) + " ";
    match i
    case MW(r, x) => Regroup(start, RegName(r.Code()), ", ", Show8(x));
    case INB(r, x) => Regroup(start, RegName(r.Code()), ", ", Show8(x));
    case ALU(_, r, x) => Regroup(start, RegName(r.Code()), ", ", Show8(x));
    case LW(r, Abs(w)) => Regroup(start, RegName(r.Code()), ", ", Hex16(w));
    case SW(Abs(w), r) => Regroup(start, Hex16(w), ", ", RegName(r.Code()));
    case OUTB(x, r) => Regroup(start, Show8(x), ", ", RegName(r.Code()));
    case _ =>
  }

  /** Two texts of the same length in front of two others. */
  lemma SplitEqual(a: string, b: string, c: string, d: string)
    requires a + b == c + d && |a| == |c|
    ensures a == c && b == d
  {
    assert (a + b)[..|a|] == a && (a + b)[|a|..] == b && (c + d)[..|c|] == c && (c + d)[|c|..] == d;
  }

  lemma RegisterFirstTells(r: Reg, x: Arg8, q: Reg, y: Arg8)
    requires RegName(r.Code()) + (", " + Show8(x)) == RegName(q.Code()) + (", " + Show8(y))
    ensures r == q && x == y
  {
    hide RegName, Show8;
    SplitEqual(RegName(r.Code()), ", " + Show8(x), RegName(q.Code()), ", " + Show8(y));
    SplitEqual(", ", Show8(x), ", ", Show8(y));
    RegTells(r, q);
    Show8Tells(x, y);
  }

  lemma RegisterLastTells(r: Reg, x: Arg8, q: Reg, y: Arg8)
    requires Show8(x) + (", " + RegName(r.Code())) == Show8(y) + (", " + RegName(q.Code()))
    ensures r == q && x == y
  {
    hide RegName, Show8;
    assert |Show8(x)| == |Show8(y)|;
    SplitEqual(Show8(x), ", " + RegName(r.Code()), Show8(y), ", " + RegName(q.Code()));
    SplitEqual(", ", RegName(r.Code()), ", ", RegName(q.Code()));
    RegTells(r, q);
    Show8Tells(x, y);
  }

  lemma PlacesTell(r: Reg, v: word, q: Reg, w: word)
    ensures RegName(r.Code()) + (", " + Hex16(v)) == RegName(q.Code()) + (", " + Hex16(w)) ==> r == q && v == w
    ensures Hex16(v) + (", " + RegName(r.Code())) == Hex16(w) + (", " + RegName(q.Code())) ==> r == q && v == w
  {
    hide RegName, Hex16;
    var a, b, c, d := RegName(r.Code()), Hex16(v), RegName(q.Code()), Hex16(w);
    if a + (", " + b) == c + (", " + d) {
      SplitEqual(a, ", " + b, c, ", " + d);
      SplitEqual(", ", b, ", ", d);
      RegTells(r, q);
      Hex16Tells(v, w);
    }
    if b + (", " + a) == d + (", " + c) {
      SplitEqual(b, ", " + a, d, ", " + c);
      SplitEqual(", ", a, ", ", c);
      RegTells(r, q);
      Hex16Tells(v, w);
    }
  }

  lemma OperandsTell(i: Native, j: Native)
    requires Opcode(i) == Opcode(j) && Operands(i) == Operands(j)
    ensures i == j
  {
    hide RegName, Show8, Hex16;
    match (i, j)
    case (MW(r, x), MW(q, y)) => RegisterFirstTells(r, x, q, y);
    case (INB(r, x), INB(q, y)) => RegisterFirstTells(r, x, q, y);
    case (ALU(_, r, x), ALU(_, q, y)) => RegisterFirstTells(r, x, q, y);
    case (LW(r, Abs(v)), LW(q, Abs(w))) => PlacesTell(r, v, q, w);
    case (LW(r, AtHL), LW(q, AtHL)) => RegTells(r, q);
    case (SW(Abs(v), r), SW(Abs(w), q)) => PlacesTell(r, v, q, w);
    case (SW(AtHL, r), SW(AtHL, q)) => RegTells(r, q);
    case (PUSH(x), PUSH(y)) => Show8Tells(x, y);
    case (JNZ(x), JNZ(y)) => Show8Tells(x, y);
    case (POP(r), POP(q)) => RegTells(r, q);
    case (LDA(v), LDA(w)) => Hex16Tells(v, w);
    case (OUTB(x, r), OUTB(y, q)) => RegisterLastTells(r, x, q, y);
    case _ =>
  }

  /** No two instructions read the same: the text gives back the opcode and every operand. */
  lemma TextTells(i: Native, j: Native)
    requires Text(i) == Text(j)
    ensures i == j
  {
    hide Text, Mnemonic, Operands;
    TextSplits(i);
    TextSplits(j);
    FirstWord(Opcode(i), Opcode(j), Operands(i), Operands(j));
    OperandsTell(i, j);
  }
}
