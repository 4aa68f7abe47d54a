/**
 The emulator as it is written: a machine whose memory, banks and registers are buffers that
 `step` changes in place (common/jdh8.h, emu/libemu.c). Every method is proved to do what the
 functions of module Machine say.
 */
module Emulator {
  import opened Words
  import opened Isa
  import opened Source
  import opened Machine

  class Jdh8 {
    var status: byte
    var mb: word
    var sp: word
    var pc: word
    const memory: array<byte>
    const banks: map<word, array<byte>>
    const registers: array<byte>
    var io: Ports
    var writeProtect: bool

    /** Buffers of the right size, no two of them the same. */
    ghost predicate Valid() {
      && memory.Length == 0xFFFF && registers.Length == 8 && memory != registers
      && (forall b | b in banks :: banks[b].Length == 0x8000 && banks[b] != memory && banks[b] != registers)
      && (forall b, c | b in banks && c in banks && b != c :: banks[b] != banks[c])
    }

    ghost function Buffers(): set<object> {
      {this, memory, registers} + set b | b in banks :: banks[b]
    }

    ghost function RegsNow(): Regs
      requires Valid()
      reads Buffers()
    {
      Regs(registers[0], registers[1], registers[2], registers[3], registers[4], registers[5], registers[6], registers[7])
    }

    ghost function BanksNow(): map<word, Bank>
      requires Valid()
      reads Buffers()
    {
      map b | b in banks :: banks[b][..]
    }

    /** The state of module Machine that this object stands for. */
    ghost function Now(): State
      requires Valid()
      reads Buffers()
    {
      State(status, mb, sp, pc, memory[..], BanksNow(), RegsNow(), io, writeProtect)
    }

    constructor (memory: array<byte>, banks: map<word, array<byte>>, registers: array<byte>, io: Ports)
      requires memory.Length == 0xFFFF && registers.Length == 8 && memory != registers
      requires forall b | b in banks :: banks[b].Length == 0x8000 && banks[b] != memory && banks[b] != registers
      requires forall b, c | b in banks && c in banks && b != c :: banks[b] != banks[c]
      ensures Valid() && this.memory == memory && this.banks == banks && this.registers == registers
      ensures status == 0 && mb == 0 && sp == 0 && pc == 0 && this.io == io && writeProtect
    {
      this.memory, this.banks, this.registers, this.io := memory, banks, registers, io;
      status, mb, sp, pc, writeProtect := 0, 0, 0, 0, true;
    }

    // ----- memory -----

    method PeekByte(addr: word) returns (v: byte)
      requires Valid()
      ensures v == Peek(Now(), addr)
    {
      if addr >= ADDR_MB {
        var raw := if addr < ADDR_SP then mb else if addr < ADDR_PC then sp else pc;
        return if addr % 2 == 0 then raw % 256 else raw / 256;
      } else if mb != 0 && addr >= 0x8000 && addr < 0xC000 {
        if mb !in banks {
          return 0;
        }
        return banks[mb][addr - 0x8000];
      }
      return memory[addr];
    }

    method PokeByte(addr: word, v: byte)
      requires Valid()
      modifies Buffers()
      ensures Now() == Poke(old(Now()), addr, v)
    {
      if writeProtect && addr < 0x8000 {
        return;
      }
      if addr >= ADDR_MB {
        PokeSpecial(addr, v);
      } else if mb != 0 && addr >= 0x8000 && addr < 0xC000 {
        if mb in banks {
          PokeBank(addr - 0x8000, v);
        }
      } else {
        PokeMain(addr, v);
      }
    }

    method PokeSpecial(addr: word, v: byte)
      requires Valid() && addr >= ADDR_MB
      modifies this`mb, this`sp, this`pc
      ensures Now() == Write(old(Now()), Special(addr - ADDR_MB), v)
    {
      hide Pair, Hi, Lo;
      if addr < ADDR_SP {
        mb := if addr % 2 == 0 then Pair(Hi(mb), v) else Pair(v, Lo(mb));
      } else if addr < ADDR_PC {
        sp := if addr % 2 == 0 then Pair(Hi(sp), v) else Pair(v, Lo(sp));
      } else {
        pc := if addr % 2 == 0 then Pair(Hi(pc), v) else Pair(v, Lo(pc));
      }
      assert BanksNow() == old(BanksNow()) && RegsNow() == old(RegsNow());
    }

    method PokeBank(offset: nat, v: byte)
      requires Valid() && mb in banks && offset < 0x8000
      modifies banks[mb]
      ensures Now() == Write(old(Now()), Banked(mb, offset), v)
    {
      banks[mb][offset] := v;
      assert BanksNow() == old(BanksNow())[mb := old(BanksNow())[mb][offset := v]];
      assert RegsNow() == old(RegsNow());
    }

    method PokeMain(addr: word, v: byte)
      requires Valid() && addr < 0xFFFF
      modifies memory
      ensures Now() == Write(old(Now()), Main(addr), v)
    {
      memory[addr] := v;
      assert BanksNow() == old(BanksNow());
      assert RegsNow() == old(RegsNow());
    }

    method Peek16(addr: word) returns (w: word)
      requires Valid()
      ensures w == Pair(Peek(Now(), U16(addr + 1)), Peek(Now(), addr))
    {
      var lo := PeekByte(addr);
      var hi := PeekByte(U16(addr + 1));
      w := Pair(hi, lo);
    }

    /** The low byte goes first. */
    method Poke16(addr: word, w: word)
      requires Valid()
      modifies Buffers()
      ensures Now() == Poke(Poke(old(Now()), addr, Lo(w)), U16(addr + 1), Hi(w))
    {
      PokeByte(addr, w % 256);
      PokeByte(U16(addr + 1), w / 256 % 256);
    }

    /** emu_memcpy: one store after the other; addresses wrap around. */
    method CopyIn(dest: word, src: seq<byte>)
      requires Valid()
      modifies Buffers()
      ensures Now() == PokeAll(old(Now()), dest, src)
    {
      hide Poke;
      var i := 0;
      while i != |src|
        invariant i <= |src|
        invariant PokeAll(Now(), U16(dest + i), src[i..]) == PokeAll(old(Now()), dest, src)
      {
        PokeFirst(Now(), U16(dest + i), src[i..]);
        assert src[i..][1..] == src[i + 1..];
        PokeByte(U16(dest + i), src[i]);
        i := i + 1;
      }
    }

    /** emu_memset. */
    method FillIn(dest: word, data: byte, n: nat)
      requires Valid()
      modifies Buffers()
      ensures Now() == PokeAll(old(Now()), dest, seq(n, _ => data))
    {
      hide Poke;
      var left: nat, at: word := n, dest;
      while left != 0
        invariant left <= n
        invariant PokeAll(Now(), at, seq(left, _ => data)) == PokeAll(old(Now()), dest, seq(n, _ => data))
      {
        PokeFirst(Now(), at, seq(left, _ => data));
        assert seq(left, _ => data)[1..] == seq(left - 1, _ => data);
        PokeByte(at, data);
        left, at := left - 1, U16(at + 1);
      }
    }

    /** load, once the file is read: write protection is off while the bytes are stored. */
    method Load(bytes: seq<byte>, addr: word)
      requires Valid()
      modifies Buffers()
      ensures Now() == PokeAll(old(Now()).(writeProtect := false), addr, bytes).(writeProtect := old(writeProtect))
    {
      var wp := writeProtect;
      writeProtect := false;
      assert Now() == old(Now()).(writeProtect := false) by {
        assert BanksNow() == old(BanksNow()) && RegsNow() == old(RegsNow());
      }
      CopyIn(addr, bytes);
      label Copied:
      writeProtect := wp;
      assert BanksNow() == old@Copied(BanksNow()) && RegsNow() == old@Copied(RegsNow());
    }

    // ----- registers and ports -----

    method GetRegister(k: nat) returns (v: byte)
      requires Valid() && k < 8
      ensures v == Now().g.Get(RegOf(k))
    {
      v := registers[k];
    }

    method SetRegister(k: nat, v: byte)
      requires Valid() && k < 8
      modifies registers
      ensures Now() == old(Now()).(g := old(Now()).g.Set(RegOf(k), v))
    {
      registers[k] := v;
      assert BanksNow() == old(BanksNow());
    }

    method Inb(port: byte) returns (v: byte)
      requires Valid()
      modifies this`io
      ensures v == In(old(Now()), port).0 && Now() == In(old(Now()), port).1
    {
      if port >= 128 {
        return 0;
      }
      if port == 0 {
        return status;
      }
      if port in io.present {
        v := io.send(io.received);
        io := io.(received := io.received + 1);
        return;
      }
      return 0;
    }

    method Outb(port: byte, data: byte)
      requires Valid()
      modifies this`status, this`io
      ensures Now() == Out(old(Now()), port, data)
    {
      if port >= 128 {
        return;
      }
      if port == 0 {
        status := data;
      } else if port in io.present {
        io := io.(sent := io.sent + [(port, data)]);
      }
    }

    // ----- step -----

    /** peek(state, pc++) */
    method FetchByte() returns (v: byte)
      requires Valid()
      modifies this`pc
      ensures v == Fetch(old(Now())).0 && Now() == Fetch(old(Now())).1
    {
      hide Peek;
      var at := pc;
      pc := U16(pc + 1);
      assert Now() == old(Now()).(pc := U16(old(Now()).pc + 1)) by {
        assert BanksNow() == old(BanksNow()) && RegsNow() == old(RegsNow());
      }
      ghost var now := Now();
      v := PeekByte(at);
      assert Now() == now && v == Peek(now, at);
    }

    method Imm8Reg(pc0: byte) returns (v: byte)
      requires Valid()
      modifies this`pc
      ensures v == FetchImm8Reg(old(Now()), pc0).0 && Now() == FetchImm8Reg(old(Now()), pc0).1
    {
      hide Fetch, Bit, RegOf;
      var pc1 := FetchByte();
      if Bit(pc0, 3) {
        v := GetRegister(pc1 % 8);
      } else {
        v := pc1;
      }
    }

    method Imm8Pc0Reg(pc0: byte) returns (v: byte)
      requires Valid()
      modifies this`pc
      ensures v == FetchImm8Pc0Reg(old(Now()), pc0).0 && Now() == FetchImm8Pc0Reg(old(Now()), pc0).1
    {
      hide Fetch, Bit, RegOf;
      if Bit(pc0, 3) {
        v := GetRegister(pc0 % 8);
      } else {
        v := FetchByte();
      }
    }

    method Imm16() returns (w: word)
      requires Valid()
      modifies this`pc
      ensures w == FetchImm16(old(Now())).0 && Now() == FetchImm16(old(Now())).1
    {
      hide Fetch;
      var lo := FetchByte();
      var hi := FetchByte();
      w := Pair(hi, lo);
    }

    /** registers.hl, or the two bytes that follow. */
    method Address(pc0: byte) returns (w: word)
      requires Valid()
      modifies this`pc
      ensures w == FetchAddress(old(Now()), pc0).0 && Now() == FetchAddress(old(Now()), pc0).1
    {
      hide Fetch, FetchImm16, Bit;
      if Bit(pc0, 3) {
        w := Pair(registers[5], registers[4]);
      } else {
        w := Imm16();
      }
    }

    method SetHL(w: word)
      requires Valid()
      modifies registers
      ensures Now() == old(Now()).(g := old(Now()).g.(l := Lo(w), h := Hi(w)))
    {
      registers[4] := w % 256;
      registers[5] := w / 256;
      assert BanksNow() == old(BanksNow());
    }

    method SetSp(w: word)
      requires Valid()
      modifies this`sp
      ensures Now() == old(Now()).(sp := w) && sp == w
    {
      sp := w;
      assert BanksNow() == old(BanksNow()) && RegsNow() == old(RegsNow());
    }

    method SetPc(w: word)
      requires Valid()
      modifies this`pc
      ensures Now() == old(Now()).(pc := w)
    {
      pc := w;
      assert BanksNow() == old(BanksNow()) && RegsNow() == old(RegsNow());
    }

    /** The result of an arithmetic instruction, by the switch on the instruction. */
    method Result(ins: nat, a: byte, b: byte) returns (r: byte)
      requires Valid() && 9 <= ins < 16
      ensures r == AluResult(AluOpOf(ins), a, b, Now().g.f)
    {
      hide And, Or, Bit;
      var f := registers[7];
      if ins == 14 {
        r := a;
      } else if ins == 11 {
        r := And(a, b);
      } else if ins == 12 {
        r := Or(a, b);
      } else if ins == 13 {
        r := 255 - Or(a, b);
      } else if ins == 15 {
        r := U8(a - b - if Bit(f, 3) then 1 else 0);
      } else {
        r := U8(a + b + if ins == 10 && Bit(f, 2) then 1 else 0);
      }
    }

    /** The result goes to the register, and the flags with it where they are loaded. */
    method Arithmetic(ins: nat, k: nat, b: byte)
      requires Valid() && 9 <= ins < 16 && k < 8
      modifies registers
      ensures Now() == old(Now()).(g := Alu(old(Now()).g, AluOpOf(ins), RegOf(k), b))
    {
      hide AluResult, RegOf, Regs.Get, Regs.Set, Flags;
      var a := GetRegister(k);
      var r := Result(ins, a, b);
      SetRegister(k, r);
      if ins == 9 || ins == 10 || ins == 15 || ins == 14 {
        SetRegister(7, Flags(a, b));
        assert RegOf(7) == F by { LastRegister(); }
      }
    }

    /** MW, LW and SW. */
    method Move(pc0: byte)
      requires Valid() && pc0 / 16 < 3
      modifies Buffers()
      ensures Now() == Executed(old(Now()), pc0)
    {
      hide Peek, Poke, Bit, RegOf, Regs.Get, Regs.Set, Fetch, FetchAddress, FetchImm8Pc0Reg, FetchImm8Reg;
      var ins, k := pc0 / 16, pc0 % 8;
      if ins == 0 {
        var v := Imm8Reg(pc0);
        SetRegister(k, v);
      } else if ins == 1 {
        var addr := Address(pc0);
        var v := PeekByte(addr);
        SetRegister(k, v);
      } else {
        var addr := Address(pc0);
        var v := GetRegister(k);
        PokeByte(addr, v);
      }
    }

    /** PUSH and POP. */
    method Stack(pc0: byte)
      requires Valid() && 3 <= pc0 / 16 < 5
      modifies Buffers()
      ensures Now() == Executed(old(Now()), pc0)
    {
      hide Peek, Poke, Bit, RegOf, Regs.Get, Regs.Set, Fetch, FetchAddress, FetchImm8Pc0Reg, FetchImm8Reg;
      if pc0 / 16 == 3 {
        var v := Imm8Pc0Reg(pc0);
        var at := sp;
        SetSp(U16(sp - 1));
        PokeByte(at, v);
      } else {
        SetSp(U16(sp + 1));
        var v := PeekByte(sp);
        SetRegister(pc0 % 8, v);
      }
    }

    /** LDA, JNZ, INB and OUTB. */
    method Control(pc0: byte)
      requires Valid() && 5 <= pc0 / 16 < 9
      modifies Buffers()
      ensures Now() == Executed(old(Now()), pc0)
    {
      hide Bit, RegOf, Regs.Get, Regs.Set, In, Out, Fetch, FetchImm8Pc0Reg, FetchImm8Reg, FetchImm16;
      var ins, k := pc0 / 16, pc0 % 8;
      if ins == 5 {
        var hl := Imm16();
        SetHL(hl);
      } else if ins == 6 {
        var v := Imm8Pc0Reg(pc0);
        if v != 0 {
          SetPc(Pair(registers[5], registers[4]));
        }
      } else if ins == 7 {
        var port := Imm8Reg(pc0);
        var v := Inb(port);
        SetRegister(k, v);
      } else {
        var port := Imm8Reg(pc0);
        var v := GetRegister(k);
        Outb(port, v);
      }
    }

    /** The arithmetic instructions. */
    method Compute(pc0: byte)
      requires Valid() && pc0 / 16 >= 9
      modifies Buffers()
      ensures Now() == Executed(old(Now()), pc0)
    {
      hide RegOf, Regs.Get, Regs.Set, Fetch, FetchImm8Reg, Alu, AluOpOf;
      var b := Imm8Reg(pc0);
      Arithmetic(pc0 / 16, pc0 % 8, b);
    }

    /** One instruction, as the emulator executes it. */
    method StepOnce()
      requires Valid()
      modifies Buffers()
      ensures Now() == Step(old(Now()))
    {
      hide Bit, RegOf, Executed, Fetch;
      if Bit(status, 3) {
        return;
      }
      var pc0 := FetchByte();
      if pc0 / 16 < 3 {
        Move(pc0);
      } else if pc0 / 16 < 5 {
        Stack(pc0);
      } else if pc0 / 16 < 9 {
        Control(pc0);
      } else {
        Compute(pc0);
      }
    }

    /** Any number of steps. */
    method RunSteps(n: nat)
      requires Valid()
      modifies Buffers()
      ensures Now() == Run(old(Now()), n)
    {
      hide Step;
      var left: nat := n;
      while left != 0
        invariant left <= n && Run(Now(), left) == Run(old(Now()), n)
      {
        StepOnce();
        left := left - 1;
      }
    }
  }

  lemma LastRegister()
    ensures RegOf(7) == F
  {
  }

  /** Bytes stored one after the other. */
  function PokeAll(s: State, a: word, bytes: seq<byte>): State
    decreases |bytes|
  {
    if bytes == [] then s else PokeAll(Poke(s, a, bytes[0]), U16(a + 1), bytes[1..])
  }

  lemma PokeFirst(s: State, a: word, bytes: seq<byte>)
    requires bytes != []
    ensures PokeAll(s, a, bytes) == PokeAll(Poke(s, a, bytes[0]), U16(a + 1), bytes[1..])
    ensures PokeAll(s, a, []) == s
  {
  }
}
