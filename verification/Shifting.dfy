/** os/lib/shift.asm: shr as a machine program. */
module Shifting {
  import opened Words
  import opened Isa
  import opened Core
  import opened Macros
  import opened Blocks

  // ----- moving one bit -----

  /** `sub r, v` */
  function Sub(r: Reg, v: byte): (block: Block)
    ensures Len(block) == 4 && Pure(block)
  {
    Cat(Clb(), One(ALU(SBB, r, Imm(v))))
  }

  lemma SubSubtracts(g: Regs, r: Reg, v: byte)
    requires r != F
    ensures RegsAfter(Sub(r, v), g) == g.Set(r, U8(g.Get(r) - v)).Set(F, Flags(g.Get(r), v))
  {
    hide And, Bit, Flags, Regs.Set, Regs.Get;
    ClbClears(g);
    var fl: byte := And(g.f, 0xF7);
    var g1 := g.Set(F, fl);
    RegsCat(Clb(), One(ALU(SBB, r, Imm(v))), g);
    RegsOne(ALU(SBB, r, Imm(v)), g1);
    GetSet(g, F, fl, r);
    SetFlags(g, fl);
    var w: byte := U8(g.Get(r) - v);
    SetSwap(g, F, fl, r, w);
    SetTwice(g.Set(r, w), F, fl, Flags(g.Get(r), v));
  }

  /** The mask of bit k. */
  function Mask(k: nat): byte
    requires k < 8
  {
    PowerFits(k, 8);
    Power2Of8();
    Power2(k)
  }

  /** add a, 2^(k-1); sub c, 2^k */
  function Transfer(k: nat): (block: Block)
    requires 0 < k < 8
    ensures Len(block) == 6 && Pure(block)
  {
    Cat(One(ALU(ADD, A, Imm(Mask(k - 1)))), Sub(C, Mask(k)))
  }

  /** jmn c, 2^k, [next]; add a, 2^(k-1); sub c, 2^k */
  function Stage(k: nat, next: word): (block: Block)
    requires 0 < k < 8
    ensures Len(block) == 16
  {
    Cat(Branch(Jmn(C, Imm(Mask(k))), next), Transfer(k))
  }

  /** JMN jumps when the masked bit is clear. */
  lemma JmnTest(g: Regs, r: Reg, k: nat)
    requires k < 8 && r != F
    ensures Tests(Jmn(r, Imm(Mask(k))), g, !Bit(g.Get(r), k))
  {
    hide And, Bit, Not, Regs.Set, Regs.Get, RegsAfter, Power2;
    var i := MW(F, Rg(r));
    var v: byte := g.Get(r);
    RegsOne(i, g);
    NegateF(One(i), g, v);
    MaskF(Cat(One(i), NotF()), g, Not(v), Mask(k));
    MaskBit(Not(v), k);
    NotIs(v, k);
  }

  lemma Transfers(g: Regs, k: nat) returns (g': Regs)
    requires 0 < k < 8
    ensures g' == RegsAfter(Transfer(k), g)
    ensures g'.a == U8(g.a + Mask(k - 1)) && g'.c == U8(g.c - Mask(k)) && g'.b == g.b && g'.d == g.d && g'.z == g.z
  {
    hide RegsAfter, Flags, Sub, Mask;
    var i := ALU(ADD, A, Imm(Mask(k - 1)));
    RegsOne(i, g);
    var g1 := OnRegs(i, g);
    SubSubtracts(g1, C, Mask(k));
    RegsCat(One(i), Sub(C, Mask(k)), g);
    g' := RegsAfter(Sub(C, Mask(k)), g1);
  }

  /** A stage moves bit k of c, if it is set, to bit k-1 of a, and goes on to the next label. */
  lemma RunStage(code: Code, h: Core, k: nat) returns (h': Core)
    requires 0 < k < 8 && h.pc + 16 < 65536 && At(code, h.pc, Stage(k, h.pc + 16))
    requires h.g.c < 2 * Mask(k) && h.g.a + h.g.c / 2 < 256
    ensures Reaches(code, h, h') && SameMemory(h, h') && h'.pc == h.pc + 16
    ensures h'.g.b == h.g.b && h'.g.d == h.g.d && h'.g.z == h.g.z
    ensures h'.g.c < Mask(k) && h'.g.c % 2 == h.g.c % 2
    ensures h'.g.a + h'.g.c / 2 == h.g.a + h.g.c / 2
  {
    hide At, Reaches, Branch, Jmn, Transfer, Tests, Bit, Mask, RegsAfter;
    var test := Jmn(C, Imm(Mask(k)));
    Split(code, h.pc, Branch(test, h.pc + 16), Transfer(k));
    JmnTest(h.g, C, k);
    var h1 := RunBranch(code, h, test, h.pc + 16, !Bit(h.g.c, k));
    SplitAt(h.g.c, k);
    if Bit(h.g.c, k) {
      RunPure(code, h1, Transfer(k));
      var g2 := Transfers(h1.g, k);
      h' := h1.(g := g2, pc := h.pc + 16);
      Chain(code, h, h1, h');
    } else {
      h' := h1;
    }
  }

  lemma SplitAt(c: byte, k: nat)
    requires 0 < k < 8 && c < 2 * Mask(k)
    ensures Bit(c, k) <==> c >= Mask(k)
    ensures Mask(k) == 2 * Mask(k - 1)
  {
    hide Bit;
    TopBit(c, k);
  }

  /** The seven stages, one after the other. */
  function Stages(k: nat, at: int): (block: Block)
    requires k < 8 && 0 <= at && at + 16 * k < 65536
    ensures Len(block) == 16 * k
    decreases k
  {
    if k == 0 then Nop else Cat(Stage(k, at + 16), Stages(k - 1, at + 16))
  }

  lemma {:induction false} RunStages(code: Code, h: Core, k: nat) returns (h': Core)
    requires k < 8 && h.pc + 16 * k < 65536 && At(code, h.pc, Stages(k, h.pc))
    requires h.g.c < 2 * Mask(k) && h.g.a + h.g.c / 2 < 256
    ensures Reaches(code, h, h') && SameMemory(h, h') && h'.pc == h.pc + 16 * k
    ensures h'.g.b == h.g.b && h'.g.d == h.g.d && h'.g.z == h.g.z
    ensures h'.g.c == h.g.c % 2 && h'.g.a == h.g.a + h.g.c / 2
    decreases k
  {
    hide At, Reaches, Stage;
    if k == 0 {
      Stay(code, h);
      h' := h;
    } else {
      hide Mask;
      Split(code, h.pc, Stage(k, h.pc + 16), Stages(k - 1, h.pc + 16));
      var h1 := RunStage(code, h, k);
      SplitAt(0, k);
      h' := RunStages(code, h1, k - 1);
      Chain(code, h, h1, h');
    }
  }

  // ----- shr -----

  /** mw c, a; mw a, 0 */
  function Take(): (block: Block)
    ensures Len(block) == 4 && Pure(block)
  {
    Cat(One(MW(C, Rg(A))), One(MW(A, Imm(0))))
  }

  function ShrHead(done: word): (block: Block)
    ensures Len(block) == 14
  {
    Cat(Pushes([B, C]), Cat(Branch(Jz(B), done), Take()))
  }

  function ShrBody(shift: word): (block: Block)
    requires shift + 112 < 65536
    ensures Len(block) == 120
  {
    Cat(Stages(7, shift), Cat(Dec(B), JumpNonZero(B, shift)))
  }

  function Shr(entry: word, shift: word, done: word): seq<Part>
    requires shift + 112 < 65536
  {
    [Part(entry, ShrHead(done)), Part(shift, ShrBody(shift)), Part(done, Leave([C, B]))]
  }

  ghost predicate ShrAt(code: Code, entry: word, shift: word, done: word) {
    shift == entry + 14 && done == shift + 120 && Placed(code, Shr(entry, shift, done))
  }

  lemma ShrParts(code: Code, entry: word, shift: word, done: word)
    requires ShrAt(code, entry, shift, done)
    ensures At(code, entry, ShrHead(done)) && At(code, shift, ShrBody(shift)) && At(code, done, Leave([C, B]))
  {
    hide At, ShrHead, ShrBody, Leave;
    var parts := Shr(entry, shift, done);
    assert parts[0] in parts && parts[1] in parts && parts[2] in parts;
  }

  /** One pass halves what is in c into a, and leaves its lowest bit in c. */
  lemma ShrOnce(code: Code, h: Core) returns (h': Core)
    requires h.pc + 112 < 65536 && At(code, h.pc, ShrBody(h.pc)) && h.g.a + h.g.c / 2 < 256
    ensures Reaches(code, h, h') && SameMemory(h, h')
    ensures h'.g.a == h.g.a + h.g.c / 2 && h'.g.c == h.g.c % 2 && h'.g.d == h.g.d && h'.g.z == h.g.z
    ensures h'.g.b == U8(h.g.b - 1) && h'.pc == if h'.g.b != 0 then h.pc else h.pc + 120
  {
    hide At, Reaches, Stages, RegsAfter, Flags, Dec, JumpNonZero, U8, Mask, Len, Size;
    Split(code, h.pc, Stages(7, h.pc), Cat(Dec(B), JumpNonZero(B, h.pc)));
    Split(code, h.pc + 112, Dec(B), JumpNonZero(B, h.pc));
    MaskIs();
    var h1 := RunStages(code, h, 7);
    DecSubtracts(h1.g, B);
    RunPure(code, h1, Dec(B));
    var h2 := h1.(g := RegsAfter(Dec(B), h1.g), pc := h1.pc + 4);
    Chain(code, h, h1, h2);
    h' := RunJumpNonZero(code, h2, B, h.pc);
    Chain(code, h, h2, h');
  }

  lemma MaskIs()
    ensures Mask(7) == 128 && Mask(0) == 1
  {
    Power2Of8();
  }

  /** Later passes find at most the lowest bit in c, and change nothing more. */
  lemma {:induction false} ShrLoop(code: Code, h: Core) returns (h': Core)
    requires h.pc + 112 < 65536 && At(code, h.pc, ShrBody(h.pc)) && h.g.a + h.g.c / 2 < 256 && h.g.b > 0
    ensures Reaches(code, h, h') && SameMemory(h, h') && h'.pc == h.pc + 120
    ensures h'.g.a == h.g.a + h.g.c / 2 && h'.g.d == h.g.d && h'.g.z == h.g.z
    decreases h.g.b
  {
    hide At, Reaches, ShrBody;
    h' := ShrOnce(code, h);
    if h.g.b != 1 {
      var h1 := h';
      h' := ShrLoop(code, h1);
      Chain(code, h, h1, h');
    }
  }

  lemma ShrEnters(code: Code, h: Core, done: word) returns (h': Core)
    requires At(code, h.pc, ShrHead(done)) && Room(h, 2) && h.pc + 14 != done
    ensures Reaches(code, h, h') && h'.readOnly == h.readOnly && h'.sp == h.sp - 2
    ensures OnlyIn(Span(h.sp - 1, 2), h.ram, h'.ram)
    ensures h.sp in h'.ram && h'.ram[h.sp] == h.g.b && h.sp - 1 in h'.ram && h'.ram[h.sp - 1] == h.g.c
    ensures h'.g.b == h.g.b && h'.g.d == h.g.d && h'.g.z == h.g.z
    ensures if h.g.b == 0 then h'.pc == done && h'.g.a == h.g.a else h'.pc == h.pc + 14 && h'.g.a == 0 && h'.g.c == h.g.a
  {
    hide At, Reaches, RegsAfter, Branch, Pushes, Tests, Jz, Room;
    Split(code, h.pc, Pushes([B, C]), Cat(Branch(Jz(B), done), Take()));
    Split(code, h.pc + 2, Branch(Jz(B), done), Take());
    var h1 := RunPush2(code, h, B, C);
    JzTest(h1.g, B);
    var h2 := RunBranch(code, h1, Jz(B), done, h.g.b == 0);
    Chain(code, h, h1, h2);
    h' := h2;
    if h.g.b != 0 {
      RunPure(code, h2, Take());
      RegsCat(One(MW(C, Rg(A))), One(MW(A, Imm(0))), h2.g);
      RegsOne(MW(C, Rg(A)), h2.g);
      RegsOne(MW(A, Imm(0)), h2.g.(c := h2.g.a));
      h' := h2.(g := h2.g.(c := h2.g.a, a := 0), pc := h2.pc + 4);
      Chain(code, h, h2, h');
    }
  }

  /**
   shr halves a once, however large the count in b is, and does nothing when the count is zero.
   It gives back b, c, d, z and the stack pointer, and writes two stack cells only.
   */
  lemma ShrRuns(code: Code, h: Core, shift: word, done: word) returns (h': Core)
    requires ShrAt(code, h.pc, shift, done) && Called(h, 2)
    ensures Reaches(code, h, h')
    ensures h'.pc == ReturnAddress(h) && h'.sp == h.sp + 2 && h'.readOnly == h.readOnly
    ensures SameData(h.g.(a := h'.g.a), h'.g) && h'.g.a == if h.g.b == 0 then h.g.a else h.g.a / 2
    ensures OnlyIn(Span(h.sp - 1, 2), h.ram, h'.ram)
  {
    hide At, Reaches, ShrHead, ShrBody, Leave, Popped, Room, Pair;
    ShrParts(code, h.pc, shift, done);
    var h1 := ShrEnters(code, h, done);
    var h2 := h1;
    if h.g.b != 0 {
      h2 := ShrLoop(code, h1);
      Chain(code, h, h1, h2);
    }
    h' := RunLeave2(code, h2, C, B);
    Chain(code, h, h2, h');
  }

  /** The value that the comment on shr promises. */
  function Shifted(a: byte, count: nat): byte {
    if count == 0 then a else Shifted(a / 2, count - 1)
  }

  lemma {:induction false} ShiftsToZero(a: byte, count: nat)
    requires a == 0
    ensures Shifted(a, count) == 0
  {
    if count != 0 { ShiftsToZero(0, count - 1); }
  }

  lemma {:induction false} ShiftedBelow(a: byte, count: nat)
    requires count > 0 && a > 0
    ensures Shifted(a, count) < a
    decreases count
  {
    if a / 2 == 0 {
      ShiftsToZero(0, count - 1);
    } else if count > 1 {
      ShiftedBelow(a / 2, count - 1);
    }
  }

  /** What shr returns is the promised shift exactly for counts 0 and 1, and for operands that one shift clears. */
  lemma ShrRight(a: byte, b: byte)
    ensures (if b == 0 then a else a / 2) == Shifted(a, b) <==> b <= 1 || a < 2
  {
    if b > 1 {
      assert Shifted(a, b) == Shifted(a / 2, b - 1);
      if a < 2 {
        ShiftsToZero(0, b - 1);
      } else {
        ShiftedBelow(a / 2, b - 1);
      }
    }
  }
}
