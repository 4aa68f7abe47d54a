/** os/lib/math.asm: cmp16, the 16-bit comparison, as a machine program. */
module Comparing {
  import opened Words
  import opened Isa
  import opened Core
  import opened Macros
  import opened Blocks
  import opened Shifting

  /** cmp a, c; mw h, f; cmp b, d; mw l, f; mw a, h; mw b, a */
  function Gather(): (block: Block)
    ensures Len(block) == 12 && Pure(block)
  {
    Cat(EqCompare(H, A, Rg(C)), Cat(EqCompare(L, B, Rg(D)), Cat(One(MW(A, Rg(H))), One(MW(B, Rg(A))))))
  }

  /** and a, l; or a, h; and a, 0x01 */
  function LessBit(): (block: Block)
    ensures Len(block) == 6 && Pure(block)
  {
    Cat(One(ALU(AND, A, Rg(L))), Cat(One(ALU(OR, A, Rg(H))), One(ALU(AND, A, Imm(1)))))
  }

  /** mw b, h; and b, l; and b, 0x02 */
  function EqualBit(): (block: Block)
    ensures Len(block) == 6 && Pure(block)
  {
    Cat(One(MW(B, Rg(H))), Cat(One(ALU(AND, B, Rg(L))), One(ALU(AND, B, Imm(2)))))
  }

  /** or a, b; mw f, a */
  function Join2(): (block: Block)
    ensures Len(block) == 4 && Pure(block)
  {
    Cat(One(ALU(OR, A, Rg(B))), One(MW(F, Rg(A))))
  }

  function Combine(): (block: Block)
    ensures Len(block) == 16 && Pure(block)
  {
    Cat(LessBit(), Cat(EqualBit(), Join2()))
  }

  function Cmp16Code(shr: word, back: word): (block: Block)
    ensures Len(block) == 49
  {
    Cat(Save(), Cat(Call(shr, back), Cat(Pops([L, H]), Cat(Combine(), Leave([B, A])))))
  }

  lemma Gathers(g: Regs) returns (g': Regs)
    ensures g' == RegsAfter(Gather(), g)
    ensures var f1, f2 := Flags(g.a, g.c), Flags(g.b, g.d);
      g' == g.(a := f1, b := f1, h := f1, l := f2, f := f2)
  {
    hide Flags, Alu, RegsAfter;
    var f1, f2 := Flags(g.a, g.c), Flags(g.b, g.d);
    var c1, c2 := ALU(CMP, A, Rg(C)), ALU(CMP, B, Rg(D));
    CmpKeeps(g, A, g.c);
    var g1 := g.(f := f1);
    RegsOne(c1, g);
    RegsOne(MW(H, Rg(F)), g1);
    RegsCat(One(c1), One(MW(H, Rg(F))), g);
    var g2 := g1.(h := f1);
    CmpKeeps(g2, B, g.d);
    var g3 := g2.(f := f2);
    RegsOne(c2, g2);
    RegsOne(MW(L, Rg(F)), g3);
    RegsCat(One(c2), One(MW(L, Rg(F))), g2);
    var g4 := g3.(l := f2);
    var g5 := g4.(a := f1);
    RegsOne(MW(A, Rg(H)), g4);
    RegsOne(MW(B, Rg(A)), g5);
    var last := Cat(One(MW(A, Rg(H))), One(MW(B, Rg(A))));
    RegsCat(One(MW(A, Rg(H))), One(MW(B, Rg(A))), g4);
    RegsCat(EqCompare(L, B, Rg(D)), last, g2);
    RegsCat(EqCompare(H, A, Rg(C)), Cat(EqCompare(L, B, Rg(D)), last), g);
    g' := g5.(b := f1);
  }

  /** LESS and EQUAL of a 16-bit comparison, as the low two bits of a flags byte. */
  function Flags16(x: word, y: word): byte {
    (if x < y then 1 else 0) + (if x == y then 2 else 0)
  }

  lemma OrSmall(x: byte, y: byte)
    requires x <= 1 && y in {0, 2}
    ensures Or(x, y) == x + y
  {
    hide Bitwise;
    OrSum(x, y, 8);
  }

  lemma OrSum(x: byte, y: byte, n: nat)
    requires x <= 1 && y in {0, 2} && n >= 2
    ensures Bitwise(Either, x, y, n) == x + y
  {
    OrZero(n - 2);
    assert Bitwise(Either, x / 2, y / 2, n - 1) == y / 2 + 2 * Bitwise(Either, x / 2 / 2, y / 2 / 2, n - 2);
  }

  lemma OrLow(x: byte, y: byte)
    ensures And(Or(x, y), 1) == if Bit(x, 0) || Bit(y, 0) then 1 else 0
  {
    BitwiseBit(Either, x, y, 8, 0);
    AndMasks(Or(x, y));
  }

  /** The bit logic: less in the high bytes, or equal there and less in the low ones. */
  lemma Combined(a: byte, b: byte, c: byte, d: byte)
    ensures
      var f1, f2 := Flags(a, c), Flags(b, d);
      Or(And(Or(And(f1 / 2, f2), f1), 1), And(And(f1, f2), 2)) == Flags16(Pair(a, b), Pair(c, d))
  {
    hide And, Or, Flags;
    var f1, f2 := Flags(a, c), Flags(b, d);
    FlagBits(a, c);
    FlagBits(b, d);
    AndBit(f1 / 2, f2, 0);
    assert Bit(f1 / 2, 0) == Bit(f1, 1);
    OrLow(And(f1 / 2, f2), f1);
    AndBit(f1, f2, 1);
    AndMasks(And(f1, f2));
    OrSmall(And(Or(And(f1 / 2, f2), f1), 1), And(And(f1, f2), 2));
  }

  lemma Combines(g: Regs) returns (g': Regs)
    ensures g' == RegsAfter(Combine(), g)
    ensures g'.f == Or(And(Or(And(g.a, g.l), g.h), 1), And(And(g.h, g.l), 2))
    ensures g'.c == g.c && g'.d == g.d && g'.z == g.z
  {
    hide And, Or, RegsAfter;
    var g1 := g.(a := And(g.a, g.l));
    var g2 := g1.(a := Or(g1.a, g.h));
    var g3 := g2.(a := And(g2.a, 1));
    RegsOne(ALU(AND, A, Rg(L)), g);
    RegsOne(ALU(OR, A, Rg(H)), g1);
    RegsOne(ALU(AND, A, Imm(1)), g2);
    RegsCat(One(ALU(OR, A, Rg(H))), One(ALU(AND, A, Imm(1))), g1);
    RegsCat(One(ALU(AND, A, Rg(L))), Cat(One(ALU(OR, A, Rg(H))), One(ALU(AND, A, Imm(1)))), g);
    var g4 := g3.(b := g.h);
    var g5 := g4.(b := And(g.h, g.l));
    var g6 := g5.(b := And(g5.b, 2));
    RegsOne(MW(B, Rg(H)), g3);
    RegsOne(ALU(AND, B, Rg(L)), g4);
    RegsOne(ALU(AND, B, Imm(2)), g5);
    RegsCat(One(ALU(AND, B, Rg(L))), One(ALU(AND, B, Imm(2))), g4);
    RegsCat(One(MW(B, Rg(H))), Cat(One(ALU(AND, B, Rg(L))), One(ALU(AND, B, Imm(2)))), g3);
    var g7 := g6.(a := Or(g6.a, g6.b));
    RegsOne(ALU(OR, A, Rg(B)), g6);
    RegsOne(MW(F, Rg(A)), g7);
    RegsCat(One(ALU(OR, A, Rg(B))), One(MW(F, Rg(A))), g6);
    RegsCat(EqualBit(), Join2(), g3);
    RegsCat(LessBit(), Cat(EqualBit(), Join2()), g);
    g' := g7.(f := g7.a);
  }

  ghost predicate Cmp16At(code: Code, entry: word, shr: word, shift: word, done: word) {
    entry + 25 < 65536 && At(code, entry, Cmp16Code(shr, entry + 25)) && ShrAt(code, shr, shift, done)
  }

  /** push a, b; both comparisons; push h, l */
  function Save(): (block: Block)
    ensures Len(block) == 16
  {
    Cat(Pushes([A, B]), Cat(Gather(), Pushes([H, L])))
  }

  /** What lies on the stack: the operand in ab, and the flags of both comparisons. */
  predicate Kept(g: Regs, ram: map<word, byte>, sp: int) {
    && sp + 1 in ram && sp + 2 in ram && sp + 3 in ram && sp + 4 in ram
    && ram[sp + 1] == Flags(g.b, g.d) && ram[sp + 2] == Flags(g.a, g.c) && ram[sp + 3] == g.b && ram[sp + 4] == g.a
  }

  lemma RunSave(code: Code, h: Core) returns (h': Core)
    requires At(code, h.pc, Save()) && Room(h, 4)
    ensures Reaches(code, h, h') && h'.readOnly == h.readOnly && h'.pc == h.pc + 16 && h'.sp == h.sp - 4
    ensures OnlyIn(Span(h.sp - 3, 4), h.ram, h'.ram) && Kept(h.g, h'.ram, h'.sp)
    ensures h'.g.a == h'.g.b == Flags(h.g.a, h.g.c) && h'.g.c == h.g.c && h'.g.d == h.g.d && h'.g.z == h.g.z
  {
    hide At, Reaches, Gather, RegsAfter, Flags, Pushes, OnlyIn, Kept, Room, Span, Len, Size;
    var ab, hl := Pushes([A, B]), Pushes([H, L]);
    Split(code, h.pc, ab, Cat(Gather(), hl));
    Split(code, h.pc + 2, Gather(), hl);
    Rooms(h, 4, 2);
    var h1 := RunPush2(code, h, A, B);
    RunPure(code, h1, Gather());
    var g2 := Gathers(h1.g);
    var h2 := h1.(g := g2, pc := h1.pc + 12);
    Chain(code, h, h1, h2);
    StillRoom(h, h2, 4, 2);
    h' := RunPush2(code, h2, H, L);
    Chain(code, h, h2, h');
    SaveFrame(h, h'.ram);
  }

  lemma SaveFrame(h: Core, ram: map<word, byte>)
    requires Room(h, 4) && ram.Keys == h.ram.Keys
    requires ram == h.ram[h.sp := h.g.a][h.sp - 1 := h.g.b][h.sp - 2 := Flags(h.g.a, h.g.c)][h.sp - 3 := Flags(h.g.b, h.g.d)]
    ensures OnlyIn(Span(h.sp - 3, 4), h.ram, ram) && Kept(h.g, ram, h.sp - 4)
  {
    hide Flags;
    assert h.sp in Span(h.sp - 3, 4) && h.sp - 1 in Span(h.sp - 3, 4) && h.sp - 2 in Span(h.sp - 3, 4) && h.sp - 3 in Span(h.sp - 3, 4);
  }

  /** shr has been called on the flags of the high bytes. */
  lemma RunToShr(code: Code, h: Core, shr: word, back: word) returns (h': Core)
    requires At(code, h.pc, Cmp16Code(shr, back)) && Room(h, 6)
    ensures Reaches(code, h, h') && h'.readOnly == h.readOnly && h'.pc == shr && h'.sp == h.sp - 6
    ensures OnlyIn(Span(h.sp - 5, 6), h.ram, h'.ram) && Kept(h.g, h'.ram, h.sp - 4)
    ensures h'.g.a == h'.g.b == Flags(h.g.a, h.g.c) && h'.g.c == h.g.c && h'.g.d == h.g.d && h'.g.z == h.g.z
    ensures h'.Readable(h'.sp + 1) && h'.Readable(h'.sp + 2) && ReturnAddress(h') == back
  {
    hide At, Reaches, Save, Call, Combine, Leave, Flags, Pops, ReturnAddress, Hi, Lo;
    var rest := Cat(Pops([L, H]), Cat(Combine(), Leave([B, A])));
    Split(code, h.pc, Save(), Cat(Call(shr, back), rest));
    Split(code, h.pc + 16, Call(shr, back), rest);
    Rooms(h, 6, 4);
    var h1 := RunSave(code, h);
    StillRoom(h, h1, 6, 4);
    h' := RunCall(code, h1, shr, back);
    Chain(code, h, h1, h');
    assert h.Writable(h.sp - 4) && h.Writable(h.sp - 5);
  }

  lemma Rooms(h: Core, n: nat, m: nat)
    requires Room(h, n) && m <= n
    ensures Room(h, m)
  {
  }

  lemma StillRoom(h: Core, h': Core, n: nat, m: nat)
    requires Room(h, n) && m <= n && h'.sp == h.sp - m && h'.ram.Keys == h.ram.Keys && h'.readOnly == h.readOnly
    ensures Room(h', n - m)
  {
    forall x: int | h'.sp - (n - m) < x <= h'.sp
      ensures h'.Writable(x)
    {
      assert h.Writable(x);
    }
  }

  /** The stack gives the flags back, and the bit logic makes one flags byte of them. */
  lemma RunFinish(code: Code, h: Core, entry: word, shr: word, back: word, g: Regs) returns (h': Core)
    requires At(code, entry, Cmp16Code(shr, back)) && h.pc == entry + 25 && Kept(g, h.ram, h.sp)
    requires h.g.a == Flags(g.a, g.c) / 2 && h.g.c == g.c && h.g.d == g.d && h.g.z == g.z
    requires h.Readable(h.sp + 5) && h.Readable(h.sp + 6)
    ensures Reaches(code, h, h') && h'.readOnly == h.readOnly && h'.ram == h.ram
    ensures h'.sp == h.sp + 6 && h'.pc == Pair(h.ram[h.sp + 6], h.ram[h.sp + 5])
    ensures SameData(g, h'.g) && h'.g.f == Flags16(Pair(g.a, g.b), Pair(g.c, g.d))
  {
    hide At, Reaches, Save, Call, Combine, Leave, Flags, Pops, Pair, And, Or, RegsAfter, Flags16, Len;
    var rest := Cat(Pops([L, H]), Cat(Combine(), Leave([B, A])));
    Split(code, entry, Save(), Cat(Call(shr, back), rest));
    Split(code, entry + 16, Call(shr, back), rest);
    Split(code, entry + 25, Pops([L, H]), Cat(Combine(), Leave([B, A])));
    Split(code, entry + 27, Combine(), Leave([B, A]));
    var h1 := RunPop2(code, h, L, H);
    RunPure(code, h1, Combine());
    var g2 := Combines(h1.g);
    Combined(g.a, g.b, g.c, g.d);
    var h2 := h1.(g := g2, pc := h1.pc + 16);
    Chain(code, h, h1, h2);
    h' := RunLeave2(code, h2, B, A);
    Chain(code, h, h2, h');
  }

  /**
   cmp16 sets LESS and EQUAL to the unsigned comparison of ab with cd, for every pair of words.
   It counts on shr moving by one place whatever the count it is given, here the flags
   themselves; a count of zero comes only with flags that have nothing to move.
   Registers and stack pointer come back, and eight stack cells are written.
   */
  lemma Cmp16Runs(code: Code, h: Core, shr: word, shift: word, done: word) returns (h': Core)
    requires Cmp16At(code, h.pc, shr, shift, done) && Called(h, 8)
    ensures Reaches(code, h, h')
    ensures h'.pc == ReturnAddress(h) && h'.sp == h.sp + 2 && SameData(h.g, h'.g) && h'.readOnly == h.readOnly
    ensures h'.g.f == Flags16(Pair(h.g.a, h.g.b), Pair(h.g.c, h.g.d))
    ensures OnlyIn(Span(h.sp - 7, 8), h.ram, h'.ram)
  {
    hide At, Reaches, Cmp16Code, ShrAt, Flags, Pair, Flags16, Room, Span, OnlyIn;
    Rooms(h, 8, 6);
    var h1 := RunToShr(code, h, shr, h.pc + 25);
    KeyRoom(h, h1);
    var h2 := ShrRuns(code, h1, shift, done);
    Chain(code, h, h1, h2);
    KeptFrame(h, h1.ram, h2.ram);
    assert h.g.a >= 0 && (Flags(h.g.a, h.g.c) == 0 ==> Flags(h.g.a, h.g.c) / 2 == 0);
    h' := RunFinish(code, h2, h.pc, shr, h.pc + 25, h.g);
    Chain(code, h, h2, h');
  }

  lemma KeyRoom(h: Core, h1: Core)
    requires Room(h, 8) && h1.sp == h.sp - 6 && h1.readOnly == h.readOnly && OnlyIn(Span(h.sp - 5, 6), h.ram, h1.ram)
    ensures Room(h1, 2)
  {
    StillRoom(h, h1, 8, 6);
  }

  lemma KeptFrame(h: Core, ram1: map<word, byte>, ram2: map<word, byte>)
    requires h.sp >= 8 && h.Readable(h.sp + 1) && h.Readable(h.sp + 2)
    requires OnlyIn(Span(h.sp - 5, 6), h.ram, ram1) && OnlyIn(Span(h.sp - 7, 2), ram1, ram2) && Kept(h.g, ram1, h.sp - 4)
    ensures OnlyIn(Span(h.sp - 7, 8), h.ram, ram2) && Kept(h.g, ram2, h.sp - 4)
    ensures h.sp + 1 in ram2 && h.sp + 2 in ram2 && ram2[h.sp + 1] == h.ram[h.sp + 1] && ram2[h.sp + 2] == h.ram[h.sp + 2]
  {
    hide Flags;
  }
}
