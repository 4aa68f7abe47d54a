/** os/lib/util.asm: memset as a machine program. */
module Filling {
  import opened Words
  import opened Isa
  import opened Core
  import opened Macros
  import opened Blocks
  import opened Copying

  /** The n cells from dst up hold v, the others what they held. */
  function Fill(ram: map<word, byte>, dst: int, n: nat, v: byte): (ram': map<word, byte>)
    requires Given(ram, dst, n)
    ensures ram'.Keys == ram.Keys
    decreases n
  {
    if n == 0 then ram else Fill(ram[dst := v], dst + 1, n - 1, v)
  }

  lemma {:induction false} FillSets(ram: map<word, byte>, dst: int, n: nat, v: byte)
    requires Given(ram, dst, n)
    ensures OnlyIn(Span(dst, n), ram, Fill(ram, dst, n, v))
    ensures forall x: int | dst <= x < dst + n :: Fill(ram, dst, n, v)[x] == v
    decreases n
  {
    if n != 0 {
      FillSets(ram[dst := v], dst + 1, n - 1, v);
    }
  }

  lemma {:induction false} FillElsewhere(cells: set<int>, ram: map<word, byte>, ram': map<word, byte>, dst: int, n: nat, v: byte)
    requires OnlyIn(cells, ram, ram') && Given(ram, dst, n)
    ensures OnlyIn(cells, Fill(ram, dst, n, v), Fill(ram', dst, n, v))
    decreases n
  {
    if n != 0 {
      FillElsewhere(cells, ram[dst := v], ram'[dst := v], dst + 1, n - 1, v);
    }
  }

  // ----- memset: ab is the destination, cd the length, z the value -----

  /** add16 c, d, a, b: cd becomes the address after the last byte. */
  function MemsetHead(): (block: Block)
    ensures Len(block) == 9
  {
    Cat(PushAll(), Add16(C, D, Rg(A), Rg(B)))
  }

  function MemsetBody(loop: word, done: word): (block: Block)
    ensures Len(block) == 28
  {
    Cat(Cat(Eq16(A, B, Rg(C), Rg(D)), JumpNonZero(F, done)), Cat(SwAt(A, B, Z), Cat(Add16(A, B, Imm(0), Imm(1)), Goto(loop))))
  }

  function Memset(entry: word, loop: word, done: word): seq<Part> {
    [Part(entry, MemsetHead()), Part(loop, MemsetBody(loop, done)), Part(done, LeaveAll())]
  }

  ghost predicate MemsetAt(code: Code, entry: word, loop: word, done: word) {
    loop == entry + 9 && done == loop + 28 && Placed(code, Memset(entry, loop, done))
  }

  lemma MemsetParts(code: Code, entry: word, loop: word, done: word)
    requires MemsetAt(code, entry, loop, done)
    ensures At(code, entry, MemsetHead()) && At(code, loop, MemsetBody(loop, done)) && At(code, done, LeaveAll())
  {
    hide At, MemsetHead, MemsetBody, LeaveAll;
    var parts := Memset(entry, loop, done);
    assert parts[0] in parts && parts[1] in parts && parts[2] in parts;
  }

  /** The end test: equal addresses leave the loop. */
  lemma RunEndTest(code: Code, h: Core, done: word) returns (h': Core)
    requires At(code, h.pc, Cat(Eq16(A, B, Rg(C), Rg(D)), JumpNonZero(F, done)))
    ensures Reaches(code, h, h') && SameMemory(h, h') && SameData(h.g, h'.g)
    ensures h'.pc == if Pair(h.g.a, h.g.b) == Pair(h.g.c, h.g.d) then done else h.pc + 14
  {
    hide At, Reaches, RegsAfter, Eq16, JumpNonZero, Flags, Pair;
    var test := Eq16(A, B, Rg(C), Rg(D));
    Split(code, h.pc, test, JumpNonZero(F, done));
    Eq16Compares(h.g, A, B, Rg(C), Rg(D));
    RunPure(code, h, test);
    var h1 := h.(g := RegsAfter(test, h.g), pc := h.pc + 10);
    h' := RunJumpNonZero(code, h1, F, done);
    Chain(code, h, h1, h');
  }

  lemma RunPut(code: Code, h: Core, loop: word, done: word) returns (h': Core)
    requires At(code, loop, MemsetBody(loop, done)) && h.pc == loop + 14 && h.Writable(Pair(h.g.a, h.g.b))
    ensures Reaches(code, h, h') && h'.pc == loop && h'.sp == h.sp && h'.readOnly == h.readOnly
    ensures h'.ram == h.ram[Pair(h.g.a, h.g.b) := h.g.z]
    ensures Pair(h'.g.a, h'.g.b) == U16(Pair(h.g.a, h.g.b) + 1) && h'.g.c == h.g.c && h'.g.d == h.g.d && h'.g.z == h.g.z
  {
    hide At, Reaches, RegsAfter, Eq16, JumpNonZero, SwAt, Add16, Goto, Flags, Pair, U16, Hi, Lo, Len;
    var test := Cat(Eq16(A, B, Rg(C), Rg(D)), JumpNonZero(F, done));
    var up := Add16(A, B, Imm(0), Imm(1));
    Split(code, loop, test, Cat(SwAt(A, B, Z), Cat(up, Goto(loop))));
    Split(code, loop + 14, SwAt(A, B, Z), Cat(up, Goto(loop)));
    Split(code, loop + 19, up, Goto(loop));
    var h1 := RunSwAt(code, h, A, B, Z);
    RunPure(code, h1, up);
    Add16Adds(h1.g, A, B, Imm(0), Imm(1));
    PairLow(1);
    PairHiLo(U16(Pair(h1.g.a, h1.g.b) + 1));
    var h2 := h1.(g := RegsAfter(up, h1.g), pc := loop + 23);
    Chain(code, h, h1, h2);
    h' := RunGoto(code, h2, loop);
    Chain(code, h, h2, h');
  }

  lemma TestFirst(code: Code, loop: word, done: word)
    requires At(code, loop, MemsetBody(loop, done))
    ensures At(code, loop, Cat(Eq16(A, B, Rg(C), Rg(D)), JumpNonZero(F, done)))
  {
    hide At, Eq16, JumpNonZero, SwAt, Add16, Goto;
    Split(code, loop, Cat(Eq16(A, B, Rg(C), Rg(D)), JumpNonZero(F, done)), Cat(SwAt(A, B, Z), Cat(Add16(A, B, Imm(0), Imm(1)), Goto(loop))));
  }

  lemma GivenNone(ram: map<word, byte>, lo: word)
    ensures Given(ram, lo, 0)
  {
  }

  lemma FillNone(ram: map<word, byte>, dst: int, v: byte)
    requires Given(ram, dst, 0)
    ensures Fill(ram, dst, 0, v) == ram
  {
  }

  lemma FillFirst(ram: map<word, byte>, dst: int, n: nat, v: byte) returns (ram1: map<word, byte>)
    requires Given(ram, dst, n) && n > 0
    ensures dst in ram && ram1 == ram[dst := v] && dst + n <= 65536
    ensures Given(ram1, dst + 1, n - 1) && Fill(ram, dst, n, v) == Fill(ram1, dst + 1, n - 1, v)
  {
    ram1 := ram[dst := v];
  }

  lemma {:induction false} MemsetLoop(code: Code, h: Core, done: word, n: nat) returns (h': Core)
    requires At(code, h.pc, MemsetBody(h.pc, done)) && n < 65536
    requires Given(h.ram, Pair(h.g.a, h.g.b), n) && Span(Pair(h.g.a, h.g.b), n) !! h.readOnly
    requires Pair(h.g.c, h.g.d) == U16(Pair(h.g.a, h.g.b) + n)
    ensures Reaches(code, h, h') && h'.pc == done && h'.sp == h.sp && h'.readOnly == h.readOnly
    ensures h'.ram == Fill(h.ram, Pair(h.g.a, h.g.b), n, h.g.z)
    decreases n
  {
    hide At, Reaches, Pair, Eq16, JumpNonZero, SwAt, Add16, Goto, Fill, Given, Len, MemsetBody;
    var dst: int := Pair(h.g.a, h.g.b);
    TestFirst(code, h.pc, done);
    var h1 := RunEndTest(code, h, done);
    if n == 0 {
      FillNone(h.ram, dst, h.g.z);
      h' := h1;
    } else {
      assert dst in Span(dst, n);
      var ram1 := FillFirst(h.ram, dst, n, h.g.z);
      var h2 := RunPut(code, h1, h.pc, done);
      Chain(code, h, h1, h2);
      if n == 1 {
        GivenNone(ram1, U16(dst + 1));
        FillNone(ram1, U16(dst + 1), h.g.z);
        FillNone(ram1, dst + 1, h.g.z);
      }
      h' := MemsetLoop(code, h2, done, n - 1);
      Chain(code, h, h2, h');
    }
  }

  lemma MemsetEnters(code: Code, h: Core) returns (h': Core)
    requires At(code, h.pc, MemsetHead()) && Room(h, 5)
    ensures Reaches(code, h, h') && h'.readOnly == h.readOnly && h'.pc == h.pc + 9
    ensures h'.sp == h.sp - 5 && OnlyIn(Span(h.sp - 4, 5), h.ram, h'.ram) && SavedAll(h.g, h'.ram, h'.sp)
    ensures h'.g.a == h.g.a && h'.g.b == h.g.b && h'.g.z == h.g.z
    ensures Pair(h'.g.c, h'.g.d) == U16(Pair(h.g.c, h.g.d) + Pair(h.g.a, h.g.b))
  {
    hide At, Reaches, RegsAfter, PushAll, Pair, OnlyIn, Room, SavedAll, Add16, U16, Hi, Lo, Flags, Len, Size, Span;
    var sum := Add16(C, D, Rg(A), Rg(B));
    Split(code, h.pc, PushAll(), sum);
    var h1 := RunPushAll(code, h);
    RunPure(code, h1, sum);
    Add16Adds(h1.g, C, D, Rg(A), Rg(B));
    PairHiLo(U16(Pair(h.g.c, h.g.d) + Pair(h.g.a, h.g.b)));
    h' := h1.(g := RegsAfter(sum, h1.g), pc := h1.pc + 4);
    Chain(code, h, h1, h');
  }

  /**
   memset writes z to exactly the cd bytes from ab up, for every length; registers and stack
   pointer come back, and beyond that it writes five stack cells.
   */
  lemma MemsetRuns(code: Code, h: Core, loop: word, done: word) returns (h': Core)
    requires MemsetAt(code, h.pc, loop, done) && Called(h, 5)
    requires var dst, n := Pair(h.g.a, h.g.b), Pair(h.g.c, h.g.d);
      Given(h.ram, dst, n) && Span(dst, n) !! h.readOnly && Span(dst, n) !! Span(h.sp - 4, 7)
    ensures Reaches(code, h, h')
    ensures h'.pc == ReturnAddress(h) && h'.sp == h.sp + 2 && SameData(h.g, h'.g) && h'.readOnly == h.readOnly
    ensures OnlyIn(Span(h.sp - 4, 5), Fill(h.ram, Pair(h.g.a, h.g.b), Pair(h.g.c, h.g.d), h.g.z), h'.ram)
  {
    hide At, Reaches, MemsetHead, MemsetBody, LeaveAll, Pair, Room, Fill, SavedAll;
    var dst: int, n: nat := Pair(h.g.a, h.g.b), Pair(h.g.c, h.g.d);
    MemsetParts(code, h.pc, loop, done);
    var h1 := MemsetEnters(code, h);
    var h2 := MemsetLoop(code, h1, done, n);
    Chain(code, h, h1, h2);
    MemsetFrame(h, h1.ram, dst, n, h.g.z);
    StaySaved(Span(dst, n), h.g, h1.ram, h2.ram, h1.sp);
    h' := RunLeaveAll(code, h2, h.g);
    Chain(code, h, h2, h');
  }

  lemma MemsetFrame(h: Core, ram: map<word, byte>, dst: int, n: nat, v: byte)
    requires Given(h.ram, dst, n) && Span(dst, n) !! Span(h.sp - 4, 7) && OnlyIn(Span(h.sp - 4, 5), h.ram, ram)
    requires h.sp >= 5 && h.Readable(h.sp + 1) && h.Readable(h.sp + 2)
    ensures Given(ram, dst, n) && Span(h.sp - 4, 5) !! Span(dst, n)
    ensures var ram' := Fill(ram, dst, n, v);
      && OnlyIn(Span(dst, n), ram, ram') && OnlyIn(Span(h.sp - 4, 5), Fill(h.ram, dst, n, v), ram')
      && ram'[h.sp + 1] == h.ram[h.sp + 1] && ram'[h.sp + 2] == h.ram[h.sp + 2]
  {
    hide Fill;
    FillSets(ram, dst, n, v);
    assert Span(h.sp - 4, 5) <= Span(h.sp - 4, 7);
    FillElsewhere(Span(h.sp - 4, 5), h.ram, ram, dst, n, v);
    assert h.sp + 1 in Span(h.sp - 4, 7) && h.sp + 2 in Span(h.sp - 4, 7);
  }
}
