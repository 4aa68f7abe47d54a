/** os/lib/util.asm: strlen as a machine program. */
module Measuring {
  import opened Words
  import opened Isa
  import opened Core
  import opened Macros
  import opened Blocks

  /** n characters lie from a up, none of them zero, and then a zero. */
  predicate StringAt(ram: map<word, byte>, a: int, n: nat) {
    && 0 <= a && a + n < 65536
    && (forall x: int | a <= x < a + n :: x in ram && ram[x] != 0)
    && a + n in ram && ram[a + n] == 0
  }

  function StrlenHead(): (block: Block)
    ensures Len(block) == 5
  {
    Cat(Pushes([A, B, C]), One(MW(Z, Imm(0))))
  }

  /** lw c, a, b; jeq c, 0, [.done] */
  function Look(done: word): (block: Block)
    ensures Len(block) == 13
  {
    var test := Branch(Jz(C), done);
    assert Len(test) == 8;
    Cat(LwAt(C, A, B), test)
  }

  /** add16 a, b, 1; add z, 1 */
  function Tally(): (block: Block)
    ensures Len(block) == 6 && Pure(block)
  {
    Cat(Add16(A, B, Imm(0), Imm(1)), One(ALU(ADD, Z, Imm(1))))
  }

  function Onward(loop: word): (block: Block)
    ensures Len(block) == 11
  {
    Cat(Tally(), Goto(loop))
  }

  function Strlen(entry: word, loop: word, done: word): seq<Part> {
    [Part(entry, StrlenHead()), Part(loop, Cat(Look(done), Onward(loop))), Part(done, Leave([C, B, A]))]
  }

  ghost predicate StrlenAt(code: Code, entry: word, loop: word, done: word) {
    loop == entry + 5 && done == loop + 24 && Placed(code, Strlen(entry, loop, done))
  }

  lemma StrlenParts(code: Code, entry: word, loop: word, done: word)
    requires StrlenAt(code, entry, loop, done)
    ensures At(code, entry, StrlenHead()) && At(code, loop, Look(done)) && At(code, loop + 13, Onward(loop))
    ensures At(code, done, Leave([C, B, A]))
  {
    hide At, StrlenHead, Look, Onward, Leave;
    var parts := Strlen(entry, loop, done);
    assert parts[0] in parts && parts[1] in parts && parts[2] in parts;
    Split(code, loop, Look(done), Onward(loop));
  }

  lemma RunLook(code: Code, h: Core, done: word) returns (h': Core)
    requires At(code, h.pc, Look(done)) && h.Readable(Pair(h.g.a, h.g.b))
    ensures Reaches(code, h, h') && SameMemory(h, h')
    ensures h'.g.a == h.g.a && h'.g.b == h.g.b && h'.g.d == h.g.d && h'.g.z == h.g.z
    ensures h'.pc == if h.ram[Pair(h.g.a, h.g.b)] == 0 then done else h.pc + 13
  {
    hide At, Reaches, LwAt, Branch, Jz, Tests, Pair, Len;
    Split(code, h.pc, LwAt(C, A, B), Branch(Jz(C), done));
    var h1 := RunLwAt(code, h, C, A, B);
    JzTest(h1.g, C);
    assert Len(Jz(C)) == 4 by { TestLen(); }
    h' := RunBranch(code, h1, Jz(C), done, h1.g.c == 0);
    Chain(code, h, h1, h');
  }

  lemma TestLen()
    ensures Len(Jz(C)) == 4
  {
  }

  lemma Counts(g: Regs) returns (g': Regs)
    ensures g' == RegsAfter(Tally(), g)
    ensures Pair(g'.a, g'.b) == U16(Pair(g.a, g.b) + 1) && g'.z == U8(g.z + 1) && g'.d == g.d
  {
    hide RegsAfter, Add16, Pair, U16, Hi, Lo, Flags, U8;
    var up, i := Add16(A, B, Imm(0), Imm(1)), ALU(ADD, Z, Imm(1));
    RegsCat(up, One(i), g);
    Add16Adds(g, A, B, Imm(0), Imm(1));
    PairLow(1);
    PairHiLo(U16(Pair(g.a, g.b) + 1));
    RegsOne(i, RegsAfter(up, g));
    g' := OnRegs(i, RegsAfter(up, g));
  }

  lemma RunOnward(code: Code, h: Core, loop: word) returns (h': Core)
    requires At(code, h.pc, Onward(loop))
    ensures Reaches(code, h, h') && SameMemory(h, h') && h'.pc == loop && h'.g.d == h.g.d
    ensures Pair(h'.g.a, h'.g.b) == U16(Pair(h.g.a, h.g.b) + 1) && h'.g.z == U8(h.g.z + 1)
  {
    hide At, Reaches, RegsAfter, Tally, Goto, Pair, U16, U8, Len;
    Split(code, h.pc, Tally(), Goto(loop));
    RunPure(code, h, Tally());
    var g1 := Counts(h.g);
    var h1 := h.(g := g1, pc := h.pc + 6);
    h' := RunGoto(code, h1, loop);
    Chain(code, h, h1, h');
  }

  lemma {:induction false} StrlenLoop(code: Code, h: Core, done: word, n: nat) returns (h': Core)
    requires At(code, h.pc, Look(done)) && h.pc + 13 < 65536 && At(code, h.pc + 13, Onward(h.pc))
    requires StringAt(h.ram, Pair(h.g.a, h.g.b), n)
    ensures Reaches(code, h, h') && SameMemory(h, h') && h'.pc == done && h'.g.d == h.g.d
    ensures h'.g.z == (h.g.z + n) % 256
    decreases n
  {
    hide At, Reaches, Look, Onward, Pair;
    var h1 := RunLook(code, h, done);
    h' := h1;
    if n != 0 {
      var h2 := RunOnward(code, h1, h.pc);
      Chain(code, h, h1, h2);
      h' := StrlenLoop(code, h2, done, n - 1);
      Chain(code, h, h2, h');
      Wraps(h.g.z, n);
    }
  }

  lemma Wraps(z: byte, n: nat)
    requires n > 0
    ensures (U8(z + 1) + (n - 1)) % 256 == (z + n) % 256
  {
  }

  lemma StrlenEnters(code: Code, h: Core) returns (h': Core)
    requires At(code, h.pc, StrlenHead()) && Called(h, 3)
    ensures Reaches(code, h, h') && h'.readOnly == h.readOnly && h'.pc == h.pc + 5 && h'.g == h.g.(z := 0)
    ensures h'.sp == h.sp - 3 && OnlyIn(Span(h.sp - 2, 3), h.ram, h'.ram)
    ensures h.sp in h'.ram && h'.ram[h.sp] == h.g.a && h.sp - 1 in h'.ram && h'.ram[h.sp - 1] == h.g.b
    ensures h.sp - 2 in h'.ram && h'.ram[h.sp - 2] == h.g.c
  {
    hide At, Reaches, Pushes, Room, OnlyIn;
    Split(code, h.pc, Pushes([A, B, C]), One(MW(Z, Imm(0))));
    var h1 := RunPushes(code, h, [A, B, C]);
    RunOne(code, h1, MW(Z, Imm(0)));
    h' := After(MW(Z, Imm(0)), h1);
    Chain(code, h, h1, h');
    assert h.sp - 3 < h.sp - 2 <= h.sp && h.sp - 3 < h.sp - 1 <= h.sp;
  }

  /**
   strlen counts the characters before the first zero, modulo 256, for every string clear of
   the stack; a, b, c, d and the stack pointer come back, and three stack cells are written.
   */
  lemma StrlenRuns(code: Code, h: Core, loop: word, done: word, n: nat) returns (h': Core)
    requires StrlenAt(code, h.pc, loop, done) && Called(h, 3)
    requires StringAt(h.ram, Pair(h.g.a, h.g.b), n) && Span(Pair(h.g.a, h.g.b), n + 1) !! Span(h.sp - 2, 3)
    ensures Reaches(code, h, h') && h'.pc == ReturnAddress(h) && h'.sp == h.sp + 2 && h'.readOnly == h.readOnly
    ensures h'.g.z == n % 256 && SameData(h.g.(z := h'.g.z), h'.g)
    ensures OnlyIn(Span(h.sp - 2, 3), h.ram, h'.ram)
  {
    hide At, Reaches, StrlenHead, Look, Onward, Leave, Pair, Room, Popped;
    StrlenParts(code, h.pc, loop, done);
    var h1 := StrlenEnters(code, h);
    StringStays(h.ram, h1.ram, Pair(h.g.a, h.g.b), n, h.sp);
    var h2 := StrlenLoop(code, h1, done, n);
    Chain(code, h, h1, h2);
    Pop3(h2.g, h2.ram, h2.sp, C, B, A);
    h' := RunLeave(code, h2, [C, B, A]);
    Chain(code, h, h2, h');
  }

  lemma StringStays(ram: map<word, byte>, ram': map<word, byte>, a: int, n: nat, sp: int)
    requires StringAt(ram, a, n) && Span(a, n + 1) !! Span(sp - 2, 3) && OnlyIn(Span(sp - 2, 3), ram, ram')
    ensures StringAt(ram', a, n)
  {
    assert a + n in Span(a, n + 1);
    forall x: int | a <= x < a + n
      ensures x in ram' && ram'[x] != 0
    {
      assert x in Span(a, n + 1);
    }
  }
}
