/** os/lib/math.asm: the multiplication loops as machine programs. */
module Multiply {
  import opened Words
  import opened Isa
  import opened Core
  import opened Macros
  import opened Blocks

  // ----- mul16 -----

  /** add16 a, b, z, f; dec16 c, d; eq16 c, d, 0 */
  function Mul16Work(): (block: Block)
    ensures Len(block) == 20 && Pure(block)
  {
    Cat(Add16(A, B, Rg(Z), Rg(F)), Cat(Dec16(C, D), Eq16(C, D, Imm(0), Imm(0))))
  }

  function Mul16Body(loop: word, d0: word): (block: Block)
    ensures Len(block) == 34
  {
    Cat(Lw16(Z, F, d0), Cat(Mul16Work(), Branch(JneFlag(), loop)))
  }

  lemma Mul16Adds(g: Regs) returns (g': Regs)
    ensures g' == RegsAfter(Mul16Work(), g)
    ensures Pair(g'.a, g'.b) == U16(Pair(g.a, g.b) + Pair(g.z, g.f))
    ensures Pair(g'.c, g'.d) == U16(Pair(g.c, g.d) - 1)
    ensures g'.f == EqualFlag(Pair(g'.c, g'.d) == 0)
  {
    hide RegsAfter, Flags, U16, Add16, Dec16, Eq16, Hi, Lo, Pair, Alu, OnRegs, Bit, EqualFlag, Len, Computes, Size;
    var add, dec, eq := Add16(A, B, Rg(Z), Rg(F)), Dec16(C, D), Eq16(C, D, Imm(0), Imm(0));
    Add16Adds(g, A, B, Rg(Z), Rg(F));
    var g1 := RegsAfter(add, g);
    Dec16Subtracts(g1, C, D);
    var g2 := RegsAfter(dec, g1);
    Eq16Compares(g2, C, D, Imm(0), Imm(0));
    g' := RegsAfter(eq, g2);
    RegsCat(dec, eq, g1);
    RegsCat(add, Cat(dec, eq), g);
    PairHiLo(U16(Pair(g.a, g.b) + Pair(g.z, g.f)));
    PairHiLo(U16(Pair(g.c, g.d) - 1));
    PairLow(0);
    PairLow(1);
  }

  /** One pass of the loop: ab gains the word at D0, cd loses one, and the loop ends when cd is zero. */
  lemma Mul16Once(code: Code, h: Core, d0: word) returns (h': Core)
    requires At(code, h.pc, Mul16Body(h.pc, d0)) && h.Readable(d0) && h.Readable(d0 + 1)
    ensures Reaches(code, h, h') && SameMemory(h, h')
    ensures
      var x := Pair(h.ram[d0 + 1], h.ram[d0]);
      var n := U16(Pair(h.g.c, h.g.d) - 1);
      && Pair(h'.g.a, h'.g.b) == U16(Pair(h.g.a, h.g.b) + x)
      && Pair(h'.g.c, h'.g.d) == n
      && h'.pc == if n != 0 then h.pc else h.pc + 34
  {
    hide At, Reaches, RegsAfter, Flags, U16, Tests, Len, Branch, Mul16Work, Lw16, Pair, JneFlag;
    var loop := h.pc;
    var jump := Branch(JneFlag(), loop);
    Split(code, h.pc, Lw16(Z, F, d0), Cat(Mul16Work(), jump));
    Split(code, h.pc + 6, Mul16Work(), jump);
    RunLw16(code, h, Z, F, d0);
    var h1 := h.(g := h.g.(f := h.ram[d0], z := h.ram[d0 + 1]), pc := h.pc + 6);
    RunPure(code, h1, Mul16Work());
    var g2 := Mul16Adds(h1.g);
    var h2 := h1.(g := g2, pc := h.pc + 26);
    Chain(code, h, h1, h2);
    FlagTests(g2, Pair(g2.c, g2.d) == 0);
    h' := RunBranch(code, h2, JneFlag(), loop, Pair(g2.c, g2.d) != 0);
    Chain(code, h, h2, h');
  }

  /** The product of two words, kept to 16 bits. */
  function Product(x: int, y: int): word { (x * y) % 65536 }

  /** What x added n times makes of acc, kept to 16 bits. */
  function Plus(acc: int, x: int, n: int): word { (acc + x * n) % 65536 }

  lemma PlusNone(acc: int, x: int)
    ensures Plus(acc, x, 0) == U16(acc)
  {
  }

  lemma PlusProduct(x: int, n: int)
    ensures Plus(0, x, n) == Product(x, n)
  {
  }

  lemma PlusStep(acc: int, x: int, n: int)
    ensures Plus(U16(acc + x), x, n - 1) == Plus(acc, x, n)
  {
    var q := (acc + x) / 65536;
    assert acc + x == 65536 * q + (acc + x) % 65536;
    assert acc + x * n == acc + x + x * (n - 1);
    ModShift(U16(acc + x) + x * (n - 1), q);
  }

  lemma ModShift(y: int, q: int)
    ensures (y + 65536 * q) % 65536 == y % 65536
  {
  }

  /** The loop adds the word at D0 once for every unit of cd. */
  lemma {:induction false} Mul16Loop(code: Code, h: Core, d0: word) returns (h': Core)
    requires At(code, h.pc, Mul16Body(h.pc, d0)) && h.Readable(d0) && h.Readable(d0 + 1)
    requires Pair(h.g.c, h.g.d) > 0
    ensures Reaches(code, h, h') && SameMemory(h, h') && h'.pc == h.pc + 34
    ensures Pair(h'.g.a, h'.g.b) == Plus(Pair(h.g.a, h.g.b), Pair(h.ram[d0 + 1], h.ram[d0]), Pair(h.g.c, h.g.d))
    decreases Pair(h.g.c, h.g.d)
  {
    hide At, Reaches, Pair, Mul16Body, Plus;
    var acc: int, x: int, n: int := Pair(h.g.a, h.g.b), Pair(h.ram[d0 + 1], h.ram[d0]), Pair(h.g.c, h.g.d);
    h' := Mul16Once(code, h, d0);
    PlusStep(acc, x, n);
    PlusNone(U16(acc + x), x);
    if n != 1 {
      var h1 := h';
      h' := Mul16Loop(code, h1, d0);
      Chain(code, h, h1, h');
    }
  }

  /** sw16 [D0], a, b; mw16 a, b, 0 */
  function Mul16Setup(d0: word): (block: Block)
    ensures Len(block) == 10
  {
    Cat(Sw16(d0, A, B), Cat(One(MW(A, Imm(0))), One(MW(B, Imm(0)))))
  }

  function Mul16Head(done: word, d0: word): (block: Block)
    ensures Len(block) == 29
  {
    var rest := Cat(Branch(JeqFlag(), done), Mul16Setup(d0));
    assert Len(rest) == 16;
    Cat(Pushes([C, D, Z]), Cat(Eq16(C, D, Imm(0), Imm(0)), rest))
  }

  lemma Mul16Starts(code: Code, h: Core, d0: word)
    requires At(code, h.pc, Mul16Setup(d0)) && h.Writable(d0) && h.Writable(d0 + 1)
    ensures Reaches(code, h, h.(
      g := h.g.(a := 0, b := 0), ram := h.ram[d0 := h.g.b][d0 + 1 := h.g.a], pc := h.pc + 10))
  {
    hide At, Reaches, RegsAfter, Sw16;
    var clear := Cat(One(MW(A, Imm(0))), One(MW(B, Imm(0))));
    Split(code, h.pc, Sw16(d0, A, B), clear);
    RunSw16(code, h, d0, A, B);
    var h1 := h.(ram := h.ram[d0 := h.g.b][d0 + 1 := h.g.a], pc := h.pc + 6);
    RunPure(code, h1, clear);
    assert Len(clear) == 4 by { RegsOne(MW(A, Imm(0)), h1.g); }
    RegsCat(One(MW(A, Imm(0))), One(MW(B, Imm(0))), h1.g);
    RegsOne(MW(A, Imm(0)), h1.g);
    RegsOne(MW(B, Imm(0)), h1.g.(a := 0));
    Chain(code, h, h1, h1.(g := h1.g.(a := 0, b := 0), pc := h.pc + 10));
  }

  function Mul16(entry: word, loop: word, done: word, d0: word): seq<Part> {
    [Part(entry, Mul16Head(done, d0)), Part(loop, Mul16Body(loop, d0)), Part(done, Leave([Z, D, C]))]
  }

  ghost predicate Mul16At(code: Code, entry: word, loop: word, done: word, d0: word) {
    loop == entry + 29 && done == loop + 34 && Placed(code, Mul16(entry, loop, done, d0))
  }

  lemma Mul16Parts(code: Code, entry: word, loop: word, done: word, d0: word)
    requires Mul16At(code, entry, loop, done, d0)
    ensures At(code, entry, Mul16Head(done, d0)) && At(code, loop, Mul16Body(loop, d0)) && At(code, done, Leave([Z, D, C]))
  {
    hide At, Mul16Head, Mul16Body, Leave;
    var parts := Mul16(entry, loop, done, d0);
    assert parts[0] in parts && parts[1] in parts && parts[2] in parts;
  }

  /** Registers saved, and a jump straight to the end when cd is zero. */
  lemma Mul16Enters(code: Code, h: Core, done: word, d0: word) returns (h': Core)
    requires At(code, h.pc, Mul16Head(done, d0)) && Room(h, 3)
    ensures Reaches(code, h, h') && SameData(h.g, h'.g) && h'.readOnly == h.readOnly
    ensures h'.sp == h.sp - 3 && OnlyIn(Span(h.sp - 2, 3), h.ram, h'.ram)
    ensures h.sp in h'.ram && h'.ram[h.sp] == h.g.c
    ensures h.sp - 1 in h'.ram && h'.ram[h.sp - 1] == h.g.d
    ensures h.sp - 2 in h'.ram && h'.ram[h.sp - 2] == h.g.z
    ensures h'.pc == if Pair(h.g.c, h.g.d) == 0 then done else h.pc + 19
    ensures h'.pc != done ==> At(code, h'.pc, Mul16Setup(d0))
  {
    hide At, Reaches, RegsAfter, Len, Eq16, Branch, Pushes, Mul16Setup, Tests, Flags, Pair, OnlyIn;
    var test, jump := Eq16(C, D, Imm(0), Imm(0)), Branch(JeqFlag(), done);
    Split(code, h.pc, Pushes([C, D, Z]), Cat(test, Cat(jump, Mul16Setup(d0))));
    Split(code, h.pc + 3, test, Cat(jump, Mul16Setup(d0)));
    Split(code, h.pc + 13, jump, Mul16Setup(d0));
    var h1 := RunPushes(code, h, [C, D, Z]);
    RunPure(code, h1, test);
    Eq16Compares(h1.g, C, D, Imm(0), Imm(0));
    var h2 := h1.(g := RegsAfter(test, h1.g), pc := h1.pc + 10);
    Chain(code, h, h1, h2);
    PairLow(0);
    var zero := Pair(h.g.c, h.g.d) == 0;
    FlagTests(h2.g, zero);
    h' := RunBranch(code, h2, JeqFlag(), done, zero);
    Chain(code, h, h2, h');
  }

  /**
   mul16 returns ab * cd mod 65536 for every cd but zero, and ab itself when cd is zero.
   It gives back c, d, z and the stack pointer, and writes D0 and three stack cells only.
   */
  lemma Mul16Runs(code: Code, h: Core, loop: word, done: word, d0: word) returns (h': Core)
    requires Mul16At(code, h.pc, loop, done, d0)
    requires Called(h, 3) && h.Writable(d0) && h.Writable(d0 + 1)
    requires d0 + 1 <= h.sp - 3 || h.sp + 2 < d0
    ensures Reaches(code, h, h')
    ensures h'.pc == ReturnAddress(h) && h'.sp == h.sp + 2
    ensures h'.g.c == h.g.c && h'.g.d == h.g.d && h'.g.z == h.g.z
    ensures
      var ab, cd := Pair(h.g.a, h.g.b), Pair(h.g.c, h.g.d);
      Pair(h'.g.a, h'.g.b) == if cd == 0 then ab else Product(ab, cd)
    ensures h'.readOnly == h.readOnly && OnlyIn(Span(d0, 2) + Span(h.sp - 2, 3), h.ram, h'.ram)
  {
    hide At, Reaches, RegsAfter, Len, Mul16Head, Mul16Setup, Mul16Body, Leave, Popped, Pair, Room, Plus, Product;
    Mul16Parts(code, h.pc, loop, done, d0);
    var h3 := Mul16Enters(code, h, done, d0);
    var h4 := h3;
    if h3.pc != done {
      Mul16Starts(code, h3, d0);
      var h5 := h3.(g := h3.g.(a := 0, b := 0), ram := h3.ram[d0 := h3.g.b][d0 + 1 := h3.g.a], pc := h3.pc + 10);
      Chain(code, h, h3, h5);
      PairLow(0);
      h4 := Mul16Loop(code, h5, d0);
      PlusProduct(Pair(h.g.a, h.g.b), Pair(h.g.c, h.g.d));
      Chain(code, h, h5, h4);
    }
    Pop3(h4.g, h4.ram, h4.sp, Z, D, C);
    h' := RunLeave(code, h4, [Z, D, C]);
    Chain(code, h, h4, h');
  }
}
