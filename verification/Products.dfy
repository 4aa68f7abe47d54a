/** os/lib/math.asm and os/lib/shift.asm: mul, mul16_8, shl and shl16 as machine programs. */
module Products {
  import opened Words
  import opened Isa
  import opened Core
  import opened Macros
  import opened Blocks
  import opened Multiply

  // ----- loops that count a register down to zero -----

  /** work; dec r; jnz r, [loop] */
  function Pass(work: Block, r: Reg, loop: word): (block: Block)
    ensures Len(block) == Len(work) + 8
  {
    Cat(work, Cat(Dec(r), JumpNonZero(r, loop)))
  }

  lemma RunPass(code: Code, h: Core, work: Block, r: Reg, loop: word) returns (h': Core)
    requires At(code, h.pc, Pass(work, r, loop)) && Pure(work) && r !in {F, H, L}
    ensures Reaches(code, h, h') && SameMemory(h, h')
    ensures var g := RegsAfter(work, h.g);
      && SameData(g.Set(r, U8(g.Get(r) - 1)), h'.g)
      && h'.pc == if U8(g.Get(r) - 1) != 0 then loop else h.pc + Len(work) + 8
  {
    hide At, Reaches, RegsAfter, Flags, U8, Dec, JumpNonZero, Len;
    Split(code, h.pc, work, Cat(Dec(r), JumpNonZero(r, loop)));
    Split(code, h.pc + Len(work), Dec(r), JumpNonZero(r, loop));
    RunPure(code, h, work);
    var h1 := h.(g := RegsAfter(work, h.g), pc := h.pc + Len(work));
    DecSubtracts(h1.g, r);
    RunPure(code, h1, Dec(r));
    var h2 := h1.(g := RegsAfter(Dec(r), h1.g), pc := h1.pc + 4);
    Chain(code, h, h1, h2);
    h' := RunJumpNonZero(code, h2, r, loop);
    Chain(code, h, h2, h');
  }

  /** push rs; setup; jz r, [done]; ready */
  function Head(rs: seq<Reg>, setup: Block, r: Reg, done: word, ready: Block): (block: Block)
    ensures Len(block) == |rs| + Len(setup) + 8 + Len(ready)
  {
    var test := Branch(Jz(r), done);
    assert Len(test) == 8;
    Cat(Pushes(rs), Cat(setup, Cat(test, ready)))
  }

  lemma RunHead(code: Code, h: Core, rs: seq<Reg>, setup: Block, r: Reg, done: word, ready: Block) returns (h': Core)
    requires At(code, h.pc, Head(rs, setup, r, done, ready)) && Pure(setup) && Pure(ready) && Room(h, |rs|)
    requires forall g :: SameData(g, RegsAfter(ready, g))
    requires done != h.pc + |rs| + Len(setup) + 8
    ensures Reaches(code, h, h') && h'.readOnly == h.readOnly && SameData(RegsAfter(setup, h.g), h'.g)
    ensures h'.sp == h.sp - |rs| && OnlyIn(Span(h.sp - |rs| + 1, |rs|), h.ram, h'.ram)
    ensures forall x: int | h.sp - |rs| < x <= h.sp :: x in h'.ram && h'.ram[x] == h.g.Get(rs[h.sp - x])
    ensures h'.pc == if RegsAfter(setup, h.g).Get(r) == 0 then done else h.pc + |rs| + Len(setup) + 8 + Len(ready)
  {
    hide At, Reaches, RegsAfter, Pushes, Branch, Jz, Tests, Room, OnlyIn, Len, Regs.Get;
    var test := Branch(Jz(r), done);
    Split(code, h.pc, Pushes(rs), Cat(setup, Cat(test, ready)));
    Split(code, h.pc + |rs|, setup, Cat(test, ready));
    Split(code, h.pc + |rs| + Len(setup), test, ready);
    var h1 := RunPushes(code, h, rs);
    RunPure(code, h1, setup);
    var h2 := h1.(g := RegsAfter(setup, h.g), pc := h1.pc + Len(setup));
    Chain(code, h, h1, h2);
    JzTest(h2.g, r);
    var zero := h2.g.Get(r) == 0;
    assert Len(Jz(r)) == 4 by { JzLen(r); }
    h' := RunBranch(code, h2, Jz(r), done, zero);
    Chain(code, h, h2, h');
    if !zero {
      var h3 := h';
      RunPure(code, h3, ready);
      h' := h3.(g := RegsAfter(ready, h3.g), pc := h3.pc + Len(ready));
      Chain(code, h, h3, h');
    }
  }

  lemma JzLen(r: Reg)
    ensures Len(Jz(r)) == 4
  {
  }

  lemma ReadyNop()
    ensures Pure(Nop) && Len(Nop) == 0 && forall g :: SameData(g, RegsAfter(Nop, g))
  {
  }

  lemma ReadyClb()
    ensures Pure(Clb()) && forall g :: SameData(g, RegsAfter(Clb(), g))
  {
    forall g: Regs
      ensures SameData(g, RegsAfter(Clb(), g))
    {
      ClbClears(g);
    }
  }

  // ----- mul -----

  /** mw c, b; mw b, a; mw a, 0 */
  function MulSetup(): (block: Block)
    ensures Len(block) == 6 && Pure(block)
  {
    Cat(One(MW(C, Rg(B))), Cat(One(MW(B, Rg(A))), One(MW(A, Imm(0)))))
  }

  lemma MulSets(g: Regs)
    ensures RegsAfter(MulSetup(), g) == g.(a := 0, b := g.a, c := g.b)
  {
    var i, j, k := MW(C, Rg(B)), MW(B, Rg(A)), MW(A, Imm(0));
    RegsOne(i, g);
    RegsOne(j, g.(c := g.b));
    RegsOne(k, g.(c := g.b, b := g.a));
    RegsCat(One(j), One(k), g.(c := g.b));
    RegsCat(One(i), Cat(One(j), One(k)), g);
  }

  function MulWork(): (block: Block)
    ensures Len(block) == 2 && Pure(block)
  {
    One(ALU(ADD, A, Rg(B)))
  }

  function Mul(entry: word, loop: word, done: word): seq<Part> {
    [Part(entry, Head([B, C], MulSetup(), C, done, Nop)), Part(loop, Pass(MulWork(), C, loop)), Part(done, Leave([C, B]))]
  }

  ghost predicate MulAt(code: Code, entry: word, loop: word, done: word) {
    loop == entry + 16 && done == loop + 10 && Placed(code, Mul(entry, loop, done))
  }

  /** The product of two bytes, kept to a byte. */
  function ProductByte(x: int, y: int): byte { (x * y) % 256 }

  /** What x added n times makes of acc, kept to a byte. */
  function PlusByte(acc: int, x: int, n: int): byte { (acc + x * n) % 256 }

  lemma PlusByteNone(acc: int, x: int)
    ensures PlusByte(acc, x, 0) == U8(acc)
  {
  }

  lemma PlusByteProduct(x: int, n: int)
    ensures PlusByte(0, x, n) == ProductByte(x, n)
  {
  }

  lemma PlusByteStep(acc: int, x: int, n: int)
    ensures PlusByte(U8(acc + x), x, n - 1) == PlusByte(acc, x, n)
  {
    var q := (acc + x) / 256;
    assert acc + x == 256 * q + (acc + x) % 256;
    assert acc + x * n == acc + x + x * (n - 1);
    ByteShift(U8(acc + x) + x * (n - 1), q);
  }

  lemma ByteShift(y: int, q: int)
    ensures (y + 256 * q) % 256 == y % 256
  {
  }

  lemma MulParts(code: Code, entry: word, loop: word, done: word)
    requires MulAt(code, entry, loop, done)
    ensures At(code, entry, Head([B, C], MulSetup(), C, done, Nop))
    ensures At(code, loop, Pass(MulWork(), C, loop)) && At(code, done, Leave([C, B]))
  {
    hide At, Head, Pass, Leave;
    var parts := Mul(entry, loop, done);
    assert parts[0] in parts && parts[1] in parts && parts[2] in parts;
  }

  lemma {:induction false} MulLoop(code: Code, h: Core) returns (h': Core)
    requires At(code, h.pc, Pass(MulWork(), C, h.pc)) && h.g.c > 0
    ensures Reaches(code, h, h') && SameMemory(h, h') && h'.pc == h.pc + 10
    ensures h'.g.a == PlusByte(h.g.a, h.g.b, h.g.c) && h'.g.d == h.g.d && h'.g.z == h.g.z
    decreases h.g.c
  {
    hide At, Reaches, Pass, RegsAfter, Flags, PlusByte;
    var acc: int, x: int, n: int := h.g.a, h.g.b, h.g.c;
    RegsOne(ALU(ADD, A, Rg(B)), h.g);
    assert OnRegs(ALU(ADD, A, Rg(B)), h.g) == h.g.(a := U8(acc + x), f := Flags(h.g.a, h.g.b));
    h' := RunPass(code, h, MulWork(), C, h.pc);
    PlusByteStep(acc, x, n);
    PlusByteNone(U8(acc + x), x);
    if n != 1 {
      var h1 := h';
      h' := MulLoop(code, h1);
      Chain(code, h, h1, h');
    }
  }

  lemma MulEnters(code: Code, h: Core, done: word) returns (h': Core)
    requires At(code, h.pc, Head([B, C], MulSetup(), C, done, Nop)) && Called(h, 2) && done != h.pc + 16
    ensures Reaches(code, h, h') && h'.readOnly == h.readOnly && SameData(h.g.(a := 0, b := h.g.a, c := h.g.b), h'.g)
    ensures h'.sp == h.sp - 2 && OnlyIn(Span(h.sp - 1, 2), h.ram, h'.ram)
    ensures h.sp in h'.ram && h'.ram[h.sp] == h.g.b && h.sp - 1 in h'.ram && h'.ram[h.sp - 1] == h.g.c
    ensures h.sp + 1 in h'.ram && h.sp + 2 in h'.ram && Pair(h'.ram[h.sp + 2], h'.ram[h.sp + 1]) == ReturnAddress(h)
    ensures h'.pc == if h.g.b == 0 then done else h.pc + 16
  {
    hide At, Reaches, RegsAfter, Head, MulSetup, Room;
    MulSets(h.g);
    ReadyNop();
    h' := RunHead(code, h, [B, C], MulSetup(), C, done, Nop);
    assert h.sp - 2 < h.sp - 1 <= h.sp;
  }

  /** mul returns a * b mod 256, for all operands; b, c, d, z and the stack pointer come back. */
  lemma MulRuns(code: Code, h: Core, loop: word, done: word) returns (h': Core)
    requires MulAt(code, h.pc, loop, done) && Called(h, 2)
    ensures Reaches(code, h, h') && h'.pc == ReturnAddress(h) && h'.sp == h.sp + 2 && h'.readOnly == h.readOnly
    ensures h'.g.a == ProductByte(h.g.a, h.g.b) && SameData(h.g.(a := h'.g.a), h'.g)
    ensures OnlyIn(Span(h.sp - 1, 2), h.ram, h'.ram)
  {
    hide At, Reaches, RegsAfter, Head, Pass, MulSetup, MulWork, Leave, Room, Pair, OnlyIn, PlusByte, ProductByte;
    MulParts(code, h.pc, loop, done);
    var h1 := MulEnters(code, h, done);
    var h2 := h1;
    if h.g.b != 0 {
      h2 := MulLoop(code, h1);
      Chain(code, h, h1, h2);
    }
    PlusByteNone(0, h.g.a);
    PlusByteProduct(h.g.a, h.g.b);
    assert h2.g.a == ProductByte(h.g.a, h.g.b);
    h' := RunLeave2(code, h2, C, B);
    Chain(code, h, h2, h');
  }

  // ----- mul16_8 -----

  /** mw d, a; mw z, b; mw a, 0; mw b, 0 */
  function Mul168Setup(): (block: Block)
    ensures Len(block) == 8 && Pure(block)
  {
    Cat(Cat(One(MW(D, Rg(A))), One(MW(Z, Rg(B)))), Cat(One(MW(A, Imm(0))), One(MW(B, Imm(0)))))
  }

  lemma Mul168Sets(g: Regs)
    ensures RegsAfter(Mul168Setup(), g) == g.(a := 0, b := 0, d := g.a, z := g.b)
  {
    hide RegsAfter;
    var i, j, k, l := MW(D, Rg(A)), MW(Z, Rg(B)), MW(A, Imm(0)), MW(B, Imm(0));
    var g2 := g.(d := g.a, z := g.b);
    RegsOne(i, g);
    RegsOne(j, g.(d := g.a));
    RegsCat(One(i), One(j), g);
    RegsOne(k, g2);
    RegsOne(l, g2.(a := 0));
    RegsCat(One(k), One(l), g2);
    RegsCat(Cat(One(i), One(j)), Cat(One(k), One(l)), g);
  }

  function Mul168(entry: word, loop: word, done: word): seq<Part> {
    [Part(entry, Head([C, D, Z], Mul168Setup(), C, done, Nop)),
     Part(loop, Pass(Add16(A, B, Rg(D), Rg(Z)), C, loop)), Part(done, Leave([Z, D, C]))]
  }

  ghost predicate Mul168At(code: Code, entry: word, loop: word, done: word) {
    loop == entry + 19 && done == loop + 12 && Placed(code, Mul168(entry, loop, done))
  }

  lemma Mul168Parts(code: Code, entry: word, loop: word, done: word)
    requires Mul168At(code, entry, loop, done)
    ensures At(code, entry, Head([C, D, Z], Mul168Setup(), C, done, Nop))
    ensures At(code, loop, Pass(Add16(A, B, Rg(D), Rg(Z)), C, loop)) && At(code, done, Leave([Z, D, C]))
  {
    hide At, Head, Pass, Leave;
    var parts := Mul168(entry, loop, done);
    assert parts[0] in parts && parts[1] in parts && parts[2] in parts;
  }

  /** One pass: the operand is added, and the count goes down. */
  lemma Mul168Once(code: Code, h: Core) returns (h': Core)
    requires At(code, h.pc, Pass(Add16(A, B, Rg(D), Rg(Z)), C, h.pc)) && h.g.c > 0
    ensures Reaches(code, h, h') && SameMemory(h, h') && h'.pc == if h.g.c == 1 then h.pc + 12 else h.pc
    ensures Pair(h'.g.a, h'.g.b) == U16(Pair(h.g.a, h.g.b) + Pair(h.g.d, h.g.z))
    ensures h'.g.c == h.g.c - 1 && h'.g.d == h.g.d && h'.g.z == h.g.z
  {
    hide At, Reaches, Pass, RegsAfter, Flags, Add16, Pair, Hi, Lo, U16;
    var acc: int, x: int := Pair(h.g.a, h.g.b), Pair(h.g.d, h.g.z);
    Add16Adds(h.g, A, B, Rg(D), Rg(Z));
    PairHiLo(U16(acc + x));
    h' := RunPass(code, h, Add16(A, B, Rg(D), Rg(Z)), C, h.pc);
  }

  lemma {:induction false} Mul168Loop(code: Code, h: Core) returns (h': Core)
    requires At(code, h.pc, Pass(Add16(A, B, Rg(D), Rg(Z)), C, h.pc)) && h.g.c > 0
    ensures Reaches(code, h, h') && SameMemory(h, h') && h'.pc == h.pc + 12
    ensures Pair(h'.g.a, h'.g.b) == Plus(Pair(h.g.a, h.g.b), Pair(h.g.d, h.g.z), h.g.c)
    decreases h.g.c
  {
    hide At, Reaches, Pass, Add16, Pair, U16, Plus;
    var acc: int, x: int, n: int := Pair(h.g.a, h.g.b), Pair(h.g.d, h.g.z), h.g.c;
    h' := Mul168Once(code, h);
    PlusStep(acc, x, n);
    if n == 1 {
      PlusNone(U16(acc + x), x);
      Narrow(acc + x);
    } else {
      var h1 := h';
      h' := Mul168Loop(code, h1);
      Chain(code, h, h1, h');
    }
  }

  lemma Narrow(x: int)
    ensures U16(x) == x % 65536 && U16(U16(x)) == U16(x)
  {
  }

  lemma CalledReads(h: Core, n: nat)
    requires Called(h, n)
    ensures h.Readable(h.sp + 1) && h.Readable(h.sp + 2)
  {
  }

  lemma PowerStep(n: nat)
    requires n > 0
    ensures Power2(n) == 2 * Power2(n - 1) && Power2(0) == 1
  {
  }

  lemma Mul168Enters(code: Code, h: Core, done: word) returns (h': Core)
    requires At(code, h.pc, Head([C, D, Z], Mul168Setup(), C, done, Nop)) && Called(h, 3) && done != h.pc + 19
    ensures Reaches(code, h, h') && h'.readOnly == h.readOnly && SameData(h.g.(a := 0, b := 0, d := h.g.a, z := h.g.b), h'.g)
    ensures h'.sp == h.sp - 3 && OnlyIn(Span(h.sp - 2, 3), h.ram, h'.ram)
    ensures h.sp in h'.ram && h'.ram[h.sp] == h.g.c && h.sp - 1 in h'.ram && h'.ram[h.sp - 1] == h.g.d
    ensures h.sp - 2 in h'.ram && h'.ram[h.sp - 2] == h.g.z
    ensures h.sp + 1 in h'.ram && h.sp + 2 in h'.ram && Pair(h'.ram[h.sp + 2], h'.ram[h.sp + 1]) == ReturnAddress(h)
    ensures h'.pc == if h.g.c == 0 then done else h.pc + 19
  {
    hide At, Reaches, RegsAfter, Head, Mul168Setup, Room;
    Mul168Sets(h.g);
    ReadyNop();
    h' := RunHead(code, h, [C, D, Z], Mul168Setup(), C, done, Nop);
    assert h.sp - 3 < h.sp - 2 <= h.sp && h.sp - 3 < h.sp - 1 <= h.sp;
  }

  lemma Mul168Middle(code: Code, h: Core, loop: word, done: word) returns (h': Core)
    requires At(code, loop, Pass(Add16(A, B, Rg(D), Rg(Z)), C, loop)) && done == loop + 12
    requires h.g.a == 0 && h.g.b == 0 && h.pc == if h.g.c == 0 then done else loop
    ensures Reaches(code, h, h') && SameMemory(h, h') && h'.pc == done
    ensures Pair(h'.g.a, h'.g.b) == Product(Pair(h.g.d, h.g.z), h.g.c)
  {
    hide At, Reaches, RegsAfter, Pass, Add16, Pair, Plus, Product;
    PairLow(0);
    PlusProduct(Pair(h.g.d, h.g.z), h.g.c);
    PlusNone(0, Pair(h.g.d, h.g.z));
    if h.g.c != 0 {
      h' := Mul168Loop(code, h);
    } else {
      Stay(code, h);
      h' := h;
    }
  }

  lemma SameIs(h: Core, h': Core)
    requires SameMemory(h, h')
    ensures h'.ram == h.ram && h'.sp == h.sp && h'.readOnly == h.readOnly
  {
  }

  /** Three registers come back, and control returns to the caller. */
  lemma RunLeave3(code: Code, h: Core, r: Reg, q: Reg, p: Reg) returns (h': Core)
    requires At(code, h.pc, Leave([r, q, p])) && r != q && q != p && r != p && F !in {r, q, p} && H !in {r, q, p} && L !in {r, q, p}
    requires forall x: int | h.sp < x <= h.sp + 5 :: x in h.ram
    ensures Reaches(code, h, h') && h'.ram == h.ram && h'.readOnly == h.readOnly
    ensures h'.sp == h.sp + 5 && h'.pc == Pair(h.ram[h.sp + 5], h.ram[h.sp + 4])
    ensures h'.g.Get(r) == h.ram[h.sp + 1] && h'.g.Get(q) == h.ram[h.sp + 2] && h'.g.Get(p) == h.ram[h.sp + 3]
    ensures forall x {:trigger h'.g.Get(x)} | x !in {r, q, p, F, H, L} :: h'.g.Get(x) == h.g.Get(x)
  {
    hide At, Reaches, Leave, Pair, Popped;
    Pop3(h.g, h.ram, h.sp, r, q, p);
    h' := RunLeave(code, h, [r, q, p]);
  }

  /** mul16_8 returns ab * c mod 65536, for all operands; c, d, z and the stack pointer come back. */
  lemma Mul168Runs(code: Code, h: Core, loop: word, done: word) returns (h': Core)
    requires Mul168At(code, h.pc, loop, done) && Called(h, 3)
    ensures Reaches(code, h, h') && h'.pc == ReturnAddress(h) && h'.sp == h.sp + 2 && h'.readOnly == h.readOnly
    ensures Pair(h'.g.a, h'.g.b) == Product(Pair(h.g.a, h.g.b), h.g.c)
    ensures h'.g.c == h.g.c && h'.g.d == h.g.d && h'.g.z == h.g.z
    ensures OnlyIn(Span(h.sp - 2, 3), h.ram, h'.ram)
  {
    hide At, Reaches, RegsAfter, Head, Pass, Mul168Setup, Add16, Leave, Called, Pair, Popped, OnlyIn, Span, ReturnAddress, Product, Len, Regs.Set, SameMemory;
    Mul168Parts(code, h.pc, loop, done);
    assert h.Readable(h.sp + 1) && h.Readable(h.sp + 2) by { CalledReads(h, 3); }
    var h1 := Mul168Enters(code, h, done);
    var h2 := Mul168Middle(code, h1, loop, done);
    Chain(code, h, h1, h2);
    assert h2.ram == h1.ram && h2.sp == h1.sp && h2.readOnly == h1.readOnly by { SameIs(h1, h2); }
    h' := RunLeave3(code, h2, Z, D, C);
    assert h'.g.Get(A) == h2.g.Get(A) && h'.g.Get(B) == h2.g.Get(B);
    assert h'.g.Get(Z) == h.g.z && h'.g.Get(D) == h.g.d && h'.g.Get(C) == h.g.c;
    Chain(code, h, h2, h');
  }

  // ----- shl and shl16 -----

  function Shl(entry: word, loop: word, done: word): seq<Part> {
    [Part(entry, Head([B], Nop, B, done, Clb())), Part(loop, Pass(One(ALU(ADD, A, Rg(A))), B, loop)), Part(done, Leave([B]))]
  }

  ghost predicate ShlAt(code: Code, entry: word, loop: word, done: word) {
    loop == entry + 11 && done == loop + 10 && Placed(code, Shl(entry, loop, done))
  }

  lemma ShlParts(code: Code, entry: word, loop: word, done: word)
    requires ShlAt(code, entry, loop, done)
    ensures At(code, entry, Head([B], Nop, B, done, Clb()))
    ensures At(code, loop, Pass(One(ALU(ADD, A, Rg(A))), B, loop)) && At(code, done, Leave([B]))
  {
    hide At, Head, Pass, Leave;
    var parts := Shl(entry, loop, done);
    assert parts[0] in parts && parts[1] in parts && parts[2] in parts;
  }

  lemma DoubleStep(a: int, p: int)
    ensures (U8(a + a) * p) % 256 == (a * (2 * p)) % 256
  {
    var q := (a + a) / 256;
    assert a + a == 256 * q + (a + a) % 256;
    assert a * (2 * p) == (a + a) * p;
    assert (256 * q + U8(a + a)) * p == 256 * (q * p) + U8(a + a) * p;
    ByteShift(U8(a + a) * p, q * p);
  }

  lemma {:induction false} ShlLoop(code: Code, h: Core) returns (h': Core)
    requires At(code, h.pc, Pass(One(ALU(ADD, A, Rg(A))), B, h.pc)) && h.g.b > 0
    ensures Reaches(code, h, h') && SameMemory(h, h') && h'.pc == h.pc + 10
    ensures h'.g.a == (h.g.a * Power2(h.g.b)) % 256 && h'.g.c == h.g.c && h'.g.d == h.g.d && h'.g.z == h.g.z
    decreases h.g.b
  {
    hide At, Reaches, Pass, RegsAfter, Flags;
    var a: int, n: nat := h.g.a, h.g.b;
    RegsOne(ALU(ADD, A, Rg(A)), h.g);
    assert OnRegs(ALU(ADD, A, Rg(A)), h.g) == h.g.(a := U8(a + a), f := Flags(h.g.a, h.g.a));
    h' := RunPass(code, h, One(ALU(ADD, A, Rg(A))), B, h.pc);
    DoubleStep(a, Power2(n - 1));
    if n == 1 {
      assert Power2(1) == 2 && Power2(0) == 1;
    } else {
      var h1 := h';
      h' := ShlLoop(code, h1);
      Chain(code, h, h1, h');
    }
  }

  lemma ShlEnters(code: Code, h: Core, done: word) returns (h': Core)
    requires At(code, h.pc, Head([B], Nop, B, done, Clb())) && Room(h, 1) && done != h.pc + 9
    ensures Reaches(code, h, h') && h'.readOnly == h.readOnly && SameData(h.g, h'.g)
    ensures h'.sp == h.sp - 1 && OnlyIn(Span(h.sp, 1), h.ram, h'.ram) && h.sp in h'.ram && h'.ram[h.sp] == h.g.b
    ensures h'.pc == if h.g.b == 0 then done else h.pc + 11
  {
    hide At, Reaches, Head, Room, OnlyIn, Span;
    ReadyNop();
    ReadyClb();
    h' := RunHead(code, h, [B], Nop, B, done, Clb());
  }

  lemma Pop1(g: Regs, ram: map<word, byte>, sp: int, r: Reg)
    requires sp + 1 in ram
    ensures forall x: int | sp < x <= sp + |[r]| :: x in ram
    ensures Popped(g, ram, sp, [r]) == g.Set(r, ram[sp + 1])
  {
    assert [r][1..] == [];
  }

  /** shl returns a * 2^b mod 256, for every operand and count; b, c, d, z and the stack pointer come back. */
  lemma ShlRuns(code: Code, h: Core, loop: word, done: word) returns (h': Core)
    requires ShlAt(code, h.pc, loop, done) && Called(h, 1)
    ensures Reaches(code, h, h') && h'.pc == ReturnAddress(h) && h'.sp == h.sp + 2 && h'.readOnly == h.readOnly
    ensures h'.g.a == (h.g.a * Power2(h.g.b)) % 256 && SameData(h.g.(a := h'.g.a), h'.g)
    ensures OnlyIn(Span(h.sp, 1), h.ram, h'.ram)
  {
    hide At, Reaches, Head, Pass, Leave, Room, Pair, Popped;
    ShlParts(code, h.pc, loop, done);
    var h1 := ShlEnters(code, h, done);
    var h2 := h1;
    if h.g.b != 0 {
      h2 := ShlLoop(code, h1);
      Chain(code, h, h1, h2);
    } else {
      assert Power2(0) == 1;
    }
    Pop1(h2.g, h2.ram, h2.sp, B);
    h' := RunLeave(code, h2, [B]);
    Chain(code, h, h2, h');
  }

  function Shl16(entry: word, loop: word, done: word): seq<Part> {
    [Part(entry, Head([C], Nop, C, done, Clb())), Part(loop, Pass(Add16(A, B, Rg(A), Rg(B)), C, loop)), Part(done, Leave([C]))]
  }

  ghost predicate Shl16At(code: Code, entry: word, loop: word, done: word) {
    loop == entry + 11 && done == loop + 12 && Placed(code, Shl16(entry, loop, done))
  }

  lemma Shl16Parts(code: Code, entry: word, loop: word, done: word)
    requires Shl16At(code, entry, loop, done)
    ensures At(code, entry, Head([C], Nop, C, done, Clb()))
    ensures At(code, loop, Pass(Add16(A, B, Rg(A), Rg(B)), C, loop)) && At(code, done, Leave([C]))
  {
    hide At, Head, Pass, Leave;
    var parts := Shl16(entry, loop, done);
    assert parts[0] in parts && parts[1] in parts && parts[2] in parts;
  }

  lemma WordTwice(x: int)
    ensures U16(x + x) == (x * 2) % 65536 && 0 <= U16(x + x) < 65536
  {
  }

  lemma DoubleStep16(a: int, p: int)
    ensures (U16(a + a) * p) % 65536 == (a * (2 * p)) % 65536
  {
    var q := (a + a) / 65536;
    assert a + a == 65536 * q + (a + a) % 65536;
    assert a * (2 * p) == (a + a) * p;
    assert (65536 * q + U16(a + a)) * p == 65536 * (q * p) + U16(a + a) * p;
    ModShift(U16(a + a) * p, q * p);
  }

  lemma {:induction false} Shl16Loop(code: Code, h: Core) returns (h': Core)
    requires At(code, h.pc, Pass(Add16(A, B, Rg(A), Rg(B)), C, h.pc)) && h.g.c > 0
    ensures Reaches(code, h, h') && SameMemory(h, h') && h'.pc == h.pc + 12
    ensures Pair(h'.g.a, h'.g.b) == (Pair(h.g.a, h.g.b) * Power2(h.g.c)) % 65536 && h'.g.d == h.g.d && h'.g.z == h.g.z
    decreases h.g.c
  {
    hide At, Reaches, Pass, RegsAfter, Flags, Add16, Pair, Hi, Lo, U16, Power2;
    var ab: int, n: nat := Pair(h.g.a, h.g.b), h.g.c;
    PowerStep(n);
    Add16Adds(h.g, A, B, Rg(A), Rg(B));
    PairHiLo(U16(ab + ab));
    h' := RunPass(code, h, Add16(A, B, Rg(A), Rg(B)), C, h.pc);
    DoubleStep16(ab, Power2(n - 1));
    if n == 1 {
      Narrow(ab + ab);
      WordTwice(ab);
    } else {
      var h1 := h';
      h' := Shl16Loop(code, h1);
      Chain(code, h, h1, h');
    }
  }

  lemma Shl16Enters(code: Code, h: Core, done: word) returns (h': Core)
    requires At(code, h.pc, Head([C], Nop, C, done, Clb())) && Room(h, 1) && done != h.pc + 9
    ensures Reaches(code, h, h') && h'.readOnly == h.readOnly && SameData(h.g, h'.g)
    ensures h'.sp == h.sp - 1 && OnlyIn(Span(h.sp, 1), h.ram, h'.ram) && h.sp in h'.ram && h'.ram[h.sp] == h.g.c
    ensures h'.pc == if h.g.c == 0 then done else h.pc + 11
  {
    hide At, Reaches, Head, Room, OnlyIn, Span;
    ReadyNop();
    ReadyClb();
    h' := RunHead(code, h, [C], Nop, C, done, Clb());
  }

  /** shl16 returns ab * 2^c mod 65536, for every operand and count; c, d, z and the stack pointer come back. */
  lemma Shl16Runs(code: Code, h: Core, loop: word, done: word) returns (h': Core)
    requires Shl16At(code, h.pc, loop, done) && Called(h, 1)
    ensures Reaches(code, h, h') && h'.pc == ReturnAddress(h) && h'.sp == h.sp + 2 && h'.readOnly == h.readOnly
    ensures Pair(h'.g.a, h'.g.b) == (Pair(h.g.a, h.g.b) * Power2(h.g.c)) % 65536
    ensures h'.g.c == h.g.c && h'.g.d == h.g.d && h'.g.z == h.g.z
    ensures OnlyIn(Span(h.sp, 1), h.ram, h'.ram)
  {
    hide At, Reaches, Head, Pass, Leave, Room, Pair, Popped;
    Shl16Parts(code, h.pc, loop, done);
    var h1 := Shl16Enters(code, h, done);
    var h2 := h1;
    if h.g.c != 0 {
      h2 := Shl16Loop(code, h1);
      Chain(code, h, h1, h2);
    } else {
      assert Power2(0) == 1;
    }
    Pop1(h2.g, h2.ram, h2.sp, C);
    h' := RunLeave(code, h2, [C]);
    Chain(code, h, h2, h');
  }
}
