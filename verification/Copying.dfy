/** os/lib/util.asm: memcpy, memcpy16 and memset as machine programs. */
module Copying {
  import opened Words
  import opened Isa
  import opened Core
  import opened Macros
  import opened Blocks

  // ----- what a copy is -----

  /** All n cells from lo up have been given to the routine. */
  predicate Given(ram: map<word, byte>, lo: int, n: nat) {
    0 <= lo && lo + n <= 65536 && forall x: int | lo <= x < lo + n :: x in ram
  }

  /** Bytes move one at a time, from the lowest address up, whatever the overlap. */
  function Copy(ram: map<word, byte>, dst: int, src: int, n: nat): (ram': map<word, byte>)
    requires Given(ram, dst, n) && Given(ram, src, n)
    ensures ram'.Keys == ram.Keys
    decreases n
  {
    if n == 0 then ram else Copy(ram[dst := ram[src]], dst + 1, src + 1, n - 1)
  }

  lemma GivenPart(ram: map<word, byte>, lo: int, n: nat, lo': int, n': nat)
    requires Given(ram, lo, n) && lo <= lo' && lo' + n' <= lo + n
    ensures Given(ram, lo', n')
  {
  }

  /** The first byte of a copy, and the rest of it. */
  lemma CopyFirst(ram: map<word, byte>, dst: int, src: int, n: nat) returns (ram1: map<word, byte>)
    requires Given(ram, dst, n) && Given(ram, src, n) && n > 0
    ensures dst in ram && src in ram && ram1 == ram[dst := ram[src]] && ram1.Keys == ram.Keys
    ensures Given(ram1, dst + 1, n - 1) && Given(ram1, src + 1, n - 1)
    ensures Copy(ram, dst, src, n) == Copy(ram1, dst + 1, src + 1, n - 1)
  {
    ram1 := ram[dst := ram[src]];
  }

  lemma CopyNone(ram: map<word, byte>, dst: int, src: int)
    requires Given(ram, dst, 0) && Given(ram, src, 0)
    ensures Copy(ram, dst, src, 0) == ram
  {
  }

  lemma {:induction false} CopyAdd(ram: map<word, byte>, dst: int, src: int, m: nat, n: nat)
    requires Given(ram, dst, m + n) && Given(ram, src, m + n)
    ensures Given(ram, dst, m) && Given(ram, src, m)
    ensures var mid := Copy(ram, dst, src, m);
      && Given(mid, dst + m, n) && Given(mid, src + m, n)
      && Copy(ram, dst, src, m + n) == Copy(mid, dst + m, src + m, n)
    decreases m
  {
    hide Given, Copy;
    GivenPart(ram, dst, m + n, dst, m);
    GivenPart(ram, src, m + n, src, m);
    if m == 0 {
      CopyNone(ram, dst, src);
    } else {
      var ram1 := CopyFirst(ram, dst, src, m + n);
      var ram2 := CopyFirst(ram, dst, src, m);
      CopyAdd(ram1, dst + 1, src + 1, m - 1, n);
    }
  }

  /** Nothing outside the destination changes. */
  lemma {:induction false} CopyFrame(ram: map<word, byte>, dst: int, src: int, n: nat)
    requires Given(ram, dst, n) && Given(ram, src, n)
    ensures OnlyIn(Span(dst, n), ram, Copy(ram, dst, src, n))
    decreases n
  {
    if n != 0 {
      CopyFrame(ram[dst := ram[src]], dst + 1, src + 1, n - 1);
    }
  }

  /**
   Where the byte at dst + k comes from in a forward copy: from src + k, unless the destination is
   above the source. Then the copy meets its own bytes, and the first dst - src of them repeat.
   */
  function SourceOf(dst: int, src: int, k: nat): (x: int)
    ensures src <= x <= src + k
    ensures dst <= src || k < dst - src ==> x == src + k
  {
    if dst <= src then src + k
    else
      Remainder(k, dst - src);
      src + k % (dst - src)
  }

  lemma Remainder(k: nat, p: int)
    requires p > 0
    ensures 0 <= k % p <= k && (k < p ==> k % p == k)
  {
    assert k == k / p * p + k % p;
    assert k / p >= 0;
    assert k / p * p >= 0;
  }

  lemma NextRemainder(k: nat, p: int)
    requires k > 0 && p > 0
    ensures k % p == if (k - 1) % p == p - 1 then 0 else (k - 1) % p + 1
  {
    var q, r := (k - 1) / p, (k - 1) % p;
    assert k - 1 == q * p + r;
    if r == p - 1 {
      Divides(k, p, q + 1, 0);
    } else {
      Divides(k, p, q, r + 1);
    }
  }

  /** Every byte of the destination, whether the two stretches overlap or not. */
  lemma {:induction false} CopyMoves(ram: map<word, byte>, dst: int, src: int, n: nat, k: nat)
    requires Given(ram, dst, n) && Given(ram, src, n) && k < n
    ensures dst + k in ram && SourceOf(dst, src, k) in ram && Copy(ram, dst, src, n)[dst + k] == ram[SourceOf(dst, src, k)]
    decreases n
  {
    hide Copy;
    var ram1 := CopyFirst(ram, dst, src, n);
    if k == 0 {
      CopyFrame(ram1, dst + 1, src + 1, n - 1);
    } else {
      CopyMoves(ram1, dst + 1, src + 1, n - 1, k - 1);
      if dst > src {
        NextRemainder(k, dst - src);
      }
    }
  }

  /** A copy does not see cells it neither reads nor writes. */
  lemma {:induction false} CopyElsewhere(cells: set<int>, ram: map<word, byte>, ram': map<word, byte>, dst: int, src: int, n: nat)
    requires OnlyIn(cells, ram, ram') && Given(ram, dst, n) && Given(ram, src, n)
    requires Span(dst, n) !! cells && Span(src, n) !! cells
    ensures OnlyIn(cells, Copy(ram, dst, src, n), Copy(ram', dst, src, n))
    decreases n
  {
    if n != 0 {
      assert src in Span(src, n);
      var ram1 := CopyFirst(ram, dst, src, n);
      var ram1' := CopyFirst(ram', dst, src, n);
      CopyElsewhere(cells, ram1, ram1', dst + 1, src + 1, n - 1);
    }
  }

  // ----- memcpy: ab is the destination, cd the source, z the length -----

  /** add16 a, b, 1; add16 c, d, 1; dec z */
  function MemcpyAdvance(): (block: Block)
    ensures Len(block) == 12 && Pure(block)
  {
    Cat(Add16(A, B, Imm(0), Imm(1)), Cat(Add16(C, D, Imm(0), Imm(1)), Dec(Z)))
  }

  function MemcpyBody(loop: word): (block: Block)
    ensures Len(block) == 26
  {
    Cat(LwAt(F, C, D), Cat(SwAt(A, B, F), Cat(MemcpyAdvance(), JumpNonZero(Z, loop))))
  }

  function MemcpyHead(done: word): (block: Block)
    ensures Len(block) == 13
  {
    Cat(PushAll(), Branch(Jz(Z), done))
  }

  function Memcpy(entry: word, loop: word, done: word): seq<Part> {
    [Part(entry, MemcpyHead(done)), Part(loop, MemcpyBody(loop)), Part(done, LeaveAll())]
  }

  ghost predicate MemcpyAt(code: Code, entry: word, loop: word, done: word) {
    loop == entry + 13 && done == loop + 26 && Placed(code, Memcpy(entry, loop, done))
  }

  lemma MemcpyParts(code: Code, entry: word, loop: word, done: word)
    requires MemcpyAt(code, entry, loop, done)
    ensures At(code, entry, MemcpyHead(done)) && At(code, loop, MemcpyBody(loop)) && At(code, done, LeaveAll())
  {
    hide At, MemcpyHead, MemcpyBody, LeaveAll;
    var parts := Memcpy(entry, loop, done);
    assert parts[0] in parts && parts[1] in parts && parts[2] in parts;
  }

  lemma MemcpyAdvances(g: Regs) returns (g': Regs)
    ensures g' == RegsAfter(MemcpyAdvance(), g)
    ensures Pair(g'.a, g'.b) == U16(Pair(g.a, g.b) + 1)
    ensures Pair(g'.c, g'.d) == U16(Pair(g.c, g.d) + 1)
    ensures g'.z == U8(g.z - 1)
  {
    hide RegsAfter, Flags, U16, Add16, Dec, Hi, Lo, Pair, Alu, OnRegs, Bit, Len, Computes, Size;
    var ab, cd, dec := Add16(A, B, Imm(0), Imm(1)), Add16(C, D, Imm(0), Imm(1)), Dec(Z);
    PairLow(1);
    Add16Adds(g, A, B, Imm(0), Imm(1));
    var g1 := RegsAfter(ab, g);
    Add16Adds(g1, C, D, Imm(0), Imm(1));
    var g2 := RegsAfter(cd, g1);
    DecSubtracts(g2, Z);
    g' := RegsAfter(dec, g2);
    RegsCat(cd, dec, g1);
    RegsCat(ab, Cat(cd, dec), g);
    PairHiLo(U16(Pair(g.a, g.b) + 1));
    PairHiLo(U16(Pair(g.c, g.d) + 1));
  }

  /** One pass: one byte moves, both addresses go up, the count goes down. */
  lemma MemcpyOnce(code: Code, h: Core) returns (h': Core)
    requires At(code, h.pc, MemcpyBody(h.pc))
    requires h.Writable(Pair(h.g.a, h.g.b)) && h.Readable(Pair(h.g.c, h.g.d))
    ensures Reaches(code, h, h') && h'.sp == h.sp && h'.readOnly == h.readOnly
    ensures h'.ram == h.ram[Pair(h.g.a, h.g.b) := h.ram[Pair(h.g.c, h.g.d)]]
    ensures Pair(h'.g.a, h'.g.b) == U16(Pair(h.g.a, h.g.b) + 1) && Pair(h'.g.c, h'.g.d) == U16(Pair(h.g.c, h.g.d) + 1)
    ensures h'.g.z == U8(h.g.z - 1) && h'.pc == if h'.g.z != 0 then h.pc else h.pc + 26
  {
    hide At, Reaches, RegsAfter, U16, Len, LwAt, SwAt, MemcpyAdvance, JumpNonZero, Pair;
    var jump := JumpNonZero(Z, h.pc);
    Split(code, h.pc, LwAt(F, C, D), Cat(SwAt(A, B, F), Cat(MemcpyAdvance(), jump)));
    Split(code, h.pc + 5, SwAt(A, B, F), Cat(MemcpyAdvance(), jump));
    Split(code, h.pc + 10, MemcpyAdvance(), jump);
    var h1 := RunLwAt(code, h, F, C, D);
    var h2 := RunSwAt(code, h1, A, B, F);
    Chain(code, h, h1, h2);
    RunPure(code, h2, MemcpyAdvance());
    var g3 := MemcpyAdvances(h2.g);
    var h3 := h2.(g := g3, pc := h.pc + 22);
    Chain(code, h, h2, h3);
    h' := RunJumpNonZero(code, h3, Z, h.pc);
    Chain(code, h, h3, h');
  }

  lemma {:induction false} MemcpyLoop(code: Code, h: Core) returns (h': Core)
    requires At(code, h.pc, MemcpyBody(h.pc)) && h.g.z > 0
    requires Given(h.ram, Pair(h.g.a, h.g.b), h.g.z) && Given(h.ram, Pair(h.g.c, h.g.d), h.g.z)
    requires Span(Pair(h.g.a, h.g.b), h.g.z) !! h.readOnly
    ensures Reaches(code, h, h') && h'.sp == h.sp && h'.readOnly == h.readOnly && h'.pc == h.pc + 26
    ensures h'.ram == Copy(h.ram, Pair(h.g.a, h.g.b), Pair(h.g.c, h.g.d), h.g.z)
    decreases h.g.z
  {
    hide At, Reaches, MemcpyBody, Pair, Given, Copy;
    var dst: int, src: int, n: nat := Pair(h.g.a, h.g.b), Pair(h.g.c, h.g.d), h.g.z;
    assert dst in Span(dst, n);
    var ram1 := CopyFirst(h.ram, dst, src, n);
    h' := MemcpyOnce(code, h);
    if n == 1 {
      CopyNone(ram1, dst + 1, src + 1);
    } else {
      var h1 := h';
      GivenBounds(h.ram, dst, n);
      GivenBounds(h.ram, src, n);
      h' := MemcpyLoop(code, h1);
      Chain(code, h, h1, h');
    }
  }

  lemma GivenBounds(ram: map<word, byte>, lo: int, n: nat)
    requires Given(ram, lo, n)
    ensures lo + n <= 65536
  {
  }

  lemma MemcpyEnters(code: Code, h: Core, done: word) returns (h': Core)
    requires At(code, h.pc, MemcpyHead(done)) && Room(h, 5)
    ensures Reaches(code, h, h') && SameData(h.g, h'.g) && h'.readOnly == h.readOnly
    ensures h'.sp == h.sp - 5 && OnlyIn(Span(h.sp - 4, 5), h.ram, h'.ram) && SavedAll(h.g, h'.ram, h'.sp)
    ensures h'.pc == if h.g.z == 0 then done else h.pc + 13
  {
    hide At, Reaches, RegsAfter, Branch, PushAll, Tests, Pair, OnlyIn, Jz, Room, SavedAll;
    Split(code, h.pc, PushAll(), Branch(Jz(Z), done));
    var h1 := RunPushAll(code, h);
    JzTest(h1.g, Z);
    h' := RunBranch(code, h1, Jz(Z), done, h.g.z == 0);
    Chain(code, h, h1, h');
  }

  /** What a routine may use as source and destination: cells it was given, away from its stack frame of n cells. */
  predicate Movable(h: Core, dst: int, src: int, n: nat, frame: nat) {
    && Given(h.ram, dst, n) && Given(h.ram, src, n) && Span(dst, n) !! h.readOnly
    && Span(dst, n) !! Span(h.sp - frame + 1, frame + 2)
    && Span(src, n) !! Span(h.sp - frame + 1, frame)
  }

  /**
   memcpy makes one forward copy of z bytes from cd to ab, returns, and gives back the
   registers and the stack pointer; beyond that it writes five stack cells.
   */
  lemma MemcpyRuns(code: Code, h: Core, loop: word, done: word) returns (h': Core)
    requires MemcpyAt(code, h.pc, loop, done) && Called(h, 5)
    requires Movable(h, Pair(h.g.a, h.g.b), Pair(h.g.c, h.g.d), h.g.z, 5)
    ensures Reaches(code, h, h')
    ensures h'.pc == ReturnAddress(h) && h'.sp == h.sp + 2 && SameData(h.g, h'.g) && h'.readOnly == h.readOnly
    ensures OnlyIn(Span(h.sp - 4, 5), Copy(h.ram, Pair(h.g.a, h.g.b), Pair(h.g.c, h.g.d), h.g.z), h'.ram)
  {
    hide At, Reaches, MemcpyHead, MemcpyBody, LeaveAll, Pair, Room, Copy, SavedAll;
    var dst: int, src: int, n: nat := Pair(h.g.a, h.g.b), Pair(h.g.c, h.g.d), h.g.z;
    MemcpyParts(code, h.pc, loop, done);
    var h1 := MemcpyEnters(code, h, done);
    var h2 := h1;
    if n == 0 {
      CopyNone(h1.ram, dst, src);
    } else {
      h2 := MemcpyLoop(code, h1);
      Chain(code, h, h1, h2);
    }
    MemcpyFrame(h, h1.ram, dst, src, n);
    StaySaved(Span(dst, n), h.g, h1.ram, h2.ram, h1.sp);
    h' := RunLeaveAll(code, h2, h.g);
    Chain(code, h, h2, h');
  }

  lemma MemcpyFrame(h: Core, ram: map<word, byte>, dst: int, src: int, n: nat)
    requires Movable(h, dst, src, n, 5) && OnlyIn(Span(h.sp - 4, 5), h.ram, ram)
    requires h.sp >= 5 && h.Readable(h.sp + 1) && h.Readable(h.sp + 2)
    ensures Given(ram, dst, n) && Given(ram, src, n) && Span(h.sp - 4, 5) !! Span(dst, n)
    ensures var ram' := Copy(ram, dst, src, n);
      && OnlyIn(Span(dst, n), ram, ram') && OnlyIn(Span(h.sp - 4, 5), Copy(h.ram, dst, src, n), ram')
      && ram'[h.sp + 1] == h.ram[h.sp + 1] && ram'[h.sp + 2] == h.ram[h.sp + 2]
  {
    hide Copy;
    CopyFrame(ram, dst, src, n);
    assert Span(h.sp - 4, 5) <= Span(h.sp - 4, 7);
    CopyElsewhere(Span(h.sp - 4, 5), h.ram, ram, dst, src, n);
    assert h.sp + 1 in Span(h.sp - 4, 7) && h.sp + 2 in Span(h.sp - 4, 7);
  }
}
