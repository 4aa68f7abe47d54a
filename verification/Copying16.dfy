/** os/lib/util.asm: memcpy16, a copy of 16-bit length made of calls to memcpy. */
module Copying16 {
  import opened Words
  import opened Isa
  import opened Core
  import opened Macros
  import opened Blocks
  import opened Copying

  // ----- the code: ab is the destination, cd the source, D0 the length -----

  /** push a; lw a, [(D0 + 1)]; jz a, [.less_than_256] */
  function LengthTest(less: word, d0: word): (block: Block)
    ensures Len(block) == 12
  {
    Cat(One(PUSH(Rg(A))), Cat(One(LW(A, Abs(U16(d0 + 1)))), Branch(Jz(A), less)))
  }

  /** clb; sub16 a, b, 0xFF */
  function Less255(): (block: Block)
    ensures Len(block) == 6 && Pure(block)
  {
    Cat(Clb(), Sub16(A, B, Imm(0), Imm(255)))
  }

  /** push b; lw b, [(D0 + 0)]; mw z, 0xFF; clb; sub16 a, b, 0xFF; sw16 [D0], a, b; pop b, a */
  function Shrink(d0: word): (block: Block)
    ensures Len(block) == 20
  {
    Cat(Reduce(d0), Cat(Sw16(d0, A, B), Pops([B, A])))
  }

  function Reduce(d0: word): (block: Block)
    ensures Len(block) == 12
  {
    Cat(Cat(One(PUSH(Rg(B))), One(LW(B, Abs(d0)))), Cat(One(MW(Z, Imm(255))), Less255()))
  }

  /** add16 a, b, 0xFF; add16 c, d, 0xFF */
  function Forward(): (block: Block)
    ensures Len(block) == 8 && Pure(block)
  {
    Cat(Add16(A, B, Imm(0), Imm(255)), Add16(C, D, Imm(0), Imm(255)))
  }

  function Memcpy16Body(loop: word, less: word, memcpy: word, d0: word): (block: Block)
    ensures Len(block) == 54
  {
    Cat(LengthTest(less, d0), Cat(Shrink(d0), Cat(Call(memcpy, U16(loop + 41)), Cat(Forward(), Goto(loop)))))
  }

  function Memcpy16Tail(less: word, memcpy: word, d0: word): (block: Block)
    ensures Len(block) == 22
  {
    Cat(One(POP(A)), Cat(One(LW(Z, Abs(d0))), Cat(Call(memcpy, U16(less + 13)), LeaveAll())))
  }

  function Memcpy16(entry: word, loop: word, less: word, memcpy: word, d0: word): seq<Part> {
    [Part(entry, PushAll()), Part(loop, Memcpy16Body(loop, less, memcpy, d0)), Part(less, Memcpy16Tail(less, memcpy, d0))]
  }

  /** Where memcpy lies, with its inner labels. */
  datatype Callee = Callee(entry: word, loop: word, done: word)

  ghost predicate Memcpy16At(code: Code, entry: word, loop: word, less: word, m: Callee, d0: word) {
    && loop == entry + 5 && less == loop + 54 && d0 < 65535
    && Placed(code, Memcpy16(entry, loop, less, m.entry, d0))
    && MemcpyAt(code, m.entry, m.loop, m.done)
  }

  lemma Memcpy16Parts(code: Code, entry: word, loop: word, less: word, m: Callee, d0: word)
    requires Memcpy16At(code, entry, loop, less, m, d0)
    ensures At(code, entry, PushAll()) && At(code, loop, Memcpy16Body(loop, less, m.entry, d0))
    ensures At(code, less, Memcpy16Tail(less, m.entry, d0))
  {
    hide At, Memcpy16Body, Memcpy16Tail, LeaveAll, PushAll, MemcpyAt;
    var parts := Memcpy16(entry, loop, less, m.entry, d0);
    assert parts[0] in parts && parts[1] in parts && parts[2] in parts;
  }

  // ----- one pass -----

  predicate Scratch(h: Core, d0: int) { h.Writable(d0) && h.Writable(d0 + 1) && d0 + 1 < 65536 }

  function Length(ram: map<word, byte>, d0: int): word
    requires d0 in ram && d0 + 1 in ram
  {
    Pair(ram[d0 + 1], ram[d0])
  }

  lemma RunLengthTest(code: Code, h: Core, less: word, d0: word) returns (h': Core)
    requires At(code, h.pc, LengthTest(less, d0)) && Scratch(h, d0) && Room(h, 1) && h.sp !in {d0, d0 + 1}
    ensures Reaches(code, h, h') && SameData(h.g.(a := h.ram[d0 + 1]), h'.g) && h'.readOnly == h.readOnly
    ensures h'.sp == h.sp - 1 && h'.ram == h.ram[h.sp := h.g.a]
    ensures h'.pc == if Length(h.ram, d0) < 256 then less else h.pc + 12
  {
    hide At, Reaches, Branch, Jz, Tests;
    assert h.Writable(h.sp);
    var i, j := PUSH(Rg(A)), LW(A, Abs(U16(d0 + 1)));
    Split(code, h.pc, One(i), Cat(One(j), Branch(Jz(A), less)));
    Split(code, h.pc + 1, One(j), Branch(Jz(A), less));
    RunOne(code, h, i);
    var h1 := After(i, h);
    RunOne(code, h1, j);
    var h2 := After(j, h1);
    Chain(code, h, h1, h2);
    JzTest(h2.g, A);
    h' := RunBranch(code, h2, Jz(A), less, h2.g.a == 0);
    Chain(code, h, h2, h');
  }

  lemma Subtracts255(g: Regs) returns (g': Regs)
    requires Pair(g.a, g.b) >= 255
    ensures g' == RegsAfter(Cat(One(MW(Z, Imm(255))), Less255()), g)
    ensures Pair(g'.a, g'.b) == Pair(g.a, g.b) - 255 && g'.z == 255 && g'.c == g.c && g'.d == g.d
  {
    hide RegsAfter, Flags, Sub16, Clb, Hi, Lo, Pair, Alu, OnRegs, Bit, Len, Computes, Size, And;
    var g1 := g.(z := 255);
    RegsOne(MW(Z, Imm(255)), g);
    assert OnRegs(MW(Z, Imm(255)), g) == g1 by { OnZ(g); }
    ClbClears(g1);
    var g2 := RegsAfter(Clb(), g1);
    var sub := Sub16(A, B, Imm(0), Imm(255));
    Sub16Subtracts(g2, A, B, Imm(0), Imm(255));
    PairLow(255);
    g' := RegsAfter(sub, g2);
    RegsCat(Clb(), sub, g1);
    RegsCat(One(MW(Z, Imm(255))), Less255(), g);
    PairHiLo(Pair(g.a, g.b) - 255);
  }

  lemma OnZ(g: Regs)
    ensures OnRegs(MW(Z, Imm(255)), g) == g.(z := 255)
  {
  }

  lemma RunReduce(code: Code, h: Core, d0: word) returns (h': Core)
    requires At(code, h.pc, Reduce(d0)) && Scratch(h, d0) && Room(h, 1) && h.sp !in {d0, d0 + 1}
    requires h.g.a == h.ram[d0 + 1] && Length(h.ram, d0) >= 255
    ensures Reaches(code, h, h')
    ensures h' == h.(g := h'.g, sp := h.sp - 1, ram := h.ram[h.sp := h.g.b], pc := h.pc + 12)
    ensures Pair(h'.g.a, h'.g.b) == Length(h.ram, d0) - 255
    ensures h'.g.c == h.g.c && h'.g.d == h.g.d && h'.g.z == 255
  {
    hide At, Reaches, Less255, RegsAfter, Pair;
    assert h.Writable(h.sp);
    var i, j := PUSH(Rg(B)), LW(B, Abs(d0));
    var reduce := Cat(One(MW(Z, Imm(255))), Less255());
    Split(code, h.pc, Cat(One(i), One(j)), reduce);
    Split(code, h.pc, One(i), One(j));
    RunOne(code, h, i);
    var h1 := After(i, h);
    RunOne(code, h1, j);
    var h2 := After(j, h1);
    Chain(code, h, h1, h2);
    RunPure(code, h2, reduce);
    var g3 := Subtracts255(h2.g);
    h' := h2.(g := g3, pc := h.pc + 12);
    Chain(code, h, h2, h');
  }

  /** The length at D0 shrinks by 255, and z gets 255; the pushed a comes back. */
  lemma RunShrink(code: Code, h: Core, d0: word, saved: byte) returns (h': Core)
    requires At(code, h.pc, Shrink(d0)) && Scratch(h, d0) && Room(h, 1)
    requires h.sp !in {d0, d0 + 1} && h.sp + 1 !in {d0, d0 + 1}
    requires h.Readable(h.sp + 1) && h.ram[h.sp + 1] == saved
    requires h.g.a == h.ram[d0 + 1] && Length(h.ram, d0) >= 255
    ensures Reaches(code, h, h') && h'.readOnly == h.readOnly && h'.pc == h.pc + 20
    ensures h'.g.a == saved && h'.g.b == h.g.b && h'.g.c == h.g.c && h'.g.d == h.g.d && h'.g.z == 255
    ensures h'.sp == h.sp + 1 && OnlyIn(Span(d0, 2) + {h.sp as int}, h.ram, h'.ram)
    ensures Length(h'.ram, d0) == Length(h.ram, d0) - 255
  {
    hide At, Reaches, Reduce, Sw16, RegsAfter, Pair, Pops;
    Split(code, h.pc, Reduce(d0), Cat(Sw16(d0, A, B), Pops([B, A])));
    Split(code, h.pc + 12, Sw16(d0, A, B), Pops([B, A]));
    var h3 := RunReduce(code, h, d0);
    RunSw16(code, h3, d0, A, B);
    var h4 := h3.(ram := h3.ram[d0 := h3.g.b][d0 + 1 := h3.g.a], pc := h3.pc + 6);
    Chain(code, h, h3, h4);
    Pop2(h4.g, h4.ram, h4.sp);
    RunPops(code, h4, [B, A]);
    h' := h4.(g := h4.g.(b := h.g.b).(a := saved), sp := h4.sp + 2, pc := h4.pc + 2);
    Chain(code, h, h4, h');
    assert d0 in Span(d0, 2) && d0 + 1 in Span(d0, 2);
    assert h.Writable(h.sp);
  }

  lemma Pop2(g: Regs, ram: map<word, byte>, sp: int)
    requires sp + 1 in ram && sp + 2 in ram
    ensures forall x: int | sp < x <= sp + |[B, A]| :: x in ram
    ensures Popped(g, ram, sp, [B, A]) == g.(b := ram[sp + 1]).(a := ram[sp + 2])
  {
    assert [B, A][1..] == [A];
  }

  lemma Moves255(g: Regs) returns (g': Regs)
    ensures g' == RegsAfter(Forward(), g)
    ensures Pair(g'.a, g'.b) == U16(Pair(g.a, g.b) + 255) && Pair(g'.c, g'.d) == U16(Pair(g.c, g.d) + 255)
  {
    hide RegsAfter, Flags, Add16, Hi, Lo, Pair, Alu, OnRegs, Bit, Len, Computes, Size, U16;
    var ab, cd := Add16(A, B, Imm(0), Imm(255)), Add16(C, D, Imm(0), Imm(255));
    PairLow(255);
    Add16Adds(g, A, B, Imm(0), Imm(255));
    var g1 := RegsAfter(ab, g);
    Add16Adds(g1, C, D, Imm(0), Imm(255));
    g' := RegsAfter(cd, g1);
    RegsCat(ab, cd, g);
    PairHiLo(U16(Pair(g.a, g.b) + 255));
    PairHiLo(U16(Pair(g.c, g.d) + 255));
  }

  // ----- the frame of the whole loop -----

  /** The cells the loop works in: seven of the stack, and the length. */
  function Workspace(sp: int, d0: int): set<int> { Span(sp - 6, 7) + Span(d0, 2) }

  /** Source and destination are clear of the workspace, of what lies saved above it, and of each other's needs. */
  predicate Clear(h: Core, d0: int, dst: int, src: int, n: nat) {
    && Given(h.ram, dst, n) && Given(h.ram, src, n) && Span(dst, n) !! h.readOnly
    && Span(dst, n) !! Workspace(h.sp, d0) && Span(src, n) !! Workspace(h.sp, d0)
    && Span(dst, n) !! Span(h.sp + 1, 7)
  }

  predicate Working(h: Core, d0: int) {
    Scratch(h, d0) && Room(h, 7) && Span(d0, 2) !! Span(h.sp - 6, 14)
  }

  lemma OnlyTrans(cells: set<int>, x: map<word, byte>, y: map<word, byte>, z: map<word, byte>)
    requires OnlyIn(cells, x, y) && OnlyIn(cells, y, z)
    ensures OnlyIn(cells, x, z)
  {
  }

  lemma OnlyMore(cells: set<int>, more: set<int>, x: map<word, byte>, y: map<word, byte>)
    requires OnlyIn(cells, x, y) && cells <= more
    ensures OnlyIn(more, x, y)
  {
  }

  lemma InWorkspace(h: Core, d0: int)
    requires Working(h, d0)
    ensures h.Writable(h.sp) && h.Writable(h.sp - 1) && h.sp !in {d0, d0 + 1} && h.sp - 1 !in {d0, d0 + 1} && h.sp >= 7
    ensures Workspace(h.sp, d0) >= {h.sp as int, h.sp - 1, d0, d0 + 1} && Workspace(h.sp, d0) >= Span(d0, 2) + {h.sp - 1}
  {
    assert h.sp in Span(h.sp - 6, 14) && h.sp - 1 in Span(h.sp - 6, 14);
    assert d0 in Span(d0, 2) && d0 + 1 in Span(d0, 2);
  }

  lemma WriteIn(cells: set<int>, ram: map<word, byte>, ram': map<word, byte>, x: word, v: byte)
    requires OnlyIn(cells, ram, ram') && x in cells && x in ram
    ensures OnlyIn(cells, ram, ram'[x := v])
  {
  }

  lemma OnlySame(cells: set<int>, ram: map<word, byte>)
    ensures OnlyIn(cells, ram, ram)
  {
  }

  /** Length test, shrinking and the call itself stay in the workspace. */
  lemma RunToCall(code: Code, h: Core, loop: word, less: word, memcpy: word, d0: word) returns (h': Core)
    requires h.pc == loop && At(code, loop, Memcpy16Body(loop, less, memcpy, d0))
    requires Working(h, d0) && Length(h.ram, d0) >= 256 && less != loop + 12
    ensures Reaches(code, h, h') && h'.readOnly == h.readOnly && h'.pc == memcpy && h'.sp == h.sp - 2
    ensures h'.g.a == h.g.a && h'.g.b == h.g.b && h'.g.c == h.g.c && h'.g.d == h.g.d && h'.g.z == 255
    ensures OnlyIn(Workspace(h.sp, d0), h.ram, h'.ram) && Length(h'.ram, d0) == Length(h.ram, d0) - 255
    ensures h'.Readable(h'.sp + 1) && h'.Readable(h'.sp + 2) && ReturnAddress(h') == loop + 41
  {
    hide At, Reaches, LengthTest, Shrink, Call, Forward, Goto, Pair, Span, Workspace, OnlyIn, ReturnAddress, Hi, Lo;
    var back := Cat(Forward(), Goto(loop));
    var call := Call(memcpy, U16(loop + 41));
    Split(code, loop, LengthTest(less, d0), Cat(Shrink(d0), Cat(call, back)));
    Split(code, loop + 12, Shrink(d0), Cat(call, back));
    Split(code, loop + 32, call, back);
    InWorkspace(h, d0);
    var w := Workspace(h.sp, d0);
    var h1 := RunLengthTest(code, h, less, d0);
    OnlySame(w, h.ram);
    WriteIn(w, h.ram, h.ram, h.sp, h.g.a);
    var h2 := RunShrink(code, h1, d0, h.g.a);
    Chain(code, h, h1, h2);
    OnlyMore(Span(d0, 2) + {h1.sp as int}, w, h1.ram, h2.ram);
    OnlyTrans(w, h.ram, h1.ram, h2.ram);
    h' := RunCall(code, h2, memcpy, U16(loop + 41));
    Chain(code, h, h2, h');
    WriteIn(w, h.ram, h2.ram, h.sp, Hi(U16(loop + 41)));
    WriteIn(w, h.ram, h2.ram[h.sp := Hi(U16(loop + 41))], h.sp - 1, Lo(U16(loop + 41)));
  }

  lemma CallSpace(h: Core, h1: Core, d0: int, dst: int, src: int, n: nat)
    requires Working(h, d0) && Clear(h, d0, dst, src, n)
    requires h1.sp == h.sp - 2 && h1.readOnly == h.readOnly && OnlyIn(Workspace(h.sp, d0), h.ram, h1.ram)
    ensures Room(h1, 5) && Movable(h1, dst, src, n, 5)
  {
    forall x: int | h1.sp - 5 < x <= h1.sp
      ensures h1.Writable(x)
    {
      assert h.Writable(x);
    }
    assert Span(h1.sp - 4, 7) == Span(h.sp - 6, 7);
    assert Span(h1.sp - 4, 5) <= Span(h.sp - 6, 7);
  }

  lemma BodyBack(code: Code, loop: word, less: word, memcpy: word, d0: word)
    requires At(code, loop, Memcpy16Body(loop, less, memcpy, d0))
    ensures At(code, loop + 41, Forward()) && At(code, loop + 49, Goto(loop)) && loop + 54 <= 0xFFFA
  {
    hide At, LengthTest, Shrink, Call, Forward, Goto;
    var back := Cat(Forward(), Goto(loop));
    var call := Call(memcpy, U16(loop + 41));
    Split(code, loop, LengthTest(less, d0), Cat(Shrink(d0), Cat(call, back)));
    Split(code, loop + 12, Shrink(d0), Cat(call, back));
    Split(code, loop + 32, call, back);
    Split(code, loop + 41, Forward(), Goto(loop));
  }

  /** A memcpy made from inside the workspace is the same copy, seen from outside the workspace. */
  lemma PassFrame(h: Core, ram1: map<word, byte>, ram2: map<word, byte>, d0: int, dst: int, src: int, n: nat)
    requires Working(h, d0) && Clear(h, d0, dst, src, n) && OnlyIn(Workspace(h.sp, d0), h.ram, ram1)
    requires Given(ram1, dst, n) && Given(ram1, src, n) && OnlyIn(Span(h.sp - 6, 5), Copy(ram1, dst, src, n), ram2)
    ensures OnlyIn(Workspace(h.sp, d0), Copy(h.ram, dst, src, n), ram2)
    ensures Length(ram2, d0) == Length(ram1, d0)
  {
    hide Copy, Given, Pair;
    var w := Workspace(h.sp, d0);
    CopyElsewhere(w, h.ram, ram1, dst, src, n);
    assert Span(h.sp - 6, 5) <= w;
    OnlyMore(Span(h.sp - 6, 5), w, Copy(ram1, dst, src, n), ram2);
    OnlyTrans(w, Copy(h.ram, dst, src, n), Copy(ram1, dst, src, n), ram2);
    CopyFrame(ram1, dst, src, n);
    assert d0 in Span(d0, 2) && d0 + 1 in Span(d0, 2);
    assert d0 in w && d0 + 1 in w;
    assert Span(h.sp - 6, 5) <= Span(h.sp - 6, 14);
  }

  lemma MemoryKept(h: Core, h': Core)
    requires SameMemory(h, h')
    ensures h'.ram == h.ram && h'.sp == h.sp && h'.readOnly == h.readOnly
  {
  }

  /** One pass moves 255 bytes. */
  lemma Memcpy16Once(code: Code, h: Core, loop: word, less: word, m: Callee, d0: word) returns (h': Core)
    requires h.pc == loop && At(code, loop, Memcpy16Body(loop, less, m.entry, d0)) && less != loop + 12
    requires MemcpyAt(code, m.entry, m.loop, m.done)
    requires Working(h, d0) && Length(h.ram, d0) >= 256
    requires Clear(h, d0, Pair(h.g.a, h.g.b), Pair(h.g.c, h.g.d), 255)
    ensures Reaches(code, h, h') && h'.pc == loop && h'.sp == h.sp && h'.readOnly == h.readOnly
    ensures Pair(h'.g.a, h'.g.b) == U16(Pair(h.g.a, h.g.b) + 255) && Pair(h'.g.c, h'.g.d) == U16(Pair(h.g.c, h.g.d) + 255)
    ensures OnlyIn(Workspace(h.sp, d0), Copy(h.ram, Pair(h.g.a, h.g.b), Pair(h.g.c, h.g.d), 255), h'.ram)
    ensures Length(h'.ram, d0) == Length(h.ram, d0) - 255
  {
    hide At, Reaches, Forward, Goto, Pair, Copy, RegsAfter, Room, U16, Given, Len, Span, Workspace, Movable, OnlyIn, MemcpyAt, Memcpy16Body, ReturnAddress, Length, Scratch, SameMemory;
    var dst: int, src: int := Pair(h.g.a, h.g.b), Pair(h.g.c, h.g.d);
    var h1 := RunToCall(code, h, loop, less, m.entry, d0);
    CallSpace(h, h1, d0, dst, src, 255);
    var h2 := MemcpyRuns(code, h1, m.loop, m.done);
    Chain(code, h, h1, h2);
    BodyBack(code, loop, less, m.entry, d0);
    RunPure(code, h2, Forward());
    var g3 := Moves255(h2.g);
    var h3 := h2.(g := g3, pc := loop + 49);
    Chain(code, h, h2, h3);
    h' := RunGoto(code, h3, loop);
    assert h'.ram == h2.ram && h'.sp == h2.sp && h'.readOnly == h2.readOnly by { MemoryKept(h3, h'); }
    Chain(code, h, h3, h');
    PassFrame(h, h1.ram, h2.ram, d0, dst, src, 255);
  }

  // ----- the last pass, and all of them -----

  lemma SmallLength(ram: map<word, byte>, d0: int)
    requires d0 in ram && d0 + 1 in ram && Length(ram, d0) < 256
    ensures Length(ram, d0) == ram[d0]
  {
  }

  lemma TestIn(code: Code, loop: word, less: word, memcpy: word, d0: word)
    requires At(code, loop, Memcpy16Body(loop, less, memcpy, d0))
    ensures At(code, loop, LengthTest(less, d0))
  {
    hide At, LengthTest, Shrink, Call, Forward, Goto;
    Split(code, loop, LengthTest(less, d0), Cat(Shrink(d0), Cat(Call(memcpy, U16(loop + 41)), Cat(Forward(), Goto(loop)))));
  }

  lemma TailIn(code: Code, less: word, memcpy: word, d0: word)
    requires At(code, less, Memcpy16Tail(less, memcpy, d0))
    ensures At(code, less, One(POP(A))) && At(code, less + 1, One(LW(Z, Abs(d0)))) && less + 22 <= 0xFFFA
    ensures At(code, less + 4, Call(memcpy, less + 13)) && At(code, less + 13, LeaveAll())
  {
    hide At, Call, LeaveAll;
    var i, j, call := POP(A), LW(Z, Abs(d0)), Call(memcpy, U16(less + 13));
    Split(code, less, One(i), Cat(One(j), Cat(call, LeaveAll())));
    Split(code, less + 1, One(j), Cat(call, LeaveAll()));
    Split(code, less + 4, call, LeaveAll());
  }

  /** pop a; lw z, [(D0 + 0)] */
  lemma RunFetchLength(code: Code, h: Core, less: word, d0: word) returns (h': Core)
    requires At(code, h.pc, LengthTest(less, d0)) && At(code, less, One(POP(A))) && At(code, less + 1, One(LW(Z, Abs(d0))))
    requires less + 4 < 65536 && Scratch(h, d0) && Room(h, 1) && h.sp !in {d0, d0 + 1} && Length(h.ram, d0) < 256
    ensures Reaches(code, h, h') && h'.readOnly == h.readOnly && h'.pc == less + 4 && h'.sp == h.sp
    ensures SameData(h.g.(z := h'.g.z), h'.g) && h'.g.z == Length(h.ram, d0)
    ensures h'.ram == h.ram[h.sp := h.g.a]
  {
    hide At, Reaches, LengthTest, Length, Room;
    var h1 := RunLengthTest(code, h, less, d0);
    RunOne(code, h1, POP(A));
    var h2 := After(POP(A), h1);
    Chain(code, h, h1, h2);
    RunOne(code, h2, LW(Z, Abs(d0)));
    h' := After(LW(Z, Abs(d0)), h2);
    Chain(code, h, h2, h');
    SmallLength(h.ram, d0);
  }

  /** pop a; lw z, [(D0 + 0)]; call [memcpy] */
  lemma RunLastCall(code: Code, h: Core, loop: word, less: word, memcpy: word, d0: word) returns (h': Core)
    requires h.pc == loop && At(code, loop, Memcpy16Body(loop, less, memcpy, d0)) && At(code, less, Memcpy16Tail(less, memcpy, d0))
    requires Working(h, d0) && Length(h.ram, d0) < 256
    ensures Reaches(code, h, h') && h'.readOnly == h.readOnly && h'.pc == memcpy && h'.sp == h.sp - 2
    ensures h'.g.a == h.g.a && h'.g.b == h.g.b && h'.g.c == h.g.c && h'.g.d == h.g.d && h'.g.z == Length(h.ram, d0)
    ensures OnlyIn(Workspace(h.sp, d0), h.ram, h'.ram) && Length(h'.ram, d0) == Length(h.ram, d0)
    ensures h'.Readable(h'.sp + 1) && h'.Readable(h'.sp + 2) && ReturnAddress(h') == less + 13
  {
    hide At, Reaches, LengthTest, Call, LeaveAll, Pair, Span, Workspace, OnlyIn, ReturnAddress, Hi, Lo, Memcpy16Body, Memcpy16Tail;
    InWorkspace(h, d0);
    TestIn(code, loop, less, memcpy, d0);
    TailIn(code, less, memcpy, d0);
    var w := Workspace(h.sp, d0);
    var h1 := RunFetchLength(code, h, less, d0);
    OnlySame(w, h.ram);
    WriteIn(w, h.ram, h.ram, h.sp, h.g.a);
    h' := RunCall(code, h1, memcpy, less + 13);
    Chain(code, h, h1, h');
    WriteIn(w, h.ram, h1.ram, h.sp, Hi(less + 13));
    WriteIn(w, h.ram, h1.ram[h.sp := Hi(less + 13)], h.sp - 1, Lo(less + 13));
  }

  lemma Memcpy16Last(code: Code, h: Core, loop: word, less: word, m: Callee, d0: word) returns (h': Core)
    requires h.pc == loop && At(code, loop, Memcpy16Body(loop, less, m.entry, d0)) && At(code, less, Memcpy16Tail(less, m.entry, d0))
    requires MemcpyAt(code, m.entry, m.loop, m.done)
    requires Working(h, d0) && Length(h.ram, d0) < 256
    requires Clear(h, d0, Pair(h.g.a, h.g.b), Pair(h.g.c, h.g.d), Length(h.ram, d0))
    ensures Reaches(code, h, h') && h'.pc == less + 13 && h'.sp == h.sp && h'.readOnly == h.readOnly
    ensures OnlyIn(Workspace(h.sp, d0), Copy(h.ram, Pair(h.g.a, h.g.b), Pair(h.g.c, h.g.d), Length(h.ram, d0)), h'.ram)
    ensures Length(h'.ram, d0) == Length(h.ram, d0)
  {
    hide At, Reaches, Pair, Copy, RegsAfter, Room, U16, Given, Len, Span, Workspace, Movable, OnlyIn, MemcpyAt, Memcpy16Body, Memcpy16Tail, ReturnAddress, Length;
    var dst: int, src: int, n: nat := Pair(h.g.a, h.g.b), Pair(h.g.c, h.g.d), Length(h.ram, d0);
    var h1 := RunLastCall(code, h, loop, less, m.entry, d0);
    CallSpace(h, h1, d0, dst, src, n);
    h' := MemcpyRuns(code, h1, m.loop, m.done);
    Chain(code, h, h1, h');
    PassFrame(h, h1.ram, h'.ram, d0, dst, src, n);
  }

  /** What is left of the length once passes of 255 bytes have been taken off it. */
  function Rest(n: nat): nat { if n < 256 then n else Rest(n - 255) }

  lemma {:induction false} RestIs(n: nat)
    ensures Rest(n) == if n == 0 then 0 else 1 + (n - 1) % 255
    decreases n
  {
    if n >= 256 {
      RestIs(n - 255);
    }
  }

  lemma {:induction false} Memcpy16Loop(code: Code, h: Core, loop: word, less: word, m: Callee, d0: word) returns (h': Core)
    requires h.pc == loop && At(code, loop, Memcpy16Body(loop, less, m.entry, d0)) && At(code, less, Memcpy16Tail(less, m.entry, d0))
    requires MemcpyAt(code, m.entry, m.loop, m.done) && less == loop + 54
    requires Working(h, d0) && Clear(h, d0, Pair(h.g.a, h.g.b), Pair(h.g.c, h.g.d), Length(h.ram, d0))
    ensures Reaches(code, h, h') && h'.pc == less + 13 && h'.sp == h.sp && h'.readOnly == h.readOnly
    ensures OnlyIn(Workspace(h.sp, d0), Copy(h.ram, Pair(h.g.a, h.g.b), Pair(h.g.c, h.g.d), Length(h.ram, d0)), h'.ram)
    ensures Length(h'.ram, d0) == Rest(Length(h.ram, d0))
    decreases Length(h.ram, d0)
  {
    hide At, Reaches, Pair, Copy, Room, Given, Span, Workspace, OnlyIn, MemcpyAt, Memcpy16Body, Memcpy16Tail, Length, Clear;
    var dst: int, src: int, n: nat := Pair(h.g.a, h.g.b), Pair(h.g.c, h.g.d), Length(h.ram, d0);
    if n < 256 {
      h' := Memcpy16Last(code, h, loop, less, m, d0);
    } else {
      ClearParts(h, d0, dst, src, n);
      var h1 := Memcpy16Once(code, h, loop, less, m, d0);
      ClearRest(h, h1, d0, dst, src, n);
      h' := Memcpy16Loop(code, h1, loop, less, m, d0);
      Chain(code, h, h1, h');
      PassesAdd(h, h1.ram, h'.ram, d0, dst, src, n);
    }
  }

  lemma ClearParts(h: Core, d0: int, dst: int, src: int, n: nat)
    requires Clear(h, d0, dst, src, n) && n >= 256
    ensures Clear(h, d0, dst, src, 255) && dst + 255 < 65536 && src + 255 < 65536
  {
    assert Span(dst, 255) <= Span(dst, n) && Span(src, 255) <= Span(src, n);
  }

  lemma ClearRest(h: Core, h1: Core, d0: int, dst: int, src: int, n: nat)
    requires Clear(h, d0, dst, src, n) && n >= 256 && Working(h, d0)
    requires h1.sp == h.sp && h1.readOnly == h.readOnly
    requires Given(h.ram, dst, 255) && Given(h.ram, src, 255)
    requires OnlyIn(Workspace(h.sp, d0), Copy(h.ram, dst, src, 255), h1.ram)
    ensures Working(h1, d0) && Clear(h1, d0, dst + 255, src + 255, n - 255)
    ensures Given(h1.ram, dst + 255, n - 255) && Given(h1.ram, src + 255, n - 255)
  {
    hide Copy;
    assert Span(dst + 255, n - 255) <= Span(dst, n) && Span(src + 255, n - 255) <= Span(src, n);
    forall x: int | h1.sp - 7 < x <= h1.sp
      ensures h1.Writable(x)
    {
      assert h.Writable(x);
    }
  }

  lemma PassesAdd(h: Core, ram1: map<word, byte>, ram2: map<word, byte>, d0: int, dst: int, src: int, n: nat)
    requires Clear(h, d0, dst, src, n) && n >= 256
    requires Given(h.ram, dst, 255) && Given(h.ram, src, 255)
    requires OnlyIn(Workspace(h.sp, d0), Copy(h.ram, dst, src, 255), ram1)
    requires Given(ram1, dst + 255, n - 255) && Given(ram1, src + 255, n - 255)
    requires OnlyIn(Workspace(h.sp, d0), Copy(ram1, dst + 255, src + 255, n - 255), ram2)
    ensures OnlyIn(Workspace(h.sp, d0), Copy(h.ram, dst, src, n), ram2)
  {
    hide Copy, Given, Workspace, OnlyIn;
    var w := Workspace(h.sp, d0);
    assert Given(h.ram, dst, 255 + (n - 255)) && Given(h.ram, src, 255 + (n - 255));
    CopyAdd(h.ram, dst, src, 255, n - 255);
    assert Span(dst + 255, n - 255) <= Span(dst, n) && Span(src + 255, n - 255) <= Span(src, n);
    CopyElsewhere(w, Copy(h.ram, dst, src, 255), ram1, dst + 255, src + 255, n - 255);
    OnlyTrans(w, Copy(h.ram, dst, src, n), Copy(ram1, dst + 255, src + 255, n - 255), ram2);
  }

  lemma LessRoom(h: Core, n: nat, m: nat)
    requires Room(h, n) && m <= n
    ensures Room(h, m)
  {
  }

  lemma EntersLoop(h: Core, h1: Core, d0: word, dst: int, src: int, n: nat)
    requires Room(h, 12) && Scratch(h, d0) && Span(d0, 2) !! Span(h.sp - 11, 14) && Movable(h, dst, src, n, 12)
    requires Span(dst, n) !! Span(d0, 2) && Span(src, n) !! Span(d0, 2)
    requires h1.sp == h.sp - 5 && h1.readOnly == h.readOnly && OnlyIn(Span(h.sp - 4, 5), h.ram, h1.ram)
    ensures Working(h1, d0) && Clear(h1, d0, dst, src, n) && Length(h1.ram, d0) == Length(h.ram, d0)
    ensures Given(h1.ram, dst, n) && Given(h1.ram, src, n)
  {
    hide Pair;
    forall x: int | h1.sp - 7 < x <= h1.sp
      ensures h1.Writable(x)
    {
      assert h.Writable(x);
    }
    assert Span(h1.sp - 6, 14) == Span(h.sp - 11, 14);
    assert Span(h.sp - 4, 5) <= Span(h.sp - 11, 14);
    assert Span(h1.sp + 1, 7) <= Span(h.sp - 11, 14);
    assert Span(h1.sp - 6, 7) <= Span(h.sp - 11, 12);
    assert Span(h.sp - 11, 12) <= Span(h.sp - 11, 14);
    assert d0 in Span(d0, 2) && d0 + 1 in Span(d0, 2);
  }

  lemma LeavesLoop(h: Core, h1: Core, ram2: map<word, byte>, d0: word, dst: int, src: int, n: nat)
    requires Room(h, 12) && Span(d0, 2) !! Span(h.sp - 11, 14) && Movable(h, dst, src, n, 12)
    requires h.Readable(h.sp + 1) && h.Readable(h.sp + 2)
    requires h1.sp == h.sp - 5 && OnlyIn(Span(h.sp - 4, 5), h.ram, h1.ram) && SavedAll(h.g, h1.ram, h1.sp)
    requires Given(h1.ram, dst, n) && Given(h1.ram, src, n)
    requires OnlyIn(Workspace(h1.sp, d0), Copy(h1.ram, dst, src, n), ram2)
    ensures OnlyIn(Span(h.sp - 11, 12) + Span(d0, 2), Copy(h.ram, dst, src, n), ram2)
    ensures SavedAll(h.g, ram2, h1.sp) && h.sp + 1 in ram2 && h.sp + 2 in ram2
    ensures ram2[h.sp + 1] == h.ram[h.sp + 1] && ram2[h.sp + 2] == h.ram[h.sp + 2]
  {
    hide Copy, SavedAll, Given;
    var stack, w, all := Span(h.sp - 4, 5), Workspace(h1.sp, d0), Span(h.sp - 11, 12) + Span(d0, 2);
    var mid := Copy(h1.ram, dst, src, n);
    assert Span(h.sp - 11, 12) <= Span(h.sp - 11, 14) && stack <= Span(h.sp - 11, 12);
    CopyElsewhere(stack, h.ram, h1.ram, dst, src, n);
    assert Span(h1.sp - 6, 7) <= Span(h.sp - 11, 12);
    OnlyMore(stack, all, Copy(h.ram, dst, src, n), mid);
    OnlyMore(w, all, mid, ram2);
    OnlyTrans(all, Copy(h.ram, dst, src, n), mid, ram2);
    CopyFrame(h1.ram, dst, src, n);
    assert Span(h1.sp + 1, 5) <= Span(h.sp - 11, 14);
    StaySaved(Span(dst, n), h.g, h1.ram, mid, h1.sp);
    assert Span(h1.sp + 1, 5) !! Span(h1.sp - 6, 7);
    StaySaved(w, h.g, mid, ram2, h1.sp);
    assert h.sp + 1 in Span(h.sp - 11, 14) && h.sp + 2 in Span(h.sp - 11, 14);
    assert h.sp + 1 !in w && h.sp + 2 !in w;
  }

  /**
   memcpy16 makes one forward copy of as many bytes as the word at D0 says, from cd to ab,
   whatever that length is. It returns with the registers and the stack pointer as they were,
   leaves in D0 what remains of the length, and otherwise writes twelve stack cells only.
   */
  lemma Memcpy16Runs(code: Code, h: Core, loop: word, less: word, m: Callee, d0: word) returns (h': Core)
    requires Memcpy16At(code, h.pc, loop, less, m, d0) && Called(h, 12)
    requires Scratch(h, d0) && Span(d0, 2) !! Span(h.sp - 11, 14)
    requires Movable(h, Pair(h.g.a, h.g.b), Pair(h.g.c, h.g.d), Length(h.ram, d0), 12)
    requires Span(Pair(h.g.a, h.g.b), Length(h.ram, d0)) !! Span(d0, 2) && Span(Pair(h.g.c, h.g.d), Length(h.ram, d0)) !! Span(d0, 2)
    ensures Reaches(code, h, h')
    ensures h'.pc == ReturnAddress(h) && h'.sp == h.sp + 2 && SameData(h.g, h'.g) && h'.readOnly == h.readOnly
    ensures OnlyIn(Span(h.sp - 11, 12) + Span(d0, 2), Copy(h.ram, Pair(h.g.a, h.g.b), Pair(h.g.c, h.g.d), Length(h.ram, d0)), h'.ram)
    ensures Length(h'.ram, d0) == Rest(Length(h.ram, d0))
  {
    hide At, Reaches, Pair, Copy, Room, Given, Span, Workspace, OnlyIn, MemcpyAt, Memcpy16Body, Memcpy16Tail, LeaveAll, PushAll, Length, Clear, Movable, Working, SavedAll;
    var dst: int, src: int, n: nat := Pair(h.g.a, h.g.b), Pair(h.g.c, h.g.d), Length(h.ram, d0);
    Memcpy16Parts(code, h.pc, loop, less, m, d0);
    LessRoom(h, 12, 5);
    var h1 := RunPushAll(code, h);
    EntersLoop(h, h1, d0, dst, src, n);
    var h2 := Memcpy16Loop(code, h1, loop, less, m, d0);
    Chain(code, h, h1, h2);
    LeavesLoop(h, h1, h2.ram, d0, dst, src, n);
    TailIn(code, less, m.entry, d0);
    h' := RunLeaveAll(code, h2, h.g);
    Chain(code, h, h2, h');
  }
}
