/**
 The macros of asm/macros.asm that move data between registers, stack and memory, and those
 that transfer control, with what a run of each of them does.
 */
module Blocks {
  import opened Words
  import opened Isa
  import opened Core
  import opened Macros

  /** Registers other than F, H and L are the same. */
  predicate SameData(g: Regs, g': Regs) {
    g'.a == g.a && g'.b == g.b && g'.c == g.c && g'.d == g.d && g'.z == g.z
  }

  /** Nothing but registers and pc differs. */
  predicate SameMemory(h: Core, h': Core) {
    h'.sp == h.sp && h'.ram == h.ram && h'.readOnly == h.readOnly
  }

  // ----- jumps -----

  function Branch(test: Block, t: word): (block: Block)
    ensures Len(block) == Len(test) + 4
  {
    var far := Cat(One(LDA(t)), One(JNZ(Rg(F))));
    assert Len(far) == 4;
    Cat(test, far)
  }

  /** `jnz r, [t]` */
  function JumpNonZero(r: Reg, t: word): (block: Block)
    ensures Len(block) == 4
  {
    Cat(One(LDA(t)), One(JNZ(Rg(r))))
  }

  /** `jmp [t]` */
  function Goto(t: word): (block: Block)
    ensures Len(block) == 5
  {
    Cat(One(LDA(t)), One(JNZ(Imm(1))))
  }

  /** An operand that is looked at after H and L have been set to t. */
  function FarSeen(x: Arg8, g: Regs, t: word): byte {
    if x == Rg(H) then Hi(t) else if x == Rg(L) then Lo(t) else x.Value(g)
  }

  /** LDA [t] and a conditional jump: the operand is looked at after H and L are set. */
  lemma RunFar(code: Code, h: Core, x: Arg8, t: word) returns (h': Core)
    requires At(code, h.pc, Cat(One(LDA(t)), One(JNZ(x))))
    ensures Reaches(code, h, h') && SameMemory(h, h') && SameData(h.g, h'.g) && h'.g.f == h.g.f
    ensures h'.pc == if FarSeen(x, h.g, t) != 0 then t else h.pc + 3 + Size(JNZ(x))
  {
    hide At, Reaches;
    Split(code, h.pc, One(LDA(t)), One(JNZ(x)));
    RunOne(code, h, LDA(t));
    var h1 := After(LDA(t), h);
    RunOne(code, h1, JNZ(x));
    h' := After(JNZ(x), h1);
    Chain(code, h, h1, h');
    PairHiLo(t);
  }

  lemma RunBranch(code: Code, h: Core, test: Block, t: word, cond: bool) returns (h': Core)
    requires At(code, h.pc, Branch(test, t)) && Tests(test, h.g, cond)
    ensures Reaches(code, h, h') && SameMemory(h, h') && SameData(h.g, h'.g)
    ensures h'.pc == if cond then t else h.pc + Len(test) + 4
  {
    hide At, Reaches, RegsAfter;
    var v: byte :| RegsAfter(test, h.g) == h.g.Set(F, v) && (v != 0 <==> cond);
    var far := Cat(One(LDA(t)), One(JNZ(Rg(F))));
    Split(code, h.pc, test, far);
    RunPure(code, h, test);
    var h1 := h.(g := h.g.Set(F, v), pc := h.pc + Len(test));
    h' := RunFar(code, h1, Rg(F), t);
    Chain(code, h, h1, h');
  }

  lemma RunJumpNonZero(code: Code, h: Core, r: Reg, t: word) returns (h': Core)
    requires At(code, h.pc, JumpNonZero(r, t))
    ensures Reaches(code, h, h') && SameMemory(h, h') && SameData(h.g, h'.g) && h'.g.f == h.g.f
    ensures h'.pc == if FarSeen(Rg(r), h.g, t) != 0 then t else h.pc + 4
    ensures r !in {H, L} ==> h'.pc == if h.g.Get(r) != 0 then t else h.pc + 4
    ensures t != h.pc + 4 ==>
      (h'.pc == (if h.g.Get(r) != 0 then t else h.pc + 4) <==> (FarSeen(Rg(r), h.g, t) != 0 <==> h.g.Get(r) != 0))
  {
    hide At, Reaches;
    h' := RunFar(code, h, Rg(r), t);
  }

  /** It goes by the register exactly when that is neither H nor L, or is zero just when the byte of t in its place is. */
  lemma JumpNonZeroExact(g: Regs, r: Reg, t: word)
    ensures (FarSeen(Rg(r), g, t) != 0 <==> g.Get(r) != 0)
      <==> (r == H ==> (Hi(t) != 0 <==> g.h != 0)) && (r == L ==> (Lo(t) != 0 <==> g.l != 0))
  {
    GetH(g);
  }

  lemma RunGoto(code: Code, h: Core, t: word) returns (h': Core)
    requires At(code, h.pc, Goto(t))
    ensures Reaches(code, h, h') && SameMemory(h, h') && SameData(h.g, h'.g) && h'.g.f == h.g.f
    ensures h'.pc == t
  {
    hide At, Reaches;
    h' := RunFar(code, h, Imm(1), t);
  }

  // ----- the stack -----

  function Pushes(rs: seq<Reg>): (block: Block)
    ensures Len(block) == |rs|
  {
    if rs == [] then Nop else Cat(One(PUSH(Rg(rs[0]))), Pushes(rs[1..]))
  }

  /** The n cells from sp down can be written. */
  predicate Room(h: Core, n: nat) {
    n <= h.sp && forall x: int | h.sp - n < x <= h.sp :: h.Writable(x)
  }

  /** The n addresses from lo up. */
  function Span(lo: int, n: nat): set<int> { set x: int | lo <= x < lo + n && InSpan(lo, x, n) }

  predicate InSpan(lo: int, x: int, n: nat) { lo <= x < lo + n }


  /** No byte outside the given cells is different. */
  predicate OnlyIn(cells: set<int>, ram: map<word, byte>, ram': map<word, byte>) {
    ram'.Keys == ram.Keys && forall x | x in ram && x !in cells :: ram'[x] == ram[x]
  }

  lemma {:induction false} RunPushes(code: Code, h: Core, rs: seq<Reg>) returns (h': Core)
    requires At(code, h.pc, Pushes(rs)) && Room(h, |rs|)
    ensures Reaches(code, h, h') && h'.g == h.g && h'.readOnly == h.readOnly
    ensures h'.sp == h.sp - |rs| && h'.pc == h.pc + |rs|
    ensures OnlyIn(Span(h.sp - |rs| + 1, |rs|), h.ram, h'.ram)
    ensures forall x: int | h.sp - |rs| < x <= h.sp :: x in h'.ram && h'.ram[x] == h.g.Get(rs[h.sp - x])
    decreases rs
  {
    hide Regs.Get, Reaches;
    Stay(code, h);
    if rs == [] {
      h' := h;
    } else {
      var i := PUSH(Rg(rs[0]));
      Split(code, h.pc, One(i), Pushes(rs[1..]));
      assert h.Writable(h.sp);
      RunOne(code, h, i);
      var h1 := After(i, h);
      forall x: int | h1.sp - |rs[1..]| < x <= h1.sp
        ensures h1.Writable(x)
      {
        assert h.Writable(x);
      }
      h' := RunPushes(code, h1, rs[1..]);
      Chain(code, h, h1, h');
    }
  }

  function Ret(): (block: Block)
    ensures Len(block) == 4
  {
    Cat(One(POP(L)), Cat(One(POP(H)), One(JNZ(Imm(1)))))
  }

  /** The word that RET would jump to: low byte on top. */
  function ReturnAddress(h: Core): word
    requires h.Readable(h.sp + 1) && h.Readable(h.sp + 2)
  {
    Pair(h.ram[h.sp + 2], h.ram[h.sp + 1])
  }

  lemma RunRet(code: Code, h: Core) returns (h': Core)
    requires At(code, h.pc, Ret()) && h.Readable(h.sp + 1) && h.Readable(h.sp + 2)
    ensures Reaches(code, h, h') && SameData(h.g, h'.g) && h'.g.f == h.g.f
    ensures h' == h.(g := h'.g, sp := h.sp + 2, pc := ReturnAddress(h))
  {
    hide Reaches, At;
    var rest := Cat(One(POP(H)), One(JNZ(Imm(1))));
    Split(code, h.pc, One(POP(L)), rest);
    Split(code, h.pc + 1, One(POP(H)), One(JNZ(Imm(1))));
    RunOne(code, h, POP(L));
    var h1 := After(POP(L), h);
    RunOne(code, h1, POP(H));
    var h2 := After(POP(H), h1);
    Chain(code, h, h1, h2);
    RunOne(code, h2, JNZ(Imm(1)));
    h' := After(JNZ(Imm(1)), h2);
    Chain(code, h, h2, h');
  }

  function Pops(rs: seq<Reg>): (block: Block)
    ensures Len(block) == |rs|
  {
    if rs == [] then Nop else Cat(One(POP(rs[0])), Pops(rs[1..]))
  }

  /** Popping rs, the first of them from the top of the stack. */
  function Popped(g: Regs, ram: map<word, byte>, sp: int, rs: seq<Reg>): Regs
    requires forall x: int | sp < x <= sp + |rs| :: x in ram
    decreases rs
  {
    if rs == [] then g else Popped(g.Set(rs[0], ram[sp + 1]), ram, sp + 1, rs[1..])
  }

  lemma {:induction false} RunPops(code: Code, h: Core, rs: seq<Reg>)
    requires At(code, h.pc, Pops(rs)) && forall x: int | h.sp < x <= h.sp + |rs| :: x in h.ram
    ensures h.sp + |rs| < 65536
    ensures Reaches(code, h, h.(g := Popped(h.g, h.ram, h.sp, rs), sp := h.sp + |rs|, pc := h.pc + |rs|))
    decreases rs
  {
    hide Regs.Set, Reaches;
    Stay(code, h);
    if rs != [] {
      var i := POP(rs[0]);
      Split(code, h.pc, One(i), Pops(rs[1..]));
      assert h.sp + 1 in h.ram;
      RunOne(code, h, i);
      var h1 := After(i, h);
      RunPops(code, h1, rs[1..]);
      Chain(code, h, h1, h1.(g := Popped(h1.g, h1.ram, h1.sp, rs[1..]), sp := h1.sp + |rs[1..]|, pc := h1.pc + |rs[1..]|));
    }
  }

  /** The end of a routine: registers come back off the stack, and control returns to the caller. */
  function Leave(rs: seq<Reg>): (block: Block)
    ensures Len(block) == |rs| + 4
  {
    Cat(Pops(rs), Ret())
  }

  lemma RunLeave(code: Code, h: Core, rs: seq<Reg>) returns (h': Core)
    requires At(code, h.pc, Leave(rs)) && forall x: int | h.sp < x <= h.sp + |rs| + 2 :: x in h.ram
    ensures Reaches(code, h, h') && h'.ram == h.ram && h'.readOnly == h.readOnly
    ensures h'.sp == h.sp + |rs| + 2 && h'.pc == Pair(h.ram[h.sp + |rs| + 2], h.ram[h.sp + |rs| + 1])
    ensures SameData(Popped(h.g, h.ram, h.sp, rs), h'.g) && h'.g.f == Popped(h.g, h.ram, h.sp, rs).f
  {
    hide Reaches, At, Regs.Set, Popped;
    Split(code, h.pc, Pops(rs), Ret());
    RunPops(code, h, rs);
    var h1 := h.(g := Popped(h.g, h.ram, h.sp, rs), sp := h.sp + |rs|, pc := h.pc + |rs|);
    assert h1.sp + 1 in h.ram && h1.sp + 2 in h.ram;
    h' := RunRet(code, h1);
    Chain(code, h, h1, h');
  }

  // ----- memory -----

  /** `lw16 hi, lo, [addr]`: the low register is loaded first. */
  function Lw16(hi: Reg, lo: Reg, addr: word): (block: Block)
    ensures Len(block) == 6
  {
    Cat(One(LW(lo, Abs(addr))), One(LW(hi, Abs(U16(addr + 1)))))
  }

  lemma RunLw16(code: Code, h: Core, hi: Reg, lo: Reg, addr: word)
    requires At(code, h.pc, Lw16(hi, lo, addr)) && h.Readable(addr) && h.Readable(addr + 1)
    ensures Reaches(code, h, h.(g := h.g.Set(lo, h.ram[addr]).Set(hi, h.ram[addr + 1]), pc := h.pc + 6))
  {
    hide Reaches, At, Regs.Set;
    var i, j := LW(lo, Abs(addr)), LW(hi, Abs(U16(addr + 1)));
    Split(code, h.pc, One(i), One(j));
    RunOne(code, h, i);
    var h1 := After(i, h);
    RunOne(code, h1, j);
    Chain(code, h, h1, After(j, h1));
  }

  /** `sw16 [addr], hi, lo` */
  function Sw16(addr: word, hi: Reg, lo: Reg): (block: Block)
    ensures Len(block) == 6
  {
    Cat(One(SW(Abs(addr), lo)), One(SW(Abs(U16(addr + 1)), hi)))
  }

  lemma RunSw16(code: Code, h: Core, addr: word, hi: Reg, lo: Reg)
    requires At(code, h.pc, Sw16(addr, hi, lo)) && h.Writable(addr) && h.Writable(addr + 1)
    ensures Reaches(code, h, h.(ram := h.ram[addr := h.g.Get(lo)][addr + 1 := h.g.Get(hi)], pc := h.pc + 6))
  {
    hide Reaches, At, Regs.Get;
    var i, j := SW(Abs(addr), lo), SW(Abs(U16(addr + 1)), hi);
    Split(code, h.pc, One(i), One(j));
    RunOne(code, h, i);
    var h1 := After(i, h);
    RunOne(code, h1, j);
    Chain(code, h, h1, After(j, h1));
  }

  /** `lw r, hi, lo` */
  function LwAt(r: Reg, hi: Reg, lo: Reg): (block: Block)
    ensures Len(block) == 5
  {
    Cat(Point(hi, lo), One(LW(r, AtHL)))
  }

  /** `sw hi, lo, r` */
  function SwAt(hi: Reg, lo: Reg, r: Reg): (block: Block)
    ensures Len(block) == 5
  {
    Cat(Point(hi, lo), One(SW(AtHL, r)))
  }

  /** HL becomes the word in a register pair: the macro LDA with two registers. */
  function Point(hi: Reg, lo: Reg): (block: Block)
    ensures Len(block) == 4 && Pure(block)
  {
    Cat(One(MW(H, Rg(hi))), One(MW(L, Rg(lo))))
  }

  /** The low register as it is read when H has been set from the high one. */
  function LowSeen(g: Regs, hi: Reg, lo: Reg): byte {
    if lo == H then g.Get(hi) else g.Get(lo)
  }

  /** The word that HL becomes. */
  function Pointed(g: Regs, hi: Reg, lo: Reg): word {
    Pair(g.Get(hi), LowSeen(g, hi, lo))
  }

  /** The word of the pair, exactly when the low register is not H, or would not be changed. */
  lemma PointedExact(g: Regs, hi: Reg, lo: Reg)
    ensures Pointed(g, hi, lo) == GetPair(g, hi, lo) <==> lo != H || g.Get(hi) == g.h
  {
    hide Regs.Get, Pair;
    PairSame(g.Get(hi), LowSeen(g, hi, lo), g.Get(hi), g.Get(lo));
    assert g.Get(H) == g.h by { GetH(g); }
  }

  lemma GetH(g: Regs)
    ensures g.Get(H) == g.h && g.Get(L) == g.l
  {
  }

  lemma RunPoint(code: Code, h: Core, hi: Reg, lo: Reg)
    requires At(code, h.pc, Point(hi, lo))
    ensures h.pc + 4 <= 0xFFFA
    ensures Reaches(code, h, h.(g := h.g.(h := h.g.Get(hi), l := LowSeen(h.g, hi, lo)), pc := h.pc + 4))
  {
    hide At, Reaches;
    RunPure(code, h, Point(hi, lo));
    RegsCat(One(MW(H, Rg(hi))), One(MW(L, Rg(lo))), h.g);
    RegsOne(MW(H, Rg(hi)), h.g);
    RegsOne(MW(L, Rg(lo)), h.g.(h := h.g.Get(hi)));
  }

  /** LW through a pair, whatever the registers. */
  lemma RunLwAt(code: Code, h: Core, r: Reg, hi: Reg, lo: Reg) returns (h': Core)
    requires At(code, h.pc, LwAt(r, hi, lo)) && h.Readable(Pointed(h.g, hi, lo))
    ensures Reaches(code, h, h') && SameMemory(h, h') && h'.pc == h.pc + 5
    ensures h'.g == h.g.(h := h.g.Get(hi), l := LowSeen(h.g, hi, lo)).Set(r, h.ram[Pointed(h.g, hi, lo)])
  {
    hide At, Reaches, Point, Regs.Get, Regs.Set;
    var i := LW(r, AtHL);
    Split(code, h.pc, Point(hi, lo), One(i));
    RunPoint(code, h, hi, lo);
    var h1 := h.(g := h.g.(h := h.g.Get(hi), l := LowSeen(h.g, hi, lo)), pc := h.pc + 4);
    RunOne(code, h1, i);
    h' := After(i, h1);
    Chain(code, h, h1, h');
  }

  /** The byte that SW through a pair stores: H and L have been set when it is read. */
  function ByteSeen(g: Regs, hi: Reg, lo: Reg, r: Reg): byte {
    if r == H then g.Get(hi) else if r == L then LowSeen(g, hi, lo) else g.Get(r)
  }

  lemma RunSwAt(code: Code, h: Core, hi: Reg, lo: Reg, r: Reg) returns (h': Core)
    requires At(code, h.pc, SwAt(hi, lo, r)) && h.Writable(Pointed(h.g, hi, lo))
    ensures Reaches(code, h, h') && SameData(h.g, h'.g) && h'.g.f == h.g.f
    ensures h' == h.(g := h'.g, ram := h.ram[Pointed(h.g, hi, lo) := ByteSeen(h.g, hi, lo, r)], pc := h.pc + 5)
  {
    hide At, Reaches, Point;
    var i := SW(AtHL, r);
    Split(code, h.pc, Point(hi, lo), One(i));
    RunPoint(code, h, hi, lo);
    var h1 := h.(g := h.g.(h := h.g.Get(hi), l := LowSeen(h.g, hi, lo)), pc := h.pc + 4);
    RunOne(code, h1, i);
    h' := After(i, h1);
    Chain(code, h, h1, h');
  }

  /**
   The registers of a load or store through a pair do what they say exactly when H is not the low
   one, and neither H nor L is stored, or setting HL leaves them as they are.
   */
  lemma StoredExact(g: Regs, hi: Reg, lo: Reg, r: Reg)
    ensures Pointed(g, hi, lo) == GetPair(g, hi, lo) && ByteSeen(g, hi, lo, r) == g.Get(r)
      <==> (lo == H || r == H ==> g.Get(hi) == g.h) && (r == L ==> g.Get(lo) == g.l)
  {
    hide Regs.Get, Pair;
    PointedExact(g, hi, lo);
    GetH(g);
  }

  // ----- calls -----

  /** A routine has been called: n cells of stack to work with, and a return address it must not overwrite. */
  predicate Called(h: Core, n: nat) {
    Room(h, n) && h.Readable(h.sp + 1) && h.Readable(h.sp + 2)
  }

  /** `call [t]`, when the instruction after it is at ret. */
  function Call(t: word, ret: word): (block: Block)
    ensures Len(block) == 9
  {
    Cat(Cat(One(PUSH(Imm(Hi(ret)))), One(PUSH(Imm(Lo(ret))))), Goto(t))
  }

  /** A call leaves the address of the next instruction where RET will find it. */
  lemma RunCall(code: Code, h: Core, t: word, ret: word) returns (h': Core)
    requires At(code, h.pc, Call(t, ret)) && Room(h, 2)
    ensures Reaches(code, h, h') && SameData(h.g, h'.g) && h'.readOnly == h.readOnly
    ensures h'.pc == t && h'.sp == h.sp - 2 && h'.ram == h.ram[h.sp := Hi(ret)][h.sp - 1 := Lo(ret)]
    ensures h'.Readable(h'.sp + 1) && h'.Readable(h'.sp + 2) && ReturnAddress(h') == ret
  {
    hide At, Reaches, Goto;
    var i, j := PUSH(Imm(Hi(ret))), PUSH(Imm(Lo(ret)));
    Split(code, h.pc, Cat(One(i), One(j)), Goto(t));
    Split(code, h.pc, One(i), One(j));
    assert h.Writable(h.sp) && h.Writable(h.sp - 1);
    RunOne(code, h, i);
    var h1 := After(i, h);
    RunOne(code, h1, j);
    var h2 := After(j, h1);
    Chain(code, h, h1, h2);
    h' := RunGoto(code, h2, t);
    Chain(code, h, h2, h');
    PairHiLo(ret);
  }

  lemma Pop3(g: Regs, ram: map<word, byte>, sp: int, r: Reg, q: Reg, p: Reg)
    requires sp + 1 in ram && sp + 2 in ram && sp + 3 in ram
    ensures forall x: int | sp < x <= sp + |[r, q, p]| :: x in ram
    ensures Popped(g, ram, sp, [r, q, p]) == g.Set(r, ram[sp + 1]).Set(q, ram[sp + 2]).Set(p, ram[sp + 3])
  {
    hide Regs.Set;
    var g1 := g.Set(r, ram[sp + 1]);
    var g2 := g1.Set(q, ram[sp + 2]);
    assert [r, q, p][1..] == [q, p] && [q, p][1..] == [p] && [p][1..] == [];
    assert Popped(g2, ram, sp + 2, [p]) == g2.Set(p, ram[sp + 3]);
    assert Popped(g1, ram, sp + 1, [q, p]) == Popped(g2, ram, sp + 2, [p]);
  }

  // ----- pairs on the stack -----

  lemma Pair2(r: Reg, q: Reg)
    ensures Pushes([r, q]) == Cat(One(PUSH(Rg(r))), Cat(One(PUSH(Rg(q))), Nop))
    ensures Pops([r, q]) == Cat(One(POP(r)), Cat(One(POP(q)), Nop))
  {
    assert [r, q][1..] == [q] && [q][1..] == [];
    assert Pushes([q]) == Cat(One(PUSH(Rg(q))), Nop) && Pops([q]) == Cat(One(POP(q)), Nop);
  }

  lemma RunPush2(code: Code, h: Core, r: Reg, q: Reg) returns (h': Core)
    requires At(code, h.pc, Pushes([r, q])) && Room(h, 2)
    ensures Reaches(code, h, h') && h.sp >= 2 && h.pc + 2 < 65536
    ensures h' == h.(ram := h.ram[h.sp := h.g.Get(r)][h.sp - 1 := h.g.Get(q)], sp := h.sp - 2, pc := h.pc + 2)
    ensures h'.ram.Keys == h.ram.Keys
  {
    hide At, Reaches, Regs.Get;
    Pair2(r, q);
    var i, j := PUSH(Rg(r)), PUSH(Rg(q));
    Split(code, h.pc, One(i), Cat(One(j), Nop));
    Split(code, h.pc + 1, One(j), Nop);
    assert h.Writable(h.sp) && h.Writable(h.sp - 1);
    RunOne(code, h, i);
    var h1 := After(i, h);
    RunOne(code, h1, j);
    h' := After(j, h1);
    Chain(code, h, h1, h');
  }

  lemma RunPop2(code: Code, h: Core, r: Reg, q: Reg) returns (h': Core)
    requires At(code, h.pc, Pops([r, q])) && h.Readable(h.sp + 1) && h.Readable(h.sp + 2)
    ensures Reaches(code, h, h') && h.pc + 2 < 65536
    ensures h' == h.(g := h.g.Set(r, h.ram[h.sp + 1]).Set(q, h.ram[h.sp + 2]), sp := h.sp + 2, pc := h.pc + 2)
  {
    hide At, Reaches, Regs.Set;
    Pair2(r, q);
    var i, j := POP(r), POP(q);
    Split(code, h.pc, One(i), Cat(One(j), Nop));
    Split(code, h.pc + 1, One(j), Nop);
    RunOne(code, h, i);
    var h1 := After(i, h);
    RunOne(code, h1, j);
    h' := After(j, h1);
    Chain(code, h, h1, h');
  }

  /** Two registers come back, and control returns to the caller. */
  lemma RunLeave2(code: Code, h: Core, r: Reg, q: Reg) returns (h': Core)
    requires At(code, h.pc, Leave([r, q]))
    requires h.Readable(h.sp + 1) && h.Readable(h.sp + 2) && h.Readable(h.sp + 3) && h.Readable(h.sp + 4)
    ensures Reaches(code, h, h') && h'.ram == h.ram && h'.readOnly == h.readOnly
    ensures h'.sp == h.sp + 4 && h'.pc == Pair(h.ram[h.sp + 4], h.ram[h.sp + 3])
    ensures var g' := h.g.Set(r, h.ram[h.sp + 1]).Set(q, h.ram[h.sp + 2]); SameData(g', h'.g) && h'.g.f == g'.f
  {
    hide At, Reaches, Regs.Set, Pops, Ret, Pair;
    Split(code, h.pc, Pops([r, q]), Ret());
    var h1 := RunPop2(code, h, r, q);
    h' := RunRet(code, h1);
    Chain(code, h, h1, h');
  }

  // ----- PUSHA and POPA -----

  function PushAll(): (block: Block)
    ensures Len(block) == 5
  {
    Pushes([A, B, C, D, Z])
  }

  function LeaveAll(): (block: Block)
    ensures Len(block) == 9
  {
    Leave([Z, D, C, B, A])
  }

  /** The general purpose registers of g lie on top of the stack, as PUSHA leaves them. */
  predicate SavedAll(g: Regs, ram: map<word, byte>, sp: int) {
    && sp + 1 in ram && sp + 2 in ram && sp + 3 in ram && sp + 4 in ram && sp + 5 in ram
    && ram[sp + 1] == g.z && ram[sp + 2] == g.d && ram[sp + 3] == g.c && ram[sp + 4] == g.b && ram[sp + 5] == g.a
  }

  lemma StaySaved(cells: set<int>, g: Regs, ram: map<word, byte>, ram': map<word, byte>, sp: int)
    requires SavedAll(g, ram, sp) && OnlyIn(cells, ram, ram') && Span(sp + 1, 5) !! cells
    ensures SavedAll(g, ram', sp)
  {
    assert forall k | k in Span(sp + 1, 5) :: k !in cells;
    assert InSpan(sp + 1, sp + 1, 5) && InSpan(sp + 1, sp + 2, 5) && InSpan(sp + 1, sp + 3, 5) && InSpan(sp + 1, sp + 4, 5) && InSpan(sp + 1, sp + 5, 5);
    assert sp + 1 in Span(sp + 1, 5) && sp + 2 in Span(sp + 1, 5) && sp + 3 in Span(sp + 1, 5) && sp + 4 in Span(sp + 1, 5) && sp + 5 in Span(sp + 1, 5);
  }

  lemma RunPushAll(code: Code, h: Core) returns (h': Core)
    requires At(code, h.pc, PushAll()) && Room(h, 5)
    ensures Reaches(code, h, h') && h'.g == h.g && h'.readOnly == h.readOnly
    ensures h'.sp == h.sp - 5 && h'.pc == h.pc + 5 && OnlyIn(Span(h.sp - 4, 5), h.ram, h'.ram)
    ensures SavedAll(h.g, h'.ram, h'.sp)
  {
    hide At, Reaches, Pushes, Room, OnlyIn;
    h' := RunPushes(code, h, [A, B, C, D, Z]);
  }

  lemma PoppedAll(g: Regs, ram: map<word, byte>, sp: int, saved: Regs)
    requires SavedAll(saved, ram, sp)
    ensures forall x: int | sp < x <= sp + |[Z, D, C, B, A]| :: x in ram
    ensures SameData(saved, Popped(g, ram, sp, [Z, D, C, B, A]))
  {
    assert [Z, D, C, B, A][1..] == [D, C, B, A] && [D, C, B, A][1..] == [C, B, A];
    var g2 := g.(z := ram[sp + 1]).(d := ram[sp + 2]);
    Pop3(g2, ram, sp + 2, C, B, A);
    assert Popped(g.(z := ram[sp + 1]), ram, sp + 1, [D, C, B, A]) == Popped(g2, ram, sp + 2, [C, B, A]);
  }

  /** POPA and RET undo PUSHA and the call. */
  lemma RunLeaveAll(code: Code, h: Core, saved: Regs) returns (h': Core)
    requires At(code, h.pc, LeaveAll()) && SavedAll(saved, h.ram, h.sp)
    requires h.Readable(h.sp + 6) && h.Readable(h.sp + 7)
    ensures Reaches(code, h, h') && h'.ram == h.ram && h'.readOnly == h.readOnly
    ensures h'.sp == h.sp + 7 && h'.pc == Pair(h.ram[h.sp + 7], h.ram[h.sp + 6])
    ensures SameData(saved, h'.g)
  {
    hide At, Reaches, Popped, Leave, Pair, SavedAll;
    PoppedAll(h.g, h.ram, h.sp, saved);
    h' := RunLeave(code, h, [Z, D, C, B, A]);
  }
}
