/**
 The register macros of asm/macros.asm, written out as the native instructions they expand
 to, and what each of them computes.
 */
module Macros {
  import opened Words
  import opened Isa
  import opened Core

  function GetPair(g: Regs, hi: Reg, lo: Reg): word { Pair(g.Get(hi), g.Get(lo)) }

  function SetPair(g: Regs, hi: Reg, lo: Reg, w: word): Regs {
    g.Set(lo, Lo(w)).Set(hi, Hi(w))
  }

  lemma PairHiLo(w: word)
    ensures Pair(Hi(w), Lo(w)) == w
  {
  }

  lemma PairLow(x: byte)
    ensures Pair(0, x) == x
  {
  }

  // ----- 16-bit arithmetic -----

  function Add16(hi: Reg, lo: Reg, xhi: Arg8, xlo: Arg8): (block: Block)
    ensures Pure(block) && Len(block) == 4
  {
    Cat(One(ALU(ADD, lo, xlo)), One(ALU(ADC, hi, xhi)))
  }

  /** SUB16 as it stands: the borrow left by earlier code goes in. */
  function Sub16(hi: Reg, lo: Reg, xhi: Arg8, xlo: Arg8): (block: Block)
    ensures Pure(block) && Len(block) == 4
  {
    Cat(One(ALU(SBB, lo, xlo)), One(ALU(SBB, hi, xhi)))
  }

  /** The pair is two registers that the flags do not share, and the high operand survives the first instruction. */
  predicate Usable(hi: Reg, lo: Reg, xhi: Arg8) {
    hi != lo && hi != F && lo != F && xhi != Rg(lo) && xhi != Rg(F)
  }

  /** The two bytes of 256h + l. */
  lemma BytesOf16(h: int, l: byte)
    ensures var w := U16(256 * h + l); Lo(w) == l && Hi(w) == U8(h)
  {
    var q, r := h / 256, h % 256;
    Divides(256 * h + l, 65536, q, 256 * r + l);
    Divides(256 * r + l, 256, r, l);
    assert U8(h) == r && U16(256 * h + l) == 256 * r + l;
  }

  /** A sum of two bytes and the carry into the next one make up the 16-bit sum. */
  lemma AddBytes(hi: byte, lo: byte, x: byte, y: byte)
    ensures var w := U16(Pair(hi, lo) + Pair(x, y));
      U8(lo + y) == Lo(w) && U8(hi + x + Carry(Flags(lo, y))) == Hi(w)
  {
    hide Lo, Hi, U16, Bit, Flags;
    FlagBits(lo, y);
    var c: int := Carry(Flags(lo, y));
    var l: int := lo + y - 256 * c;
    assert U8(lo + y) == l;
    BytesOf16(hi + x + c, l);
    assert 256 * (hi + x + c) + l == Pair(hi, lo) + Pair(x, y);
  }

  lemma SubBytes(hi: byte, lo: byte, x: byte, y: byte)
    ensures var w := U16(Pair(hi, lo) - Pair(x, y));
      U8(lo - y) == Lo(w) && U8(hi - x - Borrow(Flags(lo, y))) == Hi(w)
  {
    hide Lo, Hi, U16, Bit, Flags;
    FlagBits(lo, y);
    var c: int := Borrow(Flags(lo, y));
    var l: int := lo - y + 256 * c;
    assert U8(lo - y) == l;
    BytesOf16(hi - x - c, l);
    assert 256 * (hi - x - c) + l == Pair(hi, lo) - Pair(x, y);
  }

  /** The high operand as the second instruction reads it, after the first has changed lo and F. */
  function Reread(xhi: Arg8, g: Regs, lo: Reg, s: byte, fl: byte): byte {
    if xhi == Rg(lo) then s else if xhi == Rg(F) then fl else xhi.Value(g)
  }

  lemma RereadIs(xhi: Arg8, g: Regs, lo: Reg, s: byte, fl: byte)
    requires lo != F
    ensures xhi.Value(g.Set(lo, s).Set(F, fl)) == Reread(xhi, g, lo, s, fl)
  {
    hide Regs.Get, Regs.Set;
    if xhi.Rg? {
      GetSet(g, lo, s, xhi.r);
      GetSet(g.Set(lo, s), F, fl, xhi.r);
    }
  }

  /** Two arithmetic instructions in a row, on the low and then the high register. */
  lemma TwiceAny(op1: AluOp, op2: AluOp, g: Regs, hi: Reg, lo: Reg, xhi: Arg8, xlo: Arg8)
    requires hi != lo && hi != F && lo != F && LoadsFlags(op1) && LoadsFlags(op2)
    ensures
      var a, b, y := g.Get(hi), g.Get(lo), xlo.Value(g);
      var s, fl := AluResult(op1, b, y, g.f), Flags(b, y);
      var x := Reread(xhi, g, lo, s, fl);
      RegsAfter(Cat(One(ALU(op1, lo, xlo)), One(ALU(op2, hi, xhi))), g)
        == g.Set(lo, s).Set(hi, AluResult(op2, a, x, fl)).Set(F, Flags(a, x))
  {
    hide Regs.Get, Regs.Set, Flags, AluResult;
    var a: byte, b: byte, y: byte := g.Get(hi), g.Get(lo), xlo.Value(g);
    var s: byte, fl: byte := AluResult(op1, b, y, g.f), Flags(b, y);
    var g0 := g.Set(lo, s);
    var g1 := g0.Set(F, fl);
    RegsOne(ALU(op1, lo, xlo), g);
    GetSet(g, lo, s, hi);
    GetSet(g0, F, fl, hi);
    SetFlags(g0, fl);
    RereadIs(xhi, g, lo, s, fl);
    var x: byte := xhi.Value(g1);
    RegsOne(ALU(op2, hi, xhi), g1);
    var v: byte := AluResult(op2, a, x, fl);
    SetSwap(g0, F, fl, hi, v);
    SetTwice(g0.Set(hi, v), F, fl, Flags(a, x));
    RegsCat(One(ALU(op1, lo, xlo)), One(ALU(op2, hi, xhi)), g);
  }

  lemma Twice(op1: AluOp, op2: AluOp, g: Regs, hi: Reg, lo: Reg, xhi: Arg8, xlo: Arg8)
    requires Usable(hi, lo, xhi) && LoadsFlags(op1) && LoadsFlags(op2)
    ensures Pure(Cat(One(ALU(op1, lo, xlo)), One(ALU(op2, hi, xhi))))
    ensures
      var a, b, x, y := g.Get(hi), g.Get(lo), xhi.Value(g), xlo.Value(g);
      RegsAfter(Cat(One(ALU(op1, lo, xlo)), One(ALU(op2, hi, xhi))), g)
        == g.Set(lo, AluResult(op1, b, y, g.f)).Set(hi, AluResult(op2, a, x, Flags(b, y))).Set(F, Flags(a, x))
  {
    hide Regs.Get, Regs.Set, Flags, AluResult, RegsAfter;
    TwiceAny(op1, op2, g, hi, lo, xhi, xlo);
  }

  /** The pair after two such instructions. */
  lemma TwicePair(op1: AluOp, op2: AluOp, g: Regs, hi: Reg, lo: Reg, xhi: Arg8, xlo: Arg8)
    requires hi != lo && hi != F && lo != F && LoadsFlags(op1) && LoadsFlags(op2)
    ensures
      var a, b, y := g.Get(hi), g.Get(lo), xlo.Value(g);
      var s, fl := AluResult(op1, b, y, g.f), Flags(b, y);
      var x := Reread(xhi, g, lo, s, fl);
      GetPair(RegsAfter(Cat(One(ALU(op1, lo, xlo)), One(ALU(op2, hi, xhi))), g), hi, lo) == Pair(AluResult(op2, a, x, fl), s)
  {
    hide Regs.Get, Regs.Set, Flags, AluResult, RegsAfter, Reread, Pair;
    TwiceAny(op1, op2, g, hi, lo, xhi, xlo);
    var a: byte, b: byte, y: byte := g.Get(hi), g.Get(lo), xlo.Value(g);
    var s: byte, fl: byte := AluResult(op1, b, y, g.f), Flags(b, y);
    var x: byte := Reread(xhi, g, lo, s, fl);
    var v: byte := AluResult(op2, a, x, fl);
    var g2 := g.Set(lo, s).Set(hi, v);
    GetSet(g, lo, s, lo);
    GetSet(g.Set(lo, s), hi, v, hi);
    GetSet(g.Set(lo, s), hi, v, lo);
    GetSet(g2, F, Flags(a, x), hi);
    GetSet(g2, F, Flags(a, x), lo);
  }

  /** ADD16 computes the 16-bit sum. */
  lemma Add16Adds(g: Regs, hi: Reg, lo: Reg, xhi: Arg8, xlo: Arg8)
    requires Usable(hi, lo, xhi)
    ensures var x := xhi.Value(g);
      RegsAfter(Add16(hi, lo, xhi, xlo), g)
        == SetPair(g, hi, lo, U16(GetPair(g, hi, lo) + Pair(x, xlo.Value(g)))).Set(F, Flags(g.Get(hi), x))
  {
    hide Regs.Get, Regs.Set, Flags, U8, U16, Pair, Carry, Hi, Lo, Arg8.Value, RegsAfter;
    Twice(ADD, ADC, g, hi, lo, xhi, xlo);
    AddBytes(g.Get(hi), g.Get(lo), xhi.Value(g), xlo.Value(g));
  }

  /** What keeps the high operand from being changed before it is read. */
  predicate Intact(g: Regs, lo: Reg, xhi: Arg8, xlo: Arg8) {
    && (xhi == Rg(lo) ==> xlo.Value(g) == 0)
    && (xhi == Rg(F) ==> Flags(g.Get(lo), xlo.Value(g)) == g.f)
  }

  /**
   ADD16 gives the 16-bit sum exactly when its high operand is not the register that it changes
   first, or is not really changed there: `add16 a, b, b, c` is right for c zero only.
   */
  lemma Add16Exact(g: Regs, hi: Reg, lo: Reg, xhi: Arg8, xlo: Arg8)
    requires hi != lo && hi != F && lo != F
    ensures (GetPair(RegsAfter(Add16(hi, lo, xhi, xlo), g), hi, lo) == U16(GetPair(g, hi, lo) + Pair(xhi.Value(g), xlo.Value(g))))
      <==> Intact(g, lo, xhi, xlo)
  {
    hide Regs.Set, Flags, U16, Pair, Hi, Lo, RegsAfter, Carry;
    var a: byte, b: byte, x: byte, y: byte := g.Get(hi), g.Get(lo), xhi.Value(g), xlo.Value(g);
    TwicePair(ADD, ADC, g, hi, lo, xhi, xlo);
    var s: byte, fl: byte := U8(b + y), Flags(b, y);
    var x1: byte := Reread(xhi, g, lo, s, fl);
    AddBytes(a, b, x, y);
    PairHiLo(U16(Pair(a, b) + Pair(x, y)));
    SamePair(U8(a + x1 + Carry(fl)), U8(a + x + Carry(fl)), s);
    SameShift(a + Carry(fl), x1, x);
    SameShift(b, y, 0);
  }

  lemma SamePair(u: byte, v: byte, s: byte)
    ensures Pair(u, s) == Pair(v, s) <==> u == v
  {
  }

  /** Adding two bytes to the same number gives the same byte exactly when they are equal. */
  lemma SameShift(n: int, x: byte, y: byte)
    ensures U8(n + x) == U8(n + y) <==> x == y
  {
    hide U8;
    WholeAndRest(n + x);
    WholeAndRest(n + y);
  }

  lemma SameShiftDown(n: int, x: byte, y: byte)
    ensures U8(n - x) == U8(n - y) <==> x == y
  {
    hide U8;
    WholeAndRest(n - x);
    WholeAndRest(n - y);
  }

  lemma WholeAndRest(n: int)
    ensures n == 256 * (n / 256) + U8(n)
  {
  }

  /** With BORROW clear, SUB16 computes the 16-bit difference. */
  lemma Sub16Subtracts(g: Regs, hi: Reg, lo: Reg, xhi: Arg8, xlo: Arg8)
    requires Usable(hi, lo, xhi) && !Bit(g.f, 3)
    ensures var x := xhi.Value(g);
      RegsAfter(Sub16(hi, lo, xhi, xlo), g)
        == SetPair(g, hi, lo, U16(GetPair(g, hi, lo) - Pair(x, xlo.Value(g)))).Set(F, Flags(g.Get(hi), x))
  {
    hide Regs.Get, Regs.Set, Flags, U8, U16, Pair, Bit, Hi, Lo, Arg8.Value, RegsAfter;
    Twice(SBB, SBB, g, hi, lo, xhi, xlo);
    SubBytes(g.Get(hi), g.Get(lo), xhi.Value(g), xlo.Value(g));
  }

  /**
   SUB16 gives the 16-bit difference exactly when BORROW was clear and its high operand is not
   changed before it is read.
   */
  lemma Sub16Exact(g: Regs, hi: Reg, lo: Reg, xhi: Arg8, xlo: Arg8)
    requires hi != lo && hi != F && lo != F
    ensures (GetPair(RegsAfter(Sub16(hi, lo, xhi, xlo), g), hi, lo) == U16(GetPair(g, hi, lo) - Pair(xhi.Value(g), xlo.Value(g))))
      <==> !Bit(g.f, 3) && Intact(g, lo, xhi, xlo)
  {
    hide Regs.Set, Flags, U16, Pair, Hi, Lo, RegsAfter, Bit;
    var a: byte, b: byte, x: byte, y: byte := g.Get(hi), g.Get(lo), xhi.Value(g), xlo.Value(g);
    TwicePair(SBB, SBB, g, hi, lo, xhi, xlo);
    var s: byte, fl: byte := U8(b - y - Borrow(g.f)), Flags(b, y);
    var x1: byte := Reread(xhi, g, lo, s, fl);
    LowDifference(a, b, x, y, g.f);
    if Bit(g.f, 3) {
      PairLowByte(U8(a - x1 - Borrow(fl)), s);
    } else {
      SamePair(U8(a - x1 - Borrow(fl)), U8(a - x - Borrow(fl)), s);
      SameShiftDown(a - Borrow(fl), x1, x);
      SameShiftDown(b, y, 0);
    }
  }

  lemma LowDifference(a: byte, b: byte, x: byte, y: byte, f: byte)
    ensures var w := U16(Pair(a, b) - Pair(x, y));
      && (AluResult(SBB, b, y, f) == Lo(w) <==> !Bit(f, 3))
      && (!Bit(f, 3) ==> Pair(AluResult(SBB, a, x, Flags(b, y)), AluResult(SBB, b, y, f)) == w)
  {
    hide Flags, Bit, U16, Hi, Lo;
    SubBytes(a, b, x, y);
    PairHiLo(U16(Pair(a, b) - Pair(x, y)));
    assert U8(b - y) != U8(b - y - 1);
  }

  lemma PairLowByte(v: byte, s: byte)
    ensures Lo(Pair(v, s)) == s
  {
  }

  /** INC16 is ADD16 by one. */
  function Inc16(hi: Reg, lo: Reg): (block: Block)
    ensures Pure(block) && Len(block) == 4
  {
    Cat(One(ALU(ADD, lo, Imm(1))), One(ALU(ADC, hi, Imm(0))))
  }

  lemma Inc16Adds(g: Regs, hi: Reg, lo: Reg)
    requires hi != lo && hi != F && lo != F
    ensures RegsAfter(Inc16(hi, lo), g) == SetPair(g, hi, lo, U16(GetPair(g, hi, lo) + 1)).Set(F, Flags(g.Get(hi), 0))
  {
    hide Regs.Get, Regs.Set, Flags, U16, RegsAfter, Hi, Lo;
    Add16Adds(g, hi, lo, Imm(0), Imm(1));
  }

  /** CMP changes F alone. */
  lemma CmpKeeps(g: Regs, r: Reg, b: byte)
    ensures Alu(g, CMP, r, b) == g.Set(F, Flags(g.Get(r), b))
  {
    hide Flags, Regs.Set, Regs.Get;
    SetGet(g, r);
  }

  // ----- borrow, decrement -----

  function Clb(): (block: Block)
    ensures Pure(block) && Len(block) == 2
  {
    One(ALU(AND, F, Imm(0xF7)))
  }

  function Dec(r: Reg): (block: Block)
    ensures Pure(block) && Len(block) == 4
  {
    Cat(Clb(), One(ALU(SBB, r, Imm(1))))
  }

  function Dec16(hi: Reg, lo: Reg): (block: Block)
    ensures Pure(block) && Len(block) == 6
  {
    Cat(Clb(), Sub16(hi, lo, Imm(0), Imm(1)))
  }

  /** CLB clears BORROW and nothing else but flags. */
  lemma ClbClears(g: Regs)
    ensures RegsAfter(Clb(), g) == g.Set(F, And(g.f, 0xF7)) && !Bit(And(g.f, 0xF7), 3)
  {
    hide And;
    RegsOne(ALU(AND, F, Imm(0xF7)), g);
    AndBit(g.f, 0xF7, 3);
  }

  lemma DecSubtracts(g: Regs, r: Reg)
    requires r != F
    ensures RegsAfter(Dec(r), g) == g.Set(r, U8(g.Get(r) - 1)).Set(F, Flags(g.Get(r), 1))
  {
    hide And, Bit, Flags, Regs.Set, Regs.Get;
    ClbClears(g);
    var fl: byte := And(g.f, 0xF7);
    var g1 := g.Set(F, fl);
    RegsCat(Clb(), One(ALU(SBB, r, Imm(1))), g);
    RegsOne(ALU(SBB, r, Imm(1)), g1);
    GetSet(g, F, fl, r);
    SetFlags(g, fl);
    var v: byte := U8(g.Get(r) - 1);
    SetSwap(g, F, fl, r, v);
    SetTwice(g.Set(r, v), F, fl, Flags(g.Get(r), 1));
  }

  lemma Dec16Subtracts(g: Regs, hi: Reg, lo: Reg)
    requires hi != lo && hi != F && lo != F
    ensures RegsAfter(Dec16(hi, lo), g) == SetPair(g, hi, lo, U16(GetPair(g, hi, lo) - 1)).Set(F, Flags(g.Get(hi), 0))
  {
    hide And, Bit, Flags, Regs.Set, Regs.Get, Hi, Lo, U16;
    ClbClears(g);
    var fl: byte := And(g.f, 0xF7);
    var g1 := g.Set(F, fl);
    RegsCat(Clb(), Sub16(hi, lo, Imm(0), Imm(1)), g);
    SetFlags(g, fl);
    Sub16Subtracts(g1, hi, lo, Imm(0), Imm(1));
    GetSet(g, F, fl, hi);
    GetSet(g, F, fl, lo);
    var w: word := U16(GetPair(g, hi, lo) - 1);
    var l: byte, u: byte := Lo(w), Hi(w);
    SetSwap(g, F, fl, lo, l);
    SetSwap(g.Set(lo, l), F, fl, hi, u);
    SetTwice(SetPair(g, hi, lo, w), F, fl, Flags(g.Get(hi), 0));
  }

  // ----- 16-bit comparison -----

  function EqCompare(keep: Reg, r: Reg, x: Arg8): (block: Block)
    ensures Pure(block) && Len(block) == 4
  {
    Cat(One(ALU(CMP, r, x)), One(MW(keep, Rg(F))))
  }

  function EqMasks(): (block: Block)
    ensures Pure(block) && Len(block) == 4
  {
    Cat(One(ALU(AND, F, Rg(H))), One(ALU(AND, F, Imm(2))))
  }

  function Eq16(hi: Reg, lo: Reg, xhi: Arg8, xlo: Arg8): (block: Block)
    ensures Pure(block) && Len(block) == 10
  {
    Cat(EqCompare(H, hi, xhi), Cat(One(ALU(CMP, lo, xlo)), EqMasks()))
  }

  function EqualFlag(p: bool): byte { if p then 2 else 0 }

  /** An operand of the second comparison, which comes after F and H have been set. */
  function Late(x: Arg8, g: Regs, fl: byte): byte {
    if x in {Rg(F), Rg(H)} then fl else x.Value(g)
  }

  /** EQ16 leaves the EQUAL bit alone in F: set exactly when both bytes agree, as they are compared. */
  lemma Eq16Does(g: Regs, hi: Reg, lo: Reg, xhi: Arg8, xlo: Arg8)
    ensures
      var a, x := g.Get(hi), xhi.Value(g);
      var fl := Flags(a, x);
      RegsAfter(Eq16(hi, lo, xhi, xlo), g)
        == g.Set(H, fl).Set(F, EqualFlag(Pair(a, Late(Rg(lo), g, fl)) == Pair(x, Late(xlo, g, fl))))
  {
    hide Flags, Regs.Set, Regs.Get, And, Alu, Bit;
    var i1, i2, i3, i4, i5 := ALU(CMP, hi, xhi), MW(H, Rg(F)), ALU(CMP, lo, xlo), ALU(AND, F, Rg(H)), ALU(AND, F, Imm(2));
    var a: byte, x: byte := g.Get(hi), xhi.Value(g);
    var f1: byte := Flags(a, x);
    var b: byte, y: byte := Late(Rg(lo), g, f1), Late(xlo, g, f1);
    var f2: byte := Flags(b, y);
    var g1 := g.Set(F, f1);
    CmpKeeps(g, hi, x);
    var g2 := g1.Set(H, f1);
    GetSet(g, F, f1, F);
    GetSet(g, F, f1, lo);
    GetSet(g1, H, f1, lo);
    if xlo.Rg? { GetSet(g, F, f1, xlo.r); GetSet(g1, H, f1, xlo.r); }
    CmpKeeps(g2, lo, y);
    var g3 := g2.Set(F, f2);
    var f3: byte := And(f2, f1);
    AndOnF(g3, Rg(H));
    GetSet(g1, H, f1, H);
    GetSet(g2, F, f2, H);
    SetFlags(g2, f2);
    var g4 := g3.Set(F, f3);
    AndOnF(g4, Imm(2));
    SetFlags(g3, f3);
    SetTwice(g2, F, f2, f3);
    SetTwice(g2, F, f3, And(f3, 2));
    SetSwap(g, F, f1, H, f1);
    SetTwice(g.Set(H, f1), F, f1, And(f3, 2));
    RegsOne(i1, g);
    RegsOne(i2, g1);
    RegsCat(One(i1), One(i2), g);
    RegsOne(i3, g2);
    RegsOne(i4, g3);
    RegsCat(One(i4), One(i5), g3);
    RegsCat(One(i3), EqMasks(), g2);
    RegsCat(EqCompare(H, hi, xhi), Cat(One(i3), EqMasks()), g);
    RegsOne(i5, g4);
    BothEqual(a, x, b, y);
  }

  /** EQ16 leaves the EQUAL bit alone in F: set exactly when both bytes agree. */
  lemma Eq16Compares(g: Regs, hi: Reg, lo: Reg, xhi: Arg8, xlo: Arg8)
    requires lo !in {F, H} && xlo !in {Rg(F), Rg(H)}
    ensures
      var x := xhi.Value(g);
      var same := GetPair(g, hi, lo) == Pair(x, xlo.Value(g));
      RegsAfter(Eq16(hi, lo, xhi, xlo), g) == g.Set(H, Flags(g.Get(hi), x)).Set(F, EqualFlag(same))
  {
    hide Flags, Regs.Set, Regs.Get, RegsAfter, Pair;
    Eq16Does(g, hi, lo, xhi, xlo);
  }

  /**
   The low bytes are compared as they were: they do not matter, or comparing them when F and H hold
   the flags of two equal bytes comes to the same.
   */
  predicate Unspoilt(g: Regs, hi: Reg, lo: Reg, xhi: Arg8, xlo: Arg8) {
    var fl := if g.Get(hi) >= 128 then 6 else 2;
    g.Get(hi) != xhi.Value(g) || (g.Get(lo) == xlo.Value(g) <==> Late(Rg(lo), g, fl) == Late(xlo, g, fl))
  }

  lemma FlagsOfSame(a: byte)
    ensures Flags(a, a) == if a >= 128 then 6 else 2
  {
  }

  lemma PairSame(a: byte, b: byte, x: byte, y: byte)
    ensures Pair(a, b) == Pair(x, y) <==> a == x && b == y
  {
  }

  /** With any operands, F and H among them, EQ16 tells whether the words agree exactly when that is so. */
  lemma Eq16Exact(g: Regs, hi: Reg, lo: Reg, xhi: Arg8, xlo: Arg8)
    ensures (RegsAfter(Eq16(hi, lo, xhi, xlo), g).f == EqualFlag(GetPair(g, hi, lo) == Pair(xhi.Value(g), xlo.Value(g))))
      <==> Unspoilt(g, hi, lo, xhi, xlo)
  {
    hide Flags, Regs.Set, Regs.Get, RegsAfter, Pair, Eq16, Late, Arg8.Value;
    var a: byte, x: byte := g.Get(hi), xhi.Value(g);
    var fl: byte := Flags(a, x);
    Eq16Does(g, hi, lo, xhi, xlo);
    SetFlags(g.Set(H, fl), EqualFlag(Pair(a, Late(Rg(lo), g, fl)) == Pair(x, Late(xlo, g, fl))));
    PairSame(a, g.Get(lo), x, xlo.Value(g));
    PairSame(a, Late(Rg(lo), g, fl), x, Late(xlo, g, fl));
    FlagsOfSame(a);
  }

  /** `eq16 a, h, 5` does not find 5 in the pair. */
  lemma Eq16Spoilt()
    ensures var g := Regs(0, 0, 0, 0, 0, 5, 0, 0);
      GetPair(g, A, H) == Pair(0, 5) && RegsAfter(Eq16(A, H, Imm(0), Imm(5)), g).f != EqualFlag(true)
  {
    hide RegsAfter, Eq16, Pair, EqualFlag;
    Eq16Exact(Regs(0, 0, 0, 0, 0, 5, 0, 0), A, H, Imm(0), Imm(5));
  }

  lemma AndOnF(g: Regs, x: Arg8)
    ensures Alu(g, AND, F, x.Value(g)) == g.Set(F, And(g.f, x.Value(g)))
  {
    hide And;
  }

  lemma BothEqual(a: byte, x: byte, b: byte, y: byte)
    ensures And(And(Flags(b, y), Flags(a, x)), 2) == EqualFlag(Pair(a, b) == Pair(x, y))
  {
    hide And, Flags;
    FlagBits(a, x);
    FlagBits(b, y);
    AndBit(Flags(b, y), Flags(a, x), 1);
    AndMasks(And(Flags(b, y), Flags(a, x)));
  }

  // ----- tests: what a conditional jump macro does before its LDA and JNZ F -----

  /** The block changes F alone, and leaves it non-zero exactly when cond holds. */
  ghost predicate Tests(block: Block, g: Regs, cond: bool) {
    Pure(block) && exists v: byte :: RegsAfter(block, g) == g.Set(F, v) && (v != 0 <==> cond)
  }

  function MaskedBy(before: Block, x: Arg8): (block: Block)
    ensures Len(block) == Len(before) + 2
    ensures Pure(before) ==> Pure(block)
  {
    Cat(before, One(ALU(AND, F, x)))
  }

  function Masked(before: Block, mask: byte): (block: Block)
    ensures Len(block) == Len(before) + 2
    ensures Pure(before) ==> Pure(block)
  {
    MaskedBy(before, Imm(mask))
  }

  function Cmp(r: Reg, x: Arg8): (block: Block)
    ensures Len(block) == 2
  { One(ALU(CMP, r, x)) }

  function NotF(): (block: Block)
    ensures Len(block) == 2
  { One(ALU(NOR, F, Rg(F))) }

  function Jlt(r: Reg, x: Arg8): Block { Masked(Cmp(r, x), 1) }

  function Jle(r: Reg, x: Arg8): Block { Masked(Cmp(r, x), 3) }

  function Jeq(r: Reg, x: Arg8): Block { Masked(Cmp(r, x), 2) }

  function Jne(r: Reg, x: Arg8): Block { Masked(Cat(Cmp(r, x), NotF()), 2) }

  /** `nand f, 0x1` is `and f, 0x1` and then `nor f, f`. */
  function Jge(r: Reg, x: Arg8): Block { Masked(Cat(Masked(Cmp(r, x), 1), NotF()), 3) }

  /** `jz f` is `jeq f, 0`. */
  function Jgt(r: Reg, x: Arg8): Block { Masked(Cat(Masked(Cmp(r, x), 3), Cmp(F, Imm(0))), 2) }

  function Jz(r: Reg): Block { Jeq(r, Imm(0)) }

  function JeqFlag(): (block: Block)
    ensures Len(block) == 2
  {
    Masked(Nop, 2)
  }

  function JneFlag(): (block: Block)
    ensures Len(block) == 4
  {
    Masked(NotF(), 2)
  }

  /** `jms r, x, [t]` and `jmn r, x, [t]`: the mask is looked at after F has been set. */
  function Jms(r: Reg, x: Arg8): Block { MaskedBy(One(MW(F, Rg(r))), x) }

  function Jmn(r: Reg, x: Arg8): Block { MaskedBy(Cat(One(MW(F, Rg(r))), NotF()), x) }

  lemma MaskByF(before: Block, g: Regs, v: byte, x: Arg8)
    requires Pure(before) && RegsAfter(before, g) == g.Set(F, v)
    ensures Pure(MaskedBy(before, x)) && RegsAfter(MaskedBy(before, x), g) == g.Set(F, And(v, x.Value(g.Set(F, v))))
  {
    hide And, Regs.Set, RegsAfter, Alu, Arg8.Value;
    var i, g1 := ALU(AND, F, x), g.Set(F, v);
    RegsCat(before, One(i), g);
    RegsOne(i, g1);
    AndOnF(g1, x);
    SetFlags(g, v);
    SetTwice(g, F, v, And(v, x.Value(g1)));
  }

  lemma MaskF(before: Block, g: Regs, v: byte, mask: byte)
    requires Pure(before) && RegsAfter(before, g) == g.Set(F, v)
    ensures Pure(Masked(before, mask)) && RegsAfter(Masked(before, mask), g) == g.Set(F, And(v, mask))
  {
    hide And, Regs.Set, RegsAfter, MaskedBy;
    MaskByF(before, g, v, Imm(mask));
  }

  lemma NegateF(before: Block, g: Regs, v: byte)
    requires Pure(before) && RegsAfter(before, g) == g.Set(F, v)
    ensures Pure(Cat(before, NotF())) && RegsAfter(Cat(before, NotF()), g) == g.Set(F, Not(v))
  {
    hide Regs.Set, RegsAfter, Or, Alu;
    var i := ALU(NOR, F, Rg(F));
    RegsCat(before, One(i), g);
    RegsOne(i, g.Set(F, v));
    SetFlags(g, v);
    GetSet(g, F, v, F);
    NorSelf(v);
    NorOnF(g.Set(F, v), Rg(F));
    SetTwice(g, F, v, Not(v));
  }

  lemma NorOnF(g: Regs, x: Arg8)
    ensures Alu(g, NOR, F, x.Value(g)) == g.Set(F, Nor(g.f, x.Value(g)))
  {
    hide Or;
  }

  lemma CompareF(before: Block, g: Regs, v: byte)
    requires Pure(before) && RegsAfter(before, g) == g.Set(F, v)
    ensures Pure(Cat(before, Cmp(F, Imm(0)))) && RegsAfter(Cat(before, Cmp(F, Imm(0))), g) == g.Set(F, Flags(v, 0))
  {
    hide Regs.Set, RegsAfter, Flags, Alu;
    var i := ALU(CMP, F, Imm(0));
    RegsCat(before, One(i), g);
    RegsOne(i, g.Set(F, v));
    GetSet(g, F, v, F);
    CmpKeeps(g.Set(F, v), F, 0);
    SetTwice(g, F, v, Flags(v, 0));
  }

  lemma AfterCmp(g: Regs, r: Reg, x: Arg8)
    ensures Pure(Cmp(r, x)) && RegsAfter(Cmp(r, x), g) == g.Set(F, Flags(g.Get(r), x.Value(g)))
  {
    hide Regs.Set, Regs.Get, RegsAfter, Flags, Alu;
    RegsOne(ALU(CMP, r, x), g);
    CmpKeeps(g, r, x.Value(g));
  }

  /** The low two bits of the flags, as the masks read them. */
  lemma LowFlags(a: byte, b: byte)
    ensures And(Flags(a, b), 1) == (if a < b then 1 else 0)
    ensures And(Flags(a, b), 2) == (if a == b then 2 else 0)
    ensures And(Flags(a, b), 3) == (if a < b then 1 else 0) + (if a == b then 2 else 0)
    ensures And(Not(Flags(a, b)), 2) == (if a == b then 0 else 2)
  {
    hide And;
    AndMasks(Flags(a, b));
    AndMasks(Not(Flags(a, b)));
  }

  /** JLT, JLE, JEQ, JNE, JGT and JZ test what they say, on unsigned bytes. */
  lemma JumpTests(g: Regs, r: Reg, x: Arg8)
    ensures var a, b := g.Get(r), x.Value(g);
      && Tests(Jlt(r, x), g, a < b)
      && Tests(Jle(r, x), g, a <= b)
      && Tests(Jeq(r, x), g, a == b)
      && Tests(Jne(r, x), g, a != b)
      && Tests(Jgt(r, x), g, a > b)
      && Tests(Jz(r), g, a == 0)
  {
    hide Regs.Set, Regs.Get, RegsAfter, Flags, Alu, And, Not, Arg8.Value;
    var a: byte, b: byte := g.Get(r), x.Value(g);
    var fl: byte := Flags(a, b);
    LowFlags(a, b);
    AfterCmp(g, r, x);
    MaskF(Cmp(r, x), g, fl, 1);
    MaskF(Cmp(r, x), g, fl, 2);
    MaskF(Cmp(r, x), g, fl, 3);
    NegateF(Cmp(r, x), g, fl);
    MaskF(Cat(Cmp(r, x), NotF()), g, Not(fl), 2);
    var v: byte := And(fl, 3);
    CompareF(Masked(Cmp(r, x), 3), g, v);
    MaskF(Cat(Masked(Cmp(r, x), 3), Cmp(F, Imm(0))), g, Flags(v, 0), 2);
    LowFlags(v, 0);
    JzTest(g, r);
  }

  lemma JzTest(g: Regs, r: Reg)
    ensures Tests(Jz(r), g, g.Get(r) == 0)
  {
    hide Regs.Set, Regs.Get, RegsAfter, Flags, Alu, And;
    var a: byte := g.Get(r);
    LowFlags(a, 0);
    AfterCmp(g, r, Imm(0));
    MaskF(Cmp(r, Imm(0)), g, Flags(a, 0), 2);
  }

  /** JGE jumps always: its test is right exactly when the comparison holds. */
  lemma JgeAlwaysJumps(g: Regs, r: Reg, x: Arg8)
    ensures Tests(Jge(r, x), g, true)
    ensures Tests(Jge(r, x), g, g.Get(r) >= x.Value(g)) <==> g.Get(r) >= x.Value(g)
  {
    hide Regs.Set, Regs.Get, RegsAfter, Flags, Alu, And;
    var a: byte, b: byte := g.Get(r), x.Value(g);
    var fl: byte := Flags(a, b);
    LowFlags(a, b);
    AfterCmp(g, r, x);
    MaskF(Cmp(r, x), g, fl, 1);
    var v: byte := And(fl, 1);
    NegateF(Masked(Cmp(r, x), 1), g, v);
    MaskF(Cat(Masked(Cmp(r, x), 1), NotF()), g, Not(v), 3);
    AndMasks(Not(v));
    SetFlags(g, And(Not(v), 3));
    if Tests(Jge(r, x), g, a >= b) {
      var w: byte :| RegsAfter(Jge(r, x), g) == g.Set(F, w) && (w != 0 <==> a >= b);
      SetFlags(g, w);
    }
  }

  /** JEQ and JNE without operands test the EQUAL bit that EQ16 left. */
  lemma FlagTests(g: Regs, same: bool)
    requires g.f == EqualFlag(same)
    ensures Tests(JeqFlag(), g, same) && Tests(JneFlag(), g, !same)
  {
    hide Regs.Set, Regs.Get, Alu, And;
    AndMasks(g.f);
    AndMasks(Not(g.f));
    assert RegsAfter(Nop, g) == g == g.Set(F, g.f) by { KeepF(g); }
    MaskF(Nop, g, g.f, 2);
    NegateF(Nop, g, g.f);
    RegsCat(Nop, NotF(), g);
    MaskF(NotF(), g, Not(g.f), 2);
  }

  lemma KeepF(g: Regs)
    ensures g.Set(F, g.f) == g
  {
  }

  // ----- the forms without operands, which test what an earlier instruction left in F -----

  function JltFlag(): (block: Block)
    ensures Len(block) == 2
  {
    Masked(Nop, 1)
  }

  function JleFlag(): (block: Block)
    ensures Len(block) == 2
  {
    Masked(Nop, 3)
  }

  function JgeFlag(): (block: Block)
    ensures Len(block) == 6
  {
    Masked(Cat(Masked(Nop, 1), NotF()), 3)
  }

  function JgtFlag(): (block: Block)
    ensures Len(block) == 6
  {
    Masked(Cat(Masked(Nop, 3), Cmp(F, Imm(0))), 2)
  }

  /** Whatever F holds, they test LESS and EQUAL in it; JGE does not, and jumps. */
  lemma FlagJumps(g: Regs)
    ensures Tests(JltFlag(), g, Bit(g.f, 0)) && Tests(JleFlag(), g, Bit(g.f, 0) || Bit(g.f, 1))
    ensures Tests(JeqFlag(), g, Bit(g.f, 1)) && Tests(JneFlag(), g, !Bit(g.f, 1))
    ensures Tests(JgtFlag(), g, !Bit(g.f, 0) && !Bit(g.f, 1)) && Tests(JgeFlag(), g, true)
  {
    hide Regs.Set, Regs.Get, Alu, And, Flags, RegsAfter, Bit, Not;
    var f: byte := g.f;
    assert RegsAfter(Nop, g) == g.Set(F, f) by { NopKeeps(g); }
    LowBits(f);
    MaskF(Nop, g, f, 1);
    MaskF(Nop, g, f, 2);
    MaskF(Nop, g, f, 3);
    NegateF(Nop, g, f);
    assert RegsAfter(NotF(), g) == RegsAfter(Cat(Nop, NotF()), g) by { NopInFront(g); }
    MaskF(NotF(), g, Not(f), 2);
    CompareF(Masked(Nop, 3), g, And(f, 3));
    LowFlags(And(f, 3), 0);
    MaskF(Cat(Masked(Nop, 3), Cmp(F, Imm(0))), g, Flags(And(f, 3), 0), 2);
    NegateF(Masked(Nop, 1), g, And(f, 1));
    MaskF(Cat(Masked(Nop, 1), NotF()), g, Not(And(f, 1)), 3);
  }

  function JcFlag(): (block: Block)
    ensures Len(block) == 2
  {
    Masked(Nop, 4)
  }

  function JncFlag(): (block: Block)
    ensures Len(block) == 4
  {
    Masked(NotF(), 4)
  }

  function JbFlag(): (block: Block)
    ensures Len(block) == 2
  {
    Masked(Nop, 8)
  }

  function JnbFlag(): (block: Block)
    ensures Len(block) == 4
  {
    Masked(NotF(), 8)
  }

  /** JC, JNC, JB and JNB test the bit they say. */
  lemma CarryJumps(g: Regs)
    ensures Tests(JcFlag(), g, Bit(g.f, 2)) && Tests(JncFlag(), g, !Bit(g.f, 2))
    ensures Tests(JbFlag(), g, Bit(g.f, 3)) && Tests(JnbFlag(), g, !Bit(g.f, 3))
  {
    hide Regs.Set, Regs.Get, Alu, And, RegsAfter, Bit, Not, MaskedBy;
    BitTests(g, 2);
    BitTests(g, 3);
    assert Power2(2) == 4 && Power2(3) == 8;
  }

  /** One bit of F, and the same bit negated. */
  lemma BitTests(g: Regs, k: nat)
    requires k < 8
    ensures 0 <= Power2(k) < 256
    ensures Tests(Masked(Nop, Power2(k)), g, Bit(g.f, k)) && Tests(Masked(NotF(), Power2(k)), g, !Bit(g.f, k))
  {
    hide Regs.Set, Regs.Get, Alu, And, RegsAfter, Bit, Not, MaskedBy;
    var f: byte := g.f;
    assert RegsAfter(Nop, g) == g.Set(F, f) by { NopKeeps(g); }
    MaskBit(f, k);
    MaskF(Nop, g, f, Power2(k));
    NegateF(Nop, g, f);
    assert RegsAfter(NotF(), g) == RegsAfter(Cat(Nop, NotF()), g) by { NopInFront(g); }
    MaskBit(Not(f), k);
    NotIs(f, k);
    MaskF(NotF(), g, Not(f), Power2(k));
  }

  /** The mask of JMS, which is the value itself when F is given for it, and that of JMN, likewise. */
  function MaskSeen(g: Regs, r: Reg, x: Arg8): byte { if x == Rg(F) then g.Get(r) else x.Value(g) }

  function MaskSeenNot(g: Regs, r: Reg, x: Arg8): byte { if x == Rg(F) then Not(g.Get(r)) else x.Value(g) }

  /** JMS tests whether some bit of the mask is set, JMN whether some bit of it is clear. */
  lemma MaskTests(g: Regs, r: Reg, x: Arg8)
    ensures Tests(Jms(r, x), g, Meet(g.Get(r), MaskSeen(g, r, x)))
    ensures Tests(Jmn(r, x), g, Meet(Not(g.Get(r)), MaskSeenNot(g, r, x)))
  {
    hide Regs.Set, Regs.Get, Alu, And, RegsAfter, Not, MaskedBy, Arg8.Value, Meet;
    var i, v: byte := MW(F, Rg(r)), g.Get(r);
    assert RegsAfter(One(i), g) == g.Set(F, v) by { LoadsF(g, r); }
    NegateF(One(i), g, v);
    MaskByF(One(i), g, v, x);
    MaskByF(Cat(One(i), NotF()), g, Not(v), x);
    SeenWith(g, v, x);
    SeenWith(g, Not(v), x);
    AndMeets(v, MaskSeen(g, r, x));
    AndMeets(Not(v), MaskSeenNot(g, r, x));
  }

  lemma LoadsF(g: Regs, r: Reg)
    ensures Pure(One(MW(F, Rg(r)))) && RegsAfter(One(MW(F, Rg(r))), g) == g.Set(F, g.Get(r))
  {
    hide Regs.Set, Regs.Get;
    RegsOne(MW(F, Rg(r)), g);
  }

  lemma SeenWith(g: Regs, v: byte, x: Arg8)
    ensures x.Value(g.Set(F, v)) == if x == Rg(F) then v else x.Value(g)
  {
  }

  lemma NopKeeps(g: Regs)
    ensures RegsAfter(Nop, g) == g.Set(F, g.f)
  {
  }

  lemma NopInFront(g: Regs)
    ensures RegsAfter(NotF(), g) == RegsAfter(Cat(Nop, NotF()), g)
  {
    hide Regs.Set, Regs.Get, Alu;
    RegsCat(Nop, NotF(), g);
  }

  lemma LowBits(f: byte)
    ensures And(f, 1) == (if Bit(f, 0) then 1 else 0) && And(f, 2) == (if Bit(f, 1) then 2 else 0)
    ensures And(f, 3) == And(f, 1) + And(f, 2) && And(Not(f), 2) == 2 - And(f, 2) && And(Not(And(f, 1)), 3) != 0
  {
    hide And;
    AndMasks(f);
    assert Bit(f, 1) == Bit(f / 2, 0);
    OtherBits(f);
    NandBits(And(f, 1));
  }

  lemma OtherBits(f: byte)
    ensures And(Not(f), 2) == 2 - And(f, 2)
  {
    hide And;
    AndMasks(f);
    AndMasks(Not(f));
  }

  lemma NandBits(v: byte)
    requires v < 2
    ensures And(Not(v), 3) != 0
  {
    hide And;
    AndMasks(Not(v));
  }
}
