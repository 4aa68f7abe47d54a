/** The bit logic macros of asm/macros.asm, and sums of more than two bytes. */
module Logic {
  import opened Words
  import opened Isa
  import opened Core
  import opened Macros

  function Xor(x: byte, y: byte): byte {
    Power2Of8(); BitwiseRange(Differ, x, y, 8);
    Bitwise(Differ, x, y, 8)
  }

  function Xnor(x: byte, y: byte): byte { Not(Xor(x, y)) }

  lemma BitOf(op: BitOp, x: byte, y: byte, k: nat)
    requires k < 8
    ensures Bit(Bitwise(op, x, y, 8), k) == op.Apply(Bit(x, k), Bit(y, k))
    ensures Bit(Not(x), k) == !Bit(x, k)
  {
    BitwiseBit(op, x, y, 8, k);
    Power2Of8();
    NotBit(x, 8, k);
  }

  /** Not both, but one of them. */
  lemma XorByParts(x: byte, y: byte)
    ensures And(Not(And(x, y)), Or(y, x)) == Xor(x, y)
  {
    hide Bit, Not, Bitwise;
    Power2Of8();
    var p, q: byte := And(x, y), Or(y, x);
    forall k: nat | k < 8
      ensures Bit(And(Not(p), q), k) == Bit(Xor(x, y), k)
    {
      BitOf(Both, x, y, k);
      BitOf(Either, y, x, k);
      BitOf(Both, p, q, k);
      BitOf(Both, Not(p), q, k);
      BitOf(Differ, x, y, k);
    }
    SameBits(And(Not(p), q), Xor(x, y), 8);
  }

  /** Neither, or both. */
  lemma XnorByParts(x: byte, y: byte)
    ensures Or(Nor(x, y), And(x, y)) == Xnor(x, y)
  {
    hide Bit, Not, Bitwise;
    Power2Of8();
    var p, q: byte := Or(x, y), And(x, y);
    forall k: nat | k < 8
      ensures Bit(Or(Not(p), q), k) == Bit(Not(Xor(x, y)), k)
    {
      BitOf(Both, x, y, k);
      BitOf(Either, x, y, k);
      BitOf(Both, p, q, k);
      BitOf(Either, Not(p), q, k);
      BitOf(Differ, x, y, k);
      BitOf(Differ, Xor(x, y), y, k);
    }
    SameBits(Or(Not(p), q), Xnor(x, y), 8);
  }

  // ----- xor -----

  /** mw f, x; or f, r; and r, x; nor r, r; and r, f */
  function XorBlock(r: Reg, x: Arg8): (block: Block)
    ensures Len(block) == 10 && Pure(block)
  {
    Cat(Cat(One(MW(F, x)), One(ALU(OR, F, Rg(r)))),
      Cat(One(ALU(AND, r, x)), Cat(One(ALU(NOR, r, Rg(r))), One(ALU(AND, r, Rg(F))))))
  }

  /** XOR is exact for all registers and operands but F. */
  lemma XorExact(g: Regs, r: Reg, x: Arg8)
    requires r != F && x != Rg(F)
    ensures var g' := RegsAfter(XorBlock(r, x), g);
      g' == g.Set(r, Xor(g.Get(r), x.Value(g))).Set(F, Or(x.Value(g), g.Get(r)))
  {
    hide RegsAfter, And, Or, Not, Bitwise, Regs.Set, Regs.Get, Xor;
    var a: byte, v: byte := g.Get(r), x.Value(g);
    var i1, i2, i3, i4, i5 := MW(F, x), ALU(OR, F, Rg(r)), ALU(AND, r, x), ALU(NOR, r, Rg(r)), ALU(AND, r, Rg(F));
    var f: byte := Or(v, a);
    var g1 := g.Set(F, v);
    RegsOne(i1, g);
    GetSet(g, F, v, r);
    SetFlags(g, v);
    var g2 := g1.Set(F, f);
    RegsOne(i2, g1);
    GetSet(g, F, v, F);
    SetTwice(g, F, v, f);
    RegsCat(One(i1), One(i2), g);
    GetSet(g, F, f, r);
    GetSet(g, F, f, F);
    if x.Rg? { GetSet(g, F, f, x.r); }
    var p: byte := And(a, v);
    var g3 := g2.Set(r, p);
    RegsOne(i3, g2);
    GetSet(g2, r, p, r);
    GetSet(g2, r, p, F);
    var q: byte := Nor(p, p);
    NorSelf(p);
    var g4 := g3.Set(r, q);
    RegsOne(i4, g3);
    SetTwice(g2, r, p, q);
    GetSet(g2, r, q, r);
    GetSet(g2, r, q, F);
    var s: byte := And(q, f);
    RegsOne(i5, g4);
    SetTwice(g2, r, q, s);
    RegsCat(One(i4), One(i5), g3);
    RegsCat(One(i3), Cat(One(i4), One(i5)), g2);
    RegsCat(Cat(One(i1), One(i2)), Cat(One(i3), Cat(One(i4), One(i5))), g);
    XorByParts(a, v);
    SetSwap(g, F, f, r, s);
  }

  // ----- xnor -----

  /** mw f, r; nor r, x; and f, x; or r, f */
  function XnorBlock(r: Reg, x: Arg8): (block: Block)
    ensures Len(block) == 8 && Pure(block)
  {
    Cat(Cat(One(MW(F, Rg(r))), One(ALU(NOR, r, x))), Cat(One(ALU(AND, F, x)), One(ALU(OR, r, Rg(F)))))
  }

  /** What XNOR leaves in its register. When the operand is the register itself, it reads it again after changing it. */
  function XnorResult(r: Reg, x: Arg8, a: byte, v: byte): byte {
    var n := Nor(a, v);
    Or(n, And(a, if x == Rg(r) then n else v))
  }

  lemma XnorDoes(g: Regs, r: Reg, x: Arg8)
    requires r != F && x != Rg(F)
    ensures RegsAfter(XnorBlock(r, x), g).Get(r) == XnorResult(r, x, g.Get(r), x.Value(g))
    ensures forall q | q !in {r, F} :: RegsAfter(XnorBlock(r, x), g).Get(q) == g.Get(q)
  {
    hide RegsAfter, And, Or, Not, Nor, Bitwise, Regs.Set, Regs.Get;
    var a: byte, v: byte := g.Get(r), x.Value(g);
    var i1, i2, i3, i4 := MW(F, Rg(r)), ALU(NOR, r, x), ALU(AND, F, x), ALU(OR, r, Rg(F));
    var g1 := g.Set(F, a);
    RegsOne(i1, g);
    GetSet(g, F, a, r);
    if x.Rg? { GetSet(g, F, a, x.r); }
    var n: byte := Nor(a, v);
    var g2 := g1.Set(r, n);
    RegsOne(i2, g1);
    RegsCat(One(i1), One(i2), g);
    GetSet(g, F, a, F);
    GetSet(g1, r, n, F);
    GetSet(g1, r, n, r);
    if x.Rg? { GetSet(g1, r, n, x.r); }
    var w: byte := if x == Rg(r) then n else v;
    var f: byte := And(a, w);
    var g3 := g2.Set(F, f);
    RegsOne(i3, g2);
    GetSet(g2, F, f, r);
    GetSet(g2, F, f, F);
    var s: byte := Or(n, f);
    RegsOne(i4, g3);
    GetSet(g3, r, s, r);
    RegsCat(One(i3), One(i4), g2);
    RegsCat(Cat(One(i1), One(i2)), Cat(One(i3), One(i4)), g);
    forall q | q !in {r, F}
      ensures g3.Set(r, s).Get(q) == g.Get(q)
    {
      GetSet(g, F, a, q);
      GetSet(g1, r, n, q);
      GetSet(g2, F, f, q);
      GetSet(g3, r, s, q);
    }
  }

  /** XNOR is exact unless its operand is its own register, and then only for zero. */
  lemma XnorExact(r: Reg, x: Arg8, a: byte, v: byte)
    requires x == Rg(r) ==> v == a
    ensures XnorResult(r, x, a, v) == Xnor(a, v) <==> x != Rg(r) || a == 0
  {
    hide Bit, Not, Bitwise;
    XnorByParts(a, v);
    if x == Rg(r) {
      NorSelf(a);
      XnorSelf(a);
      NotOnes(a);
    }
  }

  /** With the register as its own operand the result is its complement, where all ones were due. */
  lemma XnorSelf(a: byte)
    ensures Or(Not(a), And(a, Not(a))) == Not(a)
    ensures Xnor(a, a) == 255
  {
    hide Bit, Not, Bitwise;
    Power2Of8();
    var n: byte := Not(a);
    forall k: nat | k < 8
      ensures Bit(Or(n, And(a, n)), k) == Bit(n, k) && Bit(Xor(a, a), k) == Bit(0, k)
    {
      BitOf(Both, a, n, k);
      BitOf(Either, n, And(a, n), k);
      BitOf(Differ, a, a, k);
      ZeroBit(k);
    }
    SameBits(Or(n, And(a, n)), n, 8);
    SameBits(Xor(a, a), 0, 8);
    NotOnes(0);
  }

  lemma NotOnes(a: byte)
    ensures Not(a) == 255 <==> a == 0
  {
  }

  // ----- longer sums -----

  /** The three bytes that ADD, ADC, ADC make of a2:a1:a0 and b2:b1:b0, as one number. */
  function ThreeSum(a2: byte, a1: byte, a0: byte, b2: byte, b1: byte, b0: byte): int {
    U8(a0 as int + b0) + 256 * (U8(a1 as int + b1 + Carry(Flags(a0, b0))) as int)
    + 65536 * (U8(a2 as int + b2 + Carry(Flags(a1, b1))) as int)
  }

  function Number24(x2: byte, x1: byte, x0: byte): int {
    x0 + 256 * (x1 as int) + 65536 * (x2 as int)
  }

  lemma ThreeSumRight(a2: byte, a1: byte, a0: byte, b2: byte, b1: byte, b0: byte)
    ensures ThreeSum(a2, a1, a0, b2, b1, b0) == (Number24(a2, a1, a0) + Number24(b2, b1, b0)) % 0x100_0000
      <==> !(a0 + b0 > 255 && a1 + b1 == 255)
  {
    hide Flags, Bit, U8;
    FlagBits(a0, b0);
    FlagBits(a1, b1);
    var c0 := if a0 + b0 > 255 then 1 else 0;
    var c1 := if a1 + b1 > 255 then 1 else 0;
    var t1 := if a1 + b1 + c0 > 255 then 1 else 0;
    assert Carry(Flags(a0, b0)) == c0 && Carry(Flags(a1, b1)) == c1;
    Wraps(a0 + b0);
    Wraps(a1 + b1 + c0);
    var low: int, top: int := U8(a0 + b0) + 256 * (U8(a1 + b1 + c0) as int), a2 + b2;
    TopByte(low, top + t1);
    OneApart(top, t1, c1);
    CarryLost(a1 + b1, c0);
  }

  lemma Wraps(n: int)
    requires 0 <= n <= 511
    ensures U8(n) == if n > 255 then n - 256 else n
  {
  }

  lemma OneApart(n: nat, i: int, j: int)
    requires 0 <= i <= 1 && 0 <= j <= 1
    ensures U8(n + i) == U8(n + j) <==> i == j
  {
  }

  lemma CarryLost(n: int, c: int)
    requires 0 <= n <= 510 && 0 <= c <= 1
    ensures (n > 255) != (n + c > 255) <==> c == 1 && n == 255
  {
  }

  lemma TopByte(low: int, top: int)
    requires 0 <= low < 65536 && 0 <= top < 65536
    ensures (low + 65536 * top) % 0x100_0000 == low + 65536 * (U8(top) as int)
  {
  }

  /** add r0, x0; adc r1, x1; adc r2, x2 */
  function Add24(r2: Reg, r1: Reg, r0: Reg, x2: Arg8, x1: Arg8, x0: Arg8): (block: Block)
    ensures Len(block) == 6 && Pure(block)
  {
    Cat(Add16(r1, r0, x1, x0), One(ALU(ADC, r2, x2)))
  }

  /** Three registers besides F, and operands that are not changed before they are read. */
  predicate Independent(r2: Reg, r1: Reg, r0: Reg, x2: Arg8, x1: Arg8) {
    && r2 != r1 && r1 != r0 && r2 != r0 && F !in {r2, r1, r0}
    && x1 !in {Rg(r0), Rg(F)} && x2 !in {Rg(r0), Rg(r1), Rg(F)}
  }

  lemma Add24Does(g: Regs, r2: Reg, r1: Reg, r0: Reg, x2: Arg8, x1: Arg8, x0: Arg8)
    requires Independent(r2, r1, r0, x2, x1)
    ensures
      var g' := RegsAfter(Add24(r2, r1, r0, x2, x1, x0), g);
      var a1, a0, b1, b0 := g.Get(r1), g.Get(r0), x1.Value(g), x0.Value(g);
      && g'.Get(r0) == U8(a0 + b0) && g'.Get(r1) == U8(a1 + b1 + Carry(Flags(a0, b0)))
      && g'.Get(r2) == U8(g.Get(r2) + x2.Value(g) + Carry(Flags(a1, b1)))
  {
    hide Regs.Set, Regs.Get, Flags, RegsAfter, Carry, U8;
    var a2: byte, a1: byte, a0: byte := g.Get(r2), g.Get(r1), g.Get(r0);
    var b2: byte, b1: byte, b0: byte := x2.Value(g), x1.Value(g), x0.Value(g);
    Twice(ADD, ADC, g, r1, r0, x1, x0);
    var s0: byte, s1: byte, fl: byte := U8(a0 + b0), U8(a1 + b1 + Carry(Flags(a0, b0))), Flags(a1, b1);
    var g0 := g.Set(r0, s0);
    var g1 := g0.Set(r1, s1);
    var g2 := g1.Set(F, fl);
    var i := ALU(ADC, r2, x2);
    RegsCat(Add16(r1, r0, x1, x0), One(i), g);
    RegsOne(i, g2);
    SetFlags(g1, fl);
    Passed(g, r0, s0, r1, s1, fl, r2);
    if x2.Rg? { Passed(g, r0, s0, r1, s1, fl, x2.r); }
    GetSet(g, r0, s0, r0);
    GetSet(g0, r1, s1, r0);
    GetSet(g0, r1, s1, r1);
    GetSet(g1, F, fl, r0);
    GetSet(g1, F, fl, r1);
    var s2: byte := U8(a2 + b2 + Carry(fl));
    var g3 := g2.Set(r2, s2);
    Passed2(g2, r2, s2, Flags(a2, b2), r0);
    Passed2(g2, r2, s2, Flags(a2, b2), r1);
    GetSet(g2, r2, s2, r2);
    GetSet(g3, F, Flags(a2, b2), r2);
  }

  lemma Passed(g: Regs, r0: Reg, s0: byte, r1: Reg, s1: byte, fl: byte, q: Reg)
    requires q !in {r0, r1, F}
    ensures g.Set(r0, s0).Set(r1, s1).Set(F, fl).Get(q) == g.Get(q)
  {
    hide Regs.Set, Regs.Get;
    GetSet(g, r0, s0, q);
    GetSet(g.Set(r0, s0), r1, s1, q);
    GetSet(g.Set(r0, s0).Set(r1, s1), F, fl, q);
  }

  lemma Passed2(g: Regs, r: Reg, v: byte, fl: byte, q: Reg)
    requires q !in {r, F}
    ensures g.Set(r, v).Set(F, fl).Get(q) == g.Get(q)
  {
    hide Regs.Set, Regs.Get;
    GetSet(g, r, v, q);
    GetSet(g.Set(r, v), F, fl, q);
  }

  /**
   The carry out of an ADC ignores the carry that came in. ADD, ADC, ADC on three registers give the
   24-bit sum exactly unless the low bytes carry into middle bytes that add up to 255.
   */
  lemma ThreeByteSum(g: Regs, r2: Reg, r1: Reg, r0: Reg, x2: Arg8, x1: Arg8, x0: Arg8)
    requires Independent(r2, r1, r0, x2, x1)
    ensures
      var g' := RegsAfter(Add24(r2, r1, r0, x2, x1, x0), g);
      var sum := Number24(g.Get(r2), g.Get(r1), g.Get(r0)) + Number24(x2.Value(g), x1.Value(g), x0.Value(g));
      Number24(g'.Get(r2), g'.Get(r1), g'.Get(r0)) == sum % 0x100_0000
      <==> !(g.Get(r0) + x0.Value(g) > 255 && g.Get(r1) + x1.Value(g) == 255)
  {
    hide Regs.Set, Regs.Get, Flags, RegsAfter, Carry, U8, Arg8.Value, Add24;
    Add24Does(g, r2, r1, r0, x2, x1, x0);
    ThreeSumRight(g.Get(r2), g.Get(r1), g.Get(r0), x2.Value(g), x1.Value(g), x0.Value(g));
  }
}
