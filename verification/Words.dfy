/**
 Bytes, 16-bit words, and two's-complement bit operations, over mathematical integers.
 Every truncating cast of the emulator and of the assembler is an explicit U8 or U16.
 */
module Words {

  type byte = x: int | 0 <= x < 256
  type word = x: int | 0 <= x < 65536

  /** The value of a C cast to uint8_t. */
  function U8(x: int): byte {
    if 0 <= x < 256 then x else x % 256
  }

  /** The value of a C cast to uint16_t. */
  function U16(x: int): word {
    if 0 <= x < 65536 then x else x % 65536
  }

  function Lo(w: word): byte { w % 256 }

  function Hi(w: word): byte { w / 256 }

  /** The 16-bit value of a register pair, or of two bytes in memory. */
  function Pair(hi: byte, lo: byte): word { 256 * hi + lo }

  /** Quotient and remainder are unique. */
  lemma Unique(n: int, p: int, s: int, q: int, r: int)
    requires 0 <= r < n && 0 <= s < n && p * n + s == q * n + r
    ensures p == q && s == r
  {
    var d := p - q;
    assert p * n == q * n + d * n;
    if d > 0 {
      Grows(d, n);
    } else if d < 0 {
      Grows(-d, n);
    }
  }

  lemma Grows(d: int, n: int)
    requires d > 0 && n > 0
    ensures d * n >= n
  {
    assert (d - 1) * n >= 0;
  }

  lemma Divides(x: int, n: int, q: int, r: int)
    requires 0 <= r < n && x == q * n + r
    ensures x / n == q && x % n == r
  {
    Unique(n, x / n, x % n, q, r);
  }

  /** Bit k of the two's-complement form of x. */
  predicate Bit(x: int, k: nat)
    decreases k
  {
    if k == 0 then x % 2 == 1 else Bit(x / 2, k - 1)
  }

  datatype BitOp = Both | Either | Differ {
    predicate Apply(p: bool, q: bool) {
      match this
      case Both => p && q
      case Either => p || q
      case Differ => p != q
    }
  }

  /** The bits of x and y combined one by one: n of them, then the sign. */
  function Bitwise(op: BitOp, x: int, y: int, n: nat): int
    decreases n
  {
    if n == 0 then
      if op.Apply(x < 0, y < 0) then -1 else 0
    else
      (if op.Apply(x % 2 == 1, y % 2 == 1) then 1 else 0) + 2 * Bitwise(op, x / 2, y / 2, n - 1)
  }

  function Power2(n: nat): nat {
    if n == 0 then 1 else 2 * Power2(n - 1)
  }

  lemma {:induction false} BitwiseRange(op: BitOp, x: nat, y: nat, n: nat)
    requires x < Power2(n) && y < Power2(n)
    ensures 0 <= Bitwise(op, x, y, n) < Power2(n)
    decreases n
  {
    if n != 0 {
      BitwiseRange(op, x / 2, y / 2, n - 1);
    }
  }

  /** Bitwise does combine the bits one by one. */
  lemma {:induction false} BitwiseBit(op: BitOp, x: int, y: int, n: nat, k: nat)
    requires k < n
    ensures Bit(Bitwise(op, x, y, n), k) == op.Apply(Bit(x, k), Bit(y, k))
    decreases n
  {
    var rest := Bitwise(op, x / 2, y / 2, n - 1);
    assert Bitwise(op, x, y, n) / 2 == rest;
    if k != 0 {
      BitwiseBit(op, x / 2, y / 2, n - 1, k - 1);
    }
  }

  /** Numbers below 2^n with the same n bits are equal. */
  lemma {:induction false} SameBits(x: nat, y: nat, n: nat)
    requires x < Power2(n) && y < Power2(n)
    requires forall k: nat | k < n :: Bit(x, k) == Bit(y, k)
    ensures x == y
    decreases n
  {
    if n != 0 {
      assert Bit(x, 0) == Bit(y, 0);
      forall k: nat | k < n - 1
        ensures Bit(x / 2, k) == Bit(y / 2, k)
      {
        assert Bit(x, k + 1) == Bit(y, k + 1);
      }
      SameBits(x / 2, y / 2, n - 1);
    }
  }

  // ----- the byte operations of the CPU -----

  lemma Power2Of8()
    ensures Power2(8) == 256
  {
    assert Power2(4) == 16;
  }

  function And(x: byte, y: byte): byte {
    Power2Of8(); BitwiseRange(Both, x, y, 8);
    Bitwise(Both, x, y, 8)
  }

  function Or(x: byte, y: byte): byte {
    Power2Of8(); BitwiseRange(Either, x, y, 8);
    Bitwise(Either, x, y, 8)
  }

  /** C's `~`, cast back to a byte. */
  function Not(x: byte): byte { 255 - x }

  function Nor(x: byte, y: byte): byte { Not(Or(x, y)) }

  lemma {:induction false} AndZero(x: int, n: nat)
    ensures Bitwise(Both, x, 0, n) == 0
    decreases n
  {
    if n != 0 {
      AndZero(x / 2, n - 1);
    }
  }

  lemma {:induction false} OrSelf(x: int, n: nat)
    requires 0 <= x < Power2(n)
    ensures Bitwise(Either, x, x, n) == x
    decreases n
  {
    if n != 0 {
      OrSelf(x / 2, n - 1);
    }
  }

  lemma {:induction false} OrZero(n: nat)
    ensures Bitwise(Either, 0, 0, n) == 0
    decreases n
  {
    if n != 0 {
      OrZero(n - 1);
    }
  }

  lemma NorSelf(x: byte)
    ensures Nor(x, x) == Not(x)
  {
    Power2Of8();
    OrSelf(x, 8);
  }

  /** A mask of low bits keeps exactly those bits. */
  lemma AndMasks(x: byte)
    ensures And(x, 1) == x % 2
    ensures And(x, 2) == 2 * (x / 2 % 2)
    ensures And(x, 3) == x % 2 + 2 * (x / 2 % 2)
  {
    AndZero(x / 2, 7);
    AndZero(x / 2 / 2, 6);
    assert Bitwise(Both, x / 2, 1, 7) == x / 2 % 2;
  }

  lemma AndBit(x: byte, y: byte, k: nat)
    requires k < 8
    ensures Bit(And(x, y), k) == (Bit(x, k) && Bit(y, k))
  {
    BitwiseBit(Both, x, y, 8, k);
  }

  // ----- single bits -----

  lemma {:induction false} PowerBit(k: nat, j: nat)
    ensures Bit(Power2(k), j) <==> j == k
    decreases j
  {
    if k == 0 {
      if j != 0 { ZeroBit(j - 1); }
    } else if j != 0 {
      PowerBit(k - 1, j - 1);
    }
  }

  lemma {:induction false} ZeroBit(j: nat)
    ensures !Bit(0, j)
    decreases j
  {
    if j != 0 { ZeroBit(j - 1); }
  }

  lemma {:induction false} NotBit(x: nat, n: nat, k: nat)
    requires x < Power2(n) && k < n
    ensures Bit(Power2(n) - 1 - x, k) <==> !Bit(x, k)
    decreases k
  {
    var y := Power2(n) - 1 - x;
    assert y / 2 == Power2(n - 1) - 1 - x / 2 && (y % 2 == 1 <==> x % 2 == 0);
    if k != 0 {
      NotBit(x / 2, n - 1, k - 1);
    }
  }

  lemma NotIs(v: byte, k: nat)
    requires k < 8
    ensures Bit(Not(v), k) <==> !Bit(v, k)
  {
    Power2Of8();
    NotBit(v, 8, k);
  }

  /** The highest bit of a number below 2^(k+1). */
  lemma {:induction false} TopBit(x: nat, k: nat)
    requires x < 2 * Power2(k)
    ensures Bit(x, k) <==> x >= Power2(k)
    decreases k
  {
    if k != 0 {
      TopBit(x / 2, k - 1);
    }
  }

  lemma {:induction false} PowerFits(k: nat, n: nat)
    requires k < n
    ensures 2 * Power2(k) <= Power2(n)
    decreases n
  {
    if k < n - 1 {
      PowerFits(k, n - 1);
    }
  }

  /** A byte with bit k as given, its other bits as they are. */
  function SetTo(x: byte, k: nat, on: bool): (y: byte)
    requires k < 8
    ensures forall j: nat | j < 8 :: Bit(y, j) == if j == k then on else Bit(x, j)
  {
    SetToBits(x, k, on);
    if Bit(x, k) == on then x else if on then x + Power2(k) else x - Power2(k)
  }

  lemma SetToBits(x: byte, k: nat, on: bool)
    requires k < 8
    ensures Bit(x, k) != on ==>
      var y := if on then x + Power2(k) else x - Power2(k);
      0 <= y < 256 && forall j: nat | j < 8 :: Bit(y, j) == if j == k then on else Bit(x, j)
  {
    hide Bit;
    Power2Of8();
    if Bit(x, k) != on {
      FlipRange(x, k, 8);
      forall j: nat | j < 8
        ensures Bit(if on then x + Power2(k) else x - Power2(k), j) == if j == k then on else Bit(x, j)
      {
        FlipBit(x, k, j);
      }
    }
  }

  /** A number without bit k and 2^k added, or with it and 2^k taken away. */
  function Flip(x: int, k: nat): int {
    if Bit(x, k) then x - Power2(k) else x + Power2(k)
  }

  lemma FlipStep(x: int, k: nat)
    requires k > 0
    ensures Flip(x, k) == 2 * Flip(x / 2, k - 1) + x % 2
  {
  }

  /** It differs in bit k alone. */
  lemma {:induction false} FlipBit(x: int, k: nat, j: nat)
    ensures Bit(Flip(x, k), j) == if j == k then !Bit(x, k) else Bit(x, j)
    decreases k
  {
    if k == 0 {
      assert Flip(x, 0) / 2 == x / 2;
    } else {
      FlipStep(x, k);
      hide Flip;
      assert Flip(x, k) / 2 == Flip(x / 2, k - 1) && Flip(x, k) % 2 == x % 2;
      if j > 0 {
        FlipBit(x / 2, k - 1, j - 1);
      }
    }
  }

  lemma {:induction false} FlipRange(x: nat, k: nat, n: nat)
    requires k < n && x < Power2(n)
    ensures 0 <= Flip(x, k) < Power2(n)
    decreases n
  {
    if k > 0 {
      FlipStep(x, k);
      hide Flip, Bit;
      FlipRange(x / 2, k - 1, n - 1);
    }
  }

  lemma OrSets(x: byte, k: nat)
    requires k < 8
    ensures 0 <= Power2(k) < 256 && Or(x, Power2(k)) == SetTo(x, k, true)
  {
    hide Bit, SetTo, Bitwise;
    Power2Of8();
    PowerFits(k, 8);
    forall j: nat | j < 8
      ensures Bit(Or(x, Power2(k)), j) == Bit(SetTo(x, k, true), j)
    {
      BitwiseBit(Either, x, Power2(k), 8, j);
      PowerBit(k, j);
    }
    SameBits(Or(x, Power2(k)), SetTo(x, k, true), 8);
  }

  lemma AndClears(x: byte, k: nat)
    requires k < 8
    ensures 0 <= 255 - Power2(k) < 256 && And(x, 255 - Power2(k)) == SetTo(x, k, false)
  {
    hide Bit, SetTo, Bitwise;
    Power2Of8();
    PowerFits(k, 8);
    forall j: nat | j < 8
      ensures Bit(And(x, 255 - Power2(k)), j) == Bit(SetTo(x, k, false), j)
    {
      BitwiseBit(Both, x, 255 - Power2(k), 8, j);
      NotIs(Power2(k), j);
      PowerBit(k, j);
    }
    SameBits(And(x, 255 - Power2(k)), SetTo(x, k, false), 8);
  }

  /** Some bit is set in both. */
  predicate Meet(x: byte, y: byte) { exists k | 0 <= k < 8 :: Bit(x, k) && Bit(y, k) }

  lemma AndMeets(x: byte, y: byte)
    ensures And(x, y) != 0 <==> Meet(x, y)
  {
    hide And, Bit;
    forall k: nat | k < 8
      ensures Bit(And(x, y), k) == (Bit(x, k) && Bit(y, k)) && !Bit(0, k)
    {
      AndBit(x, y, k);
      ZeroBit(k);
    }
    if !Meet(x, y) {
      Power2Of8();
      SameBits(And(x, y), 0, 8);
    }
  }

  /** Masking with one bit tells whether it is set. */
  lemma MaskBit(x: byte, k: nat)
    requires k < 8
    ensures 0 <= Power2(k) < 256 && (And(x, Power2(k)) != 0 <==> Bit(x, k))
  {
    Power2Of8();
    PowerFits(k, 8);
    var m: byte := Power2(k);
    forall j: nat | j < 8
      ensures Bit(And(x, m), j) == (j == k && Bit(x, k))
    {
      AndBit(x, m, j);
      PowerBit(k, j);
    }
    if Bit(x, k) {
      ZeroBit(k);
    } else {
      forall j: nat | j < 8
        ensures Bit(And(x, m), j) == Bit(0, j)
      {
        ZeroBit(j);
      }
      SameBits(And(x, m), 0, 8);
    }
  }
}
