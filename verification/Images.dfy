/** Pictures: misc/imc/imc.py packs them into scanlines, emu/screen.c unpacks them to be shown. */
module Images {
  import opened Words
  import opened Source

  const WIDTH: nat := 208
  const HEIGHT: nat := 240

  /** Bytes of a scanline, of which four in front and two behind are padding. */
  const LINE: nat := 32
  const MARGIN: nat := 4

  datatype Pixel = Pixel(r: byte, g: byte, b: byte)

  predicate Lit(p: Pixel) { p.r != 0 || p.g != 0 || p.b != 0 }

  /** The byte in column i of line j: padding, or eight pixels, the leftmost in the lowest bit. */
  ghost predicate Packs(pixels: seq<Pixel>, j: nat, i: nat, v: byte)
    requires |pixels| == WIDTH * HEIGHT && j < HEIGHT && i < LINE
  {
    if i < MARGIN || i > 29 then v == 0
    else forall k: nat | k < 8 :: Bit(v, k) <==> Lit(pixels[j * WIDTH + (i - MARGIN) * 8 + k])
  }

  ghost predicate Packed(pixels: seq<Pixel>, data: seq<byte>)
    requires |pixels| == WIDTH * HEIGHT && |data| <= LINE * HEIGHT
  {
    forall m | 0 <= m < |data| :: Packs(pixels, m / LINE, m % LINE, data[m])
  }

  /** One bit more. */
  lemma SetBit(b: byte, k: nat, x: bool)
    requires k < 8 && b < Power2(k)
    ensures var b' := if x then Bitwise(Either, b, Power2(k), 8) else b;
      && 0 <= b' < 256 && b' < Power2(k + 1)
      && forall m: nat | m < 8 :: Bit(b', m) <==> (Bit(b, m) || (x && m == k))
  {
    Power2Of8();
    PowerFits(k, 8);
    if x {
      BitwiseRange(Either, b, Power2(k), 8);
      forall m: nat | m < 8
        ensures Bit(Bitwise(Either, b, Power2(k), 8), m) <==> (Bit(b, m) || m == k)
      {
        BitwiseBit(Either, b, Power2(k), 8, m);
        PowerBit(k, m);
      }
      OrBelow(b, k, 8);
    }
  }

  /** A number below 2^k and the bit 2^k make a number below 2^(k+1). */
  lemma {:induction false} OrBelow(b: nat, k: nat, n: nat)
    requires b < Power2(k) && k < n
    ensures Bitwise(Either, b, Power2(k), n) < Power2(k + 1)
    decreases k
  {
    if k == 0 {
      OrZero(n - 1);
    } else {
      OrBelow(b / 2, k - 1, n - 1);
    }
  }

  /** Eight pixels from base on, as a byte. */
  method PackByte(pixels: seq<Pixel>, base: nat) returns (b: byte)
    requires base + 8 <= |pixels|
    ensures forall k: nat | k < 8 :: Bit(b, k) <==> Lit(pixels[base + k])
  {
    hide Bitwise, Bit, Lit;
    b := 0;
    var k := 0;
    forall m: nat | m < 8
      ensures !Bit(b, m)
    {
      ZeroBit(m);
    }
    while k < 8
      invariant k <= 8 && b < Power2(k)
      invariant forall m: nat | m < 8 :: Bit(b, m) <==> m < k && Lit(pixels[base + m])
    {
      var x := Lit(pixels[base + k]);
      ghost var b0 := b;
      SetBit(b0, k, x);
      if x {
        b := Bitwise(Either, b, Power2(k), 8);
      }
      forall m: nat | m < 8
        ensures Bit(b, m) <==> m < k + 1 && Lit(pixels[base + m])
      {
        assert Bit(b, m) <==> Bit(b0, m) || (x && m == k);
        assert Bit(b0, m) <==> m < k && Lit(pixels[base + m]);
      }
      k := k + 1;
    }
  }

  /** convert: a picture of the one size that is accepted becomes its scanlines. */
  method Convert(width: nat, height: nat, pixels: seq<Pixel>) returns (r: Option<seq<byte>>)
    requires |pixels| == width * height
    ensures r.Some? <==> width == 208 && height == 240
    ensures r.Some? ==> |r.value| == 7680 && Packed(pixels, r.value)
  {
    hide Bit, Lit;
    if width != WIDTH || height != HEIGHT {
      return None;
    }
    var data := [];
    for j := 0 to HEIGHT
      invariant |data| == j * LINE && Packed(pixels, data)
    {
      for i := 0 to LINE
        invariant |data| == j * LINE + i && Packed(pixels, data)
      {
        var b: byte := 0;
        if !(i < MARGIN || i > 29) {
          b := PackByte(pixels, j * WIDTH + (i - MARGIN) * 8);
        }
        assert |data| / LINE == j && |data| % LINE == i && Packs(pixels, j, i, b);
        data := data + [b];
      }
    }
    return Some(data);
  }

  const WHITE: nat := 0xFFFF_FFFF

  /** The loops of fchild: every pixel of the screen from its bit in the bank. */
  method Show(bank: seq<byte>, data: array2<nat>)
    requires |bank| >= 7680 && data.Length0 == 240 && data.Length1 == 208
    modifies data
    ensures forall y, x | 0 <= y < 240 && 0 <= x < 208 :: data[y, x] == Shown(bank, y, x)
  {
    hide Shown;
    for y := 0 to HEIGHT
      invariant forall v, x | 0 <= v < y && 0 <= x < WIDTH :: data[v, x] == Shown(bank, v, x)
    {
      for x := 0 to WIDTH
        invariant forall v, u | 0 <= v < y && 0 <= u < WIDTH :: data[v, u] == Shown(bank, v, u)
        invariant forall u | 0 <= u < x :: data[y, u] == Shown(bank, y, u)
      {
        var i := y * LINE + (x / 8 + MARGIN);
        data[y, x] := if Bit(bank[i], x % 8) then WHITE else 0;
        assert data[y, x] == Shown(bank, y, x) by { ShownIs(bank, y, x); }
      }
    }
  }

  function Shown(bank: seq<byte>, y: nat, x: nat): nat
    requires |bank| >= LINE * HEIGHT && y < HEIGHT && x < WIDTH
  {
    if Bit(bank[LINE * y + x / 8 + MARGIN], x % 8) then WHITE else 0
  }

  lemma ShownIs(bank: seq<byte>, y: nat, x: nat)
    requires |bank| >= LINE * HEIGHT && y < HEIGHT && x < WIDTH
    ensures Shown(bank, y, x) == if Bit(bank[y * LINE + (x / 8 + MARGIN)], x % 8) then WHITE else 0
  {
  }

  /** Packing and showing undo each other: a pixel is lit exactly when it was not black. */
  lemma ShowsPicture(pixels: seq<Pixel>, bank: seq<byte>, y: nat, x: nat)
    requires |pixels| == WIDTH * HEIGHT && |bank| == LINE * HEIGHT && Packed(pixels, bank)
    requires y < HEIGHT && x < WIDTH
    ensures Shown(bank, y, x) == if Lit(pixels[y * WIDTH + x]) then WHITE else 0
  {
    hide Bit, Lit;
    var m := LINE * y + x / 8 + MARGIN;
    assert m / LINE == y && m % LINE == x / 8 + MARGIN;
    assert Packs(pixels, y, x / 8 + MARGIN, bank[m]);
    assert y * WIDTH + (x / 8 + MARGIN - MARGIN) * 8 + x % 8 == y * WIDTH + x;
  }

  /** The margins of every scanline are blank. */
  lemma MarginsBlank(pixels: seq<Pixel>, bank: seq<byte>, y: nat, i: nat)
    requires |pixels| == WIDTH * HEIGHT && |bank| == LINE * HEIGHT && Packed(pixels, bank)
    requires y < HEIGHT && i < LINE && (i < MARGIN || i > 29)
    ensures bank[y * LINE + i] == 0
  {
    var m := y * LINE + i;
    assert m / LINE == y && m % LINE == i;
    assert Packs(pixels, y, i, bank[m]);
  }


  /**
   In numbers: the picture of 208 by 240 in scanlines of 32 bytes, four blank ones first and two last;
   a bit is set, and its pixel shown white, unless the source is black.
   */
  lemma ScanlinesAre(pixels: seq<Pixel>, bank: seq<byte>, y: nat, x: nat)
    requires |pixels| == 208 * 240 && |bank| == 7680 && Packed(pixels, bank)
    requires y < 240 && x < 208
    ensures 32 * y + 31 < |bank|
    ensures Bit(bank[32 * y + 4 + x / 8], x % 8) <==> pixels[208 * y + x] != Pixel(0, 0, 0)
    ensures Shown(bank, y, x) == if pixels[208 * y + x] != Pixel(0, 0, 0) then 0xFFFF_FFFF else 0
    ensures bank[32 * y] == bank[32 * y + 1] == bank[32 * y + 2] == bank[32 * y + 3] == 0
    ensures bank[32 * y + 30] == bank[32 * y + 31] == 0
  {
    hide Bit, Packed;
    LitIs(pixels[208 * y + x]);
    ShowsPicture(pixels, bank, y, x);
    MarginsBlank(pixels, bank, y, 0);
    MarginsBlank(pixels, bank, y, 1);
    MarginsBlank(pixels, bank, y, 2);
    MarginsBlank(pixels, bank, y, 3);
    MarginsBlank(pixels, bank, y, 30);
    MarginsBlank(pixels, bank, y, 31);
  }

  lemma LitIs(p: Pixel)
    ensures Lit(p) <==> p != Pixel(0, 0, 0)
  {
  }
}
