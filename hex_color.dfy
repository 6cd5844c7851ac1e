/**
 The integer part of `Color.init(hex:)`: a string of 3, 6 or 8 hexadecimal digits is read
 as one unsigned integer, and the alpha, red, green and blue components are cut out of it
 with shifts and masks. The division by 255 that turns them into colour intensities is not
 part of this module.
 */
module HexColor {

  /** The value of one hexadecimal digit. */
  type Nibble = x: nat | x < 16

  function Pow2(k: nat): (p: nat)
    ensures p >= 1
  {
    if k == 0 then 1 else 2 * Pow2(k - 1)
  }

  function Pow16(k: nat): (p: nat)
    ensures p >= 1
  {
    if k == 0 then 1 else 16 * Pow16(k - 1)
  }

  /** `x >> bits` on an unsigned integer. */
  function ShiftRight(x: nat, bits: nat): nat {
    QuotientIsNatural(x, Pow2(bits));
    x / Pow2(bits)
  }

  lemma QuotientIsNatural(x: nat, d: nat)
    requires d >= 1
    ensures x / d >= 0
  {
    if x < d {
      assert x / d == 0;
    }
  }

  /** `x & mask` for a mask of `k` one-bits (0xF is k = 4, 0xFF is k = 8). */
  function LowBits(x: nat, k: nat): nat {
    x % Pow2(k)
  }

  /** The integer that scanning the digits yields, most significant digit first.
      It is below 16^n for n digits, so up to 16 digits fit the 64-bit result. */
  function HexValue(hex: seq<Nibble>): (v: nat)
    ensures v < Pow16(|hex|)
  {
    if hex == [] then 0 else HexValue(hex[..|hex| - 1]) * 16 + hex[|hex| - 1]
  }

  /** The byte written as two hexadecimal digits. */
  function Byte(hi: Nibble, lo: Nibble): (b: nat)
    ensures b < 256
  {
    hi * 16 + lo
  }

  /** Division and remainder by `m` undo `hi * m + lo` when `lo < m`. */
  lemma SplitAt(x: nat, m: nat, hi: nat, lo: nat)
    requires m in {16, 256, 65536, 16777216}
    requires lo < m && x == hi * m + lo
    ensures x / m == hi && x % m == lo
  {
  }

  /** The four components, in the range of a byte each. */
  datatype Argb = Argb(alpha: nat, red: nat, green: nat, blue: nat)

  /** The `switch hex.count` of `Color.init(hex:)`, up to the integer components. */
  function Components(hex: seq<Nibble>): (c: Argb)
    ensures c.alpha <= 255 && c.red <= 255 && c.green <= 255 && c.blue <= 255
  {
    var value := HexValue(hex);
    if |hex| == 3 then        // RGB, 12-bit: each digit doubled (times 17)
      Argb(255, ShiftRight(value, 8) * 17, LowBits(ShiftRight(value, 4), 4) * 17, LowBits(value, 4) * 17)
    else if |hex| == 6 then   // RGB, 24-bit
      Argb(255, ShiftRight(value, 16), LowBits(ShiftRight(value, 8), 8), LowBits(value, 8))
    else if |hex| == 8 then   // ARGB, 32-bit
      Argb(ShiftRight(value, 24), LowBits(ShiftRight(value, 16), 8), LowBits(ShiftRight(value, 8), 8), LowBits(value, 8))
    else
      Argb(1, 1, 1, 0)
  }

  lemma MulAssociates(a: nat, b: nat, c: nat)
    ensures (a * b) * c == a * (b * c)
  {
  }

  /** Appending digits shifts the value left by four bits per digit. */
  lemma {:induction false} HexValueAppend(p: seq<Nibble>, q: seq<Nibble>)
    ensures HexValue(p + q) == HexValue(p) * Pow16(|q|) + HexValue(q)
    decreases |q|
  {
    if q == [] {
      assert p + q == p;
    } else {
      var q' := q[..|q| - 1];
      var d := q[|q| - 1];
      assert (p + q)[..|p + q| - 1] == p + q';
      assert q[..|q| - 1] == q';
      HexValueAppend(p, q');
      var a, k := HexValue(p), Pow16(|q'|);
      assert HexValue(p + q) == (a * k + HexValue(q')) * 16 + d;
      MulAssociates(a, k, 16);
      assert Pow16(|q|) == k * 16;
    }
  }

  lemma HexValuePair(hex: seq<Nibble>)
    requires |hex| == 2
    ensures HexValue(hex) == Byte(hex[0], hex[1])
  {
    assert hex[..1][..0] == [];
  }

  /** Three digits: every component is its digit repeated ("F80" is FF, 88, 00), alpha is opaque. */
  lemma Rgb12(hex: seq<Nibble>)
    requires |hex| == 3
    ensures Components(hex) == Argb(255, hex[0] as nat * 17, hex[1] as nat * 17, hex[2] as nat * 17)
    ensures Components(hex) == Argb(255, Byte(hex[0], hex[0]), Byte(hex[1], hex[1]), Byte(hex[2], hex[2]))
  {
    HexValuePair(hex[..2]);
    var value := HexValue(hex);
    assert value == (hex[0] as nat * 16 + hex[1]) * 16 + hex[2];
    assert Pow2(4) == 16 && Pow2(8) == 256;
    SplitAt(value, 16, hex[0] as nat * 16 + hex[1], hex[2]);
    SplitAt(value / 16, 16, hex[0], hex[1]);
    SplitAt(value, 256, hex[0], hex[1] as nat * 16 + hex[2]);
  }

  /** Six digits: red, green and blue are the three bytes, alpha is opaque. */
  lemma Rgb24(hex: seq<Nibble>)
    requires |hex| == 6
    ensures Components(hex) == Argb(255, Byte(hex[0], hex[1]), Byte(hex[2], hex[3]), Byte(hex[4], hex[5]))
  {
    var r, g, b := hex[..2], hex[2..4], hex[4..];
    assert hex == r + g + b;
    HexValueAppend(r + g, b);
    HexValueAppend(r, g);
    HexValuePair(r);
    HexValuePair(g);
    HexValuePair(b);
    var value := HexValue(hex);
    var R, G, B := Byte(hex[0], hex[1]), Byte(hex[2], hex[3]), Byte(hex[4], hex[5]);
    assert Pow16(2) == 256 && Pow16(4) == 65536;
    assert value == (R * 256 + G) * 256 + B;
    assert Pow2(8) == 256 && Pow2(16) == 65536;
    SplitAt(value, 256, R * 256 + G, B);
    SplitAt(value / 256, 256, R, G);
    SplitAt(value, 65536, R, G * 256 + B);
  }

  /** Eight digits: the first byte is alpha, then red, green and blue. */
  lemma Argb32(hex: seq<Nibble>)
    requires |hex| == 8
    ensures Components(hex) == Argb(Byte(hex[0], hex[1]), Byte(hex[2], hex[3]), Byte(hex[4], hex[5]), Byte(hex[6], hex[7]))
  {
    var A, R, G, B := Byte(hex[0], hex[1]), Byte(hex[2], hex[3]), Byte(hex[4], hex[5]), Byte(hex[6], hex[7]);
    HexValueOfFourBytes(hex);
    CutFourBytes(HexValue(hex), A, R, G, B);
  }

  lemma HexValueOfFourBytes(hex: seq<Nibble>)
    requires |hex| == 8
    ensures HexValue(hex) == ((Byte(hex[0], hex[1]) * 256 + Byte(hex[2], hex[3])) * 256
                              + Byte(hex[4], hex[5])) * 256 + Byte(hex[6], hex[7])
  {
    var a, r, g, b := hex[..2], hex[2..4], hex[4..6], hex[6..];
    assert hex == a + r + g + b;
    HexValueAppend(a + r + g, b);
    HexValueAppend(a + r, g);
    HexValueAppend(a, r);
    assert Pow16(|b|) == 256 && Pow16(|g|) == 256 && Pow16(|r|) == 256;
    var v2 := HexValue(a + r);
    var v3 := HexValue(a + r + g);
    assert HexValue(hex) == v3 * 256 + HexValue(b);
    assert v3 == v2 * 256 + HexValue(g);
    assert v2 == HexValue(a) * 256 + HexValue(r);
    HexValuePair(a);
    HexValuePair(r);
    HexValuePair(g);
    HexValuePair(b);
  }

  /** The shifts and masks of the 32-bit case pick out the four bytes of the value. */
  lemma CutFourBytes(value: nat, A: nat, R: nat, G: nat, B: nat)
    requires A < 256 && R < 256 && G < 256 && B < 256
    requires value == ((A * 256 + R) * 256 + G) * 256 + B
    ensures ShiftRight(value, 24) == A && LowBits(ShiftRight(value, 16), 8) == R
    ensures LowBits(ShiftRight(value, 8), 8) == G && LowBits(value, 8) == B
  {
    assert Pow2(8) == 256 && Pow2(16) == 65536 && Pow2(24) == 16777216;
    SplitAt(value, 256, (A * 256 + R) * 256 + G, B);
    SplitAt(value / 256, 256, A * 256 + R, G);
    SplitAt(value, 65536, A * 256 + R, G * 256 + B);
    SplitAt(value / 65536, 256, A, R);
    SplitAt(value, 16777216, A, (R * 256 + G) * 256 + B);
  }

  /** Any other length gives the fallback components. */
  lemma OtherLength(hex: seq<Nibble>)
    requires |hex| != 3 && |hex| != 6 && |hex| != 8
    ensures Components(hex) == Argb(1, 1, 1, 0)
  {
  }

  /** Components that fit in a byte each. */
  predicate IsByteColor(c: Argb) {
    c.alpha < 256 && c.red < 256 && c.green < 256 && c.blue < 256
  }

  /** The eight-digit spelling of a colour, alpha first. */
  function ToArgbHex(c: Argb): (hex: seq<Nibble>)
    requires IsByteColor(c)
    ensures |hex| == 8
  {
    [c.alpha / 16, c.alpha % 16, c.red / 16, c.red % 16, c.green / 16, c.green % 16, c.blue / 16, c.blue % 16]
  }

  /** Decoding the eight-digit spelling gives the colour back. */
  lemma DecodeArgbHex(c: Argb)
    requires IsByteColor(c)
    ensures Components(ToArgbHex(c)) == c
  {
    Argb32(ToArgbHex(c));
  }

  /** Every eight-digit string is the spelling of the colour it decodes to. */
  lemma EncodeArgbComponents(hex: seq<Nibble>)
    requires |hex| == 8
    ensures IsByteColor(Components(hex)) && ToArgbHex(Components(hex)) == hex
  {
    Argb32(hex);
    ByteDigits(hex[0], hex[1]);
    ByteDigits(hex[2], hex[3]);
    ByteDigits(hex[4], hex[5]);
    ByteDigits(hex[6], hex[7]);
    var back := ToArgbHex(Components(hex));
    assert forall i :: 0 <= i < 8 ==> back[i] == hex[i];
  }

  /** The two digits of a byte are its quotient and remainder by 16. */
  lemma ByteDigits(hi: Nibble, lo: Nibble)
    ensures Byte(hi, lo) / 16 == hi && Byte(hi, lo) % 16 == lo
  {
    SplitAt(Byte(hi, lo), 16, hi, lo);
  }
}
