/** Packed 32-bit colours (`0xRRGGBBAA`) and their four channel bytes. */
module ColorUnpack {

  /** An unsigned 32-bit value, as C's `uint32_t`. */
  type u32 = c: int | 0 <= c < 0x1_0000_0000

  /** The four channels of a colour, most significant first. Each is a byte;
      the division by 255.0 that turns a byte into an intensity is not modelled. */
  datatype Rgba = Rgba(red: int, green: int, blue: int, alpha: int)

  predicate IsByte(v: int) {
    0 <= v < 0x100
  }

  predicate IsBytes(ch: Rgba) {
    IsByte(ch.red) && IsByte(ch.green) && IsByte(ch.blue) && IsByte(ch.alpha)
  }

  /** `(c >> (8 * k)) & 0xFF`: for an unsigned value a right shift is a
      division by a power of two and masking with 0xFF keeps the remainder
      modulo 256. */
  function ByteAt(c: u32, k: nat): int
    requires k < 4
  {
    var shift := if k == 0 then 1 else if k == 1 then 0x100 else if k == 2 then 0x1_0000 else 0x100_0000;
    (c / shift) % 0x100
  }

  /** The channel values that `set_source_u32` hands to the drawing backend,
      before they are scaled to [0, 1]. */
  function Unpack(c: u32): (ch: Rgba)
    ensures IsBytes(ch)
    ensures Pack(ch) == c
  {
    ByteDigits(c);
    Rgba(ByteAt(c, 3), ByteAt(c, 2), ByteAt(c, 1), ByteAt(c, 0))
  }

  /** Every 32-bit value is the sum of its four bytes at their positions. */
  lemma ByteDigits(c: u32)
    ensures c == ByteAt(c, 3) * 0x100_0000 + ByteAt(c, 2) * 0x1_0000 + ByteAt(c, 1) * 0x100 + ByteAt(c, 0)
  {
    var q1 := c / 0x100;
    var q2 := q1 / 0x100;
    var q3 := q2 / 0x100;
    assert c == q1 * 0x100 + c % 0x100;
    assert q1 == q2 * 0x100 + q1 % 0x100;
    assert q2 == q3 * 0x100 + q2 % 0x100;
    assert c / 0x1_0000 == q2;
    assert c / 0x100_0000 == q3;
  }

  /** The packed value whose channels are `ch`: R in the top byte, A in the lowest. */
  function Pack(ch: Rgba): int {
    ch.red * 0x100_0000 + ch.green * 0x1_0000 + ch.blue * 0x100 + ch.alpha
  }

  /** Unpacking is a bijection between 32-bit values and byte quadruples:
      packing any four bytes gives a 32-bit value that unpacks to them again. */
  lemma PackUnpack(ch: Rgba)
    requires IsBytes(ch)
    ensures 0 <= Pack(ch) < 0x1_0000_0000
    ensures Unpack(Pack(ch)) == ch
  {
    var c: u32 := Pack(ch);
    var u := Unpack(c);
    PackedDigits(ch.red, ch.green, ch.blue, ch.alpha, u.red, u.green, u.blue, u.alpha);
  }

  /** Base-256 digits are unique. */
  lemma PackedDigits(r: int, g: int, b: int, a: int, r': int, g': int, b': int, a': int)
    requires IsByte(r) && IsByte(g) && IsByte(b) && IsByte(a)
    requires IsByte(r') && IsByte(g') && IsByte(b') && IsByte(a')
    requires r * 0x100_0000 + g * 0x1_0000 + b * 0x100 + a == r' * 0x100_0000 + g' * 0x1_0000 + b' * 0x100 + a'
    ensures r == r' && g == g' && b == b' && a == a'
  {
  }

  /** The colour 0xFF000080 is opaque-red channels with alpha 128 (128 / 255 is about 0.502). */
  lemma UnpackRedHalfAlpha()
    ensures Unpack(0xFF000080) == Rgba(255, 0, 0, 128)
  {
  }
}
