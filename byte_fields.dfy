/** Bytes and the little-endian 16-bit fields the controller reports use.
    The Xbox report structures of joystick.cpp are read on a little-endian
    processor, so a `uint16_t` or `int16_t` member is `lo + 256 * hi`. */
module ByteFields {

  /** `uint8_t`. */
  type byte = x: int | 0 <= x < 256

  /** A `uint16_t` stored low byte first. */
  function U16(lo: byte, hi: byte): (v: nat)
    ensures v < 0x1_0000
  {
    lo + 256 * hi
  }

  /** `b0 | (b1 << 8) | (b2 << 16)`: a 24-bit field stored low byte first
      (the three bytes do not overlap, so their OR is this sum). */
  function Le24(b0: byte, b1: byte, b2: byte): (v: nat)
    ensures v < 0x100_0000
  {
    b0 + 256 * b1 + 65536 * b2
  }

  /** An `int16_t` stored low byte first (two's complement). */
  function S16(lo: byte, hi: byte): (v: int)
    ensures -0x8000 <= v < 0x8000
    ensures v == U16(lo, hi) <==> hi < 0x80
  {
    var u := U16(lo, hi);
    if u < 0x8000 then u else u - 0x1_0000
  }

  /** The byte written first when a value is stored as a 16-bit field. */
  function LowByte(v: int): byte
  {
    v % 256
  }

  /** The byte written second when a value is stored as a 16-bit field. */
  function HighByte(v: int): byte
  {
    (v / 256) % 256
  }

  /** Splitting an unsigned field gives back its two bytes. */
  lemma U16Bytes(lo: byte, hi: byte)
    ensures LowByte(U16(lo, hi)) == lo && HighByte(U16(lo, hi)) == hi
  {
  }

  /** The three bytes are read back from a 24-bit field. */
  lemma Le24Bytes(b0: byte, b1: byte, b2: byte)
    ensures Le24(b0, b1, b2) % 256 == b0
    ensures Le24(b0, b1, b2) / 256 % 256 == b1
    ensures Le24(b0, b1, b2) / 65536 == b2
  {
  }

  /** Every unsigned 16-bit value is read back from its own two bytes. */
  lemma U16RoundTrip(v: int)
    requires 0 <= v < 0x1_0000
    ensures U16(LowByte(v), HighByte(v)) == v
  {
  }

  /** Every signed 16-bit value is read back from its two's complement bytes. */
  lemma S16RoundTrip(v: int)
    requires -0x8000 <= v < 0x8000
    ensures S16(LowByte(v), HighByte(v)) == v
  {
    if v < 0 {
      assert LowByte(v) == (v + 0x1_0000) % 256;
      assert HighByte(v) == ((v + 0x1_0000) / 256) % 256;
      U16RoundTrip(v + 0x1_0000);
    } else {
      U16RoundTrip(v);
    }
  }
}
