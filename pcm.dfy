/** Little-endian reads of 16- and 32-bit signed integers from a byte array,
    as `toShortLE`/`toIntLE` in AudioPreprocessor and the `ByteBuffer` reads in
    AudioTestProcessor do them. */
module Pcm {

  /** A byte, held as its unsigned bit pattern. */
  type Byte = b: int | 0 <= b < 256

  const SHORT_MIN: int := -32768
  const SHORT_MAX: int := 32767

  predicate IsShort(v: int) { SHORT_MIN <= v <= SHORT_MAX }

  /** A value of Kotlin's `Short`. */
  type Short = v: int | SHORT_MIN <= v <= SHORT_MAX

  /** `Byte.toInt()`: the two's-complement value of the bit pattern. */
  function SignedByte(b: Byte): (v: int)
    ensures -128 <= v < 128
    ensures v % 256 == b
  {
    if b < 128 then b else b - 256
  }

  /** `((hi shl 8) or (lo and 0xFF)).toShort()`: `hi` is sign-extended, `lo` masked,
      and the value already fits in a short. */
  function ShortLE(lo: Byte, hi: Byte): (v: int)
    ensures IsShort(v)
    ensures v % 0x1_0000 == lo + 256 * hi
  {
    SignedByte(hi) * 256 + lo
  }

  /** The two bytes a short is stored as, low byte first. */
  function EncodeShortLE(v: int): (bytes: (Byte, Byte))
    requires IsShort(v)
  {
    (v % 256, (v / 256) % 256)
  }

  /** Decoding undoes encoding ... */
  lemma ShortLERoundTrip(v: int)
    requires IsShort(v)
    ensures ShortLE(EncodeShortLE(v).0, EncodeShortLE(v).1) == v
  {
  }

  /** ... and encoding undoes decoding, so every byte pair is a distinct short. */
  lemma ShortLEInjective(lo: Byte, hi: Byte)
    ensures EncodeShortLE(ShortLE(lo, hi)) == (lo, hi)
  {
  }

  /** `(b0 and 0xFF) or ((b1 and 0xFF) shl 8) or ((b2 and 0xFF) shl 16) or (b3.toInt() shl 24)`. */
  function IntLE(b0: Byte, b1: Byte, b2: Byte, b3: Byte): (v: int)
    ensures -0x8000_0000 <= v < 0x8000_0000
    ensures v % 0x1_0000_0000 == b0 + 0x100 * b1 + 0x1_0000 * b2 + 0x100_0000 * b3
  {
    b0 + 0x100 * b1 + 0x1_0000 * b2 + 0x100_0000 * SignedByte(b3)
  }

  /** The short stored at byte offset `off` of `bytes`. */
  function ShortAt(bytes: seq<Byte>, off: int): int
    requires 0 <= off && off + 1 < |bytes|
  {
    ShortLE(bytes[off], bytes[off + 1])
  }

  /** The 32-bit int stored at byte offset `off` of `bytes`. */
  function IntAt(bytes: seq<Byte>, off: int): int
    requires 0 <= off && off + 3 < |bytes|
  {
    IntLE(bytes[off], bytes[off + 1], bytes[off + 2], bytes[off + 3])
  }
}
