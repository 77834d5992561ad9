/** `PasswordHasher.hash`: the SHA-256 digest of the password, written as lowercase
    Base16 (section 8 of RFC 4648), two digits per byte. The digest itself
    (FIPS 180-4) is not modelled: the hasher is given its 32 signed bytes. */
module PasswordHasher {
  import opened Wrappers

  /** A JVM `Byte`. */
  type SByte = b: int | -128 <= b < 128

  const HEX_DIGITS: string := "0123456789abcdef"
  const DIGEST_BYTES: nat := 32

  predicate IsLowerHex(c: char) {
    c in HEX_DIGITS
  }

  function HexDigit(d: nat): (c: char)
    requires d < 16
    ensures IsLowerHex(c)
  {
    HEX_DIGITS[d]
  }

  /** `Int.toString(16)` of a non-negative number. */
  function ToHexString(n: nat): (s: string)
    ensures |s| >= 1
    ensures forall i :: 0 <= i < |s| ==> IsLowerHex(s[i])
  {
    if n < 16 then [HexDigit(n)] else ToHexString(n / 16) + [HexDigit(n % 16)]
  }

  /** `byte.toInt() and 0xFF`: the byte read as unsigned. */
  function Unsigned(b: SByte): (u: nat)
    ensures u < 256
    ensures b >= 0 ==> u == b
    ensures b < 0 ==> u == b + 256
  {
    b % 256
  }

  /** `((byte.toInt() and 0xFF) + 0x100).toString(16).substring(1)`. */
  function ByteHex(b: SByte): string {
    var s := ToHexString(Unsigned(b) + 256);
    if |s| >= 1 then s[1..] else s
  }

  /** Adding 0x100 before printing and dropping the leading '1' leaves exactly two
      digits, high nibble first, so small bytes keep their leading zero. */
  lemma ByteHexDigits(b: SByte)
    ensures ByteHex(b) == [HexDigit(Unsigned(b) / 16), HexDigit(Unsigned(b) % 16)]
  {
    var u := Unsigned(b);
    var n := u + 256;
    assert n / 16 == 16 + u / 16 && n % 16 == u % 16;
    assert (n / 16) / 16 == 1 && (n / 16) % 16 == u / 16;
    assert ToHexString(1) == "1";
    assert ToHexString(n / 16) == "1" + [HexDigit(u / 16)];
    assert ToHexString(n) == "1" + [HexDigit(u / 16)] + [HexDigit(u % 16)];
  }

  /** `digest.joinToString(separator = "") { ... }`. */
  function HexEncode(digest: seq<SByte>): (s: string)
    ensures |s| == 2 * |digest|
  {
    if |digest| == 0 then ""
    else
      ByteHexDigits(digest[0]);
      ByteHex(digest[0]) + HexEncode(digest[1..])
  }

  /** The hash of a password whose SHA-256 digest is `digest`. */
  function Hash(digest: seq<SByte>): (s: string)
    requires |digest| == DIGEST_BYTES
    ensures |s| == 64
    ensures forall i :: 0 <= i < |s| ==> IsLowerHex(s[i])
  {
    HexEncodeLowerHex(digest);
    HexEncode(digest)
  }

  lemma {:induction false} HexEncodeLowerHex(digest: seq<SByte>)
    ensures forall i :: 0 <= i < |HexEncode(digest)| ==> IsLowerHex(HexEncode(digest)[i])
  {
    if |digest| > 0 {
      ByteHexDigits(digest[0]);
      HexEncodeLowerHex(digest[1..]);
      var s := HexEncode(digest);
      assert s == ByteHex(digest[0]) + HexEncode(digest[1..]);
      forall i | 0 <= i < |s| ensures IsLowerHex(s[i]) {
        if i >= 2 {
          assert s[i] == HexEncode(digest[1..])[i - 2];
        }
      }
    }
  }

  /** The value of one lowercase hex digit. The app has no decoder: this and
      `HexDecode` are a reference inverse, used only to prove the encoding lossless. */
  function DigitValue(c: char): (d: Option<nat>)
    ensures d.Some? <==> IsLowerHex(c)
    ensures d.Some? ==> d.value < 16 && HexDigit(d.value) == c
  {
    if '0' <= c <= '9' then Some(c as int - '0' as int)
    else if 'a' <= c <= 'f' then Some(c as int - 'a' as int + 10)
    else None
  }

  /** Reads two digits per byte back into unsigned byte values; None on an odd
      length or a character that is not a lowercase hex digit. A reference inverse
      of `HexEncode` for the proofs, not app code. */
  function HexDecode(s: string): (r: Option<seq<nat>>)
    ensures r.Some? ==> |s| == 2 * |r.value|
  {
    if |s| == 0 then Some([])
    else if |s| == 1 then None
    else
      var hi := DigitValue(s[0]);
      var lo := DigitValue(s[1]);
      var rest := HexDecode(s[2..]);
      if hi.None? || lo.None? || rest.None? then None
      else Some([hi.value * 16 + lo.value] + rest.value)
  }

  function UnsignedAll(digest: seq<SByte>): (u: seq<nat>)
    ensures |u| == |digest|
    ensures forall i :: 0 <= i < |u| ==> u[i] == Unsigned(digest[i])
  {
    if |digest| == 0 then [] else [Unsigned(digest[0])] + UnsignedAll(digest[1..])
  }

  lemma HexDigitInjective(a: nat, b: nat)
    requires a < 16 && b < 16 && HexDigit(a) == HexDigit(b)
    ensures a == b
  {
    assert DigitValue(HexDigit(a)) == Some(a);
    assert DigitValue(HexDigit(b)) == Some(b);
  }

  /** Each byte's two digits read back as its high and low nibble. */
  lemma ByteHexDecodes(b: SByte)
    ensures |ByteHex(b)| == 2
    ensures DigitValue(ByteHex(b)[0]) == Some(Unsigned(b) / 16)
    ensures DigitValue(ByteHex(b)[1]) == Some(Unsigned(b) % 16)
  {
    var u := Unsigned(b);
    ByteHexDigits(b);
    var h := ByteHex(b);
    HexDigitInjective(DigitValue(h[0]).value, u / 16);
    HexDigitInjective(DigitValue(h[1]).value, u % 16);
  }

  /** Decoding the hex text gives back every byte of the digest, read as unsigned. */
  lemma {:induction false} HexRoundTrip(digest: seq<SByte>)
    ensures HexDecode(HexEncode(digest)) == Some(UnsignedAll(digest))
  {
    if |digest| > 0 {
      var u := Unsigned(digest[0]);
      ByteHexDecodes(digest[0]);
      var h := ByteHex(digest[0]);
      var t := HexEncode(digest[1..]);
      var s := HexEncode(digest);
      assert s == h + t;
      assert s[0] == h[0] && s[1] == h[1] && s[2..] == t;
      HexRoundTrip(digest[1..]);
      assert (u / 16) * 16 + u % 16 == u;
      assert HexDecode(s) == Some([u] + UnsignedAll(digest[1..]));
      assert UnsignedAll(digest) == [u] + UnsignedAll(digest[1..]);
    }
  }

  /** Different digests never print the same: the encoding loses nothing. */
  lemma HexEncodeInjective(a: seq<SByte>, b: seq<SByte>)
    requires HexEncode(a) == HexEncode(b)
    ensures a == b
  {
    HexRoundTrip(a);
    HexRoundTrip(b);
    assert UnsignedAll(a) == UnsignedAll(b);
    assert |a| == |b|;
    forall i | 0 <= i < |a| ensures a[i] == b[i] {
      assert Unsigned(a[i]) == Unsigned(b[i]);
    }
  }
}
