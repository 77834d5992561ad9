/** WAV decoding and linear resampling from AudioPreprocessor: the 44-byte
    header is read for channel count, bit depth and sample rate, interleaved
    16-bit frames are averaged to mono floats in [-1, 1), and audio that is
    not at 16 kHz is linearly resampled. A JVM exception becomes `Failure`. */
module AudioDecoding {
  import opened Wrappers
  import opened Ints
  import opened Pcm

  const SAMPLE_RATE: int := 16000
  const HEADER_BYTES: int := 44
  const CHANNELS_OFFSET: int := 22
  const SAMPLE_RATE_OFFSET: int := 24
  const BITS_OFFSET: int := 34
  const PCM_SCALE: real := 32768.0

  predicate InUnitRange(s: seq<real>) {
    forall i :: 0 <= i < |s| ==> -1.0 <= s[i] <= 1.0
  }

  // ---------------------------------------------------------------- downmix

  /** One 16-bit sample at byte offset `off`, scaled by 1/32768 (0 outside the data). */
  function SampleAt(bytes: seq<Byte>, off: int): real
  {
    if 0 <= off && off + 1 < |bytes| then ShortAt(bytes, off) as real / PCM_SCALE else 0.0
  }

  /** Sum of the first `k` channel samples of the frame starting at byte `i`. */
  function ChannelSum(bytes: seq<Byte>, i: int, k: nat): real
  {
    if k == 0 then 0.0 else ChannelSum(bytes, i, k - 1) + SampleAt(bytes, i + 2 * (k - 1))
  }

  /** The mono value of frame `f`: the mean of its `c` channel samples. */
  function MonoSample(bytes: seq<Byte>, f: int, c: int): real
    requires c > 0
  {
    ChannelSum(bytes, c * 2 * f, c) / c as real
  }

  /** The downmix loop ends without an exception exactly when there is no data,
      or the channel count is positive and the data is whole frames. */
  predicate DownmixSucceeds(n: int, c: int) {
    n == 0 || (c > 0 && n % (c * 2) == 0)
  }

  /** The mono signal of whole-frame interleaved data. */
  function Downmixed(bytes: seq<Byte>, c: int): seq<real>
    requires DownmixSucceeds(|bytes|, c)
  {
    if |bytes| == 0 then [] else seq(|bytes| / (c * 2), f => MonoSample(bytes, f, c))
  }

  lemma {:induction false} SampleAtBounds(bytes: seq<Byte>, off: int)
    ensures -1.0 <= SampleAt(bytes, off) < 1.0
  {
  }

  lemma {:induction false} ChannelSumBounds(bytes: seq<Byte>, i: int, k: nat)
    ensures -(k as real) <= ChannelSum(bytes, i, k) <= k as real
  {
    if k > 0 {
      ChannelSumBounds(bytes, i, k - 1);
      SampleAtBounds(bytes, i + 2 * (k - 1));
    }
  }

  /** Every downmixed sample lies in [-1, 1]. */
  lemma DownmixedInUnitRange(bytes: seq<Byte>, c: int)
    requires DownmixSucceeds(|bytes|, c)
    ensures InUnitRange(Downmixed(bytes, c))
  {
    var d := Downmixed(bytes, c);
    forall f | 0 <= f < |d| ensures -1.0 <= d[f] <= 1.0 {
      ChannelSumBounds(bytes, c * 2 * f, c);
      var s := ChannelSum(bytes, c * 2 * f, c);
      assert d[f] == s / c as real;
      MeanBounds(s, c as real);
    }
  }

  lemma MeanBounds(s: real, c: real)
    requires c >= 1.0 && -c <= s <= c
    ensures -1.0 <= s / c <= 1.0
  {
  }

  lemma FrameFits(i: int, n: int, step: int, idx: int, total: int)
    requires step > 0 && n == step * total && i == step * idx && i < n
    ensures idx < total && i + step <= n
  {
    if idx >= total {
      MulMono(step, total, idx);
    }
    MulMono(step, idx + 1, total);
    MulSucc(step, idx);
  }

  lemma MulMono(k: int, a: int, b: int)
    requires k > 0 && a <= b
    ensures k * a <= k * b
  {
  }

  lemma MulSucc(k: int, a: int)
    ensures k * (a + 1) == k * a + k
  {
  }

  /** For whole frames, `n / 2 / c` (the source's order) is the frame count. */
  lemma DivExact(n: nat, c: int)
    requires c > 0 && n % (c * 2) == 0
    ensures n / 2 / c == n / (c * 2)
    ensures n == c * 2 * (n / (c * 2))
  {
    var q := n / (c * 2);
    assert n == (c * 2) * q + 0;
    var m := c * q;
    assert n == 2 * m;
    DivModUnique(m, c, q, 0);
  }

  /** `shortsToMonoFloats` (and the identical loop inside `decodeWav16Mono`):
      averages each interleaved frame of `channels` 16-bit samples to one float.
      An index past either array is a `Failure`. */
  method ShortsToMonoFloats(bytes: seq<Byte>, channels: int) returns (r: Result<seq<real>>)
    ensures r.Success? <==> DownmixSucceeds(|bytes|, channels)
    ensures r.Success? ==> r.value == Downmixed(bytes, channels)
  {
    var samples := |bytes| / 2 / Max(1, channels);
    var step := channels * 2;
    var out := new real[samples];
    var idx := 0;
    var i := 0;
    while i < |bytes|
      invariant 0 <= idx <= samples
      invariant i == step * idx
      invariant channels > 0 ==> 0 <= i <= |bytes|
      invariant channels <= 0 ==> i <= 0
      invariant channels > 0 ==> forall f :: 0 <= f < idx ==> out[f] == MonoSample(bytes, f, channels)
      decreases samples - idx
    {
      var acc, inBounds := SumFrame(bytes, i, channels);
      if !inBounds || idx >= samples {
        if channels > 0 {
          FrameFailure(|bytes|, channels, i, idx, samples);
        }
        return Failure("ArrayIndexOutOfBoundsException");
      }
      // With no channels the source stores 0f / 0 (NaN); every such run ends in the failure above.
      out[idx] := if channels != 0 then acc / channels as real else 0.0;
      MulSucc(step, idx);
      idx := idx + 1;
      i := i + channels * 2;
    }
    if channels > 0 {
      DownmixFinish(|bytes|, channels, idx, samples);
      assert out[..] == Downmixed(bytes, channels);
    }
    return Success(out[..]);
  }

  /** A frame that overruns the data, or one frame too many, means the data is not whole frames. */
  lemma FrameFailure(n: nat, c: int, i: int, idx: int, samples: int)
    requires c > 0 && samples == n / 2 / c && i == c * 2 * idx && 0 <= i < n
    requires i + c * 2 > n || idx >= samples
    ensures !DownmixSucceeds(n, c)
  {
    if DownmixSucceeds(n, c) {
      DivExact(n, c);
      FrameFits(i, n, c * 2, idx, samples);
    }
  }

  /** Reaching the end of the data after `idx` whole frames means every frame was filled. */
  lemma DownmixFinish(n: nat, c: int, idx: int, samples: int)
    requires c > 0 && samples == n / 2 / c && n == c * 2 * idx && idx >= 0
    ensures DownmixSucceeds(n, c) && idx == samples && n / (c * 2) == idx
  {
    MulModZero(c * 2, idx);
    DivExact(n, c);
    DivModUnique(n, c * 2, idx, 0);
  }

  /** The `repeat(channels)` body: sums the channel samples of the frame at byte `i`;
      `inBounds` is false when a read would leave the array. */
  method SumFrame(bytes: seq<Byte>, i: int, channels: int) returns (acc: real, inBounds: bool)
    requires channels > 0 ==> 0 <= i
    ensures channels <= 0 ==> inBounds && acc == 0.0
    ensures channels > 0 ==> (inBounds <==> i + channels * 2 <= |bytes|)
    ensures channels > 0 && inBounds ==> acc == ChannelSum(bytes, i, channels)
  {
    acc := 0.0;
    var ch := 0;
    while ch < channels
      invariant 0 <= ch <= Max(0, channels)
      invariant acc == ChannelSum(bytes, i, ch)
      invariant 0 < ch ==> i + ch * 2 <= |bytes|
    {
      if !(0 <= i + ch * 2 && i + ch * 2 + 1 < |bytes|) {
        return acc, false;
      }
      acc := acc + ShortLE(bytes[i + ch * 2], bytes[i + ch * 2 + 1]) as real / PCM_SCALE;
      ch := ch + 1;
    }
    return acc, true;
  }

  lemma MulModZero(k: int, a: nat)
    requires k > 0
    ensures (k * a) % k == 0
  {
    DivModUnique(k * a, k, a, 0);
  }

  // ---------------------------------------------------------------- resampling

  function At(s: seq<real>, i: int): real {
    if 0 <= i < |s| then s[i] else 0.0
  }

  /** The value between samples `floor(pos)` and `floor(pos) + 1` by linear interpolation. */
  function Interpolated(s: seq<real>, pos: real): real {
    var idx := TruncReal(pos);
    var frac := pos - idx as real;
    At(s, idx) * (1.0 - frac) + At(s, idx + 1) * frac
  }

  /** `(samples.size * ratio).toInt()` with `ratio = dst / src`; a zero source
      rate makes the ratio infinite, so `n * ratio` is NaN (0) for no samples
      and +Infinity (Int.MAX_VALUE) otherwise. */
  function ResampledLength(n: nat, src: int, dst: int): int
    requires dst > 0
  {
    if src == 0 then (if n == 0 then 0 else INT32_MAX)
    else FloatToInt(n as real * (dst as real / src as real))
  }

  /** The output array cannot be allocated: a negative size, or `Int.MAX_VALUE` floats. */
  predicate ResampleFails(n: nat, src: int, dst: int)
    requires dst > 0
  {
    src != dst && (ResampledLength(n, src, dst) < 0 || ResampledLength(n, src, dst) == INT32_MAX)
  }

  function Resampled(s: seq<real>, src: int, dst: int): seq<real>
    requires dst > 0 && !ResampleFails(|s|, src, dst)
  {
    if src == dst then s
    else if src == 0 then []
    else
      var ratio := dst as real / src as real;
      seq(ResampledLength(|s|, src, dst), j => Interpolated(s, j as real / ratio))
  }

  /** `resampleLinear`: unchanged at equal rates, otherwise `floor(n * dst / src)`
      samples, output `j` interpolated at source position `j * src / dst`. */
  method ResampleLinear(samples: seq<real>, srcRate: int, dstRate: int) returns (r: Result<seq<real>>)
    requires dstRate > 0
    ensures r.Success? <==> !ResampleFails(|samples|, srcRate, dstRate)
    ensures r.Success? ==> r.value == Resampled(samples, srcRate, dstRate)
  {
    if srcRate == dstRate {
      return Success(samples);
    }
    var outLen := ResampledLength(|samples|, srcRate, dstRate);
    if outLen < 0 {
      return Failure("NegativeArraySizeException");
    }
    if outLen == INT32_MAX {
      return Failure("OutOfMemoryError");
    }
    if srcRate == 0 {
      return Success([]);
    }
    var ratio := dstRate as real / srcRate as real;
    var out := new real[outLen];
    for i := 0 to outLen
      invariant forall j :: 0 <= j < i ==> out[j] == Interpolated(samples, j as real / ratio)
    {
      var srcPos := i as real / ratio;
      var idx := TruncReal(srcPos);
      var frac := srcPos - idx as real;
      var s0 := if 0 <= idx < |samples| then samples[idx] else 0.0;
      var s1 := if 0 <= idx + 1 < |samples| then samples[idx + 1] else 0.0;
      out[i] := s0 * (1.0 - frac) + s1 * frac;
    }
    return Success(out[..]);
  }

  /** The real quotient of two integers floors to their integer quotient. */
  lemma RealQuotientFloor(a: nat, b: int)
    requires b > 0
    ensures (a as real / b as real).Floor == a / b
  {
    var q, rm := a / b, a % b;
    assert a as real == q as real * b as real + rm as real;
    assert a as real / b as real == q as real + rm as real / b as real;
    assert 0.0 <= rm as real / b as real < 1.0;
  }

  /** Scaling by the rate ratio is the real quotient `n * dst / src`. */
  lemma ScaledIsQuotient(n: nat, src: int, dst: int)
    requires src > 0 && dst > 0
    ensures n as real * (dst as real / src as real) == (n * dst) as real / src as real
  {
  }

  /** With a positive source rate the output has `floor(n * dst / src)` samples. */
  lemma ResampledLengthFloor(n: nat, src: int, dst: int)
    requires src > 0 && dst > 0 && n * dst < src * INT32_MAX
    ensures ResampledLength(n, src, dst) == (n * dst) / src
  {
    var q := (n * dst) / src;
    ScaledIsQuotient(n, src, dst);
    RealQuotientFloor(n * dst, src);
    assert q < INT32_MAX by {
      if q >= INT32_MAX {
        MulMono(src, INT32_MAX, q);
      }
    }
  }

  /** A negative source rate fails exactly when `n * dst / src <= -1`. */
  lemma ResampleNegativeRate(n: nat, src: int, dst: int)
    requires src < 0 && dst > 0
    ensures ResampleFails(n, src, dst) <==> n * dst >= -src
  {
    var x := n as real * (dst as real / src as real);
    assert x == -((n * dst) as real / (-src) as real);
    if n * dst >= -src {
      assert (n * dst) as real / (-src) as real >= 1.0;
    } else {
      assert (n * dst) as real / (-src) as real < 1.0;
    }
  }

  lemma NegativeRateEmpty(n: nat, src: int, dst: int)
    requires src < 0 && dst > 0 && !ResampleFails(n, src, dst)
    ensures ResampledLength(n, src, dst) == 0
  {
    ResampleNegativeRate(n, src, dst);
    var x := n as real * (dst as real / src as real);
    assert x == -((n * dst) as real / (-src) as real);
    assert (n * dst) as real / (-src) as real < 1.0;
  }

  lemma InterpolatedBounds(s: seq<real>, pos: real)
    requires InUnitRange(s) && pos >= 0.0
    ensures -1.0 <= Interpolated(s, pos) <= 1.0
  {
    var idx := TruncReal(pos);
    var frac := pos - idx as real;
    assert 0.0 <= frac < 1.0;
    var a := At(s, idx);
    var b := At(s, idx + 1);
    assert -1.0 <= a <= 1.0 && -1.0 <= b <= 1.0;
    ConvexBounds(a, b, frac);
    assert Interpolated(s, pos) == a * (1.0 - frac) + b * frac;
  }

  lemma ConvexBounds(a: real, b: real, t: real)
    requires -1.0 <= a <= 1.0 && -1.0 <= b <= 1.0 && 0.0 <= t <= 1.0
    ensures -1.0 <= a * (1.0 - t) + b * t <= 1.0
  {
    var u := 1.0 - t;
    MulNonneg(1.0 - a, u);
    MulNonneg(1.0 + a, u);
    MulNonneg(1.0 - b, t);
    MulNonneg(1.0 + b, t);
  }

  lemma MulNonneg(x: real, y: real)
    requires x >= 0.0 && y >= 0.0
    ensures x * y >= 0.0
  {
  }

  lemma RatioPositive(src: int, dst: int)
    requires src > 0 && dst > 0
    ensures dst as real / src as real > 0.0
  {
  }

  lemma DivNonneg(x: real, y: real)
    requires x >= 0.0 && y > 0.0
    ensures x / y >= 0.0
  {
  }

  /** Interpolation never leaves the range of its inputs: resampling keeps [-1, 1]. */
  lemma ResampledInUnitRange(s: seq<real>, src: int, dst: int)
    requires dst > 0 && !ResampleFails(|s|, src, dst) && InUnitRange(s)
    ensures InUnitRange(Resampled(s, src, dst))
  {
    if src != dst && src != 0 {
      var r := Resampled(s, src, dst);
      var ratio := dst as real / src as real;
      if src < 0 {
        NegativeRateEmpty(|s|, src, dst);
        assert |r| == 0;
      } else {
        RatioPositive(src, dst);
        forall j | 0 <= j < |r| ensures -1.0 <= r[j] <= 1.0 {
          DivNonneg(j as real, ratio);
          InterpolatedBounds(s, j as real / ratio);
        }
      }
    }
  }

  // ---------------------------------------------------------------- WAV decoding

  function Channels(stream: seq<Byte>): int
    requires |stream| >= HEADER_BYTES
  {
    ShortAt(stream, CHANNELS_OFFSET)
  }

  function BitsPerSample(stream: seq<Byte>): int
    requires |stream| >= HEADER_BYTES
  {
    ShortAt(stream, BITS_OFFSET)
  }

  function SampleRateOf(stream: seq<Byte>): int
    requires |stream| >= HEADER_BYTES
  {
    IntAt(stream, SAMPLE_RATE_OFFSET)
  }

  /** The conditions under which `decodeWav16Mono` returns instead of throwing. */
  predicate WavDecodes(stream: seq<Byte>) {
    && |stream| >= HEADER_BYTES
    && BitsPerSample(stream) == 16
    && DownmixSucceeds(|stream| - HEADER_BYTES, Channels(stream))
    && !ResampleFails(|Downmixed(stream[HEADER_BYTES..], Channels(stream))|, SampleRateOf(stream), SAMPLE_RATE)
  }

  /** The 16 kHz mono signal a decodable stream holds. */
  function DecodedWav(stream: seq<Byte>): seq<real>
    requires WavDecodes(stream)
  {
    Resampled(Downmixed(stream[HEADER_BYTES..], Channels(stream)), SampleRateOf(stream), SAMPLE_RATE)
  }

  /** `decodeWav16Mono`: the whole stream is given at once (a short read of the
      header is modelled as a stream shorter than 44 bytes). */
  method DecodeWav16Mono(stream: seq<Byte>) returns (r: Result<seq<real>>)
    ensures r.Success? <==> WavDecodes(stream)
    ensures r.Success? ==> r.value == DecodedWav(stream)
  {
    if |stream| < HEADER_BYTES {
      return Failure("Invalid WAV header");
    }
    var channels := ShortAt(stream, CHANNELS_OFFSET);
    var bitsPerSample := ShortAt(stream, BITS_OFFSET);
    var sr := IntAt(stream, SAMPLE_RATE_OFFSET);
    if bitsPerSample != 16 {
      return Failure("Only 16-bit PCM supported");
    }
    var mono :- ShortsToMonoFloats(stream[HEADER_BYTES..], channels);
    if sr != SAMPLE_RATE {
      r := ResampleLinear(mono, sr, SAMPLE_RATE);
    } else {
      r := Success(mono);
    }
  }

  /** Every decoded sample lies in [-1, 1]. */
  lemma DecodedWavInUnitRange(stream: seq<Byte>)
    requires WavDecodes(stream)
    ensures InUnitRange(DecodedWav(stream))
  {
    DownmixedInUnitRange(stream[HEADER_BYTES..], Channels(stream));
    ResampledInUnitRange(Downmixed(stream[HEADER_BYTES..], Channels(stream)), SampleRateOf(stream), SAMPLE_RATE);
  }

  // ---------------------------------------------------------------- encoder (partner)

  /** A 32-bit little-endian field of the canonical header. */
  function Le32(v: nat): seq<Byte> {
    [v % 256, (v / 256) % 256, (v / 65536) % 256, (v / 16777216) % 256]
  }

  /** The canonical 44-byte RIFF/WAVE header of a 16 kHz, mono, 16-bit file. */
  function MonoHeader(dataBytes: nat): (h: seq<Byte>)
    ensures |h| == HEADER_BYTES
  {
    [82, 73, 70, 70] + Le32((36 + dataBytes) % 0x1_0000_0000) + [87, 65, 86, 69]  // "RIFF" size "WAVE"
    + [102, 109, 116, 32] + Le32(16) + [1, 0] + [1, 0]                           // "fmt " 16 PCM mono
    + Le32(SAMPLE_RATE) + Le32(2 * SAMPLE_RATE) + [2, 0] + [16, 0]              // rate, byte rate, align, bits
    + [100, 97, 116, 97] + Le32(dataBytes % 0x1_0000_0000)                     // "data" size
  }

  /** The little-endian bytes of a sequence of 16-bit samples. */
  function PcmBytes(shorts: seq<int>): (b: seq<Byte>)
    requires forall i :: 0 <= i < |shorts| ==> IsShort(shorts[i])
    ensures |b| == 2 * |shorts|
  {
    seq(2 * |shorts|, k requires 0 <= k < 2 * |shorts| =>
      if k % 2 == 0 then EncodeShortLE(shorts[k / 2]).0 else EncodeShortLE(shorts[k / 2]).1)
  }

  function EncodeWav16Mono(shorts: seq<int>): seq<Byte>
    requires forall i :: 0 <= i < |shorts| ==> IsShort(shorts[i])
  {
    MonoHeader(2 * |shorts|) + PcmBytes(shorts)
  }

  lemma MonoHeaderFields(shorts: seq<int>)
    requires forall i :: 0 <= i < |shorts| ==> IsShort(shorts[i])
    ensures |EncodeWav16Mono(shorts)| >= HEADER_BYTES
    ensures Channels(EncodeWav16Mono(shorts)) == 1
    ensures BitsPerSample(EncodeWav16Mono(shorts)) == 16
    ensures SampleRateOf(EncodeWav16Mono(shorts)) == SAMPLE_RATE
    ensures EncodeWav16Mono(shorts)[HEADER_BYTES..] == PcmBytes(shorts)
  {
    var w := EncodeWav16Mono(shorts);
    var h := MonoHeader(2 * |shorts|);
    assert w[..HEADER_BYTES] == h;
    assert h[22] == 1 && h[23] == 0;
    assert h[34] == 16 && h[35] == 0;
    assert h[24] == 128 && h[25] == 62 && h[26] == 0 && h[27] == 0;
  }

  lemma DownmixedMono(shorts: seq<int>)
    requires forall i :: 0 <= i < |shorts| ==> IsShort(shorts[i])
    ensures DownmixSucceeds(|PcmBytes(shorts)|, 1)
    ensures Downmixed(PcmBytes(shorts), 1) == seq(|shorts|, i requires 0 <= i < |shorts| => shorts[i] as real / PCM_SCALE)
  {
    var data := PcmBytes(shorts);
    assert |data| == 2 * |shorts|;
    assert |data| % (1 * 2) == 0 && |data| / (1 * 2) == |shorts|;
    var d := Downmixed(data, 1);
    assert |d| == |shorts|;
    var e := seq(|shorts|, i requires 0 <= i < |shorts| => shorts[i] as real / PCM_SCALE);
    forall f | 0 <= f < |shorts| ensures d[f] == e[f] {
      MonoFrame(shorts, f);
    }
    assert d == e;
  }

  lemma MonoFrame(shorts: seq<int>, f: int)
    requires forall i :: 0 <= i < |shorts| ==> IsShort(shorts[i])
    requires 0 <= f < |shorts|
    ensures MonoSample(PcmBytes(shorts), f, 1) == shorts[f] as real / PCM_SCALE
  {
    var data := PcmBytes(shorts);
    OneChannelFrame(data, f);
    PcmBytesAt(shorts, f);
    ShortLERoundTrip(shorts[f]);
  }

  lemma OneChannelFrame(bytes: seq<Byte>, f: int)
    ensures MonoSample(bytes, f, 1) == SampleAt(bytes, 2 * f)
  {
    assert 1 * 2 * f == 2 * f;
    assert ChannelSum(bytes, 2 * f, 1) == SampleAt(bytes, 2 * f);
  }

  lemma PcmBytesAt(shorts: seq<int>, f: int)
    requires forall i :: 0 <= i < |shorts| ==> IsShort(shorts[i])
    requires 0 <= f < |shorts|
    ensures 2 * f + 1 < |PcmBytes(shorts)|
    ensures PcmBytes(shorts)[2 * f] == EncodeShortLE(shorts[f]).0
    ensures PcmBytes(shorts)[2 * f + 1] == EncodeShortLE(shorts[f]).1
  {
  }

  /** A canonical 16 kHz mono WAV decodes to its samples scaled by 1/32768. */
  lemma DecodeEncodedWav(shorts: seq<int>)
    requires forall i :: 0 <= i < |shorts| ==> IsShort(shorts[i])
    ensures WavDecodes(EncodeWav16Mono(shorts))
    ensures DecodedWav(EncodeWav16Mono(shorts)) == seq(|shorts|, i requires 0 <= i < |shorts| => shorts[i] as real / PCM_SCALE)
  {
    MonoHeaderFields(shorts);
    DownmixedMono(shorts);
  }
}
