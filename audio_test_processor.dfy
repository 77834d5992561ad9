/** AudioTestProcessor, the "test an audio file" screen's back end: it loads raw
    16-bit PCM (skipping a WAV header when it sees one), clips or pads it to three
    seconds, computes energy and zero-crossing rate, asks the placeholder
    classifier of `ml.ModelRunner` for a probability and renders a coarse
    spectrogram. `log10`, `cos` and the per-frame DFT are parameters; the bitmap
    itself is not modelled. */
module AudioTestProcessor {
  import opened Wrappers
  import opened Ints
  import opened Pcm
  import AudioPreprocessor
  import AudioFeatureExtractor

  const TARGET_SAMPLES: nat := 48000
  const HEADER_BYTES: nat := 44
  const FRAME_SIZE: nat := 256
  const SPEC_HOP: nat := 128
  const SPEC_BINS: nat := 64
  const DEEPFAKE_THRESHOLD: real := 0.5
  const DEFAULT_NAME: string := "audio"
  const HIGH_TEXT: string := "Model confidence is high for deepfake; energy/zcr pattern matched known synthetic cues."
  const LOW_TEXT: string := "Model confidence is low for deepfake; no strong synthetic cues detected."

  // ------------------------------------------------------------ clip or pad

  /** `clipOrPad`: the input when it already has `target` samples, its first `target`
      samples when longer, and the input followed by zeros when shorter. */
  function ClipOrPad(samples: seq<Short>, target: nat): (r: seq<Short>)
    ensures |r| == target
    ensures forall i :: 0 <= i < target && i < |samples| ==> r[i] == samples[i]
    ensures forall i :: |samples| <= i < target ==> r[i] == 0
  {
    if |samples| == target then samples
    else if |samples| > target then samples[..target]
    else samples + seq(target - |samples|, _ => 0 as Short)
  }

  /** Scaling to [-1, 1) as `sample / 32768`. */
  function Scaled(samples: seq<Short>): (r: seq<real>)
    ensures |r| == |samples|
  {
    seq(|samples|, i requires 0 <= i < |samples| => AudioFeatureExtractor.Norm(samples[i]))
  }

  /** `clipOrPad` is the same fix-up as the model pipeline's `padOrCrop`: scaling and
      then padding or cropping gives the same floats as clipping or padding first. */
  lemma ClipOrPadIsPadOrCrop(samples: seq<Short>, target: nat)
    ensures Scaled(ClipOrPad(samples, target)) == AudioPreprocessor.PadOrCrop(Scaled(samples), target)
  {
    var a := Scaled(ClipOrPad(samples, target));
    var b := AudioPreprocessor.PadOrCrop(Scaled(samples), target);
    forall i | 0 <= i < target ensures a[i] == b[i] {
    }
  }

  // ------------------------------------------------------------------- load

  /** The 'R', 'I' test: more than a header's worth of bytes starting with "RI". */
  predicate HasWavHeader(bytes: seq<Byte>) {
    |bytes| > HEADER_BYTES && bytes[0] == 82 && bytes[1] == 73
  }

  function Offset(bytes: seq<Byte>): (off: nat)
    ensures off == 0 || off == HEADER_BYTES
  {
    if HasWavHeader(bytes) then HEADER_BYTES else 0
  }

  /** The little-endian shorts of `bytes[offset..]`; a trailing odd byte is ignored. */
  function DecodeShorts(bytes: seq<Byte>, offset: nat): (shorts: seq<Short>)
    requires offset <= |bytes|
    ensures |shorts| == (|bytes| - offset) / 2
    ensures forall i :: 0 <= i < |shorts| ==> shorts[i] == ShortAt(bytes, offset + 2 * i)
  {
    seq((|bytes| - offset) / 2, i requires 0 <= i < (|bytes| - offset) / 2 =>
      ShortAt(bytes, offset + 2 * i) as Short)
  }

  /** `loadPcm16`: an unreadable stream reads as no bytes, and a URI without a last
      path segment is named "audio". */
  function LoadPcm16(stream: Option<seq<Byte>>, lastPathSegment: Option<string>): (r: (seq<Short>, string))
    ensures var bytes := if stream.Some? then stream.value else [];
            |r.0| == Max(0, |bytes| - Offset(bytes)) / 2
    ensures r.1 == (if lastPathSegment.Some? then lastPathSegment.value else DEFAULT_NAME)
  {
    var bytes := if stream.Some? then stream.value else [];
    var offset := Offset(bytes);
    var name := if lastPathSegment.Some? then lastPathSegment.value else DEFAULT_NAME;
    (DecodeShorts(bytes, offset), name)
  }

  /** Raw PCM bytes, low byte first. */
  function EncodeShorts(shorts: seq<Short>): (bytes: seq<Byte>)
    ensures |bytes| == 2 * |shorts|
  {
    if |shorts| == 0 then []
    else [EncodeShortLE(shorts[0]).0, EncodeShortLE(shorts[0]).1] + EncodeShorts(shorts[1..])
  }

  lemma {:induction false} EncodeShortsAt(shorts: seq<Short>, i: nat)
    requires i < |shorts|
    ensures EncodeShorts(shorts)[2 * i] == EncodeShortLE(shorts[i]).0
    ensures EncodeShorts(shorts)[2 * i + 1] == EncodeShortLE(shorts[i]).1
  {
    if i > 0 {
      EncodeShortsAt(shorts[1..], i - 1);
    }
  }

  /** Decoding raw PCM from offset `offset` recovers the shorts stored there. */
  lemma DecodeEncoded(prefix: seq<Byte>, shorts: seq<Short>)
    ensures DecodeShorts(prefix + EncodeShorts(shorts), |prefix|) == shorts
  {
    var bytes := prefix + EncodeShorts(shorts);
    var d := DecodeShorts(bytes, |prefix|);
    forall i | 0 <= i < |shorts| ensures d[i] == shorts[i] {
      EncodeShortsAt(shorts, i);
      ShortLERoundTrip(shorts[i]);
    }
  }

  /** A headerless recording round-trips as long as it does not open with the bytes
      'R', 'I' ... */
  lemma RawRoundTrip(shorts: seq<Short>, name: Option<string>)
    requires |shorts| == 0 || shorts[0] != 0x4952 || 2 * |shorts| <= HEADER_BYTES
    ensures LoadPcm16(Some(EncodeShorts(shorts)), name).0 == shorts
  {
    var bytes := EncodeShorts(shorts);
    if HasWavHeader(bytes) {
      EncodeShortsAt(shorts, 0);
      ShortLERoundTrip(shorts[0]);
    }
    DecodeEncoded([], shorts);
    assert [] + bytes == bytes;
  }

  /** ... and so does a recording behind any 44-byte header that starts with "RI". */
  lemma WavRoundTrip(header: seq<Byte>, shorts: seq<Short>, name: Option<string>)
    requires |header| == HEADER_BYTES && header[0] == 82 && header[1] == 73 && |shorts| > 0
    ensures LoadPcm16(Some(header + EncodeShorts(shorts)), name).0 == shorts
  {
    DecodeEncoded(header, shorts);
  }

  /** The header test is a heuristic: a raw recording of more than 22 samples whose
      first sample is 0x4952 ("RI" little-endian) loses its first 22 samples. */
  lemma RawMistakenForWav(shorts: seq<Short>, name: Option<string>)
    requires |shorts| > 22 && shorts[0] == 0x4952
    ensures LoadPcm16(Some(EncodeShorts(shorts)), name).0 == shorts[22..]
  {
    var bytes := EncodeShorts(shorts);
    EncodeShortsAt(shorts, 0);
    assert HasWavHeader(bytes);
    var d := DecodeShorts(bytes, HEADER_BYTES);
    forall i | 0 <= i < |shorts| - 22 ensures d[i] == shorts[22 + i] {
      EncodeShortsAt(shorts, 22 + i);
      ShortLERoundTrip(shorts[22 + i]);
    }
  }

  // ---------------------------------------------------------------- analyze

  datatype AudioTestResult = AudioTestResult(
    fileName: string, confidence: real, isDeepfake: bool, explanation: string)

  /** The decision `analyze` takes on a probability. */
  function Decide(name: string, prob: real): (r: AudioTestResult)
    ensures r.fileName == name && r.confidence == prob
    ensures r.isDeepfake <==> prob >= DEEPFAKE_THRESHOLD
    ensures r.explanation == HIGH_TEXT <==> r.isDeepfake
    ensures r.explanation == LOW_TEXT <==> !r.isDeepfake
  {
    var flagged := prob >= DEEPFAKE_THRESHOLD;
    AudioTestResult(name, prob, flagged, if flagged then HIGH_TEXT else LOW_TEXT)
  }

  /** `ml.ModelRunner.infer`, the classifier `analyze` constructs: a placeholder
      that scores every feature vector 0, a probability below the threshold. */
  function PlaceholderInfer(features: seq<real>): (prob: real)
    ensures 0.0 <= prob <= 1.0
    ensures prob < DEEPFAKE_THRESHOLD
  {
    0.0
  }

  /** `analyze`: load, clip or pad, extract features, classify with the
      placeholder, decide. Whatever the file holds, it is reported as not a
      deepfake. */
  method Analyze(log10: real -> real, stream: Option<seq<Byte>>, lastPathSegment: Option<string>)
    returns (result: AudioTestResult)
    ensures var (pcm, name) := LoadPcm16(stream, lastPathSegment);
            var clipped := ClipOrPad(pcm, TARGET_SAMPLES);
            result == Decide(name, PlaceholderInfer([AudioFeatureExtractor.EnergyOf(log10, clipped),
                                                     AudioFeatureExtractor.ZeroCrossRateOf(clipped)]))
    ensures !result.isDeepfake && result.explanation == LOW_TEXT
    ensures 0.0 <= result.confidence < DEEPFAKE_THRESHOLD
  {
    var (pcm, name) := LoadPcm16(stream, lastPathSegment);
    var clipped := ClipOrPad(pcm, TARGET_SAMPLES);
    var energy := AudioFeatureExtractor.Energy(log10, clipped);
    var zcr := AudioFeatureExtractor.ZeroCrossRate(clipped);
    var prob := PlaceholderInfer([energy, zcr]);
    result := Decide(name, prob);
  }

  // ------------------------------------------------------------ spectrogram

  /** `((n - 256) / 128).coerceAtLeast(1)`, with Kotlin's truncating division. */
  function SpecFrames(n: nat): (frames: nat)
    ensures frames >= 1
  {
    Max(1, TruncDiv(n - FRAME_SIZE, SPEC_HOP))
  }

  /** Three seconds give 373 rows. */
  lemma ClipSpecFrames()
    ensures SpecFrames(TARGET_SAMPLES) == 373
  {
    DivModUnique(TARGET_SAMPLES - FRAME_SIZE, SPEC_HOP, 373, 0);
  }

  /** How many rows the fill loop writes: one per full frame at hop 128, capped at
      the row count. */
  function FilledRows(n: nat): nat {
    if n < FRAME_SIZE then 0 else Min(SpecFrames(n), (n - FRAME_SIZE) / SPEC_HOP + 1)
  }

  /** Every row is filled exactly when the signal holds at least one full frame; a
      shorter signal leaves its single row at zero. */
  lemma FilledRowsAll(n: nat)
    ensures n >= FRAME_SIZE ==> FilledRows(n) == SpecFrames(n)
    ensures n < FRAME_SIZE ==> FilledRows(n) == 0 && SpecFrames(n) == 1
  {
    if n >= FRAME_SIZE {
      assert TruncDiv(n - FRAME_SIZE, SPEC_HOP) == (n - FRAME_SIZE) / SPEC_HOP;
    } else {
      assert Abs(TruncDiv(n - FRAME_SIZE, SPEC_HOP)) == Abs(n - FRAME_SIZE) / SPEC_HOP;
    }
  }

  /** `hanning(256)`. */
  function Hanning(cosTurns: real -> real): (w: seq<real>)
    ensures |w| == FRAME_SIZE
  {
    seq(FRAME_SIZE, i requires 0 <= i < FRAME_SIZE => 0.5 - 0.5 * cosTurns(i as real / FRAME_SIZE as real))
  }

  /** The windowed frame starting at sample `start`. */
  function WindowedFrame(samples: seq<real>, window: seq<real>, start: nat): (frame: seq<real>)
    requires |window| == FRAME_SIZE && start + FRAME_SIZE <= |samples|
    ensures |frame| == FRAME_SIZE
  {
    seq(FRAME_SIZE, k requires 0 <= k < FRAME_SIZE => samples[start + k] * window[k])
  }

  /** Row `f` of the spectrogram: the DFT of frame `f` when the loop reached it,
      zeros otherwise. */
  function SpecRow(samples: seq<real>, window: seq<real>, dftMag: seq<real> -> seq<real>, f: nat): seq<real>
    requires |window| == FRAME_SIZE
  {
    if f < FilledRows(|samples|) then
      assert f * SPEC_HOP + FRAME_SIZE <= |samples| by { FrameInside(|samples|, f); }
      dftMag(WindowedFrame(samples, window, f * SPEC_HOP))
    else seq(SPEC_BINS, _ => 0.0)
  }

  lemma FrameInside(n: nat, f: nat)
    requires f < FilledRows(n)
    ensures f * SPEC_HOP + FRAME_SIZE <= n
  {
    var q := (n - FRAME_SIZE) / SPEC_HOP;
    assert f <= q;
    assert SPEC_HOP * q <= n - FRAME_SIZE;
  }

  /** The fill loop of `renderSpectrogram`, over the samples scaled by 1/32768. */
  method FillSpectrogram(samples: seq<Short>, cosTurns: real -> real, dftMag: seq<real> -> seq<real>)
    returns (spec: array<seq<real>>)
    ensures fresh(spec)
    ensures spec.Length == SpecFrames(|samples|)
    ensures forall f :: 0 <= f < spec.Length ==>
              spec[f] == SpecRow(Scaled(samples), Hanning(cosTurns), dftMag, f)
  {
    var floats := Scaled(samples);
    var frames := SpecFrames(|floats|);
    spec := new seq<real>[frames](_ => seq(SPEC_BINS, _ => 0.0));
    var window := Hanning(cosTurns);
    var frameIdx := 0;
    var i := 0;
    while i + FRAME_SIZE <= |floats| && frameIdx < frames
      invariant i == frameIdx * SPEC_HOP && frameIdx <= frames
      invariant frameIdx <= FilledRows(|floats|)
      invariant forall f :: 0 <= f < frameIdx ==> spec[f] == SpecRow(floats, window, dftMag, f)
      invariant forall f :: frameIdx <= f < frames ==> spec[f] == seq(SPEC_BINS, _ => 0.0)
      decreases frames - frameIdx
    {
      assert frameIdx < FilledRows(|floats|) by {
        assert frameIdx * SPEC_HOP <= |floats| - FRAME_SIZE;
        assert frameIdx <= (|floats| - FRAME_SIZE) / SPEC_HOP;
      }
      var frame := seq(FRAME_SIZE, k requires 0 <= k < FRAME_SIZE => floats[i + k] * window[k]);
      spec[frameIdx] := dftMag(frame);
      i := i + SPEC_HOP;
      frameIdx := frameIdx + 1;
    }
    assert frameIdx == FilledRows(|floats|) by {
      if frameIdx < frames && frameIdx < FilledRows(|floats|) {
        FrameInside(|floats|, frameIdx);
      }
    }
  }
}
