/** The offline preprocessing of the training pipeline (`preprocess_audio.py`):
    resample, average the channels, trim silence, pad or crop to three seconds,
    then standardise the log-mel cells. The resampler and the mel/dB transform
    are library calls and appear as parameters; `sqrt` carries one fact. */
module PreprocessAudio {
  import opened Wrappers
  import opened Ints
  import AudioPreprocessor

  const SAMPLE_RATE: int := 16000
  const TARGET_LEN: nat := 48000
  const EPS: real := 0.00001

  // ------------------------------------------------------------ simple_vad

  /** `mask.nonzero()` from index `from` on: the loud indices in increasing order. */
  function LoudIndices(wav: seq<real>, from: nat): (idx: seq<nat>)
    requires from <= |wav|
    ensures forall j :: j in idx <==> from <= j < |wav| && AudioPreprocessor.Loud(wav[j])
    decreases |wav| - from
  {
    if from == |wav| then []
    else (if AudioPreprocessor.Loud(wav[from]) then [from] else []) + LoudIndices(wav, from + 1)
  }

  function SeqMin(s: seq<nat>): (m: nat)
    requires |s| > 0
    ensures m in s && forall x :: x in s ==> m <= x
  {
    if |s| == 1 then s[0]
    else
      var rest := SeqMin(s[1..]);
      assert forall x :: x in s ==> x == s[0] || x in s[1..];
      if s[0] <= rest then s[0] else rest
  }

  function SeqMax(s: seq<nat>): (m: nat)
    requires |s| > 0
    ensures m in s && forall x :: x in s ==> x <= m
  {
    if |s| == 1 then s[0]
    else
      var rest := SeqMax(s[1..]);
      assert forall x :: x in s ==> x == s[0] || x in s[1..];
      if s[0] >= rest then s[0] else rest
  }

  /** `simple_vad` on a mono waveform: `20 * log10(clamp(|x|, 1e-5)) > -40` is the
      app's loudness test; the slice runs from the smallest to the largest loud index. */
  function SimpleVad(wav: seq<real>): (r: seq<real>)
    ensures AudioPreprocessor.AllQuiet(wav) ==> r == wav
    ensures !AudioPreprocessor.AllQuiet(wav) ==> 0 < |r| <= |wav|
  {
    var idx := LoudIndices(wav, 0);
    if |idx| == 0 then
      assert AudioPreprocessor.AllQuiet(wav) by {
        forall j | 0 <= j < |wav| ensures !AudioPreprocessor.Loud(wav[j]) {
          assert j !in idx;
        }
      }
      wav
    else
      var lo := SeqMin(idx);
      var hi := SeqMax(idx);
      assert !AudioPreprocessor.AllQuiet(wav) by { assert AudioPreprocessor.Loud(wav[lo]); }
      wav[lo .. hi + 1]
  }

  /** The training-time trim and the app's trim cut the same span. */
  lemma SimpleVadMatchesApp(wav: seq<real>)
    ensures SimpleVad(wav) == AudioPreprocessor.SimpleVad(wav)
  {
    var idx := LoudIndices(wav, 0);
    if |idx| > 0 {
      var lo := SeqMin(idx);
      var hi := SeqMax(idx);
      var first := AudioPreprocessor.IndexOfFirstLoud(wav);
      var last := AudioPreprocessor.IndexOfLastLoud(wav);
      assert first >= 0 && last >= 0 by { assert AudioPreprocessor.Loud(wav[lo]); }
      assert first in idx && last in idx;
      QuietOutside(wav, first, last);
      assert AudioPreprocessor.Loud(wav[lo]) && AudioPreprocessor.Loud(wav[hi]);
      assert lo <= first && first <= lo;
      assert last <= hi && hi <= last;
      assert SimpleVad(wav) == wav[lo .. hi + 1];
    }
  }

  lemma QuietOutside(wav: seq<real>, first: nat, last: nat)
    requires first <= last < |wav|
    requires AudioPreprocessor.AllQuiet(wav[..first]) && AudioPreprocessor.AllQuiet(wav[last + 1..])
    ensures forall j :: 0 <= j < first ==> !AudioPreprocessor.Loud(wav[j])
    ensures forall j :: last < j < |wav| ==> !AudioPreprocessor.Loud(wav[j])
  {
    forall j | 0 <= j < first ensures !AudioPreprocessor.Loud(wav[j]) {
      assert wav[..first][j] == wav[j];
    }
    forall j | last < j < |wav| ensures !AudioPreprocessor.Loud(wav[j]) {
      assert wav[last + 1..][j - last - 1] == wav[j];
    }
  }

  // ------------------------------------------------------------ pad or crop

  /** `F.pad(wav, (0, pad))` below the target length, `wav[:, :TARGET_LEN]` otherwise. */
  function PadOrCrop(wav: seq<real>): (r: seq<real>)
    ensures |r| == TARGET_LEN
    ensures |wav| < TARGET_LEN ==> r[..|wav|] == wav && forall i :: |wav| <= i < TARGET_LEN ==> r[i] == 0.0
    ensures |wav| >= TARGET_LEN ==> r == wav[..TARGET_LEN]
  {
    if |wav| < TARGET_LEN then wav + seq(TARGET_LEN - |wav|, _ => 0.0) else wav[..TARGET_LEN]
  }

  /** The same fix-up as the app's `padOrCrop` to 48 000 samples. */
  lemma PadOrCropMatchesApp(wav: seq<real>)
    ensures PadOrCrop(wav) == AudioPreprocessor.PadOrCrop(wav, TARGET_LEN)
  {
    var a := PadOrCrop(wav);
    var b := AudioPreprocessor.PadOrCrop(wav, TARGET_LEN);
    forall i | 0 <= i < TARGET_LEN ensures a[i] == b[i] {
      if i < |wav| && |wav| < TARGET_LEN {
        assert a[..|wav|][i] == wav[i];
      }
    }
  }

  // ------------------------------------------------------ load_and_process

  /** A `(channels, frames)` waveform. */
  predicate IsSignal(chans: seq<seq<real>>) {
    |chans| >= 1 && forall c :: 0 <= c < |chans| ==> |chans[c]| == |chans[0]|
  }

  /** The resampler is only known to keep the channel layout. */
  ghost predicate ResamplerLawful(resample: (seq<seq<real>>, int, int) -> seq<seq<real>>) {
    forall chans, src, dst :: IsSignal(chans) ==> IsSignal(resample(chans, src, dst)) && |resample(chans, src, dst)| == |chans|
  }

  /** Sum over channels of frame `i`. */
  function ChannelSum(chans: seq<seq<real>>, i: nat, k: nat): real
    requires IsSignal(chans) && i < |chans[0]| && k <= |chans|
  {
    if k == 0 then 0.0 else ChannelSum(chans, i, k - 1) + chans[k - 1][i]
  }

  /** `torch.mean(wav, dim=0)`. */
  function MeanOverChannels(chans: seq<seq<real>>): (mono: seq<real>)
    requires IsSignal(chans)
    ensures |mono| == |chans[0]|
  {
    seq(|chans[0]|, i requires 0 <= i < |chans[0]| => ChannelSum(chans, i, |chans|) / |chans| as real)
  }

  /** The waveform `load_and_process` hands to the mel transform: resample (if the
      rate differs) BEFORE averaging the channels (if there are several), then trim,
      then pad or crop. */
  function Waveform(resample: (seq<seq<real>>, int, int) -> seq<seq<real>>,
                    chans: seq<seq<real>>, sr: int): (w: seq<real>)
    requires ResamplerLawful(resample) && IsSignal(chans)
    ensures |w| == TARGET_LEN
  {
    var at16k := if sr != SAMPLE_RATE then resample(chans, sr, SAMPLE_RATE) else chans;
    var mono := if |at16k| > 1 then MeanOverChannels(at16k) else at16k[0];
    PadOrCrop(SimpleVad(mono))
  }

  /** For a mono recording already at 16 kHz, training and app front ends agree. */
  lemma WaveformMatchesApp(resample: (seq<seq<real>>, int, int) -> seq<seq<real>>, wav: seq<real>)
    requires ResamplerLawful(resample)
    ensures Waveform(resample, [wav], SAMPLE_RATE)
            == AudioPreprocessor.PadOrCrop(AudioPreprocessor.SimpleVad(wav), TARGET_LEN)
  {
    SimpleVadMatchesApp(wav);
    PadOrCropMatchesApp(SimpleVad(wav));
  }

  // ---------------------------------------------------------- normalisation

  function Sum(xs: seq<real>, k: nat): real
    requires k <= |xs|
  {
    if k == 0 then 0.0 else Sum(xs, k - 1) + xs[k - 1]
  }

  function SumSq(xs: seq<real>, k: nat): real
    requires k <= |xs|
  {
    if k == 0 then 0.0 else SumSq(xs, k - 1) + xs[k - 1] * xs[k - 1]
  }

  /** Sum of squared deviations from `mu`. */
  function SumSqDev(xs: seq<real>, mu: real, k: nat): real
    requires k <= |xs|
  {
    if k == 0 then 0.0 else SumSqDev(xs, mu, k - 1) + (xs[k - 1] - mu) * (xs[k - 1] - mu)
  }

  function MeanOf(xs: seq<real>): real
    requires |xs| > 0
  {
    Sum(xs, |xs|) / |xs| as real
  }

  /** `torch.std`'s unbiased variance; undefined (NaN) for a single cell. */
  function UnbiasedVariance(xs: seq<real>): real
    requires |xs| >= 2
  {
    SumSqDev(xs, MeanOf(xs), |xs|) / (|xs| - 1) as real
  }

  ghost predicate SqrtLawful(sqrt: real -> real) {
    forall x :: x >= 0.0 ==> sqrt(x) >= 0.0
  }

  lemma {:induction false} SumSqDevNonNegative(xs: seq<real>, mu: real, k: nat)
    requires k <= |xs|
    ensures SumSqDev(xs, mu, k) >= 0.0
  {
    if k > 0 {
      SumSqDevNonNegative(xs, mu, k - 1);
      var d := xs[k - 1] - mu;
      assert d * d >= 0.0;
    }
  }

  /** `std + 1e-5`. */
  function Divisor(sqrt: real -> real, xs: seq<real>): (d: real)
    requires SqrtLawful(sqrt) && |xs| >= 2
    ensures d >= EPS
  {
    SumSqDevNonNegative(xs, MeanOf(xs), |xs|);
    sqrt(UnbiasedVariance(xs)) + EPS
  }

  /** `(mel_db - mean) / (std + 1e-5)` over all cells; `None` stands for the NaN output
      torch gives a single-cell input. */
  function Standardized(sqrt: real -> real, xs: seq<real>): (r: Option<seq<real>>)
    requires SqrtLawful(sqrt)
    ensures r.Some? <==> |xs| >= 2
    ensures r.Some? ==> |r.value| == |xs|
  {
    if |xs| < 2 then None
    else
      var mu := MeanOf(xs);
      var d := Divisor(sqrt, xs);
      Some(seq(|xs|, i requires 0 <= i < |xs| => (xs[i] - mu) / d))
  }

  /** Expanding the squares: the deviation sum is the moment combination. */
  lemma {:induction false} SumSqDevExpand(xs: seq<real>, mu: real, k: nat)
    requires k <= |xs|
    ensures SumSqDev(xs, mu, k) == SumSq(xs, k) - 2.0 * mu * Sum(xs, k) + k as real * mu * mu
  {
    if k > 0 {
      SumSqDevExpand(xs, mu, k - 1);
      var x := xs[k - 1];
      assert (x - mu) * (x - mu) == x * x - 2.0 * mu * x + mu * mu;
      assert k as real * mu * mu == (k - 1) as real * mu * mu + mu * mu;
    }
  }

  /** Bessel's correction is the only difference in the variances: with the app's
      population variance `E[x^2] - mean^2` over the same cells, the training
      variance is that times `n / (n - 1)`. The app then floors the variance at
      1e-5 before `sqrt`, where training adds 1e-5 after it. */
  lemma VarianceRelation(xs: seq<real>)
    requires |xs| >= 2
    ensures var n := |xs| as real;
            var mean := MeanOf(xs);
            UnbiasedVariance(xs) * (n - 1.0) == n * (SumSq(xs, |xs|) / n - mean * mean)
  {
    var n := |xs| as real;
    var mean := MeanOf(xs);
    SumSqDevExpand(xs, mean, |xs|);
    MomentAlgebra(SumSq(xs, |xs|), Sum(xs, |xs|), n, mean);
    assert UnbiasedVariance(xs) * (n - 1.0) == SumSqDev(xs, mean, |xs|);
  }

  lemma MomentAlgebra(q: real, s: real, n: real, mean: real)
    requires n > 0.0 && mean == s / n
    ensures q - 2.0 * mean * s + n * mean * mean == n * (q / n - mean * mean)
  {
    assert s == mean * n;
    assert n * (q / n) == q;
  }

  lemma {:induction false} ConstantSum(xs: seq<real>, c: real, k: nat)
    requires k <= |xs| && forall i :: 0 <= i < |xs| ==> xs[i] == c
    ensures Sum(xs, k) == k as real * c
  {
    if k > 0 {
      ConstantSum(xs, c, k - 1);
    }
  }

  /** A constant spectrogram standardises to all zeros, as in the app. */
  lemma StandardizedConstant(sqrt: real -> real, xs: seq<real>, c: real)
    requires SqrtLawful(sqrt) && |xs| >= 2 && forall i :: 0 <= i < |xs| ==> xs[i] == c
    ensures forall i :: 0 <= i < |xs| ==> Standardized(sqrt, xs).value[i] == 0.0
  {
    ConstantSum(xs, c, |xs|);
    assert MeanOf(xs) == c;
  }

  /** `load_and_process` end to end; the mel/dB transform is a parameter giving the cells. */
  function LoadAndProcess(resample: (seq<seq<real>>, int, int) -> seq<seq<real>>,
                          melDb: seq<real> -> seq<real>, sqrt: real -> real,
                          chans: seq<seq<real>>, sr: int): (r: Option<seq<real>>)
    requires ResamplerLawful(resample) && SqrtLawful(sqrt) && IsSignal(chans)
    ensures r.Some? ==> |r.value| == |melDb(Waveform(resample, chans, sr))|
  {
    Standardized(sqrt, melDb(Waveform(resample, chans, sr)))
  }
}
