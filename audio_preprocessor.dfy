/** The on-device front end of AudioPreprocessor: voice-activity trimming,
    pad/crop to three seconds, a 64-band mel spectrogram (1024-point frames,
    hop 256), power-to-dB and global mean/std normalisation. Floating-point
    transcendentals and the FFT are supplied as `Numerics`; only the facts
    listed in `Lawful` are assumed about them. */
module AudioPreprocessor {
  import opened Ints

  const SAMPLE_RATE: int := 16000
  const CLIP_SECONDS: int := 3
  const TARGET_LEN: nat := 48000
  const N_FFT: nat := 1024
  const HOP: nat := 256
  const N_MELS: nat := 64
  const N_BINS: nat := 513
  const F_MAX: real := 8000.0
  const DB_FLOOR: real := 0.000000001
  const VAR_FLOOR: real := 0.00001
  /** A lower bound of sqrt(1e-5) = 0.00316... */
  const STD_FLOOR: real := 1.0 / 320.0

  /** The floating-point primitives the pipeline calls. `cosTurns(x)` is
      `cos(2 * PI * x)`; `fft` is JTransforms' `complexForward` on an
      interleaved (re, im) buffer. */
  datatype Numerics = Numerics(
    log10: real -> real,
    pow10: real -> real,
    sqrt: real -> real,
    cosTurns: real -> real,
    fft: seq<real> -> seq<real>)

  /** The only facts the proofs rely on. */
  ghost predicate Lawful(num: Numerics) {
    && (forall x :: x >= DB_FLOOR ==> num.log10(x) >= -9.0)
    && (forall x :: x >= VAR_FLOOR ==> num.sqrt(x) >= STD_FLOOR)
    && (forall x :: -1.0 <= num.cosTurns(x) <= 1.0)
    && (forall b :: |num.fft(b)| == |b|)
  }

  // ------------------------------------------------------------ voice activity

  /** `20 * log10(max(|x|, 1e-5)) > -40` holds exactly when `|x| > 1/100`. */
  predicate Loud(x: real) {
    x > 0.01 || x < -0.01
  }

  predicate AllQuiet(s: seq<real>) {
    forall i :: 0 <= i < |s| ==> !Loud(s[i])
  }

  /** `keep.indexOfFirst { it }`. */
  function IndexOfFirstLoud(s: seq<real>): (k: int)
    ensures -1 <= k < |s|
    ensures k == -1 <==> AllQuiet(s)
    ensures k >= 0 ==> Loud(s[k]) && AllQuiet(s[..k])
  {
    if |s| == 0 then -1
    else if Loud(s[0]) then 0
    else
      var k := IndexOfFirstLoud(s[1..]);
      if k == -1 then -1
      else
        assert s[..k + 1] == [s[0]] + s[1..][..k];
        k + 1
  }

  /** `keep.indexOfLast { it }`. */
  function IndexOfLastLoud(s: seq<real>): (k: int)
    ensures -1 <= k < |s|
    ensures k == -1 <==> AllQuiet(s)
    ensures k >= 0 ==> Loud(s[k]) && AllQuiet(s[k + 1..])
  {
    if |s| == 0 then -1
    else if Loud(s[|s| - 1]) then |s| - 1
    else
      var init := s[..|s| - 1];
      var k := IndexOfLastLoud(init);
      if k == -1 then
        assert forall i :: 0 <= i < |init| ==> s[i] == init[i];
        -1
      else
        assert s[k] == init[k];
        assert s[k + 1..] == init[k + 1..] + [s[|s| - 1]];
        k
  }

  lemma FirstBeforeLast(s: seq<real>)
    requires !AllQuiet(s)
    ensures IndexOfFirstLoud(s) <= IndexOfLastLoud(s)
  {
  }

  /** `simpleVad`: keeps the span from the first to the last loud sample;
      a signal with no loud sample is returned unchanged. */
  function SimpleVad(wav: seq<real>): (r: seq<real>)
    ensures AllQuiet(wav) ==> r == wav
    ensures !AllQuiet(wav) ==> |r| > 0 && Loud(r[0]) && Loud(r[|r| - 1])
    ensures |r| <= |wav| && (|wav| > 0 ==> |r| > 0)
  {
    var first := IndexOfFirstLoud(wav);
    var last := IndexOfLastLoud(wav);
    if first == -1 || last == -1 then wav
    else
      FirstBeforeLast(wav);
      wav[first..last + 1]
  }

  /** The trimmed signal is a contiguous slice, and only quiet samples are cut. */
  lemma VadCutsOnlyQuiet(wav: seq<real>)
    ensures exists a, b :: 0 <= a <= b <= |wav| && SimpleVad(wav) == wav[a..b]
              && AllQuiet(wav[..a]) && AllQuiet(wav[b..])
  {
    if AllQuiet(wav) {
      assert SimpleVad(wav) == wav[0..|wav|];
      assert wav[|wav|..] == [];
    } else {
      var first := IndexOfFirstLoud(wav);
      var last := IndexOfLastLoud(wav);
      FirstBeforeLast(wav);
      assert SimpleVad(wav) == wav[first..last + 1];
    }
  }

  /** Trimming twice trims nothing more. */
  lemma VadIdempotent(wav: seq<real>)
    ensures SimpleVad(SimpleVad(wav)) == SimpleVad(wav)
  {
    var r := SimpleVad(wav);
    if !AllQuiet(wav) {
      assert !AllQuiet(r) by { assert Loud(r[0]); }
      assert r[0..|r|] == r;
    }
  }

  /** `padOrCrop`: exactly `target` samples, the input's prefix followed by zeros. */
  function PadOrCrop(wav: seq<real>, target: nat): (r: seq<real>)
    ensures |r| == target
    ensures forall i :: 0 <= i < target && i < |wav| ==> r[i] == wav[i]
    ensures forall i :: |wav| <= i < target ==> r[i] == 0.0
  {
    if |wav| == target then wav
    else if |wav| < target then wav + seq(target - |wav|, _ => 0.0)
    else wav[..target]
  }

  /** Padding or cropping an already fixed-length signal changes nothing. */
  lemma PadOrCropIdempotent(wav: seq<real>, target: nat)
    ensures PadOrCrop(PadOrCrop(wav, target), target) == PadOrCrop(wav, target)
  {
  }

  // ------------------------------------------------------------ window and filters

  /** `hannWindow(size)`: `0.5 - 0.5 * cos(2 * PI * i / size)`. */
  function HannWindow(num: Numerics, size: nat): (w: seq<real>)
    requires Lawful(num)
    ensures |w| == size
    ensures forall i :: 0 <= i < size ==> 0.0 <= w[i] <= 1.0
  {
    seq(size, i requires 0 <= i < size => 0.5 - 0.5 * num.cosTurns(i as real / size as real))
  }

  function HzToMel(num: Numerics, hz: real): real {
    2595.0 * num.log10(1.0 + hz / 700.0)
  }

  function MelToHz(num: Numerics, mel: real): real {
    700.0 * (num.pow10(mel / 2595.0) - 1.0)
  }

  /** The FFT bin edges of the 66 mel points between 0 Hz and 8 kHz. */
  function MelBins(num: Numerics): (bins: seq<int>)
    ensures |bins| == N_MELS + 2
  {
    var melMin := HzToMel(num, 0.0);
    var melMax := HzToMel(num, F_MAX);
    seq(N_MELS + 2, i requires 0 <= i < N_MELS + 2 =>
      var mel := melMin + (melMax - melMin) * i as real / (N_MELS + 1) as real;
      FloatToInt(((N_FFT + 1) as real * MelToHz(num, mel) / SAMPLE_RATE as real).Floor as real))
  }

  /** The weight of FFT bin `k` in mel band `m` (row `m`, edges `bins[m..m + 3]`). */
  function FilterWeight(bins: seq<int>, m: nat, k: int): real
    requires |bins| == N_MELS + 2 && m < N_MELS
  {
    var lo := bins[m];
    var mid := bins[m + 1];
    var hi := bins[m + 2];
    if lo <= k < mid then (k - lo) as real / Max(1, mid - lo) as real
    else if mid <= k < hi then (hi - k) as real / Max(1, hi - mid) as real
    else 0.0
  }

  function FilterMatrix(bins: seq<int>): seq<seq<real>>
    requires |bins| == N_MELS + 2
  {
    seq(N_MELS, m requires 0 <= m < N_MELS => seq(N_BINS, k => FilterWeight(bins, m, k)))
  }

  /** Every filter weight lies in [0, 1], whatever the bin edges. */
  lemma FilterWeightRange(bins: seq<int>, m: nat, k: int)
    requires |bins| == N_MELS + 2 && m < N_MELS
    ensures 0.0 <= FilterWeight(bins, m, k) <= 1.0
  {
    var lo := bins[m];
    var mid := bins[m + 1];
    var hi := bins[m + 2];
    if lo <= k < mid {
      RatioInUnit(k - lo, Max(1, mid - lo));
    } else if mid <= k < hi {
      RatioInUnit(hi - k, Max(1, hi - mid));
    }
  }

  lemma RatioInUnit(a: int, b: int)
    requires 0 <= a <= b && b > 0
    ensures 0.0 <= a as real / b as real <= 1.0
  {
  }

  /** Band `m` peaks with weight 1 at its centre bin and is 0 outside its edges
      when the edges are increasing. */
  lemma FilterTriangle(bins: seq<int>, m: nat, k: int)
    requires |bins| == N_MELS + 2 && m < N_MELS
    requires bins[m] <= bins[m + 1] < bins[m + 2]
    ensures k == bins[m + 1] ==> FilterWeight(bins, m, k) == 1.0
    ensures k < bins[m] || bins[m + 2] <= k ==> FilterWeight(bins, m, k) == 0.0
  {
  }

  function Rows(a: array2<real>): (rows: seq<seq<real>>)
    reads a
    ensures |rows| == a.Length0
    ensures forall m :: 0 <= m < a.Length0 ==> |rows[m]| == a.Length1
    ensures forall m, t :: 0 <= m < a.Length0 && 0 <= t < a.Length1 ==> rows[m][t] == a[m, t]
  {
    seq(a.Length0, m requires 0 <= m < a.Length0 reads a =>
      seq(a.Length1, t requires 0 <= t < a.Length1 reads a => a[m, t]))
  }

  /** `melFilterBank`: the triangular filters, written band by band into a
      64 x 513 array; the bin edges come from `MelBins`. */
  method MelFilterBank(bins: seq<int>) returns (filter: seq<seq<real>>)
    requires |bins| == N_MELS + 2
    ensures filter == FilterMatrix(bins)
  {
    var f := new real[N_MELS, N_BINS]((m, k) => 0.0);
    for m := 1 to N_MELS + 1
      invariant forall r, k :: 0 <= r < m - 1 && 0 <= k < N_BINS ==> f[r, k] == FilterWeight(bins, r, k)
      invariant forall r, k :: m - 1 <= r < N_MELS && 0 <= k < N_BINS ==> f[r, k] == 0.0
    {
      FillBand(f, bins, m - 1);
    }
    filter := Rows(f);
    forall r | 0 <= r < N_MELS ensures filter[r] == FilterMatrix(bins)[r] {
      assert forall k :: 0 <= k < N_BINS ==> filter[r][k] == FilterWeight(bins, r, k);
    }
  }

  /** One iteration of the band loop: the rising edge over `[bins[r], bins[r + 1])`,
      then the falling edge over `[bins[r + 1], bins[r + 2])`, skipping bins outside 0..512. */
  method FillBand(f: array2<real>, bins: seq<int>, r: nat)
    requires |bins| == N_MELS + 2 && r < N_MELS
    requires f.Length0 == N_MELS && f.Length1 == N_BINS
    requires forall k :: 0 <= k < N_BINS ==> f[r, k] == 0.0
    modifies f
    ensures forall k :: 0 <= k < N_BINS ==> f[r, k] == FilterWeight(bins, r, k)
    ensures forall q, k :: 0 <= q < N_MELS && q != r && 0 <= k < N_BINS ==> f[q, k] == old(f[q, k])
  {
    var lo := bins[r];
    var mid := bins[r + 1];
    var hi := bins[r + 2];
    var k := lo;
    while k < mid
      invariant lo <= k <= Max(lo, mid)
      invariant forall j :: 0 <= j < N_BINS ==>
                  f[r, j] == (if lo <= j < k then (j - lo) as real / Max(1, mid - lo) as real else 0.0)
      invariant forall q, j :: 0 <= q < N_MELS && q != r && 0 <= j < N_BINS ==> f[q, j] == old(f[q, j])
      decreases mid - k
    {
      if 0 <= k < N_BINS {
        f[r, k] := (k - lo) as real / Max(1, mid - lo) as real;
      }
      k := k + 1;
    }
    k := mid;
    while k < hi
      invariant mid <= k <= Max(mid, hi)
      invariant forall j :: 0 <= j < N_BINS ==>
                  f[r, j] == (if lo <= j < mid then (j - lo) as real / Max(1, mid - lo) as real
                              else if mid <= j < k then (hi - j) as real / Max(1, hi - mid) as real
                              else 0.0)
      invariant forall q, j :: 0 <= q < N_MELS && q != r && 0 <= j < N_BINS ==> f[q, j] == old(f[q, j])
      decreases hi - k
    {
      if 0 <= k < N_BINS {
        f[r, k] := (hi - k) as real / Max(1, hi - mid) as real;
      }
      k := k + 1;
    }
  }

  // ------------------------------------------------------------ mel spectrogram

  /** `1 + (wav.size - nFft) / hop`, with Kotlin's truncating division. */
  function FrameCount(n: int): (c: int)
    ensures n > N_FFT / 2 ==> c >= 0
  {
    1 + TruncDiv(n - N_FFT, HOP)
  }

  /** Three seconds at 16 kHz give 184 frames. */
  lemma ClipFrameCount()
    ensures FrameCount(TARGET_LEN) == 184
  {
  }

  /** With at least one full window of samples, every frame lies inside the signal,
      so the zero padding past the end is never used. */
  lemma FramesInsideSignal(n: int, frame: int)
    requires n >= N_FFT && 0 <= frame < FrameCount(n)
    ensures frame * HOP + N_FFT <= n
  {
  }

  /** Windowed sample `i` of the frame starting at `start`; 0 past the end of the signal. */
  function FrameSample(wav: seq<real>, window: seq<real>, start: nat, i: nat): real
    requires |window| == N_FFT && i < N_FFT
  {
    if start + i < |wav| then wav[start + i] * window[i] else 0.0
  }

  /** The interleaved (re, im) FFT input of one frame: imaginary parts are zero. */
  function FrameBuffer(wav: seq<real>, window: seq<real>, start: nat): (b: seq<real>)
    requires |window| == N_FFT
    ensures |b| == 2 * N_FFT
  {
    seq(2 * N_FFT, j requires 0 <= j < 2 * N_FFT =>
      if j % 2 == 0 then FrameSample(wav, window, start, j / 2) else 0.0)
  }

  function Power(spectrum: seq<real>, k: nat): real
    requires 2 * k + 1 < |spectrum|
  {
    spectrum[2 * k] * spectrum[2 * k] + spectrum[2 * k + 1] * spectrum[2 * k + 1]
  }

  /** The 513-bin power spectrum of frame `frame`. */
  function FramePower(num: Numerics, wav: seq<real>, frame: nat): (mag: seq<real>)
    requires Lawful(num)
    ensures |mag| == N_BINS
  {
    var spectrum := num.fft(FrameBuffer(wav, HannWindow(num, N_FFT), frame * HOP));
    seq(N_BINS, k requires 0 <= k < N_BINS => Power(spectrum, k))
  }

  /** `sum of w[j] * v[j]` over `j < k`, accumulated left to right. */
  function WeightedSum(w: seq<real>, v: seq<real>, k: nat): real
    requires k <= |w| && k <= |v|
  {
    if k == 0 then 0.0 else WeightedSum(w, v, k - 1) + w[k - 1] * v[k - 1]
  }

  /** The mel energy of band `m` in frame `t`. */
  function MelCell(num: Numerics, wav: seq<real>, m: nat, t: nat): real
    requires Lawful(num) && m < N_MELS
  {
    WeightedSum(FilterMatrix(MelBins(num))[m], FramePower(num, wav, t), N_BINS)
  }

  predicate IsMatrix(x: seq<seq<real>>, rows: nat, cols: nat) {
    |x| == rows && forall m :: 0 <= m < rows ==> |x[m]| == cols
  }

  /** The 64 x FrameCount mel spectrogram. */
  function MelSpec(num: Numerics, wav: seq<real>): (x: seq<seq<real>>)
    requires Lawful(num) && |wav| > N_FFT / 2
    ensures IsMatrix(x, N_MELS, FrameCount(|wav|))
  {
    seq(N_MELS, m requires 0 <= m < N_MELS =>
      seq(FrameCount(|wav|), t requires 0 <= t < FrameCount(|wav|) => MelCell(num, wav, m, t)))
  }

  /** Every mel energy is a sum of non-negative weights times non-negative powers. */
  lemma MelSpecNonNegative(num: Numerics, wav: seq<real>, m: nat, t: nat)
    requires Lawful(num) && |wav| > N_FFT / 2 && m < N_MELS && t < FrameCount(|wav|)
    ensures MelSpec(num, wav)[m][t] >= 0.0
  {
    var w := FilterMatrix(MelBins(num))[m];
    var v := FramePower(num, wav, t);
    forall k | 0 <= k < N_BINS ensures w[k] >= 0.0 && v[k] >= 0.0 {
      FilterWeightRange(MelBins(num), m, k);
    }
    WeightedSumNonNegative(w, v, N_BINS);
  }

  lemma {:induction false} WeightedSumNonNegative(w: seq<real>, v: seq<real>, k: nat)
    requires k <= |w| && k <= |v|
    requires forall j :: 0 <= j < k ==> w[j] >= 0.0 && v[j] >= 0.0
    ensures WeightedSum(w, v, k) >= 0.0
  {
    if k > 0 {
      WeightedSumNonNegative(w, v, k - 1);
      ProductNonNegative(w[k - 1], v[k - 1]);
    }
  }

  lemma ProductNonNegative(a: real, b: real)
    requires a >= 0.0 && b >= 0.0
    ensures a * b >= 0.0
  {
  }

  /** `melSpectrogram`: frames of 1024 windowed samples every 256 samples,
      FFT, power spectrum of bins 0..512, then the 64 mel bands. The FFT
      result is read from `spectrum` where the source reuses `buffer` in place. */
  method MelSpectrogram(num: Numerics, wav: seq<real>) returns (mel: seq<seq<real>>)
    requires Lawful(num) && |wav| > N_FFT / 2
    ensures mel == MelSpec(num, wav)
  {
    var window := HannWindow(num, N_FFT);
    var numFrames := FrameCount(|wav|);
    var filter := MelFilterBank(MelBins(num));
    var melSpec := new real[N_MELS, numFrames]((m, t) => 0.0);
    var buffer := new real[N_FFT * 2](j => 0.0);
    for frame := 0 to numFrames
      invariant forall m, t :: 0 <= m < N_MELS && 0 <= t < frame ==> melSpec[m, t] == MelCell(num, wav, m, t)
    {
      var mag := FramePowerInto(num, wav, window, frame, buffer);
      FilterShape(MelBins(num));
      MelColumn(filter, mag, melSpec, frame);
    }
    mel := Rows(melSpec);
    forall m | 0 <= m < N_MELS ensures mel[m] == MelSpec(num, wav)[m] {
    }
  }

  /** The per-frame part of `melSpectrogram` up to `mag`: fill the interleaved
      buffer, transform it, and take the power of bins 0..512. */
  method FramePowerInto(num: Numerics, wav: seq<real>, window: seq<real>, frame: nat, buffer: array<real>)
    returns (mag: array<real>)
    requires Lawful(num) && window == HannWindow(num, N_FFT) && buffer.Length == 2 * N_FFT
    modifies buffer
    ensures fresh(mag) && mag[..] == FramePower(num, wav, frame)
  {
    var start := frame * HOP;
    for i := 0 to N_FFT
      invariant forall j :: 0 <= j < i ==> buffer[2 * j] == FrameSample(wav, window, start, j) && buffer[2 * j + 1] == 0.0
    {
      var sample := if start + i < |wav| then wav[start + i] * window[i] else 0.0;
      buffer[2 * i] := sample;
      buffer[2 * i + 1] := 0.0;
    }
    FrameBufferFilled(buffer[..], wav, window, start);
    var spectrum := num.fft(buffer[..]);
    mag := PowerSpectrum(spectrum);
  }

  /** The `mag` loop: `re * re + im * im` for bins 0..512. */
  method PowerSpectrum(spectrum: seq<real>) returns (mag: array<real>)
    requires |spectrum| == 2 * N_FFT
    ensures fresh(mag) && mag[..] == seq(N_BINS, k requires 0 <= k < N_BINS => Power(spectrum, k))
  {
    mag := new real[N_BINS](k => 0.0);
    for k := 0 to N_BINS
      invariant forall j :: 0 <= j < k ==> mag[j] == Power(spectrum, j)
    {
      var re := spectrum[2 * k];
      var im := spectrum[2 * k + 1];
      mag[k] := re * re + im * im;
    }
  }

  /** The band loop of `melSpectrogram` for one frame: column `frame` of `melSpec`
      receives the 64 weighted sums; the other columns are untouched. */
  method MelColumn(filter: seq<seq<real>>, mag: array<real>, melSpec: array2<real>, frame: nat)
    requires IsMatrix(filter, N_MELS, N_BINS) && mag.Length == N_BINS
    requires melSpec.Length0 == N_MELS && frame < melSpec.Length1
    modifies melSpec
    ensures forall m :: 0 <= m < N_MELS ==> melSpec[m, frame] == WeightedSum(filter[m], mag[..], N_BINS)
    ensures forall m, t :: 0 <= m < N_MELS && 0 <= t < melSpec.Length1 && t != frame ==> melSpec[m, t] == old(melSpec[m, t])
  {
    for m := 0 to N_MELS
      invariant forall m', t :: 0 <= m' < N_MELS && 0 <= t < melSpec.Length1 && t != frame ==> melSpec[m', t] == old(melSpec[m', t])
      invariant forall m' :: 0 <= m' < m ==> melSpec[m', frame] == WeightedSum(filter[m'], mag[..], N_BINS)
    {
      var acc := BandEnergy(filter[m], mag);
      melSpec[m, frame] := acc;
    }
  }

  lemma FilterShape(bins: seq<int>)
    requires |bins| == N_MELS + 2
    ensures IsMatrix(FilterMatrix(bins), N_MELS, N_BINS)
  {
  }

  /** `acc += melFilter[m][k] * mag[k]` over all bins. */
  method BandEnergy(w: seq<real>, mag: array<real>) returns (acc: real)
    requires |w| == mag.Length
    ensures acc == WeightedSum(w, mag[..], |w|)
  {
    acc := 0.0;
    for k := 0 to |w|
      invariant acc == WeightedSum(w, mag[..], k)
    {
      acc := acc + w[k] * mag[k];
    }
  }

  lemma FrameBufferFilled(b: seq<real>, wav: seq<real>, window: seq<real>, start: nat)
    requires |window| == N_FFT && |b| == 2 * N_FFT
    requires forall j :: 0 <= j < N_FFT ==> b[2 * j] == FrameSample(wav, window, start, j) && b[2 * j + 1] == 0.0
    ensures b == FrameBuffer(wav, window, start)
  {
    forall j | 0 <= j < 2 * N_FFT ensures b[j] == FrameBuffer(wav, window, start)[j] {
      if j % 2 == 0 {
        assert b[2 * (j / 2)] == b[j];
      } else {
        assert b[2 * (j / 2) + 1] == b[j];
      }
    }
  }

  // ------------------------------------------------------------ dB and normalisation

  /** `10 * log10(max(v, 1e-9))`. */
  function Db(num: Numerics, v: real): real {
    10.0 * num.log10(MaxReal(v, DB_FLOOR))
  }

  function DbMatrix(num: Numerics, x: seq<seq<real>>): (y: seq<seq<real>>)
    ensures |y| == |x| && forall m :: 0 <= m < |x| ==> |y[m]| == |x[m]|
  {
    seq(|x|, m requires 0 <= m < |x| => seq(|x[m]|, t requires 0 <= t < |x[m]| => Db(num, x[m][t])))
  }

  /** The dB conversion never goes below -90 dB. */
  lemma DbFloor(num: Numerics, v: real)
    requires Lawful(num)
    ensures Db(num, v) >= -90.0
  {
    assert num.log10(MaxReal(v, DB_FLOOR)) >= -9.0;
  }

  /** `amplitudeToDb`: each cell converted to decibels, never below -90. */
  method AmplitudeToDb(num: Numerics, mel: seq<seq<real>>) returns (db: seq<seq<real>>)
    requires Lawful(num)
    requires |mel| >= 1 && IsMatrix(mel, |mel|, |mel[0]|)
    ensures db == DbMatrix(num, mel)
    ensures forall m, t :: 0 <= m < |db| && 0 <= t < |db[m]| ==> db[m][t] >= -90.0
  {
    var out := new real[|mel|, |mel[0]|]((m, t) => 0.0);
    for m := 0 to |mel|
      invariant forall i, t :: 0 <= i < m && 0 <= t < |mel[0]| ==> out[i, t] == Db(num, mel[i][t])
    {
      for t := 0 to |mel[m]|
        invariant forall i, u :: 0 <= i < m && 0 <= u < |mel[0]| ==> out[i, u] == Db(num, mel[i][u])
        invariant forall u :: 0 <= u < t ==> out[m, u] == Db(num, mel[m][u])
      {
        out[m, t] := 10.0 * num.log10(MaxReal(mel[m][t], DB_FLOOR));
      }
    }
    db := Rows(out);
    forall m | 0 <= m < |mel| ensures db[m] == DbMatrix(num, mel)[m] {
    }
    forall m, t | 0 <= m < |db| && 0 <= t < |db[m]| ensures db[m][t] >= -90.0 {
      DbFloor(num, mel[m][t]);
    }
  }

  /** Sum of `row[..k]`. */
  function RowSum(row: seq<real>, k: nat): real
    requires k <= |row|
  {
    if k == 0 then 0.0 else RowSum(row, k - 1) + row[k - 1]
  }

  /** Sum of squares of `row[..k]`. */
  function RowSumSq(row: seq<real>, k: nat): real
    requires k <= |row|
  {
    if k == 0 then 0.0 else RowSumSq(row, k - 1) + row[k - 1] * row[k - 1]
  }

  /** Sum of the first `rows` rows. */
  function MatrixSum(x: seq<seq<real>>, rows: nat): real
    requires rows <= |x|
  {
    if rows == 0 then 0.0 else MatrixSum(x, rows - 1) + RowSum(x[rows - 1], |x[rows - 1]|)
  }

  function MatrixSumSq(x: seq<seq<real>>, rows: nat): real
    requires rows <= |x|
  {
    if rows == 0 then 0.0 else MatrixSumSq(x, rows - 1) + RowSumSq(x[rows - 1], |x[rows - 1]|)
  }

  /** `melDb.size * melDb[0].size` as a float. */
  function CellCount(x: seq<seq<real>>): real
    requires |x| >= 1
  {
    |x| as real * |x[0]| as real
  }

  /** The global mean (0 for a matrix without columns, whose output is empty anyway). */
  function Mean(x: seq<seq<real>>): real
    requires |x| >= 1
  {
    if CellCount(x) == 0.0 then 0.0 else MatrixSum(x, |x|) / CellCount(x)
  }

  /** The mean of the squared cells. */
  function MeanSquare(x: seq<seq<real>>): real
    requires |x| >= 1
  {
    if CellCount(x) == 0.0 then 0.0 else MatrixSumSq(x, |x|) / CellCount(x)
  }

  /** `sqrt(max(E[x^2] - mean^2, 1e-5))`, the population standard deviation with a floor. */
  function StdDev(num: Numerics, x: seq<seq<real>>): (s: real)
    requires Lawful(num) && |x| >= 1
    ensures s >= STD_FLOOR
  {
    StdFromMoments(num, Mean(x), MeanSquare(x))
  }

  /** `sqrt(max(meanSq - mean^2, 1e-5))`. */
  function StdFromMoments(num: Numerics, mean: real, meanSq: real): (s: real)
    requires Lawful(num)
    ensures s >= STD_FLOOR
  {
    num.sqrt(MaxReal(meanSq - mean * mean, VAR_FLOOR))
  }

  function Normalized(num: Numerics, x: seq<seq<real>>): (y: seq<seq<real>>)
    requires Lawful(num) && |x| >= 1
    ensures |y| == |x| && forall m :: 0 <= m < |x| ==> |y[m]| == |x[m]|
  {
    seq(|x|, m requires 0 <= m < |x| =>
      seq(|x[m]|, t requires 0 <= t < |x[m]| => (x[m][t] - Mean(x)) / StdDev(num, x)))
  }

  /** `normalize`: one pass for the sums, then `(v - mean) / std` per cell. */
  method Normalize(num: Numerics, melDb: seq<seq<real>>) returns (out: seq<seq<real>>)
    requires Lawful(num)
    requires |melDb| >= 1 && IsMatrix(melDb, |melDb|, |melDb[0]|)
    ensures out == Normalized(num, melDb)
  {
    var sum, sumSq := SumAndSumOfSquares(melDb);
    var count := |melDb| as real * |melDb[0]| as real;
    // 0f / 0 is NaN in the source; with no columns nothing below reads it.
    var mean := if count == 0.0 then 0.0 else sum / count;
    var meanSq := if count == 0.0 then 0.0 else sumSq / count;
    assert mean == Mean(melDb) && meanSq == MeanSquare(melDb);
    var std := StdFromMoments(num, mean, meanSq);
    assert std == StdDev(num, melDb);
    out := Standardize(melDb, mean, std);
    var y := Normalized(num, melDb);
    forall m | 0 <= m < |melDb| ensures out[m] == y[m] {
      forall t | 0 <= t < |melDb[m]| ensures out[m][t] == y[m][t] {
      }
    }
  }

  /** The accumulation loop of `normalize`. */
  method SumAndSumOfSquares(x: seq<seq<real>>) returns (sum: real, sumSq: real)
    ensures sum == MatrixSum(x, |x|) && sumSq == MatrixSumSq(x, |x|)
  {
    sum := 0.0;
    sumSq := 0.0;
    for m := 0 to |x|
      invariant sum == MatrixSum(x, m) && sumSq == MatrixSumSq(x, m)
    {
      for t := 0 to |x[m]|
        invariant sum == MatrixSum(x, m) + RowSum(x[m], t)
        invariant sumSq == MatrixSumSq(x, m) + RowSumSq(x[m], t)
      {
        var v := x[m][t];
        sum := sum + v;
        sumSq := sumSq + v * v;
      }
    }
  }

  /** The output loop of `normalize`. */
  method Standardize(x: seq<seq<real>>, mean: real, std: real) returns (out: seq<seq<real>>)
    requires |x| >= 1 && IsMatrix(x, |x|, |x[0]|) && std != 0.0
    ensures out == seq(|x|, m requires 0 <= m < |x| =>
                     seq(|x[m]|, t requires 0 <= t < |x[m]| => (x[m][t] - mean) / std))
  {
    var res := new real[|x|, |x[0]|]((m, t) => 0.0);
    for m := 0 to |x|
      invariant forall i, t :: 0 <= i < m && 0 <= t < |x[0]| ==> res[i, t] == (x[i][t] - mean) / std
    {
      for t := 0 to |x[m]|
        invariant forall i, u :: 0 <= i < m && 0 <= u < |x[0]| ==> res[i, u] == (x[i][u] - mean) / std
        invariant forall u :: 0 <= u < t ==> res[m, u] == (x[m][u] - mean) / std
      {
        res[m, t] := (x[m][t] - mean) / std;
      }
    }
    out := Rows(res);
    forall m | 0 <= m < |x| ensures out[m] == seq(|x[m]|, t requires 0 <= t < |x[m]| => (x[m][t] - mean) / std) {
    }
  }

  lemma {:induction false} RowSumConstant(row: seq<real>, k: nat, c: real)
    requires k <= |row| && forall t :: 0 <= t < |row| ==> row[t] == c
    ensures RowSum(row, k) == k as real * c
  {
    if k > 0 {
      RowSumConstant(row, k - 1, c);
    }
  }

  lemma {:induction false} MatrixSumConstant(x: seq<seq<real>>, rows: nat, cols: nat, c: real)
    requires rows <= |x| && IsMatrix(x, |x|, cols)
    requires forall m, t :: 0 <= m < |x| && 0 <= t < cols ==> x[m][t] == c
    ensures MatrixSum(x, rows) == rows as real * (cols as real * c)
  {
    if rows > 0 {
      MatrixSumConstant(x, rows - 1, cols, c);
      RowSumConstant(x[rows - 1], cols, c);
    }
  }

  /** A constant input (such as all-silent audio, every cell at the -90 dB floor)
      normalises to all zeros rather than dividing by zero. */
  lemma NormalizeConstant(num: Numerics, x: seq<seq<real>>, c: real)
    requires Lawful(num) && |x| >= 1 && IsMatrix(x, |x|, |x[0]|)
    requires forall m, t :: 0 <= m < |x| && 0 <= t < |x[0]| ==> x[m][t] == c
    ensures forall m, t :: 0 <= m < |x| && 0 <= t < |x[m]| ==> Normalized(num, x)[m][t] == 0.0
  {
    if |x[0]| > 0 {
      MatrixSumConstant(x, |x|, |x[0]|, c);
      var n := |x| as real * |x[0]| as real;
      assert n > 0.0;
      assert |x| as real * (|x[0]| as real * c) == n * c;
      assert Mean(x) == c;
      var s := StdDev(num, x);
      forall m, t | 0 <= m < |x| && 0 <= t < |x[m]| ensures Normalized(num, x)[m][t] == 0.0 {
        assert x[m][t] == c;
        assert Normalized(num, x)[m][t] == (c - c) / s;
      }
    }
  }

  // ------------------------------------------------------------ pipeline

  /** The full front end as one function of the input signal. */
  function Preprocessed(num: Numerics, wav: seq<real>): seq<seq<real>>
    requires Lawful(num)
  {
    var fixed := PadOrCrop(SimpleVad(wav), TARGET_LEN);
    Normalized(num, DbMatrix(num, MelSpec(num, fixed)))
  }

  /** Whatever the input length, the model input is 64 bands by 184 frames. */
  lemma PreprocessedShape(num: Numerics, wav: seq<real>)
    requires Lawful(num)
    ensures IsMatrix(Preprocessed(num, wav), N_MELS, 184)
  {
    ClipFrameCount();
    var fixed := PadOrCrop(SimpleVad(wav), TARGET_LEN);
    var mel := MelSpec(num, fixed);
    var db := DbMatrix(num, mel);
    assert IsMatrix(db, N_MELS, 184);
  }

  /** `preprocess`: VAD, pad/crop to 48000 samples, mel spectrogram, dB, normalisation. */
  method Preprocess(num: Numerics, wav: seq<real>) returns (out: seq<seq<real>>)
    requires Lawful(num)
    ensures out == Preprocessed(num, wav)
    ensures IsMatrix(out, N_MELS, 184)
  {
    var trimmed := SimpleVad(wav);
    var fixed := PadOrCrop(trimmed, TARGET_LEN);
    ClipFrameCount();
    var mel := MelSpectrogram(num, fixed);
    var db := AmplitudeToDb(num, mel);
    out := Normalize(num, db);
    PreprocessedShape(num, wav);
  }
}
