/** The classifier adapter of ModelRunner: it packs a 64-band mel spectrogram
    into the band-major `[1, 1, 64, T]` input tensor, picks one logit out of
    whatever the inference session returns and squashes it with a clamped
    sigmoid. The session itself and `exp` are parameters. */
module ModelRunner {
  import opened Wrappers
  import opened Pcm
  import opened AudioPreprocessor
  import AudioDecoding

  const BANDS: nat := 64
  const WARMUP_FRAMES: nat := 10

  // ------------------------------------------------------------ flattening

  /** The rows laid end to end, band 0 first. */
  function Concat(rows: seq<seq<real>>): seq<real> {
    if |rows| == 0 then [] else rows[0] + Concat(rows[1..])
  }

  lemma {:induction false} ConcatSnoc(rows: seq<seq<real>>, k: nat)
    requires k < |rows|
    ensures Concat(rows[..k + 1]) == Concat(rows[..k]) + rows[k]
  {
    if k == 0 {
      assert rows[..1][1..] == [];
    } else {
      assert rows[..k + 1][1..] == rows[1..][..k];
      assert rows[..k][1..] == rows[1..][..k - 1];
      ConcatSnoc(rows[1..], k - 1);
    }
  }

  /** `k` rows of `T` floats flatten to `k * T` floats. */
  lemma {:induction false} ConcatLength(rows: seq<seq<real>>, k: nat, T: nat)
    requires k <= |rows| && forall m :: 0 <= m < |rows| ==> |rows[m]| == T
    ensures |Concat(rows[..k])| == k * T
  {
    if k > 0 {
      ConcatLength(rows, k - 1, T);
      ConcatSnoc(rows, k - 1);
    }
  }

  /** Band-major order: cell `[m][t]` lands at `m * T + t`. */
  lemma {:induction false} ConcatIndex(rows: seq<seq<real>>, T: nat, m: nat, t: nat)
    requires forall i :: 0 <= i < |rows| ==> |rows[i]| == T
    requires m < |rows| && t < T
    ensures m * T + t < |Concat(rows)| && Concat(rows)[m * T + t] == rows[m][t]
  {
    assert rows[..|rows|] == rows;
    ConcatLength(rows, |rows|, T);
    ConcatLength(rows[1..], |rows| - 1, T);
    assert rows[1..][..|rows| - 1] == rows[1..];
    if m > 0 {
      ConcatIndex(rows[1..], T, m - 1, t);
      assert m * T + t == T + ((m - 1) * T + t);
    }
  }

  /** Cutting a band-major buffer back into `bands` rows of `T`. */
  function Unflatten(flat: seq<real>, bands: nat, T: nat): (rows: seq<seq<real>>)
    requires |flat| == bands * T
    ensures IsMatrix(rows, bands, T)
  {
    seq(bands, m requires 0 <= m < bands => Band(flat, bands, T, m))
  }

  /** Band `m` of a band-major buffer. */
  function Band(flat: seq<real>, bands: nat, T: nat, m: nat): (row: seq<real>)
    requires |flat| == bands * T && m < bands
    ensures |row| == T
  {
    MulStep(m, bands, T);
    flat[m * T .. m * T + T]
  }

  lemma MulStep(m: nat, bands: nat, T: nat)
    requires m < bands
    ensures m * T + T == (m + 1) * T <= bands * T
  {
    assert m * T + T == (m + 1) * T;
    assert (m + 1) * T <= bands * T by {
      if T > 0 {
        assert bands * T - (m + 1) * T == (bands - m - 1) * T;
      }
    }
  }

  /** Flattening loses nothing: cutting the buffer up again gives the spectrogram back. */
  lemma UnflattenConcat(rows: seq<seq<real>>, T: nat)
    requires IsMatrix(rows, BANDS, T)
    ensures |Concat(rows)| == BANDS * T
    ensures Unflatten(Concat(rows), BANDS, T) == rows
  {
    assert rows[..|rows|] == rows;
    ConcatLength(rows, |rows|, T);
    var u := Unflatten(Concat(rows), BANDS, T);
    forall m | 0 <= m < BANDS ensures u[m] == rows[m] {
      forall t | 0 <= t < T ensures u[m][t] == rows[m][t] {
        ConcatIndex(rows, T, m, t);
      }
    }
  }

  /** The `[1, 1, 64, T]` shape passed with the buffer. */
  function Shape(T: nat): seq<int> { [1, 1, BANDS, T] }

  /** The flattening loop of `inferTensor`, with its running `idx`. */
  method Flatten(input: array2<real>) returns (flat: array<real>)
    requires input.Length0 == BANDS
    ensures fresh(flat)
    ensures flat[..] == Concat(Rows(input))
  {
    var T := input.Length1;
    ghost var rows := Rows(input);
    flat := new real[BANDS * T];
    var idx := 0;
    for m := 0 to BANDS
      invariant idx == m * T
      invariant flat[..idx] == Concat(rows[..m])
    {
      MulStep(m, BANDS, T);
      ConcatSnoc(rows, m);
      CopyBand(input, m, flat, idx);
      idx := idx + T;
    }
    assert rows[..BANDS] == rows;
    assert flat[..] == flat[..idx];
  }

  /** The inner loop: band `m` goes to `flat[start .. start + T]`. */
  method CopyBand(input: array2<real>, m: nat, flat: array<real>, start: nat)
    requires m < input.Length0 && start + input.Length1 <= flat.Length
    modifies flat
    ensures flat[..start + input.Length1] == old(flat[..start]) + Rows(input)[m]
  {
    var T := input.Length1;
    ghost var row := Rows(input)[m];
    var idx := start;
    for t := 0 to T
      invariant idx == start + t
      invariant flat[..idx] == old(flat[..start]) + row[..t]
    {
      flat[idx] := input[m, t];
      assert row[..t + 1] == row[..t] + [row[t]];
      assert flat[..idx + 1] == flat[..idx] + [flat[idx]];
      idx := idx + 1;
    }
    assert row[..T] == row;
  }

  // -------------------------------------------------------- session output

  /** What `res.firstOrNull()?.value` can be. An `ArrayOut` element is `None` when it
      is not a `FloatArray`; a tensor's float buffer either exposes its backing array
      or only its `remaining` floats. */
  datatype OutputValue =
    | FloatArrayOut(values: seq<real>)
    | ArrayOut(elements: seq<Option<seq<real>>>)
    | TensorOut(hasArray: bool, backing: seq<real>, remaining: seq<real>)
    | OtherOut

  /** The session either throws or returns its (possibly empty) result list's head. */
  datatype RunOutcome = Threw | Ran(first: Option<OutputValue>)

  /** `firstOrNull()` of a float vector. */
  function FirstOf(values: seq<real>): (r: Option<real>)
    ensures r.None? <==> |values| == 0
    ensures r.Some? ==> r.value == values[0]
  {
    if |values| == 0 then None else Some(values[0])
  }

  /** The `when (output)` of `inferTensor`. */
  function Logit(output: OutputValue): Option<real> {
    match output
    case FloatArrayOut(values) => FirstOf(values)
    case ArrayOut(elements) =>
      if |elements| == 0 then None
      else if elements[0].None? then None
      else FirstOf(elements[0].value)
    case TensorOut(hasArray, backing, remaining) =>
      if hasArray then FirstOf(backing)
      else if |remaining| > 0 then FirstOf(remaining)
      else None
    case OtherOut => None
  }

  /** Every shape that carries the same float vector yields the same logit, its first
      element; an empty vector, a non-float row or an unknown type yields no logit. */
  lemma LogitShapesAgree(v: seq<real>, rest: seq<Option<seq<real>>>, other: seq<real>)
    ensures Logit(FloatArrayOut(v)) == Logit(ArrayOut([Some(v)] + rest))
                                   == Logit(TensorOut(true, v, other))
                                   == Logit(TensorOut(false, other, v))
    ensures Logit(FloatArrayOut(v)).Some? <==> |v| > 0
    ensures |v| > 0 ==> Logit(FloatArrayOut(v)) == Some(v[0])
    ensures Logit(ArrayOut([None] + rest)).None? && Logit(ArrayOut([])).None? && Logit(OtherOut).None?
  {
  }

  // ---------------------------------------------------------------- sigmoid

  /** The facts used about `exp`: it is positive, and at most 1 exactly on non-positive arguments. */
  ghost predicate ExpLawful(exp: real -> real) {
    forall y :: exp(y) > 0.0 && (exp(y) <= 1.0 <==> y <= 0.0)
  }

  /** `(1 / (1 + exp(-x))).coerceIn(0, 1)`. */
  function Sigmoid(exp: real -> real, x: real): (p: real)
    requires ExpLawful(exp)
    ensures 0.0 <= p <= 1.0
  {
    var s := 1.0 / (1.0 + exp(-x));
    if s < 0.0 then 0.0 else if s > 1.0 then 1.0 else s
  }

  /** The clamp never bites: the score is strictly inside (0, 1), and it reaches one
      half exactly when the logit is non-negative. */
  lemma SigmoidHalf(exp: real -> real, x: real)
    requires ExpLawful(exp)
    ensures 0.0 < Sigmoid(exp, x) < 1.0
    ensures Sigmoid(exp, x) >= 0.5 <==> x >= 0.0
  {
    var e := exp(-x);
    assert e > 0.0 && (e <= 1.0 <==> -x <= 0.0);
    Reciprocal(1.0 + e);
  }

  lemma Reciprocal(d: real)
    requires d > 1.0
    ensures 0.0 < 1.0 / d < 1.0
    ensures 1.0 / d >= 0.5 <==> d <= 2.0
  {
    var s := 1.0 / d;
    assert s * d == 1.0;
    if s >= 0.5 {
      assert s * d >= 0.5 * d;
    } else {
      assert s * d < 0.5 * d;
    }
  }

  // -------------------------------------------------------------- inference

  /** The score `inferTensor` returns for a 64 x T input: no score when the session
      throws, returns nothing or returns an unusable output, otherwise the sigmoid of
      the logit. */
  function Score(exp: real -> real, run: (seq<real>, seq<int>) -> RunOutcome,
                 rows: seq<seq<real>>): (score: Option<real>)
    requires ExpLawful(exp) && |rows| == BANDS && forall m :: 0 <= m < BANDS ==> |rows[m]| == |rows[0]|
    ensures score.Some? ==> 0.0 <= score.value <= 1.0
  {
    match run(Concat(rows), Shape(|rows[0]|))
    case Threw => None
    case Ran(first) =>
      if first.None? then None
      else
        var logit := Logit(first.value);
        if logit.None? then None else Some(Sigmoid(exp, logit.value))
  }

  /** `inferTensor`: flatten, run, select, squash. */
  method InferTensor(exp: real -> real, run: (seq<real>, seq<int>) -> RunOutcome, input: array2<real>)
    returns (score: Option<real>)
    requires ExpLawful(exp) && input.Length0 == BANDS
    ensures score == Score(exp, run, Rows(input))
    ensures score.Some? ==> 0.0 <= score.value <= 1.0
  {
    var T := input.Length1;
    var flat := Flatten(input);
    var outcome := run(flat[..], Shape(T));
    if outcome.Threw? || outcome.first.None? {
      return None;
    }
    var logit := Logit(outcome.first.value);
    if logit.None? {
      return None;
    }
    score := Some(Sigmoid(exp, logit.value));
  }

  /** The first `T` columns of bands 0..63, `T` being the width of band 0. */
  function Window(mel: seq<seq<real>>): (rows: seq<seq<real>>)
    requires |mel| >= BANDS && forall m :: 0 <= m < BANDS ==> |mel[m]| >= |mel[0]|
    ensures IsMatrix(rows, BANDS, |mel[0]|)
    ensures forall m, t :: 0 <= m < BANDS && 0 <= t < |mel[0]| ==> rows[m][t] == mel[m][t]
  {
    seq(BANDS, m requires 0 <= m < BANDS => mel[m][..|mel[0]|])
  }

  /** `inferMel`: copy bands 0..63, columns 0..T-1 into a fresh `[64][T]` tensor and infer. */
  method InferMel(exp: real -> real, run: (seq<real>, seq<int>) -> RunOutcome, mel: seq<seq<real>>)
    returns (score: Option<real>)
    requires ExpLawful(exp)
    requires |mel| >= BANDS && forall m :: 0 <= m < BANDS ==> |mel[m]| >= |mel[0]|
    ensures score == Score(exp, run, Window(mel))
  {
    var time := |mel[0]|;
    var input := new real[BANDS, time]((m, t) => 0.0);
    for m := 0 to BANDS
      invariant forall i, t :: 0 <= i < m && 0 <= t < time ==> input[i, t] == mel[i][t]
    {
      for t := 0 to time
        invariant forall i, u :: 0 <= i < m && 0 <= u < time ==> input[i, u] == mel[i][u]
        invariant forall u :: 0 <= u < t ==> input[m, u] == mel[m][u]
      {
        input[m, t] := mel[m][t];
      }
    }
    assert Rows(input) == Window(mel) by {
      var r := Rows(input);
      var w := Window(mel);
      forall m | 0 <= m < BANDS ensures r[m] == w[m] {
      }
    }
    score := InferTensor(exp, run, input);
  }

  /** A spectrogram with exactly 64 bands is passed through unchanged. */
  lemma WindowOfMatrix(mel: seq<seq<real>>, T: nat)
    requires IsMatrix(mel, BANDS, T)
    ensures Window(mel) == mel
  {
    var w := Window(mel);
    forall m | 0 <= m < BANDS ensures w[m] == mel[m] {
    }
  }

  /** `warmUp`: one inference on a 64 x 10 all-zero tensor; its result is discarded. */
  method WarmUp(exp: real -> real, run: (seq<real>, seq<int>) -> RunOutcome) returns (score: Option<real>)
    requires ExpLawful(exp)
    ensures score == Score(exp, run, seq(BANDS, m => seq(WARMUP_FRAMES, t => 0.0)))
  {
    var dummy := new real[BANDS, WARMUP_FRAMES]((m, t) => 0.0);
    assert Rows(dummy) == seq(BANDS, m => seq(WARMUP_FRAMES, t => 0.0)) by {
      var r := Rows(dummy);
      forall m | 0 <= m < BANDS ensures r[m] == seq(WARMUP_FRAMES, t => 0.0) {
      }
    }
    score := InferTensor(exp, run, dummy);
  }

  // ------------------------------------------------------------ entry points

  datatype ModelOutput = ModelOutput(score: Option<real>, mel: seq<seq<real>>)

  /** What every `infer*` entry point returns for the result of its decoder. */
  function Inferred(num: Numerics, exp: real -> real, run: (seq<real>, seq<int>) -> RunOutcome,
                    decoded: Option<seq<real>>): (r: Option<ModelOutput>)
    requires Lawful(num) && ExpLawful(exp)
    ensures r.None? <==> decoded.None?
    ensures r.Some? ==> (&& r.value.mel == Preprocessed(num, decoded.value)
                         && IsMatrix(r.value.mel, BANDS, 184)
                         && r.value.score == Score(exp, run, r.value.mel))
  {
    if decoded.None? then None
    else
      PreprocessedShape(num, decoded.value);
      var mel := Preprocessed(num, decoded.value);
      Some(ModelOutput(Score(exp, run, mel), mel))
  }

  /** `inferFromUri` and `inferFromAsset`: the platform decoder's result is a parameter. */
  method InferFromDecoded(num: Numerics, exp: real -> real, run: (seq<real>, seq<int>) -> RunOutcome,
                          decoded: Option<seq<real>>)
    returns (r: Option<ModelOutput>)
    requires Lawful(num) && ExpLawful(exp)
    ensures r == Inferred(num, exp, run, decoded)
  {
    if decoded.None? {
      return None;
    }
    var mel := Preprocess(num, decoded.value);
    WindowOfMatrix(mel, 184);
    var score := InferMel(exp, run, mel);
    r := Some(ModelOutput(score, mel));
  }

  /** `inferFromStream` and `inferFromAssetWav`: decode the WAV bytes, then as above.
      No output exactly when the WAV does not decode. */
  method InferFromStream(num: Numerics, exp: real -> real, run: (seq<real>, seq<int>) -> RunOutcome,
                         stream: seq<Byte>)
    returns (r: Option<ModelOutput>)
    requires Lawful(num) && ExpLawful(exp)
    ensures r.None? <==> !AudioDecoding.WavDecodes(stream)
    ensures r.Some? ==> r.value.mel == Preprocessed(num, AudioDecoding.DecodedWav(stream))
    ensures r == Inferred(num, exp, run, if AudioDecoding.WavDecodes(stream)
                                         then Some(AudioDecoding.DecodedWav(stream)) else None)
  {
    var wav := AudioDecoding.DecodeWav16Mono(stream);
    r := InferFromDecoded(num, exp, run, wav.ToOption());
  }
}
