/** The two per-frame features of AudioFeatureExtractor: the energy in dB below
    full scale and the zero-crossing rate of a frame of 16-bit samples.
    `log10` is a parameter; `LogBounds` states the only facts used about it. */
module AudioFeatureExtractor {
  import opened Ints
  import opened Pcm

  const FULL_SCALE: real := 32768.0
  const POWER_FLOOR: real := 0.00000001

  /** log10 maps [1e-8, 1] into [-8, 0]. */
  ghost predicate LogBounds(log10: real -> real) {
    forall x :: POWER_FLOOR <= x <= 1.0 ==> -8.0 <= log10(x) <= 0.0
  }

  // ------------------------------------------------------------------ energy

  /** `sample / 32768.0`. */
  function Norm(sample: Short): (r: real)
    ensures -1.0 <= r < 1.0
  {
    sample as real / FULL_SCALE
  }

  /** Sum of the squared normalised samples of `frame[..k]`. */
  function SumSquares(frame: seq<Short>, k: nat): real
    requires k <= |frame|
  {
    if k == 0 then 0.0 else SumSquares(frame, k - 1) + Norm(frame[k - 1]) * Norm(frame[k - 1])
  }

  /** `energy`: 0 for an empty frame, otherwise `-10 * log10(max(mean square, 1e-8))`. */
  function EnergyOf(log10: real -> real, frame: seq<Short>): real {
    if |frame| == 0 then 0.0
    else -10.0 * log10(MaxReal(SumSquares(frame, |frame|) / |frame| as real, POWER_FLOOR))
  }

  /** The accumulation loop of `energy`. */
  method Energy(log10: real -> real, frame: seq<Short>) returns (e: real)
    ensures e == EnergyOf(log10, frame)
  {
    if |frame| == 0 {
      return 0.0;
    }
    var sum := 0.0;
    for i := 0 to |frame|
      invariant sum == SumSquares(frame, i)
    {
      var norm := frame[i] as real / FULL_SCALE;
      sum := sum + norm * norm;
    }
    var mean := sum / |frame| as real;
    e := -10.0 * log10(MaxReal(mean, POWER_FLOOR));
  }

  /** Each squared sample lies in [0, 1], so the sum of `k` of them lies in [0, k]. */
  lemma {:induction false} SumSquaresBounds(frame: seq<Short>, k: nat)
    requires k <= |frame|
    ensures 0.0 <= SumSquares(frame, k) <= k as real
  {
    if k > 0 {
      SumSquaresBounds(frame, k - 1);
      var n := Norm(frame[k - 1]);
      assert 0.0 <= n * n <= 1.0 by {
        if n >= 0.0 { MulLeOne(n); } else { MulLeOne(-n); }
      }
    }
  }

  lemma MulLeOne(x: real)
    requires 0.0 <= x <= 1.0
    ensures 0.0 <= x * x <= x
  {
  }

  /** The energy of any frame lies in [0, 80] dB. */
  lemma EnergyRange(log10: real -> real, frame: seq<Short>)
    requires LogBounds(log10)
    ensures 0.0 <= EnergyOf(log10, frame) <= 80.0
  {
    if |frame| > 0 {
      SumSquaresBounds(frame, |frame|);
      var n := |frame| as real;
      var mean := SumSquares(frame, |frame|) / n;
      assert mean <= 1.0 by {
        assert SumSquares(frame, |frame|) <= n;
      }
      assert POWER_FLOOR <= MaxReal(mean, POWER_FLOOR) <= 1.0;
    }
  }

  /** A silent frame sits at the 80 dB floor. */
  lemma SilentEnergy(log10: real -> real, frame: seq<Short>)
    requires |frame| > 0 && forall i :: 0 <= i < |frame| ==> frame[i] == 0
    ensures EnergyOf(log10, frame) == -10.0 * log10(POWER_FLOOR)
  {
    SilentSum(frame, |frame|);
  }

  lemma {:induction false} SilentSum(frame: seq<Short>, k: nat)
    requires k <= |frame| && forall i :: 0 <= i < |frame| ==> frame[i] == 0
    ensures SumSquares(frame, k) == 0.0
  {
    if k > 0 {
      SilentSum(frame, k - 1);
    }
  }

  // --------------------------------------------------------- zero-crossing rate

  /** The sign class the source compares: non-negative (zero included) or negative. */
  predicate NonNegative(sample: Short) { sample >= 0 }

  /** Whether `frame[i - 1]` and `frame[i]` lie on different sides of zero. */
  predicate CrossesAt(frame: seq<Short>, i: int)
    requires 1 <= i < |frame|
  {
    (frame[i - 1] >= 0 && frame[i] < 0) || (frame[i - 1] < 0 && frame[i] >= 0)
  }

  /** The number of crossings among the pairs ending at indices `1 .. k - 1`. */
  function Crossings(frame: seq<Short>, k: nat): nat
    requires k <= |frame|
  {
    if k <= 1 then 0 else Crossings(frame, k - 1) + (if CrossesAt(frame, k - 1) then 1 else 0)
  }

  /** `zeroCrossRate`: 0 for an empty frame, otherwise crossings / size. */
  function ZeroCrossRateOf(frame: seq<Short>): real {
    if |frame| == 0 then 0.0 else Crossings(frame, |frame|) as real / |frame| as real
  }

  /** The counting loop of `zeroCrossRate`. */
  method ZeroCrossRate(frame: seq<Short>) returns (rate: real)
    ensures rate == ZeroCrossRateOf(frame)
  {
    if |frame| == 0 {
      return 0.0;
    }
    var count := 0;
    for i := 1 to |frame|
      invariant count == Crossings(frame, i)
    {
      if (frame[i - 1] >= 0 && frame[i] < 0) || (frame[i - 1] < 0 && frame[i] >= 0) {
        count := count + 1;
      }
    }
    rate := count as real / |frame| as real;
  }

  /** At most one crossing per adjacent pair. */
  lemma {:induction false} CrossingsBound(frame: seq<Short>, k: nat)
    requires 1 <= k <= |frame|
    ensures Crossings(frame, k) <= k - 1
  {
    if k > 1 {
      CrossingsBound(frame, k - 1);
    }
  }

  /** The rate of a non-empty frame lies in [0, 1). */
  lemma ZeroCrossRateRange(frame: seq<Short>)
    ensures |frame| > 0 ==> 0.0 <= ZeroCrossRateOf(frame) < 1.0
    ensures |frame| == 0 ==> ZeroCrossRateOf(frame) == 0.0
  {
    if |frame| > 0 {
      CrossingsBound(frame, |frame|);
    }
  }

  /** No crossing in `frame[..k]` exactly when all of it shares the sign class of `frame[0]`. */
  lemma {:induction false} NoCrossingsIffOneSide(frame: seq<Short>, k: nat)
    requires 1 <= k <= |frame|
    ensures Crossings(frame, k) == 0 <==>
            forall i :: 0 <= i < k ==> NonNegative(frame[i]) == NonNegative(frame[0])
  {
    if k > 1 {
      NoCrossingsIffOneSide(frame, k - 1);
      if Crossings(frame, k) == 0 {
        assert NonNegative(frame[k - 1]) == NonNegative(frame[k - 2]);
      } else if Crossings(frame, k - 1) == 0 {
        assert CrossesAt(frame, k - 1);
        assert NonNegative(frame[k - 1]) != NonNegative(frame[k - 2]);
      }
    }
  }

  /** A frame that never changes sign class has rate 0, and only such frames do. */
  lemma ZeroRateIffOneSide(frame: seq<Short>)
    requires |frame| > 0
    ensures ZeroCrossRateOf(frame) == 0.0 <==>
            (forall i :: 0 <= i < |frame| ==> frame[i] >= 0) ||
            (forall i :: 0 <= i < |frame| ==> frame[i] < 0)
  {
    NoCrossingsIffOneSide(frame, |frame|);
    var all := forall i :: 0 <= i < |frame| ==> NonNegative(frame[i]) == NonNegative(frame[0]);
    if (forall i :: 0 <= i < |frame| ==> frame[i] >= 0) || (forall i :: 0 <= i < |frame| ==> frame[i] < 0) {
      assert all;
    }
  }
}
