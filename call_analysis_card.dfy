/** `CallAnalysisCard`: the admin dashboard's averages over the call records and
    how they are shown. An average of -1 means "no data" and is shown as "N/A". */
module CallAnalysisCard {
  import opened Wrappers
  import opened Ints
  import opened Text
  import opened Domain
  import opened SummaryUtils

  const NO_DATA: real := -1.0
  const NOT_AVAILABLE: string := "N/A"

  /** For each record with a last detection and an end time: detection time minus
      start time. */
  function AnalysisTimes(rs: seq<CallRecord>): (ts: seq<real>)
    ensures |ts| <= |rs|
  {
    if |rs| == 0 then []
    else
      var r := rs[0];
      (if LastDetection(r).Some? && r.metadata.endTime.Some?
       then [(LastDetection(r).value.timestamp - r.metadata.startTime) as real] else [])
      + AnalysisTimes(rs[1..])
  }

  /** The probability of each record's last detection, for records that have one. */
  function Probabilities(rs: seq<CallRecord>): (ps: seq<real>)
    ensures |ps| <= |rs|
  {
    if |rs| == 0 then []
    else
      (if LastDetection(rs[0]).Some? then [LastDetection(rs[0]).value.probability] else [])
      + Probabilities(rs[1..])
  }

  /** `List<Double>.average()` of a non-empty list, or -1. */
  function AverageOr(xs: seq<real>): (avg: real)
    ensures |xs| == 0 ==> avg == NO_DATA
    ensures |xs| > 0 ==> avg * |xs| as real == Sum(xs)
  {
    if |xs| == 0 then NO_DATA
    else
      MeanBounds(Sum(xs), |xs|);
      Sum(xs) / |xs| as real
  }

  /** `calculateAverageAnalysisTime`. */
  function AverageAnalysisTime(rs: seq<CallRecord>): (avg: real)
    ensures |AnalysisTimes(rs)| == 0 ==> avg == NO_DATA
    ensures |AnalysisTimes(rs)| > 0 ==> avg * |AnalysisTimes(rs)| as real == Sum(AnalysisTimes(rs))
  {
    if |rs| == 0 then NO_DATA else AverageOr(AnalysisTimes(rs))
  }

  /** `calculateAverageProbability`. */
  function AverageProbability(rs: seq<CallRecord>): (avg: real)
    ensures |Probabilities(rs)| == 0 ==> avg == NO_DATA
    ensures |Probabilities(rs)| > 0 ==> avg * |Probabilities(rs)| as real == Sum(Probabilities(rs))
  {
    if |rs| == 0 then NO_DATA else AverageOr(Probabilities(rs))
  }

  /** Probabilities in [0, 1] add up to between 0 and their number. */
  lemma {:induction false} ProbabilitiesBounded(rs: seq<CallRecord>)
    requires ProbabilitiesInRange(rs)
    ensures 0.0 <= Sum(Probabilities(rs)) <= |Probabilities(rs)| as real
  {
    if |rs| > 0 {
      assert ProbabilitiesInRange(rs[1..]) by {
        forall i | 0 <= i < |rs[1..]| && LastDetection(rs[1..][i]).Some?
          ensures 0.0 <= LastDetection(rs[1..][i]).value.probability <= 1.0
        {
          assert rs[1..][i] == rs[i + 1];
        }
      }
      ProbabilitiesBounded(rs[1..]);
      var head := if LastDetection(rs[0]).Some? then [LastDetection(rs[0]).value.probability] else [];
      assert Probabilities(rs) == head + Probabilities(rs[1..]);
      SumAppend(head, Probabilities(rs[1..]));
    }
  }

  /** Some record has a detection exactly when there is a probability to average. */
  lemma {:induction false} ProbabilitiesPresent(rs: seq<CallRecord>)
    ensures |Probabilities(rs)| > 0 <==> exists i :: 0 <= i < |rs| && |rs[i].detections| > 0
  {
    if |rs| > 0 {
      ProbabilitiesPresent(rs[1..]);
      if exists i :: 0 <= i < |rs[1..]| && |rs[1..][i].detections| > 0 {
        var i :| 0 <= i < |rs[1..]| && |rs[1..][i].detections| > 0;
        assert rs[i + 1] == rs[1..][i];
      }
      if exists i :: 0 <= i < |rs| && |rs[i].detections| > 0 {
        var i :| 0 <= i < |rs| && |rs[i].detections| > 0;
        if i > 0 {
          assert rs[1..][i - 1] == rs[i];
        }
      }
    }
  }

  /** `if (avg >= 0) "${avg.roundToInt()} ms" else "N/A"`. */
  function AnalysisTimeText(avg: real): (text: string)
    ensures text == NOT_AVAILABLE <==> avg < 0.0
  {
    if avg >= 0.0 then
      assert IntToString(RoundReal(avg)) + " ms" != NOT_AVAILABLE by {
        assert |IntToString(RoundReal(avg)) + " ms"| >= 4;
      }
      IntToString(RoundReal(avg)) + " ms"
    else NOT_AVAILABLE
  }

  /** `if (avg >= 0) "${(avg * 100).roundToInt()}%" else "N/A"`. */
  function ProbabilityText(avg: real): (text: string)
    ensures text == NOT_AVAILABLE <==> avg < 0.0
  {
    if avg >= 0.0 then
      var pct := IntToString(RoundReal(avg * 100.0)) + "%";
      assert pct != NOT_AVAILABLE by {
        assert pct[|pct| - 1] == '%';
      }
      pct
    else NOT_AVAILABLE
  }

  /** With probabilities in [0, 1] and at least one detection, the card shows a
      percentage between 0 and 100, never "N/A". */
  lemma ProbabilityShownAsPercent(rs: seq<CallRecord>)
    requires ProbabilitiesInRange(rs)
    requires exists i :: 0 <= i < |rs| && |rs[i].detections| > 0
    ensures 0.0 <= AverageProbability(rs) <= 1.0
    ensures 0 <= RoundReal(AverageProbability(rs) * 100.0) <= 100
    ensures ProbabilityText(AverageProbability(rs)) != NOT_AVAILABLE
  {
    ProbabilitiesPresent(rs);
    ProbabilitiesBounded(rs);
    var ps := Probabilities(rs);
    MeanBounds(Sum(ps), |ps|);
  }

  /** The flagged count: calls whose last detection is a deepfake. */
  function FlaggedCount(rs: seq<CallRecord>): (n: nat)
    ensures n <= |rs|
    ensures n <= |Probabilities(rs)|
  {
    FlaggedWithinDetections(rs);
    CountSuspicious(rs)
  }

  lemma {:induction false} FlaggedWithinDetections(rs: seq<CallRecord>)
    ensures CountSuspicious(rs) <= |Probabilities(rs)|
  {
    if |rs| > 0 {
      FlaggedWithinDetections(rs[1..]);
    }
  }

  /** The flagged row is highlighted exactly when some call's last detection is a deepfake. */
  lemma {:induction false} AlertHighlight(rs: seq<CallRecord>)
    ensures FlaggedCount(rs) > 0 <==> exists i :: 0 <= i < |rs| && Suspicious(rs[i])
  {
    if |rs| > 0 {
      AlertHighlight(rs[1..]);
      if exists i :: 0 <= i < |rs[1..]| && Suspicious(rs[1..][i]) {
        var i :| 0 <= i < |rs[1..]| && Suspicious(rs[1..][i]);
        assert rs[i + 1] == rs[1..][i];
      }
      if exists i :: 0 <= i < |rs| && Suspicious(rs[i]) {
        var i :| 0 <= i < |rs| && Suspicious(rs[i]);
        if i > 0 {
          assert rs[1..][i - 1] == rs[i];
        }
      }
    }
  }
}
