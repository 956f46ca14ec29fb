/** The three reductions of a signals array: the weighted suspicion score,
    the confidence estimate and the recommended action. */
module Scoring {
  import opened JsSemantics
  import opened Signals

  // ---------------------------------------------------------------------------
  // Suspicion score
  // ---------------------------------------------------------------------------

  const DirectFlagsWeight := 35
  const ReputationWeight := 25
  const AsnWeight := 20
  const GeoWeight := 15
  const FingerprintWeight := 5

  /** The weights in the order of the signals array. */
  const Weights: seq<int> :=
    [DirectFlagsWeight, ReputationWeight, AsnWeight, GeoWeight, FingerprintWeight]

  function Sum(ws: seq<int>): int {
    if ws == [] then 0 else ws[0] + Sum(ws[1..])
  }

  /** The sum of the weights whose flag is set. */
  function WeightedSum(flags: seq<bool>, ws: seq<int>): int
    requires |flags| == |ws|
  {
    if flags == [] then 0
    else (if flags[0] then ws[0] else 0) + WeightedSum(flags[1..], ws[1..])
  }

  predicate NonNegative(ws: seq<int>) {
    forall i :: 0 <= i < |ws| ==> ws[i] >= 0
  }

  predicate Positive(ws: seq<int>) {
    forall i :: 0 <= i < |ws| ==> ws[i] > 0
  }

  /** The `suspicious` property of each signal, in array order. */
  function Flags(signals: seq<Signal>): (flags: seq<bool>)
    ensures |flags| == |signals|
    ensures forall i :: 0 <= i < |signals| ==> flags[i] == signals[i].Suspicious()
  {
    seq(|signals|, i requires 0 <= i < |signals| => signals[i].Suspicious())
  }

  /** The suspicion score of a signals array: the total weight of those of its
      first five signals that are suspicious, which is the category weight of
      each suspicious one added in array order. */
  function SuspicionScore(signals: seq<Signal>): (score: int)
    requires |signals| >= 5
    ensures score ==
      (if signals[0].Suspicious() then DirectFlagsWeight else 0) +
      (if signals[1].Suspicious() then ReputationWeight else 0) +
      (if signals[2].Suspicious() then AsnWeight else 0) +
      (if signals[3].Suspicious() then GeoWeight else 0) +
      (if signals[4].Suspicious() then FingerprintWeight else 0)
  {
    WeightedSumOfFive(Flags(signals[..5]), Weights);
    WeightedSum(Flags(signals[..5]), Weights)
  }

  /** With non-negative weights the weighted sum lies between 0 and the sum
      of all weights. */
  lemma {:induction false} WeightedSumBounds(flags: seq<bool>, ws: seq<int>)
    requires |flags| == |ws| && NonNegative(ws)
    ensures 0 <= WeightedSum(flags, ws) <= Sum(ws)
  {
    if flags != [] {
      assert NonNegative(ws[1..]);
      WeightedSumBounds(flags[1..], ws[1..]);
    }
  }

  /** With positive weights the weighted sum reaches the sum of all weights
      exactly when every flag is set. */
  lemma {:induction false} WeightedSumFull(flags: seq<bool>, ws: seq<int>)
    requires |flags| == |ws| && Positive(ws)
    ensures WeightedSum(flags, ws) == Sum(ws) <==> forall i :: 0 <= i < |flags| ==> flags[i]
  {
    if flags != [] {
      assert Positive(ws[1..]);
      WeightedSumFull(flags[1..], ws[1..]);
      WeightedSumBounds(flags[1..], ws[1..]);
      assert (forall i :: 0 <= i < |flags| ==> flags[i]) <==>
             flags[0] && forall i :: 0 <= i < |flags[1..]| ==> flags[1..][i];
    }
  }

  /** Setting one flag adds exactly its weight if it was clear, and nothing
      if it was already set. */
  lemma {:induction false} WeightedSumSetFlag(flags: seq<bool>, ws: seq<int>, i: nat)
    requires |flags| == |ws| && i < |flags|
    ensures WeightedSum(flags[i := true], ws) == WeightedSum(flags, ws) + (if flags[i] then 0 else ws[i])
  {
    if i == 0 {
      assert flags[i := true][1..] == flags[1..];
    } else {
      WeightedSumSetFlag(flags[1..], ws[1..], i - 1);
      assert flags[i := true][1..] == flags[1..][i - 1 := true];
    }
  }

  /** With non-negative weights, setting more flags never lowers the sum. */
  lemma {:induction false} WeightedSumMonotone(f: seq<bool>, g: seq<bool>, ws: seq<int>)
    requires |f| == |g| == |ws| && NonNegative(ws)
    requires forall i :: 0 <= i < |f| ==> f[i] ==> g[i]
    ensures WeightedSum(f, ws) <= WeightedSum(g, ws)
  {
    if f != [] {
      assert NonNegative(ws[1..]);
      WeightedSumMonotone(f[1..], g[1..], ws[1..]);
    }
  }

  /** The weighted sum of five flags written out term by term. */
  lemma WeightedSumOfFive(flags: seq<bool>, ws: seq<int>)
    requires |flags| == |ws| == 5
    ensures WeightedSum(flags, ws) ==
      (if flags[0] then ws[0] else 0) + (if flags[1] then ws[1] else 0) +
      (if flags[2] then ws[2] else 0) + (if flags[3] then ws[3] else 0) +
      (if flags[4] then ws[4] else 0)
  {
    var f1, w1 := flags[1..], ws[1..];
    var f2, w2 := f1[1..], w1[1..];
    var f3, w3 := f2[1..], w2[1..];
    var f4, w4 := f3[1..], w3[1..];
    assert WeightedSum(f4[1..], w4[1..]) == 0;
    assert WeightedSum(f4, w4) == (if flags[4] then ws[4] else 0);
    assert WeightedSum(f3, w3) == (if flags[3] then ws[3] else 0) + WeightedSum(f4, w4);
    assert WeightedSum(f2, w2) == (if flags[2] then ws[2] else 0) + WeightedSum(f3, w3);
    assert WeightedSum(f1, w1) == (if flags[1] then ws[1] else 0) + WeightedSum(f2, w2);
  }

  /** The five weights add up to 100. */
  lemma WeightsSumTo100()
    ensures Sum(Weights) == 100
  {
    assert Weights[4..][1..] == [];
    assert Sum(Weights[4..]) == 5;
    assert Weights[3..][1..] == Weights[4..];
    assert Sum(Weights[3..]) == 20;
    assert Weights[2..][1..] == Weights[3..];
    assert Sum(Weights[2..]) == 40;
    assert Weights[1..][1..] == Weights[2..];
    assert Sum(Weights[1..]) == 65;
  }

  /** The score is at least 0, at most 100, and 100 exactly when all five
      signals are suspicious. */
  lemma SuspicionScoreBounds(signals: seq<Signal>)
    requires |signals| >= 5
    ensures 0 <= SuspicionScore(signals) <= 100
    ensures SuspicionScore(signals) == 100 <==> forall i :: 0 <= i < 5 ==> signals[i].Suspicious()
  {
    WeightsSumTo100();
    WeightedSumBounds(Flags(signals[..5]), Weights);
    WeightedSumFull(Flags(signals[..5]), Weights);
  }

  /** Making signals suspicious never lowers the score. */
  lemma SuspicionScoreMonotone(signals: seq<Signal>, more: seq<Signal>)
    requires |signals| >= 5 && |more| >= 5
    requires forall i :: 0 <= i < 5 ==> signals[i].Suspicious() ==> more[i].Suspicious()
    ensures SuspicionScore(signals) <= SuspicionScore(more)
  {
    WeightedSumMonotone(Flags(signals[..5]), Flags(more[..5]), Weights);
  }

  /** Replacing one non-suspicious signal by a suspicious one, and changing
      nothing else, raises the score by exactly that signal's weight. */
  lemma SuspicionScoreRaise(signals: seq<Signal>, i: nat, s: Signal)
    requires |signals| >= 5 && i < 5
    requires !signals[i].Suspicious() && s.Suspicious()
    ensures SuspicionScore(signals[i := s]) == SuspicionScore(signals) + Weights[i]
  {
    var flags := Flags(signals[..5]);
    assert Flags(signals[i := s][..5]) == flags[i := true];
    WeightedSumSetFlag(flags, Weights, i);
  }

  // ---------------------------------------------------------------------------
  // Confidence
  // ---------------------------------------------------------------------------

  /** `signals.filter(signal => !signal.error).length` */
  function ValidCount(signals: seq<Signal>): (n: nat)
    ensures n <= |signals|
  {
    if signals == [] then 0
    else (if Truthy(signals[0].Error()) then 0 else 1) + ValidCount(signals[1..])
  }

  /** `signals.filter(signal => signal.suspicious).length` */
  function SuspiciousCount(signals: seq<Signal>): (n: nat)
    ensures n <= |signals|
  {
    if signals == [] then 0
    else (if signals[0].Suspicious() then 1 else 0) + SuspiciousCount(signals[1..])
  }

  /** No more signals are suspicious than are valid when no errored signal
      is suspicious. */
  lemma {:induction false} SuspiciousAtMostValid(signals: seq<Signal>)
    requires forall i :: 0 <= i < |signals| && Truthy(signals[i].Error()) ==> !signals[i].Suspicious()
    ensures SuspiciousCount(signals) <= ValidCount(signals)
  {
    if signals != [] {
      assert forall i :: 0 <= i < |signals[1..]| ==> signals[1..][i] == signals[i + 1];
      SuspiciousAtMostValid(signals[1..]);
    }
  }

  function RealAbs(x: real): real {
    if x < 0.0 then -x else x
  }

  function IntAbs(x: int): nat {
    if x < 0 then -x else x
  }

  /** `Math.round`: the nearest integer, a half rounded upwards. */
  function Round(x: real): (r: int)
    ensures r as real - 0.5 <= x < r as real + 0.5
  {
    (x + 0.5).Floor
  }

  /** The real-valued confidence before rounding: the share of valid signals
      as a percentage, scaled by a factor between 0.7 (an even split between
      suspicious and not) and 1.0 (unanimity). */
  function ConfidenceValue(validSignals: real, totalSignals: real, suspiciousCount: real): (c: real)
    requires validSignals > 0.0 && totalSignals > 0.0
    ensures 2.0 * suspiciousCount == validSignals ==> c == 0.7 * (validSignals / totalSignals * 100.0)
    ensures suspiciousCount == 0.0 || suspiciousCount == validSignals ==> c == validSignals / totalSignals * 100.0
  {
    var baseConfidence := (validSignals / totalSignals) * 100.0;
    var agreement := RealAbs((suspiciousCount / validSignals) - 0.5) * 2.0;
    baseConfidence * (0.7 + (agreement * 0.3))
  }

  /** `calculateConfidence`, on exact reals. It is never negative, and at most
      100 when no more signals are suspicious than are valid. The source
      divides by the number of valid signals without a guard, so at least one
      must be valid. */
  function CalculateConfidence(signals: seq<Signal>): (c: int)
    requires ValidCount(signals) > 0
    ensures 0 <= c
    ensures SuspiciousCount(signals) <= ValidCount(signals) ==> c <= 100
  {
    var totalSignals := |signals| as real;
    var validSignals := ValidCount(signals) as real;
    var suspiciousCount := SuspiciousCount(signals) as real;
    ConfidenceRange(validSignals, totalSignals, suspiciousCount);
    Round(ConfidenceValue(validSignals, totalSignals, suspiciousCount))
  }

  /** The real-valued confidence is never negative, and at most 100 when the
      suspicious signals are no more than the valid ones. */
  lemma ConfidenceRange(valid: real, total: real, suspicious: real)
    requires 0.0 < valid <= total && 0.0 <= suspicious
    ensures 0.0 <= ConfidenceValue(valid, total, suspicious)
    ensures suspicious <= valid ==> ConfidenceValue(valid, total, suspicious) <= 100.0
  {
    var base := (valid / total) * 100.0;
    assert 0.0 < valid / total <= 1.0 by {
      assert valid / total * total == valid;
    }
    var agreement := RealAbs(suspicious / valid - 0.5) * 2.0;
    var factor := 0.7 + agreement * 0.3;
    assert 0.0 < base <= 100.0;
    assert factor >= 0.7;
    if suspicious <= valid {
      assert 0.0 <= suspicious / valid <= 1.0 by {
        assert suspicious / valid * valid == suspicious;
      }
      assert agreement <= 1.0;
      assert factor <= 1.0;
      assert base * factor <= base * 1.0;
    }
    assert base * factor >= 0.0;
  }

  /** A positive factor moves in and out of an absolute value. */
  lemma AbsScaled(d: real, b: real)
    requires b > 0.0
    ensures RealAbs(d) * b == RealAbs(d * b)
  {
    if d < 0.0 {
      assert d * b < 0.0;
    } else {
      assert d * b >= 0.0;
    }
  }

  /** Over five signals the real expression is the integer 14v + 6|2s - v|. */
  lemma ConfidenceValueOfFive(v: int, s: int)
    requires 0 < v
    ensures ConfidenceValue(v as real, 5.0, s as real) == (14 * v + 6 * IntAbs(2 * s - v)) as real
  {
    var vr, sr := v as real, s as real;
    var base := (vr / 5.0) * 100.0;
    assert base == 20.0 * vr;
    var q := sr / vr;
    assert q * vr == sr;
    assert (q - 0.5) * vr == sr - 0.5 * vr;
    AbsScaled(q - 0.5, vr);
    var agreement := RealAbs((sr / vr) - 0.5) * 2.0;
    assert agreement * vr == 2.0 * RealAbs(sr - 0.5 * vr);
    assert 2.0 * RealAbs(sr - 0.5 * vr) == IntAbs(2 * s - v) as real;
    assert base * (0.7 + (agreement * 0.3)) == 14.0 * vr + 6.0 * (agreement * vr);
  }

  /** With the five signals of an analysis the confidence is exactly the
      integer 14v + 6|2s - v|, where v counts the valid signals and s the
      suspicious ones; no rounding happens. */
  lemma ConfidenceOfFive(signals: seq<Signal>)
    requires |signals| == 5 && ValidCount(signals) > 0
    ensures CalculateConfidence(signals) ==
      14 * ValidCount(signals) + 6 * IntAbs(2 * SuspiciousCount(signals) - ValidCount(signals))
  {
    var v := ValidCount(signals);
    var s := SuspiciousCount(signals);
    ConfidenceValueOfFive(v, s);
    var k := 14 * v + 6 * IntAbs(2 * s - v);
    assert Round(k as real) == k;
  }

  // ---------------------------------------------------------------------------
  // Recommended action
  // ---------------------------------------------------------------------------

  /** The strings of the four actions, mildest first. */
  const ActionNames: seq<string> := ["allow", "monitor", "challenge", "block"]

  datatype Action = Allow | Monitor | Challenge | Block {
    /** The string the report carries: the entry of ActionNames at the
        action's severity. */
    function Name(): (name: string)
      ensures Severity() < |ActionNames| && name == ActionNames[Severity()]
    {
      match this
      case Allow => "allow"
      case Monitor => "monitor"
      case Challenge => "challenge"
      case Block => "block"
    }

    /** The position of the action in the order allow < monitor < challenge < block. */
    function Severity(): nat {
      match this
      case Allow => 0
      case Monitor => 1
      case Challenge => 2
      case Block => 3
    }
  }

  /** The lower bounds of the monitor, challenge and block bands. */
  const ActionThresholds: seq<int> := [40, 65, 85]

  /** How many of the thresholds the score reaches. */
  function ThresholdsReached(score: int, thresholds: seq<int>): nat {
    if thresholds == [] then 0
    else (if score >= thresholds[0] then 1 else 0) + ThresholdsReached(score, thresholds[1..])
  }

  /** A higher score reaches at least as many thresholds. */
  lemma {:induction false} ThresholdsReachedMonotone(lo: int, hi: int, thresholds: seq<int>)
    requires lo <= hi
    ensures ThresholdsReached(lo, thresholds) <= ThresholdsReached(hi, thresholds)
  {
    if thresholds != [] {
      ThresholdsReachedMonotone(lo, hi, thresholds[1..]);
    }
  }

  /** The four bands, highest first: 85 and above blocks, 65 to 84
      challenges, 40 to 64 monitors, anything lower allows. The action's
      severity is the number of band thresholds the score reaches. */
  function GetRecommendedAction(suspicionScore: int): (a: Action)
    ensures a == Block <==> suspicionScore >= 85
    ensures a == Challenge <==> 65 <= suspicionScore < 85
    ensures a == Monitor <==> 40 <= suspicionScore < 65
    ensures a == Allow <==> suspicionScore < 40
  {
    if suspicionScore >= 85 then Block
    else if suspicionScore >= 65 then Challenge
    else if suspicionScore >= 40 then Monitor
    else Allow
  }

  /** The action's severity is the number of band thresholds the score
      reaches. */
  lemma RecommendedActionSeverity(score: int)
    ensures GetRecommendedAction(score).Severity() == ThresholdsReached(score, ActionThresholds)
  {
    var t1 := ActionThresholds[1..];
    var t2 := t1[1..];
    assert ThresholdsReached(score, t2[1..]) == 0;
    assert ThresholdsReached(score, t2) == (if score >= 85 then 1 else 0);
    assert ThresholdsReached(score, t1) == (if score >= 65 then 1 else 0) + ThresholdsReached(score, t2);
  }

  /** The string the report carries for a score: "block" exactly from 85,
      "challenge" exactly from 65 to 84, "monitor" exactly from 40 to 64, and
      "allow" exactly below 40. */
  lemma RecommendedActionName(score: int)
    ensures GetRecommendedAction(score).Name() == "block" <==> score >= 85
    ensures GetRecommendedAction(score).Name() == "challenge" <==> 65 <= score < 85
    ensures GetRecommendedAction(score).Name() == "monitor" <==> 40 <= score < 65
    ensures GetRecommendedAction(score).Name() == "allow" <==> score < 40
  {
  }

  /** A higher score never recommends a milder action. */
  lemma RecommendedActionMonotone(lo: int, hi: int)
    requires lo <= hi
    ensures GetRecommendedAction(lo).Severity() <= GetRecommendedAction(hi).Severity()
  {
    ThresholdsReachedMonotone(lo, hi, ActionThresholds);
    RecommendedActionSeverity(lo);
    RecommendedActionSeverity(hi);
  }

  /** The band switches between 39 and 40, 64 and 65, and 84 and 85. */
  lemma RecommendedActionBoundaries()
    ensures GetRecommendedAction(39) == Allow && GetRecommendedAction(40) == Monitor
    ensures GetRecommendedAction(64) == Monitor && GetRecommendedAction(65) == Challenge
    ensures GetRecommendedAction(84) == Challenge && GetRecommendedAction(85) == Block
  {
  }
}
