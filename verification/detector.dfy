/** The `ProxyVPNDetector` object: its configuration, resolved once by the
    constructor and only read afterwards, the imperative scorer, and the
    orchestrator that assembles one analysis report. */
module Detector {
  import opened JsSemantics
  import opened Signals
  import opened Scoring

  /** The constructor's argument: every option may be left out. A list given
      as None is missing or falsy; a threshold given as None is missing. */
  datatype OptionsInput = OptionsInput(
    knownProxyASNs: Option<seq<JsValue>>,
    vpnKeywords: Option<seq<string>>,
    suspicionThreshold: Option<int>)

  /** `options.x || default` for each option. A supplied list is kept even
      when empty (an array is truthy); a missing threshold, or a threshold of
      0 (falsy), becomes 65. */
  function ResolveOptions(input: OptionsInput): (o: Options)
    ensures input.knownProxyASNs.Some? ==> o.knownProxyASNs == input.knownProxyASNs.value
    ensures input.knownProxyASNs.None? ==> o.knownProxyASNs == DefaultProxyASNs
    ensures input.vpnKeywords.Some? ==> o.vpnKeywords == input.vpnKeywords.value
    ensures input.vpnKeywords.None? ==> o.vpnKeywords == DefaultVpnKeywords
    ensures o.suspicionThreshold == DefaultSuspicionThreshold <==>
      input.suspicionThreshold in {None, Some(0), Some(DefaultSuspicionThreshold)}
    ensures o.suspicionThreshold != DefaultSuspicionThreshold ==>
      input.suspicionThreshold == Some(o.suspicionThreshold)
  {
    Options(
      match input.knownProxyASNs
      case Some(asns) => asns
      case None => DefaultProxyASNs,
      match input.vpnKeywords
      case Some(keywords) => keywords
      case None => DefaultVpnKeywords,
      match input.suspicionThreshold
      case Some(threshold) => if threshold != 0 then threshold else DefaultSuspicionThreshold
      case None => DefaultSuspicionThreshold)
  }

  /** `details` of the report: the five verdicts under their category names. */
  datatype Details = Details(
    directFlags: DirectFlags,
    reputationScore: ReputationVerdict,
    asnAnalysis: AsnVerdict,
    geoConsistency: GeoVerdict,
    fingerprintAnalysis: FingerprintVerdict)

  datatype AnalysisReport = AnalysisReport(
    ip: JsValue,
    isProxy: bool,
    suspicionScore: int,
    signals: seq<Signal>,
    details: Details,
    confidence: int,
    recommendedAction: string)

  class ProxyVPNDetector {
    const options: Options

    constructor(input: OptionsInput)
      ensures options == ResolveOptions(input)
    {
      options := ResolveOptions(input);
    }

    /** Adds the weight of each of the first five signals that is suspicious,
        one conditional step per category. */
    method CalculateSuspicionScore(signals: seq<Signal>) returns (score: int)
      requires |signals| >= 5
      ensures score == SuspicionScore(signals)
      ensures 0 <= score <= 100
    {
      SuspicionScoreBounds(signals);
      score := 0;
      if signals[0].Suspicious() {
        score := score + DirectFlagsWeight;
      }
      if signals[1].Suspicious() {
        score := score + ReputationWeight;
      }
      if signals[2].Suspicious() {
        score := score + AsnWeight;
      }
      if signals[3].Suspicious() {
        score := score + GeoWeight;
      }
      if signals[4].Suspicious() {
        score := score + FingerprintWeight;
      }
    }

    /** One analysis: the five verdicts, their score, the verdict against the
        configured threshold, the confidence and the action for the score.
        `lookup` is the outcome of the reputation lookup for `ipData.ip`. */
    method AnalyzeIp(ipData: IpData, lookup: LookupOutcome) returns (report: AnalysisReport)
      ensures report.ip == ipData.ip
      ensures report.signals == SignalsOf(options, ipData, lookup)
      ensures report.details == Details(
        CheckDirectSecurityFlags(ipData), CheckIPReputationDatabase(lookup),
        AnalyzeAsnAndIsp(options, ipData), CheckGeographicConsistency(ipData),
        Fingerprint(ipData))
      ensures report.suspicionScore == SuspicionScore(report.signals)
      ensures 0 <= report.suspicionScore <= 100
      ensures report.isProxy <==> report.suspicionScore >= options.suspicionThreshold
      ensures report.recommendedAction == GetRecommendedAction(report.suspicionScore).Name()
      ensures ValidCount(report.signals) >= 4
      ensures report.confidence == CalculateConfidence(report.signals)
      ensures report.confidence ==
        14 * ValidCount(report.signals)
        + 6 * IntAbs(2 * SuspiciousCount(report.signals) - ValidCount(report.signals))
      ensures 56 <= report.confidence <= 100
    {
      var signals := SignalsOf(options, ipData, lookup);
      var suspicionScore := CalculateSuspicionScore(signals);
      var isProxy := suspicionScore >= options.suspicionThreshold;
      SignalCounts(options, ipData, lookup);
      ConfidenceOfFive(signals);
      report := AnalysisReport(
        ipData.ip,
        isProxy,
        suspicionScore,
        signals,
        Details(
          signals[0].directFlags,
          signals[1].reputation,
          signals[2].asnAnalysis,
          signals[3].geoConsistency,
          signals[4].fingerprintAnalysis),
        CalculateConfidence(signals),
        GetRecommendedAction(suspicionScore).Name());
    }
  }

  // ---------------------------------------------------------------------------
  // Properties of an analysis
  // ---------------------------------------------------------------------------

  /** The two counts of a five-element array written out term by term. */
  lemma CountsOfFive(signals: seq<Signal>)
    requires |signals| == 5
    ensures ValidCount(signals) ==
      (if Truthy(signals[0].Error()) then 0 else 1) + (if Truthy(signals[1].Error()) then 0 else 1) +
      (if Truthy(signals[2].Error()) then 0 else 1) + (if Truthy(signals[3].Error()) then 0 else 1) +
      (if Truthy(signals[4].Error()) then 0 else 1)
    ensures SuspiciousCount(signals) ==
      (if signals[0].Suspicious() then 1 else 0) + (if signals[1].Suspicious() then 1 else 0) +
      (if signals[2].Suspicious() then 1 else 0) + (if signals[3].Suspicious() then 1 else 0) +
      (if signals[4].Suspicious() then 1 else 0)
  {
    var s1 := signals[1..];
    var s2 := s1[1..];
    var s3 := s2[1..];
    var s4 := s3[1..];
    assert s4[1..] == [];
    assert ValidCount(s4) == (if Truthy(signals[4].Error()) then 0 else 1);
    assert SuspiciousCount(s4) == (if signals[4].Suspicious() then 1 else 0);
    assert ValidCount(s3) == (if Truthy(signals[3].Error()) then 0 else 1) + ValidCount(s4);
    assert SuspiciousCount(s3) == (if signals[3].Suspicious() then 1 else 0) + SuspiciousCount(s4);
    assert ValidCount(s2) == (if Truthy(signals[2].Error()) then 0 else 1) + ValidCount(s3);
    assert SuspiciousCount(s2) == (if signals[2].Suspicious() then 1 else 0) + SuspiciousCount(s3);
  }

  /** All five signals are valid unless the reputation lookup failed with a
      truthy message, which leaves four; no more signals are suspicious than
      are valid. */
  lemma SignalCounts(options: Options, ipData: IpData, lookup: LookupOutcome)
    ensures var signals := SignalsOf(options, ipData, lookup);
      && ValidCount(signals) == (if lookup.LookupFailed? && Truthy(lookup.message) then 4 else 5)
      && SuspiciousCount(signals) <= ValidCount(signals)
  {
    var signals := SignalsOf(options, ipData, lookup);
    CountsOfFive(signals);
    SuspiciousAtMostValid(signals);
  }

  /** The confidence of an analysis: between 56 and 100; at most 80 when the
      reputation lookup failed with a message; at least 76 when it did not. */
  lemma ConfidenceOfAnalysis(options: Options, ipData: IpData, lookup: LookupOutcome)
    ensures var signals := SignalsOf(options, ipData, lookup);
      && ValidCount(signals) > 0
      && 56 <= CalculateConfidence(signals) <= 100
      && CalculateConfidence(signals) <= 20 * ValidCount(signals)
      && (lookup.LookupFailed? && Truthy(lookup.message) ==> CalculateConfidence(signals) <= 80)
      && (!(lookup.LookupFailed? && Truthy(lookup.message)) ==> CalculateConfidence(signals) >= 76)
  {
    var signals := SignalsOf(options, ipData, lookup);
    SignalCounts(options, ipData, lookup);
    ConfidenceOfFive(signals);
  }

  /** The record's signals with a fetched body differ from those with a
      failed lookup only in the reputation verdict. */
  lemma SignalsDifferOnlyInReputation(options: Options, ipData: IpData, message: JsValue, data: ReputationData)
    ensures SignalsOf(options, ipData, Fetched(data)) ==
      SignalsOf(options, ipData, LookupFailed(message))[1 := ReputationSignal(CheckIPReputationDatabase(Fetched(data)))]
  {
  }

  /** A failed lookup contributes nothing to the score: the same record with
      a fetched body scores exactly the reputation weight more when that body
      is suspicious, and the same otherwise. */
  lemma FailedLookupScoresNothing(options: Options, ipData: IpData, message: JsValue, data: ReputationData)
    ensures var failed := SuspicionScore(SignalsOf(options, ipData, LookupFailed(message)));
      var fetched := SuspicionScore(SignalsOf(options, ipData, Fetched(data)));
      fetched == failed + (if CheckIPReputationDatabase(Fetched(data)).suspicious then ReputationWeight else 0)
  {
    var signals := SignalsOf(options, ipData, LookupFailed(message));
    var verdict := ReputationSignal(CheckIPReputationDatabase(Fetched(data)));
    SignalsDifferOnlyInReputation(options, ipData, message, data);
    if verdict.Suspicious() {
      SuspicionScoreRaise(signals, 1, verdict);
    } else {
      assert Flags(signals[1 := verdict][..5]) == Flags(signals[..5]);
    }
  }

  /** A failed lookup (with a message) lowers the confidence below that of
      the same record whose lookup succeeded, whatever the fetched body. */
  lemma FailedLookupLowersConfidence(options: Options, ipData: IpData, message: JsValue, data: ReputationData)
    requires Truthy(message)
    ensures var failed := SignalsOf(options, ipData, LookupFailed(message));
      var fetched := SignalsOf(options, ipData, Fetched(data));
      ValidCount(failed) > 0 && ValidCount(fetched) > 0 &&
      CalculateConfidence(failed) < CalculateConfidence(fetched)
  {
    var failed := SignalsOf(options, ipData, LookupFailed(message));
    var fetched := SignalsOf(options, ipData, Fetched(data));
    SignalCounts(options, ipData, LookupFailed(message));
    SignalCounts(options, ipData, Fetched(data));
    CountsOfFive(failed);
    CountsOfFive(fetched);
    ConfidenceOfFive(failed);
    ConfidenceOfFive(fetched);
  }
}
