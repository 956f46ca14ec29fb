/** Whole analyses of partly specified records: what the code scores and
    recommends for a few typical records. */
module Scenarios {
  import opened JsSemantics
  import opened Signals
  import opened Scoring
  import opened Detector

  /** A configuration under which a record without connection data is not
      suspicious on ASN/ISP grounds: no `undefined` ASN entry, no empty
      keyword. The default configuration is one. */
  predicate Ordinary(options: Options) {
    && Undefined !in options.knownProxyASNs
    && forall k :: k in options.vpnKeywords ==> k != ""
  }

  lemma DefaultOptionsAreOrdinary()
    ensures var o := ResolveOptions(OptionsInput(None, None, None));
      Ordinary(o) && o.suspicionThreshold == 65 && Num(15169.0) in o.knownProxyASNs
  {
    assert DefaultProxyASNs[3] == Num(15169.0);
  }

  const ProxyFlagOnly := Security(Bool(true), Undefined, Undefined, Undefined, Undefined, Undefined)

  /** The proxy flag and nothing else: the direct flags score 35, and the
      missing location a further 15, so 50, which monitors. */
  lemma ProxyFlagAlone(options: Options, ipData: IpData, data: ReputationData)
    requires Ordinary(options)
    requires ipData.security == Some(ProxyFlagOnly)
    requires ipData.connection == None && ipData.location == None
    requires !CheckIPReputationDatabase(Fetched(data)).suspicious
    ensures SuspicionScore(SignalsOf(options, ipData, Fetched(data))) == 50
    ensures GetRecommendedAction(50) == Monitor
  {
    var signals := SignalsOf(options, ipData, Fetched(data));
    MissingIspMatchesNoKeyword(options, ipData);
    MissingTimeZoneIsSuspicious(ipData);
  }

  /** The proxy flag and a listed ASN: 35 + 20 + 15 = 70, which challenges. */
  lemma ProxyFlagAndKnownAsn(options: Options, ipData: IpData, data: ReputationData)
    requires Ordinary(options)
    requires ipData.security == Some(ProxyFlagOnly)
    requires ipData.connection.Some? && ipData.connection.value.isp == None
    requires ipData.connection.value.asn in options.knownProxyASNs
    requires ipData.location == None
    requires !CheckIPReputationDatabase(Fetched(data)).suspicious
    ensures SuspicionScore(SignalsOf(options, ipData, Fetched(data))) == 70
    ensures GetRecommendedAction(70) == Challenge
  {
    var signals := SignalsOf(options, ipData, Fetched(data));
    MissingTimeZoneIsSuspicious(ipData);
  }

  /** As before, with a fraud score of 90 from the reputation service:
      70 + 25 = 95, which blocks. */
  lemma ProxyFlagKnownAsnAndFraud(options: Options, ipData: IpData, data: ReputationData)
    requires Ordinary(options)
    requires ipData.security == Some(ProxyFlagOnly)
    requires ipData.connection.Some? && ipData.connection.value.isp == None
    requires ipData.connection.value.asn in options.knownProxyASNs
    requires ipData.location == None
    requires data.fraud_score == Num(90.0)
    ensures SuspicionScore(SignalsOf(options, ipData, Fetched(data))) == 95
    ensures GetRecommendedAction(95) == Block
  {
    var signals := SignalsOf(options, ipData, Fetched(data));
    MissingTimeZoneIsSuspicious(ipData);
    assert GreaterThan(data.fraud_score, 75.0);
  }

  /** The fingerprint placeholder is never suspicious, so no analysis scores
      more than 95. */
  lemma AnalysisScoreAtMost95(options: Options, ipData: IpData, lookup: LookupOutcome)
    ensures SuspicionScore(SignalsOf(options, ipData, lookup)) <= 95
  {
    var signals := SignalsOf(options, ipData, lookup);
    assert !signals[4].Suspicious();
  }

  /** A clean record whose reputation lookup fails: nothing is
      suspicious, so the score is 0 and the action is to allow, while the
      four valid signals give a confidence of 80. */
  lemma CleanRecordWithFailedLookup(options: Options, ipData: IpData, message: JsValue)
    requires Ordinary(options)
    requires ipData.security.Some? && ipData.security.value.threat_level == Str("low")
    requires ipData.security.value.is_proxy != Bool(true) && ipData.security.value.is_tor != Bool(true)
    requires ipData.connection == None
    requires TimeZoneRegion(ipData) == "America" && ipData.continent_code == Str("NA")
    requires Truthy(ipData.latitude) && Truthy(ipData.longitude)
    requires Truthy(ipData.city) && Truthy(ipData.zip)
    requires Truthy(message)
    ensures var signals := SignalsOf(options, ipData, LookupFailed(message));
      && SuspicionScore(signals) == 0
      && GetRecommendedAction(SuspicionScore(signals)) == Allow
      && ValidCount(signals) == 4
      && CalculateConfidence(signals) == 80
  {
    var signals := SignalsOf(options, ipData, LookupFailed(message));
    MissingIspMatchesNoKeyword(options, ipData);
    assert ("America", "NA") in RegionContinents;
    SignalCounts(options, ipData, LookupFailed(message));
    CountsOfFive(signals);
    ConfidenceOfFive(signals);
  }
}
