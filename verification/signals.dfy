/** The input record of one analysis, the detector's configuration, and the
    five signal evaluators of `ProxyVPNDetector`, each a pure function of the
    record (and, for the reputation check, of the outcome of its lookup). */
module Signals {
  import opened JsSemantics

  // ---------------------------------------------------------------------------
  // Input: an IP-data record in the geolocation provider's (ipstack) shape.
  // Every field may be missing. A nested object read through `x || {}` is an
  // Option: None stands for a missing or falsy value, which the evaluators
  // read as an object without fields.
  // ---------------------------------------------------------------------------

  datatype Security = Security(
    is_proxy: JsValue,
    proxy_type: JsValue,
    is_tor: JsValue,
    is_crawler: JsValue,
    threat_level: JsValue,
    threat_types: JsValue)

  /** `isp` is read through `connection.isp || ''` and then lower-cased, so
      only strings are admitted; None is a missing or falsy ISP. */
  datatype Connection = Connection(asn: JsValue, isp: Option<string>)

  /** `id` is read through `timeZone.id || ''` and then split, so only
      strings are admitted; None is a missing or falsy id. */
  datatype TimeZone = TimeZone(id: Option<string>)

  datatype Location = Location(time_zone: Option<TimeZone>)

  datatype IpData = IpData(
    ip: JsValue,
    security: Option<Security>,
    connection: Option<Connection>,
    location: Option<Location>,
    continent_code: JsValue,
    latitude: JsValue,
    longitude: JsValue,
    city: JsValue,
    zip: JsValue)

  /** The body returned by the reputation service, as far as it is read. */
  datatype ReputationData = ReputationData(
    fraud_score: JsValue,
    proxy: JsValue,
    vpn: JsValue,
    tor: JsValue,
    bot_status: JsValue,
    connection_type: JsValue)

  /** What the reputation lookup for the record's IP came to: a parsed body,
      or a thrown error (network failure, unparseable body, a property read
      on a null body) carrying its `message`. */
  datatype LookupOutcome = Fetched(data: ReputationData) | LookupFailed(message: JsValue)

  // ---------------------------------------------------------------------------
  // Configuration, fixed at construction.
  // ---------------------------------------------------------------------------

  datatype Options = Options(
    knownProxyASNs: seq<JsValue>,
    vpnKeywords: seq<string>,
    suspicionThreshold: int)

  const DefaultProxyASNs: seq<JsValue> := [
    Num(14061.0), // DigitalOcean
    Num(16509.0), // Amazon AWS
    Num(14618.0), // Amazon AWS
    Num(15169.0), // Google Cloud
    Num(3356.0),  // Level3
    Num(9009.0),  // M247
    Num(4766.0),  // Korea Telecom
    Num(9299.0),  // Philippine Long Distance Telephone Company
    Num(6939.0)   // Hurricane Electric
  ]

  const DefaultVpnKeywords: seq<string> := [
    "vpn", "proxy", "hosting", "cloud", "data center", "server",
    "anonymous", "nord", "express", "hide", "tor", "exit"
  ]

  const DefaultSuspicionThreshold: int := 65

  // ---------------------------------------------------------------------------
  // Verdicts, one shape per evaluator. A field the source's object literal
  // does not have reads as `undefined`.
  // ---------------------------------------------------------------------------

  datatype DirectFlags = DirectFlags(
    isExplicitProxy: bool,
    proxyType: JsValue,
    isTor: bool,
    isCrawler: bool,
    threatLevel: JsValue,
    threatTypes: JsValue,
    suspicious: bool)

  datatype ReputationVerdict = ReputationVerdict(
    fraudScore: JsValue,
    isProxy: JsValue,
    isVpn: JsValue,
    isTor: JsValue,
    isBot: JsValue,
    isDatacenter: JsValue,
    isCloudProvider: JsValue,
    suspicious: bool,
    error: JsValue)

  datatype AsnVerdict = AsnVerdict(
    asn: JsValue,
    isp: string,
    isKnownProxyAsn: bool,
    containsVpnKeyword: bool,
    suspicious: bool)

  /** `hasDetailedLocation` is the value of a `&&` chain, not a boolean. */
  datatype GeoVerdict = GeoVerdict(
    timeZoneMatchesRegion: bool,
    hasDetailedLocation: JsValue,
    suspicious: bool)

  datatype FingerprintVerdict = FingerprintVerdict(
    userAgentConsistent: bool,
    webRTCLeaks: bool,
    canvasFingerprint: bool,
    timeZoneOffset: bool,
    suspicious: bool,
    notes: string)

  /** One element of the signals array: any of the five verdicts, seen through
      the two properties the scorer and the confidence estimator read. */
  datatype Signal =
    | DirectSignal(directFlags: DirectFlags)
    | ReputationSignal(reputation: ReputationVerdict)
    | AsnSignal(asnAnalysis: AsnVerdict)
    | GeoSignal(geoConsistency: GeoVerdict)
    | FingerprintSignal(fingerprintAnalysis: FingerprintVerdict)
  {
    /** `signal.suspicious` */
    predicate Suspicious() {
      match this
      case DirectSignal(v) => v.suspicious
      case ReputationSignal(v) => v.suspicious
      case AsnSignal(v) => v.suspicious
      case GeoSignal(v) => v.suspicious
      case FingerprintSignal(v) => v.suspicious
    }

    /** `signal.error`: only a reputation verdict has the property. */
    function Error(): JsValue {
      match this
      case ReputationSignal(v) => v.error
      case _ => Undefined
    }
  }

  // ---------------------------------------------------------------------------
  // 1. Direct security flags
  // ---------------------------------------------------------------------------

  const EmptySecurity := Security(Undefined, Undefined, Undefined, Undefined, Undefined, Undefined)

  /** `ipData.security || {}`: the record's security object, or one whose
      every property reads as `undefined`. */
  function SecurityOf(ipData: IpData): (sec: Security)
    ensures ipData.security.Some? ==> sec == ipData.security.value
    ensures ipData.security.None? ==>
      && sec.is_proxy == Undefined && sec.proxy_type == Undefined
      && sec.is_tor == Undefined && sec.is_crawler == Undefined
      && sec.threat_level == Undefined && sec.threat_types == Undefined
  {
    match ipData.security
    case None => EmptySecurity
    case Some(s) => s
  }

  /** The provider's flags copied over; the record is suspicious unless its
      threat level is exactly the string "low" and neither the proxy nor the
      Tor flag is `true`. A missing security object therefore is suspicious. */
  function CheckDirectSecurityFlags(ipData: IpData): (r: DirectFlags)
    ensures var sec := SecurityOf(ipData);
      && (r.isExplicitProxy <==> sec.is_proxy == Bool(true))
      && (r.isTor <==> sec.is_tor == Bool(true))
      && (r.isCrawler <==> sec.is_crawler == Bool(true))
      && r.proxyType == sec.proxy_type
      && r.threatLevel == sec.threat_level
      && r.threatTypes == sec.threat_types
      && (!r.suspicious <==>
            sec.threat_level == Str("low") && sec.is_proxy != Bool(true) && sec.is_tor != Bool(true))
    ensures ipData.security == None ==> r.suspicious
  {
    var security := SecurityOf(ipData);
    DirectFlags(
      security.is_proxy == Bool(true),
      security.proxy_type,
      security.is_tor == Bool(true),
      security.is_crawler == Bool(true),
      security.threat_level,
      security.threat_types,
      security.is_proxy == Bool(true) || security.is_tor == Bool(true) || security.threat_level != Str("low"))
  }

  // ---------------------------------------------------------------------------
  // 2. IP reputation
  // ---------------------------------------------------------------------------

  /** A fetched body is copied over and is suspicious when a proxy, VPN or Tor
      flag is `true` or the fraud score exceeds 75. A failed lookup gives a
      neutral verdict carrying the error: never suspicious, all flags false,
      a fraud score of 0, and no data-centre or cloud fields. */
  function CheckIPReputationDatabase(lookup: LookupOutcome): (r: ReputationVerdict)
    ensures r.suspicious ==> lookup.Fetched?
    ensures lookup.LookupFailed? ==>
      && !r.suspicious
      && r.fraudScore == Num(0.0)
      && r.isProxy == Bool(false) && r.isVpn == Bool(false)
      && r.isTor == Bool(false) && r.isBot == Bool(false)
      && r.isDatacenter == Undefined && r.isCloudProvider == Undefined
      && r.error == lookup.message
    ensures lookup.Fetched? ==>
      var data := lookup.data;
      && r.error == Undefined
      && r.fraudScore == data.fraud_score
      && r.isProxy == data.proxy && r.isVpn == data.vpn
      && r.isTor == data.tor && r.isBot == data.bot_status
      && r.isDatacenter == Bool(data.connection_type == Str("data_center"))
      && r.isCloudProvider == Bool(data.connection_type == Str("cloud_provider"))
      && (r.suspicious <==>
            data.proxy == Bool(true) || data.vpn == Bool(true) || data.tor == Bool(true)
            || GreaterThan(data.fraud_score, 75.0))
  {
    match lookup
    case Fetched(data) =>
      ReputationVerdict(
        data.fraud_score,
        data.proxy,
        data.vpn,
        data.tor,
        data.bot_status,
        Bool(data.connection_type == Str("data_center")),
        Bool(data.connection_type == Str("cloud_provider")),
        data.proxy == Bool(true) || data.vpn == Bool(true) || data.tor == Bool(true)
          || GreaterThan(data.fraud_score, 75.0),
        Undefined)
    case LookupFailed(message) =>
      ReputationVerdict(
        Num(0.0), Bool(false), Bool(false), Bool(false), Bool(false),
        Undefined, Undefined, false, message)
  }

  // ---------------------------------------------------------------------------
  // 3. ASN and ISP
  // ---------------------------------------------------------------------------

  const EmptyConnection := Connection(Undefined, None)

  /** `ipData.connection || {}`: the record's connection object, or one
      without an ASN or an ISP. */
  function ConnectionOf(ipData: IpData): (connection: Connection)
    ensures ipData.connection.Some? ==> connection == ipData.connection.value
    ensures ipData.connection.None? ==> connection.asn == Undefined && connection.isp.None?
  {
    match ipData.connection
    case None => EmptyConnection
    case Some(c) => c
  }

  /** `connection.isp || ''`: the ISP name, or the empty string. */
  function IspOf(connection: Connection): (isp: string)
    ensures connection.isp.Some? ==> isp == connection.isp.value
    ensures connection.isp.None? ==> isp == ""
  {
    match connection.isp
    case None => ""
    case Some(s) => s
  }

  /** `keywords.some(keyword => ispLower.includes(keyword.toLowerCase()))` */
  function SomeKeywordIncluded(ispLower: string, keywords: seq<string>): (r: bool)
    ensures r <==> exists k :: k in keywords && Includes(ispLower, ToLower(k))
  {
    if keywords == [] then false
    else if Includes(ispLower, ToLower(keywords[0])) then
      assert keywords[0] in keywords;
      true
    else
      var r := SomeKeywordIncluded(ispLower, keywords[1..]);
      assert forall k :: k in keywords <==> k == keywords[0] || k in keywords[1..];
      r
  }

  /** The record is suspicious exactly when its ASN is one of the configured
      ones (strict equality, so a missing ASN matches only an `undefined`
      entry) or its lower-cased ISP contains some lower-cased keyword. */
  function AnalyzeAsnAndIsp(options: Options, ipData: IpData): (r: AsnVerdict)
    ensures var connection := ConnectionOf(ipData);
      && r.asn == connection.asn
      && r.isp == IspOf(connection)
      && (r.isKnownProxyAsn <==> connection.asn in options.knownProxyASNs)
      && (r.containsVpnKeyword <==>
            exists k :: k in options.vpnKeywords && Includes(ToLower(r.isp), ToLower(k)))
      && (r.suspicious <==> r.isKnownProxyAsn || r.containsVpnKeyword)
  {
    var connection := ConnectionOf(ipData);
    var asn := connection.asn;
    var isp := IspOf(connection);
    var isKnownProxyAsn := asn in options.knownProxyASNs;
    var containsVpnKeyword := SomeKeywordIncluded(ToLower(isp), options.vpnKeywords);
    AsnVerdict(asn, isp, isKnownProxyAsn, containsVpnKeyword, isKnownProxyAsn || containsVpnKeyword)
  }

  /** Without an ISP the search runs over the empty string, where only an
      empty keyword is found; so with non-empty keywords only the ASN can
      make the record suspicious. */
  lemma MissingIspMatchesNoKeyword(options: Options, ipData: IpData)
    requires IspOf(ConnectionOf(ipData)) == ""
    requires forall k :: k in options.vpnKeywords ==> k != ""
    ensures !AnalyzeAsnAndIsp(options, ipData).containsVpnKeyword
    ensures AnalyzeAsnAndIsp(options, ipData).suspicious <==> ConnectionOf(ipData).asn in options.knownProxyASNs
  {
    forall k | k in options.vpnKeywords ensures !Includes(ToLower(""), ToLower(k)) {
      EmptyIncludesOnlyEmpty(ToLower(k));
    }
  }

  // ---------------------------------------------------------------------------
  // 4. Geographic consistency
  // ---------------------------------------------------------------------------

  /** `(ipData.location || {}).time_zone || {}` then `.id || ''`: a
      non-empty id is the one the record carries; a record without a location
      or without a time zone has the empty id. */
  function TimeZoneId(ipData: IpData): (id: string)
    ensures id != "" ==>
      && ipData.location.Some? && ipData.location.value.time_zone.Some?
      && ipData.location.value.time_zone.value.id == Some(id)
    ensures ipData.location.None? || ipData.location.value.time_zone.None? ==> id == ""
    ensures (ipData.location.Some? && ipData.location.value.time_zone.Some?
             && ipData.location.value.time_zone.value.id.Some?) ==>
      id == ipData.location.value.time_zone.value.id.value
  {
    match ipData.location
    case None => ""
    case Some(location) =>
      match location.time_zone
      case None => ""
      case Some(timeZone) =>
        match timeZone.id
        case None => ""
        case Some(id) => id
  }

  /** `timeZoneId.split('/')[0]`: the prefix of the id up to its first '/',
      which is the whole id when it has no '/'. */
  function TimeZoneRegion(ipData: IpData): (region: string)
    ensures var id := TimeZoneId(ipData);
      && |region| <= |id| && region == id[..|region|]
      && '/' !in region
      && (|region| < |id| ==> id[|region|] == '/')
  {
    BeforeFirstSlash(TimeZoneId(ipData))
  }

  /** The time-zone regions and the continent codes each one accepts. */
  const RegionContinents: set<(string, string)> := {
    ("America", "NA"), ("Europe", "EU"), ("Asia", "AS"), ("Africa", "AF"),
    ("Australia", "OC"), ("Australia", "AU"), ("Pacific", "OC")
  }

  /** The time zone agrees with the continent exactly for the pairs of
      RegionContinents; the location is detailed exactly when latitude,
      longitude, city and zip are all truthy (so a latitude of 0 or an empty
      city is not); the record is suspicious when either test fails. */
  function CheckGeographicConsistency(ipData: IpData): (r: GeoVerdict)
    ensures r.timeZoneMatchesRegion <==>
      ipData.continent_code.Str? && (TimeZoneRegion(ipData), ipData.continent_code.s) in RegionContinents
    ensures Truthy(r.hasDetailedLocation) <==>
      Truthy(ipData.latitude) && Truthy(ipData.longitude) && Truthy(ipData.city) && Truthy(ipData.zip)
    ensures r.suspicious <==> !r.timeZoneMatchesRegion || !Truthy(r.hasDetailedLocation)
  {
    var tzRegion := TimeZoneRegion(ipData);
    var continentCode := ipData.continent_code;
    var timeZoneMatchesRegion :=
      (tzRegion == "America" && continentCode == Str("NA")) ||
      (tzRegion == "Europe" && continentCode == Str("EU")) ||
      (tzRegion == "Asia" && continentCode == Str("AS")) ||
      (tzRegion == "Africa" && continentCode == Str("AF")) ||
      (tzRegion == "Australia" && (continentCode == Str("OC") || continentCode == Str("AU"))) ||
      (tzRegion == "Pacific" && continentCode == Str("OC"));
    var hasDetailedLocation :=
      And(And(And(ipData.latitude, ipData.longitude), ipData.city), ipData.zip);
    GeoVerdict(timeZoneMatchesRegion, hasDetailedLocation,
               !timeZoneMatchesRegion || !Truthy(hasDetailedLocation))
  }

  /** A missing time-zone id yields the region "", which no continent matches,
      so the record is suspicious. */
  lemma MissingTimeZoneIsSuspicious(ipData: IpData)
    requires TimeZoneId(ipData) == ""
    ensures !CheckGeographicConsistency(ipData).timeZoneMatchesRegion
    ensures CheckGeographicConsistency(ipData).suspicious
  {
    assert TimeZoneRegion(ipData) == "";
  }

  // ---------------------------------------------------------------------------
  // 5. Fingerprint (placeholder)
  // ---------------------------------------------------------------------------

  const FingerprintNotes := "Fingerprinting would require client-side JS implementation"

  /** A fixed placeholder: never suspicious and never an error. */
  function Fingerprint(ipData: IpData): (r: FingerprintVerdict)
    ensures !r.suspicious
    ensures !Truthy(FingerprintSignal(r).Error())
  {
    FingerprintVerdict(true, false, true, true, false, FingerprintNotes)
  }

  // ---------------------------------------------------------------------------
  // The signals array of one analysis
  // ---------------------------------------------------------------------------

  /** The five verdicts in the order of the signals array: direct flags,
      reputation, ASN/ISP, geography, fingerprint. Only the reputation verdict
      can carry an error, and an errored verdict is never suspicious. */
  function SignalsOf(options: Options, ipData: IpData, lookup: LookupOutcome): (signals: seq<Signal>)
    ensures |signals| == 5
    ensures forall i :: 0 <= i < |signals| && i != 1 ==> signals[i].Error() == Undefined
    ensures forall i :: 0 <= i < |signals| && Truthy(signals[i].Error()) ==> !signals[i].Suspicious()
    ensures signals[1].Error() != Undefined <==> lookup.LookupFailed? && lookup.message != Undefined
  {
    [ DirectSignal(CheckDirectSecurityFlags(ipData)),
      ReputationSignal(CheckIPReputationDatabase(lookup)),
      AsnSignal(AnalyzeAsnAndIsp(options, ipData)),
      GeoSignal(CheckGeographicConsistency(ipData)),
      FingerprintSignal(Fingerprint(ipData)) ]
  }
}
