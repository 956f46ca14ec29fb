# Proxy/VPN detector — a Dafny model

This project models the decision engine of the repository's proxy/VPN
detector, the `ProxyVPNDetector` class of `js/ProxyVPNDetector.js`. The
engine turns one IP-data record (in the ipstack geolocation shape) into a
report. The report holds five signal verdicts, a suspicion score, an
`isProxy` verdict, a confidence value and a recommended action. The five
verdicts are:

- direct security flags;
- an IP-reputation lookup;
- ASN/ISP heuristics;
- a geographic-consistency check;
- a fingerprint placeholder.

Files and modules:

- `js_semantics.dfy` (`JsSemantics`): the JavaScript value semantics the
  detector relies on. This covers primitive values, truthiness, the value of
  `a && b`, `===`, comparison with a number, `toLowerCase`, `includes` and
  `split('/')[0]`.
- `signals.dfy` (`Signals`): the input record, the configuration record, the
  five evaluators as pure functions, and the signals array of one analysis.
- `scoring.dfy` (`Scoring`): the weighted score, the confidence estimate and
  the action bands, with their properties.
- `detector.dfy` (`Detector`): the class `ProxyVPNDetector`. It holds the
  configuration its constructor resolves. It has the imperative
  `CalculateSuspicionScore` and the orchestrator `AnalyzeIp`. Lemmas relate
  whole analyses to one another.
- `scenarios.dfy` (`Scenarios`): the score, action and confidence the code
  gives a few typical records.

Modelling choices:

- A record field is a `JsValue`: `undefined`, `null`, a boolean, a number (a
  real) or a string. Datatype equality of `JsValue` is `===`.
- A nested object read through `x || {}` is an `Option`. None is a missing
  or falsy object, and it reads like an object without fields.
- The reputation lookup's `fetch` is replaced by a parameter of type
  `LookupOutcome`. It is either a fetched body or a failure carrying the
  error's `message`.
- `calculateConfidence` is modelled on exact reals, with `Math.round` as
  `floor(x + 0.5)`. With the five signals of an analysis the exact value is
  the integer `14v + 6|2s - v|`, where `v` counts the valid signals and `s`
  the suspicious ones. In the source the same expression is evaluated in
  IEEE doubles and is often not an integer: `4/5 - 0.5` is not exactly
  `0.3`, so the product can come out a hair away from, say, 76. The rounded
  result agrees with the model's integer only because that error is far
  below the 0.5 that `Math.round` absorbs.

Behaviour of the code worth knowing, which the model keeps:

- A missing `threat_level` is suspicious, because `undefined !== "low"`. It
  is not read as "low".
- A record without a location, or with an empty one, is suspicious on
  geographic grounds. Its time-zone region is "", which matches no
  continent, so the geographic weight 15 is always added for it. A record
  with only the proxy flag set scores 35 + 15 = 50 and is monitored
  (`Scenarios.ProxyFlagAlone`). Adding a listed ASN gives 70, which is
  challenged (`Scenarios.ProxyFlagAndKnownAsn`). Adding a fraud score of 90
  gives 95, which is blocked (`Scenarios.ProxyFlagKnownAsnAndFraud`).
- The fingerprint placeholder is never suspicious, so no analysis scores
  more than 95 (`Scenarios.AnalysisScoreAtMost95`). A score of 100, with all
  five signals suspicious, is possible only for a signals array in general
  (`Scoring.SuspicionScoreBounds`).
- The time-zone region Australia matches the continent code `AU` as well as
  `OC`.
- The suspicious count counts every signal, not only the valid ones. The two
  agree here, since an errored signal is never suspicious.
- There is no guard for zero valid signals. That case cannot arise, because
  only the reputation signal can carry an error.
- `analyzeIp` does not reject a missing `ip`. It copies `ipData.ip` into the
  report as it is.
- The validity test is `!signal.error`. So a failed lookup whose error
  message is empty counts as a valid signal.

## Model

| member | source | states |
|---|---|---|
| `JsSemantics.And` | js/ProxyVPNDetector.js:186-190 | the value of `a && b` is truthy exactly when both operands are, and is one of the two operands |
| `JsSemantics.LowerChar` | js/ProxyVPNDetector.js:146 | an ASCII capital becomes the small letter 32 code points above it; any other character is unchanged |
| `JsSemantics.ToLower` | js/ProxyVPNDetector.js:146-148 | `toLowerCase` keeps the length, lowers each character, and leaves no ASCII capital |
| `JsSemantics.ToLowerIdempotent` | js/ProxyVPNDetector.js:146-148 | lower-casing twice is lower-casing once |
| `JsSemantics.Truthy` | js/ProxyVPNDetector.js:186-195 | ToBoolean: a value is falsy exactly when it is `undefined`, `null`, `false`, 0 or "" |
| `JsSemantics.ToNumber` | js/ProxyVPNDetector.js:115 | the conversion applied by `>`: a number converts to itself, only a number converts to a negative value, and a falsy value converts to 0 or NaN |
| `JsSemantics.GreaterThan` | js/ProxyVPNDetector.js:115 | `v > k` on a number is the comparison of reals, and a value exceeding a non-negative limit is truthy |
| `JsSemantics.Includes` | js/ProxyVPNDetector.js:148 | `includes` never finds a needle longer than the haystack and always finds a prefix of it |
| `JsSemantics.IncludesSpec` | js/ProxyVPNDetector.js:147-149 | `includes` holds exactly when the needle occurs at some index of the haystack |
| `JsSemantics.EmptyIncludesOnlyEmpty` | js/ProxyVPNDetector.js:140-149 | only the empty needle is found in the empty string |
| `JsSemantics.BeforeFirstSlash` | js/ProxyVPNDetector.js:172 | `split('/')[0]` is the longest prefix without a '/': the whole string, or the text up to the first '/' |
| `Signals.SecurityOf` | js/ProxyVPNDetector.js:83 | `ipData.security \|\| {}` is the record's security object, or one whose six properties all read `undefined` |
| `Signals.CheckDirectSecurityFlags` | js/ProxyVPNDetector.js:81-94 | the flags are copied over; the verdict is non-suspicious exactly when the threat level is the string "low" and neither `is_proxy` nor `is_tor` is `true`; a missing security object is suspicious |
| `Signals.CheckIPReputationDatabase` | js/ProxyVPNDetector.js:101-130 | a fetched body is copied over and is suspicious iff proxy, vpn or tor is `true` or the fraud score exceeds 75; a failure gives fraud score 0, all four flags false, the error message, and is never suspicious |
| `Signals.ConnectionOf` | js/ProxyVPNDetector.js:138-139 | `ipData.connection \|\| {}` is the record's connection object, or one without ASN or ISP |
| `Signals.IspOf` | js/ProxyVPNDetector.js:140 | `connection.isp \|\| ''` is the ISP name when present, and "" otherwise |
| `Signals.SomeKeywordIncluded` | js/ProxyVPNDetector.js:147-149 | `some` holds exactly when some keyword, lower-cased, is included in the lower-cased ISP |
| `Signals.AnalyzeAsnAndIsp` | js/ProxyVPNDetector.js:137-158 | known-ASN is strict membership in the configured list; keyword match is the case-insensitive substring search; suspicious iff either holds; a missing ISP is "" |
| `Signals.MissingIspMatchesNoKeyword` | js/ProxyVPNDetector.js:138-156 | with no ISP and no empty keyword, no keyword matches and only the ASN can make the verdict suspicious |
| `Signals.TimeZoneId` | js/ProxyVPNDetector.js:167-169 | an id the record's time zone carries is returned as it is; a non-empty result comes from the record; without a location or time zone the id is "" |
| `Signals.TimeZoneRegion` | js/ProxyVPNDetector.js:172 | the region is the prefix of the id up to its first '/', and the whole id when the id has no '/' |
| `Signals.CheckGeographicConsistency` | js/ProxyVPNDetector.js:165-197 | the time zone matches exactly for the region/continent pairs of the table; the location is detailed exactly when latitude, longitude, city and zip are all truthy; suspicious iff either test fails |
| `Signals.MissingTimeZoneIsSuspicious` | js/ProxyVPNDetector.js:167-182 | a missing time-zone id gives the region "", which is a mismatch, so the verdict is suspicious |
| `Signals.Fingerprint` | js/ProxyVPNDetector.js:204-217 | the placeholder is never suspicious and carries no error |
| `Signals.SignalsOf` | js/ProxyVPNDetector.js:44-50 | five verdicts in array order; only the reputation verdict can carry an error, and an errored verdict is never suspicious |
| `Scoring.SuspicionScore` | js/ProxyVPNDetector.js:224-263 | the recursive weighted sum over the first five signals equals the category weights 35, 25, 20, 15 and 5 of the suspicious signals added in array order |
| `Scoring.WeightsSumTo100` | js/ProxyVPNDetector.js:226-232 | the weights 35, 25, 20, 15 and 5 add up to 100 |
| `Scoring.WeightedSumBounds` | js/ProxyVPNDetector.js:235-262 | a weighted sum with non-negative weights lies between 0 and the sum of all weights |
| `Scoring.WeightedSumFull` | js/ProxyVPNDetector.js:235-262 | with positive weights, the weighted sum equals the total weight exactly when every flag is set |
| `Scoring.WeightedSumSetFlag` | js/ProxyVPNDetector.js:235-262 | setting one flag adds exactly its weight if it was clear, and nothing otherwise |
| `Scoring.WeightedSumMonotone` | js/ProxyVPNDetector.js:235-262 | setting more flags never lowers the weighted sum |
| `Scoring.WeightedSumOfFive` | js/ProxyVPNDetector.js:237-260 | the weighted sum of five flags is the five conditional terms added in order |
| `Scoring.SuspicionScoreBounds` | js/ProxyVPNDetector.js:224-263 | the score is in 0..100, and is 100 exactly when all five signals are suspicious |
| `Scoring.SuspicionScoreMonotone` | js/ProxyVPNDetector.js:224-263 | making signals suspicious never lowers the score |
| `Scoring.SuspicionScoreRaise` | js/ProxyVPNDetector.js:224-263 | turning one non-suspicious signal suspicious raises the score by exactly that category's weight |
| `Scoring.ValidCount` | js/ProxyVPNDetector.js:273 | the number of signals without a truthy `error` is at most the number of signals |
| `Scoring.SuspiciousCount` | js/ProxyVPNDetector.js:279 | the number of suspicious signals is at most the number of signals |
| `Scoring.SuspiciousAtMostValid` | js/ProxyVPNDetector.js:273-279 | when no errored signal is suspicious, no more signals are suspicious than are valid |
| `Scoring.Round` | js/ProxyVPNDetector.js:282 | `Math.round` gives the integer within half of x, a half rounded upwards |
| `Scoring.ConfidenceValue` | js/ProxyVPNDetector.js:276-282 | the unrounded confidence is 70% of the valid share when the signals split evenly, and the whole valid share when they agree unanimously |
| `Scoring.CalculateConfidence` | js/ProxyVPNDetector.js:270-283 | the rounded confidence is never negative, and at most 100 when no more signals are suspicious than valid |
| `Scoring.ConfidenceRange` | js/ProxyVPNDetector.js:276-282 | the unrounded confidence lies in 0..100 under the same condition |
| `Scoring.ConfidenceValueOfFive` | js/ProxyVPNDetector.js:276-282 | over five signals the real expression equals the integer 14v + 6\|2s - v\| |
| `Scoring.ConfidenceOfFive` | js/ProxyVPNDetector.js:270-283 | with five signals the confidence is exactly 14v + 6\|2s - v\|, so rounding never changes it |
| `Scoring.GetRecommendedAction` | js/ProxyVPNDetector.js:290-300 | total; block iff the score is at least 85, challenge iff 65..84, monitor iff 40..64, allow iff below 40 |
| `Scoring.Action.Name` | js/ProxyVPNDetector.js:291-298 | an action's string is the entry at its severity in "allow", "monitor", "challenge", "block" |
| `Scoring.RecommendedActionName` | js/ProxyVPNDetector.js:290-300 | the returned string is "block" iff the score is at least 85, "challenge" iff 65..84, "monitor" iff 40..64, "allow" iff below 40 |
| `Scoring.RecommendedActionSeverity` | js/ProxyVPNDetector.js:290-300 | the action's rank in allow < monitor < challenge < block is the number of thresholds 40, 65, 85 that the score reaches |
| `Scoring.RecommendedActionMonotone` | js/ProxyVPNDetector.js:290-300 | a higher score never recommends a milder action |
| `Scoring.RecommendedActionBoundaries` | js/ProxyVPNDetector.js:290-300 | the band changes between 39 and 40, 64 and 65, and 84 and 85 |
| `Detector.ResolveOptions` | js/ProxyVPNDetector.js:13-35 | supplied lists are kept and missing ones take the defaults; the threshold is 65 exactly when it is missing, 0 or 65, and otherwise it is the supplied value |
| `Detector.ProxyVPNDetector.constructor` | js/ProxyVPNDetector.js:13-35 | the detector's configuration is the resolved options |
| `Detector.ProxyVPNDetector.CalculateSuspicionScore` | js/ProxyVPNDetector.js:224-263 | the five conditional additions compute the weighted sum over the suspicious signals, which lies in 0..100 |
| `Detector.ProxyVPNDetector.AnalyzeIp` | js/ProxyVPNDetector.js:42-74 | the report carries the record's ip and the five verdicts, also under their category names; the score is their weighted sum, in 0..100; `isProxy` iff the score reaches the configured threshold; the action string is the band name of the score; at least four signals are valid; the confidence is 14v + 6\|2s - v\|, in 56..100 |
| `Detector.SignalCounts` | js/ProxyVPNDetector.js:270-283 | an analysis has five valid signals, or four when the lookup failed with a truthy message; suspicious signals never outnumber valid ones |
| `Detector.ConfidenceOfAnalysis` | js/ProxyVPNDetector.js:270-283 | the confidence is in 56..100 and at most 20v; at most 80 after a failed lookup, and at least 76 otherwise |
| `Detector.SignalsDifferOnlyInReputation` | js/ProxyVPNDetector.js:44-50 | the same record with a fetched and with a failed lookup yields the same signals, except for the reputation verdict |
| `Detector.FailedLookupScoresNothing` | js/ProxyVPNDetector.js:117-129 | a failed lookup contributes 0: a fetched body scores exactly 25 more if suspicious, and the same otherwise |
| `Detector.FailedLookupLowersConfidence` | js/ProxyVPNDetector.js:270-283 | a failed lookup with a message gives strictly lower confidence than any fetched body for the same record |
| `Scenarios.DefaultOptionsAreOrdinary` | js/ProxyVPNDetector.js:17-33 | the default configuration has threshold 65, lists 15169, has no `undefined` ASN and no empty keyword |
| `Scenarios.ProxyFlagAlone` | js/ProxyVPNDetector.js:42-74 | only the proxy flag set, no connection and no location: score 50, monitor |
| `Scenarios.ProxyFlagAndKnownAsn` | js/ProxyVPNDetector.js:42-74 | the proxy flag and a listed ASN: score 70, challenge |
| `Scenarios.ProxyFlagKnownAsnAndFraud` | js/ProxyVPNDetector.js:42-74 | as before, plus a fraud score of 90: score 95, block |
| `Scenarios.AnalysisScoreAtMost95` | js/ProxyVPNDetector.js:204-263 | since the fingerprint placeholder is never suspicious, no analysis scores above 95 |
| `Scenarios.CleanRecordWithFailedLookup` | js/ProxyVPNDetector.js:42-74 | a clean record whose lookup fails: score 0, allow, four valid signals, confidence 80 |

## Left out

- The `fetch` of the reputation service, `response.json()` and `console.warn` (js/ProxyVPNDetector.js:104-105, 119) are network and console I/O. Their outcome is the `LookupOutcome` parameter of `AnalyzeIp`.
- `Promise.all` and `async` in `analyzeIp` are left out. The evaluators are independent, so the model composes them in sequence.
- The API-key options (js/ProxyVPNDetector.js:15-16) are credentials with no logic.
- `detectProxy` (js/ProxyVPNDetector.js:304-328) is an ipstack fetch wrapper. The commented-out Express middleware and browser checks (js/ProxyVPNDetector.js:332-417) are not live code.
- The HTTP handlers `api/detect-proxy.js` and `js/detect-proxy.js` only forward `security.is_proxy`. The browser scripts `assets/js/*.js` and `js/FetchInformation.js` write provider data into a page. None of them is part of this model.
- IEEE floating point is not modelled. `JsValue` numbers are exact reals, with no NaN or infinities. The confidence is computed on exact reals, where its value over five signals is an integer. The source's double arithmetic is off from that integer by a rounding error far below 0.5, which `Math.round` removes.
- `JsSemantics.ToNumber` converts only the empty string and plain decimal digit strings. Other numeric strings (signs, decimals, whitespace, hex) are read as NaN when compared with the fraud-score limit.
- `JsSemantics.LowerChar` lowers only ASCII letters. Unicode case mapping is not modelled.
- A truthy non-string `isp` or time-zone id would throw in `toLowerCase` or `split`. The model admits only strings in those two fields, so that exception path is left out. Likewise, a non-array `knownProxyASNs` or `vpnKeywords` option is left out.
- A truthy non-object `security`, `connection`, `location` or `time_zone` is modelled as None. It reads like `{}` in the source too.
- `Detector.OptionsInput` admits only integer thresholds. The source's `options.suspicionThreshold || 65` accepts any truthy value, such as 64.5 or "70". Since the score is an integer, a fractional threshold acts like its ceiling; a string threshold is compared after conversion to a number.
- `Scoring.CalculateConfidence` requires at least one valid signal. The source divides by the valid count without a guard (NaN for zero). This cannot happen in an analysis: `Detector.SignalCounts` shows at least four valid signals.
