/** The `ShopperSession` client (src/api/shopper-insights/shopperSession.js):
    the SDK-configuration check, the call that asks for recommended payment
    methods, and `identify`. The injected collaborators are replaced by
    values: the outcome of the HTTP request and of the fingerprint lookup
    are inputs, and what the client does to the outside world (the request
    it sends, the session-storage write, count metrics, tracking events and
    error logs) is returned as an ordered trace of effects. */
module Session {
  import opened Wrappers
  import opened Js
  import opened Validation
  import opened RequestPayload
  import OrderedChecks

  // ---------------------------------------------------------------------
  // Collaborator outcomes and the response body
  // ---------------------------------------------------------------------

  /** One `eligible_methods` entry of the response. */
  datatype MethodEligibility = MethodEligibility(
    canBeVaulted: bool,
    eligibleInPaypalNetwork: Option<bool>,
    recommended: Option<bool>,
    recommendedPriority: Option<int>)

  /** `eligible_methods`: either entry may be missing. */
  datatype EligibleMethods = EligibleMethods(paypal: Option<MethodEligibility>, venmo: Option<MethodEligibility>)

  /** The response `body`; `eligible_methods` may be missing from it. */
  datatype ResponseBody = ResponseBody(eligibleMethods: Option<EligibleMethods>)

  /** Whatever the injected request function rejected with. */
  datatype RequestFailure = RequestFailure(description: string)

  /** How the request settled: a response whose `body` may be missing, or a
      rejection. */
  datatype RequestOutcome = Responded(body: Option<ResponseBody>) | Rejected(failure: RequestFailure)

  /** Whatever the fingerprint collaborator rejected with. */
  datatype FingerprintFailure = FingerprintFailure(description: string)

  /** How `fingerprint.get()` settled. */
  datatype FingerprintOutcome = Identified(requestId: string) | FingerprintRejected(failure: FingerprintFailure)

  // ---------------------------------------------------------------------
  // Errors, results and effects
  // ---------------------------------------------------------------------

  /** What a public operation can throw. `MissingEligibleMethods` is the
      `TypeError` of destructuring `body?.eligible_methods` when it is
      `undefined`. */
  datatype Thrown =
    | Invalid(validation: ValidationError)
    | RequestRejected(request: RequestFailure)
    | MissingEligibleMethods
    | FingerprintFailed(fingerprint: FingerprintFailure)

  /** The value `getRecommendedPaymentMethods` resolves to. */
  datatype RecommendedPaymentMethods = RecommendedPaymentMethods(isPayPalRecommended: bool, isVenmoRecommended: bool)

  /** The `FPTI_TRANSITION` of a tracking event. */
  datatype Transition = ShopperInsightsApiSuccess | ShopperInsightsApiError

  /** An observable action, in the order the client performs it. All count
      metrics carry the shopper-insights metric name, left implicit. */
  datatype Effect =
    | SendRequest(httpMethod: string, data: RecommendationRequest)
    | StorageSet(key: string, getRecommendedPaymentMethodsUsed: bool)
    | CountMetric(event: string, dimensions: map<string, string>)
    | Track(transition: Transition)
    | ErrorLog(name: string)

  /** A finished call: what it returned or threw, and what it did. */
  datatype Call<+T> = Call(result: Result<T, Thrown>, effects: seq<Effect>)

  /** The client's own state: its configuration and the last request id. */
  datatype ShopperSession = ShopperSession(sdkConfig: SdkConfig, requestId: string)

  const ConfigurationErrorType := "merchant_configuration_validation_error"
  const ApiErrorType := "api_error"
  const StorageKey := "shopperInsights"
  const ApiErrorLogName := "shopper_insights_api_error"

  /** `String(b)` in JavaScript. */
  function BoolString(b: bool): string {
    if b then "true" else "false"
  }

  // ---------------------------------------------------------------------
  // Counting effects in a trace
  // ---------------------------------------------------------------------

  predicate IsRequest(e: Effect) { e.SendRequest? }
  predicate IsStorageWrite(e: Effect) { e.StorageSet? }
  predicate IsMetric(e: Effect) { e.CountMetric? }
  predicate IsTrack(e: Effect) { e.Track? }
  predicate IsErrorLog(e: Effect) { e.ErrorLog? }
  predicate IsErrorTrack(e: Effect) { e == Track(ShopperInsightsApiError) }
  predicate IsApiErrorMetric(e: Effect) {
    e.CountMetric? && e.event == "error" && "errorType" in e.dimensions && e.dimensions["errorType"] == ApiErrorType
  }

  /** How many effects of the trace satisfy `f`. */
  function CountOf(effects: seq<Effect>, f: Effect -> bool): (n: nat)
    ensures n <= |effects|
    ensures n == 0 <==> forall k :: 0 <= k < |effects| ==> !f(effects[k])
  {
    if effects == [] then 0
    else (if f(effects[0]) then 1 else 0) + CountOf(effects[1..], f)
  }

  function Indicator(b: bool): nat {
    if b then 1 else 0
  }

  lemma CountOfCons(x: Effect, rest: seq<Effect>, f: Effect -> bool)
    ensures CountOf([x] + rest, f) == Indicator(f(x)) + CountOf(rest, f)
  {
    assert ([x] + rest)[1..] == rest;
  }

  // ---------------------------------------------------------------------
  // validateSdkConfig
  // ---------------------------------------------------------------------

  /** The three ways a configuration is rejected, in the order checked. */
  datatype ConfigViolation = SdkTokenNotPresent | PageTypeNotPresent | SdkTokenAndIdTokenPresent {
    function Message(): string {
      match this
      case SdkTokenNotPresent => "script data attribute sdk-client-token is required but was not passed"
      case PageTypeNotPresent => "script data attribute page-type is required but was not passed"
      case SdkTokenAndIdTokenPresent => "use script data attribute sdk-client-token instead of user-id-token"
    }

    /** The `validationDetails` dimension of the metric sent before throwing. */
    function Details(): string {
      match this
      case SdkTokenNotPresent => "sdk_token_not_present"
      case PageTypeNotPresent => "page_type_not_present"
      case SdkTokenAndIdTokenPresent => "sdk_token_and_id_token_present"
    }
  }

  function ConfigErrorMetric(details: string): Effect {
    CountMetric("error", map["errorType" := ConfigurationErrorType, "validationDetails" := details])
  }

  /** The metric and the error of one rejected configuration. */
  function Reject(v: ConfigViolation): Call<()> {
    Call(Failure(Invalid(ValidationError(v.Message()))), [ConfigErrorMetric(v.Details())])
  }

  /** Checks the session's configuration: an SDK token and a page type are
      required, and a user-id token must not be passed. A client token only
      triggers a console warning, which is not part of the model. */
  function ValidateSdkConfig(c: SdkConfig): (r: Call<()>)
    ensures r.result.Success? <==> Truthy(c.sdkToken) && Truthy(c.pageType) && !Truthy(c.userIDToken)
    ensures r.result.Success? ==> r.effects == []
    ensures r.result.Failure? ==>
      && r.result.error.Invalid?
      && |r.effects| == 1 && IsMetric(r.effects[0]) && r.effects[0].event == "error"
  {
    if !Truthy(c.sdkToken) then Reject(SdkTokenNotPresent)
    else if !Truthy(c.pageType) then Reject(PageTypeNotPresent)
    else if Truthy(c.userIDToken) then Reject(SdkTokenAndIdTokenPresent)
    else Call(Success(()), [])
  }

  function SdkConfigChecks(c: SdkConfig): seq<OrderedChecks.Check<ConfigViolation>> {
    [ OrderedChecks.Check(Truthy(c.sdkToken), SdkTokenNotPresent),
      OrderedChecks.Check(Truthy(c.pageType), PageTypeNotPresent),
      OrderedChecks.Check(!Truthy(c.userIDToken), SdkTokenAndIdTokenPresent) ]
  }

  /** The configuration check reports the first violation of the ordered
      list, and the single metric it emits names that same violation. */
  lemma ValidateSdkConfigIsFirstFailure(c: SdkConfig)
    ensures match OrderedChecks.FirstFailure(SdkConfigChecks(c))
            case Pass => ValidateSdkConfig(c) == Call(Success(()), [])
            case Fail(v) => ValidateSdkConfig(c) == Reject(v)
  {
    var checks := SdkConfigChecks(c);
    assert OrderedChecks.FirstFailure(checks[1..][1..][1..]) == Pass;
    assert OrderedChecks.FirstFailure(checks[1..][1..])
        == if checks[2].holds then Pass else Fail(checks[2].error);
    assert OrderedChecks.FirstFailure(checks[1..])
        == if !checks[1].holds then Fail(checks[1].error) else OrderedChecks.FirstFailure(checks[1..][1..]);
  }

  /** A client token never changes the verdict or the metrics. */
  lemma ClientTokenOnlyWarns(c: SdkConfig, clientToken: Option<string>)
    ensures ValidateSdkConfig(c.(clientToken := clientToken)) == ValidateSdkConfig(c)
  {
  }

  // ---------------------------------------------------------------------
  // Reducing the response to two flags
  // ---------------------------------------------------------------------

  /** A method is recommended when the provider reports it both eligible in
      the network and recommended; anything missing reads as false. */
  predicate IsRecommended(m: Option<MethodEligibility>) {
    m.Some? && m.value.eligibleInPaypalNetwork == Some(true) && m.value.recommended == Some(true)
  }

  /** `(m?.eligible_in_paypal_network && m?.recommended) || false`, evaluated
      with JavaScript's value-returning `&&` and `||`. */
  function RecommendedExpression(m: Option<MethodEligibility>): Js.Value {
    var eligible := if m.None? then Undefined else FromOption(m.value.eligibleInPaypalNetwork);
    var recommended := if m.None? then Undefined else FromOption(m.value.recommended);
    Or(And(eligible, recommended), Bool(false))
  }

  /** The source's expression always yields a boolean, and that boolean is
      the eligible-and-recommended rule. */
  lemma RecommendedExpressionAgrees(m: Option<MethodEligibility>)
    ensures RecommendedExpression(m) == Bool(IsRecommended(m))
  {
  }

  /** The two flags, each read off the source's expression for its entry. */
  function Recommendations(methods: EligibleMethods): (r: RecommendedPaymentMethods)
    ensures r.isPayPalRecommended <==> IsRecommended(methods.paypal)
    ensures r.isVenmoRecommended <==> IsRecommended(methods.venmo)
  {
    RecommendedExpressionAgrees(methods.paypal);
    RecommendedExpressionAgrees(methods.venmo);
    RecommendedPaymentMethods(RecommendedExpression(methods.paypal).b, RecommendedExpression(methods.venmo).b)
  }

  /** `can_be_vaulted` and `recommended_priority` play no part. */
  lemma VaultingAndPriorityIgnored(e: MethodEligibility, canBeVaulted: bool, priority: Option<int>)
    ensures IsRecommended(Some(e.(canBeVaulted := canBeVaulted, recommendedPriority := priority)))
         == IsRecommended(Some(e))
  {
  }

  // ---------------------------------------------------------------------
  // getRecommendedPaymentMethods
  // ---------------------------------------------------------------------

  function SuccessMetric(r: RecommendedPaymentMethods): Effect {
    CountMetric("success", map["isPayPalRecommended" := BoolString(r.isPayPalRecommended),
                               "isVenmoRecommended" := BoolString(r.isVenmoRecommended)])
  }

  /** The `catch` block: metric, tracking event and log, in that order. */
  const ApiErrorEffects: seq<Effect> :=
    [CountMetric("error", map["errorType" := ApiErrorType]), Track(ShopperInsightsApiError), ErrorLog(ApiErrorLogName)]

  /** Asks for the recommended payment methods of the shopper in `p`, given
      how the request settles. */
  function GetRecommendedPaymentMethods(s: ShopperSession, p: MerchantPayload, outcome: RequestOutcome)
    : (c: Call<RecommendedPaymentMethods>)
    ensures ValidateMerchantPayload(p).Fail? ==>
      c == Call(Failure(Invalid(ValidateMerchantPayload(p).error)), [])
    ensures ValidateMerchantPayload(p).Pass? ==>
      |c.effects| > 0 && c.effects[0] == SendRequest("POST", CreateRequestPayload(p, s.sdkConfig))
    ensures c.result.Success? <==>
      && ValidateMerchantPayload(p).Pass?
      && outcome.Responded? && outcome.body.Some? && outcome.body.value.eligibleMethods.Some?
    ensures c.result.Success? ==> c.result.value == Recommendations(outcome.body.value.eligibleMethods.value)
    ensures outcome.Rejected? && ValidateMerchantPayload(p).Pass? ==>
      c.result == Failure(RequestRejected(outcome.failure))
    ensures && ValidateMerchantPayload(p).Pass? && outcome.Responded?
            && (outcome.body.None? || outcome.body.value.eligibleMethods.None?) ==>
      c.result == Failure(MissingEligibleMethods)
  {
    match ValidateMerchantPayload(p)
    case Fail(e) => Call(Failure(Invalid(e)), [])
    case Pass =>
      var sent := SendRequest("POST", CreateRequestPayload(p, s.sdkConfig));
      match outcome
      case Rejected(f) => Call(Failure(RequestRejected(f)), [sent] + ApiErrorEffects)
      case Responded(body) =>
        var stored := [sent, StorageSet(StorageKey, true)];
        if body.None? || body.value.eligibleMethods.None? then
          Call(Failure(MissingEligibleMethods), stored + ApiErrorEffects)
        else
          var r := Recommendations(body.value.eligibleMethods.value);
          Call(Success(r), stored + [Track(ShopperInsightsApiSuccess), SuccessMetric(r)])
  }

  /** How many effects of each trace shape satisfy `f`. */
  lemma TraceCount(s: ShopperSession, p: MerchantPayload, outcome: RequestOutcome, f: Effect -> bool)
    requires ValidateMerchantPayload(p).Pass?
    ensures var c := GetRecommendedPaymentMethods(s, p, outcome);
      var sent := Indicator(f(c.effects[0]));
      var failed := Indicator(f(ApiErrorEffects[0])) + Indicator(f(ApiErrorEffects[1])) + Indicator(f(ApiErrorEffects[2]));
      var stored := Indicator(f(StorageSet(StorageKey, true)));
      CountOf(c.effects, f) == match outcome
        case Rejected(_) => sent + failed
        case Responded(body) =>
          if c.result.Failure? then sent + stored + failed
          else sent + stored + Indicator(f(Track(ShopperInsightsApiSuccess))) + Indicator(f(SuccessMetric(c.result.value)))
  {
    var c := GetRecommendedPaymentMethods(s, p, outcome);
    var x := c.effects[0];
    var m, t, l := ApiErrorEffects[0], ApiErrorEffects[1], ApiErrorEffects[2];
    CountOfCons(l, [], f);
    CountOfCons(t, [l], f);
    CountOfCons(m, [t, l], f);
    assert ApiErrorEffects == [m] + [t, l];
    match outcome
    case Rejected(_) =>
      CountOfCons(x, ApiErrorEffects, f);
    case Responded(body) =>
      var store := StorageSet(StorageKey, true);
      if c.result.Failure? {
        assert c.effects == [x] + ([store] + ApiErrorEffects);
        CountOfCons(store, ApiErrorEffects, f);
        CountOfCons(x, [store] + ApiErrorEffects, f);
      } else {
        var track, metric := Track(ShopperInsightsApiSuccess), SuccessMetric(c.result.value);
        assert c.effects == [x] + ([store] + ([track] + [metric]));
        CountOfCons(metric, [], f);
        CountOfCons(track, [metric], f);
        CountOfCons(store, [track] + [metric], f);
        CountOfCons(x, [store] + ([track] + [metric]), f);
      }
  }

  /** A failed request is rethrown unchanged after exactly one `api_error`
      metric, one error tracking event and one error log, and nothing is
      written to session storage. */
  lemma RejectedRequestIsRethrown(s: ShopperSession, p: MerchantPayload, f: RequestFailure)
    requires ValidateMerchantPayload(p).Pass?
    ensures var c := GetRecommendedPaymentMethods(s, p, Rejected(f));
      && c.result == Failure(RequestRejected(f))
      && CountOf(c.effects, IsApiErrorMetric) == 1
      && CountOf(c.effects, IsErrorTrack) == 1
      && CountOf(c.effects, IsErrorLog) == 1
      && CountOf(c.effects, IsStorageWrite) == 0
  {
    TraceCount(s, p, Rejected(f), IsApiErrorMetric);
    TraceCount(s, p, Rejected(f), IsErrorTrack);
    TraceCount(s, p, Rejected(f), IsErrorLog);
    TraceCount(s, p, Rejected(f), IsStorageWrite);
  }

  /** Session storage is written at most once, only after the request got a
      response, and always on success; the write sets the `shopperInsights`
      entry to record that the call was used. */
  lemma StorageWrittenOnlyAfterResponse(s: ShopperSession, p: MerchantPayload, outcome: RequestOutcome)
    ensures var c := GetRecommendedPaymentMethods(s, p, outcome);
      && (CountOf(c.effects, IsStorageWrite) == 1 <==> ValidateMerchantPayload(p).Pass? && outcome.Responded?)
      && (CountOf(c.effects, IsStorageWrite) == 0 <==> !(ValidateMerchantPayload(p).Pass? && outcome.Responded?))
      && (c.result.Success? ==> CountOf(c.effects, IsStorageWrite) == 1)
      && (ValidateMerchantPayload(p).Pass? && outcome.Responded? ==> StorageSet(StorageKey, true) in c.effects)
  {
    if ValidateMerchantPayload(p).Pass? {
      TraceCount(s, p, outcome, IsStorageWrite);
      if outcome.Responded? {
        var c := GetRecommendedPaymentMethods(s, p, outcome);
        assert c.effects[1] == StorageSet(StorageKey, true);
      }
    }
  }

  /** How a call ends once the request is issued: a successful call ends
      with the success transition followed by the flags metric; a throwing
      call ends with the catch block's `api_error` metric, the error
      transition and the `shopper_insights_api_error` log, in that order. */
  lemma TraceEnding(s: ShopperSession, p: MerchantPayload, outcome: RequestOutcome)
    requires ValidateMerchantPayload(p).Pass?
    ensures var c := GetRecommendedPaymentMethods(s, p, outcome);
      && (c.result.Success? ==>
            && |c.effects| >= 2
            && c.effects[|c.effects| - 2..] == [Track(ShopperInsightsApiSuccess), SuccessMetric(c.result.value)])
      && (c.result.Failure? ==>
            && |c.effects| >= 3
            && c.effects[|c.effects| - 3..] ==
                 [ CountMetric("error", map["errorType" := ApiErrorType]),
                   Track(ShopperInsightsApiError),
                   ErrorLog(ApiErrorLogName) ])
  {
    var c := GetRecommendedPaymentMethods(s, p, outcome);
    var sent := SendRequest("POST", CreateRequestPayload(p, s.sdkConfig));
    match outcome
    case Rejected(f) =>
      assert c.effects == [sent] + ApiErrorEffects;
    case Responded(body) =>
      var stored := [sent, StorageSet(StorageKey, true)];
      if body.None? || body.value.eligibleMethods.None? {
        assert c.effects == stored + ApiErrorEffects;
      } else {
        assert c.effects == stored + [Track(ShopperInsightsApiSuccess), SuccessMetric(c.result.value)];
      }
  }

  /** The tracking and logging half of `TelemetryPerRequest`. */
  lemma ErrorTrackAndLog(s: ShopperSession, p: MerchantPayload, outcome: RequestOutcome)
    requires ValidateMerchantPayload(p).Pass?
    ensures var c := GetRecommendedPaymentMethods(s, p, outcome);
      && (c.result.Success? ==>
            && Track(ShopperInsightsApiSuccess) in c.effects
            && CountOf(c.effects, IsErrorTrack) == 0
            && CountOf(c.effects, IsErrorLog) == 0)
      && (c.result.Failure? ==>
            && ErrorLog(ApiErrorLogName) in c.effects
            && CountOf(c.effects, IsErrorTrack) == 1
            && CountOf(c.effects, IsErrorLog) == 1)
  {
    TraceCount(s, p, outcome, IsErrorTrack);
    TraceCount(s, p, outcome, IsErrorLog);
    var c := GetRecommendedPaymentMethods(s, p, outcome);
    if c.result.Success? {
      assert c.effects[2] == Track(ShopperInsightsApiSuccess);
    } else {
      TraceEnding(s, p, outcome);
      assert c.effects[|c.effects| - 1] == ErrorLog(ApiErrorLogName);
    }
  }

  /** Telemetry accompanies every issued request: one count metric and one
      tracking event per request, none when validation stopped the call;
      the metric is an `api_error` exactly when the call threw after
      issuing the request. On success the tracking event is the success
      transition, the metric reports the returned flags, and nothing is
      logged as an error; any throw after issuing the request (a rejection
      or a response without `eligible_methods`) emits one error tracking
      event and one error log. */
  lemma TelemetryPerRequest(s: ShopperSession, p: MerchantPayload, outcome: RequestOutcome)
    ensures var c := GetRecommendedPaymentMethods(s, p, outcome);
      && CountOf(c.effects, IsRequest) == (if ValidateMerchantPayload(p).Pass? then 1 else 0)
      && CountOf(c.effects, IsMetric) == CountOf(c.effects, IsRequest)
      && CountOf(c.effects, IsTrack) == CountOf(c.effects, IsRequest)
      && (c.result.Success? ==> SuccessMetric(c.result.value) in c.effects)
      && (CountOf(c.effects, IsApiErrorMetric) == 1 <==> CountOf(c.effects, IsRequest) == 1 && c.result.Failure?)
      && (c.result.Success? ==>
            && Track(ShopperInsightsApiSuccess) in c.effects
            && CountOf(c.effects, IsErrorTrack) == 0
            && CountOf(c.effects, IsErrorLog) == 0)
      && (CountOf(c.effects, IsRequest) == 1 && c.result.Failure? ==>
            && CountOf(c.effects, IsErrorTrack) == 1
            && CountOf(c.effects, IsErrorLog) == 1)
  {
    if ValidateMerchantPayload(p).Pass? {
      TraceCount(s, p, outcome, IsRequest);
      TraceCount(s, p, outcome, IsMetric);
      TraceCount(s, p, outcome, IsTrack);
      TraceCount(s, p, outcome, IsApiErrorMetric);
      ErrorTrackAndLog(s, p, outcome);
      var c := GetRecommendedPaymentMethods(s, p, outcome);
      if c.result.Success? {
        assert c.effects[3] == SuccessMetric(c.result.value);
        assert !IsApiErrorMetric(SuccessMetric(c.result.value));
      }
    }
  }

  // ---------------------------------------------------------------------
  // Construction and identify
  // ---------------------------------------------------------------------

  /** A new session has no request id yet. */
  function NewShopperSession(c: SdkConfig): (s: ShopperSession)
    ensures s.sdkConfig == c && s.requestId == ""
  {
    ShopperSession(c, "")
  }

  /** A finished `identify`: the session afterwards and what it returned. */
  datatype Step = Step(session: ShopperSession, result: Result<(), Thrown>)

  /** Stores the fingerprint's request id on the session; a fingerprint
      failure propagates unchanged and leaves the session as it was. */
  function Identify(s: ShopperSession, fp: FingerprintOutcome): (r: Step)
    ensures r.session.sdkConfig == s.sdkConfig
    ensures r.result.Success? <==> fp.Identified?
    ensures fp.Identified? ==> r.session.requestId == fp.requestId
    ensures fp.FingerprintRejected? ==> r == Step(s, Failure(FingerprintFailed(fp.failure)))
  {
    match fp
    case Identified(id) => Step(s.(requestId := id), Success(()))
    case FingerprintRejected(f) => Step(s, Failure(FingerprintFailed(f)))
  }

  /** `identify` and `getRecommendedPaymentMethods` are independent: the
      request id never influences the recommendation call. */
  lemma IdentifyIndependentOfRecommendations(s: ShopperSession, fp: FingerprintOutcome, p: MerchantPayload, outcome: RequestOutcome)
    ensures GetRecommendedPaymentMethods(Identify(s, fp).session, p, outcome)
         == GetRecommendedPaymentMethods(s, p, outcome)
  {
  }

  /** The last successful `identify` wins, and repeating one changes nothing. */
  lemma IdentifyLastWins(s: ShopperSession, fp: FingerprintOutcome, id: string)
    ensures Identify(Identify(s, fp).session, Identified(id)) == Identify(s, Identified(id))
  {
  }
}
