# Shopper insights: validation and request shaping, in Dafny

A model of the shopper-insights client of the PayPal checkout components.
A merchant passes the shopper's email and/or phone. The client validates
them, builds the body of the "eligible payment methods" request, sends it,
and reduces the answer to two flags: is PayPal recommended, and is Venmo
recommended. The model has three parts:

- **Merchant-payload validator** (`validation.dfy`, module `Validation`).
  It covers the presence predicates `hasEmail` and `hasPhoneNumber`, the
  email and phone format checks, and `validateMerchantPayload`. The checks
  are ordered and the first failure wins.
- **Request builder** (`request_payload.dfy`, module `RequestPayload`).
  This is `createRecommendedPaymentMethodsRequestPayload`. The request is
  a datatype with `Option` fields, so "field present iff condition" can be
  stated and proved.
- **Session client** (`session.dfy`, module `Session`).
  - `validateSdkConfig` checks the SDK configuration.
  - `getRecommendedPaymentMethods` and `identify` are pure functions. The
    collaborators are replaced by values:
    - the settled HTTP request is an input (`RequestOutcome`);
    - the settled fingerprint lookup is an input (`FingerprintOutcome`);
    - everything the client does to the outside world is returned as an
      ordered trace of `Effect`s: the request sent, the session-storage
      write, count metrics, tracking events and error logs.

Supporting modules:

- `Wrappers` holds `Option`, `Result` and `Outcome`.
- `Js` holds the JavaScript semantics the code relies on:
  - truthiness of optional strings;
  - value-returning `&&` and `||`;
  - the line terminators that a regular-expression `.` does not match;
  - `\d`;
  - `String.prototype.length`, counted in UTF-16 code units.
- `OrderedChecks` holds "run checks in order, report the first failure".
  Both validators are proved equal to it.
- `TestVectors` proves the cases of `validation.test.js` about the model.

Modelling choices:

- A JavaScript string is a Dafny `string`. `email.length` is `Utf16Length`,
  where a character outside the Basic Multilingual Plane counts two.
- The regular expressions match per character. The source matches per
  UTF-16 code unit. For `^.+@.+$` and `\d` the result is the same: the two
  halves of a surrogate pair are neither `@`, nor a digit, nor a line
  terminator.
- An `undefined` payload behaves exactly like `{}` in every function here.
  Both are represented by `MerchantPayload(None, None)`.
- Two behaviours of the code worth noting:
  - The session-storage flag is written as soon as the request resolves
    (shopperSession.js:246-248). The destructuring
    `const { paypal, venmo } = body?.eligible_methods` comes after it, at
    line 250. When the response has no `body` or no `eligible_methods`,
    that destructuring throws a `TypeError` inside the `try`. The catch
    block then reports it as an `api_error` and rethrows it. The model does
    the same (`Thrown.MissingEligibleMethods`). So storage is written
    whenever the request got a response, even if the call then throws.
  - The user-id-token rejection is reached only after the SDK-token and
    page-type checks have passed, so it fires exactly when both tokens and
    the page type are present. This is
    why the source's own metric detail for it is
    `sdk_token_and_id_token_present` (shopperSession.js:208).

## Model

| member | source | states |
|---|---|---|
| `Js.Utf16Length` | src/api/shopper-insights/validation.js:14-15 | JavaScript `length` lies between the character count and twice it, and equals the character count when every character is in the Basic Multilingual Plane |
| `Js.And` | src/api/shopper-insights/shopperSession.js:252-255 | JavaScript's `&&` on values is truthy iff both operands are truthy |
| `Js.Or` | src/api/shopper-insights/shopperSession.js:252-255 | JavaScript's logical or on values is truthy iff either operand is truthy |
| `OrderedChecks.FirstFailure` | src/api/shopper-insights/validation.js:20-45 | running checks in order passes iff every check holds; otherwise the reported error is that of the earliest failing check, all before it holding |
| `Validation.HasEmail` | src/api/shopper-insights/validation.js:5-6 | definition: an email is present iff the field exists and is a non-empty string (JavaScript truthiness) |
| `Validation.HasPhoneNumber` | src/api/shopper-insights/validation.js:8-12 | definition: a phone is present iff the phone object exists and both `countryCode` and `nationalNumber` exist and are non-empty |
| `Validation.IsValidEmailFormat` | src/api/shopper-insights/validation.js:14-15 | definition: fewer than 320 UTF-16 code units, no JavaScript line terminator, and an `@` at some position with at least one character before and after it |
| `Validation.IsValidPhoneNumberFormat` | src/api/shopper-insights/validation.js:17-18 | definition: some five consecutive characters are all ASCII digits `0`-`9` |
| `Session.RecommendedExpression` | src/api/shopper-insights/shopperSession.js:252-255 | definition: the source's flag expression for one optional entry, with optional chaining giving `undefined` for a missing entry or field, then `&&` of the two fields and `false` as the fallback of the logical or |
| `Validation.Normalize` | src/api/shopper-insights/validation.js:5-12 | dropping falsy fields keeps a field iff its presence predicate holds, and a kept field keeps its original value: an empty email, and a phone missing or with an empty `countryCode` or `nationalNumber`, count as absent |
| `Validation.ValidateMerchantPayload` | src/api/shopper-insights/validation.js:20-45 | validation passes iff email or phone is present, a present email has a valid format and a present phone has a valid national number; any failure carries one of the three source messages |
| `Validation.ValidationIsFirstFailure` | src/api/shopper-insights/validation.js:20-45 | the validator equals the first failure of the ordered list existence, email format, phone format |
| `Validation.ValidationSeesNormalizedPayload` | src/api/shopper-insights/validation.js:5-12 | validation gives the same verdict on a payload and on its normalized form, so empty strings and `{ phone: {} }` behave as missing fields |
| `Validation.MissingContactIsReported` | src/api/shopper-insights/validation.js:20-27 | with neither email nor phone present, validation fails with "Expected either email or phone number for get recommended payment methods" |
| `Validation.EmailErrorBeforePhoneError` | src/api/shopper-insights/validation.js:29-36 | a present but malformed email yields the email error whatever the phone is |
| `Validation.PhoneErrorOnlyAfterEmailPasses` | src/api/shopper-insights/validation.js:38-45 | the phone error is reported iff a phone is present with a malformed national number and any present email is well-formed |
| `Validation.FormatChecksOnlyForPresentFields` | src/api/shopper-insights/validation.js:29-44 | a format check applies only to a present field: one valid contact passes when the other is absent or empty |
| `Validation.EmailFormatIsRegexMatch` | src/api/shopper-insights/validation.js:14-15 | the email check (length below 320, no line terminator, an `@` with a character on each side) holds iff the length bound holds and the string matches `^.+@.+$` |
| `Validation.PhoneFormatIsRegexMatch` | src/api/shopper-insights/validation.js:17-18 | a window of five consecutive ASCII digits exists iff the string matches `\d{5,}` (some digit run of length five or more) |
| `Validation.ScanPhoneNumber` | src/api/shopper-insights/validation.js:17-18 | a single left-to-right pass that tracks the current digit run finds a run of five iff the phone format check holds |
| `RequestPayload.CreateRequestPayload` | src/api/shopper-insights/shopperSession.js:101-134 | `country_code` (the buyer country) is present iff the environment is not "production", a missing environment counting as non-production; `email` is present iff `hasEmail`; `phone` is present iff `hasPhoneNumber`, with values unchanged; there is exactly one purchase unit with the configured currency; account details are always requested |
| `RequestPayload.RequestCarriesContact` | src/api/shopper-insights/shopperSession.js:113-121 | round trip: reading the contact details back out of the built request, renamed to payload fields, gives exactly the normalized payload |
| `RequestPayload.RequestPreservesValidatedContact` | src/api/shopper-insights/shopperSession.js:113-121 | for a payload that passes validation and has no empty fields, the request carries the payload's contact details without loss |
| `RequestPayload.RequestDeterminedByNormalizedContact` | src/api/shopper-insights/shopperSession.js:101-134 | two payloads give the same request iff their normalized forms are equal |
| `RequestPayload.RequestReadsOnlyCountryAndCurrency` | src/api/shopper-insights/shopperSession.js:101-134 | the request depends on the configuration only through production-or-not, the buyer country and the currency |
| `Session.ValidateSdkConfig` | src/api/shopper-insights/shopperSession.js:171-224 | the configuration is accepted iff the SDK token and page type are present and no user-id token is; acceptance emits nothing; a rejection throws a validation error after exactly one error count metric |
| `Session.ValidateSdkConfigIsFirstFailure` | src/api/shopper-insights/shopperSession.js:171-215 | the check reports the first violation of the ordered list: missing SDK token, then missing page type, then a present user-id token; its single metric names that same violation |
| `Session.ClientTokenOnlyWarns` | src/api/shopper-insights/shopperSession.js:217-223 | a client token never changes the verdict or the metrics of the configuration check |
| `Session.Recommendations` | src/api/shopper-insights/shopperSession.js:250-255 | each flag, read off the source's expression for its entry, holds iff that entry exists and reports both `eligible_in_paypal_network` and `recommended` as true; a missing entry or field gives false |
| `Session.RecommendedExpressionAgrees` | src/api/shopper-insights/shopperSession.js:252-255 | the source's expression, `eligible_in_paypal_network && recommended` with `false` as fallback, evaluated with JavaScript's value-returning operators, always yields a boolean, and that boolean is the eligible-and-recommended rule |
| `Session.VaultingAndPriorityIgnored` | src/api/shopper-insights/shopperSession.js:250-255 | `can_be_vaulted` and `recommended_priority` do not affect a recommendation |
| `Session.GetRecommendedPaymentMethods` | src/api/shopper-insights/shopperSession.js:226-294 | a payload that fails validation is rethrown with no effect at all; otherwise the first effect sends the built request by POST; the call returns iff a response with `eligible_methods` arrived, returning the reduced flags; a rejected request is rethrown unchanged; a response without `body` or `eligible_methods` throws the destructuring `TypeError` |
| `Session.RejectedRequestIsRethrown` | src/api/shopper-insights/shopperSession.js:273-293 | a rejected request is rethrown unchanged after exactly one `api_error` metric, one error tracking event and one error log, and session storage is not written |
| `Session.StorageWrittenOnlyAfterResponse` | src/api/shopper-insights/shopperSession.js:246-248 | session storage is written once iff validation passed and the request got a response, never otherwise, and always when the call returns; the write sets the `shopperInsights` entry to `{ getRecommendedPaymentMethodsUsed: true }` |
| `Session.ErrorTrackAndLog` | src/api/shopper-insights/shopperSession.js:257-293 | once the request is sent: on success the success tracking event is emitted with no error tracking event or error log; on any throw, the `shopper_insights_api_error` log is emitted, with exactly one error tracking event and one error log |
| `Session.TraceEnding` | src/api/shopper-insights/shopperSession.js:257-291 | once the request is sent, a successful call ends with the success tracking event followed by the metric of the returned flags; any throw ends with the `api_error` count metric whose only dimension is `errorType`, then the error tracking event, then the `shopper_insights_api_error` log |
| `Session.TelemetryPerRequest` | src/api/shopper-insights/shopperSession.js:226-294 | the request is sent once iff validation passed; each sent request comes with exactly one count metric and one tracking event; the metric is an `api_error` iff the call threw after sending; on success the tracking event is the success transition, the metric's dimensions report the returned flags, and no error tracking event or error log is emitted; every throw after sending (a rejection, or a response without `eligible_methods`) emits exactly one error tracking event and one error log |
| `Session.NewShopperSession` | src/api/shopper-insights/shopperSession.js:147-169 | a new session keeps its configuration and starts with an empty request id |
| `Session.Identify` | src/api/shopper-insights/shopperSession.js:296-303 | a successful fingerprint stores its request id and returns; a fingerprint failure propagates unchanged and leaves the session as it was; the configuration never changes |
| `Session.IdentifyIndependentOfRecommendations` | src/api/shopper-insights/shopperSession.js:226-303 | `identify` does not influence any later recommendation call |
| `Session.IdentifyLastWins` | src/api/shopper-insights/shopperSession.js:296-303 | after a successful `identify` the session is the same whatever `identify` came before |
| `TestVectors.EmailOnlyPasses` | src/api/shopper-insights/validation.test.js:13-19 | `{ email: "email@test.com" }` passes |
| `TestVectors.PhoneOnlyPasses` | src/api/shopper-insights/validation.test.js:21-30 | a phone with country code "1" and national number "2345678901" passes |
| `TestVectors.EmailAndPhonePass` | src/api/shopper-insights/validation.test.js:32-42 | both together pass |
| `TestVectors.MissingContactCases` | src/api/shopper-insights/validation.test.js:44-78 | `{}`, an undefined payload, empty phone fields and `{ phone: {} }` fail with the existence message |
| `TestVectors.SeparatedPhoneNumbersFail` | src/api/shopper-insights/validation.test.js:80-96 | "2.354" and "2-354" fail with the phone-format message |
| `TestVectors.EmailWithoutAtFails` | src/api/shopper-insights/validation.test.js:98-106 | `{ email: "123" }` fails with the email-format message |
| `TestVectors.PayPalOnlyRecommended` | src/api/shopper-insights/shopperSession.js:250-255 | PayPal eligible and recommended with Venmo missing gives PayPal true and Venmo false |

## Left out

- The HTTP request is not modelled; its settled outcome is an input. The
  URL string and the access token are left out, and the sent request is
  recorded as its method and body only.
- `Date.now` and the response-duration strings are wall-clock values and
  are not modelled.
- The payloads of the collaborator calls are reduced:
  - count metrics keep their event and dimensions but not the metric name
    (`SHOPPER_INSIGHTS_METRIC_NAME`), which is the same for every metric;
  - tracking events keep only whether they are the success or the error
    transition, since the `FPTI_TRANSITION` values are defined elsewhere;
  - error logs keep only their name, not the stringified error.
- The `console.warn` for a client token is left out. It has no effect on
  the result or the trace.
- The fingerprint collaborator is not modelled; its settled outcome is an
  input to `Identify`.
- Ill-formed UTF-16 is not representable: a JavaScript string may hold an
  unpaired surrogate (one code unit, matched by `.`), but a Dafny `char`
  cannot.
- Promises and `await` are modelled as sequential evaluation.
- `ValidationError` is reduced to its message.
- The dynamic-typing branches are not modelled: a non-object payload,
  `typeof email !== "string"`, and a non-string national number. The
  payload datatype makes them impossible.
- The response's optional booleans are `Option<bool>`. A non-boolean truthy
  value would make the source return a non-boolean flag; that case is not
  modelled.
- A collaborator that throws (the session storage, `sendCountMetric`,
  `logger.track`, `logger.error`) is assumed not to. Such a throw inside
  the `try` would re-enter the catch block, and that path is not modelled.
- The session storage is externally owned. Its write is an effect in the
  trace, not a stored map.
- `Session.GetRecommendedPaymentMethods`: its own contract states the
  verdict, the first effect and the result. The number of effects of each
  kind, the success tracking transition and the storage entry are stated by
  `RejectedRequestIsRethrown`, `StorageWrittenOnlyAfterResponse` and
  `TelemetryPerRequest`; `TraceEnding` states the order of the last
  effects (tracking event then metric on success; metric, tracking event
  and log in the catch block). The storage write is stated to be present,
  not to sit exactly between the request and those last effects.
- A request that resolves with `null` or `undefined` instead of a response
  object is not modelled. There `const { body } = await this.request(...)`
  (shopperSession.js:233) throws inside the `try` before the storage write,
  so nothing is stored; `RequestOutcome` has no such case, and
  `Responded(None)` always writes storage.
