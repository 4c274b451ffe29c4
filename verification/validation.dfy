/** The merchant-payload validator of the shopper-insights API
    (src/api/shopper-insights/validation.js): presence predicates for the
    shopper's email and phone, the two format checks, and the ordered
    validation that throws on the first failing check. */
module Validation {
  import opened Wrappers
  import opened Js
  import OrderedChecks

  /** The shopper's phone as the merchant passes it. */
  datatype Phone = Phone(countryCode: Option<string>, nationalNumber: Option<string>)

  /** The merchant payload. An `undefined` or `null` payload behaves exactly
      like `{}` in every function of the validator and the request builder,
      so it is represented by `MerchantPayload(None, None)`. */
  datatype MerchantPayload = MerchantPayload(email: Option<string>, phone: Option<Phone>)

  /** The thrown `ValidationError`, reduced to its message. */
  datatype ValidationError = ValidationError(message: string)

  const MissingContactMessage := "Expected either email or phone number for get recommended payment methods"
  const InvalidEmailMessage := "Expected shopper information to include a valid email format"
  const InvalidPhoneMessage := "Expected shopper information to be a valid phone number format"

  /** Emails of this many UTF-16 code units or more are rejected. */
  const MaxEmailLength := 320

  /** `\d{5,}`: the shortest digit run a phone number must contain. */
  const MinDigitRun := 5

  predicate HasEmail(p: MerchantPayload) {
    Truthy(p.email)
  }

  /** Both phone fields present and non-empty: an empty string or a missing
      field counts as no phone at all. */
  predicate HasPhoneNumber(p: MerchantPayload) {
    p.phone.Some? && Truthy(p.phone.value.countryCode) && Truthy(p.phone.value.nationalNumber)
  }

  predicate NoLineTerminator(s: string) {
    forall k :: 0 <= k < |s| ==> !IsLineTerminator(s[k])
  }

  /** Every position in `[i, j)` of `s` holds an ASCII digit. */
  predicate DigitsBetween(s: string, i: int, j: int) {
    0 <= i <= j <= |s| && forall k | i <= k < j :: IsAsciiDigit(s[k])
  }

  /** Five consecutive ASCII digits start at position `i` of `s`. */
  predicate DigitWindowAt(s: string, i: int) {
    DigitsBetween(s, i, i + MinDigitRun)
  }

  /** The email format check: shorter than 320 code units, no line
      terminator, and an `@` with at least one character on each side. */
  predicate IsValidEmailFormat(email: string) {
    && Utf16Length(email) < MaxEmailLength
    && NoLineTerminator(email)
    && exists i | 0 < i < |email| - 1 :: email[i] == '@'
  }

  /** `.+` of a regular expression: one or more characters, none a line terminator. */
  ghost predicate MatchesDotPlus(t: string) {
    |t| >= 1 && NoLineTerminator(t)
  }

  /** `/^.+@.+$/.test(s)`: the whole string splits as `.+`, `@`, `.+`. */
  ghost predicate MatchesEmailRegex(s: string) {
    exists i :: 0 <= i < |s| && s[i] == '@' && MatchesDotPlus(s[..i]) && MatchesDotPlus(s[i + 1..])
  }

  /** The phone format check: some window of five consecutive ASCII digits. */
  predicate IsValidPhoneNumberFormat(phoneNumber: string) {
    exists i | 0 <= i <= |phoneNumber| - MinDigitRun :: DigitWindowAt(phoneNumber, i)
  }

  /** `/\d{5,}/.test(s)`: some run of at least five digits, anywhere. */
  ghost predicate MatchesDigitRunRegex(s: string) {
    exists i, j :: j - i >= MinDigitRun && DigitsBetween(s, i, j)
  }

  /** What a payload must satisfy to pass, stated without an order. */
  predicate ShopperInformationValid(p: MerchantPayload) {
    && (HasEmail(p) || HasPhoneNumber(p))
    && (HasEmail(p) ==> IsValidEmailFormat(p.email.value))
    && (HasPhoneNumber(p) ==> IsValidPhoneNumberFormat(p.phone.value.nationalNumber.value))
  }

  /** Existence first, then the email format, then the phone format. */
  function ValidateMerchantPayload(p: MerchantPayload): (r: Outcome<ValidationError>)
    ensures r.Pass? <==> ShopperInformationValid(p)
    ensures r.Fail? ==> r.error.message in {MissingContactMessage, InvalidEmailMessage, InvalidPhoneMessage}
  {
    if !(HasEmail(p) || HasPhoneNumber(p)) then
      Fail(ValidationError(MissingContactMessage))
    else if HasEmail(p) && !IsValidEmailFormat(p.email.value) then
      Fail(ValidationError(InvalidEmailMessage))
    else if HasPhoneNumber(p) && !IsValidPhoneNumberFormat(p.phone.value.nationalNumber.value) then
      Fail(ValidationError(InvalidPhoneMessage))
    else
      Pass
  }

  /** The three checks of the validator, in the order the source runs them. */
  function MerchantPayloadChecks(p: MerchantPayload): seq<OrderedChecks.Check<ValidationError>> {
    [ OrderedChecks.Check(HasEmail(p) || HasPhoneNumber(p), ValidationError(MissingContactMessage)),
      OrderedChecks.Check(!HasEmail(p) || IsValidEmailFormat(p.email.value), ValidationError(InvalidEmailMessage)),
      OrderedChecks.Check(!HasPhoneNumber(p) || IsValidPhoneNumberFormat(p.phone.value.nationalNumber.value),
                          ValidationError(InvalidPhoneMessage)) ]
  }

  /** The payload as the rest of the code sees it: falsy fields dropped. */
  function Normalize(p: MerchantPayload): (n: MerchantPayload)
    ensures HasEmail(n) == HasEmail(p) && HasPhoneNumber(n) == HasPhoneNumber(p)
    ensures n.email.Some? <==> HasEmail(p)
    ensures n.phone.Some? <==> HasPhoneNumber(p)
    ensures HasEmail(p) ==> n.email == p.email
    ensures HasPhoneNumber(p) ==> n.phone == p.phone
  {
    MerchantPayload(if HasEmail(p) then p.email else None,
                    if HasPhoneNumber(p) then p.phone else None)
  }

  /** Validation only looks at the normalized payload: an empty email or a
      half-filled phone is treated exactly as if it were missing. */
  lemma ValidationSeesNormalizedPayload(p: MerchantPayload)
    ensures ValidateMerchantPayload(Normalize(p)) == ValidateMerchantPayload(p)
  {
  }

  /** The validator is the first failure of its ordered check list: when
      several checks fail, only the earliest is reported. */
  lemma ValidationIsFirstFailure(p: MerchantPayload)
    ensures ValidateMerchantPayload(p) == OrderedChecks.FirstFailure(MerchantPayloadChecks(p))
  {
    var checks := MerchantPayloadChecks(p);
    assert OrderedChecks.FirstFailure(checks[1..][1..][1..]) == Pass;
    assert OrderedChecks.FirstFailure(checks[1..][1..])
        == if checks[2].holds then Pass else Fail(checks[2].error);
    assert OrderedChecks.FirstFailure(checks[1..])
        == if !checks[1].holds then Fail(checks[1].error) else OrderedChecks.FirstFailure(checks[1..][1..]);
  }

  /** Neither contact (e.g. `{}`, an undefined payload, or empty phone
      fields) fails with the existence message, whatever else is passed. */
  lemma MissingContactIsReported(p: MerchantPayload)
    requires !HasEmail(p) && !HasPhoneNumber(p)
    ensures ValidateMerchantPayload(p) == Fail(ValidationError(MissingContactMessage))
  {
  }

  /** A malformed email is reported before any phone problem. */
  lemma EmailErrorBeforePhoneError(p: MerchantPayload)
    requires HasEmail(p) && !IsValidEmailFormat(p.email.value)
    ensures ValidateMerchantPayload(p) == Fail(ValidationError(InvalidEmailMessage))
  {
  }

  /** A malformed phone is reported only when the email is absent or valid. */
  lemma PhoneErrorOnlyAfterEmailPasses(p: MerchantPayload)
    ensures ValidateMerchantPayload(p) == Fail(ValidationError(InvalidPhoneMessage))
        <==> && HasPhoneNumber(p)
             && !IsValidPhoneNumberFormat(p.phone.value.nationalNumber.value)
             && (HasEmail(p) ==> IsValidEmailFormat(p.email.value))
  {
  }

  /** A format check only applies to a field that is present: a valid
      email passes with an absent or empty phone, and a valid phone passes
      with an absent or empty email. */
  lemma FormatChecksOnlyForPresentFields(p: MerchantPayload)
    requires (HasEmail(p) && IsValidEmailFormat(p.email.value)) || (HasPhoneNumber(p) && IsValidPhoneNumberFormat(p.phone.value.nationalNumber.value))
    requires HasEmail(p) ==> IsValidEmailFormat(p.email.value)
    requires HasPhoneNumber(p) ==> IsValidPhoneNumberFormat(p.phone.value.nationalNumber.value)
    ensures ValidateMerchantPayload(p) == Pass
  {
  }

  /** The email check is exactly the regular expression `^.+@.+$` together
      with the length bound. */
  lemma EmailFormatIsRegexMatch(email: string)
    ensures IsValidEmailFormat(email) <==> Utf16Length(email) < MaxEmailLength && MatchesEmailRegex(email)
  {
    if IsValidEmailFormat(email) {
      var i :| 0 < i < |email| - 1 && email[i] == '@';
      assert MatchesDotPlus(email[..i]);
      assert MatchesDotPlus(email[i + 1..]);
    }
    if MatchesEmailRegex(email) {
      var i :| 0 <= i < |email| && email[i] == '@' && MatchesDotPlus(email[..i]) && MatchesDotPlus(email[i + 1..]);
      forall k | 0 <= k < |email|
        ensures !IsLineTerminator(email[k])
      {
        if k < i {
          assert email[k] == email[..i][k];
        } else if k > i {
          assert email[k] == email[i + 1..][k - i - 1];
        }
      }
    }
  }

  /** The phone check is exactly the regular expression `\d{5,}`: a run of
      five or more digits exists iff a window of exactly five does. */
  lemma PhoneFormatIsRegexMatch(phoneNumber: string)
    ensures IsValidPhoneNumberFormat(phoneNumber) <==> MatchesDigitRunRegex(phoneNumber)
  {
    if IsValidPhoneNumberFormat(phoneNumber) {
      var i :| 0 <= i <= |phoneNumber| - MinDigitRun && DigitWindowAt(phoneNumber, i);
      assert DigitsBetween(phoneNumber, i, i + MinDigitRun);
    }
    if MatchesDigitRunRegex(phoneNumber) {
      var i, j :| j - i >= MinDigitRun && DigitsBetween(phoneNumber, i, j);
      assert DigitWindowAt(phoneNumber, i);
    }
  }

  /** A single left-to-right pass that tracks the length of the current
      digit run, as a regular-expression engine does for `\d{5,}`. */
  method ScanPhoneNumber(phoneNumber: string) returns (found: bool)
    ensures found <==> IsValidPhoneNumberFormat(phoneNumber)
  {
    var run := 0;
    var k := 0;
    while k < |phoneNumber|
      invariant 0 <= k <= |phoneNumber|
      invariant 0 <= run < MinDigitRun && run <= k
      invariant DigitsBetween(phoneNumber, k - run, k)
      invariant k - run == 0 || !IsAsciiDigit(phoneNumber[k - run - 1])
      invariant forall i :: 0 <= i <= k - MinDigitRun ==> !DigitWindowAt(phoneNumber, i)
    {
      if IsAsciiDigit(phoneNumber[k]) {
        run := run + 1;
        k := k + 1;
        if run == MinDigitRun {
          assert DigitWindowAt(phoneNumber, k - MinDigitRun);
          return true;
        }
      } else {
        forall i | 0 <= i <= k + 1 - MinDigitRun
          ensures !DigitWindowAt(phoneNumber, i)
        {
          if i > k - MinDigitRun {
            if i < k - run {
              assert !IsAsciiDigit(phoneNumber[k - run - 1]);
            } else {
              assert !IsAsciiDigit(phoneNumber[k]);
            }
          }
        }
        run := 0;
        k := k + 1;
      }
    }
    return false;
  }
}
