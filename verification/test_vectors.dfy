/** The cases of src/api/shopper-insights/validation.test.js, proved about
    the model, plus a response-reduction case. */
module TestVectors {
  import opened Wrappers
  import opened Validation
  import opened Session

  const TestEmail := "email@test.com"
  const TestPhone := Phone(Some("1"), Some("2345678901"))

  /** A short single-line string with an inner `@` is a valid email. */
  lemma ShortEmailAccepted(s: string, i: int)
    requires 2 * |s| < MaxEmailLength && NoLineTerminator(s) && 0 < i < |s| - 1 && s[i] == '@'
    ensures IsValidEmailFormat(s)
  {
  }

  lemma TestEmailIsValid()
    ensures IsValidEmailFormat(TestEmail)
  {
    ShortEmailAccepted(TestEmail, 5);
  }

  lemma EmailOnlyPasses()
    ensures ValidateMerchantPayload(MerchantPayload(Some(TestEmail), None)) == Pass
  {
    TestEmailIsValid();
  }

  lemma TestPhoneIsValid()
    ensures IsValidPhoneNumberFormat(TestPhone.nationalNumber.value)
  {
    assert DigitWindowAt(TestPhone.nationalNumber.value, 0);
  }

  lemma PhoneOnlyPasses()
    ensures ValidateMerchantPayload(MerchantPayload(None, Some(TestPhone))) == Pass
  {
    TestPhoneIsValid();
  }

  lemma EmailAndPhonePass()
    ensures ValidateMerchantPayload(MerchantPayload(Some(TestEmail), Some(TestPhone))) == Pass
  {
    TestEmailIsValid();
    TestPhoneIsValid();
  }

  /** `{}` and an undefined payload (both `MerchantPayload(None, None)`),
      empty phone fields, and `{ phone: {} }`. */
  lemma MissingContactCases()
    ensures ValidateMerchantPayload(MerchantPayload(None, None)) == Fail(ValidationError(MissingContactMessage))
    ensures ValidateMerchantPayload(MerchantPayload(None, Some(Phone(Some(""), Some("")))))
         == Fail(ValidationError(MissingContactMessage))
    ensures ValidateMerchantPayload(MerchantPayload(None, Some(Phone(None, None))))
         == Fail(ValidationError(MissingContactMessage))
  {
  }

  /** Separators break the digit run: "2.354" and "2-354" are rejected. */
  lemma SeparatedPhoneNumbersFail()
    ensures ValidateMerchantPayload(MerchantPayload(None, Some(Phone(Some("1"), Some("2.354")))))
         == Fail(ValidationError(InvalidPhoneMessage))
    ensures ValidateMerchantPayload(MerchantPayload(None, Some(Phone(Some("1"), Some("2-354")))))
         == Fail(ValidationError(InvalidPhoneMessage))
  {
    assert !IsValidPhoneNumberFormat("2.354") by {
      assert !Js.IsAsciiDigit("2.354"[1]);
    }
    assert !IsValidPhoneNumberFormat("2-354") by {
      assert !Js.IsAsciiDigit("2-354"[1]);
    }
  }

  lemma EmailWithoutAtFails()
    ensures ValidateMerchantPayload(MerchantPayload(Some("123"), None)) == Fail(ValidationError(InvalidEmailMessage))
  {
  }

  /** PayPal eligible and recommended, Venmo missing entirely. */
  lemma PayPalOnlyRecommended(canBeVaulted: bool)
    ensures Recommendations(EligibleMethods(Some(MethodEligibility(canBeVaulted, Some(true), Some(true), None)), None))
         == RecommendedPaymentMethods(true, false)
  {
  }
}
