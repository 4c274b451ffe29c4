/** The request body builder `createRecommendedPaymentMethodsRequestPayload`
    (src/api/shopper-insights/shopperSession.js): the SDK configuration it
    reads and the wire-shaped request it produces. */
module RequestPayload {
  import opened Wrappers
  import opened Js
  import opened Validation

  /** The SDK configuration of a shopper session. Optional entries are the
      ones the source types as nullable. */
  datatype SdkConfig = SdkConfig(
    sdkToken: Option<string>,
    pageType: Option<string>,
    userIDToken: Option<string>,
    clientToken: Option<string>,
    paypalApiDomain: string,
    environment: Option<string>,
    buyerCountry: string,
    currency: string)

  const Production := "production"

  /** A missing environment is not "production". */
  predicate IsProduction(c: SdkConfig) {
    c.environment == Some(Production)
  }

  /** `customer.phone` on the wire: `country_code`, `national_number`. */
  datatype PhoneRequest = PhoneRequest(countryCode: string, nationalNumber: string)

  /** `customer`: `country_code`, `email` and `phone` are each optional. */
  datatype Customer = Customer(countryCode: Option<string>, email: Option<string>, phone: Option<PhoneRequest>)

  /** One `purchase_units` entry: `amount.currency_code`. */
  datatype PurchaseUnit = PurchaseUnit(currencyCode: string)

  /** The request body; `includeAccountDetails` is
      `preferences.include_account_details`. */
  datatype RecommendationRequest = RecommendationRequest(
    customer: Customer,
    purchaseUnits: seq<PurchaseUnit>,
    includeAccountDetails: bool)

  /** Builds the request body from the merchant payload and the config.
      Each customer field is present only under its own condition. */
  function CreateRequestPayload(p: MerchantPayload, c: SdkConfig): (r: RecommendationRequest)
    ensures r.customer.countryCode.Some? <==> !IsProduction(c)
    ensures r.customer.countryCode.Some? ==> r.customer.countryCode.value == c.buyerCountry
    ensures r.customer.email.Some? <==> HasEmail(p)
    ensures r.customer.email.Some? ==> r.customer.email == p.email
    ensures r.customer.phone.Some? <==> HasPhoneNumber(p)
    ensures r.customer.phone.Some? ==>
      && Some(r.customer.phone.value.countryCode) == p.phone.value.countryCode
      && Some(r.customer.phone.value.nationalNumber) == p.phone.value.nationalNumber
    ensures |r.purchaseUnits| == 1 && r.purchaseUnits[0].currencyCode == c.currency
    ensures r.includeAccountDetails
  {
    var customer := Customer(
      if !IsProduction(c) then Some(c.buyerCountry) else None,
      if HasEmail(p) then p.email else None,
      if HasPhoneNumber(p)
      then Some(PhoneRequest(p.phone.value.countryCode.value, p.phone.value.nationalNumber.value))
      else None);
    RecommendationRequest(customer, [PurchaseUnit(c.currency)], true)
  }

  /** Reads the shopper's contact details back out of a request customer,
      renaming the wire fields to the merchant-payload names. */
  function ContactOf(customer: Customer): MerchantPayload {
    MerchantPayload(
      customer.email,
      match customer.phone
      case None => None
      case Some(ph) => Some(Phone(Some(ph.countryCode), Some(ph.nationalNumber))))
  }

  /** Round trip: the request carries exactly the normalized contact
      details of the payload, with no value changed. */
  lemma RequestCarriesContact(p: MerchantPayload, c: SdkConfig)
    ensures ContactOf(CreateRequestPayload(p, c).customer) == Normalize(p)
  {
  }

  /** For a payload that passes validation and has no empty fields, the
      request loses nothing of the shopper's contact details. */
  lemma RequestPreservesValidatedContact(p: MerchantPayload, c: SdkConfig)
    requires ValidateMerchantPayload(p) == Pass
    requires p.email.Some? ==> p.email.value != ""
    requires p.phone.Some? ==> Truthy(p.phone.value.countryCode) && Truthy(p.phone.value.nationalNumber)
    ensures ContactOf(CreateRequestPayload(p, c).customer) == p
  {
    RequestCarriesContact(p, c);
  }

  /** Two payloads give the same request iff they agree once normalized. */
  lemma RequestDeterminedByNormalizedContact(p: MerchantPayload, q: MerchantPayload, c: SdkConfig)
    ensures CreateRequestPayload(p, c) == CreateRequestPayload(q, c) <==> Normalize(p) == Normalize(q)
  {
    if CreateRequestPayload(p, c) == CreateRequestPayload(q, c) {
      RequestCarriesContact(p, c);
      RequestCarriesContact(q, c);
    }
  }

  /** The request depends on the configuration only through whether the
      environment is production, the buyer country and the currency. */
  lemma RequestReadsOnlyCountryAndCurrency(p: MerchantPayload, c: SdkConfig, d: SdkConfig)
    requires IsProduction(c) == IsProduction(d)
    requires !IsProduction(c) ==> c.buyerCountry == d.buyerCountry
    requires c.currency == d.currency
    ensures CreateRequestPayload(p, c) == CreateRequestPayload(p, d)
  {
  }
}
