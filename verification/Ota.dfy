/** The parts of the OpenTravel Alliance availability messages that carry prices, the request
    parameters and configurations that steer pricing, and the line items it produces. */
module Ota {
  import opened Wrappers

  const FULL_PREPAY: int := 0
  const PARTIAL_PREPAY: int := 1

  const PURPOSE_RENTAL_FEE: int := 1
  const PURPOSE_TAX: int := 7
  const PURPOSE_ADDITIONAL_DISTANCE: int := 8

  const RULE_PREPAY: int := 2

  datatype Params = Params(paymentType: int, pickUpCountry: string, rentalDays: int)

  datatype PaymentRule = PaymentRule(ruleType: int, amount: real, currency: string)

  datatype TaxAmount = TaxAmount(total: real, currency: string, percentage: real, description: string)

  datatype VehicleCharge = VehicleCharge(
    purpose: int, description: string, amount: real, currency: string, includedInRate: bool,
    taxAmounts: seq<TaxAmount>)

  datatype Fee = Fee(purpose: string, description: string, amount: real, currency: string, includedInRate: bool)

  datatype Calculation = Calculation(unitCharge: real, unitName: string)

  /** `required` sits on the priced coverage, `coverageRequired` on the coverage inside it. */
  datatype PricedCoverage = PricedCoverage(
    required: bool, coverageRequired: bool, coverageType: string,
    taxInclusive: bool, includedInRate: bool, amount: Option<real>, currency: string,
    calculations: seq<Calculation>)

  datatype PricedEquip = PricedEquip(equipType: string, amount: real, currency: string, includedInRate: bool)

  datatype TotalCharge = TotalCharge(rateTotalAmount: real, currency: string)

  datatype MakeModel = MakeModel(name: string, code: string)

  // One vehicle of a rates answer.

  datatype VehAvail = VehAvail(core: VehAvailCore, info: VehAvailInfo)

  datatype VehAvailCore = VehAvailCore(
    status: string, vehicle: MakeModel, charges: seq<VehicleCharge>, totalCharge: TotalCharge, fees: seq<Fee>)

  datatype VehAvailInfo = VehAvailInfo(rules: seq<PaymentRule>, coverages: seq<PricedCoverage>)

  // The reservation of a quote answer.

  datatype VehReservation = VehReservation(segmentCore: VehSegmentCore, segmentInfo: VehSegmentInfo)

  datatype VehSegmentCore = VehSegmentCore(
    confID: string, vehicle: MakeModel, charges: seq<VehicleCharge>, fees: seq<Fee>, totalCharge: TotalCharge)

  datatype VehSegmentInfo = VehSegmentInfo(
    rules: seq<PaymentRule>, coverages: seq<PricedCoverage>, locationCode: string)

  /** What pricing looks at in either of them. */
  datatype Offer = Offer(
    name: string, code: string, totalCharge: TotalCharge, charges: seq<VehicleCharge>, fees: seq<Fee>,
    rules: seq<PaymentRule>, coverages: seq<PricedCoverage>)

  datatype HertzConfiguration = HertzConfiguration(
    addTaxToCoverages: Option<seq<string>>, taxExclCoverageCountries: Option<seq<string>>,
    payNowCoverages: Option<seq<string>>, feePayableLocally: Option<map<string, seq<string>>>,
    fpPayFeesLocally: Option<bool>, fpPaynowVehiclePriceWithTax: Option<bool>,
    includeCoveragesInRate: Option<bool>)

  datatype ProfitMaxConfiguration = ProfitMaxConfiguration(
    fpPayFeesLocally: Option<bool>, fpPaynowVehiclePriceWithTax: Option<bool>)

  datatype PriceAmount = PriceAmount(amount: real, currency: string)

  datatype Kind = EQP | VCP | VCT

  datatype ExtraOrFee = ExtraOrFee(
    kind: Kind, code: string, name: string, price: PriceAmount,
    includedInRate: bool, payLocal: bool, mandatory: bool)

  datatype Vehicle = Vehicle(name: string, code: string, price: PriceAmount, extrasAndFees: seq<ExtraOrFee>)

  /** A vehicle, or the message of why there is none. */
  datatype Parsed = Priced(vehicle: Vehicle) | Unpriced(message: string)

  predicate IsPartialPayment(params: Params) {
    params.paymentType == PARTIAL_PREPAY
  }

  predicate IsFullPayment(params: Params) {
    params.paymentType == FULL_PREPAY
  }

  predicate FullWithoutPaymentRules(params: Params, rules: seq<PaymentRule>) {
    IsFullPayment(params) && rules == []
  }

  /** Full prepay whose first payment rule is the prepay rule. */
  predicate FullByPrepayRule(params: Params, rules: seq<PaymentRule>) {
    IsFullPayment(params) && rules != [] && rules[0].ruleType == RULE_PREPAY
  }

  function AvailOffer(v: VehAvail): Offer {
    Offer(v.core.vehicle.name, v.core.vehicle.code, v.core.totalCharge, v.core.charges, v.core.fees,
          v.info.rules, v.info.coverages)
  }

  function ReservationOffer(r: VehReservation): Offer {
    Offer(r.segmentCore.vehicle.name, r.segmentCore.vehicle.code, r.segmentCore.totalCharge, r.segmentCore.charges,
          r.segmentCore.fees, r.segmentInfo.rules, r.segmentInfo.coverages)
  }

  /** The two answers agree on everything they both carry. */
  predicate SameData(v: VehAvail, r: VehReservation) {
    && v.core.vehicle == r.segmentCore.vehicle
    && v.core.totalCharge == r.segmentCore.totalCharge
    && v.core.charges == r.segmentCore.charges && v.core.fees == r.segmentCore.fees
    && v.info.rules == r.segmentInfo.rules && v.info.coverages == r.segmentInfo.coverages
  }

  // ---- Decimal and upper-case text

  function Itoa(n: int): string
    decreases if n < 0 then 1 - n else n
  {
    if n < 0 then "-" + Itoa(-n)
    else if n < 10 then [('0' as int + n) as char]
    else Itoa(n / 10) + [('0' as int + n % 10) as char]
  }

  function ToUpper(s: string): string {
    seq(|s|, i requires 0 <= i < |s| => if 'a' <= s[i] <= 'z' then (s[i] as int - 32) as char else s[i])
  }

  /** Only small ASCII letters change, and none is left. */
  lemma UpperCase(s: string)
    ensures |ToUpper(s)| == |s| && forall i | 0 <= i < |s| ::
              && !('a' <= ToUpper(s)[i] <= 'z')
              && (ToUpper(s)[i] == s[i] || ('a' <= s[i] <= 'z' && ToUpper(s)[i] as int == s[i] as int - 32))
  {
  }

  lemma {:induction false} DecimalDigits(n: nat)
    ensures Itoa(n) != "" && forall i | 0 <= i < |Itoa(n)| :: '0' <= Itoa(n)[i] <= '9'
  {
    if n >= 10 {
      DecimalDigits(n / 10);
    }
  }

  lemma {:induction false} DecimalInjective(m: nat, n: nat)
    requires Itoa(m) == Itoa(n)
    ensures m == n
  {
    DecimalDigits(m / 10);
    DecimalDigits(n / 10);
    var a, b := Itoa(m), Itoa(n);
    assert a[|a| - 1] == ('0' as int + m % 10) as char && b[|b| - 1] == ('0' as int + n % 10) as char;
    if m >= 10 && n >= 10 {
      assert a[..|a| - 1] == Itoa(m / 10) && b[..|b| - 1] == Itoa(n / 10);
      DecimalInjective(m / 10, n / 10);
    }
  }

  /** Different numbers print differently. */
  lemma ItoaInjective(m: int, n: int)
    requires Itoa(m) == Itoa(n)
    ensures m == n
  {
    assert n < 0 ==> Itoa(n)[0] == '-';
    if m < 0 {
      DecimalDigits(if n < 0 then -n else n);
      assert Itoa(m)[0] == '-' && Itoa(m)[1..] == Itoa(-m);
      assert n < 0 ==> Itoa(n)[1..] == Itoa(-n);
      DecimalInjective(-m, if n < 0 then -n else -m);
    } else {
      DecimalDigits(m);
      DecimalInjective(m, if n < 0 then m else n);
    }
  }
}
