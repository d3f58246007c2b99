/** ProfitMax: its own variants of fees, coverages and the assembly of price and line items. */
module ProfitMaxPricing {
  import opened Ota
  import opened OtaPricing
  import opened Selection
  import opened Wrappers
  import H = HertzPricing

  /** The map of locally payable fees is always empty here. */
  function FeeIncludedType(fee: Fee, params: Params, rules: seq<PaymentRule>): H.FeeInclusion {
    if IsFullPayment(params) then
      if H.MapContains(map[], ToUpper(fee.description), params.pickUpCountry) then H.FeesNotIncludedPayLocally
      else if |rules| > 0 && rules[0].ruleType == RULE_PREPAY then H.FeesIncluded
      else H.FeesNotIncludedPayNow
    else if IsPartialPayment(params) then
      if fee.includedInRate then H.FeesIncluded else H.FeesUnknown
    else H.FeesUnknown
  }

  function FeeLines(fees: seq<Fee>, params: Params, rules: seq<PaymentRule>): seq<ExtraOrFee> {
    seq(|fees|, i requires 0 <= i < |fees| => H.FeeLine(fees[i], FeeIncludedType(fees[i], params, rules)))
  }

  method Fees(fees: seq<Fee>, params: Params, rules: seq<PaymentRule>) returns (lines: seq<ExtraOrFee>)
    ensures lines == FeeLines(fees, params, rules)
    ensures |lines| == |fees|
    ensures forall i | 0 <= i < |fees| ::
              var byRule := rules != [] && rules[0].ruleType == 2;
              && lines[i].kind == VCP && lines[i].code == fees[i].purpose && lines[i].name == fees[i].description
              && lines[i].price == PriceAmount(fees[i].amount, fees[i].currency) && lines[i].mandatory
              && lines[i].includedInRate == ((params.paymentType == 0 && byRule)
                                             || (params.paymentType == 1 && fees[i].includedInRate))
              && lines[i].payLocal == (params.paymentType != 0 && !lines[i].includedInRate)
  {
    var made := new ExtraOrFee[|fees|];
    var i := 0;
    for k := 0 to |fees|
      invariant i == k
      invariant forall j | 0 <= j < k :: made[j] == H.FeeLine(fees[j], FeeIncludedType(fees[j], params, rules))
    {
      var fee := fees[k];
      var includedInRate, payLocal := false, false;
      match FeeIncludedType(fee, params, rules) {
        case FeesIncluded => includedInRate, payLocal := true, false;
        case FeesNotIncludedPayNow => includedInRate, payLocal := false, false;
        case FeesNotIncludedPayLocally => includedInRate, payLocal := false, true;
        case FeesUnknown => includedInRate, payLocal := false, true;
      }
      made[i] := ExtraOrFee(VCP, fee.purpose, fee.description, PriceAmount(fee.amount, fee.currency),
                            includedInRate, payLocal, true);
      i := i + 1;
    }
    lines := made[..];
  }

  function WhichCoverageIncludedType(c: PricedCoverage, rules: seq<PaymentRule>, params: Params): H.CoverageInclusion {
    if c.includedInRate then H.CoverageIncluded
    else if IsFullPayment(params) then
      if |rules| > 0 && rules[0].ruleType == RULE_PREPAY && (c.coverageRequired || c.required) then H.CoverageIncluded
      else H.CoverageNotIncluded
    else if IsPartialPayment(params) then H.CoverageNotIncluded
    else H.CoverageUnknown
  }

  /** Every price without tax gets it, and every mandatory coverage is in the rate. */
  function CoverageLine(c: PricedCoverage, taxMultiplier: real, rules: seq<PaymentRule>,
                        params: Params): seq<ExtraOrFee>
  {
    var price := PriceBeforeTax(c, params.rentalDays);
    var inclusion := WhichCoverageIncludedType(c, rules, params);
    if price.None? then []
    else
      var taxed := if !c.taxInclusive then PriceAmount(Taxed(price.value.amount, taxMultiplier), price.value.currency)
                   else price.value;
      [ExtraOrFee(VCT, c.coverageType, "", taxed, inclusion.CoverageIncluded? || H.IsMandatory(c),
                  inclusion.CoverageNotIncluded? || inclusion.CoverageUnknown?, H.IsMandatory(c))]
  }

  function CoverageLines(cs: seq<PricedCoverage>, taxMultiplier: real, rules: seq<PaymentRule>,
                         params: Params): seq<ExtraOrFee>
  {
    if cs == [] then []
    else CoverageLines(cs[..|cs| - 1], taxMultiplier, rules, params)
         + CoverageLine(cs[|cs| - 1], taxMultiplier, rules, params)
  }

  lemma CoverageLinesStep(cs: seq<PricedCoverage>, i: nat, taxMultiplier: real, rules: seq<PaymentRule>, params: Params)
    requires i < |cs|
    ensures CoverageLines(cs[..i + 1], taxMultiplier, rules, params)
         == CoverageLines(cs[..i], taxMultiplier, rules, params) + CoverageLine(cs[i], taxMultiplier, rules, params)
  {
    assert cs[..i + 1][..i] == cs[..i];
  }

  /** There is one line for every coverage with a price, in order. */
  lemma CoveragesListed(cs: seq<PricedCoverage>, m: real, rules: seq<PaymentRule>, params: Params)
    returns (from: seq<nat>)
    ensures Ascending(from, |cs|) && |from| == |CoverageLines(cs, m, rules, params)|
    ensures forall i: nat | i < |cs| ::
              i in from <==>
              cs[i].amount.Some?
              || exists k | 0 <= k < |cs[i].calculations| :: cs[i].calculations[k].unitName in {"Day", "RentalPeriod"}
    ensures forall k | 0 <= k < |from| ::
              var c, line := cs[from[k]], CoverageLines(cs, m, rules, params)[k];
              var price := PriceBeforeTax(c, params.rentalDays);
              var included := c.includedInRate || (params.paymentType == 0 && rules != [] && rules[0].ruleType == 2
                                                   && (c.required || c.coverageRequired));
              && line.kind == VCT && line.code == c.coverageType && line.name == "" && price.Some?
              && line.price.currency == c.currency
              && line.price.amount == (if c.taxInclusive then price.value.amount else price.value.amount * m)
              && line.mandatory == (c.includedInRate || c.required || c.coverageRequired)
              && line.includedInRate == line.mandatory && line.payLocal == !included
  {
    var priced := seq(|cs|, i requires 0 <= i < |cs| => PriceBeforeTax(cs[i], params.rentalDays).Some?);
    from := Raised(priced, |cs|);
    RaisedAscends(priced, |cs|);
    CoverageLinesAt(cs, m, rules, params, priced, |cs|);
    assert cs[..|cs|] == cs;
    hide CoverageLines, CoverageLine, Raised, PriceBeforeTax;
    forall i: nat | i < |cs| {
      HasPriceWhen(cs[i], params.rentalDays);
    }
    forall k | 0 <= k < |from| {
      LineOfCoverage(cs[from[k]], m, rules, params);
    }
  }

  lemma {:induction false} CoverageLinesAt(cs: seq<PricedCoverage>, m: real, rules: seq<PaymentRule>, params: Params,
                                           priced: seq<bool>, n: nat)
    requires n <= |cs| == |priced|
    requires forall i | 0 <= i < |cs| :: priced[i] <==> PriceBeforeTax(cs[i], params.rentalDays).Some?
    ensures var from, lines := Raised(priced, n), CoverageLines(cs[..n], m, rules, params);
            && |lines| == |from|
            && forall k | 0 <= k < |from| ::
                 from[k] < n && priced[from[k]] && [lines[k]] == CoverageLine(cs[from[k]], m, rules, params)
  {
    if n > 0 {
      CoverageLinesAt(cs, m, rules, params, priced, n - 1);
      CoverageLinesStep(cs, n - 1, m, rules, params);
      LineOrNone(cs[n - 1], m, rules, params);
      hide CoverageLines, CoverageLine, PriceBeforeTax;
    }
  }

  lemma LineOrNone(c: PricedCoverage, m: real, rules: seq<PaymentRule>, params: Params)
    ensures |CoverageLine(c, m, rules, params)| == if PriceBeforeTax(c, params.rentalDays).Some? then 1 else 0
  {
  }

  lemma LineOfCoverage(c: PricedCoverage, m: real, rules: seq<PaymentRule>, params: Params)
    requires PriceBeforeTax(c, params.rentalDays).Some?
    ensures |CoverageLine(c, m, rules, params)| == 1
    ensures var line, price := CoverageLine(c, m, rules, params)[0], PriceBeforeTax(c, params.rentalDays);
            var included := c.includedInRate || (params.paymentType == 0 && rules != [] && rules[0].ruleType == 2
                                                 && (c.required || c.coverageRequired));
            && line.kind == VCT && line.code == c.coverageType && line.name == "" && line.price.currency == c.currency
            && line.price.amount == (if c.taxInclusive then price.value.amount else price.value.amount * m)
            && line.mandatory == (c.includedInRate || c.required || c.coverageRequired)
            && line.includedInRate == line.mandatory && line.payLocal == !included
  {
    TaxedIsProduct(PriceBeforeTax(c, params.rentalDays).value.amount, m);
    HasPriceWhen(c, params.rentalDays);
    hide PriceBeforeTax, Taxed;
  }

  method VehicleCoverages(cs: seq<PricedCoverage>, taxMultiplier: real, rules: seq<PaymentRule>, params: Params)
    returns (lines: seq<ExtraOrFee>, priceToBeAdded: real)
    ensures lines == CoverageLines(cs, taxMultiplier, rules, params)
    ensures priceToBeAdded == MandatoryTotal(lines)
  {
    lines, priceToBeAdded := [], 0.0;
    assert cs[..0] == [];
    for i := 0 to |cs|
      invariant lines == CoverageLines(cs[..i], taxMultiplier, rules, params)
      invariant priceToBeAdded == MandatoryTotal(lines)
    {
      hide CoverageLines, MandatoryTotal, PriceBeforeTax, Taxed;
      var coverage := cs[i];
      CoverageLinesStep(cs, i, taxMultiplier, rules, params);
      assert lines + [] == lines;
      var includedInRate, payLocal := false, true;
      var mandatory := coverage.includedInRate || coverage.required || coverage.coverageRequired;

      match WhichCoverageIncludedType(coverage, rules, params) {
        case CoverageIncluded => includedInRate, payLocal := true, false;
        case CoverageNotIncludedPayNow => includedInRate, payLocal := false, false;
        case CoverageNotIncluded => includedInRate, payLocal := false, true;
        case CoverageUnknown => includedInRate, payLocal := false, true;
      }

      var price := CoveragePrice(coverage, params.rentalDays);
      if price.None? {
        continue;
      }
      var amount := price.value.amount;

      if !coverage.taxInclusive {
        amount := Taxed(amount, taxMultiplier);
      } else if !coverage.taxInclusive && !coverage.required {
        amount := Taxed(amount, taxMultiplier);
      }

      if mandatory {
        priceToBeAdded := priceToBeAdded + amount;
        includedInRate := true;
        mandatory := true;
      }

      var line := ExtraOrFee(VCT, coverage.coverageType, "", PriceAmount(amount, price.value.currency),
                             includedInRate, payLocal, mandatory);
      assert CoverageLine(coverage, taxMultiplier, rules, params) == [line];
      TotalSnoc(lines, line);
      lines := lines + [line];
    }
    assert cs[..|cs|] == cs;
  }

  function TaxOf(offer: Offer, params: Params, config: ProfitMaxConfiguration): TaxResult {
    SelectTax(TaxEntries(offer.charges), params, offer.rules,
              config.fpPaynowVehiclePriceWithTax.GetOr(false), config.fpPayFeesLocally.GetOr(false))
  }

  function OtherLines(offer: Offer, extras: seq<PricedEquip>, taxMultiplier: real, params: Params): seq<ExtraOrFee> {
    ExtraLines(extras, taxMultiplier) + ChargeLines(offer.charges) + FeeLines(offer.fees, params, offer.rules)
    + CoverageLines(offer.coverages, taxMultiplier, offer.rules, params)
  }

  function PricedOffer(offer: Offer, extras: seq<PricedEquip>, params: Params, config: ProfitMaxConfiguration): Parsed {
    var (base, err) := BasePrice(offer.totalCharge, params, offer.rules);
    if err != "" then Unpriced(err)
    else
      var tax := TaxOf(offer, params, config);
      var coverages := CoverageLines(offer.coverages, tax.multiplier, offer.rules, params);
      var rental := if tax.partOfPrice then Taxed(base.amount, tax.multiplier) else base.amount;
      Priced(Vehicle(offer.name, offer.code,
                     PriceAmount(rental + MandatoryTotal(coverages), base.currency),
                     H.OptionalLine(tax.item) + OtherLines(offer, extras, tax.multiplier, params)))
  }

  /** The closed form, field by field of the answer. */
  lemma AvailPricing(vehAvail: VehAvail, pricedEquips: seq<PricedEquip>, params: Params, config: ProfitMaxConfiguration)
    ensures var parsed := PricedOffer(AvailOffer(vehAvail), pricedEquips, params, config);
            parsed.Priced? ==>
              var v, rules := parsed.vehicle, vehAvail.info.rules;
              var tax := SelectTax(TaxEntries(vehAvail.core.charges), params, rules,
                                   config.fpPaynowVehiclePriceWithTax == Some(true),
                                   config.fpPayFeesLocally == Some(true));
              var base := BasePrice(vehAvail.core.totalCharge, params, rules).0;
              var coverages := CoverageLines(vehAvail.info.coverages, tax.multiplier, rules, params);
              && v.name == vehAvail.core.vehicle.name && v.code == vehAvail.core.vehicle.code
              && v.price.currency == base.currency
              && v.price.amount == (if tax.partOfPrice then base.amount * tax.multiplier else base.amount)
                                   + MandatoryTotal(coverages)
              && v.extrasAndFees == (if tax.item.Some? then [tax.item.value] else [])
                                    + ExtraLines(pricedEquips, tax.multiplier) + ChargeLines(vehAvail.core.charges)
                                    + FeeLines(vehAvail.core.fees, params, rules) + coverages
  {
    var tax := TaxOf(AvailOffer(vehAvail), params, config);
    TaxedIsProduct(BasePrice(vehAvail.core.totalCharge, params, vehAvail.info.rules).0.amount, tax.multiplier);
    hide BasePrice, SelectTax, TaxEntries, ChargeLines, CoverageLines, FeeLines, ExtraLines, MandatoryTotal, Taxed;
  }

  method ParseVehicle(vehAvail: VehAvail, pricedEquips: seq<PricedEquip>,
                      params: Params, config: ProfitMaxConfiguration)
    returns (parsed: Parsed)
    ensures parsed == PricedOffer(AvailOffer(vehAvail), pricedEquips, params, config)
  {
    hide BasePrice, SelectTax, TaxEntries, ChargeLines, CoverageLines, FeeLines, ExtraLines, MandatoryTotal, Taxed;
    var extrasAndFees: seq<ExtraOrFee> := [];
    var vehiclePrice, err := Price(vehAvail.core.totalCharge, params, vehAvail.info.rules);
    if err != "" {
      return Unpriced(err);
    }
    var tax := TaxCharge(vehAvail.core.charges, params, vehAvail.info.rules,
                         config.fpPaynowVehiclePriceWithTax.GetOr(false), config.fpPayFeesLocally.GetOr(false));
    if tax.partOfPrice {
      vehiclePrice := vehiclePrice.(amount := Taxed(vehiclePrice.amount, tax.multiplier));
    }
    var charges := Charges(vehAvail.core.charges);
    var coverages, coveragePart :=
      VehicleCoverages(vehAvail.info.coverages, tax.multiplier, vehAvail.info.rules, params);
    vehiclePrice := vehiclePrice.(amount := vehiclePrice.amount + coveragePart);
    var fees := Fees(vehAvail.core.fees, params, vehAvail.info.rules);
    var extras := H.ExtrasOf(pricedEquips, tax.multiplier);

    if tax.item.Some? {
      extrasAndFees := extrasAndFees + [tax.item.value];
    }
    extrasAndFees := extrasAndFees + extras;
    extrasAndFees := extrasAndFees + charges;
    extrasAndFees := extrasAndFees + fees;
    extrasAndFees := extrasAndFees + coverages;
    H.LinesInOrder(tax.item, extras, charges, fees, coverages);
    return Priced(Vehicle(vehAvail.core.vehicle.name, vehAvail.core.vehicle.code, vehiclePrice, extrasAndFees));
  }
}
