/** Hertz: fees, coverages, and the assembly of price and line items in rates and in quotes. */
module HertzPricing {
  import opened Wrappers
  import opened Ota
  import opened OtaPricing
  import opened Selection

  datatype FeeInclusion = FeesIncluded | FeesNotIncludedPayNow | FeesNotIncludedPayLocally | FeesUnknown

  datatype CoverageInclusion =
    | CoverageIncluded | CoverageNotIncluded | CoverageNotIncludedPayNow | CoverageUnknown

  predicate MapContains(m: map<string, seq<string>>, key: string, e: string) {
    key in m && e in m[key]
  }

  // ---- Fees

  function FeeIncludedType(fee: Fee, params: Params,
                           config: HertzConfiguration, rules: seq<PaymentRule>): FeeInclusion
  {
    if IsFullPayment(params) then
      if MapContains(config.feePayableLocally.GetOr(map[]), ToUpper(fee.description), params.pickUpCountry) then
        FeesNotIncludedPayLocally
      else if |rules| > 0 && rules[0].ruleType == RULE_PREPAY then FeesIncluded
      else if config.fpPayFeesLocally.GetOr(false) then FeesNotIncludedPayLocally
      else FeesNotIncludedPayNow
    else if IsPartialPayment(params) then
      if fee.includedInRate then FeesIncluded else FeesUnknown
    else FeesUnknown
  }

  /** A fee is part of the rate, or paid on the spot, or paid now; never the first two at once. */
  function FeeLine(fee: Fee, inclusion: FeeInclusion): ExtraOrFee {
    ExtraOrFee(VCP, fee.purpose, fee.description, PriceAmount(fee.amount, fee.currency),
               inclusion.FeesIncluded?, inclusion.FeesNotIncludedPayLocally? || inclusion.FeesUnknown?, true)
  }

  function FeeLines(fees: seq<Fee>, params: Params,
                    config: HertzConfiguration, rules: seq<PaymentRule>): seq<ExtraOrFee>
  {
    seq(|fees|, i requires 0 <= i < |fees| => FeeLine(fees[i], FeeIncludedType(fees[i], params, config, rules)))
  }

  method Fees(fees: seq<Fee>, params: Params, config: HertzConfiguration, rules: seq<PaymentRule>)
    returns (lines: seq<ExtraOrFee>)
    ensures lines == FeeLines(fees, params, config, rules)
    ensures |lines| == |fees|
    ensures forall i | 0 <= i < |fees| ::
              && lines[i].kind == VCP && lines[i].code == fees[i].purpose && lines[i].name == fees[i].description
              && lines[i].price == PriceAmount(fees[i].amount, fees[i].currency) && lines[i].mandatory
    ensures forall i | 0 <= i < |fees| ::
              var local := config.feePayableLocally.Some? && var m := config.feePayableLocally.value;
                           ToUpper(fees[i].description) in m && params.pickUpCountry in m[ToUpper(fees[i].description)];
              var byRule := rules != [] && rules[0].ruleType == 2;
              if params.paymentType == 0 then
                && lines[i].includedInRate == (!local && byRule)
                && lines[i].payLocal == (local || (!byRule && config.fpPayFeesLocally == Some(true)))
              else
                && lines[i].includedInRate == (params.paymentType == 1 && fees[i].includedInRate)
                && lines[i].payLocal == !lines[i].includedInRate
  {
    var made := new ExtraOrFee[|fees|];
    var i := 0;
    for k := 0 to |fees|
      invariant i == k
      invariant forall j | 0 <= j < k :: made[j] == FeeLine(fees[j], FeeIncludedType(fees[j], params, config, rules))
    {
      var fee := fees[k];
      var includedInRate, payLocal := false, false;
      match FeeIncludedType(fee, params, config, rules) {
        case FeesIncluded => includedInRate, payLocal := true, false;
        case FeesNotIncludedPayNow => includedInRate, payLocal := false, false;
        case FeesNotIncludedPayLocally => includedInRate, payLocal := false, true;
        case FeesUnknown => includedInRate, payLocal := false, true;
      }
      made[i] := ExtraOrFee(VCP, fee.purpose, fee.description, PriceAmount(fee.amount, fee.currency),
                            includedInRate, payLocal, true);
      i := i + 1;
    }
    lines := made[..];
  }

  // ---- Coverages

  function WhichCoverageIncludedType(c: PricedCoverage, rules: seq<PaymentRule>, params: Params,
                                     config: HertzConfiguration): CoverageInclusion
  {
    if c.coverageType in config.payNowCoverages.GetOr([]) then CoverageNotIncludedPayNow
    else if c.includedInRate then CoverageIncluded
    else if IsFullPayment(params) then
      if |rules| > 0 && rules[0].ruleType == RULE_PREPAY && (c.coverageRequired || c.required) then CoverageIncluded
      else CoverageNotIncluded
    else if IsPartialPayment(params) then CoverageNotIncluded
    else CoverageUnknown
  }

  predicate IsMandatory(c: PricedCoverage) {
    c.includedInRate || c.required || c.coverageRequired
  }

  /** Tax goes on the coverages listed for it, and on the optional ones outside the excluded
      countries, unless the price already includes it. */
  predicate TaxIsAdded(c: PricedCoverage, params: Params, config: HertzConfiguration) {
    && !c.taxInclusive
    && (c.coverageType in config.addTaxToCoverages.GetOr([])
        || (!c.required && params.pickUpCountry !in config.taxExclCoverageCountries.GetOr([])))
  }

  /** The line of one coverage: none when it has no price. */
  function CoverageLine(c: PricedCoverage, taxMultiplier: real, rules: seq<PaymentRule>, params: Params,
                        config: HertzConfiguration): seq<ExtraOrFee>
  {
    var price := PriceBeforeTax(c, params.rentalDays);
    var inclusion := WhichCoverageIncludedType(c, rules, params, config);
    if price.None? then []
    else
      var taxed := if TaxIsAdded(c, params, config)
                   then PriceAmount(Taxed(price.value.amount, taxMultiplier), price.value.currency) else price.value;
      [ExtraOrFee(VCT, c.coverageType, "", taxed,
                  inclusion.CoverageIncluded? || (IsMandatory(c) && config.includeCoveragesInRate.GetOr(false)),
                  inclusion.CoverageNotIncluded? || inclusion.CoverageUnknown?,
                  IsMandatory(c))]
  }

  function CoverageLines(cs: seq<PricedCoverage>, taxMultiplier: real, rules: seq<PaymentRule>, params: Params,
                         config: HertzConfiguration): seq<ExtraOrFee>
  {
    if cs == [] then []
    else CoverageLines(cs[..|cs| - 1], taxMultiplier, rules, params, config)
         + CoverageLine(cs[|cs| - 1], taxMultiplier, rules, params, config)
  }

  /** There is one line for every coverage with a price, in order. */
  lemma CoveragesListed(cs: seq<PricedCoverage>, m: real, rules: seq<PaymentRule>, params: Params,
                        config: HertzConfiguration)
    returns (from: seq<nat>)
    ensures Ascending(from, |cs|) && |from| == |CoverageLines(cs, m, rules, params, config)|
    ensures forall i: nat | i < |cs| ::
              i in from <==>
              cs[i].amount.Some?
              || exists k | 0 <= k < |cs[i].calculations| :: cs[i].calculations[k].unitName in {"Day", "RentalPeriod"}
    ensures forall k | 0 <= k < |from| ::
              var c, line := cs[from[k]], CoverageLines(cs, m, rules, params, config)[k];
              var price := PriceBeforeTax(c, params.rentalDays);
              var payNow := config.payNowCoverages.Some? && c.coverageType in config.payNowCoverages.value;
              var included := !payNow && (c.includedInRate || (params.paymentType == 0 && rules != []
                                && rules[0].ruleType == 2 && (c.required || c.coverageRequired)));
              var listed := config.addTaxToCoverages.Some? && c.coverageType in config.addTaxToCoverages.value;
              var excluded := config.taxExclCoverageCountries.Some?
                              && params.pickUpCountry in config.taxExclCoverageCountries.value;
              && line.kind == VCT && line.code == c.coverageType && line.name == "" && price.Some?
              && line.price.currency == c.currency
              && line.price.amount == (if !c.taxInclusive && (listed || (!c.required && !excluded))
                                       then price.value.amount * m else price.value.amount)
              && line.mandatory == (c.includedInRate || c.required || c.coverageRequired)
              && line.includedInRate == (included || (line.mandatory && config.includeCoveragesInRate == Some(true)))
              && line.payLocal == (!payNow && !included)
  {
    var priced := seq(|cs|, i requires 0 <= i < |cs| => PriceBeforeTax(cs[i], params.rentalDays).Some?);
    from := Raised(priced, |cs|);
    RaisedAscends(priced, |cs|);
    CoverageLinesAt(cs, m, rules, params, config, priced, |cs|);
    assert cs[..|cs|] == cs;
    hide CoverageLines, CoverageLine, Raised, PriceBeforeTax;
    forall i: nat | i < |cs| {
      HasPriceWhen(cs[i], params.rentalDays);
    }
    forall k | 0 <= k < |from| {
      LineOfCoverage(cs[from[k]], m, rules, params, config);
    }
  }

  lemma {:induction false} CoverageLinesAt(cs: seq<PricedCoverage>, m: real, rules: seq<PaymentRule>, params: Params,
                                           config: HertzConfiguration, priced: seq<bool>, n: nat)
    requires n <= |cs| == |priced|
    requires forall i | 0 <= i < |cs| :: priced[i] <==> PriceBeforeTax(cs[i], params.rentalDays).Some?
    ensures var from, lines := Raised(priced, n), CoverageLines(cs[..n], m, rules, params, config);
            && |lines| == |from|
            && forall k | 0 <= k < |from| ::
                 from[k] < n && priced[from[k]] && [lines[k]] == CoverageLine(cs[from[k]], m, rules, params, config)
  {
    if n > 0 {
      CoverageLinesAt(cs, m, rules, params, config, priced, n - 1);
      CoverageLinesStep(cs, n - 1, m, rules, params, config);
      LineOrNone(cs[n - 1], m, rules, params, config);
      hide CoverageLines, CoverageLine, PriceBeforeTax;
    }
  }

  lemma LineOrNone(c: PricedCoverage, m: real, rules: seq<PaymentRule>, params: Params, config: HertzConfiguration)
    ensures |CoverageLine(c, m, rules, params, config)| == if PriceBeforeTax(c, params.rentalDays).Some? then 1 else 0
  {
  }

  lemma LineOfCoverage(c: PricedCoverage, m: real, rules: seq<PaymentRule>, params: Params, config: HertzConfiguration)
    requires PriceBeforeTax(c, params.rentalDays).Some?
    ensures |CoverageLine(c, m, rules, params, config)| == 1
    ensures var line, price := CoverageLine(c, m, rules, params, config)[0], PriceBeforeTax(c, params.rentalDays);
            var payNow := config.payNowCoverages.Some? && c.coverageType in config.payNowCoverages.value;
            var included := !payNow && (c.includedInRate || (params.paymentType == 0 && rules != []
                              && rules[0].ruleType == 2 && (c.required || c.coverageRequired)));
            var listed := config.addTaxToCoverages.Some? && c.coverageType in config.addTaxToCoverages.value;
            var excluded := config.taxExclCoverageCountries.Some?
                            && params.pickUpCountry in config.taxExclCoverageCountries.value;
            && line.kind == VCT && line.code == c.coverageType && line.name == "" && line.price.currency == c.currency
            && line.price.amount == (if !c.taxInclusive && (listed || (!c.required && !excluded))
                                     then price.value.amount * m else price.value.amount)
            && line.mandatory == (c.includedInRate || c.required || c.coverageRequired)
            && line.includedInRate == (included || (line.mandatory && config.includeCoveragesInRate == Some(true)))
            && line.payLocal == (!payNow && !included)
  {
    TaxedIsProduct(PriceBeforeTax(c, params.rentalDays).value.amount, m);
    HasPriceWhen(c, params.rentalDays);
    hide PriceBeforeTax, Taxed;
  }

  /** The part of the coverage prices that moves into the vehicle price. */
  function MovedIntoPrice(lines: seq<ExtraOrFee>, config: HertzConfiguration): real {
    if config.includeCoveragesInRate.GetOr(false) then MandatoryTotal(lines) else 0.0
  }

  lemma CoverageLinesStep(cs: seq<PricedCoverage>, i: nat, taxMultiplier: real, rules: seq<PaymentRule>, params: Params,
                          config: HertzConfiguration)
    requires i < |cs|
    ensures CoverageLines(cs[..i + 1], taxMultiplier, rules, params, config)
         == CoverageLines(cs[..i], taxMultiplier, rules, params, config)
            + CoverageLine(cs[i], taxMultiplier, rules, params, config)
  {
    assert cs[..i + 1][..i] == cs[..i];
  }

  method VehicleCoverages(cs: seq<PricedCoverage>, taxMultiplier: real, rules: seq<PaymentRule>, params: Params,
                          config: HertzConfiguration)
    returns (lines: seq<ExtraOrFee>, priceToBeAdded: real)
    ensures lines == CoverageLines(cs, taxMultiplier, rules, params, config)
    ensures priceToBeAdded == if config.includeCoveragesInRate == Some(true) then MandatoryTotal(lines) else 0.0
  {
    lines, priceToBeAdded := [], 0.0;
    assert cs[..0] == [];
    for i := 0 to |cs|
      invariant lines == CoverageLines(cs[..i], taxMultiplier, rules, params, config)
      invariant priceToBeAdded == MovedIntoPrice(lines, config)
    {
      hide CoverageLines, MandatoryTotal, PriceBeforeTax, Taxed;
      var coverage := cs[i];
      CoverageLinesStep(cs, i, taxMultiplier, rules, params, config);
      assert lines + [] == lines;
      var includedInRate, payLocal := false, true;
      var mandatory := coverage.includedInRate || coverage.required || coverage.coverageRequired;

      match WhichCoverageIncludedType(coverage, rules, params, config) {
        case CoverageIncluded => includedInRate, payLocal := true, false;
        case CoverageNotIncludedPayNow => includedInRate, payLocal := false, false;
        case CoverageNotIncluded => includedInRate, payLocal := false, true;
        case CoverageUnknown => includedInRate, payLocal := false, true;
      }

      var price := CoveragePrice(coverage, params.rentalDays);
      if price.None? {
        continue;
      }
      var amount := price.value.amount;

      var excludedCountries := config.taxExclCoverageCountries.GetOr([]);
      var addTaxToCoverages := config.addTaxToCoverages.GetOr([]);
      if coverage.coverageType in addTaxToCoverages && !coverage.taxInclusive {
        amount := Taxed(amount, taxMultiplier);
      } else if !coverage.taxInclusive && !coverage.required && params.pickUpCountry !in excludedCountries {
        amount := Taxed(amount, taxMultiplier);
      }

      if mandatory && config.includeCoveragesInRate.GetOr(false) {
        priceToBeAdded := priceToBeAdded + amount;
        includedInRate := true;
        mandatory := true;
      }

      var line := ExtraOrFee(VCT, coverage.coverageType, "", PriceAmount(amount, price.value.currency),
                             includedInRate, payLocal, mandatory);
      assert CoverageLine(coverage, taxMultiplier, rules, params, config) == [line];
      TotalSnoc(lines, line);
      lines := lines + [line];
    }
    assert cs[..|cs|] == cs;
  }

  // ---- Assembly

  function TaxOf(offer: Offer, params: Params, config: HertzConfiguration): TaxResult {
    SelectTax(TaxEntries(offer.charges), params, offer.rules,
              config.fpPaynowVehiclePriceWithTax.GetOr(false), config.fpPayFeesLocally.GetOr(false))
  }

  function OptionalLine(item: Option<ExtraOrFee>): seq<ExtraOrFee> {
    if item.Some? then [item.value] else []
  }

  /** All lines but the tax item: extras, charges, fees, coverages. */
  function OtherLines(offer: Offer, extras: seq<PricedEquip>, taxMultiplier: real, params: Params,
                      config: HertzConfiguration): seq<ExtraOrFee>
  {
    ExtraLines(extras, taxMultiplier) + ChargeLines(offer.charges) + FeeLines(offer.fees, params, config, offer.rules)
    + CoverageLines(offer.coverages, taxMultiplier, offer.rules, params, config)
  }

  /** Price and line items in closed form: the base price, times the tax when tax is part of it,
      plus the coverages moved into it; the tax, extras, charges, fees and coverages as lines. */
  function PricedOffer(offer: Offer, extras: seq<PricedEquip>, params: Params, config: HertzConfiguration): Parsed {
    var (base, err) := BasePrice(offer.totalCharge, params, offer.rules);
    if err != "" then Unpriced(err)
    else
      var tax := TaxOf(offer, params, config);
      var coverages := CoverageLines(offer.coverages, tax.multiplier, offer.rules, params, config);
      var rental := if tax.partOfPrice then Taxed(base.amount, tax.multiplier) else base.amount;
      Priced(Vehicle(offer.name, offer.code,
                     PriceAmount(rental + MovedIntoPrice(coverages, config), base.currency),
                     OptionalLine(tax.item) + OtherLines(offer, extras, tax.multiplier, params, config)))
  }

  /** Appending one list after the other. */
  lemma LinesInOrder(item: Option<ExtraOrFee>, extras: seq<ExtraOrFee>, charges: seq<ExtraOrFee>,
                     fees: seq<ExtraOrFee>, coverages: seq<ExtraOrFee>)
    ensures (if item.Some? then [] + [item.value] else []) + extras + charges + fees + coverages
         == OptionalLine(item) + (extras + charges + fees + coverages)
  {
  }

  method ExtrasOf(pricedEquips: seq<PricedEquip>, taxMultiplier: real) returns (extras: seq<ExtraOrFee>)
    ensures extras == ExtraLines(pricedEquips, taxMultiplier)
    ensures |extras| == |pricedEquips|
    ensures forall i | 0 <= i < |pricedEquips| ::
              var e := pricedEquips[i];
              extras[i] == ExtraOrFee(EQP, e.equipType, e.equipType, PriceAmount(e.amount * taxMultiplier, e.currency),
                                      e.includedInRate, !e.includedInRate, false)
  {
    var made := new ExtraOrFee[|pricedEquips|];
    for i := 0 to |pricedEquips|
      invariant forall j | 0 <= j < i :: made[j] == ExtraLine(pricedEquips[j], taxMultiplier)
    {
      made[i] := ExtraLine(pricedEquips[i], taxMultiplier);
    }
    extras := made[..];
  }

  /** The closed form, field by field of the answer. */
  lemma AvailPricing(vehAvail: VehAvail, pricedEquips: seq<PricedEquip>, params: Params, config: HertzConfiguration)
    ensures var parsed := PricedOffer(AvailOffer(vehAvail), pricedEquips, params, config);
            parsed.Priced? ==>
              var v, rules := parsed.vehicle, vehAvail.info.rules;
              var tax := SelectTax(TaxEntries(vehAvail.core.charges), params, rules,
                                   config.fpPaynowVehiclePriceWithTax == Some(true),
                                   config.fpPayFeesLocally == Some(true));
              var base := BasePrice(vehAvail.core.totalCharge, params, rules).0;
              var coverages := CoverageLines(vehAvail.info.coverages, tax.multiplier, rules, params, config);
              && v.name == vehAvail.core.vehicle.name && v.code == vehAvail.core.vehicle.code
              && v.price.currency == base.currency
              && v.price.amount == (if tax.partOfPrice then base.amount * tax.multiplier else base.amount)
                                   + (if config.includeCoveragesInRate == Some(true)
                                      then MandatoryTotal(coverages) else 0.0)
              && v.extrasAndFees == (if tax.item.Some? then [tax.item.value] else [])
                                    + ExtraLines(pricedEquips, tax.multiplier) + ChargeLines(vehAvail.core.charges)
                                    + FeeLines(vehAvail.core.fees, params, config, rules) + coverages
  {
    var tax := TaxOf(AvailOffer(vehAvail), params, config);
    TaxedIsProduct(BasePrice(vehAvail.core.totalCharge, params, vehAvail.info.rules).0.amount, tax.multiplier);
    LinesInOrder(tax.item, ExtraLines(pricedEquips, tax.multiplier), ChargeLines(vehAvail.core.charges),
                 FeeLines(vehAvail.core.fees, params, config, vehAvail.info.rules),
                 CoverageLines(vehAvail.info.coverages, tax.multiplier, vehAvail.info.rules, params, config));
    hide BasePrice, SelectTax, TaxEntries, ChargeLines, CoverageLines, FeeLines, ExtraLines, MandatoryTotal, Taxed;
  }

  /** rates.go: one vehicle of a rates answer. */
  method ParseVehicle(vehAvail: VehAvail, pricedEquips: seq<PricedEquip>, params: Params, config: HertzConfiguration)
    returns (parsed: Parsed)
    ensures parsed == PricedOffer(AvailOffer(vehAvail), pricedEquips, params, config)
  {
    hide BasePrice, SelectTax, TaxEntries, ChargeLines, CoverageLines, FeeLines, ExtraLines, MandatoryTotal, Taxed;
    var extrasAndFees: seq<ExtraOrFee> := [];
    var vehiclePrice, err := Price(vehAvail.core.totalCharge, params, vehAvail.info.rules);
    if err != "" {
      return Unpriced(err);
    }
    var tax := TaxCharge(vehAvail.core.charges, params, vehAvail.info.rules,
                         config.fpPaynowVehiclePriceWithTax.GetOr(false), config.fpPayFeesLocally.GetOr(false));
    if tax.partOfPrice {
      vehiclePrice := vehiclePrice.(amount := Taxed(vehiclePrice.amount, tax.multiplier));
    }
    var charges := Charges(vehAvail.core.charges);
    var coverages, coveragePart :=
      VehicleCoverages(vehAvail.info.coverages, tax.multiplier, vehAvail.info.rules, params, config);
    vehiclePrice := vehiclePrice.(amount := vehiclePrice.amount + coveragePart);
    var fees := Fees(vehAvail.core.fees, params, config, vehAvail.info.rules);
    var extras := ExtrasOf(pricedEquips, tax.multiplier);

    if tax.item.Some? {
      extrasAndFees := extrasAndFees + [tax.item.value];
    }
    extrasAndFees := extrasAndFees + extras;
    extrasAndFees := extrasAndFees + charges;
    extrasAndFees := extrasAndFees + fees;
    extrasAndFees := extrasAndFees + coverages;
    LinesInOrder(tax.item, extras, charges, fees, coverages);
    return Priced(Vehicle(vehAvail.core.vehicle.name, vehAvail.core.vehicle.code, vehiclePrice, extrasAndFees));
  }

  /** The closed form, field by field of the answer. */
  lemma ReservationPricing(reservation: VehReservation, pricedEquips: seq<PricedEquip>,
                           params: Params, config: HertzConfiguration)
    ensures var parsed := PricedOffer(ReservationOffer(reservation), pricedEquips, params, config);
            parsed.Priced? ==>
              var v, rules := parsed.vehicle, reservation.segmentInfo.rules;
              var tax := SelectTax(TaxEntries(reservation.segmentCore.charges), params, rules,
                                   config.fpPaynowVehiclePriceWithTax == Some(true),
                                   config.fpPayFeesLocally == Some(true));
              var base := BasePrice(reservation.segmentCore.totalCharge, params, rules).0;
              var coverages := CoverageLines(reservation.segmentInfo.coverages, tax.multiplier, rules, params, config);
              && v.name == reservation.segmentCore.vehicle.name && v.code == reservation.segmentCore.vehicle.code
              && v.price.currency == base.currency
              && v.price.amount == (if tax.partOfPrice then base.amount * tax.multiplier else base.amount)
                                   + (if config.includeCoveragesInRate == Some(true)
                                      then MandatoryTotal(coverages) else 0.0)
              && v.extrasAndFees == (if tax.item.Some? then [tax.item.value] else [])
                                    + ExtraLines(pricedEquips, tax.multiplier)
                                    + ChargeLines(reservation.segmentCore.charges)
                                    + FeeLines(reservation.segmentCore.fees, params, config, rules) + coverages
  {
    var tax := TaxOf(ReservationOffer(reservation), params, config);
    TaxedIsProduct(BasePrice(reservation.segmentCore.totalCharge, params, reservation.segmentInfo.rules).0.amount,
                   tax.multiplier);
    LinesInOrder(tax.item, ExtraLines(pricedEquips, tax.multiplier), ChargeLines(reservation.segmentCore.charges),
                 FeeLines(reservation.segmentCore.fees, params, config, reservation.segmentInfo.rules),
                 CoverageLines(reservation.segmentInfo.coverages, tax.multiplier, reservation.segmentInfo.rules,
                               params, config));
    hide BasePrice, SelectTax, TaxEntries, ChargeLines, CoverageLines, FeeLines, ExtraLines, MandatoryTotal, Taxed;
  }

  /** quote.go: the reservation of a quote answer. */
  method ParseQuote(reservation: VehReservation, pricedEquips: seq<PricedEquip>,
                    params: Params, config: HertzConfiguration)
    returns (parsed: Parsed)
    ensures parsed == PricedOffer(ReservationOffer(reservation), pricedEquips, params, config)
  {
    hide BasePrice, SelectTax, TaxEntries, ChargeLines, CoverageLines, FeeLines, ExtraLines, MandatoryTotal, Taxed;
    var extrasAndFees: seq<ExtraOrFee> := [];
    var vehiclePrice, err := Price(reservation.segmentCore.totalCharge, params, reservation.segmentInfo.rules);
    if err != "" {
      return Unpriced(err);
    }
    var tax := TaxCharge(reservation.segmentCore.charges, params, reservation.segmentInfo.rules,
                         config.fpPaynowVehiclePriceWithTax.GetOr(false), config.fpPayFeesLocally.GetOr(false));
    if tax.partOfPrice {
      vehiclePrice := vehiclePrice.(amount := Taxed(vehiclePrice.amount, tax.multiplier));
    }
    var charges := Charges(reservation.segmentCore.charges);
    var coverages, coveragePart :=
      VehicleCoverages(reservation.segmentInfo.coverages, tax.multiplier, reservation.segmentInfo.rules,
                       params, config);
    vehiclePrice := vehiclePrice.(amount := vehiclePrice.amount + coveragePart);
    var fees := Fees(reservation.segmentCore.fees, params, config, reservation.segmentInfo.rules);
    var extras := ExtrasOf(pricedEquips, tax.multiplier);

    if tax.item.Some? {
      extrasAndFees := extrasAndFees + [tax.item.value];
    }
    extrasAndFees := extrasAndFees + extras;
    extrasAndFees := extrasAndFees + charges;
    extrasAndFees := extrasAndFees + fees;
    extrasAndFees := extrasAndFees + coverages;
    LinesInOrder(tax.item, extras, charges, fees, coverages);
    return Priced(Vehicle(reservation.segmentCore.vehicle.name, reservation.segmentCore.vehicle.code,
                          vehiclePrice, extrasAndFees));
  }
}
