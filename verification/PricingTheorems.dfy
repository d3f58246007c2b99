/** Relations between runs of the pricing code: two configurations, and two implementations. */
module PricingTheorems {
  import opened Wrappers
  import opened Ota
  import opened OtaPricing
  import H = HertzPricing
  import P = ProfitMaxPricing

  // ---- When there is a price

  predicate HasPrice(offer: Offer, params: Params) {
    BasePrice(offer.totalCharge, params, offer.rules).1 == ""
  }

  /** A vehicle is priced exactly when the amount its payment type looks at is present: nonzero,
      in a named currency. */
  lemma PricedExactlyWhen(offer: Offer, extras: seq<PricedEquip>, params: Params, config: HertzConfiguration)
    ensures H.PricedOffer(offer, extras, params, config).Priced? <==>
            || ((params.paymentType == 1 || (params.paymentType == 0 && offer.rules == []))
                && offer.totalCharge.currency != "" && offer.totalCharge.rateTotalAmount != 0.0)
            || (params.paymentType == 0 && offer.rules != [] && offer.rules[0].ruleType == 2
                && offer.rules[0].currency != "" && offer.rules[0].amount != 0.0)
    ensures H.PricedOffer(offer, extras, params, config).Priced? ==>
              && BasePrice(offer.totalCharge, params, offer.rules).0.amount != 0.0
              && H.PricedOffer(offer, extras, params, config).vehicle.price.currency != ""
    ensures forall c | H.PricedOffer(offer, extras, params, config).Unpriced? ::
              H.PricedOffer(offer, extras, params, c) == H.PricedOffer(offer, extras, params, config)
  {
    hide SelectTax, TaxEntries, ChargeLines, H.CoverageLines, H.FeeLines, ExtraLines, MandatoryTotal, Taxed, ToUpper;
  }

  // ---- Tax toggle

  /** Putting tax into the vehicle price changes nothing, unless payment is full prepay without
      rules and there is a "Tax" entry. Then the leading tax item goes, base + S becomes
      base * m + S, and every other line item stays as it is. */
  lemma TaxToggle(offer: Offer, extras: seq<PricedEquip>, params: Params, config: HertzConfiguration)
    ensures var off := H.PricedOffer(offer, extras, params, config.(fpPaynowVehiclePriceWithTax := Some(false)));
            var on := H.PricedOffer(offer, extras, params, config.(fpPaynowVehiclePriceWithTax := Some(true)));
            var entries := TaxEntries(offer.charges);
            if HasPrice(offer, params) && params.paymentType == 0 && offer.rules == [] && entries != [] then
              off.Priced? && on.Priced? &&
              var base := offer.totalCharge.rateTotalAmount;
              var coverages := H.CoverageLines(offer.coverages, Multiplier(entries[0]), offer.rules, params, config);
              var moved := H.MovedIntoPrice(coverages, config);
              && off.vehicle.extrasAndFees
                 == [ExtraOrFee(VCP, "7", "Tax", PriceAmount(entries[0].total, entries[0].currency), false,
                                config.fpPayFeesLocally == Some(true), true)]
                    + on.vehicle.extrasAndFees
              && off.vehicle.price == PriceAmount(base + moved, offer.totalCharge.currency)
              && on.vehicle.price
                 == PriceAmount(base * (100.0 + entries[0].percentage) / 100.0 + moved, offer.totalCharge.currency)
            else
              off == on
  {
    TaxToggleByName(offer, extras, params, config);
    assert FullWithoutPaymentRules(params, offer.rules) == (params.paymentType == 0 && offer.rules == []);
    assert config.fpPayFeesLocally.GetOr(false) == (config.fpPayFeesLocally == Some(true));
    hide *;
    if TaxEntries(offer.charges) != [] {
      Percent(offer.totalCharge.rateTotalAmount, TaxEntries(offer.charges)[0], config.fpPayFeesLocally.GetOr(false));
    }
  }

  /** The same, with the names of the pricing code. */
  lemma TaxToggleByName(offer: Offer, extras: seq<PricedEquip>, params: Params, config: HertzConfiguration)
    ensures var off := H.PricedOffer(offer, extras, params, config.(fpPaynowVehiclePriceWithTax := Some(false)));
            var on := H.PricedOffer(offer, extras, params, config.(fpPaynowVehiclePriceWithTax := Some(true)));
            var entries := TaxEntries(offer.charges);
            if HasPrice(offer, params) && FullWithoutPaymentRules(params, offer.rules) && entries != [] then
              off.Priced? && on.Priced? &&
              var base := offer.totalCharge.rateTotalAmount;
              var coverages := H.CoverageLines(offer.coverages, Multiplier(entries[0]), offer.rules, params, config);
              var moved := H.MovedIntoPrice(coverages, config);
              && off.vehicle.extrasAndFees
                 == [TaxLine(entries[0], config.fpPayFeesLocally.GetOr(false))] + on.vehicle.extrasAndFees
              && off.vehicle.price == PriceAmount(base + moved, offer.totalCharge.currency)
              && on.vehicle.price
                 == PriceAmount(Taxed(base, Multiplier(entries[0])) + moved, offer.totalCharge.currency)
            else
              off == on
  {
    var cOff := config.(fpPaynowVehiclePriceWithTax := Some(false));
    var cOn := config.(fpPaynowVehiclePriceWithTax := Some(true));
    TaxChoices(offer, params, config);
    ToggleSettings(offer, extras, H.TaxOf(offer, params, cOff).multiplier, params, config);
    BaseWithoutRules(offer, params);
    Assembled(offer, extras, params, cOff);
    Assembled(offer, extras, params, cOn);
    hide H.PricedOffer, H.CoverageLines, H.OtherLines, H.TaxOf, MandatoryTotal, TaxEntries;
    hide BasePrice, Taxed, Multiplier, TaxLine;
    var rest := H.OtherLines(offer, extras, H.TaxOf(offer, params, cOff).multiplier, params, cOff);
    assert [] + rest == rest;
  }

  /** Tax by its percentage, and the item that states it. */
  lemma Percent(base: real, tax: TaxAmount, payLocal: bool)
    ensures Taxed(base, Multiplier(tax)) == base * (100.0 + tax.percentage) / 100.0
    ensures TaxLine(tax, payLocal)
         == ExtraOrFee(VCP, "7", "Tax", PriceAmount(tax.total, tax.currency), false, payLocal, true)
  {
    var q := tax.percentage / 100.0;
    assert tax.percentage == 100.0 * q;
    assert base * (100.0 + 100.0 * q) == 100.0 * (base * (1.0 + q));
    assert Itoa(7) == "7";
  }

  /** The closed form, with its parts by name. */
  lemma Assembled(offer: Offer, extras: seq<PricedEquip>, params: Params, config: HertzConfiguration)
    ensures var (base, err) := BasePrice(offer.totalCharge, params, offer.rules);
            var tax := H.TaxOf(offer, params, config);
            var coverages := H.CoverageLines(offer.coverages, tax.multiplier, offer.rules, params, config);
            var rental := if tax.partOfPrice then Taxed(base.amount, tax.multiplier) else base.amount;
            var price := PriceAmount(rental + H.MovedIntoPrice(coverages, config), base.currency);
            var lines := H.OptionalLine(tax.item) + H.OtherLines(offer, extras, tax.multiplier, params, config);
            var parsed := H.PricedOffer(offer, extras, params, config);
            parsed == if err != "" then Unpriced(err) else Priced(Vehicle(offer.name, offer.code, price, lines))
  {
  }

  /** What the toggle leaves alone. */
  lemma ToggleSettings(offer: Offer, extras: seq<PricedEquip>, m: real, params: Params, config: HertzConfiguration)
    ensures var cOff := config.(fpPaynowVehiclePriceWithTax := Some(false));
            var cOn := config.(fpPaynowVehiclePriceWithTax := Some(true));
            && H.CoverageLines(offer.coverages, m, offer.rules, params, cOff)
               == H.CoverageLines(offer.coverages, m, offer.rules, params, config)
            && H.CoverageLines(offer.coverages, m, offer.rules, params, cOn)
               == H.CoverageLines(offer.coverages, m, offer.rules, params, config)
            && H.OtherLines(offer, extras, m, params, cOff) == H.OtherLines(offer, extras, m, params, cOn)
  {
    var cOff := config.(fpPaynowVehiclePriceWithTax := Some(false));
    var cOn := config.(fpPaynowVehiclePriceWithTax := Some(true));
    SameFees(offer.fees, params, cOff, cOn, offer.rules);
    SameCoverages(offer.coverages, m, offer.rules, params, cOff, config);
    SameCoverages(offer.coverages, m, offer.rules, params, cOn, config);
  }

  lemma BaseWithoutRules(offer: Offer, params: Params)
    ensures HasPrice(offer, params) && FullWithoutPaymentRules(params, offer.rules) ==>
              BasePrice(offer.totalCharge, params, offer.rules).0
              == PriceAmount(offer.totalCharge.rateTotalAmount, offer.totalCharge.currency)
  {
  }

  /** The tax results with the toggle off and on. */
  lemma TaxChoices(offer: Offer, params: Params, config: HertzConfiguration)
    ensures var off := H.TaxOf(offer, params, config.(fpPaynowVehiclePriceWithTax := Some(false)));
            var on := H.TaxOf(offer, params, config.(fpPaynowVehiclePriceWithTax := Some(true)));
            var entries := TaxEntries(offer.charges);
            if FullWithoutPaymentRules(params, offer.rules) && entries != [] then
              && off == TaxResult(Multiplier(entries[0]),
                               Some(TaxLine(entries[0], config.fpPayFeesLocally.GetOr(false))), false)
              && on == TaxResult(Multiplier(entries[0]), None, true)
            else off == on && !off.partOfPrice
  {
  }

  /** Coverage lines do not look at the tax and fee settings. */
  lemma {:induction false} SameCoverages(cs: seq<PricedCoverage>, m: real, rules: seq<PaymentRule>, params: Params,
                                         c: HertzConfiguration, d: HertzConfiguration)
    requires c.addTaxToCoverages == d.addTaxToCoverages && c.taxExclCoverageCountries == d.taxExclCoverageCountries
    requires c.payNowCoverages == d.payNowCoverages && c.includeCoveragesInRate == d.includeCoveragesInRate
    ensures H.CoverageLines(cs, m, rules, params, c) == H.CoverageLines(cs, m, rules, params, d)
  {
    if cs != [] {
      SameCoverages(cs[..|cs| - 1], m, rules, params, c, d);
    }
  }

  /** Fee lines look only at the fee settings. */
  lemma SameFees(fees: seq<Fee>, params: Params, c: HertzConfiguration, d: HertzConfiguration, rules: seq<PaymentRule>)
    requires c.feePayableLocally == d.feePayableLocally && c.fpPayFeesLocally == d.fpPayFeesLocally
    ensures H.FeeLines(fees, params, c, rules) == H.FeeLines(fees, params, d, rules)
  {
  }

  // ---- Coverage toggle

  predicate OnlyInclusionRises(off: seq<ExtraOrFee>, on: seq<ExtraOrFee>) {
    && |on| == |off|
    && forall i | 0 <= i < |off| :: on[i] == off[i].(includedInRate := off[i].includedInRate || off[i].mandatory)
  }

  lemma CoverageLineToggle(c: PricedCoverage, m: real, rules: seq<PaymentRule>, params: Params,
                           config: HertzConfiguration)
    ensures var off := H.CoverageLine(c, m, rules, params, config.(includeCoveragesInRate := Some(false)));
            var on := H.CoverageLine(c, m, rules, params, config.(includeCoveragesInRate := Some(true)));
            || (off == [] && on == [])
            || (|off| == |on| == 1 && OnlyInclusionRises(off, on))
  {
  }

  lemma {:induction false} CoverageLinesToggle(cs: seq<PricedCoverage>, m: real, rules: seq<PaymentRule>,
                                               params: Params, config: HertzConfiguration)
    ensures var off := H.CoverageLines(cs, m, rules, params, config.(includeCoveragesInRate := Some(false)));
            var on := H.CoverageLines(cs, m, rules, params, config.(includeCoveragesInRate := Some(true)));
            OnlyInclusionRises(off, on) && MandatoryTotal(on) == MandatoryTotal(off)
  {
    if cs != [] {
      CoverageLinesToggle(cs[..|cs| - 1], m, rules, params, config);
      CoverageLineToggle(cs[|cs| - 1], m, rules, params, config);
      var cOff, cOn := config.(includeCoveragesInRate := Some(false)), config.(includeCoveragesInRate := Some(true));
      hide H.CoverageLine, MandatoryTotal, OnlyInclusionRises;
      RisesAppend(H.CoverageLines(cs[..|cs| - 1], m, rules, params, cOff),
                  H.CoverageLines(cs[..|cs| - 1], m, rules, params, cOn),
                  H.CoverageLine(cs[|cs| - 1], m, rules, params, cOff),
                  H.CoverageLine(cs[|cs| - 1], m, rules, params, cOn));
    }
  }

  lemma RisesAppend(off: seq<ExtraOrFee>, on: seq<ExtraOrFee>, lastOff: seq<ExtraOrFee>, lastOn: seq<ExtraOrFee>)
    requires OnlyInclusionRises(off, on) && MandatoryTotal(on) == MandatoryTotal(off)
    requires (lastOff == [] && lastOn == []) || (|lastOff| == |lastOn| == 1 && OnlyInclusionRises(lastOff, lastOn))
    ensures OnlyInclusionRises(off + lastOff, on + lastOn)
    ensures MandatoryTotal(on + lastOn) == MandatoryTotal(off + lastOff)
  {
    if lastOff == [] {
      assert off + [] == off && on + [] == on;
    } else {
      var a, b := lastOff[0], lastOn[0];
      assert lastOff == [a] && lastOn == [b];
      assert a.mandatory == b.mandatory && a.price == b.price;
      RisesSnoc(off, on, a, b);
      hide *;
      TotalSnoc(off, a);
      TotalSnoc(on, b);
    }
  }

  lemma RisesSnoc(off: seq<ExtraOrFee>, on: seq<ExtraOrFee>, a: ExtraOrFee, b: ExtraOrFee)
    requires OnlyInclusionRises(off, on) && OnlyInclusionRises([a], [b])
    ensures OnlyInclusionRises(off + [a], on + [b])
  {
    assert [b][0] == [a][0].(includedInRate := [a][0].includedInRate || [a][0].mandatory);
  }

  /** Turning on IncludeCoveragesInRate raises the vehicle price by exactly the sum of the taxed
      prices of the emitted mandatory coverages, and changes nothing else but their flag. */
  lemma CoverageToggle(offer: Offer, extras: seq<PricedEquip>, params: Params, config: HertzConfiguration)
    returns (others: seq<ExtraOrFee>, coveragesOff: seq<ExtraOrFee>, coveragesOn: seq<ExtraOrFee>)
    ensures var off := H.PricedOffer(offer, extras, params, config.(includeCoveragesInRate := Some(false)));
            var on := H.PricedOffer(offer, extras, params, config.(includeCoveragesInRate := Some(true)));
            if HasPrice(offer, params) then
              && off.Priced? && on.Priced?
              && off.vehicle.extrasAndFees == others + coveragesOff
              && on.vehicle.extrasAndFees == others + coveragesOn
              && OnlyInclusionRises(coveragesOff, coveragesOn)
              && (forall line <- coveragesOff :: line.kind == VCT)
              && (forall line <- others :: line.kind != VCT)
              && on.vehicle.price
                 == off.vehicle.price.(amount := off.vehicle.price.amount + MandatoryTotal(coveragesOff))
            else off == on
  {
    var cOff, cOn := config.(includeCoveragesInRate := Some(false)), config.(includeCoveragesInRate := Some(true));
    var tax := H.TaxOf(offer, params, cOff);
    coveragesOff := H.CoverageLines(offer.coverages, tax.multiplier, offer.rules, params, cOff);
    coveragesOn := H.CoverageLines(offer.coverages, tax.multiplier, offer.rules, params, cOn);
    others := H.OptionalLine(tax.item) + ExtraLines(extras, tax.multiplier) + ChargeLines(offer.charges)
              + H.FeeLines(offer.fees, params, cOff, offer.rules);
    CoverageLinesToggle(offer.coverages, tax.multiplier, offer.rules, params, config);
    SameFees(offer.fees, params, cOff, cOn, offer.rules);
    CoverageKinds(offer.coverages, tax.multiplier, offer.rules, params, cOff);
    OtherKinds(offer, tax, extras, params, cOff);
    LinesEndInCoverages(offer, extras, tax, params, cOff);
    LinesEndInCoverages(offer, extras, tax, params, cOn);
    hide H.OtherLines, H.CoverageLines, ChargeLines, H.FeeLines, ExtraLines, TaxEntries;
    hide MandatoryTotal, Taxed, BasePrice;
  }

  // The schema speaks of the required coverages only.

  predicate IsRequired(c: PricedCoverage) {
    c.required || c.coverageRequired
  }

  /** The taxed prices of the priced coverages that are required (or, with `required` off, of
      those that are not, but that the supplier marks as included in the rate). */
  function CoverageTotal(cs: seq<PricedCoverage>, required: bool, m: real, rules: seq<PaymentRule>, params: Params,
                         config: HertzConfiguration): real
  {
    if cs == [] then 0.0
    else
      var c := cs[|cs| - 1];
      CoverageTotal(cs[..|cs| - 1], required, m, rules, params, config)
      + if (if required then IsRequired(c) else c.includedInRate && !IsRequired(c))
        then LineAmount(H.CoverageLine(c, m, rules, params, config)) else 0.0
  }

  /** The amount of a line, or nothing for a coverage without one. */
  function LineAmount(lines: seq<ExtraOrFee>): real {
    if lines == [] then 0.0 else lines[0].price.amount
  }

  lemma {:induction false} MandatorySplits(cs: seq<PricedCoverage>, m: real, rules: seq<PaymentRule>, params: Params,
                                           config: HertzConfiguration)
    ensures MandatoryTotal(H.CoverageLines(cs, m, rules, params, config))
         == CoverageTotal(cs, true, m, rules, params, config) + CoverageTotal(cs, false, m, rules, params, config)
  {
    if cs != [] {
      var front, c := cs[..|cs| - 1], cs[|cs| - 1];
      MandatorySplits(front, m, rules, params, config);
      var lines := H.CoverageLines(front, m, rules, params, config);
      var line := H.CoverageLine(c, m, rules, params, config);
      OneLine(c, m, rules, params, config);
      hide H.CoverageLine, MandatoryTotal;
      if line == [] {
        assert lines + [] == lines;
      } else {
        assert line == [line[0]];
        TotalSnoc(lines, line[0]);
      }
    }
  }

  lemma OneLine(c: PricedCoverage, m: real, rules: seq<PaymentRule>, params: Params, config: HertzConfiguration)
    ensures var line := H.CoverageLine(c, m, rules, params, config);
            |line| <= 1 && (line != [] ==> line[0].mandatory == (c.includedInRate || IsRequired(c)))
  {
  }

  /** IncludeCoveragesInRate raises the price by the required coverages, as its description says,
      if and only if the other coverages marked as included in the rate cost nothing in total. */
  lemma RiseIsRequiredTotal(offer: Offer, extras: seq<PricedEquip>, params: Params, config: HertzConfiguration)
    requires HasPrice(offer, params)
    ensures var cOff := config.(includeCoveragesInRate := Some(false));
            var cOn := config.(includeCoveragesInRate := Some(true));
            var off, on := H.PricedOffer(offer, extras, params, cOff), H.PricedOffer(offer, extras, params, cOn);
            var m := H.TaxOf(offer, params, cOff).multiplier;
            var required := CoverageTotal(offer.coverages, true, m, offer.rules, params, cOff);
            var includedOnly := CoverageTotal(offer.coverages, false, m, offer.rules, params, cOff);
            && off.Priced? && on.Priced?
            && on.vehicle.price.amount == off.vehicle.price.amount + required + includedOnly
            && (on.vehicle.price.amount == off.vehicle.price.amount + required <==> includedOnly == 0.0)
  {
    var cOff, cOn := config.(includeCoveragesInRate := Some(false)), config.(includeCoveragesInRate := Some(true));
    var m := H.TaxOf(offer, params, cOff).multiplier;
    Assembled(offer, extras, params, cOff);
    Assembled(offer, extras, params, cOn);
    CoverageLinesToggle(offer.coverages, m, offer.rules, params, config);
    MandatorySplits(offer.coverages, m, offer.rules, params, cOff);
    hide H.PricedOffer, H.CoverageLines, H.OtherLines, TaxEntries, SelectTax, MandatoryTotal, CoverageTotal, Taxed;
    hide OnlyInclusionRises;
  }

  /** An offer whose price rises although none of its coverages is required. */
  lemma IncludedCoverageRaisesPrice() returns (offer: Offer, params: Params, config: HertzConfiguration)
    ensures forall c <- offer.coverages :: !IsRequired(c)
    ensures var off := H.PricedOffer(offer, [], params, config.(includeCoveragesInRate := Some(false)));
            var on := H.PricedOffer(offer, [], params, config.(includeCoveragesInRate := Some(true)));
            off.Priced? && on.Priced? && off.vehicle.price.amount == 100.0 && on.vehicle.price.amount == 110.0
  {
    var coverage := PricedCoverage(false, false, "7", true, true, Some(10.0), "EUR", []);
    offer := Offer("", "", TotalCharge(100.0, "EUR"), [], [], [], [coverage]);
    params := Params(PARTIAL_PREPAY, "", 1);
    config := HertzConfiguration(None, None, None, None, None, None, None);
    var cOff := config.(includeCoveragesInRate := Some(false));
    RiseIsRequiredTotal(offer, [], params, config);
    assert offer.coverages[..0] == [] && CoverageTotal([], false, 1.0, [], params, cOff) == 0.0;
    assert CoverageTotal(offer.coverages, false, 1.0, [], params, cOff) == 10.0;
  }

  lemma LinesEndInCoverages(offer: Offer, extras: seq<PricedEquip>, tax: TaxResult, params: Params,
                            config: HertzConfiguration)
    ensures H.OptionalLine(tax.item) + H.OtherLines(offer, extras, tax.multiplier, params, config)
         == H.OptionalLine(tax.item) + ExtraLines(extras, tax.multiplier) + ChargeLines(offer.charges)
            + H.FeeLines(offer.fees, params, config, offer.rules)
            + H.CoverageLines(offer.coverages, tax.multiplier, offer.rules, params, config)
  {
  }

  lemma OtherKinds(offer: Offer, tax: TaxResult, extras: seq<PricedEquip>, params: Params, config: HertzConfiguration)
    requires tax.item.Some? ==> tax.item.value.kind == VCP
    ensures forall line <- H.OptionalLine(tax.item) + ExtraLines(extras, tax.multiplier) + ChargeLines(offer.charges)
                           + H.FeeLines(offer.fees, params, config, offer.rules) :: line.kind != VCT
  {
    ChargeKinds(offer.charges);
    assert forall line <- ExtraLines(extras, tax.multiplier) :: line.kind == EQP;
    assert forall line <- H.FeeLines(offer.fees, params, config, offer.rules) :: line.kind == VCP;
  }

  lemma {:induction false} CoverageKinds(cs: seq<PricedCoverage>, m: real, rules: seq<PaymentRule>, params: Params,
                                         config: HertzConfiguration)
    ensures forall line <- H.CoverageLines(cs, m, rules, params, config) :: line.kind == VCT
  {
    if cs != [] {
      CoverageKinds(cs[..|cs| - 1], m, rules, params, config);
    }
  }

  lemma {:induction false} ChargeKinds(charges: seq<VehicleCharge>)
    ensures forall line <- ChargeLines(charges) :: line.kind == VCP
  {
    if charges != [] {
      ChargeKinds(charges[..|charges| - 1]);
    }
  }

  function WithPrice(cs: seq<PricedCoverage>, rentalDays: int): seq<PricedCoverage> {
    if cs == [] then []
    else WithPrice(cs[..|cs| - 1], rentalDays)
         + if PriceBeforeTax(cs[|cs| - 1], rentalDays).Some? then [cs[|cs| - 1]] else []
  }

  /** Unpriced coverages contribute neither a line nor an amount: leaving them out beforehand
      gives the same result, in which each remaining coverage has one line, in order. */
  lemma {:induction false} UnpricedCoveragesVanish(cs: seq<PricedCoverage>, m: real, rules: seq<PaymentRule>,
                                                   params: Params, config: HertzConfiguration)
    ensures var priced := WithPrice(cs, params.rentalDays);
            var lines := H.CoverageLines(cs, m, rules, params, config);
            && lines == H.CoverageLines(priced, m, rules, params, config)
            && |lines| == |priced|
            && forall i | 0 <= i < |lines| :: lines[i].code == priced[i].coverageType
  {
    if cs != [] {
      var front, last := cs[..|cs| - 1], cs[|cs| - 1];
      UnpricedCoveragesVanish(front, m, rules, params, config);
      var priced := WithPrice(front, params.rentalDays);
      var lines := H.CoverageLines(front, m, rules, params, config);
      if PriceBeforeTax(last, params.rentalDays).None? {
        assert priced + [] == priced && lines + [] == lines;
      } else {
        assert (priced + [last])[..|priced|] == priced;
        assert |H.CoverageLine(last, m, rules, params, config)| == 1;
      }
    }
  }

  // ---- ProfitMax refines Hertz

  /** Hertz settings under which Hertz prices `offer` the ProfitMax way. */
  predicate Translates(p: ProfitMaxConfiguration, h: HertzConfiguration, offer: Offer) {
    && h.includeCoveragesInRate == Some(true)
    && h.payNowCoverages.None? && h.feePayableLocally.None?
    && h.fpPaynowVehiclePriceWithTax == p.fpPaynowVehiclePriceWithTax
    && h.fpPayFeesLocally == p.fpPayFeesLocally
    && forall c <- offer.coverages :: c.coverageType in h.addTaxToCoverages.GetOr([])
  }

  lemma {:induction false} CoveragesAgree(cs: seq<PricedCoverage>, m: real, rules: seq<PaymentRule>, params: Params,
                                          h: HertzConfiguration)
    requires h.includeCoveragesInRate == Some(true) && h.payNowCoverages.None?
    requires forall c <- cs :: c.coverageType in h.addTaxToCoverages.GetOr([])
    ensures P.CoverageLines(cs, m, rules, params) == H.CoverageLines(cs, m, rules, params, h)
  {
    if cs != [] {
      CoveragesAgree(cs[..|cs| - 1], m, rules, params, h);
      assert cs[|cs| - 1] in cs;
    }
  }

  /** The one setting ProfitMax fees ignore and Hertz fees do not. */
  predicate FeesDisagree(offer: Offer, params: Params, h: HertzConfiguration) {
    h.fpPayFeesLocally.GetOr(false) && FullWithoutPaymentRules(params, offer.rules) && offer.fees != []
  }

  lemma FeesAgree(offer: Offer, params: Params, h: HertzConfiguration)
    requires h.feePayableLocally.None? && HasPrice(offer, params)
    ensures |P.FeeLines(offer.fees, params, offer.rules)| == |H.FeeLines(offer.fees, params, h, offer.rules)|
    ensures !FeesDisagree(offer, params, h) ==>
              P.FeeLines(offer.fees, params, offer.rules) == H.FeeLines(offer.fees, params, h, offer.rules)
    ensures FeesDisagree(offer, params, h) ==>
              P.FeeLines(offer.fees, params, offer.rules)[0] != H.FeeLines(offer.fees, params, h, offer.rules)[0]
  {
  }

  /** ProfitMax pricing is Hertz pricing under the translated configuration, price and all line
      items, exactly unless both are told to have the fees of full prepay without rules paid
      locally and there are such fees: ProfitMax ignores that setting for fees. Price, tax,
      charges and coverages agree even then. */
  lemma ProfitMaxRefinesHertz(offer: Offer, extras: seq<PricedEquip>, params: Params,
                              p: ProfitMaxConfiguration, h: HertzConfiguration)
    requires Translates(p, h, offer)
    ensures P.PricedOffer(offer, extras, params, p) == H.PricedOffer(offer, extras, params, h)
       <==> !HasPrice(offer, params) || !FeesDisagree(offer, params, h)
    ensures P.TaxOf(offer, params, p) == H.TaxOf(offer, params, h)
    ensures HasPrice(offer, params) ==>
              && P.PricedOffer(offer, extras, params, p).Priced? && H.PricedOffer(offer, extras, params, h).Priced?
              && P.PricedOffer(offer, extras, params, p).vehicle.price
                 == H.PricedOffer(offer, extras, params, h).vehicle.price
    ensures var m := H.TaxOf(offer, params, h).multiplier;
            P.CoverageLines(offer.coverages, m, offer.rules, params)
            == H.CoverageLines(offer.coverages, m, offer.rules, params, h)
  {
    var tax := H.TaxOf(offer, params, h);
    CoveragesAgree(offer.coverages, tax.multiplier, offer.rules, params, h);
    if HasPrice(offer, params) {
      FeesAgree(offer, params, h);
      var e, c := ExtraLines(extras, tax.multiplier), ChargeLines(offer.charges);
      var coverages := H.CoverageLines(offer.coverages, tax.multiplier, offer.rules, params, h);
      var pf, hf := P.FeeLines(offer.fees, params, offer.rules), H.FeeLines(offer.fees, params, h, offer.rules);
      hide P.FeeLines, H.FeeLines, H.CoverageLines, P.CoverageLines, ChargeLines, ExtraLines;
      hide MandatoryTotal, TaxEntries, Taxed, SelectTax;
      var leading := H.OptionalLine(tax.item);
      if pf != hf {
        var k := |leading| + |e| + |c|;
        assert (leading + (e + c + pf + coverages))[k] == pf[0];
        assert (leading + (e + c + hf + coverages))[k] == hf[0];
      }
    }
  }
}
