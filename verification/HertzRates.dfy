/** The Hertz rates request and, for an existing booking, the quote request that follows it. */
module HertzRates {
  import opened Schema
  import opened Ota
  import opened HertzPricing
  import opened RatesProtocol
  import Q = QuoteProtocol
  import opened Interleaving
  import QuoteRequest
  import opened Selection
  import PricingTheorems
  import opened OtaPricing

  /** What pricing gives for the available vehicles, in order. */
  function Parses(avails: seq<VehAvail>, extras: seq<PricedEquip>, params: Params,
                  config: HertzConfiguration): seq<Parsed>
  {
    if avails == [] then []
    else
      var last := avails[|avails| - 1];
      Parses(avails[..|avails| - 1], extras, params, config)
      + if last.core.status == "Available" then [PricedOffer(AvailOffer(last), extras, params, config)] else []
  }

  function VehiclesOf(parses: seq<Parsed>): seq<Vehicle> {
    if parses == [] then []
    else
      var last := parses[|parses| - 1];
      VehiclesOf(parses[..|parses| - 1]) + if last.Priced? then [last.vehicle] else []
  }

  function ErrorsOf(parses: seq<Parsed>): seq<SupplierResponseError> {
    if parses == [] then []
    else
      var last := parses[|parses| - 1];
      ErrorsOf(parses[..|parses| - 1]) + if last.Unpriced? then [NewSupplierError(last.message)] else []
  }

  function AvailableCount(avails: seq<VehAvail>): nat {
    if avails == [] then 0
    else AvailableCount(avails[..|avails| - 1]) + if avails[|avails| - 1].core.status == "Available" then 1 else 0
  }

  lemma ParsesSnoc(parses: seq<Parsed>, p: Parsed)
    ensures VehiclesOf(parses + [p]) == VehiclesOf(parses) + if p.Priced? then [p.vehicle] else []
    ensures ErrorsOf(parses + [p]) == ErrorsOf(parses) + if p.Unpriced? then [NewSupplierError(p.message)] else []
  {
    assert (parses + [p])[..|parses|] == parses;
  }

  lemma ParsesStep(avails: seq<VehAvail>, i: nat, extras: seq<PricedEquip>, params: Params, config: HertzConfiguration)
    requires i < |avails|
    ensures Parses(avails[..i + 1], extras, params, config)
         == Parses(avails[..i], extras, params, config)
            + if avails[i].core.status == "Available"
              then [PricedOffer(AvailOffer(avails[i]), extras, params, config)] else []
  {
    assert avails[..i + 1][..i] == avails[..i];
  }

  /** Each available vehicle yields exactly one vehicle or one error. */
  lemma {:induction false} OneResultEach(avails: seq<VehAvail>, extras: seq<PricedEquip>,
                                         params: Params, config: HertzConfiguration)
    ensures var parses := Parses(avails, extras, params, config);
            |VehiclesOf(parses)| + |ErrorsOf(parses)| == |parses| == AvailableCount(avails)
  {
    if avails != [] {
      var front := avails[..|avails| - 1];
      OneResultEach(front, extras, params, config);
      var parses := Parses(front, extras, params, config);
      if avails[|avails| - 1].core.status == "Available" {
        ParsesSnoc(parses, PricedOffer(AvailOffer(avails[|avails| - 1]), extras, params, config));
      } else {
        assert parses + [] == parses;
      }
    }
  }

  /** Which available vehicle each vehicle and each error of the result comes from: the vehicles are
      the priced ones, the errors the others, both in order. */
  lemma AvailableOneByOne(avails: seq<VehAvail>, extras: seq<PricedEquip>, params: Params, config: HertzConfiguration)
    returns (sold: seq<nat>, failed: seq<nat>)
    ensures var parses := Parses(avails, extras, params, config);
            && |sold| == |VehiclesOf(parses)| && |failed| == |ErrorsOf(parses)|
            && Ascending(sold, |avails|) && Ascending(failed, |avails|)
            && (forall k | 0 <= k < |sold| :: sold[k] < |avails|)
            && (forall k | 0 <= k < |failed| :: failed[k] < |avails|)
            && (forall i: nat | i < |avails| ::
                  i in sold <==> avails[i].core.status == "Available"
                                 && PricedOffer(AvailOffer(avails[i]), extras, params, config).Priced?)
            && (forall i: nat | i < |avails| ::
                  i in failed <==> avails[i].core.status == "Available"
                                   && PricedOffer(AvailOffer(avails[i]), extras, params, config).Unpriced?)
            && (forall k | 0 <= k < |sold| ::
                  PricedOffer(AvailOffer(avails[sold[k]]), extras, params, config) == Priced(VehiclesOf(parses)[k]))
            && (forall k | 0 <= k < |failed| ::
                  var parsed := PricedOffer(AvailOffer(avails[failed[k]]), extras, params, config);
                  parsed.Unpriced? && ErrorsOf(parses)[k] == SupplierResponseError(SupplierError, parsed.message))
  {
    var isSold := seq(|avails|, i requires 0 <= i < |avails| => avails[i].core.status == "Available"
                              && PricedOffer(AvailOffer(avails[i]), extras, params, config).Priced?);
    var isFailed := seq(|avails|, i requires 0 <= i < |avails| => avails[i].core.status == "Available"
                                && PricedOffer(AvailOffer(avails[i]), extras, params, config).Unpriced?);
    sold, failed := Raised(isSold, |avails|), Raised(isFailed, |avails|);
    RaisedAscends(isSold, |avails|);
    RaisedAscends(isFailed, |avails|);
    hide Parses, VehiclesOf, ErrorsOf, Raised, PricedOffer;
    SoldAt(avails, extras, params, config, isSold, |avails|);
    FailedAt(avails, extras, params, config, isFailed, |avails|);
    assert avails[..|avails|] == avails;
  }

  lemma {:induction false} SoldAt(avails: seq<VehAvail>, extras: seq<PricedEquip>, params: Params,
                                  config: HertzConfiguration, isSold: seq<bool>, n: nat)
    requires n <= |avails| == |isSold|
    requires forall i | 0 <= i < |avails| ::
               isSold[i] == (avails[i].core.status == "Available"
                             && PricedOffer(AvailOffer(avails[i]), extras, params, config).Priced?)
    ensures var from, vehicles := Raised(isSold, n), VehiclesOf(Parses(avails[..n], extras, params, config));
            && |from| == |vehicles|
            && forall k | 0 <= k < |from| ::
                 from[k] < n && PricedOffer(AvailOffer(avails[from[k]]), extras, params, config) == Priced(vehicles[k])
  {
    if n > 0 {
      hide *;
      var k: nat := n - 1;
      SoldAt(avails, extras, params, config, isSold, k);
      OneMore(avails, k, extras, params, config);
      RaisedStep(isSold, k);
      var from, vehicles := Raised(isSold, k), VehiclesOf(Parses(avails[..k], extras, params, config));
      assert vehicles + [] == vehicles;
    }
  }

  lemma {:induction false} FailedAt(avails: seq<VehAvail>, extras: seq<PricedEquip>, params: Params,
                                    config: HertzConfiguration, isFailed: seq<bool>, n: nat)
    requires n <= |avails| == |isFailed|
    requires forall i | 0 <= i < |avails| ::
               isFailed[i] == (avails[i].core.status == "Available"
                               && PricedOffer(AvailOffer(avails[i]), extras, params, config).Unpriced?)
    ensures var from, errors := Raised(isFailed, n), ErrorsOf(Parses(avails[..n], extras, params, config));
            && |from| == |errors|
            && forall k | 0 <= k < |from| ::
                 from[k] < n
                 && var parsed := PricedOffer(AvailOffer(avails[from[k]]), extras, params, config);
                    parsed.Unpriced? && errors[k] == SupplierResponseError(SupplierError, parsed.message)
  {
    if n > 0 {
      hide *;
      var k: nat := n - 1;
      FailedAt(avails, extras, params, config, isFailed, k);
      OneMore(avails, k, extras, params, config);
      RaisedStep(isFailed, k);
      var from, errors := Raised(isFailed, k), ErrorsOf(Parses(avails[..k], extras, params, config));
      assert errors + [] == errors;
    }
  }

  /** What one more vehicle of the answer adds. */
  lemma OneMore(avails: seq<VehAvail>, i: nat, extras: seq<PricedEquip>, params: Params, config: HertzConfiguration)
    requires i < |avails|
    ensures var before := Parses(avails[..i], extras, params, config);
            var after := Parses(avails[..i + 1], extras, params, config);
            var available, parsed := avails[i].core.status == "Available",
                                     PricedOffer(AvailOffer(avails[i]), extras, params, config);
            && VehiclesOf(after) == VehiclesOf(before) + (if available && parsed.Priced? then [parsed.vehicle] else [])
            && ErrorsOf(after) == ErrorsOf(before)
               + if available && parsed.Unpriced? then [SupplierResponseError(SupplierError, parsed.message)] else []
  {
    var before := Parses(avails[..i], extras, params, config);
    ParsesStep(avails, i, extras, params, config);
    ParsesSnoc(before, PricedOffer(AvailOffer(avails[i]), extras, params, config));
    assert before + [] == before;
    hide Parses, VehiclesOf, ErrorsOf, PricedOffer;
  }

  /** The equipment lines of every vehicle are the delivered items, in order. */
  lemma VehiclesWithExtras(avails: seq<VehAvail>, extras: seq<PricedEquip>, params: Params, config: HertzConfiguration)
    ensures forall v <- VehiclesOf(Parses(avails, extras, params, config)) ::
              var k := if v.extrasAndFees != [] && v.extrasAndFees[0].kind != EQP then 1 else 0;
                && k + |extras| <= |v.extrasAndFees|
                && forall i | 0 <= i < |v.extrasAndFees| ::
                     var line := v.extrasAndFees[i];
                     if k <= i < k + |extras| then line.kind == EQP && line.code == line.name == extras[i - k].equipType
                     else line.kind != EQP
  {
    hide *;
    var sold, failed := AvailableOneByOne(avails, extras, params, config);
    var vehicles := VehiclesOf(Parses(avails, extras, params, config));
    forall v <- vehicles
      ensures var k := if v.extrasAndFees != [] && v.extrasAndFees[0].kind != EQP then 1 else 0;
                && k + |extras| <= |v.extrasAndFees|
                && forall i | 0 <= i < |v.extrasAndFees| ::
                     var line := v.extrasAndFees[i];
                     if k <= i < k + |extras| then line.kind == EQP && line.code == line.name == extras[i - k].equipType
                     else line.kind != EQP
    {
      var n :| 0 <= n < |vehicles| && vehicles[n] == v;
      PricedWithExtras(avails[sold[n]], extras, params, config);
    }
  }

  lemma PricedWithExtras(avail: VehAvail, extras: seq<PricedEquip>, params: Params, config: HertzConfiguration)
    requires PricedOffer(AvailOffer(avail), extras, params, config).Priced?
    ensures var lines := PricedOffer(AvailOffer(avail), extras, params, config).vehicle.extrasAndFees;
            var k := if lines != [] && lines[0].kind != EQP then 1 else 0;
            && k + |extras| <= |lines|
            && forall i | 0 <= i < |lines| ::
                 if k <= i < k + |extras|
                 then lines[i].kind == EQP && lines[i].code == lines[i].name == extras[i - k].equipType
                 else lines[i].kind != EQP
  {
    var offer := AvailOffer(avail);
    var tax := TaxOf(offer, params, config);
    TaxKind(offer, params, config);
    ExtraKinds(extras, tax.multiplier);
    PricingTheorems.ChargeKinds(offer.charges);
    FeeKinds(offer.fees, params, config, offer.rules);
    PricingTheorems.CoverageKinds(offer.coverages, tax.multiplier, offer.rules, params, config);
    PricingTheorems.Assembled(offer, extras, params, config);
    PricingTheorems.LinesEndInCoverages(offer, extras, tax, params, config);
    hide *;
    EquipmentInTheMiddle(OptionalLine(tax.item), ExtraLines(extras, tax.multiplier), ChargeLines(offer.charges),
                         FeeLines(offer.fees, params, config, offer.rules),
                         CoverageLines(offer.coverages, tax.multiplier, offer.rules, params, config));
  }

  lemma TaxKind(offer: Offer, params: Params, config: HertzConfiguration)
    ensures var first := OptionalLine(TaxOf(offer, params, config).item);
            |first| <= 1 && forall line <- first :: line.kind == VCP
  {
  }

  lemma ExtraKinds(extras: seq<PricedEquip>, m: real)
    ensures |ExtraLines(extras, m)| == |extras|
    ensures forall line <- ExtraLines(extras, m) :: line.kind == EQP
    ensures forall j | 0 <= j < |extras| ::
              ExtraLines(extras, m)[j].code == ExtraLines(extras, m)[j].name == extras[j].equipType
  {
  }

  lemma FeeKinds(fees: seq<Fee>, params: Params, config: HertzConfiguration, rules: seq<PaymentRule>)
    ensures forall line <- FeeLines(fees, params, config, rules) :: line.kind == VCP
  {
  }

  lemma EquipmentInTheMiddle(first: seq<ExtraOrFee>, equipment: seq<ExtraOrFee>, charges: seq<ExtraOrFee>,
                             fees: seq<ExtraOrFee>, coverages: seq<ExtraOrFee>)
    requires |first| <= 1
    requires (forall line <- first :: line.kind == VCP) && (forall line <- equipment :: line.kind == EQP)
    requires (forall line <- charges :: line.kind == VCP) && (forall line <- fees :: line.kind == VCP)
    requires forall line <- coverages :: line.kind == VCT
    ensures var lines := first + equipment + charges + fees + coverages;
            var k := if lines != [] && lines[0].kind != EQP then 1 else 0;
            && k + |equipment| <= |lines|
            && forall i | 0 <= i < |lines| ::
                 if k <= i < k + |equipment| then lines[i] == equipment[i - k] && lines[i].kind == EQP
                 else lines[i].kind != EQP
  {
    NoEquipment(charges, fees, coverages);
    Regroup(first + equipment, charges, fees, coverages);
    InTheMiddle(first, equipment, charges + fees + coverages);
  }

  lemma NoEquipment(charges: seq<ExtraOrFee>, fees: seq<ExtraOrFee>, coverages: seq<ExtraOrFee>)
    requires (forall line <- charges :: line.kind == VCP) && (forall line <- fees :: line.kind == VCP)
    requires forall line <- coverages :: line.kind == VCT
    ensures forall line <- charges + fees + coverages :: line.kind != EQP
  {
  }

  lemma Regroup<T>(front: seq<T>, a: seq<T>, b: seq<T>, c: seq<T>)
    ensures front + a + b + c == front + (a + b + c)
  {
  }

  lemma InTheMiddle(first: seq<ExtraOrFee>, equipment: seq<ExtraOrFee>, rest: seq<ExtraOrFee>)
    requires |first| <= 1
    requires (forall line <- first :: line.kind != EQP) && (forall line <- equipment :: line.kind == EQP)
    requires forall line <- rest :: line.kind != EQP
    ensures var lines := first + equipment + rest;
            var k := if lines != [] && lines[0].kind != EQP then 1 else 0;
            && k + |equipment| <= |lines|
            && forall i | 0 <= i < |lines| ::
                 if k <= i < k + |equipment| then lines[i] == equipment[i - k] && lines[i].kind == EQP
                 else lines[i].kind != EQP
  {
    var lines := first + equipment + rest;
    assert forall i | 0 <= i < |first| :: lines[i] == first[i];
    assert forall i | |first| <= i < |first| + |equipment| :: lines[i] == equipment[i - |first|];
    assert forall i | |first| + |equipment| <= i < |lines| :: lines[i] == rest[i - |first| - |equipment|];
  }

  /** How the supplier answers the quote request for one vehicle. */
  datatype QuoteAnswer =
    | Panics
    | RequestFails(error: SupplierResponseError)
    | BadBody
    | Answer(message: string, reservation: VehReservation)

  function AttemptFor(a: QuoteAnswer, extras: seq<PricedEquip>,
                      params: Params, config: HertzConfiguration): Q.Attempt<Vehicle>
  {
    match a
    case Panics => Q.Panics
    case RequestFails(error) => Q.RequestFails(error)
    case BadBody => Q.BadBody
    case Answer(message, reservation) =>
      if message != "" then Q.Refused(message)
      else
        var parsed := PricedOffer(ReservationOffer(reservation), extras, params, config);
        if parsed.Priced? then Q.Quoted(parsed.vehicle) else Q.Unpriced(parsed.message)
  }

  /** Each call has its own answer: `answers(i)` is what the supplier says to the i-th. */
  function Attempts(vehicles: seq<Vehicle>, answers: nat -> QuoteAnswer, extras: seq<PricedEquip>,
                    params: Params, config: HertzConfiguration): seq<Q.Attempt<Vehicle>>
  {
    seq(|vehicles|, i requires 0 <= i < |vehicles| => AttemptFor(answers(i), extras, params, config))
  }

  class RatesRequest {
    var extras: seq<PricedEquip>
    var vehicles: seq<Vehicle>
    const bucket: ErrorsBucket

    constructor ()
      ensures vehicles == [] && bucket.errors == [] && fresh(bucket)
    {
      extras, vehicles := [], [];
      bucket := new ErrorsBucket();
    }

    /** The loop over the vehicles of a rates answer. */
    method MapVehicles(avails: seq<VehAvail>, pricedEquips: seq<PricedEquip>,
                       params: Params, config: HertzConfiguration)
      requires vehicles == []
      modifies this`vehicles, bucket
      ensures vehicles == VehiclesOf(Parses(avails, pricedEquips, params, config))
      ensures bucket.errors == old(bucket.errors) + ErrorsOf(Parses(avails, pricedEquips, params, config))
    {
      assert avails[..0] == [];
      for i := 0 to |avails|
        invariant vehicles == VehiclesOf(Parses(avails[..i], pricedEquips, params, config))
        invariant bucket.errors == old(bucket.errors) + ErrorsOf(Parses(avails[..i], pricedEquips, params, config))
      {
        hide PricedOffer, Parses, VehiclesOf, ErrorsOf;
        var vehAvail := avails[i];
        ghost var before := Parses(avails[..i], pricedEquips, params, config);
        ParsesStep(avails, i, pricedEquips, params, config);
        assert before + [] == before;
        if vehAvail.core.status != "Available" {
          continue;
        }
        var parsed := ParseVehicle(vehAvail, pricedEquips, params, config);
        ParsesSnoc(before, parsed);
        if parsed.Unpriced? {
          bucket.AddError(NewSupplierError(parsed.message));
          continue;
        }
        vehicles := vehicles + [parsed.vehicle];
      }
      assert avails[..|avails|] == avails;
    }

    /** The errors are the extras error, if any, before everything else; without rates there is
        the rates error and no vehicle, with rates one vehicle or error per available vehicle, in
        order, even when there are no extras. */
    method Execute(ratesOutcome: Outcome<seq<VehAvail>>, extrasOutcome: Outcome<seq<PricedEquip>>,
                   params: Params, config: HertzConfiguration)
      requires vehicles == [] && bucket.errors == []
      modifies this, bucket
      ensures extrasOutcome.Delivers? ==> extras == extrasOutcome.result
      ensures extrasOutcome.Errs? ==> extras == []
      ensures ratesOutcome.Errs? ==>
                vehicles == []
                && bucket.errors == (if extrasOutcome.Errs? then [extrasOutcome.error] else []) + [ratesOutcome.error]
      ensures ratesOutcome.Delivers? ==>
                var parses := Parses(ratesOutcome.result, extras, params, config);
                && vehicles == VehiclesOf(parses)
                && bucket.errors == (if extrasOutcome.Errs? then [extrasOutcome.error] else []) + ErrorsOf(parses)
      // the equipment lines of every vehicle are the delivered items, in order
      ensures forall v <- vehicles ::
                var k := if v.extrasAndFees != [] && v.extrasAndFees[0].kind != EQP then 1 else 0;
                && k + |extras| <= |v.extrasAndFees|
                && forall i | 0 <= i < |v.extrasAndFees| ::
                     var line := v.extrasAndFees[i];
                     if k <= i < k + |extras| then line.kind == EQP && line.code == line.name == extras[i - k].equipType
                     else line.kind != EQP
    {
      var ended := RatesProtocol.Run(ratesOutcome, extrasOutcome);

      var pricedEquips: seq<PricedEquip> := [];
      match ended.main.extras {
        case Delivers(result) => pricedEquips := result;
        case Errs(error) => bucket.AddError(error);
      }
      extras := pricedEquips;

      match ended.main.rates {
        case Delivers(avails) =>
          MapVehicles(avails, pricedEquips, params, config);
          hide *;
          VehiclesWithExtras(avails, pricedEquips, params, config);
        case Errs(error) => bucket.AddError(error);
      }
    }
  }

  /** What one call contributes to the vehicles and to the errors. */
  predicate IsOutcome(a: QuoteAnswer, extras: seq<PricedEquip>, params: Params, config: HertzConfiguration,
                      vehicles: seq<Vehicle>, errors: seq<SupplierResponseError>)
  {
    match a
    case Panics =>
      vehicles == [] && errors == [SupplierResponseError(ConnectionError, "requesting supplier failed")]
    case RequestFails(error) =>
      vehicles == [] && errors == [error]
    case BadBody =>
      vehicles == [] && errors == [SupplierResponseError(SupplierError, "Invalid response from supplier")]
    case Answer(message, reservation) =>
      if message != "" then
        vehicles == [] && errors == [SupplierResponseError(SupplierError, message)]
      else
        match PricedOffer(ReservationOffer(reservation), extras, params, config)
        case Priced(vehicle) => vehicles == [vehicle] && errors == []
        case Unpriced(reason) => vehicles == [] && errors == [SupplierResponseError(SupplierError, reason)]
  }

  /** The vehicles and, after the rates errors, the errors of `n` calls, each list in some order. */
  ghost predicate IsQuoteOf(n: nat, ratesErrors: seq<SupplierResponseError>, answers: nat -> QuoteAnswer,
                            extras: seq<PricedEquip>, params: Params, config: HertzConfiguration,
                            vehicles: seq<Vehicle>, errors: seq<SupplierResponseError>)
  {
    && ratesErrors <= errors
    && exists vs: seq<seq<Vehicle>>, es: seq<seq<SupplierResponseError>> | |vs| == |es| == n ::
         && IsInterleaving(vehicles, vs) && IsInterleaving(errors[|ratesErrors|..], es)
         && forall i: nat | i < n :: IsOutcome(answers(i), extras, params, config, vs[i], es[i])
  }

  lemma AttemptOutcome(a: QuoteAnswer, extras: seq<PricedEquip>, params: Params, config: HertzConfiguration)
    ensures var attempt := AttemptFor(a, extras, params, config);
            IsOutcome(a, extras, params, config, Q.VehiclePart(attempt), Q.ErrorPart(attempt))
  {
    hide PricedOffer;
  }

  /** The whole quote request: the goroutines' work, and its collection by the fan-in. */
  method QuoteVehicles(rates: seq<Vehicle>, ratesErrors: seq<SupplierResponseError>, extras: seq<PricedEquip>,
                       answers: nat -> QuoteAnswer, params: Params, config: HertzConfiguration)
    returns (vehicles: seq<Vehicle>, errors: seq<SupplierResponseError>)
    ensures IsQuoteOf(|rates|, ratesErrors, answers, extras, params, config, vehicles, errors)
    ensures |vehicles| + |errors| == |rates| + |ratesErrors|
    // what the i-th call contributes to the vehicles and to the errors
    ensures exists vs: seq<seq<Vehicle>>, es: seq<seq<SupplierResponseError>> | |vs| == |es| == |rates| ::
              && IsInterleaving(vehicles, vs) && IsInterleaving(errors[|ratesErrors|..], es)
              && forall i: nat | i < |rates| ::
                  match answers(i)
                  case Panics =>
                    vs[i] == [] && es[i] == [SupplierResponseError(ConnectionError, "requesting supplier failed")]
                  case RequestFails(error) =>
                    vs[i] == [] && es[i] == [error]
                  case BadBody =>
                    vs[i] == [] && es[i] == [SupplierResponseError(SupplierError, "Invalid response from supplier")]
                  case Answer(message, reservation) =>
                    if message != "" then
                      vs[i] == [] && es[i] == [SupplierResponseError(SupplierError, message)]
                    else
                      match PricedOffer(ReservationOffer(reservation), extras, params, config)
                      case Priced(vehicle) => vs[i] == [vehicle] && es[i] == []
                      case Unpriced(reason) => vs[i] == [] && es[i] == [SupplierResponseError(SupplierError, reason)]
    // the quoted calls are those answered by a reservation that can be priced
    ensures |vehicles| == |set i: nat | i < |rates| && answers(i).Answer? && answers(i).message == "" &&
                             var core := answers(i).reservation.segmentCore;
                             var rules := answers(i).reservation.segmentInfo.rules;
                             || ((params.paymentType == 1 || (params.paymentType == 0 && rules == []))
                                 && core.totalCharge.currency != "" && core.totalCharge.rateTotalAmount != 0.0)
                             || (params.paymentType == 0 && rules != [] && rules[0].ruleType == 2
                                 && rules[0].currency != "" && rules[0].amount != 0.0)|
  {
    hide AttemptFor, IsOutcome, IsQuoteOf;
    var attempts: seq<Q.Attempt<Vehicle>> := [];
    for i := 0 to |rates|
      invariant attempts == Attempts(rates[..i], answers, extras, params, config)
    {
      var attempt := Quote(answers(i), extras, params, config);
      attempts := attempts + [attempt];
      assert rates[..i + 1][..i] == rates[..i];
    }
    assert rates[..|rates|] == rates;
    var quote := new QuoteRequest.Request<Vehicle>();
    quote.Execute(attempts, ratesErrors);
    vehicles, errors := quote.vehicles, quote.bucket.errors;
    hide *;
    QuoteNumbers(rates, ratesErrors, answers, extras, params, config, vehicles, errors);
    QuoteOutcomes(rates, ratesErrors, answers, extras, params, config, vehicles, errors);
  }

  /** Rates, then quotes of the same vehicles with the same extras when there is a booking. */
  method GetRates(ratesOutcome: Outcome<seq<VehAvail>>, extrasOutcome: Outcome<seq<PricedEquip>>,
                  bookingReference: string, answers: nat -> QuoteAnswer, params: Params, config: HertzConfiguration)
    returns (vehicles: seq<Vehicle>, errors: seq<SupplierResponseError>)
    ensures var extras := if extrasOutcome.Delivers? then extrasOutcome.result else [];
            var parses := if ratesOutcome.Delivers? then Parses(ratesOutcome.result, extras, params, config) else [];
            var rates := VehiclesOf(parses);
            var ratesErrors := (if extrasOutcome.Errs? then [extrasOutcome.error] else [])
                               + if ratesOutcome.Errs? then [ratesOutcome.error] else ErrorsOf(parses);
            if bookingReference == "" || rates == [] then
              vehicles == rates && errors == ratesErrors
            else
              IsQuoteOf(|rates|, ratesErrors, answers, extras, params, config, vehicles, errors)
  {
    hide IsQuoteOf, Parses, ErrorsOf;
    var request := new RatesRequest();
    request.Execute(ratesOutcome, extrasOutcome, params, config);
    vehicles, errors := request.vehicles, request.bucket.errors;
    if bookingReference != "" && |vehicles| > 0 {
      vehicles, errors := QuoteVehicles(vehicles, errors, request.extras, answers, params, config);
    }
  }

  /** The answer to the quote request for `rate` is a reservation with the data `rate` came from. */
  predicate Confirms(source: VehAvail, rate: Vehicle, a: QuoteAnswer, extras: seq<PricedEquip>,
                     params: Params, config: HertzConfiguration)
  {
    && PricedOffer(AvailOffer(source), extras, params, config) == Priced(rate)
    && a.Answer? && a.message == "" && SameData(source, a.reservation)
  }

  /** When every reservation carries the data of the rates vehicle it was asked for, the quote
      confirms the rates: the same vehicles, in some order, and no new error. */
  lemma QuotesConfirmRates(sources: seq<VehAvail>, rates: seq<Vehicle>, answers: nat -> QuoteAnswer,
                           extras: seq<PricedEquip>, params: Params, config: HertzConfiguration,
                           ratesErrors: seq<SupplierResponseError>, vehicles: seq<Vehicle>,
                           errors: seq<SupplierResponseError>)
    requires |sources| == |rates|
    requires forall i | 0 <= i < |rates| :: Confirms(sources[i], rates[i], answers(i), extras, params, config)
    requires IsQuoteOf(|rates|, ratesErrors, answers, extras, params, config, vehicles, errors)
    ensures multiset(vehicles) == multiset(rates) && errors == ratesErrors
  {
    hide *;
    var vs, es := CallParts(|rates|, ratesErrors, answers, extras, params, config, vehicles, errors);
    forall i: nat | i < |rates| ensures vs[i] == [rates[i]] && es[i] == [] {
      ConfirmedOutcome(sources[i], rates[i], answers(i), extras, params, config, vs[i], es[i]);
    }
    Singletons(vs, rates);
    ConcatEmpty(es);
    Permuted(vehicles, vs);
    Permuted(errors[|ratesErrors|..], es);
    assert errors == ratesErrors + errors[|ratesErrors|..];
  }

  lemma CallParts(n: nat, ratesErrors: seq<SupplierResponseError>, answers: nat -> QuoteAnswer,
                  extras: seq<PricedEquip>, params: Params, config: HertzConfiguration,
                  vehicles: seq<Vehicle>, errors: seq<SupplierResponseError>)
    returns (vs: seq<seq<Vehicle>>, es: seq<seq<SupplierResponseError>>)
    requires IsQuoteOf(n, ratesErrors, answers, extras, params, config, vehicles, errors)
    ensures |vs| == |es| == n && ratesErrors <= errors
    ensures IsInterleaving(vehicles, vs) && IsInterleaving(errors[|ratesErrors|..], es)
    ensures forall i: nat | i < n :: IsOutcome(answers(i), extras, params, config, vs[i], es[i])
  {
    hide IsOutcome, IsInterleaving;
    vs, es :| && |vs| == |es| == n
              && IsInterleaving(vehicles, vs) && IsInterleaving(errors[|ratesErrors|..], es)
              && forall i: nat | i < n :: IsOutcome(answers(i), extras, params, config, vs[i], es[i]);
  }

  lemma ConfirmedOutcome(source: VehAvail, rate: Vehicle, a: QuoteAnswer, extras: seq<PricedEquip>,
                         params: Params, config: HertzConfiguration,
                         vehicles: seq<Vehicle>, errors: seq<SupplierResponseError>)
    requires Confirms(source, rate, a, extras, params, config)
    requires IsOutcome(a, extras, params, config, vehicles, errors)
    ensures vehicles == [rate] && errors == []
  {
    hide PricedOffer;
    assert AvailOffer(source) == ReservationOffer(a.reservation);
  }

  /** How many the collected vehicles and errors are. */
  lemma QuoteNumbers(rates: seq<Vehicle>, ratesErrors: seq<SupplierResponseError>, answers: nat -> QuoteAnswer,
                     extras: seq<PricedEquip>, params: Params, config: HertzConfiguration,
                     vehicles: seq<Vehicle>, errors: seq<SupplierResponseError>)
    requires ratesErrors <= errors
    requires IsInterleaving(vehicles, Q.VehicleParts(Attempts(rates, answers, extras, params, config)))
    requires IsInterleaving(errors[|ratesErrors|..], Q.ErrorParts(Attempts(rates, answers, extras, params, config)))
    ensures |vehicles| + |errors| == |rates| + |ratesErrors|
    ensures |vehicles| == |set i: nat | i < |rates| && answers(i).Answer? && answers(i).message == "" &&
                             var core := answers(i).reservation.segmentCore;
                             var rules := answers(i).reservation.segmentInfo.rules;
                             || ((params.paymentType == 1 || (params.paymentType == 0 && rules == []))
                                 && core.totalCharge.currency != "" && core.totalCharge.rateTotalAmount != 0.0)
                             || (params.paymentType == 0 && rules != [] && rules[0].ruleType == 2
                                 && rules[0].currency != "" && rules[0].amount != 0.0)|
  {
    var attempts := Attempts(rates, answers, extras, params, config);
    assert |attempts| == |rates|;
    hide *;
    AttemptsOutcome(rates, answers, extras, params, config);
    Q.NothingLostNothingAdded(attempts, vehicles, errors[|ratesErrors|..]);
    QuotedCalls(Q.VehicleParts(attempts), Q.ErrorParts(attempts), answers, extras, params, config, vehicles);
  }

  /** What each call has contributed. */
  lemma QuoteOutcomes(rates: seq<Vehicle>, ratesErrors: seq<SupplierResponseError>, answers: nat -> QuoteAnswer,
                      extras: seq<PricedEquip>, params: Params, config: HertzConfiguration,
                      vehicles: seq<Vehicle>, errors: seq<SupplierResponseError>)
    requires ratesErrors <= errors
    requires IsInterleaving(vehicles, Q.VehicleParts(Attempts(rates, answers, extras, params, config)))
    requires IsInterleaving(errors[|ratesErrors|..], Q.ErrorParts(Attempts(rates, answers, extras, params, config)))
    ensures IsQuoteOf(|rates|, ratesErrors, answers, extras, params, config, vehicles, errors)
    ensures exists vs: seq<seq<Vehicle>>, es: seq<seq<SupplierResponseError>> | |vs| == |es| == |rates| ::
              && IsInterleaving(vehicles, vs) && IsInterleaving(errors[|ratesErrors|..], es)
              && forall i: nat | i < |rates| ::
                  match answers(i)
                  case Panics =>
                    vs[i] == [] && es[i] == [SupplierResponseError(ConnectionError, "requesting supplier failed")]
                  case RequestFails(error) =>
                    vs[i] == [] && es[i] == [error]
                  case BadBody =>
                    vs[i] == [] && es[i] == [SupplierResponseError(SupplierError, "Invalid response from supplier")]
                  case Answer(message, reservation) =>
                    if message != "" then
                      vs[i] == [] && es[i] == [SupplierResponseError(SupplierError, message)]
                    else
                      match PricedOffer(ReservationOffer(reservation), extras, params, config)
                      case Priced(vehicle) => vs[i] == [vehicle] && es[i] == []
                      case Unpriced(reason) => vs[i] == [] && es[i] == [SupplierResponseError(SupplierError, reason)]
  {
    var attempts := Attempts(rates, answers, extras, params, config);
    assert |attempts| == |rates|;
    hide *;
    AttemptsOutcome(rates, answers, extras, params, config);
    Outcomes(ratesErrors, answers, extras, params, config, vehicles, errors,
             Q.VehicleParts(attempts), Q.ErrorParts(attempts));
  }

  lemma Outcomes(ratesErrors: seq<SupplierResponseError>, answers: nat -> QuoteAnswer, extras: seq<PricedEquip>,
                 params: Params, config: HertzConfiguration, vehicles: seq<Vehicle>, errors: seq<SupplierResponseError>,
                 vs: seq<seq<Vehicle>>, es: seq<seq<SupplierResponseError>>)
    requires |vs| == |es| && ratesErrors <= errors
    requires IsInterleaving(vehicles, vs) && IsInterleaving(errors[|ratesErrors|..], es)
    requires forall i: nat | i < |vs| :: IsOutcome(answers(i), extras, params, config, vs[i], es[i])
    ensures IsQuoteOf(|vs|, ratesErrors, answers, extras, params, config, vehicles, errors)
    ensures forall i: nat | i < |vs| ::
              match answers(i)
              case Panics =>
                vs[i] == [] && es[i] == [SupplierResponseError(ConnectionError, "requesting supplier failed")]
              case RequestFails(error) =>
                vs[i] == [] && es[i] == [error]
              case BadBody =>
                vs[i] == [] && es[i] == [SupplierResponseError(SupplierError, "Invalid response from supplier")]
              case Answer(message, reservation) =>
                if message != "" then
                  vs[i] == [] && es[i] == [SupplierResponseError(SupplierError, message)]
                else
                  match PricedOffer(ReservationOffer(reservation), extras, params, config)
                  case Priced(vehicle) => vs[i] == [vehicle] && es[i] == []
                  case Unpriced(reason) => vs[i] == [] && es[i] == [SupplierResponseError(SupplierError, reason)]
  {
    hide PricedOffer, IsInterleaving;
  }

  lemma Permuted<T(!new)>(merged: seq<T>, parts: seq<seq<T>>)
    requires IsInterleaving(merged, parts)
    ensures multiset(merged) == multiset(Concat(parts)) && |merged| == |Concat(parts)|
  {
    var senders :| Merges(merged, senders, parts);
    MergesPermutes(merged, senders, parts);
    assert |merged| == |multiset(merged)| == |multiset(Concat(parts))| == |Concat(parts)|;
  }

  lemma {:induction false} Singletons<T>(parts: seq<seq<T>>, items: seq<T>)
    requires |parts| == |items| && forall i | 0 <= i < |items| :: parts[i] == [items[i]]
    ensures Concat(parts) == items
  {
    if items != [] {
      Singletons(parts[1..], items[1..]);
      assert items == [items[0]] + items[1..];
    }
  }

  /** What the collected lists of the attempts are, call by call. */
  lemma AttemptsOutcome(rates: seq<Vehicle>, answers: nat -> QuoteAnswer, extras: seq<PricedEquip>,
                        params: Params, config: HertzConfiguration)
    ensures var attempts := Attempts(rates, answers, extras, params, config);
            var vs, es := Q.VehicleParts(attempts), Q.ErrorParts(attempts);
            && |vs| == |es| == |rates|
            && forall i: nat | i < |rates| :: IsOutcome(answers(i), extras, params, config, vs[i], es[i])
  {
    var attempts := Attempts(rates, answers, extras, params, config);
    forall i: nat | i < |rates|
      ensures IsOutcome(answers(i), extras, params, config, Q.VehicleParts(attempts)[i], Q.ErrorParts(attempts)[i])
    {
      assert Q.VehicleParts(attempts)[i] == Q.VehiclePart(AttemptFor(answers(i), extras, params, config));
      assert Q.ErrorParts(attempts)[i] == Q.ErrorPart(AttemptFor(answers(i), extras, params, config));
      hide *;
      AttemptOutcome(answers(i), extras, params, config);
    }
  }

  /** As many vehicles are quoted as calls are answered by a reservation that can be priced. */
  lemma QuotedCalls(vs: seq<seq<Vehicle>>, es: seq<seq<SupplierResponseError>>, answers: nat -> QuoteAnswer,
                    extras: seq<PricedEquip>, params: Params, config: HertzConfiguration, vehicles: seq<Vehicle>)
    requires |vs| == |es| && IsInterleaving(vehicles, vs)
    requires forall i: nat | i < |vs| :: IsOutcome(answers(i), extras, params, config, vs[i], es[i])
    ensures |vehicles| == |set i: nat | i < |vs| && answers(i).Answer? && answers(i).message == "" &&
                             var core := answers(i).reservation.segmentCore;
                             var rules := answers(i).reservation.segmentInfo.rules;
                             || ((params.paymentType == 1 || (params.paymentType == 0 && rules == []))
                                 && core.totalCharge.currency != "" && core.totalCharge.rateTotalAmount != 0.0)
                             || (params.paymentType == 0 && rules != [] && rules[0].ruleType == 2
                                 && rules[0].currency != "" && rules[0].amount != 0.0)|
  {
    hide *;
    forall i: nat | i < |vs|
      ensures |vs[i]| <= 1
      ensures vs[i] != [] <==>
              answers(i).Answer? && answers(i).message == "" &&
              var core := answers(i).reservation.segmentCore;
              var rules := answers(i).reservation.segmentInfo.rules;
              || ((params.paymentType == 1 || (params.paymentType == 0 && rules == []))
                  && core.totalCharge.currency != "" && core.totalCharge.rateTotalAmount != 0.0)
              || (params.paymentType == 0 && rules != [] && rules[0].ruleType == 2
                  && rules[0].currency != "" && rules[0].amount != 0.0)
    {
      QuotedWhen(answers(i), extras, params, config, vs[i], es[i]);
    }
    Permuted(vehicles, vs);
    ConcatCounts(vs);
    assert (set i | 0 <= i < |vs| && vs[i] != [])
        == set i: nat | i < |vs| && answers(i).Answer? && answers(i).message == "" &&
                        var core := answers(i).reservation.segmentCore;
                        var rules := answers(i).reservation.segmentInfo.rules;
                        || ((params.paymentType == 1 || (params.paymentType == 0 && rules == []))
                            && core.totalCharge.currency != "" && core.totalCharge.rateTotalAmount != 0.0)
                        || (params.paymentType == 0 && rules != [] && rules[0].ruleType == 2
                            && rules[0].currency != "" && rules[0].amount != 0.0);
  }

  /** A call is quoted exactly when its reservation can be priced. */
  lemma QuotedWhen(a: QuoteAnswer, extras: seq<PricedEquip>, params: Params, config: HertzConfiguration,
                   vehicles: seq<Vehicle>, errors: seq<SupplierResponseError>)
    requires IsOutcome(a, extras, params, config, vehicles, errors)
    ensures |vehicles| <= 1
    ensures vehicles != [] <==>
            a.Answer? && a.message == "" &&
            var core, rules := a.reservation.segmentCore, a.reservation.segmentInfo.rules;
            || ((params.paymentType == 1 || (params.paymentType == 0 && rules == []))
                && core.totalCharge.currency != "" && core.totalCharge.rateTotalAmount != 0.0)
            || (params.paymentType == 0 && rules != [] && rules[0].ruleType == 2
                && rules[0].currency != "" && rules[0].amount != 0.0)
  {
    if a.Answer? {
      PricingTheorems.PricedExactlyWhen(ReservationOffer(a.reservation), extras, params, config);
    }
    hide PricedOffer;
  }

  /** The goroutine of one vehicle, up to its send. */
  method Quote(a: QuoteAnswer, extras: seq<PricedEquip>, params: Params, config: HertzConfiguration)
    returns (attempt: Q.Attempt<Vehicle>)
    ensures attempt == AttemptFor(a, extras, params, config)
  {
    match a
    case Panics => return Q.Panics;
    case RequestFails(error) => return Q.RequestFails(error);
    case BadBody => return Q.BadBody;
    case Answer(message, reservation) =>
      if message != "" {
        return Q.Refused(message);
      }
      var parsed := ParseQuote(reservation, extras, params, config);
      return if parsed.Priced? then Q.Quoted(parsed.vehicle) else Q.Unpriced(parsed.message);
  }
}
