/** Pricing rules that the Hertz and ProfitMax packages have in common, text for text. */
module OtaPricing {
  import opened Wrappers
  import opened Ota
  import opened Selection

  // ---- TotalCharge.Price

  /** The base price in one table; Price is the source's sequence of conditions. */
  function BasePrice(c: TotalCharge, params: Params, rules: seq<PaymentRule>): (PriceAmount, string) {
    var none := PriceAmount(0.0, "");
    if IsPartialPayment(params) || FullWithoutPaymentRules(params, rules) then
      if c.currency == "" then (none, "Cant parse price from TotalCharge")
      else if c.rateTotalAmount == 0.0 then (none, "Unable to parse price from vehicle")
      else (PriceAmount(c.rateTotalAmount, c.currency), "")
    else if FullByPrepayRule(params, rules) then
      if rules[0].currency == "" then (none, "Cant parse price from PaymentRule")
      else if rules[0].amount == 0.0 then (none, "Unable to parse price from vehicle")
      else (PriceAmount(rules[0].amount, rules[0].currency), "")
    else (none, "Unable to parse price from vehicle")
  }

  method Price(c: TotalCharge, params: Params, rules: seq<PaymentRule>) returns (price: PriceAmount, err: string)
    ensures (price, err) == BasePrice(c, params, rules)
    ensures err == "" <==>
            || ((params.paymentType == 1 || (params.paymentType == 0 && rules == []))
                && c.currency != "" && c.rateTotalAmount != 0.0)
            || (params.paymentType == 0 && rules != [] && rules[0].ruleType == 2
                && rules[0].currency != "" && rules[0].amount != 0.0)
    ensures err == "" ==>
              price == if params.paymentType == 0 && rules != [] then PriceAmount(rules[0].amount, rules[0].currency)
                       else PriceAmount(c.rateTotalAmount, c.currency)
    ensures err == "Cant parse price from TotalCharge" <==>
            (params.paymentType == 1 || (params.paymentType == 0 && rules == [])) && c.currency == ""
    ensures err == "Cant parse price from PaymentRule" <==>
            params.paymentType == 0 && rules != [] && rules[0].ruleType == 2 && rules[0].currency == ""
    ensures err in {"", "Cant parse price from TotalCharge", "Cant parse price from PaymentRule",
                    "Unable to parse price from vehicle"}
  {
    price := PriceAmount(0.0, "");
    if IsPartialPayment(params) || FullWithoutPaymentRules(params, rules) {
      if c.currency == "" {
        return PriceAmount(0.0, ""), "Cant parse price from TotalCharge";
      }
      price := PriceAmount(c.rateTotalAmount, c.currency);
    }
    if IsFullPayment(params) && |rules| > 0 {
      var rule := rules[0];
      if rule.ruleType == RULE_PREPAY {
        if rule.currency == "" {
          return PriceAmount(0.0, ""), "Cant parse price from PaymentRule";
        }
        price := PriceAmount(rule.amount, rule.currency);
      }
    }
    if price.amount == 0.0 {
      return PriceAmount(0.0, ""), "Unable to parse price from vehicle";
    }
    err := "";
  }

  // ---- VehicleCharges.Charges

  const WHITELIST: seq<string> := ["2", "8", "23"]

  function ChargeLine(c: VehicleCharge): ExtraOrFee {
    var included := c.includedInRate && c.purpose != PURPOSE_ADDITIONAL_DISTANCE;
    ExtraOrFee(VCP, Itoa(c.purpose), c.description, PriceAmount(c.amount, c.currency),
               included, !included, c.purpose != PURPOSE_ADDITIONAL_DISTANCE)
  }

  /** The lines of the charges for purposes 2, 8 and 23, in order. */
  function ChargeLines(charges: seq<VehicleCharge>): seq<ExtraOrFee> {
    if charges == [] then []
    else
      var c := charges[|charges| - 1];
      ChargeLines(charges[..|charges| - 1]) + if c.purpose in {2, 8, 23} then [ChargeLine(c)] else []
  }

  lemma WhitelistedPurpose(n: int)
    ensures Itoa(n) in WHITELIST <==> n in {2, 8, 23}
  {
    assert Itoa(2) == "2" && Itoa(8) == "8" && Itoa(23) == Itoa(2) + ['3'] == "23";
    if Itoa(n) in WHITELIST {
      var m :| m in {2, 8, 23} && Itoa(n) == Itoa(m);
      ItoaInjective(n, m);
    }
  }

  method Charges(charges: seq<VehicleCharge>) returns (lines: seq<ExtraOrFee>)
    ensures lines == ChargeLines(charges)
  {
    lines := [];
    for i := 0 to |charges|
      invariant lines == ChargeLines(charges[..i])
    {
      var charge := charges[i];
      assert charges[..i + 1][..i] == charges[..i];
      WhitelistedPurpose(charge.purpose);
      if Itoa(charge.purpose) in WHITELIST {
        var includedInPrice := false;
        if charge.includedInRate && charge.purpose != PURPOSE_ADDITIONAL_DISTANCE {
          includedInPrice := true;
        }
        var mandatory := charge.purpose != PURPOSE_ADDITIONAL_DISTANCE;
        lines := lines + [ExtraOrFee(VCP, Itoa(charge.purpose), charge.description,
                                     PriceAmount(charge.amount, charge.currency),
                                     includedInPrice, !includedInPrice, mandatory)];
      }
    }
    assert charges[..|charges|] == charges;
  }

  /** There is one line for every charge of purpose 2, 8 or 23, in order; additional distance (8)
      is optional and never part of the rate. */
  lemma ChargesListed(charges: seq<VehicleCharge>) returns (from: seq<nat>)
    ensures Ascending(from, |charges|) && |from| == |ChargeLines(charges)|
    ensures forall i: nat | i < |charges| :: i in from <==> charges[i].purpose in {2, 8, 23}
    ensures forall k | 0 <= k < |from| ::
              var c, line := charges[from[k]], ChargeLines(charges)[k];
              && line.kind == VCP && line.name == c.description && line.price == PriceAmount(c.amount, c.currency)
              && line.code == (if c.purpose == 2 then "2" else if c.purpose == 8 then "8" else "23")
              && line.includedInRate == (c.includedInRate && c.purpose != 8)
              && line.payLocal != line.includedInRate && line.mandatory == (c.purpose != 8)
  {
    var listed := seq(|charges|, i requires 0 <= i < |charges| => charges[i].purpose in {2, 8, 23});
    from := Raised(listed, |charges|);
    RaisedAscends(listed, |charges|);
    ChargeLinesAt(charges, listed, |charges|);
    assert charges[..|charges|] == charges;
    hide ChargeLines, ChargeLine, Raised;
    forall k | 0 <= k < |from|
      ensures charges[from[k]].purpose in {2, 8, 23} && ChargeLines(charges)[k] == ChargeLine(charges[from[k]])
    {
      assert from[k] in from;
    }
    forall k | 0 <= k < |from| {
      LineOfCharge(charges[from[k]]);
    }
  }

  lemma {:induction false} ChargeLinesAt(charges: seq<VehicleCharge>, listed: seq<bool>, n: nat)
    requires n <= |charges| == |listed|
    requires forall i | 0 <= i < |charges| :: listed[i] <==> charges[i].purpose in {2, 8, 23}
    ensures var from, lines := Raised(listed, n), ChargeLines(charges[..n]);
            |lines| == |from| && forall k | 0 <= k < |from| :: from[k] < n && lines[k] == ChargeLine(charges[from[k]])
  {
    if n > 0 {
      ChargeLinesAt(charges, listed, n - 1);
      assert charges[..n][..n - 1] == charges[..n - 1];
    }
  }

  lemma LineOfCharge(c: VehicleCharge)
    requires c.purpose in {2, 8, 23}
    ensures var line := ChargeLine(c);
            && line.kind == VCP && line.name == c.description && line.price == PriceAmount(c.amount, c.currency)
            && line.code == (if c.purpose == 2 then "2" else if c.purpose == 8 then "8" else "23")
            && line.includedInRate == (c.includedInRate && c.purpose != 8)
            && line.payLocal != line.includedInRate && line.mandatory == (c.purpose != 8)
  {
    assert Itoa(2) == "2" && Itoa(8) == "8" && Itoa(23) == Itoa(2) + ['3'] == "23";
  }

  // ---- VehicleCharges.TaxCharge

  datatype TaxResult = TaxResult(multiplier: real, item: Option<ExtraOrFee>, partOfPrice: bool)

  function TaxesIn(taxes: seq<TaxAmount>): seq<TaxAmount> {
    if taxes == [] then []
    else
      var tax := taxes[|taxes| - 1];
      TaxesIn(taxes[..|taxes| - 1]) + if tax.description == "Tax" then [tax] else []
  }

  /** All "Tax" entries of all rental-fee charges, flattened, in order. */
  function TaxEntries(charges: seq<VehicleCharge>): seq<TaxAmount> {
    if charges == [] then []
    else
      var c := charges[|charges| - 1];
      TaxEntries(charges[..|charges| - 1]) + if c.purpose == PURPOSE_RENTAL_FEE then TaxesIn(c.taxAmounts) else []
  }

  function Multiplier(tax: TaxAmount): real {
    1.0 + tax.percentage / 100.0
  }

  function TaxLine(tax: TaxAmount, payLocal: bool): ExtraOrFee {
    ExtraOrFee(VCP, Itoa(PURPOSE_TAX), "Tax", PriceAmount(tax.total, tax.currency), false, payLocal, true)
  }

  predicate TakesFirstTax(params: Params, rules: seq<PaymentRule>) {
    IsPartialPayment(params) || FullWithoutPaymentRules(params, rules)
  }

  function FirstTaxResult(tax: TaxAmount, params: Params, rules: seq<PaymentRule>,
                          priceWithTax: bool, payFeesLocally: bool): TaxResult
  {
    if FullWithoutPaymentRules(params, rules) && priceWithTax then TaxResult(Multiplier(tax), None, true)
    else TaxResult(Multiplier(tax), Some(TaxLine(tax, if IsFullPayment(params) then payFeesLocally else true)), false)
  }

  /** Which entry decides: the first one under partial prepay and full prepay without rules, else
      the last. Only the first one can become a line item or part of the vehicle price. */
  function SelectTax(entries: seq<TaxAmount>, params: Params, rules: seq<PaymentRule>,
                     priceWithTax: bool, payFeesLocally: bool): TaxResult
  {
    if entries == [] then TaxResult(1.0, None, false)
    else if !TakesFirstTax(params, rules) then TaxResult(Multiplier(entries[|entries| - 1]), None, false)
    else FirstTaxResult(entries[0], params, rules, priceWithTax, payFeesLocally)
  }

  lemma {:induction false} TaxEntriesPrefix(charges: seq<VehicleCharge>, i: nat)
    requires i <= |charges|
    ensures TaxEntries(charges[..i]) <= TaxEntries(charges)
  {
    if i == |charges| {
      assert charges[..i] == charges;
    } else {
      TaxEntriesPrefix(charges[..|charges| - 1], i);
      assert charges[..|charges| - 1][..i] == charges[..i];
    }
  }

  lemma {:induction false} TaxesInPrefix(taxes: seq<TaxAmount>, j: nat)
    requires j <= |taxes|
    ensures TaxesIn(taxes[..j]) <= TaxesIn(taxes)
  {
    if j == |taxes| {
      assert taxes[..j] == taxes;
    } else {
      TaxesInPrefix(taxes[..|taxes| - 1], j);
      assert taxes[..|taxes| - 1][..j] == taxes[..j];
    }
  }

  lemma TaxesInStep(taxes: seq<TaxAmount>, j: nat)
    requires j < |taxes|
    ensures TaxesIn(taxes[..j + 1]) == TaxesIn(taxes[..j]) + if taxes[j].description == "Tax" then [taxes[j]] else []
  {
    assert taxes[..j + 1][..j] == taxes[..j];
  }

  lemma TaxEntriesStep(charges: seq<VehicleCharge>, i: nat)
    requires i < |charges|
    ensures TaxEntries(charges[..i + 1]) == TaxEntries(charges[..i])
            + if charges[i].purpose == PURPOSE_RENTAL_FEE then TaxesIn(charges[i].taxAmounts) else []
  {
    assert charges[..i + 1][..i] == charges[..i];
  }

  /** The first "Tax" entry the nested loops come to is the first of the flattened list, and
      decides when the payment takes the first one. */
  lemma FirstTaxDecides(charges: seq<VehicleCharge>, i: nat, j: nat,
                        params: Params, rules: seq<PaymentRule>, priceWithTax: bool, payFeesLocally: bool)
    requires i < |charges| && charges[i].purpose == PURPOSE_RENTAL_FEE && j < |charges[i].taxAmounts|
    requires charges[i].taxAmounts[j].description == "Tax"
    requires TaxEntries(charges[..i]) == [] && TaxesIn(charges[i].taxAmounts[..j]) == []
    requires TakesFirstTax(params, rules)
    ensures SelectTax(TaxEntries(charges), params, rules, priceWithTax, payFeesLocally)
         == FirstTaxResult(charges[i].taxAmounts[j], params, rules, priceWithTax, payFeesLocally)
  {
    TaxesInStep(charges[i].taxAmounts, j);
    TaxesInPrefix(charges[i].taxAmounts, j + 1);
    TaxEntriesStep(charges, i);
    TaxEntriesPrefix(charges, i + 1);
  }

  /** What the loops know after the entries seen so far: none, if they would have returned. */
  ghost predicate StillLooking(entries: seq<TaxAmount>, params: Params, rules: seq<PaymentRule>, multiplier: real) {
    && (TakesFirstTax(params, rules) ==> entries == [])
    && multiplier == if entries == [] then 1.0 else Multiplier(entries[|entries| - 1])
  }

  lemma FirstTaxCases(tax: TaxAmount, params: Params, rules: seq<PaymentRule>, priceWithTax: bool, payFeesLocally: bool)
    ensures FirstTaxResult(tax, params, rules, priceWithTax, payFeesLocally)
         == if FullWithoutPaymentRules(params, rules) && priceWithTax then TaxResult(Multiplier(tax), None, true)
            else TaxResult(Multiplier(tax), Some(TaxLine(tax, IsFullPayment(params) ==> payFeesLocally)), false)
  {
  }

  lemma NextTax(before: seq<TaxAmount>, taxes: seq<TaxAmount>, j: nat, params: Params, rules: seq<PaymentRule>,
                multiplier: real)
    requires j < |taxes| && StillLooking(before + TaxesIn(taxes[..j]), params, rules, multiplier)
    ensures taxes[j].description != "Tax" ==> StillLooking(before + TaxesIn(taxes[..j + 1]), params, rules, multiplier)
    ensures taxes[j].description == "Tax" && TakesFirstTax(params, rules) ==> before == [] && TaxesIn(taxes[..j]) == []
    ensures taxes[j].description == "Tax" && !TakesFirstTax(params, rules) ==>
              StillLooking(before + TaxesIn(taxes[..j + 1]), params, rules, Multiplier(taxes[j]))
  {
    TaxesInStep(taxes, j);
    var entries := before + TaxesIn(taxes[..j]);
    hide TaxesIn;
    assert before + (TaxesIn(taxes[..j]) + [taxes[j]]) == entries + [taxes[j]];
    assert before + (TaxesIn(taxes[..j]) + []) == entries;
  }

  lemma LastTaxDecides(entries: seq<TaxAmount>, params: Params, rules: seq<PaymentRule>,
                       priceWithTax: bool, payFeesLocally: bool, multiplier: real)
    requires StillLooking(entries, params, rules, multiplier)
    ensures SelectTax(entries, params, rules, priceWithTax, payFeesLocally) == TaxResult(multiplier, None, false)
  {
  }

  // The positions behind the flattened list.

  lemma {:induction false} NoTaxIn(taxes: seq<TaxAmount>, j: nat)
    requires j <= |taxes|
    ensures TaxesIn(taxes[..j]) == [] <==> forall y | 0 <= y < j :: taxes[y].description != "Tax"
  {
    if j > 0 {
      NoTaxIn(taxes, j - 1);
      TaxesInStep(taxes, j - 1);
      hide TaxesIn;
    }
  }

  lemma {:induction false} FirstTaxIn(taxes: seq<TaxAmount>) returns (j: nat)
    requires TaxesIn(taxes) != []
    ensures j < |taxes| && taxes[j].description == "Tax" && TaxesIn(taxes)[0] == taxes[j]
    ensures forall y | 0 <= y < j :: taxes[y].description != "Tax"
  {
    var n := |taxes| - 1;
    if TaxesIn(taxes[..n]) != [] {
      j := FirstTaxIn(taxes[..n]);
    } else {
      NoTaxIn(taxes, n);
      j := n;
    }
  }

  lemma {:induction false} LastTaxIn(taxes: seq<TaxAmount>) returns (j: nat)
    requires TaxesIn(taxes) != []
    ensures j < |taxes| && taxes[j].description == "Tax" && TaxesIn(taxes)[|TaxesIn(taxes)| - 1] == taxes[j]
    ensures forall y | j < y < |taxes| :: taxes[y].description != "Tax"
  {
    var n := |taxes| - 1;
    if taxes[n].description == "Tax" {
      j := n;
    } else {
      assert TaxesIn(taxes) == TaxesIn(taxes[..n]);
      j := LastTaxIn(taxes[..n]);
    }
  }

  lemma {:induction false} NoTaxBefore(charges: seq<VehicleCharge>, i: nat)
    requires i <= |charges|
    ensures TaxEntries(charges[..i]) == [] <==>
            forall x, y | 0 <= x < i && 0 <= y < |charges[x].taxAmounts| ::
              !(charges[x].purpose == 1 && charges[x].taxAmounts[y].description == "Tax")
  {
    if i > 0 {
      var taxes := charges[i - 1].taxAmounts;
      NoTaxBefore(charges, i - 1);
      TaxEntriesStep(charges, i - 1);
      NoTaxIn(taxes, |taxes|);
      assert taxes[..|taxes|] == taxes;
      hide TaxesIn, TaxEntries;
    }
  }

  lemma {:induction false} FirstTaxAt(charges: seq<VehicleCharge>) returns (i: nat, j: nat)
    requires TaxEntries(charges) != []
    ensures i < |charges| && charges[i].purpose == 1 && j < |charges[i].taxAmounts|
    ensures charges[i].taxAmounts[j].description == "Tax" && TaxEntries(charges)[0] == charges[i].taxAmounts[j]
    ensures forall x, y | 0 <= x <= i && 0 <= y < |charges[x].taxAmounts| && (x < i || y < j) ::
              !(charges[x].purpose == 1 && charges[x].taxAmounts[y].description == "Tax")
  {
    var n := |charges| - 1;
    if TaxEntries(charges[..n]) != [] {
      i, j := FirstTaxAt(charges[..n]);
    } else {
      i := n;
      j := FirstTaxIn(charges[n].taxAmounts);
      NoTaxBefore(charges, n);
      hide TaxesIn;
    }
  }

  lemma {:induction false} LastTaxBefore(charges: seq<VehicleCharge>, n: nat) returns (i: nat, j: nat)
    requires n <= |charges| && TaxEntries(charges[..n]) != []
    ensures i < n && charges[i].purpose == 1 && j < |charges[i].taxAmounts|
    ensures charges[i].taxAmounts[j].description == "Tax"
    ensures TaxEntries(charges[..n])[|TaxEntries(charges[..n])| - 1] == charges[i].taxAmounts[j]
    ensures forall x, y | i <= x < n && 0 <= y < |charges[x].taxAmounts| && (i < x || j < y) ::
              !(charges[x].purpose == 1 && charges[x].taxAmounts[y].description == "Tax")
  {
    assert n > 0 by {
      assert charges[..0] == [];
    }
    hide *;
    var k: nat := n - 1;
    var taxes := charges[k].taxAmounts;
    var before, here := TaxEntries(charges[..k]), TaxesIn(taxes);
    TaxEntriesStep(charges, k);
    NoTaxIn(taxes, |taxes|);
    assert taxes[..|taxes|] == taxes;
    if charges[k].purpose == 1 && here != [] {
      i := k;
      j := LastTaxIn(taxes);
      assert (before + here)[|before + here| - 1] == here[|here| - 1];
    } else {
      assert before + [] == before;
      i, j := LastTaxBefore(charges, k);
      assert forall y | 0 <= y < |taxes| :: !(charges[k].purpose == 1 && taxes[y].description == "Tax");
    }
  }

  /** What the selection means for the charges themselves. */
  lemma SelectedTax(charges: seq<VehicleCharge>, params: Params, rules: seq<PaymentRule>,
                    priceWithTax: bool, payFeesLocally: bool) returns (i: nat, j: nat)
    ensures var res := SelectTax(TaxEntries(charges), params, rules, priceWithTax, payFeesLocally);
            if forall x, y | 0 <= x < |charges| && 0 <= y < |charges[x].taxAmounts| ::
                 !(charges[x].purpose == 1 && charges[x].taxAmounts[y].description == "Tax")
            then
              res == TaxResult(1.0, None, false)
            else
              && i < |charges| && j < |charges[i].taxAmounts| && charges[i].purpose == 1
              && charges[i].taxAmounts[j].description == "Tax"
              && var t := charges[i].taxAmounts[j];
                 && 100.0 * res.multiplier == 100.0 + t.percentage
                 && if params.paymentType == 1 || (params.paymentType == 0 && rules == []) then
                      && (forall x, y | 0 <= x <= i && 0 <= y < |charges[x].taxAmounts| && (x < i || y < j) ::
                            !(charges[x].purpose == 1 && charges[x].taxAmounts[y].description == "Tax"))
                      && res.partOfPrice == (params.paymentType == 0 && priceWithTax)
                      && res.item == if params.paymentType == 0 && priceWithTax then None
                                     else Some(ExtraOrFee(VCP, "7", "Tax", PriceAmount(t.total, t.currency), false,
                                                          params.paymentType == 1 || payFeesLocally, true))
                    else
                      && (forall x, y | i <= x < |charges| && 0 <= y < |charges[x].taxAmounts| && (i < x || j < y) ::
                            !(charges[x].purpose == 1 && charges[x].taxAmounts[y].description == "Tax"))
                      && res.item.None? && !res.partOfPrice
  {
    NoTaxBefore(charges, |charges|);
    assert charges[..|charges|] == charges;
    i, j := 0, 0;
    if TaxEntries(charges) != [] {
      if TakesFirstTax(params, rules) {
        i, j := FirstTaxAt(charges);
      } else {
        i, j := LastTaxBefore(charges, |charges|);
      }
      assert Itoa(7) == "7";
      hide TaxEntries, TaxesIn;
    }
  }

  method TaxCharge(charges: seq<VehicleCharge>, params: Params, rules: seq<PaymentRule>,
                   fpPaynowVehiclePriceWithTax: bool, fpPayFeesLocally: bool) returns (res: TaxResult)
    ensures res == SelectTax(TaxEntries(charges), params, rules, fpPaynowVehiclePriceWithTax, fpPayFeesLocally)
    ensures !(res.item.Some? && res.partOfPrice)
    // no "Tax" entry in a rental-fee charge
    ensures (forall x, y | 0 <= x < |charges| && 0 <= y < |charges[x].taxAmounts| ::
               !(charges[x].purpose == 1 && charges[x].taxAmounts[y].description == "Tax")) ==>
              res == TaxResult(1.0, None, false)
    // or the first or the last such entry, (x, y), decides
    ensures (exists x, y | 0 <= x < |charges| && 0 <= y < |charges[x].taxAmounts| ::
               charges[x].purpose == 1 && charges[x].taxAmounts[y].description == "Tax") ==>
              exists i, j | 0 <= i < |charges| && 0 <= j < |charges[i].taxAmounts| ::
                && charges[i].purpose == 1 && charges[i].taxAmounts[j].description == "Tax"
                && 100.0 * res.multiplier == 100.0 + charges[i].taxAmounts[j].percentage
                && (res.item.Some? ==>
                      res.item.value.price
                      == PriceAmount(charges[i].taxAmounts[j].total, charges[i].taxAmounts[j].currency))
                && if params.paymentType == 1 || (params.paymentType == 0 && rules == []) then
                     && res.partOfPrice == (params.paymentType == 0 && fpPaynowVehiclePriceWithTax)
                     && res.item.None? == res.partOfPrice
                     && forall x, y | 0 <= x <= i && 0 <= y < |charges[x].taxAmounts| && (x < i || y < j) ::
                          !(charges[x].purpose == 1 && charges[x].taxAmounts[y].description == "Tax")
                   else
                     && !res.partOfPrice && res.item.None?
                     && forall x, y | i <= x < |charges| && 0 <= y < |charges[x].taxAmounts| && (i < x || j < y) ::
                          !(charges[x].purpose == 1 && charges[x].taxAmounts[y].description == "Tax")
  {
    res := ScanTaxes(charges, params, rules, fpPaynowVehiclePriceWithTax, fpPayFeesLocally);
    ghost var i, j := SelectedTax(charges, params, rules, fpPaynowVehiclePriceWithTax, fpPayFeesLocally);
  }

  /** The nested loops. */
  method ScanTaxes(charges: seq<VehicleCharge>, params: Params, rules: seq<PaymentRule>,
                   fpPaynowVehiclePriceWithTax: bool, fpPayFeesLocally: bool) returns (res: TaxResult)
    ensures res == SelectTax(TaxEntries(charges), params, rules, fpPaynowVehiclePriceWithTax, fpPayFeesLocally)
  {
    assert TaxEntries([]) == [] && TaxesIn([]) == [];
    assert charges[..0] == [];
    var taxMultiplier := 1.0;
    assert StillLooking([], params, rules, taxMultiplier);
    hide TaxEntries, TaxesIn, SelectTax, Itoa, StillLooking, FirstTaxResult;
    for i := 0 to |charges|
      invariant StillLooking(TaxEntries(charges[..i]), params, rules, taxMultiplier)
    {
      var charge := charges[i];
      TaxEntriesStep(charges, i);
      assert charge.taxAmounts[..0] == [];
      ghost var before := TaxEntries(charges[..i]);
      assert before + [] == before;
      if charge.purpose == PURPOSE_RENTAL_FEE && |charge.taxAmounts| > 0 {
        for j := 0 to |charge.taxAmounts|
          invariant StillLooking(before + TaxesIn(charge.taxAmounts[..j]), params, rules, taxMultiplier)
        {
          var tax := charge.taxAmounts[j];
          NextTax(before, charge.taxAmounts, j, params, rules, taxMultiplier);
          if tax.description == "Tax" {
            taxMultiplier := 1.0 + (tax.percentage / 100.0);
            var taxAmountForVehicle := tax.total;
            FirstTaxCases(tax, params, rules, fpPaynowVehiclePriceWithTax, fpPayFeesLocally);
            if TakesFirstTax(params, rules) {
              FirstTaxDecides(charges, i, j, params, rules, fpPaynowVehiclePriceWithTax, fpPayFeesLocally);
            }

            if fpPaynowVehiclePriceWithTax && FullWithoutPaymentRules(params, rules) {
              return TaxResult(taxMultiplier, None, true);
            }

            var payLocal := true;
            if IsFullPayment(params) {
              payLocal := fpPayFeesLocally;
            }

            if IsPartialPayment(params) || (!fpPaynowVehiclePriceWithTax && FullWithoutPaymentRules(params, rules)) {
              return TaxResult(taxMultiplier,
                               Some(ExtraOrFee(VCP, Itoa(PURPOSE_TAX), "Tax",
                                               PriceAmount(taxAmountForVehicle, tax.currency), false, payLocal, true)),
                               false);
            }
          }
        }
        assert charge.taxAmounts[..|charge.taxAmounts|] == charge.taxAmounts;
      }
    }
    assert charges[..|charges|] == charges;
    LastTaxDecides(TaxEntries(charges), params, rules, fpPaynowVehiclePriceWithTax, fpPayFeesLocally, taxMultiplier);
    return TaxResult(taxMultiplier, None, false);
  }

  function Taxed(amount: real, taxMultiplier: real): real {
    amount * taxMultiplier
  }

  lemma TaxedIsProduct(amount: real, taxMultiplier: real)
    ensures Taxed(amount, taxMultiplier) == amount * taxMultiplier
  {
  }

  // ---- Extras

  function ExtraLine(e: PricedEquip, taxMultiplier: real): ExtraOrFee {
    ExtraOrFee(EQP, e.equipType, e.equipType, PriceAmount(Taxed(e.amount, taxMultiplier), e.currency),
               e.includedInRate, !e.includedInRate, false)
  }

  function ExtraLines(extras: seq<PricedEquip>, taxMultiplier: real): seq<ExtraOrFee> {
    seq(|extras|, i requires 0 <= i < |extras| => ExtraLine(extras[i], taxMultiplier))
  }

  // ---- Coverage prices

  function ForDays(unitCharge: real, rentalDays: int): real {
    unitCharge * rentalDays as real
  }

  /** The price of the first calculation per day or per rental period. */
  function CalculatedPrice(calculations: seq<Calculation>, rentalDays: int): Option<real> {
    if calculations == [] then None
    else if calculations[0].unitName == "Day" then Some(ForDays(calculations[0].unitCharge, rentalDays))
    else if calculations[0].unitName == "RentalPeriod" then Some(calculations[0].unitCharge)
    else CalculatedPrice(calculations[1..], rentalDays)
  }

  function UntaxedPrice(c: PricedCoverage, rentalDays: int): Option<real> {
    if c.amount.Some? then c.amount else CalculatedPrice(c.calculations, rentalDays)
  }

  function PriceBeforeTax(c: PricedCoverage, rentalDays: int): Option<PriceAmount> {
    var amount := UntaxedPrice(c, rentalDays);
    if amount.Some? then Some(PriceAmount(amount.value, c.currency)) else None
  }

  method CoveragePrice(c: PricedCoverage, rentalDays: int) returns (price: Option<PriceAmount>)
    ensures price == PriceBeforeTax(c, rentalDays)
    ensures c.amount.Some? ==> price == Some(PriceAmount(c.amount.value, c.currency))
    ensures c.amount.None? && (forall i | 0 <= i < |c.calculations| ::
              c.calculations[i].unitName != "Day" && c.calculations[i].unitName != "RentalPeriod") ==>
              price.None?
    ensures c.amount.None? ==> forall i | 0 <= i < |c.calculations| ::
              c.calculations[i].unitName in {"Day", "RentalPeriod"}
              && (forall j | 0 <= j < i :: c.calculations[j].unitName !in {"Day", "RentalPeriod"}) ==>
                price == Some(PriceAmount(if c.calculations[i].unitName == "Day"
                                          then c.calculations[i].unitCharge * rentalDays as real
                                          else c.calculations[i].unitCharge,
                                          c.currency))
  {
    price := Scan(c, rentalDays);
    forall i | 0 <= i < |c.calculations| && c.calculations[i].unitName in {"Day", "RentalPeriod"}
               && (forall j | 0 <= j < i :: c.calculations[j].unitName !in {"Day", "RentalPeriod"})
      ensures CalculatedPrice(c.calculations, rentalDays)
           == Some(if c.calculations[i].unitName == "Day" then c.calculations[i].unitCharge * rentalDays as real
                   else c.calculations[i].unitCharge)
    {
      FirstCalculation(c.calculations, rentalDays, i);
      assert ForDays(c.calculations[i].unitCharge, rentalDays) == c.calculations[i].unitCharge * rentalDays as real;
    }
    NoCalculation(c.calculations, rentalDays);
  }

  lemma {:induction false} FirstCalculation(calculations: seq<Calculation>, rentalDays: int, i: nat)
    requires i < |calculations| && calculations[i].unitName in {"Day", "RentalPeriod"}
    requires forall j | 0 <= j < i :: calculations[j].unitName !in {"Day", "RentalPeriod"}
    ensures CalculatedPrice(calculations, rentalDays)
         == Some(if calculations[i].unitName == "Day" then ForDays(calculations[i].unitCharge, rentalDays)
                 else calculations[i].unitCharge)
  {
    hide ForDays;
    if i > 0 {
      assert calculations[0].unitName !in {"Day", "RentalPeriod"};
      FirstCalculation(calculations[1..], rentalDays, i - 1);
      assert calculations[1..][i - 1] == calculations[i];
    }
  }

  lemma {:induction false} NoCalculation(calculations: seq<Calculation>, rentalDays: int)
    ensures CalculatedPrice(calculations, rentalDays).None? <==>
            forall i | 0 <= i < |calculations| :: calculations[i].unitName !in {"Day", "RentalPeriod"}
  {
    if calculations != [] {
      NoCalculation(calculations[1..], rentalDays);
      assert forall i | 0 < i < |calculations| :: calculations[i] == calculations[1..][i - 1];
    }
  }

  /** A coverage has a price when it states one or has a calculation that can be used. */
  lemma HasPriceWhen(c: PricedCoverage, rentalDays: int)
    ensures PriceBeforeTax(c, rentalDays).Some? <==>
            c.amount.Some?
            || exists i | 0 <= i < |c.calculations| :: c.calculations[i].unitName in {"Day", "RentalPeriod"}
    ensures PriceBeforeTax(c, rentalDays).Some? ==> PriceBeforeTax(c, rentalDays).value.currency == c.currency
  {
    NoCalculation(c.calculations, rentalDays);
  }

  method Scan(c: PricedCoverage, rentalDays: int) returns (price: Option<PriceAmount>)
    ensures price == PriceBeforeTax(c, rentalDays)
  {
    price := None;
    if c.amount.Some? {
      price := Some(PriceAmount(c.amount.value, c.currency));
    }
    if price.None? {
      for i := 0 to |c.calculations|
        invariant price.None?
        invariant CalculatedPrice(c.calculations, rentalDays) == CalculatedPrice(c.calculations[i..], rentalDays)
      {
        var calculation := c.calculations[i];
        assert c.calculations[i..][0] == calculation && c.calculations[i..][1..] == c.calculations[i + 1..];
        if calculation.unitName == "Day" {
          price := Some(PriceAmount(ForDays(calculation.unitCharge, rentalDays), c.currency));
          break;
        } else if calculation.unitName == "RentalPeriod" {
          price := Some(PriceAmount(calculation.unitCharge, c.currency));
          break;
        }
      }
      assert price.None? ==> CalculatedPrice(c.calculations, rentalDays) == CalculatedPrice([], rentalDays);
    }
  }

  // ---- Totals

  /** The sum of the prices of the mandatory lines. */
  function MandatoryTotal(lines: seq<ExtraOrFee>): real {
    if lines == [] then 0.0
    else
      var line := lines[|lines| - 1];
      MandatoryTotal(lines[..|lines| - 1]) + if line.mandatory then line.price.amount else 0.0
  }

  lemma TotalSnoc(lines: seq<ExtraOrFee>, line: ExtraOrFee)
    ensures MandatoryTotal([]) == 0.0
    ensures MandatoryTotal(lines + [line]) == MandatoryTotal(lines) + if line.mandatory then line.price.amount else 0.0
  {
    assert (lines + [line])[..|lines|] == lines;
  }
}
