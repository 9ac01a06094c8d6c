/** What each line of a result amounts to, told from the input and the stored rule rows alone. */
module LineFormulas {
  import opened Options
  import opened Decimals
  import opened Sequences
  import opened LandedCost
  import opened RuleOrder
  import opened RuleLookup

  predicate Costs(line: CostLine, exact: Decimal) {
    line.complete && line.amount == Some(Quantize(exact))
  }

  predicate Missing(line: CostLine) {
    !line.complete && line.amount.None?
  }

  // ---- The lines before the switches

  /** The twelve lines, each before it could be switched off. */
  ghost function Before(data: LandedCostInput, taxes: seq<TaxFact>, fees: seq<FeeFact>, lines: seq<CostLine>)
    : (raw: seq<CostLine>)
    requires |lines| == |LINE_CODES|
    ensures |raw| == |LINE_CODES|
  {
    var c := data.sellingCurrency;
    [PurchaseLine(data, c), FirstMileLine(data, fees, c, lines[0]), DutyLine(data, taxes, c),
     ImportTaxLine(data, taxes, c, lines[2]), BrokerageLine(data, fees, c), StorageLine(data, fees, c),
     FxReserveLine(fees, data.channel, c, lines[..6])] + PriceLines(data.sellingPrice, fees, data.channel, c)
  }

  lemma BeforeGate(data: LandedCostInput, taxes: seq<TaxFact>, fees: seq<FeeFact>, off: set<LineCode>)
    ensures
      var lines := ComputeLandedCost(data, taxes, fees, off).lines;
      && |lines| == |LINE_CODES|
      && forall i :: 0 <= i < |LINE_CODES| ==>
           lines[i] == Gate(Before(data, taxes, fees, lines)[i], off, data.sellingCurrency)
  {
    hide PurchaseLine, FirstMileLine, DutyLine, ImportTaxLine, BrokerageLine, StorageLine, FxReserveLine, RateOfPrice,
         FulfillmentLine, ReturnLine, Gate, Total, Percent, Invested;
    var landed, deductions := LandedLines(data, taxes, fees, off), Deductions(data, fees, off);
    var lines := ComputeLandedCost(data, taxes, fees, off).lines;
    assert lines == landed + deductions;
    assert lines[..6] == landed[..6];
    assert forall i :: 0 <= i < 7 ==> lines[i] == landed[i];
    assert forall i :: 0 <= i < 5 ==> lines[7 + i] == deductions[i];
  }

  /** Every line keeps its place; a switched-off one is a complete zero. */
  lemma SwitchedOff(data: LandedCostInput, taxes: seq<TaxFact>, fees: seq<FeeFact>, off: set<LineCode>)
    ensures
      var lines := ComputeLandedCost(data, taxes, fees, off).lines;
      && |lines| == |LINE_CODES|
      && forall i :: 0 <= i < |LINE_CODES| ==>
           && lines[i].code == LINE_CODES[i]
           && lines[i].complete == lines[i].amount.Some?
           && (LINE_CODES[i] in off ==> lines[i].complete && lines[i].amount == Some(0.0))
           && (LINE_CODES[i] !in off ==> lines[i] == Before(data, taxes, fees, lines)[i])
  {
    BeforeGate(data, taxes, fees, off);
    var lines := ComputeLandedCost(data, taxes, fees, off).lines;
    ResultWellFormed(data, taxes, fees, off);
    hide ComputeLandedCost, Before, OnGrid;
  }

  lemma LandedAre(data: LandedCostInput, taxes: seq<TaxFact>, fees: seq<FeeFact>, off: set<LineCode>)
    ensures
      var lines := ComputeLandedCost(data, taxes, fees, off).lines;
      var c := data.sellingCurrency;
      && |lines| == 12
      && lines[0].complete == lines[0].amount.Some? && lines[2].complete == lines[2].amount.Some?
      && (PURCHASE !in off ==> lines[0] == PurchaseLine(data, c))
      && (FIRST_MILE !in off ==> lines[1] == FirstMileLine(data, fees, c, lines[0]))
      && (DUTY !in off ==> lines[2] == DutyLine(data, taxes, c))
      && (IMPORT_TAX !in off ==> lines[3] == ImportTaxLine(data, taxes, c, lines[2]))
      && (BROKERAGE !in off ==> lines[4] == BrokerageLine(data, fees, c))
      && (STORAGE !in off ==> lines[5] == StorageLine(data, fees, c))
      && (FX_RESERVE !in off ==> lines[6] == FxReserveLine(fees, data.channel, c, lines[..6]))
  {
    SwitchedOff(data, taxes, fees, off);
    hide ComputeLandedCost, PurchaseLine, FirstMileLine, DutyLine, ImportTaxLine, BrokerageLine, StorageLine,
         FxReserveLine, RateOfPrice, FulfillmentLine, ReturnLine;
    assert LINE_CODES[0] == PURCHASE && LINE_CODES[1] == FIRST_MILE && LINE_CODES[2] == DUTY;
    assert LINE_CODES[3] == IMPORT_TAX && LINE_CODES[4] == BROKERAGE && LINE_CODES[5] == STORAGE;
    assert LINE_CODES[6] == FX_RESERVE;
  }

  // ---- Purchase

  lemma QuotientNear(x: Decimal, rate: Decimal)
    requires rate > 0.0
    ensures Abs(Quantize(x / rate) * rate - x) <= HALF_MICRO * rate
  {
    var q, exact := Quantize(x / rate), x / rate;
    QuantizeNear(exact);
    hide Quantize;
    TimesOver(x, rate);
    TimesMonotone(q, exact + HALF_MICRO, rate);
    TimesMonotone(exact - HALF_MICRO, q, rate);
    TimesAdd(exact, HALF_MICRO, rate);
  }

  /** The purchase line: a gap exactly when amount or currency is missing, or the currencies differ without a
      positive rate; in the selling currency the amount itself, in another the amount that the rate turns back into
      what was paid, both to half a micro-unit. */
  lemma PurchaseFormula(data: LandedCostInput, taxes: seq<TaxFact>, fees: seq<FeeFact>, off: set<LineCode>)
    requires PURCHASE !in off
    ensures
      var lines := ComputeLandedCost(data, taxes, fees, off).lines;
      var same := data.purchaseCurrency == Some(data.sellingCurrency);
      var known :=
        && data.purchaseAmount.Some? && data.purchaseCurrency.Some? && data.purchaseCurrency.value != ""
        && (same || (data.fxRate.Some? && data.fxRate.value > 0.0));
      && |lines| == 12
      && (if known then lines[0].complete && lines[0].amount.Some? else Missing(lines[0]))
      && (known && same ==> Abs(lines[0].amount.value - data.purchaseAmount.value) <= HALF_MICRO)
      && (known && !same ==>
            Abs(lines[0].amount.value * data.fxRate.value - data.purchaseAmount.value)
            <= HALF_MICRO * data.fxRate.value)
  {
    LandedAre(data, taxes, fees, off);
    hide ComputeLandedCost, Quantize, FirstMileLine, DutyLine, ImportTaxLine, BrokerageLine, StorageLine, FxReserveLine;
    if data.purchaseAmount.Some? {
      QuantizeNear(data.purchaseAmount.value);
      if data.fxRate.Some? && data.fxRate.value > 0.0 {
        QuotientNear(data.purchaseAmount.value, data.fxRate.value);
      }
    }
  }

  // ---- First mile

  /** The freight share by weight, volume or value. By value the declared value counts if it is in the selling
      currency, otherwise what was paid for the unit. */
  lemma FirstMileShareFormula(data: LandedCostInput, taxes: seq<TaxFact>, fees: seq<FeeFact>, off: set<LineCode>)
    requires FIRST_MILE !in off && data.firstMileMethod in {WEIGHT, VOLUME, VALUE}
    ensures
      var lines := ComputeLandedCost(data, taxes, fees, off).lines;
      var declared := data.declaredCurrency == Some(data.sellingCurrency) && data.declaredValue.Some?;
      && |lines| == 12
      && (var unit, whole :=
            if data.firstMileMethod == WEIGHT then data.weightG
            else if data.firstMileMethod == VOLUME then data.volumeCm3
            else if declared then data.declaredValue
            else lines[0].amount,
            if data.firstMileMethod == WEIGHT then data.shipmentWeightG
            else if data.firstMileMethod == VOLUME then data.shipmentVolumeCm3
            else data.shipmentValue;
          if data.shipmentCost.Some? && data.shipmentCurrency == Some(data.sellingCurrency)
             && unit.Some? && whole.Some? && whole.value > 0.0 then
            Costs(lines[1], Times(data.shipmentCost.value, unit.value) / whole.value)
          else Missing(lines[1]))
  {
    LandedAre(data, taxes, fees, off);
    hide ComputeLandedCost, Quantize, Times, PurchaseLine, DutyLine, ImportTaxLine, BrokerageLine, StorageLine,
         FxReserveLine;
  }

  /** What a first-mile rate row charges for this unit: a fixed amount, by cubic metres, or by kilograms - the actual
      weight or the volumetric one, whichever is more. */
  ghost function FirstMileCharge(data: LandedCostInput, row: FeeFact): Option<Decimal> {
    var actual := data.weightG;
    var volumetric := data.volumeCm3.Some? && row.volumetricDivisor.Some?;
    if row.charge == FIXED then Some(row.amount)
    else if row.charge == PER_CBM && data.volumeCm3.Some? then Some(Times(data.volumeCm3.value / 1000000.0, row.amount))
    else if row.charge == PER_KG && actual.Some?
            && (volumetric ==> data.volumeCm3.value / row.volumetricDivisor.value as real <= actual.value / 1000.0) then
      Some(Times(actual.value / 1000.0, row.amount))
    else if row.charge == PER_KG && volumetric then
      Some(Times(data.volumeCm3.value / row.volumetricDivisor.value as real, row.amount))
    else None
  }

  /** Freight by rate table, or by no method the engine knows. */
  lemma FirstMileChargeFormula(data: LandedCostInput, taxes: seq<TaxFact>, fees: seq<FeeFact>, off: set<LineCode>)
    requires FIRST_MILE !in off && data.firstMileMethod in {CHARGEABLE, UNSUPPORTED}
    ensures
      var lines := ComputeLandedCost(data, taxes, fees, off).lines;
      var row := FeeRule(fees, FirstMileFee, data.channel);
      && |lines| == 12
      && (if data.firstMileMethod == CHARGEABLE && row.Some? && row.value.currency == Some(data.sellingCurrency)
             && FirstMileCharge(data, row.value).Some? then
            Costs(lines[1], FirstMileCharge(data, row.value).value)
          else Missing(lines[1]))
  {
    LandedAre(data, taxes, fees, off);
    OnlyFeeIsRule(fees, FirstMileFee, data.channel);
    hide ComputeLandedCost, Quantize, Times, PurchaseLine, DutyLine, ImportTaxLine, BrokerageLine, StorageLine,
         FxReserveLine, OnlyFee, FeeRule;
  }

  // ---- Duty and import tax

  predicate DeclaredIn(data: LandedCostInput) {
    data.declaredValue.Some? && data.declaredCurrency == Some(data.sellingCurrency)
  }

  /** A rule's threshold cannot be compared with the declared value. */
  predicate ThresholdUnclear(rule: TaxFact, currency: string) {
    rule.thresholdAmount.Some? && rule.thresholdCurrency != Some(currency)
  }

  predicate BelowThreshold(rule: TaxFact, value: Decimal) {
    rule.thresholdAmount.Some? && value < rule.thresholdAmount.value
  }

  /** The duty: the rate on the declared value, nothing below the threshold. */
  lemma DutyFormula(data: LandedCostInput, taxes: seq<TaxFact>, fees: seq<FeeFact>, off: set<LineCode>)
    requires DUTY !in off
    ensures
      var lines := ComputeLandedCost(data, taxes, fees, off).lines;
      var rule := TaxRule(taxes, DUTY_TAX, data.hsCode);
      && |lines| == 12
      && (if rule.Some? && DeclaredIn(data) && !ThresholdUnclear(rule.value, data.sellingCurrency) then
            Costs(lines[2],
                  if BelowThreshold(rule.value, data.declaredValue.value) then 0.0
                  else Times(data.declaredValue.value, rule.value.rate))
          else Missing(lines[2]))
  {
    LandedAre(data, taxes, fees, off);
    PickTaxIsRule(taxes, DUTY_TAX, data.hsCode);
    hide ComputeLandedCost, Quantize, Times, PurchaseLine, FirstMileLine, ImportTaxLine, BrokerageLine, StorageLine,
         FxReserveLine, PickTax, TaxRule;
  }

  /** One type's part of the import tax, rounded: the rate on a fraction of declared value and duty; nothing without a
      rule or below its threshold. */
  ghost function TaxPart(data: LandedCostInput, taxes: seq<TaxFact>, taxType: TaxType, duty: Decimal): Decimal
    requires data.declaredValue.Some?
  {
    var rule := TaxRule(taxes, taxType, data.hsCode);
    if rule.None? || BelowThreshold(rule.value, data.declaredValue.value) then 0.0
    else
      var base := Times(data.declaredValue.value + duty, rule.value.basisNumerator as real)
        / rule.value.basisDenominator as real;
      Quantize(Times(base, rule.value.rate))
  }

  ghost predicate TaxUnclear(data: LandedCostInput, taxes: seq<TaxFact>, taxType: TaxType) {
    var rule := TaxRule(taxes, taxType, data.hsCode);
    rule.Some? && ThresholdUnclear(rule.value, data.sellingCurrency)
  }

  ghost function SumOfParts(data: LandedCostInput, taxes: seq<TaxFact>, types: seq<TaxType>, duty: Decimal): Decimal
    requires data.declaredValue.Some?
  {
    if types == [] then 0.0
    else TaxPart(data, taxes, types[0], duty) + SumOfParts(data, taxes, types[1..], duty)
  }

  lemma {:induction false} TotalIsSumOfParts(
    data: LandedCostInput, taxes: seq<TaxFact>, types: seq<TaxType>, duty: Decimal)
    requires data.declaredValue.Some?
    ensures
      var facts := PickTaxes(taxes, types, data.hsCode);
      var total := ImportTaxTotal(facts, data.declaredValue.value, duty, data.sellingCurrency);
      && (facts != [] <==> exists t :: t in types && TaxRule(taxes, t, data.hsCode).Some?)
      && (total.None? <==> exists t :: t in types && TaxUnclear(data, taxes, t))
      && (total.Some? ==> total.value == SumOfParts(data, taxes, types, duty) && OnGrid(total.value))
    decreases |types|
  {
    GridFromInteger(0);
    hide PickTax, TaxRule, Quantize, OnGrid, Times;
    if types != [] {
      var rest, facts := types[1..], PickTaxes(taxes, types, data.hsCode);
      TotalIsSumOfParts(data, taxes, rest, duty);
      PickTaxIsRule(taxes, types[0], data.hsCode);
      var rule := TaxRule(taxes, types[0], data.hsCode);
      assert facts == (if rule.Some? then [rule.value] else []) + PickTaxes(taxes, rest, data.hsCode);
      assert if rule.Some? then facts[1..] == PickTaxes(taxes, rest, data.hsCode) && facts[0] == rule.value
             else facts == PickTaxes(taxes, rest, data.hsCode);
      assert types == [types[0]] + rest;
      assert forall t :: t in types <==> t == types[0] || t in rest;
      if rule.Some? {
        var base := Times(data.declaredValue.value + duty, rule.value.basisNumerator as real)
          / rule.value.basisDenominator as real;
        QuantizeNear(Times(base, rule.value.rate));
      }
      assert OnGrid(TaxPart(data, taxes, types[0], duty));
      var later := PickTaxes(taxes, rest, data.hsCode);
      var tail := ImportTaxTotal(later, data.declaredValue.value, duty, data.sellingCurrency);
      assert ImportTaxTotal(facts, data.declaredValue.value, duty, data.sellingCurrency).None?
        <==> TaxUnclear(data, taxes, types[0]) || tail.None?;
      if tail.Some? {
        GridAdd(TaxPart(data, taxes, types[0], duty), tail.value);
      }
    }
  }

  /** The import tax: the five types' parts, each rounded, on the declared value and the duty of the same result. */
  lemma ImportTaxFormula(data: LandedCostInput, taxes: seq<TaxFact>, fees: seq<FeeFact>, off: set<LineCode>)
    requires IMPORT_TAX !in off
    ensures
      var lines := ComputeLandedCost(data, taxes, fees, off).lines;
      var ruled := (t: TaxType) => TaxRule(taxes, t, data.hsCode).Some?;
      var unclear := (t: TaxType) => TaxUnclear(data, taxes, t);
      && |lines| == 12
      && (if DeclaredIn(data) && lines[2].amount.Some?
             && (ruled(VAT) || ruled(GST) || ruled(SST) || ruled(PPN) || ruled(SALES_TAX))
             && !unclear(VAT) && !unclear(GST) && !unclear(SST) && !unclear(PPN) && !unclear(SALES_TAX) then
            var part := (t: TaxType) => TaxPart(data, taxes, t, lines[2].amount.value);
            && lines[3].complete
            && lines[3].amount == Some(part(VAT) + part(GST) + part(SST) + part(PPN) + part(SALES_TAX))
          else Missing(lines[3]))
  {
    LandedAre(data, taxes, fees, off);
    hide ComputeLandedCost, Quantize, Times, PurchaseLine, FirstMileLine, DutyLine, BrokerageLine, StorageLine,
         FxReserveLine, PickTaxes, TaxRule, TaxUnclear, TaxPart;
    assert forall t :: t in IMPORT_TAX_TYPES <==> t == VAT || t == GST || t == SST || t == PPN || t == SALES_TAX;
    var line := ComputeLandedCost(data, taxes, fees, off).lines[2];
    if DeclaredIn(data) && line.amount.Some? {
      TotalIsSumOfParts(data, taxes, IMPORT_TAX_TYPES, line.amount.value);
      FiveParts(data, taxes, line.amount.value);
      QuantizeFixes(SumOfParts(data, taxes, IMPORT_TAX_TYPES, line.amount.value));
    }
  }

  lemma FiveParts(data: LandedCostInput, taxes: seq<TaxFact>, duty: Decimal)
    requires data.declaredValue.Some?
    ensures
      var part := (t: TaxType) => TaxPart(data, taxes, t, duty);
      SumOfParts(data, taxes, IMPORT_TAX_TYPES, duty) == part(VAT) + part(GST) + part(SST) + part(PPN) + part(SALES_TAX)
  {
    hide TaxPart;
    assert [SALES_TAX][1..] == [];
    assert SumOfParts(data, taxes, [SALES_TAX], duty) == TaxPart(data, taxes, SALES_TAX, duty);
    assert [PPN, SALES_TAX][1..] == [SALES_TAX];
    assert [SST, PPN, SALES_TAX][1..] == [PPN, SALES_TAX];
    assert SumOfParts(data, taxes, [SST, PPN, SALES_TAX], duty)
        == TaxPart(data, taxes, SST, duty) + (TaxPart(data, taxes, PPN, duty) + TaxPart(data, taxes, SALES_TAX, duty));
    assert [GST, SST, PPN, SALES_TAX][1..] == [SST, PPN, SALES_TAX];
    assert IMPORT_TAX_TYPES[1..] == [GST, SST, PPN, SALES_TAX];
  }

  // ---- Clearance and storage

  ghost predicate Clears(data: LandedCostInput, fees: seq<FeeFact>, i: int) {
    0 <= i < |fees| && Competes(fees, BrokerageFee, data.channel, fees[i])
  }

  /** The rounded amounts of the clearance rows among the first `n` stored rows. */
  ghost function ClearanceSum(data: LandedCostInput, fees: seq<FeeFact>, n: nat): Decimal
    requires n <= |fees|
  {
    if n == 0 then 0.0
    else ClearanceSum(data, fees, n - 1) + if Clears(data, fees, n - 1) then Quantize(fees[n - 1].amount) else 0.0
  }

  lemma {:induction false} FixedWithout(rows: seq<FeeFact>, i: nat)
    requires i < |rows|
    ensures FixedTotal(rows) == Quantize(rows[i].amount) + FixedTotal(rows[..i] + rows[i + 1..])
    decreases i
  {
    hide Quantize;
    if i == 0 {
      assert rows[..0] + rows[1..] == rows[1..];
    } else {
      FixedWithout(rows[1..], i - 1);
      var rest := rows[..i] + rows[i + 1..];
      assert rest[1..] == rows[1..][..i - 1] + rows[1..][i..];
    }
  }

  lemma {:induction false} FixedReordered(rows: seq<FeeFact>, others: seq<FeeFact>)
    requires multiset(rows) == multiset(others)
    ensures FixedTotal(rows) == FixedTotal(others)
    decreases |rows|
  {
    ReorderedSize(rows, others);
    if rows != [] {
      var i := FindHead(rows, others);
      FixedWithout(others, i);
      FixedReordered(rows[1..], others[..i] + others[i + 1..]);
    }
  }

  lemma FixedAppend(rows: seq<FeeFact>, last: FeeFact)
    ensures FixedTotal(rows + [last]) == FixedTotal(rows) + Quantize(last.amount)
  {
    FixedWithout(rows + [last], |rows|);
    assert (rows + [last])[..|rows|] + (rows + [last])[|rows| + 1..] == rows;
  }

  lemma {:induction false} ClearanceIsFixed(data: LandedCostInput, fees: seq<FeeFact>, n: nat)
    requires n <= |fees|
    ensures
      var clears := (row: FeeFact) => Competes(fees, BrokerageFee, data.channel, row);
      FixedTotal(Filter(fees[..n], clears)) == ClearanceSum(data, fees, n)
  {
    hide Competes, Quantize;
    var clears := (row: FeeFact) => Competes(fees, BrokerageFee, data.channel, row);
    if n > 0 {
      ClearanceIsFixed(data, fees, n - 1);
      assert fees[..n] == fees[..n - 1] + [fees[n - 1]];
      FilterAppend(fees[..n - 1], [fees[n - 1]], clears);
      if clears(fees[n - 1]) {
        FixedAppend(Filter(fees[..n - 1], clears), fees[n - 1]);
      }
      assert Filter([fees[n - 1]], clears) == if clears(fees[n - 1]) then [fees[n - 1]] else [];
      assert Filter(fees[..n - 1], clears) + [] == Filter(fees[..n - 1], clears);
    }
  }

  ghost predicate OneRowPerLabel(data: LandedCostInput, fees: seq<FeeFact>) {
    forall i, j :: Clears(data, fees, i) && Clears(data, fees, j) && fees[i].feeLabel == fees[j].feeLabel ==> i == j
  }

  lemma KeptOnce(data: LandedCostInput, fees: seq<FeeFact>)
    requires OneRowPerLabel(data, fees)
    ensures NoRepeats(Filter(fees, (row: FeeFact) => Competes(fees, BrokerageFee, data.channel, row)))
  {
    hide Competes, Filter;
    var clears := (row: FeeFact) => Competes(fees, BrokerageFee, data.channel, row);
    var kept := Filter(fees, clears);
    forall a, b | 0 <= a < b < |kept|
      ensures kept[a] != kept[b]
    {
      var x := kept[a];
      var same := (row: FeeFact) => row == x;
      var both := (row: FeeFact) => clears(row) && row == x;
      FilterTwice(fees, clears, same, both);
      FilterTwo(kept, same);
      FilterTwo(fees, both);
      assert same(kept[a]);
      assert forall i :: 0 <= i < |fees| && both(fees[i]) ==> Clears(data, fees, i);
    }
    DistinctCounts(kept);
  }

  lemma ChosenAreKept(data: LandedCostInput, fees: seq<FeeFact>)
    requires PickFees(fees, BrokerageFee, data.channel).Some?
    ensures OneRowPerLabel(data, fees)
    ensures multiset(PickFees(fees, BrokerageFee, data.channel).value)
            == multiset(Filter(fees, (row: FeeFact) => Competes(fees, BrokerageFee, data.channel, row)))
  {
    PickFeesChooses(fees, BrokerageFee, data.channel);
    CompetingIsStored(fees, BrokerageFee, data.channel);
    hide PickFees, Competes, Filter;
    var clears := (row: FeeFact) => Competes(fees, BrokerageFee, data.channel, row);
    var chosen, kept := PickFees(fees, BrokerageFee, data.channel).value, Filter(fees, clears);
    forall i, j | Clears(data, fees, i) && Clears(data, fees, j) && fees[i].feeLabel == fees[j].feeLabel
      ensures i == j
    {
    }
    KeptOnce(data, fees);
    DistinctCounts(chosen);
    forall row
      ensures multiset(chosen)[row] == multiset(kept)[row]
    {
      FilterMember(fees, clears, row);
      assert row in chosen <==> multiset(chosen)[row] > 0;
      assert row in kept <==> multiset(kept)[row] > 0;
    }
    assert multiset(chosen) == multiset(kept);
  }

  lemma {:induction false} FixedOnGrid(rows: seq<FeeFact>)
    ensures OnGrid(FixedTotal(rows))
  {
    GridFromInteger(0);
    hide OnGrid, Quantize;
    if rows != [] {
      FixedOnGrid(rows[1..]);
      QuantizeNear(rows[0].amount);
      GridAdd(Quantize(rows[0].amount), FixedTotal(rows[1..]));
    }
  }

  lemma ClearingRows(data: LandedCostInput, fees: seq<FeeFact>)
    ensures
      var picked := PickFees(fees, BrokerageFee, data.channel);
      && (picked.Some? <==> OneRowPerLabel(data, fees))
      && (picked.Some? ==>
            && (forall i :: Clears(data, fees, i) ==> fees[i] in picked.value)
            && (forall row :: row in picked.value ==> exists i :: Clears(data, fees, i) && fees[i] == row))
  {
    PickFeesChooses(fees, BrokerageFee, data.channel);
    CompetingIsStored(fees, BrokerageFee, data.channel);
    hide PickFees, Competes;
    var picked := PickFees(fees, BrokerageFee, data.channel);
    if picked.Some? {
      forall row | row in picked.value
        ensures exists i :: Clears(data, fees, i) && fees[i] == row
      {
        var i :| 0 <= i < |fees| && fees[i] == row;
        assert Clears(data, fees, i);
      }
    } else {
      var i, j :| 0 <= i < j < |fees| && fees[i].feeLabel == fees[j].feeLabel
        && Competes(fees, BrokerageFee, data.channel, fees[i]) && Competes(fees, BrokerageFee, data.channel, fees[j]);
      assert Clears(data, fees, i) && Clears(data, fees, j);
    }
  }

  lemma ClearanceAmount(data: LandedCostInput, fees: seq<FeeFact>)
    requires PickFees(fees, BrokerageFee, data.channel).Some?
    ensures Quantize(FixedTotal(PickFees(fees, BrokerageFee, data.channel).value)) == ClearanceSum(data, fees, |fees|)
  {
    ChosenAreKept(data, fees);
    ClearanceIsFixed(data, fees, |fees|);
    hide PickFees, Competes, Filter, Quantize, OnGrid, FixedTotal, ClearanceSum;
    var chosen := PickFees(fees, BrokerageFee, data.channel).value;
    FixedReordered(chosen, Filter(fees, (row: FeeFact) => Competes(fees, BrokerageFee, data.channel, row)));
    assert fees[..|fees|] == fees;
    FixedOnGrid(chosen);
    QuantizeFixes(FixedTotal(chosen));
  }

  /** The clearance line before its switch. */
  lemma BrokerageIs(data: LandedCostInput, fees: seq<FeeFact>)
    ensures
      var line := BrokerageLine(data, fees, data.sellingCurrency);
      if OneRowPerLabel(data, fees) && (exists i :: Clears(data, fees, i))
         && (forall i :: Clears(data, fees, i) ==>
               fees[i].charge == FIXED && fees[i].currency == Some(data.sellingCurrency)) then
        line.complete && line.amount == Some(ClearanceSum(data, fees, |fees|))
      else Missing(line)
  {
    ClearingRows(data, fees);
    var picked := PickFees(fees, BrokerageFee, data.channel);
    if picked.Some? {
      ClearanceAmount(data, fees);
      hide PickFees, Clears, OneRowPerLabel, Quantize, FixedTotal, ClearanceSum;
      var rows := picked.value;
      assert rows != [] ==> rows[0] in rows;
      if AllFixed(rows) && AllIn(rows, data.sellingCurrency) {
        forall i | Clears(data, fees, i)
          ensures fees[i].charge == FIXED && fees[i].currency == Some(data.sellingCurrency)
        {
          var j :| 0 <= j < |rows| && rows[j] == fees[i];
        }
      } else {
        var j :| 0 <= j < |rows| && (rows[j].charge != FIXED || rows[j].currency != Some(data.sellingCurrency));
        assert rows[j] in rows;
      }
    }
  }

  /** The clearance line: the rounded amounts of every stored row that competes - the channel's own rows, and under
      labels without one the catch-all channel's - if there are any, no two under one label, all fixed amounts in the
      selling currency. */
  lemma BrokerageFormula(data: LandedCostInput, taxes: seq<TaxFact>, fees: seq<FeeFact>, off: set<LineCode>)
    requires BROKERAGE !in off
    ensures
      var lines := ComputeLandedCost(data, taxes, fees, off).lines;
      && |lines| == 12
      && (if OneRowPerLabel(data, fees) && (exists i :: Clears(data, fees, i))
             && (forall i :: Clears(data, fees, i) ==>
                   fees[i].charge == FIXED && fees[i].currency == Some(data.sellingCurrency)) then
            lines[4].complete && lines[4].amount == Some(ClearanceSum(data, fees, |fees|))
          else Missing(lines[4]))
  {
    LandedAre(data, taxes, fees, off);
    BrokerageIs(data, fees);
    hide ComputeLandedCost, PurchaseLine, FirstMileLine, DutyLine, ImportTaxLine, BrokerageLine, StorageLine,
         FxReserveLine, Clears, OneRowPerLabel;
  }

  /** The storage line: nothing for zero days, otherwise cubic metres by days by the only rate row. */
  lemma StorageFormula(data: LandedCostInput, taxes: seq<TaxFact>, fees: seq<FeeFact>, off: set<LineCode>)
    requires STORAGE !in off
    ensures
      var lines := ComputeLandedCost(data, taxes, fees, off).lines;
      var row := FeeRule(fees, StorageFee, data.channel);
      && |lines| == 12
      && (if data.storageDays == Some(0) then Costs(lines[5], 0.0)
          else if data.storageDays.Some? && row.Some? && row.value.charge == PER_CBM_DAY
                  && row.value.currency == Some(data.sellingCurrency) && data.volumeCm3.Some? then
            Costs(lines[5],
                  Times(Times(data.volumeCm3.value / 1000000.0, data.storageDays.value as real), row.value.amount))
          else Missing(lines[5]))
  {
    LandedAre(data, taxes, fees, off);
    OnlyFeeIsRule(fees, StorageFee, data.channel);
    hide ComputeLandedCost, Quantize, Times, PurchaseLine, FirstMileLine, DutyLine, ImportTaxLine, BrokerageLine,
         FxReserveLine, OnlyFee, FeeRule;
  }

  // ---- The exchange reserve

  lemma SixAmounts(parts: seq<CostLine>)
    requires |parts| == 6 && forall i :: 0 <= i < 6 ==> parts[i].complete && parts[i].amount.Some?
    ensures
      Sum(Amounts(parts)) == parts[0].amount.value + parts[1].amount.value + parts[2].amount.value
                             + parts[3].amount.value + parts[4].amount.value + parts[5].amount.value
  {
    assert parts[..6] == parts;
    AmountsPrefix(parts, 0);
    AmountsPrefix(parts, 1);
    AmountsPrefix(parts, 2);
    AmountsPrefix(parts, 3);
    AmountsPrefix(parts, 4);
    AmountsPrefix(parts, 5);
  }

  /** The line is the row's rate on the six lines before it, all of which must be known. */
  ghost predicate Reserves(line: CostLine, parts: seq<CostLine>, row: Option<FeeFact>)
    requires |parts| == 6
  {
    if row.Some? && row.value.charge == RATE && (forall i :: 0 <= i < 6 ==> parts[i].amount.Some?) then
      Costs(line,
            Times(parts[0].amount.value + parts[1].amount.value + parts[2].amount.value
                  + parts[3].amount.value + parts[4].amount.value + parts[5].amount.value, row.value.amount))
    else Missing(line)
  }

  lemma ReserveIs(data: LandedCostInput, fees: seq<FeeFact>, parts: seq<CostLine>)
    requires |parts| == 6 && AllWellFormed(parts)
    ensures Reserves(FxReserveLine(fees, data.channel, data.sellingCurrency, parts), parts,
                     FeeRule(fees, FxReserveFee, data.channel))
  {
    OnlyFeeIsRule(fees, FxReserveFee, data.channel);
    TotalIsSum(parts);
    hide Quantize, Times, OnlyFee, FeeRule, Total, OnGrid, Sum, Amounts;
    if forall i :: 0 <= i < 6 ==> parts[i].amount.Some? {
      assert forall i :: 0 <= i < 6 ==> WellFormed(parts[i]);
      SixAmounts(parts);
    } else {
      var i :| 0 <= i < 6 && !parts[i].amount.Some?;
      assert !Ready(parts[i]);
    }
  }

  /** The reserve: a rate on the plain sum of the six lines before it in the same result. */
  lemma ReserveFormula(data: LandedCostInput, taxes: seq<TaxFact>, fees: seq<FeeFact>, off: set<LineCode>)
    requires FX_RESERVE !in off
    ensures
      var lines := ComputeLandedCost(data, taxes, fees, off).lines;
      |lines| == 12 && Reserves(lines[6], lines[..6], FeeRule(fees, FxReserveFee, data.channel))
  {
    LandedAre(data, taxes, fees, off);
    ResultWellFormed(data, taxes, fees, off);
    hide ComputeLandedCost, PurchaseLine, FirstMileLine, DutyLine, ImportTaxLine, BrokerageLine, StorageLine,
         FxReserveLine, FeeRule, WellFormed, Reserves;
    var lines := ComputeLandedCost(data, taxes, fees, off).lines;
    assert forall i :: 0 <= i < 6 ==> lines[..6][i] == lines[i];
    ReserveIs(data, fees, lines[..6]);
  }

  // ---- The lines that follow the price

  /** A line that is the price times the rate of its only row. */
  ghost predicate SharesPrice(line: CostLine, price: Option<Decimal>, row: Option<FeeFact>) {
    if row.Some? && row.value.charge == RATE && price.Some? then Costs(line, Times(price.value, row.value.amount))
    else Missing(line)
  }

  lemma DeductionsAre(
    data: LandedCostInput, taxes: seq<TaxFact>, fees: seq<FeeFact>, off: set<LineCode>)
    ensures
      var lines := ComputeLandedCost(data, taxes, fees, off).lines;
      var c := data.sellingCurrency;
      && |lines| == 12
      && (COMMISSION !in off ==>
            lines[7] == RateOfPrice(COMMISSION, CommissionFee, data.sellingPrice, fees, data.channel, c))
      && (PAYMENT !in off ==> lines[8] == RateOfPrice(PAYMENT, PaymentFee, data.sellingPrice, fees, data.channel, c))
      && (FULFILLMENT !in off ==> lines[9] == FulfillmentLine(data.sellingPrice, fees, data.channel, c))
      && (ADS !in off ==> lines[10] == RateOfPrice(ADS, AdsFee, data.sellingPrice, fees, data.channel, c))
      && (RETURN !in off ==> lines[11] == ReturnLine(data.sellingPrice, fees, data.channel, c))
  {
    SwitchedOff(data, taxes, fees, off);
    hide ComputeLandedCost, PurchaseLine, FirstMileLine, DutyLine, ImportTaxLine, BrokerageLine, StorageLine,
         FxReserveLine, RateOfPrice, FulfillmentLine, ReturnLine;
    assert LINE_CODES[7] == COMMISSION && LINE_CODES[8] == PAYMENT && LINE_CODES[9] == FULFILLMENT;
    assert LINE_CODES[10] == ADS && LINE_CODES[11] == RETURN;
  }

  /** Commission, payment fee and advertising are their rate of the price; fulfilment is a rate or a fixed amount in
      the selling currency; the return loss is the price times the return rate times the loss rate. */
  lemma DeductionFormulas(data: LandedCostInput, taxes: seq<TaxFact>, fees: seq<FeeFact>, off: set<LineCode>)
    ensures
      var lines := ComputeLandedCost(data, taxes, fees, off).lines;
      var price := data.sellingPrice;
      var fulfilment := FeeRule(fees, FulfillmentFee, data.channel);
      var returned, lost := FeeRule(fees, ReturnRateFee, data.channel), FeeRule(fees, ReturnLossFee, data.channel);
      && |lines| == 12
      && (COMMISSION !in off ==> SharesPrice(lines[7], price, FeeRule(fees, CommissionFee, data.channel)))
      && (PAYMENT !in off ==> SharesPrice(lines[8], price, FeeRule(fees, PaymentFee, data.channel)))
      && (FULFILLMENT !in off ==>
            if fulfilment.Some? && fulfilment.value.charge == FIXED then
              if fulfilment.value.currency == Some(data.sellingCurrency) then Costs(lines[9], fulfilment.value.amount)
              else Missing(lines[9])
            else SharesPrice(lines[9], price, fulfilment))
      && (ADS !in off ==> SharesPrice(lines[10], price, FeeRule(fees, AdsFee, data.channel)))
      && (RETURN !in off ==>
            if returned.Some? && lost.Some? && returned.value.charge == RATE && lost.value.charge == RATE
               && price.Some? then
              Costs(lines[11], Times(price.value, Times(returned.value.amount, lost.value.amount)))
            else Missing(lines[11]))
  {
    DeductionsAre(data, taxes, fees, off);
    forall code
      ensures OnlyFee(fees, code, data.channel) == FeeRule(fees, code, data.channel)
    {
      OnlyFeeIsRule(fees, code, data.channel);
    }
    hide ComputeLandedCost, Quantize, Times, OnlyFee, FeeRule;
  }

  // ---- The headline figures

  /** A percentage: rounded, `percent` per cent of `whole` is `part`. */
  ghost predicate IsPercent(percent: Decimal, part: Decimal, whole: Decimal) {
    Abs(percent * whole - 100.0 * part) <= HALF_MICRO * whole
  }

  lemma PercentIs(part: Decimal, whole: Decimal)
    requires whole > 0.0
    ensures IsPercent(Percent(part, whole), part, whole)
  {
    assert part / whole * 100.0 == 100.0 * part / whole;
    QuotientNear(100.0 * part, whole);
  }

  lemma SevenAmounts(lines: seq<CostLine>)
    requires |lines| == 7 && AllWellFormed(lines)
    ensures Total(lines).Some? <==> forall i :: 0 <= i < 7 ==> lines[i].amount.Some?
    ensures Total(lines).Some? ==>
      Total(lines).value == lines[0].amount.value + lines[1].amount.value + lines[2].amount.value
        + lines[3].amount.value + lines[4].amount.value + lines[5].amount.value + lines[6].amount.value
  {
    TotalIsSum(lines);
    hide Total, OnGrid;
    if AllReady(lines) {
      assert lines[..7] == lines && lines[..0] == [];
      AmountsPrefix(lines, 0);
      AmountsPrefix(lines, 1);
      AmountsPrefix(lines, 2);
      AmountsPrefix(lines, 3);
      AmountsPrefix(lines, 4);
      AmountsPrefix(lines, 5);
      AmountsPrefix(lines, 6);
    } else {
      var i :| 0 <= i < 7 && !Ready(lines[i]);
      assert WellFormed(lines[i]);
    }
  }

  ghost predicate Headline(r: LandedCostResult, price: Option<Decimal>) {
    var lines := r.lines;
    && |lines| == 12
    && r.complete == r.landedCost.Some? && r.profitComplete == r.netProfit.Some?
    && (r.landedCost.Some? <==> forall i :: 0 <= i < 7 ==> lines[i].amount.Some?)
    && (r.landedCost.Some? ==>
          r.landedCost.value == lines[0].amount.value + lines[1].amount.value + lines[2].amount.value
            + lines[3].amount.value + lines[4].amount.value + lines[5].amount.value + lines[6].amount.value)
    && (r.netProfit.Some? ==> price.Some? && lines[0].amount.Some? && lines[1].amount.Some?)
    && (if r.netProfit.Some? && price.value > 0.0 then
          r.netMarginPercent.Some? && IsPercent(r.netMarginPercent.value, r.netProfit.value, price.value)
        else r.netMarginPercent.None?)
    && (if r.netProfit.Some? && lines[0].amount.value + lines[1].amount.value > 0.0 then
          && r.roiPercent.Some?
          && IsPercent(r.roiPercent.value, r.netProfit.value, lines[0].amount.value + lines[1].amount.value)
        else r.roiPercent.None?)
  }

  lemma SettleHeadline(price: Option<Decimal>, currency: string, landed: seq<CostLine>, deductions: seq<CostLine>)
    requires |landed| == 7 && |deductions| == 5 && AllWellFormed(landed) && AllWellFormed(deductions)
    ensures Headline(Settle(price, currency, landed, deductions), price)
  {
    SevenAmounts(landed);
    var r := Settle(price, currency, landed, deductions);
    assert forall i :: 0 <= i < 7 ==> r.lines[i] == landed[i];
    assert WellFormed(landed[0]) && WellFormed(landed[1]);
    hide Total, IsPercent, Percent, OnGrid, Quantize;
    if r.netProfit.Some? {
      InvestedIs(landed[0], landed[1]);
      var base := landed[0].amount.value + landed[1].amount.value;
      if price.value > 0.0 {
        PercentIs(r.netProfit.value, price.value);
      }
      if base > 0.0 {
        PercentIs(r.netProfit.value, base);
      }
    }
  }

  lemma InvestedIs(purchase: CostLine, firstMile: CostLine)
    requires WellFormed(purchase) && WellFormed(firstMile) && purchase.amount.Some? && firstMile.amount.Some?
    ensures Invested(purchase, firstMile) == Some(purchase.amount.value + firstMile.amount.value)
  {
    GridAdd(purchase.amount.value, firstMile.amount.value);
    QuantizeFixes(purchase.amount.value + firstMile.amount.value);
  }

  /** The landed cost is the plain sum of the first seven lines, known exactly when all seven are; the margin is the
      profit's share of a positive price, the return on investment its share of purchase and freight where these are
      together positive; no profit, no share. */
  lemma HeadlineFigures(data: LandedCostInput, taxes: seq<TaxFact>, fees: seq<FeeFact>, off: set<LineCode>)
    ensures Headline(ComputeLandedCost(data, taxes, fees, off), data.sellingPrice)
    ensures ComputeLandedCost(data, taxes, fees, off).currency == data.sellingCurrency
  {
    LandedWellFormed(data, taxes, fees, off);
    DeductionsWellFormed(data, fees, off);
    hide LandedLines, Deductions, AllWellFormed, Headline, Total, Percent, Invested;
    SettleHeadline(data.sellingPrice, data.sellingCurrency, LandedLines(data, taxes, fees, off),
                   Deductions(data, fees, off));
  }
}
