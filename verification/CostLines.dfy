/** What single cost lines promise: shared freight is conserved, heavier or declared-higher goods never cost less,
    and the exchange reserve is a share of the other landed lines. */
module CostLines {
  import opened Options
  import opened Decimals
  import opened Sequences
  import opened LandedCost
  import Freight

  // ---- One shipment shared by several units

  /** Pieces of one shipment, each with its own metric. */
  ghost predicate OneShipment(
    pieces: seq<LandedCostInput>, purchases: seq<CostLine>, currency: string, cost: Decimal, metrics: seq<Decimal>)
  {
    && |pieces| == |purchases| == |metrics|
    && Sum(metrics) > 0.0
    && forall i :: 0 <= i < |pieces| ==>
         && pieces[i].shipmentCost == Some(cost) && pieces[i].shipmentCurrency == Some(currency)
         && MetricsFor(pieces[i], currency, purchases[i]) == AllocationMetrics(Some(metrics[i]), Some(Sum(metrics)))
  }

  function AllocatedLines(pieces: seq<LandedCostInput>, purchases: seq<CostLine>, currency: string): seq<CostLine>
    requires |pieces| == |purchases|
  {
    seq(|pieces|, i requires 0 <= i < |pieces| => AllocatedLine(pieces[i], currency, purchases[i]))
  }

  lemma {:induction false} AmountsOfShares(lines: seq<CostLine>, cost: Decimal, metrics: seq<Decimal>, whole: Decimal)
    requires |lines| == |metrics| && whole > 0.0
    requires forall i :: 0 <= i < |lines| ==> lines[i].amount == Some(Quantize(Times(cost, metrics[i]) / whole))
    ensures Amounts(lines) == Freight.RoundAll(Freight.Portions(cost, metrics, whole))
    ensures |Freight.Portions(cost, metrics, whole)| == |metrics|
  {
    hide Quantize, Times;
    if lines != [] {
      AmountsOfShares(lines[1..], cost, metrics[1..], whole);
      var portions := Freight.Portions(cost, metrics, whole);
      assert portions[0] == Times(cost, metrics[0]) / whole && portions[1..] == Freight.Portions(cost, metrics[1..], whole);
    }
  }

  /** When the pieces' metrics make up the shipment's, their freight lines make up its cost, but for half a
      micro-unit per piece. */
  lemma ShipmentCostIsShared(
    pieces: seq<LandedCostInput>, purchases: seq<CostLine>, currency: string, cost: Decimal, metrics: seq<Decimal>)
    requires OneShipment(pieces, purchases, currency, cost, metrics)
    ensures AllReady(AllocatedLines(pieces, purchases, currency))
    ensures Abs(Sum(Amounts(AllocatedLines(pieces, purchases, currency))) - cost) <= |pieces| as real * HALF_MICRO
  {
    var lines, whole := AllocatedLines(pieces, purchases, currency), Sum(metrics);
    hide Quantize, Times, MetricsFor, Sum;
    forall i | 0 <= i < |lines|
      ensures Ready(lines[i]) && lines[i].amount == Some(Quantize(Times(cost, metrics[i]) / whole))
    {
    }
    AmountsOfShares(lines, cost, metrics, whole);
    var portions := Freight.Portions(cost, metrics, whole);
    Freight.RoundedSumClose(portions);
    Freight.PortionsSum(cost, metrics, whole);
    Freight.WholePortion(cost, whole);
    assert Freight.Halves(|portions|) == |pieces| as real * HALF_MICRO by {
      HalvesAre(|portions|);
    }
    hide Freight.Halves, Freight.RoundAll, Freight.Portions, AllocatedLines;
  }

  lemma HalvesAre(n: nat)
    ensures Freight.Halves(n) == n as real * HALF_MICRO
  {
  }

  // ---- Chargeable weight

  /** Billing per kilogram charges by whichever weight costs more. */
  lemma ChargesTheDearerWeight(data: LandedCostInput, fees: seq<FeeFact>, currency: string)
    requires OnlyFee(fees, FirstMileFee, data.channel).Some?
    requires
      var row := OnlyFee(fees, FirstMileFee, data.channel).value;
      row.charge == PER_KG && row.currency == Some(currency) && row.amount >= 0.0
    ensures
      var row := OnlyFee(fees, FirstMileFee, data.channel).value;
      var line := ChargeableLine(data, fees, currency);
      var byWeight := ChargeableLine(data.(volumeCm3 := None), fees, currency);
      var byVolume := ChargeableLine(data.(weightG := None), fees, currency);
      && (Ready(line) <==> Ready(byWeight) || Ready(byVolume))
      && (Ready(byWeight) && Ready(byVolume) ==>
            line.amount.value == Max(byWeight.amount.value, byVolume.amount.value))
      && (Ready(byWeight) && !Ready(byVolume) ==> line == byWeight)
      && (!Ready(byWeight) && Ready(byVolume) ==> line == byVolume)
  {
    var row := OnlyFee(fees, FirstMileFee, data.channel).value;
    hide Quantize, Times, OnlyFee;
    if data.weightG.Some? && data.volumeCm3.Some? && row.volumetricDivisor.Some? {
      var actual, volumetric := data.weightG.value / 1000.0, data.volumeCm3.value / row.volumetricDivisor.value as real;
      if actual <= volumetric {
        TimesMonotone(actual, volumetric, row.amount);
        QuantizeMonotone(Times(actual, row.amount), Times(volumetric, row.amount));
      } else {
        TimesMonotone(volumetric, actual, row.amount);
        QuantizeMonotone(Times(volumetric, row.amount), Times(actual, row.amount));
      }
    }
  }

  // ---- Duty and import tax

  ghost predicate FairTaxes(taxes: seq<TaxFact>) {
    forall i :: 0 <= i < |taxes| ==> taxes[i].rate >= 0.0 && taxes[i].basisNumerator >= 0
  }

  /** The second line is missing in the same cases and never less; both are at least zero. */
  predicate NoCheaper(a: CostLine, b: CostLine) {
    && (Ready(a) <==> Ready(b))
    && (Ready(a) ==> 0.0 <= a.amount.value <= b.amount.value)
  }

  lemma QuantizeGrows(x: Decimal, y: Decimal)
    requires 0.0 <= x <= y
    ensures 0.0 <= Quantize(x) <= Quantize(y)
  {
    QuantizeMonotone(0.0, x);
    QuantizeMonotone(x, y);
    GridFromInteger(0);
    QuantizeFixes(0.0);
  }

  lemma PickedFromRules(taxes: seq<TaxFact>, taxType: TaxType, hsCode: string)
    ensures PickTax(taxes, taxType, hsCode).Some? ==> PickTax(taxes, taxType, hsCode).value in taxes
  {
    var rows := Filter(taxes, OfType(taxType));
    var specific, wild := Filter(rows, Matching(hsCode)), Filter(rows, CatchAll());
    hide Filter;
    if specific != [] {
      LongestAmong(specific);
      FilterMember(rows, Matching(hsCode), Longest(specific));
      FilterMember(taxes, OfType(taxType), Longest(specific));
    } else if |wild| == 1 {
      FilterMember(rows, CatchAll(), wild[0]);
      FilterMember(taxes, OfType(taxType), wild[0]);
    }
  }

  lemma {:induction false} LongestAmong(rows: seq<TaxFact>)
    requires rows != []
    ensures Longest(rows) in rows
  {
    if |rows| > 1 {
      LongestAmong(rows[..|rows| - 1]);
    }
  }

  lemma TaxGrows(fact: TaxFact, low: Decimal, high: Decimal)
    requires fact.rate >= 0.0 && fact.basisNumerator >= 0 && 0.0 <= low <= high
    ensures 0.0 <= TaxOf(fact, low) <= TaxOf(fact, high)
  {
    var n, d := fact.basisNumerator as real, fact.basisDenominator as real;
    TimesMonotone(low, high, n);
    TimesSign(low, n);
    var a, b := Times(low, n) / d, Times(high, n) / d;
    BasisGrows(Times(low, n), Times(high, n), d);
    TimesMonotone(a, b, fact.rate);
    TimesSign(a, fact.rate);
    hide Times, Quantize;
    QuantizeGrows(Times(a, fact.rate), Times(b, fact.rate));
  }

  lemma BasisGrows(x: real, y: real, d: real)
    requires 0.0 <= x <= y && d > 0.0
    ensures 0.0 <= x / d <= y / d
  {
  }

  lemma {:induction false} TaxTotalGrows(
    facts: seq<TaxFact>, low: Decimal, high: Decimal, lowDuty: Decimal, highDuty: Decimal, currency: string)
    requires FairTaxes(facts) && 0.0 <= low <= high && 0.0 <= lowDuty <= highDuty
    ensures
      var a, b := ImportTaxTotal(facts, low, lowDuty, currency), ImportTaxTotal(facts, high, highDuty, currency);
      (a.Some? <==> b.Some?) && (a.Some? ==> 0.0 <= a.value <= b.value)
    decreases |facts|
  {
    if facts != [] {
      TaxTotalGrows(facts[1..], low, high, lowDuty, highDuty, currency);
      TaxGrows(facts[0], low + lowDuty, high + highDuty);
      hide TaxOf;
    }
  }

  lemma DutyGrows(data: LandedCostInput, taxes: seq<TaxFact>, currency: string, low: Decimal, high: Decimal)
    requires FairTaxes(taxes) && 0.0 <= low <= high
    ensures NoCheaper(DutyLine(data.(declaredValue := Some(low)), taxes, currency),
                      DutyLine(data.(declaredValue := Some(high)), taxes, currency))
  {
    PickedFromRules(taxes, DUTY_TAX, data.hsCode);
    hide PickTax, Quantize, Times;
    var fact := PickTax(taxes, DUTY_TAX, data.hsCode);
    QuantizeGrows(0.0, 0.0);
    if fact.Some? {
      var i :| 0 <= i < |taxes| && taxes[i] == fact.value;
      TimesMonotone(low, high, fact.value.rate);
      TimesSign(low, fact.value.rate);
      QuantizeGrows(Times(low, fact.value.rate), Times(high, fact.value.rate));
      QuantizeGrows(0.0, Times(high, fact.value.rate));
    }
  }

  lemma {:induction false} PickedTaxesFair(taxes: seq<TaxFact>, types: seq<TaxType>, hsCode: string)
    requires FairTaxes(taxes)
    ensures FairTaxes(PickTaxes(taxes, types, hsCode))
    decreases |types|
  {
    hide PickTax;
    if types != [] {
      PickedTaxesFair(taxes, types[1..], hsCode);
      PickedFromRules(taxes, types[0], hsCode);
      var fact := PickTax(taxes, types[0], hsCode);
      if fact.Some? {
        var i :| 0 <= i < |taxes| && taxes[i] == fact.value;
      }
    }
  }

  lemma ImportTaxGrows(
    data: LandedCostInput, taxes: seq<TaxFact>, currency: string, low: Decimal, high: Decimal, lowDuty: CostLine,
    highDuty: CostLine)
    requires FairTaxes(taxes) && 0.0 <= low <= high && NoCheaper(lowDuty, highDuty)
    ensures NoCheaper(ImportTaxLine(data.(declaredValue := Some(low)), taxes, currency, lowDuty),
                      ImportTaxLine(data.(declaredValue := Some(high)), taxes, currency, highDuty))
  {
    var facts := PickTaxes(taxes, IMPORT_TAX_TYPES, data.hsCode);
    PickedTaxesFair(taxes, IMPORT_TAX_TYPES, data.hsCode);
    hide PickTaxes, ImportTaxTotal, FairTaxes, Quantize;
    if Ready(lowDuty) {
      TaxTotalGrows(facts, low, high, lowDuty.amount.value, highDuty.amount.value, currency);
      var a := ImportTaxTotal(facts, low, lowDuty.amount.value, currency);
      var b := ImportTaxTotal(facts, high, highDuty.amount.value, currency);
      if a.Some? {
        QuantizeGrows(a.value, b.value);
      }
    }
  }

  lemma GateKeepsOrder(a: CostLine, b: CostLine, off: set<LineCode>, currency: string)
    requires a.code == b.code && NoCheaper(a, b)
    ensures NoCheaper(Gate(a, off, currency), Gate(b, off, currency))
  {
  }

  /** Declaring a higher value never lowers the duty or the import tax - thresholds, tax on duty and rounding
      included - and never makes one of them unknown or known. */
  lemma DeclaringMoreNeverSaves(
    data: LandedCostInput, taxes: seq<TaxFact>, fees: seq<FeeFact>, off: set<LineCode>, low: Decimal, high: Decimal)
    requires FairTaxes(taxes) && 0.0 <= low <= high
    ensures
      var a := LandedLines(data.(declaredValue := Some(low)), taxes, fees, off);
      var b := LandedLines(data.(declaredValue := Some(high)), taxes, fees, off);
      NoCheaper(a[2], b[2]) && NoCheaper(a[3], b[3])
  {
    var c := data.sellingCurrency;
    var x, y := data.(declaredValue := Some(low)), data.(declaredValue := Some(high));
    DutyGrows(data, taxes, c, low, high);
    DutyIsDuty(x, taxes, c);
    DutyIsDuty(y, taxes, c);
    GateKeepsOrder(DutyLine(x, taxes, c), DutyLine(y, taxes, c), off, c);
    var duty, higher := Gate(DutyLine(x, taxes, c), off, c), Gate(DutyLine(y, taxes, c), off, c);
    ImportTaxGrows(data, taxes, c, low, high, duty, higher);
    TaxIsTax(x, taxes, c, duty);
    TaxIsTax(y, taxes, c, higher);
    GateKeepsOrder(ImportTaxLine(x, taxes, c, duty), ImportTaxLine(y, taxes, c, higher), off, c);
    hide DutyLine, ImportTaxLine, PurchaseLine, BrokerageLine, StorageLine, FirstMileLine, FxReserveLine, Gate, FairTaxes,
         NoCheaper;
  }

  lemma DutyIsDuty(data: LandedCostInput, taxes: seq<TaxFact>, currency: string)
    ensures DutyLine(data, taxes, currency).code == DUTY
  {
    hide PickTax, Times, Quantize;
  }

  lemma TaxIsTax(data: LandedCostInput, taxes: seq<TaxFact>, currency: string, duty: CostLine)
    ensures ImportTaxLine(data, taxes, currency, duty).code == IMPORT_TAX
  {
    hide PickTaxes, ImportTaxTotal, Quantize;
  }

  // ---- The exchange reserve

  /** The landed cost is the first six lines plus the reserve rate on them, but for one rounding. */
  lemma ReserveIsAShare(data: LandedCostInput, taxes: seq<TaxFact>, fees: seq<FeeFact>, off: set<LineCode>)
    requires FX_RESERVE !in off && AllReady(LandedLines(data, taxes, fees, off))
    ensures
      var row := OnlyFee(fees, FxReserveFee, data.channel);
      var lines := LandedLines(data, taxes, fees, off);
      var base := Sum(Amounts(lines[..6]));
      && row.Some? && row.value.charge == RATE
      && Abs(Total(lines).value - (base + Times(base, row.value.amount))) <= HALF_MICRO
  {
    var lines := LandedLines(data, taxes, fees, off);
    var c := data.sellingCurrency;
    LandedWellFormed(data, taxes, fees, off);
    TotalIsSum(lines);
    TotalIsSum(lines[..6]);
    ReserveLineIs(data, taxes, fees, off);
    AmountsPrefix(lines, 6);
    assert lines[..7] == lines;
    hide LandedLines, Total, Amounts, Sum, WellFormed, OnlyFee, Times, Quantize;
    var row := OnlyFee(fees, FxReserveFee, data.channel);
    QuantizeNear(Times(Sum(Amounts(lines[..6])), row.value.amount));
  }

  lemma ReserveLineIs(data: LandedCostInput, taxes: seq<TaxFact>, fees: seq<FeeFact>, off: set<LineCode>)
    requires FX_RESERVE !in off && Ready(LandedLines(data, taxes, fees, off)[6])
    ensures
      var row := OnlyFee(fees, FxReserveFee, data.channel);
      var lines := LandedLines(data, taxes, fees, off);
      var base := Total(lines[..6]);
      && row.Some? && row.value.charge == RATE && base.Some?
      && lines[6].amount == Some(Quantize(Times(base.value, row.value.amount)))
  {
    var lines := LandedLines(data, taxes, fees, off);
    var c := data.sellingCurrency;
    hide PurchaseLine, DutyLine, ImportTaxLine, BrokerageLine, StorageLine, FirstMileLine, OnlyFee, Times, Quantize, Total;
    assert lines[6] == Gate(FxReserveLine(fees, data.channel, c, lines[..6]), off, c);
  }
}
