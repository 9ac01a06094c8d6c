/** The landed-cost engine: twelve cost lines from an input and two rule tables, and what is left of a price. */
module LandedCost {
  import opened Options
  import opened Decimals
  import opened Sequences

  datatype LineCode =
    | PURCHASE | FIRST_MILE | DUTY | IMPORT_TAX | BROKERAGE | STORAGE | FX_RESERVE
    | COMMISSION | PAYMENT | FULFILLMENT | ADS | RETURN

  const LINE_CODES: seq<LineCode> :=
    [PURCHASE, FIRST_MILE, DUTY, IMPORT_TAX, BROKERAGE, STORAGE, FX_RESERVE,
     COMMISSION, PAYMENT, FULFILLMENT, ADS, RETURN]

  /** The first seven codes make up the landed cost, the other five are deducted from the price. */
  const LANDED_COUNT: nat := 7

  datatype FeeCode =
    | FirstMileFee | BrokerageFee | CommissionFee | PaymentFee | FulfillmentFee | AdsFee
    | ReturnRateFee | ReturnLossFee | StorageFee | FxReserveFee

  datatype Charge = RATE | FIXED | PER_KG | PER_CBM | PER_CBM_DAY

  datatype TaxType = DUTY_TAX | VAT | GST | SST | PPN | SALES_TAX

  const IMPORT_TAX_TYPES: seq<TaxType> := [VAT, GST, SST, PPN, SALES_TAX]

  datatype FirstMileMethod = WEIGHT | VOLUME | VALUE | CHARGEABLE | UNSUPPORTED

  type Divisor = n: int | n >= 1 witness 1

  datatype TaxFact = TaxFact(
    taxType: TaxType,
    pattern: string,
    rate: Decimal,
    basisNumerator: int,
    basisDenominator: Divisor,
    thresholdAmount: Option<Decimal>,
    thresholdCurrency: Option<string>)

  datatype FeeFact = FeeFact(
    feeCode: FeeCode,
    channel: string,
    feeLabel: string,
    charge: Charge,
    amount: Decimal,
    currency: Option<string>,
    volumetricDivisor: Option<Divisor>)

  datatype LandedCostInput = LandedCostInput(
    sellingCurrency: string,
    channel: string,
    firstMileMethod: FirstMileMethod,
    sellingPrice: Option<Decimal>,
    purchaseAmount: Option<Decimal>,
    purchaseCurrency: Option<string>,
    fxRate: Option<Decimal>,
    weightG: Option<Decimal>,
    volumeCm3: Option<Decimal>,
    hsCode: string,
    declaredValue: Option<Decimal>,
    declaredCurrency: Option<string>,
    shipmentCost: Option<Decimal>,
    shipmentCurrency: Option<string>,
    shipmentWeightG: Option<Decimal>,
    shipmentVolumeCm3: Option<Decimal>,
    shipmentValue: Option<Decimal>,
    storageDays: Option<int>)

  datatype CostLine = CostLine(code: LineCode, amount: Option<Decimal>, currency: string, complete: bool)

  datatype LandedCostResult = LandedCostResult(
    lines: seq<CostLine>,
    currency: string,
    landedCost: Option<Decimal>,
    netProfit: Option<Decimal>,
    netMarginPercent: Option<Decimal>,
    roiPercent: Option<Decimal>,
    complete: bool,
    profitComplete: bool)

  // ---- Lines

  predicate Ready(line: CostLine) {
    line.complete && line.amount.Some?
  }

  function Gap(code: LineCode, currency: string): CostLine {
    CostLine(code, None, currency, false)
  }

  function Priced(code: LineCode, amount: Decimal, currency: string): CostLine {
    CostLine(code, Some(Quantize(amount)), currency, true)
  }

  /** A line the tenant has switched off counts as a complete zero. */
  function Gate(line: CostLine, off: set<LineCode>, currency: string): CostLine {
    if line.code in off then CostLine(line.code, Some(0.0), currency, true) else line
  }

  function Amounts(lines: seq<CostLine>): seq<Decimal> {
    if lines == [] then []
    else (if lines[0].amount.Some? then [lines[0].amount.value] else []) + Amounts(lines[1..])
  }

  predicate AllReady(lines: seq<CostLine>) {
    forall i :: 0 <= i < |lines| ==> Ready(lines[i])
  }

  function Total(lines: seq<CostLine>): Option<Decimal> {
    if AllReady(lines) then Some(Quantize(Sum(Amounts(lines)))) else None
  }

  // ---- Rule lookup

  function OfType(taxType: TaxType): TaxFact -> bool {
    (row: TaxFact) => row.taxType == taxType
  }

  /** The rows whose pattern is a prefix of the code, other than the catch-all. */
  function Matching(hsCode: string): TaxFact -> bool {
    (row: TaxFact) => row.pattern != "*" && row.pattern <= hsCode
  }

  function CatchAll(): TaxFact -> bool {
    (row: TaxFact) => row.pattern == "*"
  }

  /** The first row with the longest pattern. */
  function Longest(rows: seq<TaxFact>): TaxFact
    requires rows != []
  {
    if |rows| == 1 then rows[0]
    else
      var best := Longest(rows[..|rows| - 1]);
      if |rows[|rows| - 1].pattern| > |best.pattern| then rows[|rows| - 1] else best
  }

  function PickTax(taxes: seq<TaxFact>, taxType: TaxType, hsCode: string): Option<TaxFact> {
    var rows := Filter(taxes, OfType(taxType));
    var specific := Filter(rows, Matching(hsCode));
    if specific != [] then Some(Longest(specific))
    else
      var wild := Filter(rows, CatchAll());
      if |wild| == 1 then Some(wild[0]) else None
  }

  function HasCode(code: FeeCode): FeeFact -> bool {
    (row: FeeFact) => row.feeCode == code
  }

  function At(feeLabel: string, channel: string): FeeFact -> bool {
    (row: FeeFact) => row.feeLabel == feeLabel && row.channel == channel
  }

  function FeeLabels(rows: seq<FeeFact>): seq<string> {
    if rows == [] then []
    else
      var rest := FeeLabels(rows[1..]);
      if rows[0].feeLabel in rest then rest else [rows[0].feeLabel] + rest
  }

  /** The rows for one label: those of the channel itself, or else the catch-all channel's. */
  function Pool(rows: seq<FeeFact>, feeLabel: string, channel: string): seq<FeeFact> {
    var exact := Filter(rows, At(feeLabel, channel));
    if exact != [] then exact else Filter(rows, At(feeLabel, "*"))
  }

  /** One row per label that has any; nothing at all when some label's row is ambiguous. */
  function PickFor(rows: seq<FeeFact>, labels: seq<string>, channel: string): Option<seq<FeeFact>> {
    if labels == [] then Some([])
    else
      var pool := Pool(rows, labels[0], channel);
      if pool == [] then PickFor(rows, labels[1..], channel)
      else if |pool| != 1 then None
      else
        var rest := PickFor(rows, labels[1..], channel);
        if rest.None? then None else Some([pool[0]] + rest.value)
  }

  function PickFees(fees: seq<FeeFact>, code: FeeCode, channel: string): Option<seq<FeeFact>> {
    var rows := Filter(fees, HasCode(code));
    PickFor(rows, Sorted(LexLeq, FeeLabels(rows)), channel)
  }

  /** The single row for a fee that must have exactly one. */
  function OnlyFee(fees: seq<FeeFact>, code: FeeCode, channel: string): Option<FeeFact> {
    var chosen := PickFees(fees, code, channel);
    if chosen.Some? && |chosen.value| == 1 then Some(chosen.value[0]) else None
  }

  // ---- The seven landed lines

  function PurchaseLine(data: LandedCostInput, currency: string): CostLine {
    if data.purchaseAmount.None? || data.purchaseCurrency.None? || data.purchaseCurrency.value == "" then
      Gap(PURCHASE, currency)
    else if data.purchaseCurrency.value == currency then Priced(PURCHASE, data.purchaseAmount.value, currency)
    else if data.fxRate.None? || data.fxRate.value <= 0.0 then Gap(PURCHASE, currency)
    else Priced(PURCHASE, data.purchaseAmount.value / data.fxRate.value, currency)
  }

  /** Whether a value is below the rule's threshold; no answer when the currencies differ. */
  function BlockedByThreshold(amount: Decimal, currency: string, fact: TaxFact): Option<bool> {
    if fact.thresholdAmount.None? then Some(false)
    else if fact.thresholdCurrency != Some(currency) then None
    else Some(amount < fact.thresholdAmount.value)
  }

  predicate Declared(data: LandedCostInput, currency: string) {
    data.declaredValue.Some? && data.declaredCurrency == Some(currency)
  }

  function DutyLine(data: LandedCostInput, taxes: seq<TaxFact>, currency: string): CostLine {
    var fact := PickTax(taxes, DUTY_TAX, data.hsCode);
    if fact.None? || !Declared(data, currency) then Gap(DUTY, currency)
    else
      var blocked := BlockedByThreshold(data.declaredValue.value, currency, fact.value);
      if blocked.None? then Gap(DUTY, currency)
      else if blocked.value then Priced(DUTY, 0.0, currency)
      else Priced(DUTY, Times(data.declaredValue.value, fact.value.rate), currency)
  }

  function PickTaxes(taxes: seq<TaxFact>, types: seq<TaxType>, hsCode: string): seq<TaxFact> {
    if types == [] then []
    else
      var fact := PickTax(taxes, types[0], hsCode);
      (if fact.Some? then [fact.value] else []) + PickTaxes(taxes, types[1..], hsCode)
  }

  /** One rule's tax on the declared value and the duty, rounded. */
  function TaxOf(fact: TaxFact, taxable: Decimal): Decimal {
    var basis := Times(taxable, fact.basisNumerator as real) / fact.basisDenominator as real;
    Quantize(Times(basis, fact.rate))
  }

  /** Rules below their threshold add nothing; a threshold in another currency leaves no answer. */
  function ImportTaxTotal(facts: seq<TaxFact>, declared: Decimal, duty: Decimal, currency: string): Option<Decimal> {
    if facts == [] then Some(0.0)
    else
      var blocked := BlockedByThreshold(declared, currency, facts[0]);
      if blocked.None? then None
      else
        var rest := ImportTaxTotal(facts[1..], declared, duty, currency);
        if rest.None? then None
        else Some((if blocked.value then 0.0 else TaxOf(facts[0], declared + duty)) + rest.value)
  }

  function ImportTaxLine(data: LandedCostInput, taxes: seq<TaxFact>, currency: string, duty: CostLine): CostLine {
    var facts := PickTaxes(taxes, IMPORT_TAX_TYPES, data.hsCode);
    if facts == [] || !Declared(data, currency) || !Ready(duty) then Gap(IMPORT_TAX, currency)
    else
      var total := ImportTaxTotal(facts, data.declaredValue.value, duty.amount.value, currency);
      if total.None? then Gap(IMPORT_TAX, currency) else Priced(IMPORT_TAX, total.value, currency)
  }

  function FixedTotal(rows: seq<FeeFact>): Decimal {
    if rows == [] then 0.0 else Quantize(rows[0].amount) + FixedTotal(rows[1..])
  }

  predicate AllFixed(rows: seq<FeeFact>) {
    forall i :: 0 <= i < |rows| ==> rows[i].charge == FIXED
  }

  predicate AllIn(rows: seq<FeeFact>, currency: string) {
    forall i :: 0 <= i < |rows| ==> rows[i].currency == Some(currency)
  }

  function BrokerageLine(data: LandedCostInput, fees: seq<FeeFact>, currency: string): CostLine {
    var chosen := PickFees(fees, BrokerageFee, data.channel);
    if chosen.None? || chosen.value == [] || !AllFixed(chosen.value) || !AllIn(chosen.value, currency) then
      Gap(BROKERAGE, currency)
    else Priced(BROKERAGE, FixedTotal(chosen.value), currency)
  }

  function StorageLine(data: LandedCostInput, fees: seq<FeeFact>, currency: string): CostLine {
    if data.storageDays.None? then Gap(STORAGE, currency)
    else if data.storageDays.value == 0 then Priced(STORAGE, 0.0, currency)
    else
      var row := OnlyFee(fees, StorageFee, data.channel);
      if row.None? || row.value.charge != PER_CBM_DAY || row.value.currency != Some(currency)
         || data.volumeCm3.None? then Gap(STORAGE, currency)
      else
        var cbm := data.volumeCm3.value / 1000000.0;
        Priced(STORAGE, Times(Times(cbm, data.storageDays.value as real), row.value.amount), currency)
  }

  datatype AllocationMetrics = AllocationMetrics(unit: Option<Decimal>, whole: Option<Decimal>)

  function MetricsFor(data: LandedCostInput, currency: string, purchase: CostLine): AllocationMetrics {
    if data.firstMileMethod == WEIGHT then AllocationMetrics(data.weightG, data.shipmentWeightG)
    else if data.firstMileMethod == VOLUME then AllocationMetrics(data.volumeCm3, data.shipmentVolumeCm3)
    else
      var declared := if data.declaredCurrency == Some(currency) then data.declaredValue else None;
      AllocationMetrics(if declared.None? && purchase.complete then purchase.amount else declared, data.shipmentValue)
  }

  function AllocatedLine(data: LandedCostInput, currency: string, purchase: CostLine): CostLine {
    var m := MetricsFor(data, currency, purchase);
    if data.shipmentCost.None? || data.shipmentCurrency != Some(currency) then Gap(FIRST_MILE, currency)
    else if m.unit.None? || m.whole.None? || m.whole.value <= 0.0 then Gap(FIRST_MILE, currency)
    else Priced(FIRST_MILE, Times(data.shipmentCost.value, m.unit.value) / m.whole.value, currency)
  }

  /** Actual or volumetric weight, whichever is larger among those that can be worked out. */
  function ChargeableKg(data: LandedCostInput, row: FeeFact): Option<Decimal> {
    var actual := if data.weightG.None? then None else Some(data.weightG.value / 1000.0);
    var volumetric :=
      if row.volumetricDivisor.Some? && data.volumeCm3.Some? then
        Some(data.volumeCm3.value / row.volumetricDivisor.value as real)
      else None;
    if actual.None? then volumetric
    else if volumetric.None? then actual
    else Some(Max(actual.value, volumetric.value))
  }

  function ChargeableLine(data: LandedCostInput, fees: seq<FeeFact>, currency: string): CostLine {
    var row := OnlyFee(fees, FirstMileFee, data.channel);
    if row.None? || row.value.currency != Some(currency) then Gap(FIRST_MILE, currency)
    else
      match row.value.charge
      case FIXED => Priced(FIRST_MILE, row.value.amount, currency)
      case PER_CBM =>
        if data.volumeCm3.None? then Gap(FIRST_MILE, currency)
        else Priced(FIRST_MILE, Times(data.volumeCm3.value / 1000000.0, row.value.amount), currency)
      case PER_KG =>
        var kg := ChargeableKg(data, row.value);
        if kg.None? then Gap(FIRST_MILE, currency)
        else Priced(FIRST_MILE, Times(kg.value, row.value.amount), currency)
      case _ => Gap(FIRST_MILE, currency)
  }

  function FirstMileLine(data: LandedCostInput, fees: seq<FeeFact>, currency: string, purchase: CostLine): CostLine {
    match data.firstMileMethod
    case CHARGEABLE => ChargeableLine(data, fees, currency)
    case UNSUPPORTED => Gap(FIRST_MILE, currency)
    case _ => AllocatedLine(data, currency, purchase)
  }

  function FxReserveLine(fees: seq<FeeFact>, channel: string, currency: string, parts: seq<CostLine>): CostLine {
    var base := Total(parts);
    var row := OnlyFee(fees, FxReserveFee, channel);
    if row.None? || row.value.charge != RATE || base.None? then Gap(FX_RESERVE, currency)
    else Priced(FX_RESERVE, Times(base.value, row.value.amount), currency)
  }

  // ---- The five price-dependent lines

  function RateOfPrice(
    code: LineCode, fee: FeeCode, price: Option<Decimal>, fees: seq<FeeFact>, channel: string, currency: string)
    : CostLine
  {
    var row := OnlyFee(fees, fee, channel);
    if row.None? || row.value.charge != RATE || price.None? then Gap(code, currency)
    else Priced(code, Times(price.value, row.value.amount), currency)
  }

  function FulfillmentLine(price: Option<Decimal>, fees: seq<FeeFact>, channel: string, currency: string): CostLine {
    var row := OnlyFee(fees, FulfillmentFee, channel);
    if row.None? then Gap(FULFILLMENT, currency)
    else
      match row.value.charge
      case FIXED =>
        if row.value.currency != Some(currency) then Gap(FULFILLMENT, currency)
        else Priced(FULFILLMENT, row.value.amount, currency)
      case RATE =>
        if price.None? then Gap(FULFILLMENT, currency)
        else Priced(FULFILLMENT, Times(price.value, row.value.amount), currency)
      case _ => Gap(FULFILLMENT, currency)
  }

  function ReturnLine(price: Option<Decimal>, fees: seq<FeeFact>, channel: string, currency: string): CostLine {
    var left, right := OnlyFee(fees, ReturnRateFee, channel), OnlyFee(fees, ReturnLossFee, channel);
    if left.None? || right.None? || left.value.charge != RATE || right.value.charge != RATE || price.None? then
      Gap(RETURN, currency)
    else Priced(RETURN, Times(price.value, Times(left.value.amount, right.value.amount)), currency)
  }

  function PriceLines(price: Option<Decimal>, fees: seq<FeeFact>, channel: string, currency: string): seq<CostLine> {
    [RateOfPrice(COMMISSION, CommissionFee, price, fees, channel, currency),
     RateOfPrice(PAYMENT, PaymentFee, price, fees, channel, currency),
     FulfillmentLine(price, fees, channel, currency),
     RateOfPrice(ADS, AdsFee, price, fees, channel, currency),
     ReturnLine(price, fees, channel, currency)]
  }

  // ---- All together

  function LandedLines(data: LandedCostInput, taxes: seq<TaxFact>, fees: seq<FeeFact>, off: set<LineCode>)
    : (lines: seq<CostLine>)
    ensures |lines| == LANDED_COUNT
  {
    var currency := data.sellingCurrency;
    var purchase := Gate(PurchaseLine(data, currency), off, currency);
    var duty := Gate(DutyLine(data, taxes, currency), off, currency);
    var importTax := Gate(ImportTaxLine(data, taxes, currency, duty), off, currency);
    var brokerage := Gate(BrokerageLine(data, fees, currency), off, currency);
    var storage := Gate(StorageLine(data, fees, currency), off, currency);
    var firstMile := Gate(FirstMileLine(data, fees, currency, purchase), off, currency);
    var parts := [purchase, firstMile, duty, importTax, brokerage, storage];
    parts + [Gate(FxReserveLine(fees, data.channel, currency, parts), off, currency)]
  }

  function GateAll(lines: seq<CostLine>, off: set<LineCode>, currency: string): (gated: seq<CostLine>)
    ensures |gated| == |lines| && forall i :: 0 <= i < |lines| ==> gated[i] == Gate(lines[i], off, currency)
  {
    if lines == [] then [] else [Gate(lines[0], off, currency)] + GateAll(lines[1..], off, currency)
  }

  function Deductions(data: LandedCostInput, fees: seq<FeeFact>, off: set<LineCode>): seq<CostLine> {
    GateAll(PriceLines(data.sellingPrice, fees, data.channel, data.sellingCurrency), off, data.sellingCurrency)
  }

  /** A percentage of `whole`, rounded. */
  function Percent(part: Decimal, whole: Decimal): Decimal
    requires whole != 0.0
  {
    Quantize(part / whole * 100.0)
  }

  function Invested(purchase: CostLine, firstMile: CostLine): Option<Decimal> {
    if Ready(purchase) && Ready(firstMile) then Some(Quantize(purchase.amount.value + firstMile.amount.value)) else None
  }

  function Settle(price: Option<Decimal>, currency: string, landed: seq<CostLine>, deductions: seq<CostLine>)
    : LandedCostResult
    requires |landed| == LANDED_COUNT
  {
    var landedCost := Total(landed);
    var deducted := Total(deductions);
    var net :=
      if landedCost.Some? && deducted.Some? && price.Some? then
        Some(Quantize(price.value - landedCost.value - deducted.value))
      else None;
    var base := Invested(landed[0], landed[1]);
    LandedCostResult(
      landed + deductions,
      currency,
      landedCost,
      net,
      if net.Some? && price.value > 0.0 then Some(Percent(net.value, price.value)) else None,
      if net.Some? && base.Some? && base.value > 0.0 then Some(Percent(net.value, base.value)) else None,
      landedCost.Some?,
      net.Some?)
  }

  function ComputeLandedCost(data: LandedCostInput, taxes: seq<TaxFact>, fees: seq<FeeFact>, off: set<LineCode>)
    : LandedCostResult
  {
    Settle(data.sellingPrice, data.sellingCurrency, LandedLines(data, taxes, fees, off), Deductions(data, fees, off))
  }

  // ---- What every result is like

  /** A rounded amount or a gap, never something in between. */
  predicate WellFormed(line: CostLine) {
    if line.complete then line.amount.Some? && OnGrid(line.amount.value) else line.amount.None?
  }

  ghost predicate AllWellFormed(lines: seq<CostLine>) {
    forall i :: 0 <= i < |lines| ==> WellFormed(lines[i])
  }

  ghost predicate Built(line: CostLine, code: LineCode, currency: string) {
    line == Gap(code, currency) || exists x :: line == Priced(code, x, currency)
  }

  lemma GateWellFormed(line: CostLine, code: LineCode, off: set<LineCode>, currency: string)
    requires Built(line, code, currency)
    ensures WellFormed(Gate(line, off, currency))
    ensures Gate(line, off, currency).code == code && Gate(line, off, currency).currency == currency
  {
    GridFromInteger(0);
    if line != Gap(code, currency) {
      var x :| line == Priced(code, x, currency);
      QuantizeNear(x);
    }
  }

  lemma LandedLinesBuilt(
    data: LandedCostInput, taxes: seq<TaxFact>, fees: seq<FeeFact>, purchase: CostLine, duty: CostLine,
    parts: seq<CostLine>)
    ensures
      var c := data.sellingCurrency;
      && Built(PurchaseLine(data, c), PURCHASE, c)
      && Built(FirstMileLine(data, fees, c, purchase), FIRST_MILE, c)
      && Built(DutyLine(data, taxes, c), DUTY, c)
      && Built(ImportTaxLine(data, taxes, c, duty), IMPORT_TAX, c)
      && Built(BrokerageLine(data, fees, c), BROKERAGE, c)
      && Built(StorageLine(data, fees, c), STORAGE, c)
      && Built(FxReserveLine(fees, data.channel, c, parts), FX_RESERVE, c)
  {
    hide Times, Quantize, Priced, PickTax, PickTaxes, OnlyFee, PickFees, Total, ImportTaxTotal, FixedTotal;
  }

  lemma PriceLinesBuilt(price: Option<Decimal>, fees: seq<FeeFact>, channel: string, currency: string)
    ensures
      var lines := PriceLines(price, fees, channel, currency);
      forall i :: 0 <= i < 5 ==> Built(lines[i], LINE_CODES[LANDED_COUNT + i], currency)
  {
    hide Times, Quantize, Priced, OnlyFee;
  }

  ghost predicate LinesCoded(lines: seq<CostLine>, from: nat, currency: string) {
    && from + |lines| <= |LINE_CODES|
    && forall i :: 0 <= i < |lines| ==> lines[i].code == LINE_CODES[from + i] && lines[i].currency == currency
  }

  lemma LandedWellFormed(data: LandedCostInput, taxes: seq<TaxFact>, fees: seq<FeeFact>, off: set<LineCode>)
    ensures
      var lines := LandedLines(data, taxes, fees, off);
      AllWellFormed(lines) && LinesCoded(lines, 0, data.sellingCurrency)
  {
    var c := data.sellingCurrency;
    var purchase := Gate(PurchaseLine(data, c), off, c);
    var duty := Gate(DutyLine(data, taxes, c), off, c);
    var importTax := Gate(ImportTaxLine(data, taxes, c, duty), off, c);
    var brokerage := Gate(BrokerageLine(data, fees, c), off, c);
    var storage := Gate(StorageLine(data, fees, c), off, c);
    var firstMile := Gate(FirstMileLine(data, fees, c, purchase), off, c);
    var parts := [purchase, firstMile, duty, importTax, brokerage, storage];
    LandedLinesBuilt(data, taxes, fees, purchase, duty, parts);
    hide Built, PurchaseLine, DutyLine, ImportTaxLine, BrokerageLine, StorageLine, FirstMileLine, FxReserveLine, Gate,
         WellFormed;
    GateWellFormed(PurchaseLine(data, c), PURCHASE, off, c);
    GateWellFormed(FirstMileLine(data, fees, c, purchase), FIRST_MILE, off, c);
    GateWellFormed(DutyLine(data, taxes, c), DUTY, off, c);
    GateWellFormed(ImportTaxLine(data, taxes, c, duty), IMPORT_TAX, off, c);
    GateWellFormed(BrokerageLine(data, fees, c), BROKERAGE, off, c);
    GateWellFormed(StorageLine(data, fees, c), STORAGE, off, c);
    GateWellFormed(FxReserveLine(fees, data.channel, c, parts), FX_RESERVE, off, c);
  }

  lemma {:induction false} GateAllWellFormed(lines: seq<CostLine>, from: nat, off: set<LineCode>, currency: string)
    requires from + |lines| <= |LINE_CODES|
    requires forall i :: 0 <= i < |lines| ==> Built(lines[i], LINE_CODES[from + i], currency)
    ensures AllWellFormed(GateAll(lines, off, currency)) && LinesCoded(GateAll(lines, off, currency), from, currency)
    decreases |lines|
  {
    hide Built, Gate, WellFormed;
    if lines != [] {
      var rest := lines[1..];
      GateWellFormed(lines[0], LINE_CODES[from], off, currency);
      forall i | 0 <= i < |rest|
        ensures Built(rest[i], LINE_CODES[from + 1 + i], currency)
      {
        assert rest[i] == lines[i + 1];
      }
      GateAllWellFormed(rest, from + 1, off, currency);
      assert GateAll(lines, off, currency) == [Gate(lines[0], off, currency)] + GateAll(rest, off, currency);
    }
  }

  lemma DeductionsWellFormed(data: LandedCostInput, fees: seq<FeeFact>, off: set<LineCode>)
    ensures
      var lines := Deductions(data, fees, off);
      |lines| == 5 && AllWellFormed(lines) && LinesCoded(lines, LANDED_COUNT, data.sellingCurrency)
  {
    PriceLinesBuilt(data.sellingPrice, fees, data.channel, data.sellingCurrency);
    hide Built, WellFormed, RateOfPrice, FulfillmentLine, ReturnLine;
    GateAllWellFormed(PriceLines(data.sellingPrice, fees, data.channel, data.sellingCurrency), LANDED_COUNT, off,
                      data.sellingCurrency);
  }

  /** Every result has the twelve lines in order, each a rounded amount or a gap. */
  lemma ResultWellFormed(data: LandedCostInput, taxes: seq<TaxFact>, fees: seq<FeeFact>, off: set<LineCode>)
    ensures
      var r := ComputeLandedCost(data, taxes, fees, off);
      |r.lines| == |LINE_CODES| && AllWellFormed(r.lines) && LinesCoded(r.lines, 0, data.sellingCurrency)
  {
    LandedWellFormed(data, taxes, fees, off);
    DeductionsWellFormed(data, fees, off);
    hide WellFormed, LandedLines, Deductions, Total, Percent, Invested;
  }

  lemma {:induction false} AmountsOnGrid(lines: seq<CostLine>)
    requires AllWellFormed(lines)
    ensures AllOnGrid(Amounts(lines))
    ensures AllReady(lines) ==> |Amounts(lines)| == |lines|
    ensures AllReady(lines) ==> forall i :: 0 <= i < |lines| ==> lines[i].amount == Some(Amounts(lines)[i])
  {
    if lines != [] {
      assert WellFormed(lines[0]);
      hide OnGrid;
      AmountsOnGrid(lines[1..]);
    }
  }

  /** Lines are rounded one by one, so their total needs no further rounding. */
  lemma TotalIsSum(lines: seq<CostLine>)
    requires AllWellFormed(lines)
    ensures Total(lines) == if AllReady(lines) then Some(Sum(Amounts(lines))) else None
    ensures AllReady(lines) ==> OnGrid(Total(lines).value)
  {
    AmountsOnGrid(lines);
    SumOnGrid(Amounts(lines));
    QuantizeFixes(Sum(Amounts(lines)));
  }

  lemma AllReadyAppend(a: seq<CostLine>, b: seq<CostLine>)
    ensures AllReady(a + b) <==> AllReady(a) && AllReady(b)
  {
    forall i | 0 <= i < |a|
      ensures (a + b)[i] == a[i]
    {
    }
    forall i | 0 <= i < |b|
      ensures (a + b)[|a| + i] == b[i]
    {
    }
  }

  lemma {:induction false} AmountsAppend(a: seq<CostLine>, b: seq<CostLine>)
    ensures Amounts(a + b) == Amounts(a) + Amounts(b)
  {
    if a == [] {
      assert a + b == b;
    } else {
      var head := if a[0].amount.Some? then [a[0].amount.value] else [];
      assert (a + b)[1..] == a[1..] + b;
      AmountsAppend(a[1..], b);
      assert Amounts(a + b) == head + (Amounts(a[1..]) + Amounts(b));
    }
  }

  ghost predicate Splits(price: Option<Decimal>, r: LandedCostResult) {
    && (r.netProfit.Some? <==> price.Some? && AllReady(r.lines))
    && (r.netProfit.Some? ==>
          && OnGrid(r.netProfit.value)
          && (price.value == Sum(Amounts(r.lines)) + r.netProfit.value <==> OnGrid(price.value)))
  }

  lemma SettleSplits(price: Option<Decimal>, currency: string, landed: seq<CostLine>, deductions: seq<CostLine>)
    requires |landed| == LANDED_COUNT && AllWellFormed(landed) && AllWellFormed(deductions)
    ensures Splits(price, Settle(price, currency, landed, deductions))
  {
    TotalIsSum(landed);
    TotalIsSum(deductions);
    AllReadyAppend(landed, deductions);
    AmountsAppend(landed, deductions);
    SumAppend(Amounts(landed), Amounts(deductions));
    hide WellFormed, Total, Percent, Invested, Amounts, Sum, AllReady, Quantize, OnGrid;
    if price.Some? && AllReady(landed) && AllReady(deductions) {
      NetIsExact(price.value, Total(landed).value, Total(deductions).value);
    }
  }

  /** Unit identity: a profit is reported exactly when a price is given and all twelve lines are complete,
      and then the price is the sum of the twelve lines and the profit - if and only if the price itself has
      at most six decimals. */
  lemma PriceSplitsExactly(data: LandedCostInput, taxes: seq<TaxFact>, fees: seq<FeeFact>, off: set<LineCode>)
    ensures Splits(data.sellingPrice, ComputeLandedCost(data, taxes, fees, off))
  {
    LandedWellFormed(data, taxes, fees, off);
    DeductionsWellFormed(data, fees, off);
    hide LandedLines, Deductions, AllWellFormed, Settle, Splits;
    SettleSplits(data.sellingPrice, data.sellingCurrency, LandedLines(data, taxes, fees, off),
                 Deductions(data, fees, off));
  }

  lemma NetIsExact(price: Decimal, landed: Decimal, deducted: Decimal)
    requires OnGrid(landed) && OnGrid(deducted)
    ensures
      var net := Quantize(price - landed - deducted);
      OnGrid(net) && (price == landed + deducted + net <==> OnGrid(price))
  {
    var net := Quantize(price - landed - deducted);
    QuantizeNear(price - landed - deducted);
    QuantizeFixes(price - landed - deducted);
    GridAdd(landed, deducted);
    if OnGrid(price) {
      GridAdd(price, landed);
      GridAdd(price - landed, deducted);
    }
    if OnGrid(price - landed - deducted) {
      GridAdd(price - landed - deducted, landed + deducted);
    }
  }

  lemma AmountsPrefix(lines: seq<CostLine>, i: nat)
    requires i < |lines| && Ready(lines[i])
    ensures Sum(Amounts(lines[..i + 1])) == Sum(Amounts(lines[..i])) + lines[i].amount.value
  {
    assert lines[..i + 1] == lines[..i] + [lines[i]];
    AmountsAppend(lines[..i], [lines[i]]);
    assert Amounts([lines[i]]) == [lines[i].amount.value];
    hide Amounts;
    SumAppend(Amounts(lines[..i]), [lines[i].amount.value]);
  }

  // ---- Reading a line by its code

  /** The first line with this code. */
  function LineOf(lines: seq<CostLine>, code: LineCode): CostLine
    requires exists i :: 0 <= i < |lines| && lines[i].code == code
  {
    if lines[0].code == code then lines[0] else
      assert exists i :: 0 <= i < |lines[1..]| && lines[1..][i].code == code by {
        var i :| 0 <= i < |lines| && lines[i].code == code;
        assert lines[1..][i - 1].code == code;
      }
      LineOf(lines[1..], code)
  }

  lemma {:induction false} FirstLineFound(lines: seq<CostLine>, i: nat)
    requires i < |lines| && forall j :: 0 <= j < i ==> lines[j].code != lines[i].code
    ensures LineOf(lines, lines[i].code) == lines[i]
    decreases i
  {
    if i > 0 {
      FirstLineFound(lines[1..], i - 1);
    }
  }

  /** With the twelve lines in order, looking up the i-th code gives the i-th line. */
  lemma LineInPlace(lines: seq<CostLine>, i: nat, currency: string)
    requires |lines| == |LINE_CODES| && LinesCoded(lines, 0, currency) && i < |lines|
    ensures lines[i].code == LINE_CODES[i] && LineOf(lines, LINE_CODES[i]) == lines[i]
  {
    assert lines[i].code == LINE_CODES[i];
    forall j | 0 <= j < i
      ensures lines[j].code != lines[i].code
    {
      CodesDiffer(j, i);
    }
    FirstLineFound(lines, i);
  }

  lemma CodesDiffer(i: nat, j: nat)
    requires i < j < |LINE_CODES|
    ensures LINE_CODES[i] != LINE_CODES[j]
  {
  }
}
