/** The day's figures in the book currency: when they fit together exactly. */
module BookFigures {
  import opened Options
  import opened Decimals
  import opened LandedCost
  import opened Profit

  predicate IsWhole(x: real) {
    x.Floor as real == x
  }

  /** Book revenue is book cost plus book profit. */
  predicate BookFits(r: DailyRollup) {
    && r.bookRevenue.Some? && r.bookCostTotal.Some? && r.bookNetProfit.Some?
    && r.bookRevenue.value == r.bookCostTotal.value + r.bookNetProfit.value
  }

  lemma WholeRateKeepsGrid(x: Decimal, rate: Decimal)
    requires OnGrid(x) && IsWhole(rate)
    ensures Quantize(Times(x, rate)) == Times(x, rate)
  {
    ScaledOnGrid(x, rate.Floor);
  }

  /** One unit sold for `cost + net` of which only the purchase price is charged. */
  function PlainInput(cost: Decimal, net: Decimal): LandedCostInput {
    LandedCostInput(
      "USD", "*", WEIGHT, Some(cost + net), Some(cost), Some("USD"), None, None, None, "", None, None, None, None, None,
      None, None, None)
  }

  const ALL_BUT_PURCHASE: set<LineCode> :=
    {FIRST_MILE, DUTY, IMPORT_TAX, BROKERAGE, STORAGE, FX_RESERVE, COMMISSION, PAYMENT, FULFILLMENT, ADS, RETURN}

  function PlainUnit(cost: Decimal, net: Decimal): OrderUnit {
    OrderUnit(1, cost + net, ComputeLandedCost(PlainInput(cost, net), [], [], ALL_BUT_PURCHASE))
  }

  lemma SwitchedOffIsZero(line: CostLine, off: set<LineCode>, currency: string)
    requires Gate(line, off, currency).code in off
    ensures Ready(Gate(line, off, currency)) && Gate(line, off, currency).amount == Some(0.0)
  {
  }

  ghost predicate AllZero(lines: seq<CostLine>) {
    forall i :: 0 <= i < |lines| ==> Ready(lines[i]) && lines[i].amount == Some(0.0)
  }

  lemma {:induction false} ZeroTotal(lines: seq<CostLine>)
    requires AllZero(lines)
    ensures AllReady(lines) && Sum(Amounts(lines)) == 0.0
  {
    if lines != [] {
      assert lines[0].amount == Some(0.0);
      ZeroTotal(lines[1..]);
      SumAppend([0.0], Amounts(lines[1..]));
      assert AllReady([lines[0]] + lines[1..]) by {
        AllReadyAppend([lines[0]], lines[1..]);
      }
      assert lines == [lines[0]] + lines[1..];
    }
  }

  lemma PlainLandedRest(cost: Decimal, net: Decimal)
    ensures AllZero(LandedLines(PlainInput(cost, net), [], [], ALL_BUT_PURCHASE)[1..])
  {
    var d, off := PlainInput(cost, net), ALL_BUT_PURCHASE;
    var c := d.sellingCurrency;
    var lines := LandedLines(d, [], [], off);
    LandedWellFormed(d, [], [], off);
    hide PurchaseLine, DutyLine, ImportTaxLine, BrokerageLine, StorageLine, FirstMileLine, FxReserveLine, Gate, WellFormed,
         Ready, PlainInput;
    forall i | 1 <= i < |lines|
      ensures lines[i].code in off
    {
      assert lines[i].code == LINE_CODES[i];
    }
    var purchase, duty := Gate(PurchaseLine(d, c), off, c), Gate(DutyLine(d, [], c), off, c);
    assert lines[1] == Gate(FirstMileLine(d, [], c, purchase), off, c) && lines[2] == duty;
    assert lines[3] == Gate(ImportTaxLine(d, [], c, duty), off, c);
    assert lines[4] == Gate(BrokerageLine(d, [], c), off, c) && lines[5] == Gate(StorageLine(d, [], c), off, c);
    assert lines[6] == Gate(FxReserveLine([], d.channel, c, lines[..6]), off, c);
    hide LandedLines;
    SwitchedOffIsZero(FirstMileLine(d, [], c, purchase), off, c);
    SwitchedOffIsZero(DutyLine(d, [], c), off, c);
    SwitchedOffIsZero(ImportTaxLine(d, [], c, duty), off, c);
    SwitchedOffIsZero(BrokerageLine(d, [], c), off, c);
    SwitchedOffIsZero(StorageLine(d, [], c), off, c);
    SwitchedOffIsZero(FxReserveLine([], d.channel, c, lines[..6]), off, c);
  }

  lemma PlainDeductions(cost: Decimal, net: Decimal)
    ensures AllZero(Deductions(PlainInput(cost, net), [], ALL_BUT_PURCHASE))
  {
    var d, off := PlainInput(cost, net), ALL_BUT_PURCHASE;
    var lines := Deductions(d, [], off);
    var ungated := PriceLines(d.sellingPrice, [], d.channel, d.sellingCurrency);
    DeductionsWellFormed(d, [], off);
    hide PriceLines, WellFormed, Gate, Ready;
    forall i | 0 <= i < |lines|
      ensures Ready(lines[i]) && lines[i].amount == Some(0.0)
    {
      assert lines[i].code == LINE_CODES[LANDED_COUNT + i];
      assert lines[i] == Gate(ungated[i], off, d.sellingCurrency);
      SwitchedOffIsZero(ungated[i], off, d.sellingCurrency);
    }
  }

  lemma PlainPurchase(cost: Decimal, net: Decimal)
    requires OnGrid(cost)
    ensures
      var line := LandedLines(PlainInput(cost, net), [], [], ALL_BUT_PURCHASE)[0];
      Ready(line) && line.amount == Some(cost)
  {
    QuantizeFixes(cost);
    hide DutyLine, ImportTaxLine, BrokerageLine, StorageLine, FirstMileLine, FxReserveLine, Quantize, OnGrid;
  }

  lemma PlainLines(cost: Decimal, net: Decimal)
    requires OnGrid(cost)
    ensures
      var lines := PlainUnit(cost, net).result.lines;
      AllReady(lines) && Sum(Amounts(lines)) == cost
  {
    var d, off, lines := PlainInput(cost, net), ALL_BUT_PURCHASE, PlainUnit(cost, net).result.lines;
    var landed, deductions := LandedLines(d, [], [], off), Deductions(d, [], off);
    PlainPurchase(cost, net);
    PlainLandedRest(cost, net);
    PlainDeductions(cost, net);
    assert lines == landed + deductions && landed == [landed[0]] + landed[1..];
    hide PlainUnit, LandedLines, Deductions, OnGrid, Amounts, Sum, Ready, AllReady;
    ZeroTotal(landed[1..]);
    ZeroTotal(deductions);
    OneLine(landed[0]);
    AllReadyAppend([landed[0]], landed[1..]);
    AllReadyAppend(landed, deductions);
    AmountsAppend([landed[0]], landed[1..]);
    AmountsAppend(landed, deductions);
    SumAppend(Amounts([landed[0]]), Amounts(landed[1..]));
    SumAppend(Amounts(landed), Amounts(deductions));
  }

  lemma NetOfPrice(price: Decimal, r: LandedCostResult)
    requires Splits(Some(price), r) && AllReady(r.lines) && OnGrid(price)
    ensures r.netProfit == Some(price - Sum(Amounts(r.lines)))
  {
    hide OnGrid, AllReady, Sum, Amounts;
  }

  /** For every six-decimal cost and profit there is such a unit, computed by the cost engine. */
  lemma PlainUnitIsComputed(cost: Decimal, net: Decimal)
    requires OnGrid(cost) && OnGrid(net)
    ensures Consistent([PlainUnit(cost, net)]) && AllProfitable([PlainUnit(cost, net)])
    ensures PlainUnit(cost, net).result.netProfit == Some(net)
    ensures Sum(Amounts(PlainUnit(cost, net).result.lines)) == cost
  {
    hide ComputeLandedCost, OnGrid, Amounts, Sum, AllReady, Consistent, Splits;
    var d, off := PlainInput(cost, net), ALL_BUT_PURCHASE;
    GridAdd(cost, net);
    PlainLines(cost, net);
    ComputedIsConsistent(1, d, [], [], off);
    PriceSplitsExactly(d, [], [], off);
    NetOfPrice(cost + net, ComputeLandedCost(d, [], [], off));
  }

  lemma OneLine(line: CostLine)
    requires Ready(line)
    ensures AllReady([line]) && Sum(Amounts([line])) == line.amount.value
  {
    assert Amounts([line]) == [line.amount.value] + Amounts([]);
  }

  /** How many micro-units `a` micro-units come to in the book currency. */
  function Booked(a: int, rate: Decimal): int {
    Round(Times(a as real, rate))
  }

  lemma BookedAmount(a: int, rate: Decimal)
    ensures Quantize(Times(a as real / SCALE, rate)) == Booked(a, rate) as real / SCALE
  {
    assert Times(a as real / SCALE, rate) * SCALE == Times(a as real, rate);
    hide Round, Times;
  }

  /** If k micro-units do not come to k times one, then somewhere below k one more does not add one more. */
  lemma {:induction false} FirstMisfit(rate: Decimal, k: int) returns (a: int)
    requires k >= 1 && Booked(k, rate) != k * Booked(1, rate)
    ensures a >= 1 && Booked(a + 1, rate) != Booked(a, rate) + Booked(1, rate)
    decreases k
  {
    hide Booked;
    a := k - 1;
    if Booked(k, rate) == Booked(k - 1, rate) + Booked(1, rate) && k > 1 {
      assert k * Booked(1, rate) == (k - 1) * Booked(1, rate) + Booked(1, rate);
      a := FirstMisfit(rate, k - 1);
    }
  }

  /** Rounding errors of a fractional rate add up to more than a half in the end. */
  lemma FractionAccumulates(rate: Decimal) returns (k: int)
    requires !IsWhole(rate)
    ensures k >= 1 && Booked(k, rate) != k * Booked(1, rate)
  {
    var whole := Booked(1, rate);
    TimesUnit(rate);
    RoundNear(rate);
    var off := Abs(whole as real - rate);
    assert off > 0.0;
    k := (1.0 / off).Floor + 1;
    MoreThanOne(off, k);
    RoundNear(Times(k as real, rate));
    TimesSwap(k as real, rate);
    TimesSwap(k as real, whole as real);
    TimesAdd(whole as real, rate, k as real);
    TimesAdd(rate, whole as real, k as real);
    assert (k * whole) as real == Times(k as real, whole as real);
    hide Round, Times;
  }

  lemma MoreThanOne(off: real, k: int)
    requires off > 0.0 && k == (1.0 / off).Floor + 1
    ensures k >= 1 && Times(off, k as real) > 1.0
  {
    assert k as real > 1.0 / off;
    assert 1.0 / off > 0.0;
    TimesStrict(1.0 / off, k as real, off);
    TimesOver(1.0, off);
    TimesSwap(off, k as real);
  }

  /** At any fractional book rate some unit's figures do not fit. */
  lemma BookFiguresCanDiffer(rate: Decimal) returns (cost: Decimal, net: Decimal)
    requires rate > 0.0 && !IsWhole(rate)
    ensures cost > 0.0 && net > 0.0 && OnGrid(cost) && OnGrid(net)
    ensures Consistent([PlainUnit(cost, net)]) && AllProfitable([PlainUnit(cost, net)])
    ensures !BookFits(RollupDaily([PlainUnit(cost, net)], Some(rate), None))
  {
    hide Booked, Quantize, OnGrid, PlainUnit, IsWhole, Times, Splits, WellFormed, RollupDaily, Amounts, Sum;
    var k := FractionAccumulates(rate);
    var a := FirstMisfit(rate, k);
    cost, net := a as real / SCALE, 1 as real / SCALE;
    GridFromInteger(a);
    GridFromInteger(1);
    assert cost + net == (a + 1) as real / SCALE;
    BookedAmount(a, rate);
    BookedAmount(1, rate);
    BookedAmount(a + 1, rate);
    PlainUnitIsComputed(cost, net);
    PlainRollup(cost, net, rate);
  }

  lemma BookedFields(units: seq<OrderUnit>, rate: Decimal, fxGain: Option<Decimal>)
    requires Consistent(units) && rate > 0.0
    ensures
      var r := RollupDaily(units, Some(rate), fxGain);
      r.netProfit.Some? && r.costTotal.Some? ==>
        && r.bookRevenue == Some(Quantize(Times(r.revenue, rate)))
        && r.bookCostTotal == Some(Quantize(Times(r.costTotal.value, rate)))
        && r.bookNetProfit == Some(Quantize(Times(r.netProfit.value, rate)))
  {
    hide Splits, WellFormed, Quantize, OnGrid, Times, Combined, Revenue, Total, Percent;
  }

  lemma PlainRollup(cost: Decimal, net: Decimal, rate: Decimal)
    requires OnGrid(cost) && OnGrid(net) && rate > 0.0
    requires Consistent([PlainUnit(cost, net)])
    ensures
      var r := RollupDaily([PlainUnit(cost, net)], Some(rate), None);
      && r.bookRevenue == Some(Quantize(Times(cost + net, rate)))
      && r.bookCostTotal == Some(Quantize(Times(cost, rate)))
      && r.bookNetProfit == Some(Quantize(Times(net, rate)))
  {
    assert PlainUnit(cost, net).quantity == 1;
    hide PlainUnit, Splits, WellFormed, CostSum, NetSum, Quantize, OnGrid, Times, Sum, Amounts, RollupDaily;
    var unit := PlainUnit(cost, net);
    PlainUnitIsComputed(cost, net);
    RollupIsUnitSum([unit], Some(rate), None);
    BookedFields([unit], rate, None);
    OneUnit(unit);
  }

  lemma OneUnit(unit: OrderUnit)
    requires unit.quantity == 1 && unit.result.netProfit.Some?
    ensures CostSum([unit]) == Sum(Amounts(unit.result.lines)) && NetSum([unit]) == unit.result.netProfit.value
  {
    TimesUnit(Sum(Amounts(unit.result.lines)));
    TimesUnit(unit.result.netProfit.value);
    assert [unit][1..] == [];
  }

  /** Book revenue is book cost plus book profit for every day if and only if the book rate is a whole number. */
  lemma BookFiguresFitWhen(rate: Decimal)
    requires rate > 0.0
    ensures
      (forall units: seq<OrderUnit>, fxGain: Option<Decimal> :: Consistent(units) && AllProfitable(units) ==>
         BookFits(RollupDaily(units, Some(rate), fxGain)))
      <==> IsWhole(rate)
  {
    hide Splits, OnGrid, WellFormed, AllProfitable, RollupDaily, BookFits;
    if IsWhole(rate) {
      forall units: seq<OrderUnit>, fxGain: Option<Decimal> | Consistent(units) && AllProfitable(units)
        ensures BookFits(RollupDaily(units, Some(rate), fxGain))
      {
        WholeRateFits(units, rate, fxGain);
      }
    } else {
      var cost, net := BookFiguresCanDiffer(rate);
      assert !BookFits(RollupDaily([PlainUnit(cost, net)], Some(rate), None));
    }
  }

  lemma WholeRateFits(units: seq<OrderUnit>, rate: Decimal, fxGain: Option<Decimal>)
    requires Consistent(units) && AllProfitable(units) && rate > 0.0 && IsWhole(rate)
    ensures BookFits(RollupDaily(units, Some(rate), fxGain))
  {
    RollupIsUnitSum(units, Some(rate), fxGain);
    CostOnGrid(units);
    var cost, net := CostSum(units), NetSum(units);
    hide Consistent, AllProfitable, Combined, Revenue, Total, Percent, CostSum, NetSum, IsWhole, OnGrid;
    GridAdd(cost, net);
    WholeRateKeepsGrid(cost, rate);
    WholeRateKeepsGrid(net, rate);
    WholeRateKeepsGrid(cost + net, rate);
    TimesAdd(cost, net, rate);
    hide Times, Quantize;
  }

  lemma CostOnGrid(units: seq<OrderUnit>)
    requires Consistent(units) && AllProfitable(units)
    ensures OnGrid(CostSum(units)) && OnGrid(NetSum(units))
  {
    hide CostSum, NetSum, OnGrid, UnitsRevenue, Revenue, Combined, Splits, WellFormed, Amounts, Sum, AllReady, Total;
    CompleteMeansProfitable(units);
    CombinedTotal(units);
    RevenueIsExact(units);
    NetSumSplits(units);
    GridAdd(UnitsRevenue(units), CostSum(units));
  }
}
