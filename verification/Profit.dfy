/** Daily profit: order lines of one product added up, and the waterfall from revenue down to profit. */
module Profit {
  import opened Options
  import opened Decimals
  import opened Sequences
  import opened LandedCost

  /** An order line: how many, at what price, and the cost result for one unit. */
  datatype OrderUnit = OrderUnit(quantity: int, price: Decimal, result: LandedCostResult)

  datatype DailyRollup = DailyRollup(
    revenue: Decimal,
    costTotal: Option<Decimal>,
    netProfit: Option<Decimal>,
    netMarginPercent: Option<Decimal>,
    bookRevenue: Option<Decimal>,
    bookCostTotal: Option<Decimal>,
    bookNetProfit: Option<Decimal>,
    fxGain: Option<Decimal>,
    lines: seq<CostLine>,
    complete: bool)

  /** The shape every computed result has. */
  ghost predicate Shaped(lines: seq<CostLine>) {
    && |lines| == |LINE_CODES|
    && AllWellFormed(lines)
    && forall i :: 0 <= i < |lines| ==> lines[i].code == LINE_CODES[i]
  }

  ghost predicate AllShaped(units: seq<OrderUnit>) {
    forall u :: 0 <= u < |units| ==> Shaped(units[u].result.lines)
  }

  function UnitsRevenue(units: seq<OrderUnit>): Decimal {
    if units == [] then 0.0
    else Quantize(Times(units[0].price, units[0].quantity as real)) + UnitsRevenue(units[1..])
  }

  function Revenue(units: seq<OrderUnit>): Decimal {
    Quantize(UnitsRevenue(units))
  }

  predicate LineReady(units: seq<OrderUnit>, i: nat) {
    forall u :: 0 <= u < |units| ==> i < |units[u].result.lines| && Ready(units[u].result.lines[i])
  }

  function LineTotals(units: seq<OrderUnit>, i: nat): Decimal
    requires i < |LINE_CODES| && LineReady(units, i)
  {
    if |units| == 0 then 0.0
    else
      assert Ready(units[0].result.lines[i]);
      Quantize(Times(units[0].result.lines[i].amount.value, units[0].quantity as real)) + LineTotals(units[1..], i)
  }

  function LineCurrency(units: seq<OrderUnit>, i: nat): string
    requires forall u :: 0 <= u < |units| ==> i < |units[u].result.lines|
  {
    if units == [] then "" else units[|units| - 1].result.lines[i].currency
  }

  /** One cost line over all the units: their rounded amounts added up, or a gap when any is missing. */
  function CombinedLine(units: seq<OrderUnit>, i: nat): CostLine
    requires i < |LINE_CODES| && forall u :: 0 <= u < |units| ==> i < |units[u].result.lines|
  {
    var currency := LineCurrency(units, i);
    if LineReady(units, i) then CostLine(LINE_CODES[i], Some(Quantize(LineTotals(units, i))), currency, true)
    else Gap(LINE_CODES[i], currency)
  }

  function Combined(units: seq<OrderUnit>): seq<CostLine>
    requires forall u :: 0 <= u < |units| ==> |units[u].result.lines| == |LINE_CODES|
  {
    seq(|LINE_CODES|, i requires 0 <= i < |LINE_CODES| => CombinedLine(units, i))
  }

  lemma NoTotals(i: nat)
    requires i < |LINE_CODES|
    ensures LineReady([], i) && LineTotals([], i) == 0.0
  {
  }

  lemma {:induction false} LineTotalsAppend(units: seq<OrderUnit>, i: nat, u: nat)
    requires i < |LINE_CODES| && u < |units| && LineReady(units[..u + 1], i)
    ensures
      LineTotals(units[..u + 1], i)
      == LineTotals(units[..u], i) + Quantize(Times(units[u].result.lines[i].amount.value, units[u].quantity as real))
    decreases u
  {
    hide Quantize, Times;
    assert units[..u + 1][u] == units[u];
    if u == 0 {
      assert units[..1] == [units[0]];
    } else {
      var rest := units[1..];
      assert rest[..u] == units[..u + 1][1..];
      LineTotalsAppend(rest, i, u - 1);
      assert units[..u][1..] == rest[..u - 1];
    }
  }

  lemma ReadyGrows(units: seq<OrderUnit>, i: nat, u: nat)
    requires u < |units| && i < |units[u].result.lines|
    ensures LineReady(units[..u + 1], i) <==> LineReady(units[..u], i) && Ready(units[u].result.lines[i])
  {
    hide Ready;
    var more := units[..u + 1];
    assert more[u] == units[u] && forall v :: 0 <= v < u ==> more[v] == units[..u][v];
  }

  lemma NothingToCombine(i: nat)
    ensures LineReady([], i)
  {
  }

  method CombineLine(units: seq<OrderUnit>, i: nat) returns (line: CostLine)
    requires i < |LINE_CODES| && AllShaped(units)
    ensures line == CombinedLine(units, i)
  {
    hide Quantize, Times, LineTotals, LineOf, WellFormed, LineReady;
    NothingToCombine(i);
    var code := LINE_CODES[i];
    assert units[..0] == [] && LineTotals([], i) == 0.0 by {
      NoTotals(i);
    }
    var amounts: seq<Decimal> := [];
    var complete, currency := true, "";
    for u := 0 to |units|
      invariant complete == LineReady(units[..u], i)
      invariant currency == LineCurrency(units[..u], i)
      invariant complete ==> Sum(amounts) == LineTotals(units[..u], i)
    {
      UnitLine(units, i, u);
      ReadyGrows(units, i, u);
      var found := LineOf(units[u].result.lines, code);
      currency := found.currency;
      assert units[..u + 1][u] == units[u];
      if !found.complete || found.amount.None? {
        complete := false;
      } else {
        var amount := Quantize(Times(found.amount.value, units[u].quantity as real));
        SumAppend(amounts, [amount]);
        amounts := amounts + [amount];
        if complete {
          LineTotalsAppend(units, i, u);
        }
      }
    }
    assert units[..|units|] == units;
    if !complete {
      return CostLine(code, None, currency, false);
    }
    line := CostLine(code, Some(Quantize(Sum(amounts))), currency, true);
  }

  lemma UnitLine(units: seq<OrderUnit>, i: nat, u: nat)
    requires i < |LINE_CODES| && AllShaped(units) && u < |units|
    ensures
      var lines := units[u].result.lines;
      lines[i].code == LINE_CODES[i] && LineOf(lines, LINE_CODES[i]) == lines[i]
  {
    var lines := units[u].result.lines;
    hide LineOf;
    forall j | 0 <= j < i
      ensures lines[j].code != lines[i].code
    {
      CodesDiffer(j, i);
    }
    FirstLineFound(lines, i);
  }

  method Combine(units: seq<OrderUnit>) returns (lines: seq<CostLine>)
    requires AllShaped(units)
    ensures lines == Combined(units)
  {
    hide CombinedLine;
    lines := [];
    for i := 0 to |LINE_CODES|
      invariant |lines| == i && forall j :: 0 <= j < i ==> lines[j] == CombinedLine(units, j)
    {
      var line := CombineLine(units, i);
      lines := lines + [line];
    }
  }

  function RollupDaily(units: seq<OrderUnit>, bookRate: Option<Decimal>, fxGain: Option<Decimal>): DailyRollup
    requires forall u :: 0 <= u < |units| ==> |units[u].result.lines| == |LINE_CODES|
  {
    var revenue := Revenue(units);
    var lines := Combined(units);
    var cost := Total(lines);
    var net := if cost.Some? then Some(Quantize(revenue - cost.value)) else None;
    var margin := if net.Some? && revenue > 0.0 then Some(Percent(net.value, revenue)) else None;
    if bookRate.None? || bookRate.value <= 0.0 then
      DailyRollup(revenue, None, None, None, None, None, None, fxGain, lines, false)
    else
      var rate := bookRate.value;
      DailyRollup(
        revenue, cost, net, margin,
        Some(Quantize(Times(revenue, rate))),
        if cost.Some? then Some(Quantize(Times(cost.value, rate))) else None,
        if net.Some? then Some(Quantize(Times(net.value, rate))) else None,
        fxGain, lines, cost.Some?)
  }

  // ---- The rollup is the sum of the unit profits

  /** Results computed for on-grid prices: price, lines and profit of each unit fit together. */
  ghost predicate Consistent(units: seq<OrderUnit>) {
    && AllShaped(units)
    && forall u :: 0 <= u < |units| ==> OnGrid(units[u].price) && Splits(Some(units[u].price), units[u].result)
  }

  /** A unit whose result comes from the cost engine at that price is consistent. */
  lemma ComputedIsConsistent(
    quantity: int, data: LandedCostInput, taxes: seq<TaxFact>, fees: seq<FeeFact>, off: set<LineCode>)
    requires data.sellingPrice.Some? && OnGrid(data.sellingPrice.value)
    ensures Consistent([OrderUnit(quantity, data.sellingPrice.value, ComputeLandedCost(data, taxes, fees, off))])
  {
    PriceSplitsExactly(data, taxes, fees, off);
    ResultWellFormed(data, taxes, fees, off);
    hide ComputeLandedCost, AllWellFormed, Splits, OnGrid;
  }

  predicate AllComplete(units: seq<OrderUnit>) {
    forall u :: 0 <= u < |units| ==> AllReady(units[u].result.lines)
  }

  /** The unit costs times their quantities. */
  function CostSum(units: seq<OrderUnit>): Decimal {
    if units == [] then 0.0
    else Times(Sum(Amounts(units[0].result.lines)), units[0].quantity as real) + CostSum(units[1..])
  }

  /** The unit profits times their quantities. */
  function NetSum(units: seq<OrderUnit>): Decimal
    requires forall u :: 0 <= u < |units| ==> units[u].result.netProfit.Some?
  {
    if units == [] then 0.0
    else Times(units[0].result.netProfit.value, units[0].quantity as real) + NetSum(units[1..])
  }

  lemma ScaledOnGrid(x: Decimal, quantity: int)
    requires OnGrid(x)
    ensures OnGrid(Times(x, quantity as real)) && Quantize(Times(x, quantity as real)) == Times(x, quantity as real)
  {
    GridScale(x, quantity);
    assert Times(x, quantity as real) == x * quantity as real;
    hide Times, OnGrid, Quantize;
    QuantizeFixes(Times(x, quantity as real));
  }

  lemma {:induction false} RevenueIsExact(units: seq<OrderUnit>)
    requires forall u :: 0 <= u < |units| ==> OnGrid(units[u].price)
    ensures OnGrid(UnitsRevenue(units)) && Revenue(units) == UnitsRevenue(units)
    ensures units != [] ==>
              UnitsRevenue(units) == Times(units[0].price, units[0].quantity as real) + UnitsRevenue(units[1..])
  {
    hide Times, OnGrid, Quantize;
    if units == [] {
      GridFromInteger(0);
    } else {
      RevenueIsExact(units[1..]);
      ScaledOnGrid(units[0].price, units[0].quantity);
      GridAdd(Times(units[0].price, units[0].quantity as real), UnitsRevenue(units[1..]));
    }
    QuantizeFixes(UnitsRevenue(units));
  }

  lemma {:induction false} SumScaledPlus(a: seq<Decimal>, b: seq<Decimal>, c: seq<Decimal>, q: real)
    requires |a| == |b| == |c| && forall i :: 0 <= i < |a| ==> a[i] == Times(b[i], q) + c[i]
    ensures Sum(a) == Times(Sum(b), q) + Sum(c)
  {
    hide Times;
    TimesUnit(q);
    if a != [] {
      SumScaledPlus(a[1..], b[1..], c[1..], q);
      TimesAdd(b[0], Sum(b[1..]), q);
    }
  }

  ghost function Columns(units: seq<OrderUnit>): seq<Decimal>
    requires AllShaped(units) && AllComplete(units)
  {
    seq(|LINE_CODES|, i requires 0 <= i < |LINE_CODES| => LineTotals(units, i))
  }

  lemma {:induction false} LineTotalsOnGrid(units: seq<OrderUnit>, i: nat)
    requires i < |LINE_CODES| && LineReady(units, i) && AllShaped(units)
    ensures OnGrid(LineTotals(units, i))
    ensures units != [] ==>
              LineTotals(units, i)
              == Times(units[0].result.lines[i].amount.value, units[0].quantity as real) + LineTotals(units[1..], i)
  {
    hide Times, OnGrid, Quantize;
    if units == [] {
      GridFromInteger(0);
    } else {
      var line := units[0].result.lines[i];
      assert Ready(line) && WellFormed(line);
      LineTotalsOnGrid(units[1..], i);
      ScaledOnGrid(line.amount.value, units[0].quantity);
      GridAdd(Times(line.amount.value, units[0].quantity as real), LineTotals(units[1..], i));
    }
  }

  /** Adding up by line and then over lines is adding up by unit and then over units. */
  lemma {:induction false} ColumnsAddUp(units: seq<OrderUnit>)
    requires AllShaped(units) && AllComplete(units)
    ensures Sum(Columns(units)) == CostSum(units)
  {
    hide Times, OnGrid, Quantize, LineTotals, WellFormed;
    if units == [] {
      EmptyColumns();
    } else {
      var lines, rest := units[0].result.lines, units[1..];
      assert AllWellFormed(lines);
      AmountsOnGrid(lines);
      ColumnsAddUp(rest);
      forall i | 0 <= i < |LINE_CODES|
        ensures Columns(units)[i] == Times(Amounts(lines)[i], units[0].quantity as real) + Columns(rest)[i]
      {
        LineTotalsOnGrid(units, i);
      }
      SumScaledPlus(Columns(units), Amounts(lines), Columns(rest), units[0].quantity as real);
    }
  }

  lemma EmptyColumns()
    ensures Sum(Columns([])) == 0.0
  {
    var zeros := Columns([]);
    assert zeros == [0.0, 0.0, 0.0] + [0.0, 0.0, 0.0] + [0.0, 0.0, 0.0] + [0.0, 0.0, 0.0];
    SumAppend([0.0, 0.0, 0.0] + [0.0, 0.0, 0.0] + [0.0, 0.0, 0.0], [0.0, 0.0, 0.0]);
    SumAppend([0.0, 0.0, 0.0] + [0.0, 0.0, 0.0], [0.0, 0.0, 0.0]);
    SumAppend([0.0, 0.0, 0.0], [0.0, 0.0, 0.0]);
  }

  lemma CombinedShaped(units: seq<OrderUnit>)
    requires AllShaped(units)
    ensures Shaped(Combined(units))
    ensures AllReady(Combined(units)) <==> AllComplete(units)
  {
    hide LineTotals, Quantize, OnGrid;
    var lines := Combined(units);
    forall i | 0 <= i < |lines|
      ensures WellFormed(lines[i]) && (Ready(lines[i]) <==> LineReady(units, i))
    {
      if LineReady(units, i) {
        QuantizeNear(LineTotals(units, i));
      }
    }
    hide CombinedLine, Ready;
    if AllReady(lines) {
      forall u | 0 <= u < |units|
        ensures AllReady(units[u].result.lines)
      {
        forall i | 0 <= i < |LINE_CODES|
          ensures Ready(units[u].result.lines[i])
        {
          assert Ready(lines[i]);
        }
      }
    }
  }

  lemma CombinedTotal(units: seq<OrderUnit>)
    requires AllShaped(units)
    ensures Total(Combined(units)) == if AllComplete(units) then Some(CostSum(units)) else None
    ensures AllComplete(units) ==> Sum(Amounts(Combined(units))) == CostSum(units) && OnGrid(CostSum(units))
  {
    var lines := Combined(units);
    CombinedShaped(units);
    TotalIsSum(lines);
    if AllComplete(units) {
      AmountsOnGrid(lines);
      ColumnsAddUp(units);
      hide LineTotals, OnGrid, Quantize, Sum, CostSum, Amounts;
      forall i | 0 <= i < |LINE_CODES|
        ensures Amounts(lines)[i] == Columns(units)[i]
      {
        LineTotalsOnGrid(units, i);
        QuantizeFixes(LineTotals(units, i));
      }
      assert Amounts(lines) == Columns(units);
    }
  }

  lemma {:induction false} NetSumSplits(units: seq<OrderUnit>)
    requires Consistent(units) && AllComplete(units)
    ensures forall u :: 0 <= u < |units| ==> units[u].result.netProfit.Some?
    ensures UnitsRevenue(units) == CostSum(units) + NetSum(units)
  {
    hide Times, OnGrid, Quantize, Amounts, Sum, AllReady;
    forall u | 0 <= u < |units|
      ensures units[u].result.netProfit.Some?
    {
      assert Splits(Some(units[u].price), units[u].result);
    }
    if units != [] {
      var first := units[0];
      assert Splits(Some(first.price), first.result) && OnGrid(first.price);
      NetSumSplits(units[1..]);
      RevenueIsExact(units);
      TimesAdd(Sum(Amounts(first.result.lines)), first.result.netProfit.value, first.quantity as real);
    }
  }

  ghost predicate AllProfitable(units: seq<OrderUnit>) {
    forall u :: 0 <= u < |units| ==> units[u].result.netProfit.Some?
  }

  predicate ValidRate(bookRate: Option<Decimal>) {
    bookRate.Some? && bookRate.value > 0.0
  }

  lemma CompleteMeansProfitable(units: seq<OrderUnit>)
    requires Consistent(units)
    ensures AllComplete(units) <==> AllProfitable(units)
  {
    hide AllReady, OnGrid, Amounts, Sum;
    forall u | 0 <= u < |units|
      ensures units[u].result.netProfit.Some? <==> AllReady(units[u].result.lines)
    {
      assert Splits(Some(units[u].price), units[u].result);
    }
  }

  /** A day's profit is reported exactly when there is a usable book rate and every unit has a profit, and then it
      is the quantities times the unit profits: rounding line by line loses nothing. */
  lemma RollupIsUnitSum(units: seq<OrderUnit>, bookRate: Option<Decimal>, fxGain: Option<Decimal>)
    requires Consistent(units)
    ensures
      var r := RollupDaily(units, bookRate, fxGain);
      && (r.netProfit.Some? <==> ValidRate(bookRate) && AllProfitable(units))
      && (r.netProfit.Some? ==> r.netProfit.value == NetSum(units))
      && (r.netProfit.Some? ==> r.costTotal == Some(CostSum(units)) && r.revenue == CostSum(units) + NetSum(units))
      && (r.complete <==> r.netProfit.Some?)
  {
    hide Times, OnGrid, Quantize, Combined, AllReady, Total, Percent, CostSum, UnitsRevenue, Splits, Amounts, Sum, Shaped,
         AllComplete;
    CompleteMeansProfitable(units);
    CombinedTotal(units);
    CombinedShaped(units);
    RevenueIsExact(units);
    if AllComplete(units) {
      NetSumSplits(units);
      GridAdd(UnitsRevenue(units), CostSum(units));
      QuantizeFixes(UnitsRevenue(units) - CostSum(units));
    }
  }

  /** The figures in the book currency are rounded one by one, so they fit together only to a micro-unit. */
  lemma BookFiguresNearlyFit(units: seq<OrderUnit>, bookRate: Option<Decimal>, fxGain: Option<Decimal>)
    requires Consistent(units) && RollupDaily(units, bookRate, fxGain).netProfit.Some?
    ensures
      var r := RollupDaily(units, bookRate, fxGain);
      && r.bookRevenue.Some? && r.bookCostTotal.Some? && r.bookNetProfit.Some?
      && -MICRO <= r.bookRevenue.value - r.bookCostTotal.value - r.bookNetProfit.value <= MICRO
  {
    RollupIsUnitSum(units, bookRate, fxGain);
    var r := RollupDaily(units, bookRate, fxGain);
    hide Combined, Revenue, CostSum, NetSum, Total, Percent, Times, AllProfitable, Consistent;
    PartsNearlyFit(r.costTotal.value, r.netProfit.value, bookRate.value);
  }

  lemma PartsNearlyFit(cost: Decimal, net: Decimal, rate: Decimal)
    ensures
      -MICRO
      <= Quantize(Times(cost + net, rate)) - Quantize(Times(cost, rate)) - Quantize(Times(net, rate))
      <= MICRO
  {
    var whole, a, b := Quantize(Times(cost + net, rate)), Quantize(Times(cost, rate)), Quantize(Times(net, rate));
    QuantizeNear(Times(cost + net, rate));
    QuantizeNear(Times(cost, rate));
    QuantizeNear(Times(net, rate));
    TimesAdd(cost, net, rate);
    hide Quantize, Times, OnGrid;
    GridAdd(whole, a);
    GridAdd(whole - a, b);
    GridFromInteger(1);
    GridFromInteger(-1);
    assert MICRO == 1 as real / SCALE && -MICRO == -1 as real / SCALE;
    if whole - a - b > MICRO {
      GridGap(MICRO, whole - a - b);
    }
    if whole - a - b < -MICRO {
      GridGap(whole - a - b, -MICRO);
    }
  }

  // ---- The waterfall

  datatype StepCode = RevenueStep | LineStep(line: LineCode) | NetStep | FxStep

  datatype WaterfallStep = WaterfallStep(code: StepCode, amount: Option<Decimal>, running: Option<Decimal>, memo: bool)

  /** The last line with this code. */
  function LastOf(lines: seq<CostLine>, code: LineCode): Option<CostLine> {
    if lines == [] then None
    else if lines[|lines| - 1].code == code then Some(lines[|lines| - 1])
    else LastOf(lines[..|lines| - 1], code)
  }

  /** What is left of the revenue after a line; nothing once a line has been missing. */
  function Deducted(running: Option<Decimal>, line: Option<CostLine>): Option<Decimal> {
    if line.None? || line.value.amount.None? || running.None? then None
    else Some(Quantize(running.value + Quantize(-line.value.amount.value)))
  }

  function Balance(revenue: Option<Decimal>, lines: seq<CostLine>, i: nat): Option<Decimal>
    requires i <= |LINE_CODES|
  {
    if i == 0 then revenue else Deducted(Balance(revenue, lines, i - 1), LastOf(lines, LINE_CODES[i - 1]))
  }

  function LineStepAt(revenue: Option<Decimal>, lines: seq<CostLine>, i: nat): WaterfallStep
    requires i < |LINE_CODES|
  {
    var running := Balance(revenue, lines, i + 1);
    var amount := if running.None? then None else Some(Quantize(-LastOf(lines, LINE_CODES[i]).value.amount.value));
    WaterfallStep(LineStep(LINE_CODES[i]), amount, running, false)
  }

  method BuildWaterfall(
    revenue: Option<Decimal>, lines: seq<CostLine>, netProfit: Option<Decimal>, fxGain: Option<Decimal>)
    returns (steps: seq<WaterfallStep>)
    ensures |steps| == |LINE_CODES| + 3
    ensures steps[0] == WaterfallStep(RevenueStep, revenue, revenue, false)
    ensures forall i :: 0 <= i < |LINE_CODES| ==> steps[i + 1] == LineStepAt(revenue, lines, i)
    ensures steps[|LINE_CODES| + 1] == WaterfallStep(NetStep, netProfit, netProfit, false)
    ensures steps[|LINE_CODES| + 2] == WaterfallStep(FxStep, fxGain, netProfit, true)
  {
    hide Quantize, LastOf;
    var running := revenue;
    steps := [WaterfallStep(RevenueStep, revenue, running, false)];
    for i := 0 to |LINE_CODES|
      invariant running == Balance(revenue, lines, i)
      invariant |steps| == i + 1 && steps[0] == WaterfallStep(RevenueStep, revenue, revenue, false)
      invariant forall j :: 0 <= j < i ==> steps[j + 1] == LineStepAt(revenue, lines, j)
    {
      var code := LINE_CODES[i];
      var line := LastOf(lines, code);
      if line.None? || line.value.amount.None? || running.None? {
        steps := steps + [WaterfallStep(LineStep(code), None, None, false)];
        running := None;
      } else {
        var delta := Quantize(-line.value.amount.value);
        running := Some(Quantize(running.value + delta));
        steps := steps + [WaterfallStep(LineStep(code), Some(delta), running, false)];
      }
      assert steps[i + 1] == LineStepAt(revenue, lines, i);
    }
    steps := steps + [WaterfallStep(NetStep, netProfit, netProfit, false)];
    steps := steps + [WaterfallStep(FxStep, fxGain, netProfit, true)];
  }

  lemma {:induction false} LastLineFound(lines: seq<CostLine>, i: nat)
    requires i < |lines| && forall j :: i < j < |lines| ==> lines[j].code != lines[i].code
    ensures LastOf(lines, lines[i].code) == Some(lines[i])
    decreases |lines|
  {
    if i < |lines| - 1 {
      LastLineFound(lines[..|lines| - 1], i);
    }
  }

  lemma LastInPlace(lines: seq<CostLine>, i: nat)
    requires Shaped(lines) && i < |LINE_CODES|
    ensures LastOf(lines, LINE_CODES[i]) == Some(lines[i])
  {
    hide LastOf, WellFormed;
    forall j | i < j < |lines|
      ensures lines[j].code != lines[i].code
    {
      CodesDiffer(i, j);
    }
    LastLineFound(lines, i);
  }

  lemma DeductExactly(running: Decimal, line: CostLine)
    requires OnGrid(running) && Ready(line) && OnGrid(line.amount.value)
    ensures Deducted(Some(running), Some(line)) == Some(running - line.amount.value)
    ensures OnGrid(running - line.amount.value)
  {
    hide OnGrid, Quantize;
    GridAdd(running, line.amount.value);
    GridAdd(line.amount.value, line.amount.value);
    QuantizeFixes(-line.amount.value);
    QuantizeFixes(running - line.amount.value);
  }

  lemma ReadyPrefix(lines: seq<CostLine>, i: nat)
    requires i < |lines|
    ensures AllReady(lines[..i + 1]) <==> AllReady(lines[..i]) && Ready(lines[i])
  {
    hide Ready;
    assert lines[..i + 1] == lines[..i] + [lines[i]];
    AllReadyAppend(lines[..i], [lines[i]]);
  }

  ghost predicate BalanceIs(revenue: Decimal, lines: seq<CostLine>, i: nat)
    requires i <= |LINE_CODES| == |lines|
  {
    && (Balance(Some(revenue), lines, i)
        == if AllReady(lines[..i]) then Some(revenue - Sum(Amounts(lines[..i]))) else None)
    && (AllReady(lines[..i]) ==> OnGrid(revenue - Sum(Amounts(lines[..i]))))
  }

  lemma {:induction false} BalanceSoFar(revenue: Decimal, lines: seq<CostLine>, i: nat)
    requires OnGrid(revenue) && Shaped(lines) && i <= |LINE_CODES|
    ensures BalanceIs(revenue, lines, i)
  {
    hide OnGrid, LastOf, Quantize, Amounts, Sum, AllReady;
    if i == 0 {
      assert lines[..0] == [];
      EmptyLines();
    } else {
      var line := lines[i - 1];
      BalanceSoFar(revenue, lines, i - 1);
      LastInPlace(lines, i - 1);
      assert WellFormed(line);
      ReadyPrefix(lines, i - 1);
      if Ready(line) {
        AmountsPrefix(lines, i - 1);
        if AllReady(lines[..i - 1]) {
          DeductExactly(revenue - Sum(Amounts(lines[..i - 1])), line);
        }
      }
    }
  }

  lemma EmptyLines()
    ensures AllReady([]) && Sum(Amounts([])) == 0.0
  {
  }

  /** The balance after the twelve lines is what is left of the revenue, missing exactly when a line is. */
  lemma WaterfallBalance(revenue: Decimal, lines: seq<CostLine>)
    requires OnGrid(revenue) && Shaped(lines)
    ensures
      Balance(Some(revenue), lines, |LINE_CODES|)
      == if AllReady(lines) then Some(revenue - Sum(Amounts(lines))) else None
  {
    BalanceSoFar(revenue, lines, |LINE_CODES|);
    assert lines[..|LINE_CODES|] == lines;
  }

  /** Once a line is missing, every later balance is missing too. */
  lemma {:induction false} GapStaysGap(revenue: Option<Decimal>, lines: seq<CostLine>, i: nat, j: nat)
    requires i <= j <= |LINE_CODES| && Balance(revenue, lines, i).None?
    ensures Balance(revenue, lines, j).None?
    decreases j
  {
    hide LastOf;
    if i < j {
      GapStaysGap(revenue, lines, i, j - 1);
    }
  }

  /** For a day's rollup the balance after the last line is the reported profit whenever one is reported. With
      every unit complete and only the book rate missing there is still a balance, though no reported profit. */
  lemma WaterfallEndsAtNet(units: seq<OrderUnit>, bookRate: Option<Decimal>, fxGain: Option<Decimal>)
    requires Consistent(units)
    ensures
      var r := RollupDaily(units, bookRate, fxGain);
      var last := Balance(Some(r.revenue), r.lines, |LINE_CODES|);
      && (last.Some? <==> AllProfitable(units))
      && (last.Some? ==> last.value == NetSum(units))
      && (last == r.netProfit <==> ValidRate(bookRate) || !AllProfitable(units))
  {
    RollupIsUnitSum(units, bookRate, fxGain);
    CompleteMeansProfitable(units);
    CombinedShaped(units);
    CombinedTotal(units);
    RevenueIsExact(units);
    hide OnGrid, Combined, AllReady, Total, CostSum, UnitsRevenue, Splits, Amounts, Sum, Shaped, Quantize, Times,
         Balance, Percent, AllProfitable, NetSum;
    WaterfallBalance(Revenue(units), Combined(units));
    if AllComplete(units) {
      NetSumSplits(units);
    }
  }

  // ---- A purchase receipt replaces the first-mile explanation

  predicate IsLanded(line: CostLine) {
    exists i :: 0 <= i < LANDED_COUNT && line.code == LINE_CODES[i]
  }

  lemma LandedAreFirst(lines: seq<CostLine>)
    requires Shaped(lines)
    ensures Filter(lines, IsLanded) == lines[..LANDED_COUNT]
  {
    hide WellFormed;
    var head, tail := lines[..LANDED_COUNT], lines[LANDED_COUNT..];
    assert lines == head + tail;
    FilterAppend(head, tail, IsLanded);
    FilterAll(head, IsLanded);
    forall i | 0 <= i < |tail|
      ensures !IsLanded(tail[i])
    {
      assert tail[i].code == LINE_CODES[LANDED_COUNT + i];
      forall j | 0 <= j < LANDED_COUNT
        ensures LINE_CODES[j] != tail[i].code
      {
        CodesDiffer(j, LANDED_COUNT + i);
      }
    }
    FilterNone(tail, IsLanded);
  }

  /** Every result of the cost engine may be rebound. */
  lemma ComputedMayBeRebound(data: LandedCostInput, taxes: seq<TaxFact>, fees: seq<FeeFact>, off: set<LineCode>)
    ensures
      var r := ComputeLandedCost(data, taxes, fees, off);
      Shaped(r.lines) && r.landedCost == Total(r.lines[..LANDED_COUNT])
  {
    ResultWellFormed(data, taxes, fees, off);
    hide LandedLines, Deductions, AllWellFormed, Total, Percent, Invested;
    assert ComputeLandedCost(data, taxes, fees, off).lines[..LANDED_COUNT] == LandedLines(data, taxes, fees, off);
  }

  /** What a line shows beside its amount. */
  datatype Note = Note(formula: string, source: string)

  /** The real receipt rewrites the explanation of a complete first-mile line and of no other; the amounts stay, and
      the profit fields are cleared. */
  method BindFirstMile(result: LandedCostResult, notes: seq<Note>, note: Note)
    returns (bound: LandedCostResult, explained: seq<Note>)
    requires Shaped(result.lines) && result.landedCost == Total(result.lines[..LANDED_COUNT])
    requires |notes| == |result.lines|
    ensures bound.lines == result.lines && bound.currency == result.currency && bound.landedCost == result.landedCost
    ensures bound.complete == result.landedCost.Some? && !bound.profitComplete
    ensures bound.netProfit.None? && bound.netMarginPercent.None? && bound.roiPercent.None?
    ensures explained == if Ready(result.lines[1]) then notes[1 := note] else notes
  {
    hide Total, WellFormed;
    var lines: seq<CostLine> := [];
    explained := [];
    for i := 0 to |result.lines|
      invariant lines == result.lines[..i] && |explained| == i
      invariant forall j :: 0 <= j < i ==> explained[j] == if j == 1 && Ready(result.lines[1]) then note else notes[j]
    {
      var line := result.lines[i];
      assert line.code == FIRST_MILE <==> i == 1;
      if line.code == FIRST_MILE && line.complete && line.amount.Some? {
        lines := lines + [CostLine(line.code, line.amount, line.currency, true)];
        explained := explained + [note];
      } else {
        lines := lines + [line];
        explained := explained + [notes[i]];
      }
    }
    var landed := Filter(lines, IsLanded);
    LandedAreFirst(lines);
    bound := LandedCostResult(lines, result.currency, Total(landed), None, None, None, Total(landed).Some?, false);
  }
}
