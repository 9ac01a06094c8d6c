/** The figures of a daily rollup and of its waterfall, told from the order lines alone. */
module DailyFigures {
  import opened Options
  import opened Decimals
  import opened LandedCost
  import opened LineFormulas
  import opened Profit

  // ---- The rollup

  /** What the units sold for, each rounded. */
  ghost function Sold(units: seq<OrderUnit>): Decimal {
    if units == [] then 0.0 else Quantize(Times(units[0].price, units[0].quantity as real)) + Sold(units[1..])
  }

  /** What the units' `i`-th cost lines come to, each rounded. */
  ghost function Spent(units: seq<OrderUnit>, i: nat): Decimal
    requires AllShaped(units) && i < 12
    requires forall u :: 0 <= u < |units| ==> units[u].result.lines[i].amount.Some?
  {
    if units == [] then 0.0
    else
      assert units[0].result.lines[i].amount.Some?;
      assert forall u :: 0 <= u < |units[1..]| ==> units[1..][u] == units[u + 1];
      Quantize(Times(units[0].result.lines[i].amount.value, units[0].quantity as real)) + Spent(units[1..], i)
  }

  /** A rollup's line: its place's code, the last unit's currency, and the units' amounts unless one is missing. */
  ghost predicate LineAddsUp(units: seq<OrderUnit>, i: nat, line: CostLine)
    requires AllShaped(units) && i < 12
  {
    && line.code == LINE_CODES[i]
    && line.currency == (if units == [] then "" else units[|units| - 1].result.lines[i].currency)
    && (if forall u :: 0 <= u < |units| ==> units[u].result.lines[i].amount.Some? then
          line.complete && line.amount == Some(Spent(units, i))
        else Missing(line))
  }

  lemma {:induction false} SoldIs(units: seq<OrderUnit>)
    ensures UnitsRevenue(units) == Sold(units) && OnGrid(Sold(units)) && Revenue(units) == Sold(units)
  {
    hide OnGrid, Quantize, Times;
    GridFromInteger(0);
    if units != [] {
      SoldIs(units[1..]);
      QuantizeNear(Times(units[0].price, units[0].quantity as real));
      GridAdd(Quantize(Times(units[0].price, units[0].quantity as real)), Sold(units[1..]));
    }
    QuantizeFixes(Sold(units));
  }

  lemma ReadyIs(units: seq<OrderUnit>, i: nat)
    requires AllShaped(units) && i < 12
    ensures LineReady(units, i) <==> forall u :: 0 <= u < |units| ==> units[u].result.lines[i].amount.Some?
  {
    hide OnGrid;
    forall u | 0 <= u < |units|
      ensures Ready(units[u].result.lines[i]) <==> units[u].result.lines[i].amount.Some?
    {
      assert Shaped(units[u].result.lines);
      assert WellFormed(units[u].result.lines[i]);
    }
  }

  lemma {:induction false} SpentIs(units: seq<OrderUnit>, i: nat)
    requires AllShaped(units) && i < 12 && LineReady(units, i)
    requires forall u :: 0 <= u < |units| ==> units[u].result.lines[i].amount.Some?
    ensures LineTotals(units, i) == Spent(units, i) && OnGrid(Spent(units, i))
  {
    hide OnGrid, Quantize, Times, Shaped;
    GridFromInteger(0);
    if units != [] {
      var rest := units[1..];
      assert forall u :: 0 <= u < |rest| ==> rest[u] == units[u + 1];
      SpentIs(rest, i);
      var exact := Times(units[0].result.lines[i].amount.value, units[0].quantity as real);
      QuantizeNear(exact);
      GridAdd(Quantize(exact), Spent(rest, i));
    }
  }

  lemma CombinedAddsUp(units: seq<OrderUnit>, i: nat)
    requires AllShaped(units) && i < 12
    ensures LineAddsUp(units, i, CombinedLine(units, i))
  {
    ReadyIs(units, i);
    if LineReady(units, i) {
      SpentIs(units, i);
      QuantizeFixes(Spent(units, i));
    }
    hide LineTotals, Quantize, OnGrid, Shaped, LineReady;
  }

  /** Without a usable book rate nothing but revenue, lines and exchange gain is reported. With one, the cost is the
      plain sum of the lines, known when all are; the profit is exactly the revenue less the cost; the margin its share
      of a positive revenue; each book figure the rate times its own figure, rounded. The exchange gain never enters any
      of them. */
  ghost predicate MoneyFits(bookRate: Option<Decimal>, fxGain: Option<Decimal>, r: DailyRollup) {
    && r.fxGain == fxGain
    && r.complete == r.costTotal.Some?
    && (bookRate.None? || bookRate.value <= 0.0 ==>
          && r.costTotal.None? && r.netProfit.None? && r.netMarginPercent.None?
          && r.bookRevenue.None? && r.bookCostTotal.None? && r.bookNetProfit.None?)
    && (bookRate.Some? && bookRate.value > 0.0 ==>
          && (r.costTotal.Some? <==> forall i :: 0 <= i < |r.lines| ==> r.lines[i].amount.Some?)
          && (r.costTotal.Some? ==> r.costTotal.value == Sum(Amounts(r.lines)))
          && r.netProfit == (if r.costTotal.Some? then Some(r.revenue - r.costTotal.value) else None)
          && (r.netMarginPercent.Some? <==> r.netProfit.Some? && r.revenue > 0.0)
          && (r.netMarginPercent.Some? ==> IsPercent(r.netMarginPercent.value, r.netProfit.value, r.revenue))
          && r.bookRevenue == Some(Quantize(Times(r.revenue, bookRate.value)))
          && r.bookCostTotal
             == (if r.costTotal.Some? then Some(Quantize(Times(r.costTotal.value, bookRate.value))) else None)
          && r.bookNetProfit
             == (if r.netProfit.Some? then Some(Quantize(Times(r.netProfit.value, bookRate.value))) else None))
  }

  lemma TotalOfLines(units: seq<OrderUnit>)
    requires AllShaped(units)
    ensures
      var lines := Combined(units);
      && (Total(lines).Some? <==> forall i :: 0 <= i < 12 ==> lines[i].amount.Some?)
      && (Total(lines).Some? ==> Total(lines).value == Sum(Amounts(lines)) && OnGrid(Total(lines).value))
  {
    CombinedShaped(units);
    var lines := Combined(units);
    TotalIsSum(lines);
    hide Combined, OnGrid, Total, Sum, Amounts;
    assert forall i :: 0 <= i < 12 ==> WellFormed(lines[i]);
    if forall i :: 0 <= i < 12 ==> lines[i].amount.Some? {
      assert AllReady(lines);
    } else {
      var i :| 0 <= i < 12 && !lines[i].amount.Some?;
      assert !Ready(lines[i]);
    }
  }

  lemma CostKnown(units: seq<OrderUnit>, bookRate: Option<Decimal>, fxGain: Option<Decimal>)
    requires AllShaped(units)
    ensures
      var r := RollupDaily(units, bookRate, fxGain);
      && r.lines == Combined(units) && r.revenue == Sold(units)
      && (ValidRate(bookRate) ==> r.costTotal == Total(Combined(units)))
  {
    SoldIs(units);
    hide Combined, Revenue, Total, Percent, Quantize, Times, Sold;
  }

  lemma RollupArithmetic(units: seq<OrderUnit>, bookRate: Option<Decimal>, fxGain: Option<Decimal>)
    requires AllShaped(units)
    requires Total(Combined(units)).Some? ==> OnGrid(Total(Combined(units)).value)
    ensures
      var r := RollupDaily(units, bookRate, fxGain);
      && r.fxGain == fxGain && r.complete == r.costTotal.Some?
      && (!ValidRate(bookRate) ==>
            && r.costTotal.None? && r.netProfit.None? && r.netMarginPercent.None?
            && r.bookRevenue.None? && r.bookCostTotal.None? && r.bookNetProfit.None?)
      && (ValidRate(bookRate) ==>
            && r.netProfit == (if r.costTotal.Some? then Some(r.revenue - r.costTotal.value) else None)
            && (r.netMarginPercent.Some? <==> r.netProfit.Some? && r.revenue > 0.0)
            && (r.netMarginPercent.Some? ==> IsPercent(r.netMarginPercent.value, r.netProfit.value, r.revenue))
            && r.bookRevenue == Some(Quantize(Times(r.revenue, bookRate.value)))
            && r.bookCostTotal
               == (if r.costTotal.Some? then Some(Quantize(Times(r.costTotal.value, bookRate.value))) else None)
            && r.bookNetProfit
               == (if r.netProfit.Some? then Some(Quantize(Times(r.netProfit.value, bookRate.value))) else None))
  {
    SoldIs(units);
    hide Combined, Revenue, Total, Percent, IsPercent, Quantize, OnGrid, Times, Sold, AllWellFormed;
    var cost, revenue := Total(Combined(units)), Revenue(units);
    if cost.Some? {
      NetIsDifference(revenue, cost.value);
      if revenue > 0.0 {
        PercentIs(revenue - cost.value, revenue);
      }
    }
  }

  lemma MoneyIs(units: seq<OrderUnit>, bookRate: Option<Decimal>, fxGain: Option<Decimal>)
    requires AllShaped(units)
    ensures MoneyFits(bookRate, fxGain, RollupDaily(units, bookRate, fxGain))
  {
    TotalOfLines(units);
    CostKnown(units, bookRate, fxGain);
    RollupArithmetic(units, bookRate, fxGain);
    hide RollupDaily, Combined, Total, Sum, Amounts, IsPercent, Quantize, OnGrid, Times, Sold, Shaped;
    assert |Combined(units)| == 12 by {
      CombinedShaped(units);
      assert Shaped(Combined(units));
      ShapedSize(Combined(units));
    }
  }

  lemma ShapedSize(lines: seq<CostLine>)
    requires Shaped(lines)
    ensures |lines| == 12
  {
  }

  /** A day's rollup: what was sold, the twelve lines added up over the units, and the money that follows from them. */
  lemma RollupExplained(units: seq<OrderUnit>, bookRate: Option<Decimal>, fxGain: Option<Decimal>)
    requires AllShaped(units)
    ensures
      var r := RollupDaily(units, bookRate, fxGain);
      && r.revenue == Sold(units)
      && |r.lines| == 12 && (forall i :: 0 <= i < 12 ==> LineAddsUp(units, i, r.lines[i]))
      && MoneyFits(bookRate, fxGain, r)
  {
    MoneyIs(units, bookRate, fxGain);
    SoldIs(units);
    hide MoneyFits, LineAddsUp, CombinedLine, Revenue, Total, Percent, Quantize, Times, Sold;
    forall i | 0 <= i < 12
      ensures LineAddsUp(units, i, Combined(units)[i])
    {
      CombinedAddsUp(units, i);
    }
  }

  lemma NetIsDifference(revenue: Decimal, cost: Decimal)
    requires OnGrid(revenue) && OnGrid(cost)
    ensures Quantize(revenue - cost) == revenue - cost
  {
    GridAdd(revenue, cost);
    QuantizeFixes(revenue - cost);
  }

  // ---- The waterfall

  /** A step of the waterfall over complete lines: the cost taken off, and what the costs so far leave of the revenue;
      neither from the first missing line on. */
  ghost predicate StepShows(revenue: Decimal, lines: seq<CostLine>, i: nat, step: WaterfallStep)
    requires i < |lines| == 12
  {
    && step.code == LineStep(LINE_CODES[i]) && !step.memo
    && (if forall j :: 0 <= j <= i ==> lines[j].amount.Some? then
          && step.amount == Some(-lines[i].amount.value)
          && step.running == Some(revenue - Sum(Amounts(lines[..i + 1])))
        else step.amount.None? && step.running.None?)
  }

  lemma WaterfallSteps(revenue: Decimal, lines: seq<CostLine>, i: nat)
    requires OnGrid(revenue) && Shaped(lines) && i < 12
    ensures StepShows(revenue, lines, i, LineStepAt(Some(revenue), lines, i))
  {
    BalanceSoFar(revenue, lines, i + 1);
    LastInPlace(lines, i);
    var some := lines[..i + 1];
    hide Balance, LastOf, Sum, Amounts, OnGrid, Quantize;
    assert forall j :: 0 <= j <= i ==> some[j] == lines[j] && WellFormed(lines[j]);
    if forall j :: 0 <= j <= i ==> lines[j].amount.Some? {
      assert AllReady(some);
      NegatedStays(lines[i].amount.value);
    } else {
      var j :| 0 <= j <= i && !lines[j].amount.Some?;
      assert !Ready(some[j]);
    }
  }

  lemma NegatedStays(x: Decimal)
    requires OnGrid(x)
    ensures Quantize(-x) == -x
  {
    GridAdd(x, x);
    QuantizeFixes(-x);
  }
}
