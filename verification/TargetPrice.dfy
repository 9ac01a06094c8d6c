/** The price for a wanted margin: closed form, alignment to the last digit, and how far the margin can be off. */
module TargetPrice {
  import opened Options
  import opened Decimals
  import opened Sequences
  import opened LandedCost
  import opened Pricing

  // ---- What the three probes find

  lemma {:induction false} GapCodesSame(a: seq<CostLine>, b: seq<CostLine>)
    requires |a| == |b|
    requires forall i :: 0 <= i < |a| ==> a[i].code == b[i].code && (Ready(a[i]) <==> Ready(b[i]))
    ensures GapCodes(a) == GapCodes(b)
  {
    hide Ready;
    if a != [] {
      GapCodesSame(a[1..], b[1..]);
    }
  }

  lemma GapsAtAnyPrice(c: Case, price: Decimal, other: Decimal)
    ensures GapCodes(RunAt(c, price).lines) == GapCodes(RunAt(c, other).lines)
  {
    RunLines(c, price);
    RunLines(c, other);
    hide RunAt, Landed, Rules, RuleAmount;
    GapCodesSame(RunAt(c, price).lines, RunAt(c, other).lines);
  }

  /** The split comes within one and a half micro-units per unrounded rate of the true constant part, and within
      one of the true share of the price; an input is refused exactly when some line is missing, and then the
      refusal names the lines missing at every price. */
  lemma SplitIsAccurate(c: Case, price: Decimal)
    ensures Decomposed(c).Linear? <==> AllReady(RunAt(c, price).lines)
    ensures Decomposed(c).Gaps? ==> Decomposed(c).codes == GapCodes(RunAt(c, price).lines) != []
    ensures
      Decomposed(c).Linear? ==>
        var k := OffGrid(AllRates(c)) as real;
        && Abs(Decomposed(c).fixed - FixedCost(c)) <= 3.0 * k * HALF_MICRO
        && Abs(Decomposed(c).variable - Sum(AllRates(c))) <= 2.0 * k * HALF_MICRO
  {
    var rates := AllRates(c);
    CostAt(c, price);
    CostAt(c, PROBE_A);
    CostAt(c, PROBE_B);
    NoGapsMeansReady(RunAt(c, PROBE_A).lines);
    GapsAtAnyPrice(c, price, PROBE_A);
    RateCostAtProbe(rates, 1);
    RateCostAtProbe(rates, 2);
    TimesUnit(Sum(rates));
    TimesAdd(1.0, 1.0, Sum(rates));
    hide RunAt, AllReady, Complete, Cost, FixedCost, AllRates, GapCodes, RateCost, Sum, OffGrid, Times;
  }

  // ---- The closed form

  /** With a cost of exactly `fixed + variable * price`, the profit at a positive price. */
  function IdealNet(fixed: Decimal, variable: Decimal, price: Decimal): Decimal {
    price - fixed - Times(variable, price)
  }

  /** A positive price leaves the margin exactly when it is the closed form - which then needs a positive
      denominator, so that is when such a price exists at all. */
  lemma ClosedFormIsExact(fixed: Decimal, variable: Decimal, margin: Decimal, price: Decimal)
    requires fixed > 0.0 && price > 0.0
    ensures
      var denominator := 1.0 - variable - margin;
      IdealNet(fixed, variable, price) == Times(margin, price) <==> denominator > 0.0 && price == fixed / denominator
  {
    var denominator := 1.0 - variable - margin;
    TimesAdd(1.0, variable, price);
    TimesAdd(1.0 - variable, margin, price);
    TimesUnit(price);
    TimesSign(denominator, price);
    if denominator > 0.0 {
      TimesOver(fixed, denominator);
      TimesSwap(denominator, price);
      hide Times;
      if Times(price, denominator) == fixed {
        DivideBack(price, fixed, denominator);
      }
    }
  }

  lemma DivideBack(x: real, y: real, z: real)
    requires z > 0.0 && Times(x, z) == y
    ensures x == y / z
  {
  }

  // ---- Aligning the rounded price

  function Margin(c: Case, price: Decimal): Option<Decimal> {
    RunAt(c, price).netMarginPercent
  }

  function MarginGap(c: Case, price: Decimal, target: Decimal): Decimal
    requires Margin(c, price).Some?
  {
    Abs(Margin(c, price).value - Quantize(target))
  }

  predicate Improves(c: Case, target: Decimal, candidate: Decimal, best: Decimal) {
    && candidate > 0.0
    && Margin(c, candidate).Some?
    && (Margin(c, best).None? || MarginGap(c, candidate, target) < MarginGap(c, best, target))
  }

  function Better(c: Case, target: Decimal, candidate: Decimal, best: Decimal): Decimal {
    if Improves(c, target, candidate, best) then candidate else best
  }

  function Candidates(price: Decimal): seq<Decimal> {
    [Quantize(price - MICRO), price, Quantize(price + MICRO)]
  }

  function BestOf(c: Case, target: Decimal, candidates: seq<Decimal>, best: Decimal): Decimal {
    if candidates == [] then best
    else BestOf(c, target, candidates[1..], Better(c, target, candidates[0], best))
  }

  function Aligned(c: Case, price: Decimal, target: Decimal): Decimal {
    BestOf(c, target, Candidates(price), price)
  }

  method MatchMargin(c: Case, price: Decimal, target: Decimal) returns (bestPrice: Decimal, best: LandedCostResult)
    ensures bestPrice == Aligned(c, price, target) && best == RunAt(c, bestPrice)
  {
    hide RunAt, Quantize;
    var goal := Quantize(target);
    var candidates := Candidates(price);
    bestPrice, best := price, RunAt(c, price);
    var bestGap := if best.netMarginPercent.None? then None else Some(Abs(best.netMarginPercent.value - goal));
    for i := 0 to |candidates|
      invariant best == RunAt(c, bestPrice)
      invariant bestGap == if Margin(c, bestPrice).None? then None else Some(MarginGap(c, bestPrice, target))
      invariant BestOf(c, target, candidates[i..], bestPrice) == Aligned(c, price, target)
    {
      var candidate := candidates[i];
      assert candidates[i..][1..] == candidates[i + 1..];
      if candidate <= 0.0 {
        continue;
      }
      var checked := RunAt(c, candidate);
      if checked.netMarginPercent.None? {
        continue;
      }
      var gap := Abs(checked.netMarginPercent.value - goal);
      if bestGap.None? || gap < bestGap.value {
        bestGap := Some(gap);
        bestPrice := candidate;
        best := checked;
      }
    }
  }

  ghost predicate BestAmong(c: Case, target: Decimal, candidates: seq<Decimal>, best: Decimal, r: Decimal) {
    && (r == best || (r in candidates && r > 0.0 && Margin(c, r).Some?))
    && (Margin(c, best).Some? ==> Margin(c, r).Some? && MarginGap(c, r, target) <= MarginGap(c, best, target))
    && (r != best && Margin(c, best).Some? ==> MarginGap(c, r, target) < MarginGap(c, best, target))
    && forall x :: x in candidates && x > 0.0 && Margin(c, x).Some? ==>
         Margin(c, r).Some? && MarginGap(c, r, target) <= MarginGap(c, x, target)
  }

  lemma {:induction false} BestOfIsBest(c: Case, target: Decimal, candidates: seq<Decimal>, best: Decimal)
    ensures BestAmong(c, target, candidates, best, BestOf(c, target, candidates, best))
    decreases |candidates|
  {
    hide Margin, MarginGap;
    if candidates != [] {
      var next := Better(c, target, candidates[0], best);
      BestOfIsBest(c, target, candidates[1..], next);
      assert candidates == [candidates[0]] + candidates[1..];
    }
  }

  // ---- One point of the curve

  datatype PricePoint = PricePoint(target: Decimal, price: Option<Decimal>, margin: Option<Decimal>, reachable: bool)

  function Quote(c: Case, fixed: Decimal, variable: Decimal, target: Decimal): PricePoint {
    var denominator := 1.0 - variable - target / 100.0;
    if fixed <= 0.0 || denominator <= 0.0 then PricePoint(target, None, None, false)
    else
      var price := Aligned(c, Quantize(fixed / denominator), target);
      var checked := RunAt(c, price);
      PricePoint(target, Some(price), checked.netMarginPercent, checked.profitComplete)
  }

  // ---- How far the reported margin can be from the target

  /** The margin really reported at a positive six-decimal price. */
  lemma MarginAt(c: Case, price: Decimal)
    requires Complete(c) && OnGrid(price)
    ensures
      Margin(c, price) == if price > 0.0 then Some(Percent(price - Cost(c, price), price)) else None
    ensures RunAt(c, price).profitComplete
  {
    CostAt(c, price);
    PriceSplitsExactly(c.data.(sellingPrice := Some(price)), c.taxes, c.fees, c.off);
    hide LandedLines, Deductions, Complete, AllReady, Sum, Amounts, Total, Percent, OnGrid, Invested, FixedCost, AllRates;
  }

  /** The largest distance between the profit and the wanted share of a price that is within `reach` of the exact
      closed form, before any division. */
  function Slack(rates: seq<Decimal>, denominator: Decimal, price: Decimal, reach: Decimal): Decimal {
    var k, n := OffGrid(rates) as real, |rates| as real;
    Times(reach, denominator) + (3.0 * k + n) * HALF_MICRO + Times(2.0 * k * HALF_MICRO, price)
  }

  /** `miss / price` as a percentage, and one rounding on either side of the comparison. */
  function MarginBound(rates: seq<Decimal>, denominator: Decimal, price: Decimal, reach: Decimal): Decimal
    requires price > 0.0
  {
    100.0 * (Slack(rates, denominator, price, reach) / price) + 2.0 * HALF_MICRO
  }

  lemma TimesWithin(x: real, y: real, bound: real)
    requires Abs(x) <= bound && 0.0 <= y
    ensures Abs(Times(x, y)) <= Times(bound, y)
  {
    TimesMonotone(x, bound, y);
    TimesMonotone(-bound, x, y);
    TimesAdd(0.0, bound, y);
    TimesUnit(y);
    hide Times;
  }

  ghost predicate SplitFrom(c: Case, fixed: Decimal, variable: Decimal) {
    Decomposed(c) == Linear(fixed, variable)
  }

  lemma ProfitNearTarget(
    c: Case, fixed: Decimal, variable: Decimal, margin: Decimal, price: Decimal, reach: Decimal)
    requires SplitFrom(c, fixed, variable) && 1.0 - variable - margin > 0.0 && price > 0.0
    requires Abs(price - fixed / (1.0 - variable - margin)) <= reach
    ensures
      Abs(price - Cost(c, price) - Times(margin, price)) <= Slack(AllRates(c), 1.0 - variable - margin, price, reach)
  {
    var rates, denominator := AllRates(c), 1.0 - variable - margin;
    var k, total := OffGrid(rates) as real, Sum(rates);
    SplitIsAccurate(c, price);
    CostAt(c, price);
    RateCostNear(rates, price);
    TimesSwap(price, total);
    hide Complete, FixedCost, AllRates, Cost, RateCost, Sum, OffGrid, Times, Decomposed, RunAt, AllReady;
    TimesUnit(price);
    TimesAdd(1.0, variable, price);
    TimesAdd(1.0 - variable, margin, price);
    TimesAdd(variable, total, price);
    TimesWithin(variable - total, price, 2.0 * k * HALF_MICRO);
    var ideal := fixed / denominator;
    TimesOver(fixed, denominator);
    TimesAdd(price, ideal, denominator);
    TimesSwap(denominator, price);
    TimesWithin(price - ideal, denominator, reach);
    SlackIs(rates, denominator, price, reach);
    hide Slack;
  }

  lemma SlackIs(rates: seq<Decimal>, denominator: Decimal, price: Decimal, reach: Decimal)
    ensures
      var k, n := OffGrid(rates) as real, |rates| as real;
      Slack(rates, denominator, price, reach)
      == Times(reach, denominator) + 3.0 * k * HALF_MICRO + n * HALF_MICRO + Times(2.0 * k * HALF_MICRO, price)
  {
  }

  lemma DivideWithin(x: real, bound: real, z: real)
    requires Abs(x) <= bound && z > 0.0
    ensures Abs(x / z) <= bound / z
  {
    assert -(bound / z) == (-bound) / z;
    DivideMonotone(x, bound, z);
    DivideMonotone(-bound, x, z);
  }

  lemma DivideMonotone(x: real, y: real, z: real)
    requires x <= y && z > 0.0
    ensures x / z <= y / z
  {
  }

  lemma PercentNear(net: Decimal, price: Decimal, target: Decimal, slack: Decimal)
    requires price > 0.0 && Abs(net - Times(target / 100.0, price)) <= slack
    ensures Abs(Percent(net, price) - Quantize(target)) <= 100.0 * (slack / price) + 2.0 * HALF_MICRO
  {
    hide Quantize, OnGrid, Times;
    var share := net / price;
    var miss := net - Times(target / 100.0, price);
    TimesOver(net, price);
    TimesAdd(share, target / 100.0, price);
    DivideBack(share - target / 100.0, miss, price);
    DivideWithin(miss, slack, price);
    QuantizeNear(share * 100.0);
    QuantizeNear(target);
  }

  /** A positive six-decimal price within reach of the closed form misses the target margin by no more than the
      bound. */
  lemma NearbyMargin(c: Case, fixed: Decimal, variable: Decimal, target: Decimal, price: Decimal, reach: Decimal)
    requires SplitFrom(c, fixed, variable) && 1.0 - variable - target / 100.0 > 0.0
    requires OnGrid(price) && price > 0.0
    requires Abs(price - fixed / (1.0 - variable - target / 100.0)) <= reach
    ensures Margin(c, price).Some?
    ensures MarginGap(c, price, target) <= MarginBound(AllRates(c), 1.0 - variable - target / 100.0, price, reach)
  {
    hide Complete, Quantize, OnGrid, Times, Slack, RunAt, Cost, AllRates, AllReady, Percent, Decomposed, Margin,
         FixedCost, RateCost, OffGrid, Sum, GapCodes;
    var denominator := 1.0 - variable - target / 100.0;
    SplitIsAccurate(c, price);
    CostAt(c, price);
    MarginAt(c, price);
    ProfitNearTarget(c, fixed, variable, target / 100.0, price, reach);
    PercentNear(price - Cost(c, price), price, target, Slack(AllRates(c), denominator, price, reach));
  }

  /** The rounded closed form is within half a micro-unit; where it rounds to zero the smallest price is within one. */
  lemma ClosedFormMargin(c: Case, fixed: Decimal, variable: Decimal, target: Decimal)
    requires SplitFrom(c, fixed, variable) && fixed > 0.0 && 1.0 - variable - target / 100.0 > 0.0
    ensures
      var denominator := 1.0 - variable - target / 100.0;
      var start := Quantize(fixed / denominator);
      if start > 0.0 then
        && Margin(c, start).Some?
        && MarginGap(c, start, target) <= MarginBound(AllRates(c), denominator, start, HALF_MICRO)
      else
        && start == 0.0 && Margin(c, MICRO).Some?
        && MarginGap(c, MICRO, target) <= MarginBound(AllRates(c), denominator, MICRO, MICRO)
  {
    hide Quantize, OnGrid, Slack, RunAt, AllRates, Decomposed, Margin, MarginGap, MarginBound;
    var denominator := 1.0 - variable - target / 100.0;
    var start := StartPrice(fixed, denominator);
    QuantizeNear(fixed / denominator);
    IdealPositive(fixed, denominator);
    if start > 0.0 {
      NearbyMargin(c, fixed, variable, target, start, HALF_MICRO);
    } else {
      GridFromInteger(1);
      assert MICRO == 1 as real / SCALE;
      NearbyMargin(c, fixed, variable, target, MICRO, MICRO);
    }
  }

  lemma IdealPositive(fixed: Decimal, denominator: Decimal)
    requires fixed > 0.0 && denominator > 0.0
    ensures fixed / denominator > 0.0
  {
  }

  lemma CandidatesAround(price: Decimal)
    requires OnGrid(price)
    ensures Candidates(price) == [price - MICRO, price, price + MICRO]
    ensures forall x :: x in Candidates(price) ==> OnGrid(x)
  {
    GridFromInteger(1);
    assert MICRO == 1 as real / SCALE;
    GridAdd(price, MICRO);
    QuantizeFixes(price - MICRO);
    QuantizeFixes(price + MICRO);
    hide OnGrid, Quantize;
  }

  /** The price kept is one of the three, has a margin, and no positive candidate comes closer to the target. */
  ghost predicate ClosestNear(c: Case, price: Decimal, target: Decimal, start: Decimal) {
    && price in [start - MICRO, start, start + MICRO]
    && price > 0.0 && OnGrid(price) && Margin(c, price).Some?
    && forall x :: x in [start - MICRO, start, start + MICRO] && x > 0.0 ==>
         Margin(c, x).Some? && MarginGap(c, price, target) <= MarginGap(c, x, target)
  }

  lemma CandidateMargins(c: Case, candidates: seq<Decimal>)
    requires Complete(c) && forall x :: x in candidates ==> OnGrid(x)
    ensures forall x :: x in candidates ==> (Margin(c, x).Some? <==> x > 0.0)
  {
    hide Margin, OnGrid, Complete, Percent, RunAt;
    forall x | x in candidates
      ensures Margin(c, x).Some? <==> x > 0.0
    {
      MarginAt(c, x);
    }
  }

  lemma AlignedIsClosest(c: Case, start: Decimal, target: Decimal)
    requires Complete(c) && OnGrid(start) && start >= 0.0
    ensures ClosestNear(c, Aligned(c, start, target), target, start)
    ensures start > 0.0 && Aligned(c, start, target) != start ==>
              MarginGap(c, Aligned(c, start, target), target) < MarginGap(c, start, target)
  {
    hide Margin, MarginGap, OnGrid, Candidates, Complete, BestOf;
    var candidates := Candidates(start);
    CandidatesAround(start);
    CandidateMargins(c, candidates);
    BestOfIsBest(c, target, candidates, start);
    var best := Aligned(c, start, target);
    assert candidates[1] in candidates && candidates[2] in candidates;
    if start == 0.0 {
      assert best != start;
    }
  }

  ghost predicate MeetsTarget(c: Case, fixed: Decimal, denominator: Decimal, target: Decimal, point: PricePoint)
    requires denominator > 0.0
  {
    var start := Quantize(fixed / denominator);
    && point.price.Some?
    && ClosestNear(c, point.price.value, target, start)
    && point.margin == Margin(c, point.price.value)
    && (if start > 0.0 then
          MarginGap(c, point.price.value, target) <= MarginBound(AllRates(c), denominator, start, HALF_MICRO)
        else
          && point.price.value == MICRO
          && MarginGap(c, MICRO, target) <= MarginBound(AllRates(c), denominator, MICRO, MICRO))
  }

  /** A price is offered exactly when the constant part and the denominator are positive. The offered price is
      the best of the rounded closed form and its two neighbours, and its true margin, recomputed from all
      twelve lines, misses the target by no more than the bound. */
  lemma QuoteMeetsTarget(c: Case, fixed: Decimal, variable: Decimal, target: Decimal)
    requires SplitFrom(c, fixed, variable)
    ensures
      var denominator := 1.0 - variable - target / 100.0;
      var point := Quote(c, fixed, variable, target);
      && (point.reachable <==> fixed > 0.0 && denominator > 0.0)
      && (point.price.Some? <==> point.reachable)
      && (point.reachable ==> MeetsTarget(c, fixed, denominator, target, point))
  {
    hide Complete, Quantize, OnGrid, Times, Slack, RunAt, Cost, AllRates, AllReady, Percent, Decomposed, Margin,
         FixedCost, RateCost, OffGrid, Sum, GapCodes, ClosestNear, Aligned, MarginBound, MarginGap;
    var denominator := 1.0 - variable - target / 100.0;
    if fixed > 0.0 && denominator > 0.0 {
      var start := StartPrice(fixed, denominator);
      SplitIsAccurate(c, start);
      CostAt(c, start);
      AlignedIsClosest(c, start, target);
      var price := Aligned(c, start, target);
      ClosestFacts(c, price, target, start);
      MarginAt(c, price);
      MarginIs(c, price);
      ClosedFormMargin(c, fixed, variable, target);
    }
  }

  lemma StartPrice(fixed: Decimal, denominator: Decimal) returns (start: Decimal)
    requires fixed > 0.0 && denominator > 0.0
    ensures start == Quantize(fixed / denominator) && OnGrid(start) && start >= 0.0
  {
    start := Quantize(fixed / denominator);
    assert fixed / denominator > 0.0;
    QuantizeNear(fixed / denominator);
    QuantizeMonotone(0.0, fixed / denominator);
    GridFromInteger(0);
    QuantizeFixes(0.0);
  }

  lemma MarginIs(c: Case, price: Decimal)
    ensures Margin(c, price) == RunAt(c, price).netMarginPercent
  {
  }

  lemma ClosestFacts(c: Case, price: Decimal, target: Decimal, start: Decimal)
    requires ClosestNear(c, price, target, start)
    ensures price > 0.0 && OnGrid(price) && Margin(c, price).Some?
    ensures start > 0.0 ==> Margin(c, start).Some? && MarginGap(c, price, target) <= MarginGap(c, start, target)
    ensures start == 0.0 ==> price == MICRO
  {
    hide Margin, MarginGap, OnGrid;
    assert start in [start - MICRO, start, start + MICRO];
  }

  // ---- The curve of targets

  const CURVE_STEP: Decimal := 5.0
  const CURVE_EXTRA: Decimal := 10.0

  predicate RealLeq(x: real, y: real) {
    x <= y
  }

  function Multiple(k: nat): Decimal {
    CURVE_STEP * k as real
  }

  ghost predicate OnCurve(x: Decimal, target: Decimal) {
    || x == target
    || x == target + CURVE_EXTRA
    || (x <= target + CURVE_EXTRA && exists k: nat :: x == Multiple(k))
  }

  ghost predicate StrictlyIncreasing(s: seq<Decimal>) {
    forall i, j :: 0 <= i < j < |s| ==> s[i] < s[j]
  }

  lemma AddedOnce(s: seq<Decimal>, x: Decimal)
    requires NoRepeats(s) && x !in s
    ensures NoRepeats(s + [x])
  {
  }

  lemma SortedStrictly(s: seq<Decimal>)
    requires NoRepeats(s)
    ensures StrictlyIncreasing(Sorted(RealLeq, s))
    ensures forall x :: x in Sorted(RealLeq, s) <==> x in s
  {
    SortedSorts(RealLeq, s);
    var t := Sorted(RealLeq, s);
    ReorderedSize(s, t);
    forall i, j | 0 <= i < j < |t|
      ensures t[i] < t[j]
    {
      assert RealLeq(t[i], t[j]);
      RepeatCounts(t, i, j);
    }
  }

  /** Every multiple of five up to ten past the target, the target and that end, each once and in order. */
  method CurvePercents(target: Decimal) returns (points: seq<Decimal>)
    ensures StrictlyIncreasing(points)
    ensures forall x :: x in points <==> OnCurve(x, target)
  {
    hide Sorted;
    var end := target + CURVE_EXTRA;
    points := [];
    var current := 0.0;
    ghost var k: nat := 0;
    while current <= end
      invariant current == Multiple(k)
      invariant forall x :: x in points <==> x <= end && exists j: nat :: j < k && x == Multiple(j)
      invariant NoRepeats(points)
      decreases (end - current).Floor + 1
    {
      AddedOnce(points, current);
      points := points + [current];
      current := current + CURVE_STEP;
      k := k + 1;
    }
    if target !in points {
      AddedOnce(points, target);
      points := points + [target];
    }
    if end !in points {
      AddedOnce(points, end);
      points := points + [end];
    }
    SortedStrictly(points);
    points := Sorted(RealLeq, points);
  }

  // ---- The whole answer

  datatype PricingResult = PricingResult(
    suggestedPrice: Option<Decimal>,
    breakEvenPrice: Option<Decimal>,
    breakEvenQuantity: Option<Decimal>,
    reachable: bool,
    curve: seq<PricePoint>,
    verified: Option<LandedCostResult>,
    gaps: seq<LineCode>)

  /** The first point with this target, or else the last point. */
  function PointFor(curve: seq<PricePoint>, target: Decimal): PricePoint
    requires curve != []
  {
    if |curve| == 1 || curve[0].target == target then curve[0] else PointFor(curve[1..], target)
  }

  lemma {:induction false} PointForFinds(curve: seq<PricePoint>, target: Decimal)
    requires exists i :: 0 <= i < |curve| && curve[i].target == target
    ensures PointFor(curve, target) in curve && PointFor(curve, target).target == target
  {
    var i :| 0 <= i < |curve| && curve[i].target == target;
    if |curve| > 1 && curve[0].target != target {
      assert curve[1..][i - 1].target == target;
      PointForFinds(curve[1..], target);
    }
  }

  /** The curve holds each wanted target once, in order, and each point is a quote. */
  ghost predicate CurveOf(c: Case, fixed: Decimal, variable: Decimal, target: Decimal, curve: seq<PricePoint>) {
    && (forall i, j :: 0 <= i < j < |curve| ==> curve[i].target < curve[j].target)
    && (forall x :: OnCurve(x, target) <==> exists i :: 0 <= i < |curve| && curve[i].target == x)
    && (forall i :: 0 <= i < |curve| ==> curve[i] == Quote(c, fixed, variable, curve[i].target))
  }

  /** The price the break-even quantity is worked out at: the given one if positive, or else the suggestion. */
  function Reference(c: Case, suggested: Option<Decimal>): Option<Decimal> {
    if c.data.sellingPrice.Some? && c.data.sellingPrice.value > 0.0 then c.data.sellingPrice
    else if suggested.Some? && suggested.value > 0.0 then suggested
    else None
  }

  function Quantity(c: Case, suggested: Option<Decimal>, periodCost: Option<Decimal>): Option<Decimal> {
    var reference := Reference(c, suggested);
    if periodCost.None? || reference.None? then None
    else
      var net := RunAt(c, reference.value).netProfit;
      if net.None? || net.value <= 0.0 then None else Some(Quantize(periodCost.value / net.value))
  }

  lemma NetAt(c: Case, price: Decimal)
    requires Complete(c) && OnGrid(price)
    ensures RunAt(c, price).netProfit == Some(price - Cost(c, price))
  {
    CostAt(c, price);
    PriceSplitsExactly(c.data.(sellingPrice := Some(price)), c.taxes, c.fees, c.off);
    hide LandedLines, Deductions, Complete, AllReady, Sum, Amounts, Total, Percent, OnGrid, Invested, FixedCost, AllRates;
  }

  lemma QuotientCovers(cost: Decimal, net: Decimal)
    requires net > 0.0
    ensures OnGrid(Quantize(cost / net)) && Abs(Times(Quantize(cost / net), net) - cost) <= Times(HALF_MICRO, net)
  {
    QuantizeNear(cost / net);
    TimesOver(cost, net);
    TimesAdd(Quantize(cost / net), cost / net, net);
    TimesWithin(Quantize(cost / net) - cost / net, net, HALF_MICRO);
    hide Times, Quantize, OnGrid;
  }

  /** `quantity` is given exactly when there is a period cost and a unit sold at `price` earns something, and then so
      many units at that price earn the period's cost, to half a micro-unit of quantity. */
  ghost predicate EarnsBack(c: Case, price: Decimal, periodCost: Option<Decimal>, quantity: Option<Decimal>) {
    && (quantity.Some? <==> periodCost.Some? && price - Cost(c, price) > 0.0)
    && (quantity.Some? ==>
          && OnGrid(quantity.value)
          && Abs(Times(quantity.value, price - Cost(c, price)) - periodCost.value)
             <= Times(HALF_MICRO, price - Cost(c, price)))
  }

  /** The quantity is for the given price if that is positive, whatever was suggested; for the suggestion only when no
      positive price is given; and there is none when neither exists. */
  ghost predicate QuantityIsFor(
    c: Case, suggested: Option<Decimal>, periodCost: Option<Decimal>, quantity: Option<Decimal>)
  {
    var given := c.data.sellingPrice;
    && (given.Some? && given.value > 0.0 ==> EarnsBack(c, given.value, periodCost, quantity))
    && (!(given.Some? && given.value > 0.0) && suggested.Some? && suggested.value > 0.0 ==>
          EarnsBack(c, suggested.value, periodCost, quantity))
    && (!(given.Some? && given.value > 0.0) && !(suggested.Some? && suggested.value > 0.0) ==> quantity.None?)
  }

  lemma QuantityBreaksEven(c: Case, suggested: Option<Decimal>, periodCost: Option<Decimal>)
    requires Complete(c) && (suggested.Some? ==> OnGrid(suggested.value))
    requires c.data.sellingPrice.Some? ==> OnGrid(c.data.sellingPrice.value)
    ensures QuantityIsFor(c, suggested, periodCost, Quantity(c, suggested, periodCost))
  {
    hide RunAt, Cost, Complete, OnGrid, Quantize, Times;
    var reference := Reference(c, suggested);
    if reference.Some? {
      NetAt(c, reference.value);
      var net := reference.value - Cost(c, reference.value);
      if periodCost.Some? && net > 0.0 {
        QuotientCovers(periodCost.value, net);
      }
    }
  }

  /** Either the missing lines are named and nothing is priced, or the suggestion is the quote for the target
      itself - never the fallback point - and it is recomputed from all twelve lines. */
  method SuggestPrices(c: Case, target: Decimal, periodCost: Option<Decimal>) returns (r: PricingResult)
    ensures !Complete(c) ==>
              && r.gaps == GapCodes(RunAt(c, PROBE_A).lines) != []
              && r == PricingResult(None, None, None, false, [], Some(RunAt(c, PROBE_A)), r.gaps)
    ensures Complete(c) ==>
              var split := Decomposed(c);
              && split.Linear? && r.gaps == []
              && CurveOf(c, split.fixed, split.variable, target, r.curve)
              && r.suggestedPrice == Quote(c, split.fixed, split.variable, target).price
              && r.breakEvenPrice == Quote(c, split.fixed, split.variable, 0.0).price
              && r.breakEvenQuantity == Quantity(c, r.suggestedPrice, periodCost)
              && r.reachable == r.suggestedPrice.Some?
              && r.verified == if r.reachable then Some(RunAt(c, r.suggestedPrice.value)) else None
    ensures Complete(c) && (c.data.sellingPrice.Some? ==> OnGrid(c.data.sellingPrice.value)) ==>
              QuantityIsFor(c, r.suggestedPrice, periodCost, r.breakEvenQuantity)
  {
    hide Quote, RunAt, Decomposed, GapCodes, Complete, AllReady, OnCurve, PointFor, OffGrid, FixedCost, AllRates, Sum,
         QuantityIsFor, Quantity, OnGrid;
    SplitIsAccurate(c, PROBE_A);
    CostAt(c, PROBE_A);
    var split := Decompose(c);
    if split.Gaps? {
      return PricingResult(None, None, None, false, [], Some(RunAt(c, PROBE_A)), split.codes);
    }
    var fixed, variable := split.fixed, split.variable;
    var points := CurvePercents(target);
    var curve := seq(|points|, i requires 0 <= i < |points| => Quote(c, fixed, variable, points[i]));
    QuotesKeepTargets(c, fixed, variable, target, points, curve);
    PointForFinds(curve, target);
    var suggested := PointFor(curve, target);
    var breakEven := Quote(c, fixed, variable, 0.0);
    QuoteMeetsTarget(c, fixed, variable, target);
    var verified := if suggested.price.Some? then Some(RunAt(c, suggested.price.value)) else None;
    var quantity := Quantity(c, suggested.price, periodCost);
    if c.data.sellingPrice.Some? ==> OnGrid(c.data.sellingPrice.value) {
      SuggestedOnGrid(c, fixed, variable, target);
      QuantityBreaksEven(c, suggested.price, periodCost);
    }
    r := PricingResult(suggested.price, breakEven.price, quantity, suggested.reachable, curve, verified, []);
  }

  lemma SuggestedOnGrid(c: Case, fixed: Decimal, variable: Decimal, target: Decimal)
    requires SplitFrom(c, fixed, variable)
    ensures var price := Quote(c, fixed, variable, target).price; price.Some? ==> OnGrid(price.value)
  {
    hide Quote, Margin, MarginGap, MarginBound, OnGrid, Quantize;
    QuoteMeetsTarget(c, fixed, variable, target);
  }

  lemma QuotesKeepTargets(
    c: Case, fixed: Decimal, variable: Decimal, target: Decimal, points: seq<Decimal>, curve: seq<PricePoint>)
    requires StrictlyIncreasing(points) && forall x :: x in points <==> OnCurve(x, target)
    requires |curve| == |points|
    requires forall i :: 0 <= i < |points| ==> curve[i] == Quote(c, fixed, variable, points[i])
    ensures CurveOf(c, fixed, variable, target, curve)
    ensures exists i :: 0 <= i < |curve| && curve[i].target == target
  {
    hide RunAt, Aligned, Quantize;
    assert forall i :: 0 <= i < |points| ==> curve[i].target == points[i];
    assert target in points by {
      assert OnCurve(target, target);
    }
    hide Quote, OnCurve;
    forall x
      ensures OnCurve(x, target) <==> exists i :: 0 <= i < |curve| && curve[i].target == x
    {
      if OnCurve(x, target) {
        assert x in points;
        var i :| 0 <= i < |points| && points[i] == x;
        assert curve[i].target == x;
      }
    }
  }
}
