/** Solving the landed-cost engine backwards: which price leaves a wanted margin. */
module Pricing {
  import opened Options
  import opened Decimals
  import opened Sequences
  import opened LandedCost

  /** One pricing question: an input and its rules. */
  datatype Case = Case(data: LandedCostInput, taxes: seq<TaxFact>, fees: seq<FeeFact>, off: set<LineCode>)

  function RunAt(c: Case, price: Decimal): LandedCostResult {
    ComputeLandedCost(c.data.(sellingPrice := Some(price)), c.taxes, c.fees, c.off)
  }

  // ---- How each line depends on the price

  datatype Rule = Missing | Flat(amount: Decimal) | Rate(rate: Decimal)

  function RuleAmount(rule: Rule, price: Decimal): Decimal
    requires !rule.Missing?
  {
    if rule.Flat? then rule.amount else Quantize(Times(price, rule.rate))
  }

  function RuleLine(rule: Rule, code: LineCode, price: Decimal, currency: string): CostLine {
    if rule.Missing? then Gap(code, currency) else CostLine(code, Some(RuleAmount(rule, price)), currency, true)
  }

  function RateRule(fees: seq<FeeFact>, fee: FeeCode, channel: string): Rule {
    var row := OnlyFee(fees, fee, channel);
    if row.None? || row.value.charge != RATE then Missing else Rate(row.value.amount)
  }

  function FulfillmentRule(fees: seq<FeeFact>, channel: string, currency: string): Rule {
    var row := OnlyFee(fees, FulfillmentFee, channel);
    if row.None? then Missing
    else if row.value.charge == FIXED && row.value.currency == Some(currency) then Flat(Quantize(row.value.amount))
    else if row.value.charge == RATE then Rate(row.value.amount)
    else Missing
  }

  function ReturnRule(fees: seq<FeeFact>, channel: string): Rule {
    var left, right := OnlyFee(fees, ReturnRateFee, channel), OnlyFee(fees, ReturnLossFee, channel);
    if left.None? || right.None? || left.value.charge != RATE || right.value.charge != RATE then Missing
    else Rate(Times(left.value.amount, right.value.amount))
  }

  function Switched(rule: Rule, code: LineCode, off: set<LineCode>): Rule {
    if code in off then Flat(0.0) else rule
  }

  const PRICE_CODES: seq<LineCode> := [COMMISSION, PAYMENT, FULFILLMENT, ADS, RETURN]

  function Rules(c: Case): (rules: seq<Rule>)
    ensures |rules| == 5
  {
    var channel, off := c.data.channel, c.off;
    [Switched(RateRule(c.fees, CommissionFee, channel), COMMISSION, off),
     Switched(RateRule(c.fees, PaymentFee, channel), PAYMENT, off),
     Switched(FulfillmentRule(c.fees, channel, c.data.sellingCurrency), FULFILLMENT, off),
     Switched(RateRule(c.fees, AdsFee, channel), ADS, off),
     Switched(ReturnRule(c.fees, channel), RETURN, off)]
  }

  function RuleLines(rules: seq<Rule>, codes: seq<LineCode>, price: Decimal, currency: string): seq<CostLine>
    requires |rules| == |codes|
  {
    seq(|rules|, i requires 0 <= i < |rules| => RuleLine(rules[i], codes[i], price, currency))
  }

  /** The seven landed lines ignore the price. */
  lemma LandedIgnoresPrice(c: Case, price: Decimal)
    ensures LandedLines(c.data.(sellingPrice := Some(price)), c.taxes, c.fees, c.off)
         == LandedLines(c.data, c.taxes, c.fees, c.off)
  {
    var d := c.data.(sellingPrice := Some(price));
    var cur := c.data.sellingCurrency;
    hide PickTax, PickTaxes, PickFees, OnlyFee, Times, Quantize, Total, Priced, ImportTaxTotal, FixedTotal;
    var purchase := Gate(PurchaseLine(c.data, cur), c.off, cur);
    var duty := Gate(DutyLine(c.data, c.taxes, cur), c.off, cur);
    assert PurchaseLine(d, cur) == PurchaseLine(c.data, cur);
    assert DutyLine(d, c.taxes, cur) == DutyLine(c.data, c.taxes, cur);
    assert ImportTaxLine(d, c.taxes, cur, duty) == ImportTaxLine(c.data, c.taxes, cur, duty);
    assert BrokerageLine(d, c.fees, cur) == BrokerageLine(c.data, c.fees, cur);
    assert StorageLine(d, c.fees, cur) == StorageLine(c.data, c.fees, cur);
    assert FirstMileLine(d, c.fees, cur, purchase) == FirstMileLine(c.data, c.fees, cur, purchase);
    hide PurchaseLine, DutyLine, ImportTaxLine, BrokerageLine, StorageLine, FirstMileLine, FxReserveLine, Gate;
  }

  lemma GateRule(rule: Rule, line: CostLine, code: LineCode, price: Decimal, off: set<LineCode>, currency: string)
    requires line == RuleLine(rule, code, price, currency)
    ensures Gate(line, off, currency) == RuleLine(Switched(rule, code, off), code, price, currency)
  {
    hide Quantize, Times;
  }

  lemma PriceLinesFollowRules(c: Case, price: Decimal)
    ensures
      var cur, channel := c.data.sellingCurrency, c.data.channel;
      var lines := PriceLines(Some(price), c.fees, channel, cur);
      && lines[0] == RuleLine(RateRule(c.fees, CommissionFee, channel), COMMISSION, price, cur)
      && lines[1] == RuleLine(RateRule(c.fees, PaymentFee, channel), PAYMENT, price, cur)
      && lines[2] == RuleLine(FulfillmentRule(c.fees, channel, cur), FULFILLMENT, price, cur)
      && lines[3] == RuleLine(RateRule(c.fees, AdsFee, channel), ADS, price, cur)
      && lines[4] == RuleLine(ReturnRule(c.fees, channel), RETURN, price, cur)
  {
    hide OnlyFee, Times, Quantize;
  }

  lemma DeductionsFollowRules(c: Case, price: Decimal)
    ensures Deductions(c.data.(sellingPrice := Some(price)), c.fees, c.off)
         == RuleLines(Rules(c), PRICE_CODES, price, c.data.sellingCurrency)
  {
    var cur, channel, off := c.data.sellingCurrency, c.data.channel, c.off;
    var lines := PriceLines(Some(price), c.fees, channel, cur);
    PriceLinesFollowRules(c, price);
    GateRule(RateRule(c.fees, CommissionFee, channel), lines[0], COMMISSION, price, off, cur);
    GateRule(RateRule(c.fees, PaymentFee, channel), lines[1], PAYMENT, price, off, cur);
    GateRule(FulfillmentRule(c.fees, channel, cur), lines[2], FULFILLMENT, price, off, cur);
    GateRule(RateRule(c.fees, AdsFee, channel), lines[3], ADS, price, off, cur);
    GateRule(ReturnRule(c.fees, channel), lines[4], RETURN, price, off, cur);
    hide PriceLines, RateRule, FulfillmentRule, ReturnRule, Gate, RuleLine, Switched;
    var gated, ruled := GateAll(lines, off, cur), RuleLines(Rules(c), PRICE_CODES, price, cur);
    forall i | 0 <= i < 5
      ensures gated[i] == ruled[i]
    {
      assert i == 0 || i == 1 || i == 2 || i == 3 || i == 4;
    }
  }

  // ---- The cost as a function of the price

  function Landed(c: Case): (lines: seq<CostLine>)
    ensures |lines| == LANDED_COUNT
  {
    LandedLines(c.data, c.taxes, c.fees, c.off)
  }

  /** Every line can be worked out once a price is given. */
  predicate Complete(c: Case) {
    AllReady(Landed(c)) && forall i :: 0 <= i < 5 ==> !Rules(c)[i].Missing?
  }

  function Cost(c: Case, price: Decimal): Decimal {
    Sum(Amounts(RunAt(c, price).lines))
  }

  function FlatTotal(rules: seq<Rule>): Decimal {
    if rules == [] then 0.0 else (if rules[0].Flat? then rules[0].amount else 0.0) + FlatTotal(rules[1..])
  }

  function Rates(rules: seq<Rule>): seq<Decimal> {
    if rules == [] then [] else (if rules[0].Rate? then [rules[0].rate] else []) + Rates(rules[1..])
  }

  function RateCost(rates: seq<Decimal>, price: Decimal): Decimal {
    if rates == [] then 0.0 else Quantize(Times(price, rates[0])) + RateCost(rates[1..], price)
  }

  /** How many rates have more than six decimals. */
  function OffGrid(rates: seq<Decimal>): nat {
    if rates == [] then 0 else (if OnGrid(rates[0]) then 0 else 1) + OffGrid(rates[1..])
  }

  /** What the goods cost at any price. */
  function FixedCost(c: Case): Decimal {
    Sum(Amounts(Landed(c))) + FlatTotal(Rules(c))
  }

  function AllRates(c: Case): seq<Decimal> {
    Rates(Rules(c))
  }

  lemma RunLines(c: Case, price: Decimal)
    ensures RunAt(c, price).lines == Landed(c) + RuleLines(Rules(c), PRICE_CODES, price, c.data.sellingCurrency)
  {
    LandedIgnoresPrice(c, price);
    DeductionsFollowRules(c, price);
    hide LandedLines, Deductions, Total, RuleLine, Rules;
  }

  lemma RuleLinesReady(rules: seq<Rule>, codes: seq<LineCode>, price: Decimal, currency: string)
    requires |rules| == |codes|
    ensures AllReady(RuleLines(rules, codes, price, currency)) <==> forall i :: 0 <= i < |rules| ==> !rules[i].Missing?
  {
    var lines := RuleLines(rules, codes, price, currency);
    hide RuleAmount;
    forall i | 0 <= i < |rules|
      ensures Ready(lines[i]) <==> !rules[i].Missing?
    {
      assert lines[i] == RuleLine(rules[i], codes[i], price, currency);
    }
  }

  lemma {:induction false} RuleLinesTotal(rules: seq<Rule>, codes: seq<LineCode>, price: Decimal, currency: string)
    requires |rules| == |codes| && forall i :: 0 <= i < |rules| ==> !rules[i].Missing?
    ensures Sum(Amounts(RuleLines(rules, codes, price, currency))) == FlatTotal(rules) + RateCost(Rates(rules), price)
  {
    hide Quantize, Times;
    var lines := RuleLines(rules, codes, price, currency);
    if rules != [] {
      assert lines[1..] == RuleLines(rules[1..], codes[1..], price, currency);
      assert lines[0].amount == Some(RuleAmount(rules[0], price));
      assert !rules[0].Missing?;
      RuleLinesTotal(rules[1..], codes[1..], price, currency);
      SumAppend([RuleAmount(rules[0], price)], Amounts(lines[1..]));
      assert Amounts(lines) == [RuleAmount(rules[0], price)] + Amounts(lines[1..]);
      RatesHead(rules, price);
    }
  }

  lemma RatesHead(rules: seq<Rule>, price: Decimal)
    requires rules != [] && !rules[0].Missing?
    ensures FlatTotal(rules) + RateCost(Rates(rules), price)
         == RuleAmount(rules[0], price) + FlatTotal(rules[1..]) + RateCost(Rates(rules[1..]), price)
  {
    hide Quantize, Times;
    if rules[0].Rate? {
      assert Rates(rules)[0] == rules[0].rate && Rates(rules)[1..] == Rates(rules[1..]);
    } else {
      assert Rates(rules) == Rates(rules[1..]);
    }
  }

  /** The cost is a constant plus one rounded share of the price per rate. */
  lemma CostAt(c: Case, price: Decimal)
    ensures AllReady(RunAt(c, price).lines) <==> Complete(c)
    ensures Complete(c) ==> Cost(c, price) == FixedCost(c) + RateCost(AllRates(c), price)
  {
    RunLines(c, price);
    var cur := c.data.sellingCurrency;
    var lines := RuleLines(Rules(c), PRICE_CODES, price, cur);
    AllReadyAppend(Landed(c), lines);
    RuleLinesReady(Rules(c), PRICE_CODES, price, cur);
    AmountsAppend(Landed(c), lines);
    SumAppend(Amounts(Landed(c)), Amounts(lines));
    hide Landed, Rules, RuleLines, AllReady, Sum, Amounts, RateCost, Rates, RunAt;
    if Complete(c) {
      RuleLinesTotal(Rules(c), PRICE_CODES, price, cur);
    }
  }

  /** Rounding each share separately moves the cost by at most half a micro-unit per rate. */
  lemma {:induction false} RateCostNear(rates: seq<Decimal>, price: Decimal)
    ensures Abs(RateCost(rates, price) - Times(price, Sum(rates))) <= |rates| as real * HALF_MICRO
  {
    hide Quantize, Times, OnGrid;
    TimesUnit(price);
    if rates != [] {
      RateCostNear(rates[1..], price);
      QuantizeNear(Times(price, rates[0]));
      TimesSwap(price, Sum(rates));
      TimesSwap(price, rates[0]);
      TimesSwap(price, Sum(rates[1..]));
      TimesAdd(rates[0], Sum(rates[1..]), price);
    }
  }

  lemma ProbeNear(rate: Decimal, price: int)
    ensures Abs(Quantize(Times(price as real, rate)) - Times(price as real, rate)) <= HALF_MICRO
    ensures OnGrid(rate) ==> Quantize(Times(price as real, rate)) == Times(price as real, rate)
  {
    QuantizeNear(Times(price as real, rate));
    if OnGrid(rate) {
      GridScale(rate, price);
      assert Times(price as real, rate) == rate * price as real;
      hide Times, OnGrid, Quantize;
      QuantizeFixes(Times(price as real, rate));
    }
  }

  /** At a whole price only rates with more than six decimals are rounded. */
  lemma {:induction false} RateCostAtProbe(rates: seq<Decimal>, price: int)
    ensures Abs(RateCost(rates, price as real) - Times(price as real, Sum(rates))) <= OffGrid(rates) as real * HALF_MICRO
  {
    hide Quantize, Times, OnGrid;
    var p := price as real;
    TimesUnit(p);
    if rates != [] {
      RateCostAtProbe(rates[1..], price);
      ProbeNear(rates[0], price);
      TimesSwap(p, Sum(rates));
      TimesSwap(p, rates[0]);
      TimesSwap(p, Sum(rates[1..]));
      TimesAdd(rates[0], Sum(rates[1..]), p);
    }
  }

  // ---- Splitting the cost with three probe prices

  const PROBE_A: Decimal := 1.0
  const PROBE_B: Decimal := 2.0
  const PROBE_C: Decimal := 4.0
  const SLOPE_TOLERANCE: Decimal := 0.000002

  datatype Decomposition = Gaps(codes: seq<LineCode>) | NonLinear | Linear(fixed: Decimal, variable: Decimal)

  function GapCodes(lines: seq<CostLine>): seq<LineCode> {
    if lines == [] then [] else (if Ready(lines[0]) then [] else [lines[0].code]) + GapCodes(lines[1..])
  }

  /** What the probes amount to: the lines that are missing, or the straight line through the costs at 1 and 2. */
  function Decomposed(c: Case): (split: Decomposition)
    ensures !split.NonLinear?
  {
    var gaps := GapCodes(RunAt(c, PROBE_A).lines);
    if gaps != [] then Gaps(gaps)
    else Linear(2.0 * Cost(c, PROBE_A) - Cost(c, PROBE_B), Cost(c, PROBE_B) - Cost(c, PROBE_A))
  }

  ghost predicate TwelveLines(c: Case, lines: seq<CostLine>) {
    |lines| == |LINE_CODES| && AllWellFormed(lines) && LinesCoded(lines, 0, c.data.sellingCurrency)
  }

  lemma RunHasTwelve(c: Case, price: Decimal)
    ensures TwelveLines(c, RunAt(c, price).lines)
  {
    ResultWellFormed(c.data.(sellingPrice := Some(price)), c.taxes, c.fees, c.off);
    hide ComputeLandedCost, AllWellFormed, LinesCoded;
  }

  /** How one line changes with the price: ready or not at every price, and its slopes agree up to rounding. */
  lemma LineAcrossProbes(c: Case, i: nat)
    requires i < |LINE_CODES|
    ensures
      var a, b, d := RunAt(c, PROBE_A).lines, RunAt(c, PROBE_B).lines, RunAt(c, PROBE_C).lines;
      && |a| == 12 && |b| == 12 && |d| == 12
      && (Ready(a[i]) <==> Ready(b[i])) && (Ready(a[i]) <==> Ready(d[i]))
      && (Ready(a[i]) ==>
            var low, middle, high := a[i].amount.value, b[i].amount.value, d[i].amount.value;
            Abs(middle - low - (high - middle) / 2.0) <= 3.0 * HALF_MICRO)
  {
    RunLines(c, PROBE_A);
    RunLines(c, PROBE_B);
    RunLines(c, PROBE_C);
    hide RunAt, Landed, Rules, Quantize, Times;
    if i >= LANDED_COUNT {
      var rule := Rules(c)[i - LANDED_COUNT];
      if rule.Rate? {
        ProbeNear(rule.rate, 1);
        ProbeNear(rule.rate, 2);
        ProbeNear(rule.rate, 4);
        TimesUnit(rule.rate);
        TimesAdd(1.0, 1.0, rule.rate);
        TimesAdd(2.0, 2.0, rule.rate);
      }
    }
  }

  lemma {:induction false} GapCodesAppend(lines: seq<CostLine>, i: nat)
    requires i < |lines|
    ensures GapCodes(lines[..i + 1]) == GapCodes(lines[..i]) + if Ready(lines[i]) then [] else [lines[i].code]
  {
    hide Ready;
    if i == 0 {
      assert lines[..1] == [lines[0]];
    } else {
      var rest := lines[1..];
      GapCodesAppend(rest, i - 1);
      assert lines[..i + 1][1..] == rest[..i] && lines[..i][1..] == rest[..i - 1];
    }
  }

  lemma {:induction false} NoGapsMeansReady(lines: seq<CostLine>)
    ensures GapCodes(lines) == [] <==> AllReady(lines)
  {
    hide Ready;
    if lines != [] {
      NoGapsMeansReady(lines[1..]);
      assert AllReady(lines) <==> Ready(lines[0]) && AllReady(lines[1..]) by {
        assert lines == [lines[0]] + lines[1..];
        AllReadyAppend([lines[0]], lines[1..]);
      }
    }
  }

  /** `at` are the places of exactly the lines that are incomplete or have no amount, in order, and `codes` their
      codes. */
  ghost predicate MissingAt(lines: seq<CostLine>, at: seq<nat>, codes: seq<LineCode>) {
    && |codes| == |at|
    && (forall k :: 0 <= k < |at| ==> at[k] < |lines| && codes[k] == lines[at[k]].code)
    && (forall k, m :: 0 <= k < m < |at| ==> at[k] < at[m])
    && (forall i: nat :: i < |lines| ==> (i in at <==> !lines[i].complete || lines[i].amount.None?))
  }

  lemma MissingStep(before: seq<CostLine>, last: CostLine, at: seq<nat>, codes: seq<LineCode>)
    requires MissingAt(before, at, codes)
    ensures Ready(last) ==> MissingAt(before + [last], at, codes)
    ensures !Ready(last) ==> MissingAt(before + [last], at + [|before|], codes + [last.code])
  {
    var lines, n := before + [last], |before|;
    var all := if Ready(last) then at else at + [n];
    forall i: nat | i < |lines|
      ensures i in all <==> !lines[i].complete || lines[i].amount.None?
    {
      assert i in all <==> i in at || (i == n && !Ready(last));
      assert i < n ==> lines[i] == before[i];
    }
  }

  /** The gap codes name exactly the missing lines, in line order. */
  lemma {:induction false} GapsNamed(lines: seq<CostLine>) returns (at: seq<nat>)
    ensures MissingAt(lines, at, GapCodes(lines))
  {
    at := [];
    if lines != [] {
      var last := |lines| - 1;
      var init := lines[..last];
      at := GapsNamed(init);
      GapCodesAppend(lines, last);
      hide *;
      assert lines == init + [lines[last]] && lines[..last + 1] == lines;
      MissingStep(init, lines[last], at, GapCodes(init));
      if Ready(lines[last]) {
        assert GapCodes(init) + [] == GapCodes(init);
      } else {
        at := at + [last];
      }
    }
  }

  lemma NothingYet()
    ensures GapCodes([]) == [] && Sum(Amounts([])) == 0.0
  {
  }

  /** The lines found under one code at the three probes: ready together, with slopes that nearly agree. */
  ghost predicate ProbesAgree(low: seq<CostLine>, middle: seq<CostLine>, high: seq<CostLine>, i: nat) {
    && i < |LINE_CODES| == |low| == |middle| == |high|
    && (low[i].code == middle[i].code == high[i].code == LINE_CODES[i])
    && LineOf(low, LINE_CODES[i]) == low[i]
    && LineOf(middle, LINE_CODES[i]) == middle[i]
    && LineOf(high, LINE_CODES[i]) == high[i]
    && (Ready(low[i]) <==> Ready(middle[i]))
    && (Ready(low[i]) <==> Ready(high[i]))
    && (Ready(low[i]) ==>
          SlopesAgree(low[i].amount.value, middle[i].amount.value, high[i].amount.value))
  }

  ghost predicate SlopesAgree(low: Decimal, middle: Decimal, high: Decimal) {
    Abs((middle - low) / (PROBE_B - PROBE_A) - (high - middle) / (PROBE_C - PROBE_B)) <= SLOPE_TOLERANCE
  }

  lemma ProbesAgreeAt(c: Case, i: nat)
    requires i < |LINE_CODES|
    ensures ProbesAgree(RunAt(c, PROBE_A).lines, RunAt(c, PROBE_B).lines, RunAt(c, PROBE_C).lines, i)
  {
    RunHasTwelve(c, PROBE_A);
    RunHasTwelve(c, PROBE_B);
    RunHasTwelve(c, PROBE_C);
    LineAcrossProbes(c, i);
    hide RunAt, LineOf, AllWellFormed;
    LineInPlace(RunAt(c, PROBE_A).lines, i, c.data.sellingCurrency);
    LineInPlace(RunAt(c, PROBE_B).lines, i, c.data.sellingCurrency);
    LineInPlace(RunAt(c, PROBE_C).lines, i, c.data.sellingCurrency);
  }

  lemma SlopesWithin(low: seq<CostLine>, middle: seq<CostLine>, high: seq<CostLine>, i: nat)
    requires AllReady(low) && ProbesAgree(low, middle, high, i)
    ensures Ready(low[i]) && low[i].amount.Some? && middle[i].amount.Some? && high[i].amount.Some?
    ensures
      var a, b, d := low[i].amount.value, middle[i].amount.value, high[i].amount.value;
      Abs((b - a) / (PROBE_B - PROBE_A) - (d - b) / (PROBE_C - PROBE_B)) <= SLOPE_TOLERANCE
  {
    hide LineOf;
  }

  /** The cost is read off three trial prices. Rounding never bends it enough for the straight-line check to
      fail, so an input is either incomplete or split. */
  method Decompose(c: Case) returns (out: Decomposition)
    ensures out == Decomposed(c)
  {
    hide LineOf, SlopesAgree, Sum, Amounts, GapCodes, Ready, AllReady, RunAt, LinesCoded, AllWellFormed;
    var low, middle, high := RunAt(c, PROBE_A).lines, RunAt(c, PROBE_B).lines, RunAt(c, PROBE_C).lines;
    RunHasTwelve(c, PROBE_A);
    RunHasTwelve(c, PROBE_B);
    RunHasTwelve(c, PROBE_C);
    var gaps := [];
    NothingYet();
    assert low[..0] == [] && middle[..0] == [];
    for i := 0 to |LINE_CODES|
      invariant gaps == GapCodes(low[..i])
    {
      ProbesAgreeAt(c, i);
      GapCodesAppend(low, i);
      var code := LINE_CODES[i];
      if !Ready(LineOf(low, code)) || !Ready(LineOf(middle, code)) || !Ready(LineOf(high, code)) {
        gaps := gaps + [code];
      }
    }
    assert low[..|LINE_CODES|] == low && middle[..|LINE_CODES|] == middle;
    if gaps != [] {
      return Gaps(gaps);
    }
    NoGapsMeansReady(low);
    var fixed, variable := 0.0, 0.0;
    for i := 0 to |LINE_CODES|
      invariant fixed == 2.0 * Sum(Amounts(low[..i])) - Sum(Amounts(middle[..i]))
      invariant variable == Sum(Amounts(middle[..i])) - Sum(Amounts(low[..i]))
    {
      ProbesAgreeAt(c, i);
      SlopesWithin(low, middle, high, i);
      var code := LINE_CODES[i];
      var a, b, d := LineOf(low, code).amount.value, LineOf(middle, code).amount.value, LineOf(high, code).amount.value;
      var slopeAb := (b - a) / (PROBE_B - PROBE_A);
      var slopeBc := (d - b) / (PROBE_C - PROBE_B);
      if Abs(slopeAb - slopeBc) > SLOPE_TOLERANCE {
        assert false;
        return NonLinear;
      }
      fixed := fixed + a - slopeAb * PROBE_A;
      variable := variable + slopeAb;
      AmountsPrefix(low, i);
      AmountsPrefix(middle, i);
    }
    out := Linear(fixed, variable);
  }
}
