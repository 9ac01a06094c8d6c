/** Sharing a freight bill over its lines, with the rounding remainder on the largest line. */
module Freight {
  import opened Options
  import opened Decimals

  datatype AllocMethod = WEIGHT | VOLUME | VALUE | OTHER

  datatype AllocInput = AllocInput(
    skuId: int, quantity: int, weightG: Decimal, volumeCm3: Decimal, unitValue: Decimal)

  datatype AllocOutput = AllocOutput(skuId: int, quantity: int, allocatedCost: Decimal, unitCost: Decimal)

  datatype RuleError =
    MethodUnsupported | TotalNotPositive | NoLines | QuantityNotPositive | BasisNotPositive | WholeNotPositive

  function Metric(kind: AllocMethod, line: AllocInput): Result<Decimal, RuleError> {
    var unit := if kind == WEIGHT then line.weightG else if kind == VOLUME then line.volumeCm3 else line.unitValue;
    if line.quantity <= 0 then Err(QuantityNotPositive)
    else if unit <= 0.0 then Err(BasisNotPositive)
    else Ok(Times(unit, line.quantity as real))
  }

  /** All metrics, or the error of the first line that has none. */
  function Metrics(kind: AllocMethod, lines: seq<AllocInput>): (r: Result<seq<Decimal>, RuleError>)
    ensures r.Ok? ==> |r.value| == |lines|
  {
    if lines == [] then Ok([])
    else
      var head := Metric(kind, lines[0]);
      if head.Err? then Err(head.error)
      else
        var rest := Metrics(kind, lines[1..]);
        if rest.Err? then rest else Ok([head.value] + rest.value)
  }

  /** A line's exact part of the total. */
  function Portion(total: Decimal, metric: Decimal, whole: Decimal): Decimal
    requires whole > 0.0
  {
    Times(total, metric) / whole
  }

  function Portions(total: Decimal, metrics: seq<Decimal>, whole: Decimal): seq<Decimal>
    requires whole > 0.0
  {
    if metrics == [] then [] else [Portion(total, metrics[0], whole)] + Portions(total, metrics[1..], whole)
  }

  function RoundAll(s: seq<Decimal>): seq<Decimal> {
    if s == [] then [] else [Quantize(s[0])] + RoundAll(s[1..])
  }

  /** The first line with the largest metric. */
  function Winner(metrics: seq<Decimal>): (w: nat)
    requires metrics != []
    ensures w < |metrics|
  {
    if |metrics| == 1 then 0
    else
      var w := Winner(metrics[..|metrics| - 1]);
      if metrics[|metrics| - 1] > metrics[w] then |metrics| - 1 else w
  }

  function Shares(total: Decimal, metrics: seq<Decimal>): (s: seq<Decimal>)
    requires metrics != [] && Sum(metrics) > 0.0
    ensures |s| == |metrics|
  {
    SizesKept(total, metrics, Sum(metrics));
    var raw := RoundAll(Portions(total, metrics, Sum(metrics)));
    var remainder := Quantize(total - Sum(raw));
    var w := Winner(metrics);
    if remainder != 0.0 then raw[w := Quantize(raw[w] + remainder)] else raw
  }

  lemma {:induction false} SizesKept(total: Decimal, metrics: seq<Decimal>, whole: Decimal)
    requires whole > 0.0
    ensures |Portions(total, metrics, whole)| == |metrics|
    ensures |RoundAll(Portions(total, metrics, whole))| == |metrics|
    ensures forall i :: 0 <= i < |metrics| ==> Portions(total, metrics, whole)[i] == Portion(total, metrics[i], whole)
    ensures forall i :: 0 <= i < |metrics| ==>
              RoundAll(Portions(total, metrics, whole))[i] == Quantize(Portion(total, metrics[i], whole))
  {
    hide Portion, Quantize;
    if metrics != [] {
      SizesKept(total, metrics[1..], whole);
    }
  }

  function Outputs(lines: seq<AllocInput>, shares: seq<Decimal>): seq<AllocOutput>
    requires |lines| == |shares| && forall i :: 0 <= i < |lines| ==> lines[i].quantity > 0
  {
    seq(|lines|, i requires 0 <= i < |lines| =>
      AllocOutput(lines[i].skuId, lines[i].quantity, shares[i], Quantize(shares[i] / lines[i].quantity as real)))
  }

  lemma {:induction false} MetricsArePositive(kind: AllocMethod, lines: seq<AllocInput>)
    requires Metrics(kind, lines).Ok?
    ensures forall i :: 0 <= i < |lines| ==> lines[i].quantity > 0 && Metrics(kind, lines).value[i] > 0.0
    ensures lines != [] ==> Sum(Metrics(kind, lines).value) > 0.0
  {
    hide Times;
    if lines != [] {
      MetricsArePositive(kind, lines[1..]);
      TimesSign(if kind == WEIGHT then lines[0].weightG else if kind == VOLUME then lines[0].volumeCm3
                else lines[0].unitValue, lines[0].quantity as real);
    }
  }

  function AllocateSpec(kind: AllocMethod, total: Decimal, lines: seq<AllocInput>): Result<seq<AllocOutput>, RuleError> {
    if kind == OTHER then Err(MethodUnsupported)
    else if total <= 0.0 then Err(TotalNotPositive)
    else if lines == [] then Err(NoLines)
    else
      var metrics := Metrics(kind, lines);
      if metrics.Err? then Err(metrics.error)
      else
        MetricsArePositive(kind, lines);
        Ok(Outputs(lines, Shares(total, metrics.value)))
  }

  /** Rounds every part, then corrects the winner's share in place. */
  method SplitBill(total: Decimal, metrics: seq<Decimal>) returns (shares: array<Decimal>)
    requires metrics != [] && Sum(metrics) > 0.0
    ensures fresh(shares) && shares[..] == Shares(total, metrics)
  {
    hide Quantize, Portions, RoundAll, Sum, Winner;
    var whole := Sum(metrics);
    SizesKept(total, metrics, whole);
    var raw := RoundAll(Portions(total, metrics, whole));
    shares := new Decimal[|raw|](i requires 0 <= i < |raw| => raw[i]);
    assert shares[..] == raw;
    var remainder := Quantize(total - Sum(raw));
    var winner := Winner(metrics);
    if remainder != 0.0 {
      shares[winner] := Quantize(shares[winner] + remainder);
    }
  }

  method WriteOutputs(lines: seq<AllocInput>, shares: array<Decimal>) returns (outputs: seq<AllocOutput>)
    requires shares.Length == |lines| && forall i :: 0 <= i < |lines| ==> lines[i].quantity > 0
    ensures outputs == Outputs(lines, shares[..])
  {
    hide Quantize;
    outputs := [];
    for i := 0 to |lines|
      invariant outputs == Outputs(lines, shares[..])[..i]
    {
      var unit := Quantize(shares[i] / lines[i].quantity as real);
      outputs := outputs + [AllocOutput(lines[i].skuId, lines[i].quantity, shares[i], unit)];
    }
  }

  /** The error for a non-positive whole is never the answer. */
  method Allocate(kind: AllocMethod, total: Decimal, lines: seq<AllocInput>)
    returns (r: Result<seq<AllocOutput>, RuleError>)
    ensures r == AllocateSpec(kind, total, lines) && r != Err(WholeNotPositive)
  {
    hide Quantize, Sum, Metrics, Shares, Outputs;
    if kind == OTHER {
      return Err(MethodUnsupported);
    }
    if total <= 0.0 {
      return Err(TotalNotPositive);
    }
    if lines == [] {
      return Err(NoLines);
    }
    MetricErrors(kind, lines);
    var metrics := Metrics(kind, lines);
    if metrics.Err? {
      return Err(metrics.error);
    }
    MetricsArePositive(kind, lines);
    if Sum(metrics.value) <= 0.0 {
      return Err(WholeNotPositive);
    }
    var shares := SplitBill(total, metrics.value);
    var outputs := WriteOutputs(lines, shares);
    return Ok(outputs);
  }

  lemma {:induction false} MetricErrors(kind: AllocMethod, lines: seq<AllocInput>)
    ensures Metrics(kind, lines).Err? ==>
              Metrics(kind, lines).error == QuantityNotPositive || Metrics(kind, lines).error == BasisNotPositive
  {
    hide Times;
    if lines != [] {
      MetricErrors(kind, lines[1..]);
    }
  }

  // ---- What the shares guarantee

  ghost predicate Billable(total: Decimal, metrics: seq<Decimal>) {
    && total > 0.0 && metrics != [] && Sum(metrics) > 0.0
    && forall i :: 0 <= i < |metrics| ==> metrics[i] > 0.0
  }

  lemma {:induction false} WinnerIsLargest(metrics: seq<Decimal>)
    requires metrics != []
    ensures forall i :: 0 <= i < |metrics| ==> metrics[i] <= metrics[Winner(metrics)]
    ensures forall i :: 0 <= i < Winner(metrics) ==> metrics[i] < metrics[Winner(metrics)]
  {
    if |metrics| > 1 {
      WinnerIsLargest(metrics[..|metrics| - 1]);
    }
  }

  lemma {:induction false} RoundedOnGrid(s: seq<Decimal>)
    ensures AllOnGrid(RoundAll(s))
  {
    if s != [] {
      QuantizeNear(s[0]);
      hide Quantize, OnGrid;
      RoundedOnGrid(s[1..]);
    }
  }

  lemma {:induction false} SumUpdate(s: seq<Decimal>, w: nat, x: Decimal)
    requires w < |s|
    ensures Sum(s[w := x]) == Sum(s) - s[w] + x
  {
    if w == 0 {
      assert s[0 := x][1..] == s[1..];
    } else {
      assert s[w := x][1..] == s[1..][w - 1 := x];
      SumUpdate(s[1..], w - 1, x);
    }
  }

  lemma Corrected(raw: seq<Decimal>, w: nat, remainder: Decimal)
    requires w < |raw| && AllOnGrid(raw) && OnGrid(remainder)
    ensures
      var fixed := if remainder != 0.0 then raw[w := Quantize(raw[w] + remainder)] else raw;
      && |fixed| == |raw| && AllOnGrid(fixed)
      && (forall i :: 0 <= i < |raw| && i != w ==> fixed[i] == raw[i])
      && fixed[w] == raw[w] + remainder
      && Sum(fixed) == Sum(raw) + remainder
  {
    GridAdd(raw[w], remainder);
    QuantizeFixes(raw[w] + remainder);
    hide Quantize, OnGrid;
    SumUpdate(raw, w, raw[w] + remainder);
  }

  /** The pieces of `Shares`, and that the winner gets whatever the rounded others leave. */
  lemma SharesShape(total: Decimal, metrics: seq<Decimal>)
    requires Billable(total, metrics)
    ensures
      var raw := RoundAll(Portions(total, metrics, Sum(metrics)));
      var w := Winner(metrics);
      var shares := Shares(total, metrics);
      && |raw| == |metrics| && AllOnGrid(raw) && OnGrid(Sum(raw)) && AllOnGrid(shares)
      && (forall i :: 0 <= i < |metrics| && i != w ==>
            shares[i] == raw[i] && raw[i] == Quantize(Portion(total, metrics[i], Sum(metrics))))
      && shares[w] == raw[w] + Quantize(total - Sum(raw))
      && Sum(shares) == Sum(raw) + Quantize(total - Sum(raw))
  {
    hide Quantize, OnGrid, Portion, Portions, RoundAll, Sum, Winner;
    var portions := Portions(total, metrics, Sum(metrics));
    var raw := RoundAll(portions);
    SizesKept(total, metrics, Sum(metrics));
    RoundedOnGrid(portions);
    SumOnGrid(raw);
    QuantizeNear(total - Sum(raw));
    Corrected(raw, Winner(metrics), Quantize(total - Sum(raw)));
  }

  /** Money is conserved: the shares add up to the bill exactly when the bill has at most six decimals. */
  lemma SharesSumToTotal(total: Decimal, metrics: seq<Decimal>)
    requires Billable(total, metrics)
    ensures Sum(Shares(total, metrics)) == total <==> OnGrid(total)
  {
    SharesShape(total, metrics);
    var sum := Sum(RoundAll(Portions(total, metrics, Sum(metrics))));
    QuantizeFixes(total - sum);
    if OnGrid(total) {
      GridAdd(total, sum);
    }
    if OnGrid(total - sum) {
      GridAdd(total - sum, sum);
    }
    hide Quantize, OnGrid, Shares, RoundAll, Portions;
  }

  lemma PortionMonotone(total: Decimal, a: Decimal, b: Decimal, whole: Decimal)
    requires total >= 0.0 && a <= b && whole > 0.0
    ensures Portion(total, a, whole) <= Portion(total, b, whole)
  {
    TimesMonotone(a, b, total);
    hide Times;
    assert (Times(total, b) - Times(total, a)) / whole >= 0.0;
  }

  /** Every line but the winner gets its exact part rounded: within half a micro-unit, and no less than a
      line with a smaller metric. */
  lemma OthersNearAndMonotone(total: Decimal, metrics: seq<Decimal>, i: nat, j: nat)
    requires Billable(total, metrics)
    requires i < |metrics| && i != Winner(metrics)
    requires j < |metrics| && j != Winner(metrics) && metrics[i] <= metrics[j]
    ensures -HALF_MICRO <= Shares(total, metrics)[i] - Portion(total, metrics[i], Sum(metrics)) <= HALF_MICRO
    ensures Shares(total, metrics)[i] <= Shares(total, metrics)[j]
  {
    SharesShape(total, metrics);
    var whole := Sum(metrics);
    QuantizeNear(Portion(total, metrics[i], whole));
    PortionMonotone(total, metrics[i], metrics[j], whole);
    QuantizeMonotone(Portion(total, metrics[i], whole), Portion(total, metrics[j], whole));
  }

  lemma PortionAdds(total: Decimal, a: Decimal, b: Decimal, whole: Decimal)
    requires whole > 0.0
    ensures Portion(total, a + b, whole) == Portion(total, a, whole) + Portion(total, b, whole)
    ensures Portion(total, 0.0, whole) == 0.0 && Portion(total, whole, whole) == total
  {
    TimesSwap(total, a + b);
    TimesSwap(total, a);
    TimesSwap(total, b);
    TimesAdd(a, b, total);
    TimesUnit(total);
    WholePortion(total, whole);
    hide Times;
    assert (Times(total, a) + Times(total, b)) / whole == Times(total, a) / whole + Times(total, b) / whole;
  }

  lemma WholePortion(total: Decimal, whole: Decimal)
    requires whole > 0.0
    ensures Times(total, whole) / whole == total
  {
  }

  lemma {:induction false} PortionsSum(total: Decimal, metrics: seq<Decimal>, whole: Decimal)
    requires whole > 0.0
    ensures Sum(Portions(total, metrics, whole)) == Portion(total, Sum(metrics), whole)
  {
    if metrics == [] {
      PortionAdds(total, 0.0, 0.0, whole);
    } else {
      PortionAdds(total, metrics[0], Sum(metrics[1..]), whole);
      hide Portion;
      PortionsSum(total, metrics[1..], whole);
      assert Portions(total, metrics, whole)[1..] == Portions(total, metrics[1..], whole);
    }
  }

  /** n rounding errors of half a micro-unit. */
  function Halves(n: int): Decimal {
    Times(n as real, HALF_MICRO)
  }

  lemma {:induction false} RoundedSumClose(s: seq<Decimal>)
    ensures -Halves(|s|) <= Sum(RoundAll(s)) - Sum(s) <= Halves(|s|)
  {
    if s != [] {
      RoundedSumClose(s[1..]);
      QuantizeNear(s[0]);
      hide Quantize;
      assert |s| as real == 1.0 + |s[1..]| as real;
    }
  }

  lemma {:induction false} RoundAllAppend(s: seq<Decimal>, t: seq<Decimal>)
    ensures RoundAll(s + t) == RoundAll(s) + RoundAll(t)
  {
    hide Quantize;
    if s == [] {
      assert s + t == t;
    } else {
      assert (s + t)[1..] == s[1..] + t;
      RoundAllAppend(s[1..], t);
    }
  }

  lemma RoundedOthersClose(s: seq<Decimal>, w: nat)
    requires w < |s|
    ensures |RoundAll(s)| == |s|
    ensures -Halves(|s| - 1) <= (Sum(RoundAll(s)) - Quantize(s[w])) - (Sum(s) - s[w]) <= Halves(|s| - 1)
  {
    var left, right := s[..w], s[w + 1..];
    assert s == left + ([s[w]] + right);
    RoundAllAppend(left, [s[w]] + right);
    assert RoundAll([s[w]] + right) == [Quantize(s[w])] + RoundAll(right);
    RoundAllAppend(left, right);
    hide Quantize;
    SumAppend(left, [s[w]] + right);
    SumAppend(left, right);
    SumAppend(RoundAll(left), [Quantize(s[w])] + RoundAll(right));
    SumAppend(RoundAll(left), RoundAll(right));
    RoundedSumClose(left + right);
    RoundAllSize(s);
  }

  lemma {:induction false} RoundAllSize(s: seq<Decimal>)
    ensures |RoundAll(s)| == |s|
  {
    if s != [] {
      RoundAllSize(s[1..]);
    }
  }

  /** The winner's share carries everyone's rounding: it is within (n - 1) / 2 micro-units of its part. */
  lemma WinnerNear(total: Decimal, metrics: seq<Decimal>)
    requires Billable(total, metrics) && OnGrid(total)
    ensures
      var w := Winner(metrics);
      var off := Shares(total, metrics)[w] - Portion(total, metrics[w], Sum(metrics));
      -Halves(|metrics| - 1) <= off <= Halves(|metrics| - 1)
  {
    var whole := Sum(metrics);
    var w := Winner(metrics);
    var portions := Portions(total, metrics, whole);
    SharesShape(total, metrics);
    SharesSumToTotal(total, metrics);
    SizesKept(total, metrics, whole);
    PortionsSum(total, metrics, whole);
    PortionAdds(total, 0.0, 0.0, whole);
    RoundedOthersClose(portions, w);
    hide Quantize, OnGrid, Shares, RoundAll, Portions, Portion, Halves;
  }

  // ---- The allocation, outright

  /** What the bill is shared by: a line's weight, volume or value. */
  ghost function BasisOf(kind: AllocMethod, line: AllocInput): Decimal {
    match kind
    case WEIGHT => line.weightG
    case VOLUME => line.volumeCm3
    case _ => line.unitValue
  }

  ghost predicate Shareable(kind: AllocMethod, line: AllocInput) {
    line.quantity > 0 && BasisOf(kind, line) > 0.0
  }

  /** The basis times the pieces, line by line. */
  ghost function Loads(kind: AllocMethod, lines: seq<AllocInput>): (loads: seq<Decimal>)
    ensures |loads| == |lines|
  {
    seq(|lines|, i requires 0 <= i < |lines| => Times(BasisOf(kind, lines[i]), lines[i].quantity as real))
  }

  lemma {:induction false} MetricsAreLoads(kind: AllocMethod, lines: seq<AllocInput>) returns (bad: nat)
    requires kind != OTHER
    ensures Metrics(kind, lines).Ok? <==> forall i :: 0 <= i < |lines| ==> Shareable(kind, lines[i])
    ensures Metrics(kind, lines).Ok? ==> Metrics(kind, lines).value == Loads(kind, lines)
    ensures Metrics(kind, lines).Err? ==>
              && bad < |lines| && !Shareable(kind, lines[bad])
              && (forall i :: 0 <= i < bad ==> Shareable(kind, lines[i]))
              && Metrics(kind, lines).error == if lines[bad].quantity <= 0 then QuantityNotPositive else BasisNotPositive
  {
    hide Times;
    bad := 0;
    if lines != [] && Metric(kind, lines[0]).Ok? {
      var rest := MetricsAreLoads(kind, lines[1..]);
      bad := rest + 1;
    }
  }

  /** One line of the answer: the line's own article and pieces, and a price per piece that makes up its share to half a
      micro-unit per piece. */
  ghost predicate Bills(output: AllocOutput, line: AllocInput) {
    && output.skuId == line.skuId && output.quantity == line.quantity
    && OnGrid(output.unitCost)
    && Abs(Times(output.unitCost, line.quantity as real) - output.allocatedCost)
       <= Times(HALF_MICRO, line.quantity as real)
  }

  ghost function Costs(outputs: seq<AllocOutput>): seq<Decimal> {
    seq(|outputs|, i requires 0 <= i < |outputs| => outputs[i].allocatedCost)
  }

  lemma UnitMakesUp(share: Decimal, quantity: int)
    requires quantity > 0
    ensures
      var unit := Quantize(share / quantity as real);
      OnGrid(unit) && Abs(Times(unit, quantity as real) - share) <= Times(HALF_MICRO, quantity as real)
  {
    var q, exact := quantity as real, share / quantity as real;
    var unit := Quantize(exact);
    QuantizeNear(exact);
    TimesOver(share, q);
    TimesMonotone(unit, exact + HALF_MICRO, q);
    TimesMonotone(exact - HALF_MICRO, unit, q);
    TimesAdd(exact, HALF_MICRO, q);
    hide Times, Quantize, OnGrid;
  }

  lemma OutputsBill(lines: seq<AllocInput>, shares: seq<Decimal>)
    requires |lines| == |shares| && forall i :: 0 <= i < |lines| ==> lines[i].quantity > 0
    ensures
      var outputs := Outputs(lines, shares);
      |outputs| == |lines| && Costs(outputs) == shares && forall i :: 0 <= i < |lines| ==> Bills(outputs[i], lines[i])
  {
    hide Quantize, Times, OnGrid;
    forall i | 0 <= i < |lines|
      ensures Bills(Outputs(lines, shares)[i], lines[i])
    {
      UnitMakesUp(shares[i], lines[i].quantity);
    }
  }

  /** The answer to an allocation: the first thing wrong with it - method, total, no lines, or the first line without
      pieces or basis - or one output per line, billed for the line's pieces, whose costs are the shares of the loads. */
  lemma AllocateExplained(kind: AllocMethod, total: Decimal, lines: seq<AllocInput>) returns (bad: nat)
    ensures
      var r := AllocateSpec(kind, total, lines);
      && (r == Err(MethodUnsupported) <==> kind == OTHER)
      && (r == Err(TotalNotPositive) <==> kind != OTHER && total <= 0.0)
      && (r == Err(NoLines) <==> kind != OTHER && total > 0.0 && lines == [])
      && (kind != OTHER && total > 0.0 && lines != [] ==>
            && (r.Ok? <==> forall i :: 0 <= i < |lines| ==> Shareable(kind, lines[i]))
            && (r.Err? ==>
                  && bad < |lines| && !Shareable(kind, lines[bad])
                  && (forall i :: 0 <= i < bad ==> Shareable(kind, lines[i]))
                  && r.error == if lines[bad].quantity <= 0 then QuantityNotPositive else BasisNotPositive))
      && (r.Ok? ==>
            && Billable(total, Loads(kind, lines)) && |r.value| == |lines|
            && Costs(r.value) == Shares(total, Loads(kind, lines))
            && (forall i :: 0 <= i < |lines| ==> Bills(r.value[i], lines[i])))
  {
    bad := 0;
    if kind != OTHER && total > 0.0 && lines != [] {
      bad := MetricsAreLoads(kind, lines);
      if Metrics(kind, lines).Ok? {
        MetricsArePositive(kind, lines);
        OutputsBill(lines, Shares(total, Metrics(kind, lines).value));
      }
    }
    hide Metrics, Shares, Outputs, Loads, Shareable, Bills, Costs, Sum;
  }
}
