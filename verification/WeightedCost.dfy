/** The running weighted unit cost of received goods. */
module WeightedCost {
  import opened Options
  import opened Decimals

  datatype CostError = QuantityNotPositive

  function WeightedUnit(oldQty: int, oldUnit: Decimal, newQty: int, newUnit: Decimal): Result<Decimal, CostError> {
    if newQty <= 0 then Err(QuantityNotPositive)
    else if oldQty <= 0 then Ok(Quantize(newUnit))
    else
      Ok(Quantize((Times(oldQty as real, oldUnit) + Times(newQty as real, newUnit)) / (oldQty + newQty) as real))
  }

  /** An averaged cost, times all pieces, is what the two lots are worth, to half a micro-unit a piece. An empty lot, or
      one that is owed, counts for nothing. */
  lemma LotsAreWorth(oldQty: int, oldUnit: Decimal, newQty: int, newUnit: Decimal)
    ensures
      var r := WeightedUnit(oldQty, oldUnit, newQty, newUnit);
      var kept := if oldQty > 0 then oldQty else 0;
      var worth := Times(kept as real, oldUnit) + Times(newQty as real, newUnit);
      && (r.Err? <==> newQty <= 0)
      && (r.Ok? ==>
            && OnGrid(r.value)
            && Abs(Times(r.value, (kept + newQty) as real) - worth) <= Times(HALF_MICRO, (kept + newQty) as real))
  {
    if newQty > 0 {
      var kept := if oldQty > 0 then oldQty else 0;
      var worth, all := Times(kept as real, oldUnit) + Times(newQty as real, newUnit), (kept + newQty) as real;
      TimesUnit(oldUnit);
      TimesSwap(newQty as real, newUnit);
      var exact := if oldQty <= 0 then newUnit else worth / all;
      QuantizeNear(exact);
      TimesOver(worth, all);
      TimesMonotone(Quantize(exact), exact + HALF_MICRO, all);
      TimesMonotone(exact - HALF_MICRO, Quantize(exact), all);
      TimesAdd(exact, HALF_MICRO, all);
      hide Times, Quantize, OnGrid;
    }
  }

  datatype Receipt = Receipt(quantity: int, unit: Decimal)

  predicate GoodReceipts(receipts: seq<Receipt>) {
    forall i :: 0 <= i < |receipts| ==> receipts[i].quantity > 0 && OnGrid(receipts[i].unit)
  }

  function Quantity(receipts: seq<Receipt>): (q: int)
    ensures GoodReceipts(receipts) ==> q >= |receipts|
  {
    if receipts == [] then 0 else Quantity(receipts[..|receipts| - 1]) + receipts[|receipts| - 1].quantity
  }

  /** What was paid in all, exactly. */
  function Value(receipts: seq<Receipt>): Decimal {
    if receipts == [] then 0.0
    else
      var last := receipts[|receipts| - 1];
      Value(receipts[..|receipts| - 1]) + Times(last.quantity as real, last.unit)
  }

  /** The pool's unit cost after the receipts: each is averaged into what the pool showed before it. */
  function RunningUnit(receipts: seq<Receipt>): Decimal
    requires GoodReceipts(receipts)
  {
    if receipts == [] then 0.0
    else
      var before, last := receipts[..|receipts| - 1], receipts[|receipts| - 1];
      WeightedUnit(Quantity(before), RunningUnit(before), last.quantity, last.unit).value
  }

  lemma MeanBetween(a: real, x: Decimal, b: real, y: Decimal, lo: Decimal, hi: Decimal)
    requires a > 0.0 && b > 0.0 && lo <= x <= hi && lo <= y <= hi
    ensures lo <= (Times(a, x) + Times(b, y)) / (a + b) <= hi
  {
    TimesMonotone(lo, x, a);
    TimesMonotone(lo, y, b);
    TimesMonotone(x, hi, a);
    TimesMonotone(y, hi, b);
    TimesAdd(a, b, lo);
    TimesAdd(a, b, hi);
    var sum := Times(a, x) + Times(b, y);
    hide Times;
    QuotientBounds(sum, a + b, lo, hi);
  }

  lemma QuotientBounds(sum: real, d: real, lo: real, hi: real)
    requires d > 0.0 && Times(d, lo) <= sum <= Times(d, hi)
    ensures lo <= sum / d <= hi
    ensures Times(sum / d, d) == sum
  {
    TimesOver(sum, d);
    TimesSwap(d, lo);
    TimesSwap(d, hi);
    hide Times;
    if sum / d < lo {
      TimesStrict(sum / d, lo, d);
    }
    if hi < sum / d {
      TimesStrict(hi, sum / d, d);
    }
  }

  /** The running cost never leaves the range of the unit costs seen, whatever rounding does on the way. */
  lemma {:induction false} RunningWithinRange(receipts: seq<Receipt>, lo: Decimal, hi: Decimal)
    requires GoodReceipts(receipts) && receipts != [] && OnGrid(lo) && OnGrid(hi)
    requires forall i :: 0 <= i < |receipts| ==> lo <= receipts[i].unit <= hi
    ensures lo <= RunningUnit(receipts) <= hi
  {
    var before, last := receipts[..|receipts| - 1], receipts[|receipts| - 1];
    QuantizeFixes(lo);
    QuantizeFixes(hi);
    hide Quantize, OnGrid, Times;
    if before == [] {
      QuantizeMonotone(lo, last.unit);
      QuantizeMonotone(last.unit, hi);
    } else {
      RunningWithinRange(before, lo, hi);
      var held := Quantity(before);
      MeanBetween(held as real, RunningUnit(before), last.quantity as real, last.unit, lo, hi);
      assert (held + last.quantity) as real == held as real + last.quantity as real;
      var mean := (Times(held as real, RunningUnit(before)) + Times(last.quantity as real, last.unit))
                  / (held + last.quantity) as real;
      QuantizeMonotone(lo, mean);
      QuantizeMonotone(mean, hi);
    }
  }

  /** How far the pool's value at the running cost is from what was paid. */
  function Drift(receipts: seq<Receipt>): Decimal
    requires GoodReceipts(receipts)
  {
    Times(Quantity(receipts) as real, RunningUnit(receipts)) - Value(receipts)
  }

  /** k half micro-units on each of q pieces. */
  function DriftBound(q: int, k: int): Decimal {
    Times(q as real, Times(k as real, HALF_MICRO))
  }

  /** After k receipts the running cost is off the exact weighted mean by at most (k - 1) / 2 micro-units:
      on the whole pool, by that much per piece. */
  lemma {:induction false} DriftBounded(receipts: seq<Receipt>)
    requires GoodReceipts(receipts) && receipts != []
    ensures -DriftBound(Quantity(receipts), |receipts| - 1) <= Drift(receipts)
         <= DriftBound(Quantity(receipts), |receipts| - 1)
  {
    var before, last := receipts[..|receipts| - 1], receipts[|receipts| - 1];
    if before == [] {
      QuantizeFixes(last.unit);
      assert Quantity(before) == 0 && Value(before) == 0.0;
      hide Quantize, OnGrid;
    } else {
      DriftBounded(before);
      hide Quantize, OnGrid, Times;
      var q, n := Quantity(before), last.quantity;
      DriftStep(q, RunningUnit(before), n, last.unit, Value(before), |before| - 1);
    }
  }

  lemma DriftStep(q: int, unit: Decimal, n: int, newUnit: Decimal, value: Decimal, k: nat)
    requires q > 0 && n > 0
    requires -DriftBound(q, k) <= Times(q as real, unit) - value <= DriftBound(q, k)
    ensures
      var next := WeightedUnit(q, unit, n, newUnit).value;
      var drift := Times((q + n) as real, next) - (value + Times(n as real, newUnit));
      -DriftBound(q + n, k + 1) <= drift <= DriftBound(q + n, k + 1)
  {
    var qr, nr, total := q as real, n as real, (q + n) as real;
    assert total == qr + nr;
    var paid := Times(qr, unit) + Times(nr, newUnit);
    var mean := paid / total;
    var next := Quantize(mean);
    QuantizeNear(mean);
    TimesOver(paid, total);
    TimesSwap(mean, total);
    TimesSwap(next, total);
    TimesAdd(next, mean, total);
    TimesSwap(next - mean, total);
    hide Quantize, OnGrid, Times;
    TimesMonotone(next - mean, HALF_MICRO, total);
    TimesMonotone(-HALF_MICRO, next - mean, total);
    NegateTimes(total, HALF_MICRO);
    var half := Times(k as real, HALF_MICRO);
    TimesSign(k as real, HALF_MICRO);
    TimesMonotone(qr, total, half);
    assert (k + 1) as real == k as real + 1.0;
    TimesAdd(k as real, 1.0, HALF_MICRO);
    TimesUnit(HALF_MICRO);
    TimesSwap(total, half + HALF_MICRO);
    TimesAdd(half, HALF_MICRO, total);
    TimesSwap(half, total);
    TimesSwap(HALF_MICRO, total);
  }

  lemma NegateTimes(x: real, y: real)
    ensures Times(x, -y) == -Times(x, y) && Times(-y, x) == -Times(y, x)
  {
  }

  lemma NearFromDrift(q: real, unit: Decimal, value: Decimal, bound: Decimal)
    requires q > 0.0 && -Times(q, bound) <= Times(q, unit) - value <= Times(q, bound)
    ensures -bound <= unit - value / q <= bound
  {
    var mean := value / q;
    TimesOver(value, q);
    TimesSwap(mean, q);
    TimesSwap(unit, q);
    TimesAdd(unit, mean, q);
    TimesSwap(bound, q);
    NegateTimes(q, bound);
    hide Times;
    if unit - mean > bound {
      TimesStrict(bound, unit - mean, q);
    }
    if unit - mean < -bound {
      TimesStrict(unit - mean, -bound, q);
    }
  }

  function ExactMean(receipts: seq<Receipt>): Decimal
    requires GoodReceipts(receipts) && receipts != []
  {
    Value(receipts) / Quantity(receipts) as real
  }

  /** The same as a distance between unit costs. */
  lemma RunningNearMean(receipts: seq<Receipt>)
    requires GoodReceipts(receipts) && receipts != []
    ensures
      var off := RunningUnit(receipts) - ExactMean(receipts);
      var bound := Times((|receipts| - 1) as real, HALF_MICRO);
      -bound <= off <= bound
  {
    DriftBounded(receipts);
    hide Times, RunningUnit, Value, Quantity;
    NearFromDrift(Quantity(receipts) as real, RunningUnit(receipts), Value(receipts),
                  Times((|receipts| - 1) as real, HALF_MICRO));
  }
}
