/** Fixed-point money. A `Decimal` is an exact number and `Quantize` is the only rounding:
    six digits, halves away from zero. */
module Decimals {

  type Decimal = real

  const SCALE: real := 1000000.0
  const MICRO: Decimal := 0.000001
  const HALF_MICRO: Decimal := 0.0000005

  /** Nearest integer, halves away from zero. */
  function Round(x: real): int {
    if x >= 0.0 then (x + 0.5).Floor else -((0.5 - x).Floor)
  }

  function Quantize(x: Decimal): Decimal {
    Round(x * SCALE) as real / SCALE
  }

  /** `x` has at most six fractional digits. */
  predicate OnGrid(x: Decimal) {
    (x * SCALE).Floor as real == x * SCALE
  }

  function Abs(x: real): real {
    if x >= 0.0 then x else -x
  }

  function Max(x: real, y: real): real {
    if x >= y then x else y
  }

  function Min(x: real, y: real): real {
    if x <= y then x else y
  }

  /** A product, named so that a proof can treat it as a symbol. */
  function Times(x: real, y: real): real {
    x * y
  }

  lemma TimesMonotone(x: real, y: real, z: real)
    requires x <= y && 0.0 <= z
    ensures Times(x, z) <= Times(y, z) && Times(z, x) <= Times(z, y)
  {
  }

  lemma TimesStrict(x: real, y: real, z: real)
    requires x < y && 0.0 < z
    ensures Times(x, z) < Times(y, z) && Times(z, x) < Times(z, y)
  {
  }

  lemma TimesSign(x: real, y: real)
    requires 0.0 <= y
    ensures 0.0 <= x ==> 0.0 <= Times(x, y)
    ensures x <= 0.0 ==> Times(x, y) <= 0.0
    ensures 0.0 < x && 0.0 < y ==> 0.0 < Times(x, y)
  {
  }

  lemma TimesAdd(x: real, y: real, z: real)
    ensures Times(x + y, z) == Times(x, z) + Times(y, z)
    ensures Times(x - y, z) == Times(x, z) - Times(y, z)
  {
  }

  lemma TimesUnit(x: real)
    ensures Times(0.0, x) == 0.0 && Times(1.0, x) == x
    ensures Times(x, 0.0) == 0.0 && Times(x, 1.0) == x
  {
  }

  lemma TimesSwap(x: real, y: real)
    ensures Times(x, y) == Times(y, x)
  {
  }

  lemma TimesOver(x: real, y: real)
    requires y != 0.0
    ensures Times(x / y, y) == x
  {
  }

  lemma RoundNear(x: real)
    ensures -0.5 <= Round(x) as real - x <= 0.5
  {
  }

  lemma RoundInteger(k: int)
    ensures Round(k as real) == k
  {
  }

  lemma RoundMonotone(x: real, y: real)
    requires x <= y
    ensures Round(x) <= Round(y)
  {
  }

  lemma GridFromInteger(k: int)
    ensures OnGrid(k as real / SCALE)
  {
    assert k as real / SCALE * SCALE == k as real;
  }

  lemma GridWhole(k: int)
    ensures OnGrid(k as real)
  {
    GridFromInteger(k * 1000000);
    assert (k * 1000000) as real / SCALE == k as real;
  }

  /** A grid value is an integer number of micro-units. */
  lemma GridInteger(x: Decimal) returns (k: int)
    requires OnGrid(x)
    ensures x == k as real / SCALE
  {
    k := (x * SCALE).Floor;
  }

  lemma QuantizeNear(x: Decimal)
    ensures -HALF_MICRO <= Quantize(x) - x <= HALF_MICRO
    ensures OnGrid(Quantize(x))
  {
    RoundNear(x * SCALE);
    GridFromInteger(Round(x * SCALE));
  }

  /** Rounding leaves a value alone exactly when it is on the grid. */
  lemma QuantizeFixes(x: Decimal)
    ensures Quantize(x) == x <==> OnGrid(x)
  {
    if OnGrid(x) {
      RoundInteger((x * SCALE).Floor);
    } else {
      QuantizeNear(x);
    }
  }

  /** The rounded value is the nearest on the grid, and of two equally near the one farther from zero. */
  lemma QuantizeRounds(x: Decimal)
    ensures OnGrid(Quantize(x)) && Abs(Quantize(x) - x) <= HALF_MICRO
    ensures Abs(Quantize(x) - x) == HALF_MICRO ==> Abs(Quantize(x)) > Abs(x)
  {
    QuantizeNear(x);
  }

  lemma QuantizeMonotone(x: Decimal, y: Decimal)
    requires x <= y
    ensures Quantize(x) <= Quantize(y)
  {
    RoundMonotone(x * SCALE, y * SCALE);
  }

  lemma GridAdd(x: Decimal, y: Decimal)
    requires OnGrid(x) && OnGrid(y)
    ensures OnGrid(x + y) && OnGrid(x - y) && OnGrid(-x)
  {
    var a := GridInteger(x);
    var b := GridInteger(y);
    GridFromInteger(a + b);
    GridFromInteger(a - b);
    GridFromInteger(-a);
  }

  lemma GridScale(x: Decimal, n: int)
    requires OnGrid(x)
    ensures OnGrid(x * n as real)
  {
    var a := GridInteger(x);
    assert x * n as real == (a * n) as real / SCALE by {
      assert (a * n) as real == a as real * n as real;
    }
    GridFromInteger(a * n);
  }

  /** Two different grid values are at least one micro-unit apart. */
  lemma GridGap(x: Decimal, y: Decimal)
    requires OnGrid(x) && OnGrid(y) && x < y
    ensures x + MICRO <= y
  {
    var a, b := (x * SCALE).Floor, (y * SCALE).Floor;
    assert a as real < b as real;
    assert a + 1 <= b;
    assert x * SCALE + 1.0 <= y * SCALE;
  }

  function Sum(s: seq<Decimal>): Decimal {
    if s == [] then 0.0 else s[0] + Sum(s[1..])
  }

  predicate AllOnGrid(s: seq<Decimal>) {
    forall i :: 0 <= i < |s| ==> OnGrid(s[i])
  }

  lemma {:induction false} SumAppend(s: seq<Decimal>, t: seq<Decimal>)
    ensures Sum(s + t) == Sum(s) + Sum(t)
  {
    if s == [] {
      assert s + t == t;
    } else {
      assert (s + t)[1..] == s[1..] + t;
      SumAppend(s[1..], t);
    }
  }

  lemma {:induction false} SumOnGrid(s: seq<Decimal>)
    requires AllOnGrid(s)
    ensures OnGrid(Sum(s))
  {
    if s == [] {
      GridFromInteger(0);
    } else {
      SumOnGrid(s[1..]);
      GridAdd(s[0], Sum(s[1..]));
    }
  }
}
