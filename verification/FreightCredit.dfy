/** When a freight share can come out negative: exactly which bills, for every number of lines. */
module FreightCredit {
  import opened Decimals
  import opened Freight

  /** Bills, in micro-units, that no choice of n metrics can split with a negative share. */
  predicate SafeBill(n: nat, micros: int) {
    || n <= 3
    || micros < (if n == 4 then 2 else 3)
    || micros > (n - 1) * ((n - 2) / 2) - 1
  }

  function Bill(micros: int): Decimal {
    micros as real / SCALE
  }

  ghost predicate AllPositive(s: seq<real>) {
    forall i :: 0 <= i < |s| ==> s[i] > 0.0
  }

  ghost predicate NeverCredits(n: nat, micros: int) {
    forall metrics: seq<Decimal> :: |metrics| == n && metrics != [] && AllPositive(metrics) && Sum(metrics) > 0.0 ==>
      forall i :: 0 <= i < n ==> Shares(Bill(micros), metrics)[i] >= 0.0
  }

  // ---- Parts of the bill in micro-units

  /** The rounded parts added up, in whole micro-units. */
  function Rounds(parts: seq<real>): int {
    if parts == [] then 0 else Round(parts[0]) + Rounds(parts[1..])
  }

  lemma {:induction false} RoundsAppend(a: seq<real>, b: seq<real>)
    ensures Rounds(a + b) == Rounds(a) + Rounds(b)
  {
    hide Round;
    if a == [] {
      assert a + b == b;
    } else {
      assert (a + b)[1..] == a[1..] + b;
      RoundsAppend(a[1..], b);
    }
  }

  lemma PortionScales(micros: int, metric: Decimal, whole: Decimal)
    requires whole > 0.0
    ensures Portion(Bill(micros), metric, whole) * SCALE == Portion(micros as real, metric, whole)
  {
  }

  lemma {:induction false} RawIsRounds(micros: int, metrics: seq<Decimal>, whole: Decimal)
    requires whole > 0.0
    ensures Sum(RoundAll(Portions(Bill(micros), metrics, whole)))
         == Rounds(Portions(micros as real, metrics, whole)) as real / SCALE
  {
    hide Portion, Round, Bill;
    if metrics != [] {
      RawIsRounds(micros, metrics[1..], whole);
      PortionScales(micros, metrics[0], whole);
      var p, q := Portions(Bill(micros), metrics, whole), Portions(micros as real, metrics, whole);
      assert p[1..] == Portions(Bill(micros), metrics[1..], whole);
      assert q[1..] == Portions(micros as real, metrics[1..], whole);
      assert Quantize(p[0]) == Round(q[0]) as real / SCALE;
    }
  }

  lemma LeftOfBill(micros: int, rounds: int)
    ensures Quantize(Bill(micros) - rounds as real / SCALE) == (micros - rounds) as real / SCALE
  {
    GridFromInteger(micros - rounds);
    assert Bill(micros) - rounds as real / SCALE == (micros - rounds) as real / SCALE;
    hide Quantize, OnGrid, Bill;
    QuantizeFixes((micros - rounds) as real / SCALE);
  }

  /** The winner keeps what the other lines' rounded parts leave of the bill. */
  lemma WinnerKeepsTheRest(micros: int, metrics: seq<Decimal>)
    requires Billable(Bill(micros), metrics)
    ensures
      var parts := Portions(micros as real, metrics, Sum(metrics));
      var w := Winner(metrics);
      && |parts| == |metrics|
      && Shares(Bill(micros), metrics)[w] == (micros - (Rounds(parts) - Round(parts[w]))) as real / SCALE
  {
    hide Portion, Portions, RoundAll, Shares, Sum, Rounds, Round, Winner, Bill, OnGrid;
    var whole, w, total := Sum(metrics), Winner(metrics), Bill(micros);
    SharesShape(total, metrics);
    SizesKept(total, metrics, whole);
    SizesKept(micros as real, metrics, whole);
    RawIsRounds(micros, metrics, whole);
    PortionScales(micros, metrics[w], whole);
    LeftOfBill(micros, Rounds(Portions(micros as real, metrics, whole)));
  }

  // ---- Bounds on a bill that credits its winner

  /** The parts of all lines but the winner. */
  function Others(parts: seq<real>, w: nat): seq<real>
    requires w < |parts|
  {
    parts[..w] + parts[w + 1..]
  }

  lemma OnePart(x: real)
    ensures Rounds([x]) == Round(x) && Sum([x]) == x
  {
    assert [x][1..] == [];
  }

  lemma WithoutWinner(parts: seq<real>, w: nat)
    requires w < |parts|
    ensures Rounds(Others(parts, w)) == Rounds(parts) - Round(parts[w])
    ensures Sum(Others(parts, w)) == Sum(parts) - parts[w]
  {
    hide Rounds, Round, Sum;
    var left, right := parts[..w], parts[w + 1..];
    assert parts == left + ([parts[w]] + right);
    OnePart(parts[w]);
    RoundsAppend(left, [parts[w]] + right);
    RoundsAppend([parts[w]], right);
    RoundsAppend(left, right);
    SumAppend(left, [parts[w]] + right);
    SumAppend([parts[w]], right);
    SumAppend(left, right);
  }

  lemma {:induction false} GainsAtMostHalf(q: seq<real>)
    ensures Rounds(q) as real - Sum(q) <= |q| as real / 2.0
  {
    hide Round;
    if q != [] {
      GainsAtMostHalf(q[1..]);
      RoundNear(q[0]);
    }
  }

  lemma {:induction false} RoundsAtMost(q: seq<real>, top: real)
    requires forall i :: 0 <= i < |q| ==> q[i] <= top
    ensures Rounds(q) <= |q| * Round(top)
  {
    hide Round;
    if q != [] {
      RoundsAtMost(q[1..], top);
      RoundMonotone(q[0], top);
      assert |q| * Round(top) == Round(top) + |q[1..]| * Round(top);
    }
  }

  lemma RoundAtMostDouble(x: real)
    requires x > 0.0
    ensures Round(x) as real <= 2.0 * x
    ensures x <= 0.5 && Round(x) as real == 2.0 * x ==> Round(x) == 1
  {
  }

  /** Rounding at most doubles; where it doubles parts of at most one half, each of them became one. */
  lemma {:induction false} RoundsAtMostDouble(q: seq<real>)
    requires AllPositive(q)
    ensures Rounds(q) as real <= 2.0 * Sum(q)
    ensures (forall i :: 0 <= i < |q| ==> q[i] <= 0.5) && Rounds(q) as real == 2.0 * Sum(q) ==> Rounds(q) == |q|
  {
    hide Round;
    if q != [] {
      RoundsAtMostDouble(q[1..]);
      RoundAtMostDouble(q[0]);
    }
  }

  ghost predicate Split(parts: seq<real>, w: nat, micros: int) {
    && w < |parts| && micros >= 1 && AllPositive(parts)
    && Sum(parts) == micros as real
    && forall i :: 0 <= i < |parts| ==> parts[i] <= parts[w]
  }

  lemma OthersAreParts(parts: seq<real>, w: nat, micros: int)
    requires Split(parts, w, micros)
    ensures
      var q := Others(parts, w);
      |q| == |parts| - 1 && AllPositive(q) && forall i :: 0 <= i < |q| ==> q[i] <= parts[w]
  {
  }

  lemma RoundOfSmall(x: real, n: int)
    requires 0.0 < x <= n as real / 2.0 - 1.5
    ensures n >= 4 && 0 <= Round(x) <= (n - 2) / 2
  {
    assert x + 0.5 <= (n as real - 2.0) / 2.0;
    var k := Round(x);
    assert k as real <= x + 0.5;
    assert 2 * k <= n - 2;
  }

  lemma ProductGrows(a: int, b: int, c: int)
    requires 0 <= a && b <= c
    ensures a * b <= a * c
  {
  }

  /** Each of n - 1 parts gains at most a half, so the winner's part is small. */
  lemma WinnerPartIsSmall(parts: seq<real>, w: nat, micros: int)
    requires Split(parts, w, micros)
    requires Rounds(Others(parts, w)) >= micros + 1
    ensures 0.0 < parts[w] <= |parts| as real / 2.0 - 1.5
  {
    OthersAreParts(parts, w, micros);
    WithoutWinner(parts, w);
    GainsAtMostHalf(Others(parts, w));
    hide Round, Rounds, Sum, Others;
    assert (|parts| - 1) as real == |parts| as real - 1.0;
  }

  /** And with the winner's every rounded part. */
  lemma CreditIsSmall(parts: seq<real>, w: nat, micros: int)
    requires Split(parts, w, micros)
    requires Rounds(Others(parts, w)) >= micros + 1
    ensures |parts| >= 4 && micros <= (|parts| - 1) * ((|parts| - 2) / 2) - 1
  {
    var n, q := |parts|, Others(parts, w);
    OthersAreParts(parts, w, micros);
    WinnerPartIsSmall(parts, w, micros);
    RoundOfSmall(parts[w], n);
    RoundsAtMost(q, parts[w]);
    ProductGrows(n - 1, Round(parts[w]), (n - 2) / 2);
    hide Round, Rounds, Sum, Others;
  }

  lemma NoProduct(a: nat, b: int)
    ensures b <= 0 ==> a * b <= 0
  {
  }

  /** A bill of one cannot be overrun, and a bill of two only by four equal halves. */
  lemma CreditIsNotTiny(parts: seq<real>, w: nat, micros: int)
    requires Split(parts, w, micros)
    requires Rounds(Others(parts, w)) >= micros + 1
    ensures micros >= if |parts| == 4 then 2 else 3
  {
    var q := Others(parts, w);
    OthersAreParts(parts, w, micros);
    WithoutWinner(parts, w);
    RoundsAtMostDouble(q);
    RoundsAtMost(q, parts[w]);
    if micros == 2 {
      assert parts[w] <= 0.5;
      assert Round(parts[w]) >= 1 ==> parts[w] >= 0.5;
      NoProduct(|q|, Round(parts[w]));
      hide Round, Rounds, Sum, Others;
    }
  }

  /** No line is credited for a safe bill, whatever the metrics. */
  lemma SharesNonNegative(micros: int, metrics: seq<Decimal>, i: nat)
    requires Billable(Bill(micros), metrics) && SafeBill(|metrics|, micros) && i < |metrics|
    ensures Shares(Bill(micros), metrics)[i] >= 0.0
  {
    var whole, w, total := Sum(metrics), Winner(metrics), Bill(micros);
    var parts := Portions(micros as real, metrics, whole);
    if i == w {
      WinnerKeepsTheRest(micros, metrics);
      PartsSplit(micros, metrics);
      WithoutWinner(parts, w);
      hide Shares, Portions, Round, Rounds, Sum, Others, Winner;
      if Rounds(Others(parts, w)) >= micros + 1 {
        CreditIsSmall(parts, w, micros);
        CreditIsNotTiny(parts, w, micros);
      }
    } else {
      SharesShape(total, metrics);
      PortionMonotone(total, 0.0, metrics[i], whole);
      PortionAdds(total, 0.0, 0.0, whole);
      QuantizeMonotone(0.0, Portion(total, metrics[i], whole));
    }
  }

  lemma PartsSplit(micros: int, metrics: seq<Decimal>)
    requires Billable(Bill(micros), metrics)
    ensures Split(Portions(micros as real, metrics, Sum(metrics)), Winner(metrics), micros)
  {
    var whole, bill := Sum(metrics), micros as real;
    assert micros >= 1;
    SizesKept(bill, metrics, whole);
    PortionsSum(bill, metrics, whole);
    PortionAdds(bill, 0.0, 0.0, whole);
    WinnerIsLargest(metrics);
    hide Portion, Portions, Sum, Winner, Quantize;
    forall i | 0 <= i < |metrics|
      ensures Portion(bill, metrics[i], whole) > 0.0
      ensures Portion(bill, metrics[i], whole) <= Portion(bill, metrics[Winner(metrics)], whole)
    {
      PortionPositive(bill, metrics[i], whole);
      PortionMonotone(bill, metrics[i], metrics[Winner(metrics)], whole);
    }
  }

  lemma PortionPositive(total: real, metric: real, whole: real)
    requires total > 0.0 && metric > 0.0 && whole > 0.0
    ensures Portion(total, metric, whole) > 0.0
  {
  }

  // ---- A credit for every other bill

  /** `count` whole numbers from one to `most` that add up to `sum`. */
  function Spread(count: nat, sum: int, most: int): (r: seq<int>)
    requires count <= sum <= count * most && most >= 1
    ensures |r| == count && forall i :: 0 <= i < count ==> 1 <= r[i] <= most
  {
    if count == 0 then []
    else
      var head := if sum - (count - 1) < most then sum - (count - 1) else most;
      assert count * most == (count - 1) * most + most;
      [head] + Spread(count - 1, sum - head, most)
  }

  function SumInt(s: seq<int>): int {
    if s == [] then 0 else s[0] + SumInt(s[1..])
  }

  lemma {:induction false} SpreadAddsUp(count: nat, sum: int, most: int)
    requires count <= sum <= count * most && most >= 1
    ensures SumInt(Spread(count, sum, most)) == sum
  {
    if count > 0 {
      var head := if sum - (count - 1) < most then sum - (count - 1) else most;
      assert count * most == (count - 1) * most + most;
      SpreadAddsUp(count - 1, sum - head, most);
    }
  }

  /** The part that rounds up to `r` and gains a half, in units of which `scale` make one micro-unit. */
  function HalfBelow(r: seq<int>, scale: int): seq<Decimal> {
    if r == [] then [] else [(scale * (2 * r[0] - 1)) as real] + HalfBelow(r[1..], scale)
  }

  lemma {:induction false} HalfBelowFacts(r: seq<int>, scale: int, most: int)
    requires scale >= 1 && forall i :: 0 <= i < |r| ==> 1 <= r[i] <= most
    ensures |HalfBelow(r, scale)| == |r|
    ensures Sum(HalfBelow(r, scale)) == (scale * (2 * SumInt(r) - |r|)) as real
    ensures forall i :: 0 <= i < |r| ==> 0.0 < HalfBelow(r, scale)[i] <= (scale * (2 * most - 1)) as real
  {
    if r != [] {
      HalfBelowFacts(r[1..], scale, most);
      var x := 2 * r[0] - 1;
      assert scale * (2 * SumInt(r) - |r|) == scale * x + scale * (2 * SumInt(r[1..]) - |r[1..]|);
      ProductGrows(scale, x, 2 * most - 1);
      ProductGrows(scale, 1, x);
    }
  }

  /** When the metrics add up to `unit` per micro-unit of the bill, each metric is that many units. */
  lemma PortionByUnit(micros: int, unit: int, metric: Decimal)
    requires micros >= 1 && unit >= 1
    ensures (unit * micros) as real > 0.0
    ensures Portion(micros as real, metric, (unit * micros) as real) == metric / unit as real
  {
    assert (unit * micros) as real == unit as real * micros as real;
    assert unit * micros > 0;
  }

  lemma HalfBelowRounds(r: int, scale: int)
    requires scale >= 1 && r >= 1
    ensures Round((scale * (2 * r - 1)) as real / (2 * scale) as real) == r
  {
    HalfIs(r, scale);
  }

  lemma HalfIs(r: int, scale: int)
    requires scale >= 1
    ensures (scale * (2 * r - 1)) as real / (2 * scale) as real == r as real - 0.5
  {
    var x := (2 * r - 1) as real;
    assert (scale * (2 * r - 1)) as real == scale as real * x;
    assert (2 * scale) as real == 2.0 * scale as real;
    Cancels(x, scale as real);
    assert x / 2.0 == r as real - 0.5;
  }

  lemma Cancels(x: real, s: real)
    requires s > 0.0
    ensures s * x / (2.0 * s) == x / 2.0
  {
    var y := 2.0 * s;
    assert s * x == x / 2.0 * y;
    assert x / 2.0 * y / y == x / 2.0;
  }

  lemma {:induction false} HalvesRoundUp(r: seq<int>, scale: int, micros: int)
    requires scale >= 1 && micros >= 1 && forall i :: 0 <= i < |r| ==> r[i] >= 1
    requires (2 * scale * micros) as real > 0.0
    ensures Rounds(Portions(micros as real, HalfBelow(r, scale), (2 * scale * micros) as real)) == SumInt(r)
  {
    hide Portion, Round;
    if r != [] {
      HalvesRoundUp(r[1..], scale, micros);
      PortionByUnit(micros, 2 * scale, HalfBelow(r, scale)[0]);
      HalfBelowRounds(r[0], scale);
      var parts := Portions(micros as real, HalfBelow(r, scale), (2 * scale * micros) as real);
      assert parts[1..] == Portions(micros as real, HalfBelow(r[1..], scale), (2 * scale * micros) as real);
    }
  }

  function Ones(count: nat): seq<Decimal> {
    if count == 0 then [] else [1.0] + Ones(count - 1)
  }

  lemma {:induction false} OnesFacts(count: nat)
    ensures |Ones(count)| == count && Sum(Ones(count)) == count as real
    ensures forall i :: 0 <= i < count ==> Ones(count)[i] == 1.0
  {
    if count > 0 {
      OnesFacts(count - 1);
    }
  }

  lemma {:induction false} RoundsOfPositive(parts: seq<real>)
    requires AllPositive(parts)
    ensures Rounds(parts) >= 0
  {
    if parts != [] {
      RoundsOfPositive(parts[1..]);
    }
  }

  lemma WinnerIsFirst(metrics: seq<Decimal>)
    requires metrics != [] && forall i :: 0 <= i < |metrics| ==> metrics[i] <= metrics[0]
    ensures Winner(metrics) == 0
  {
    WinnerIsLargest(metrics);
    hide Winner;
  }

  /** A first line with the largest metric whose fellows' rounded parts overrun the bill is credited. */
  lemma FirstIsCredited(micros: int, metrics: seq<Decimal>)
    requires micros >= 1 && Billable(Bill(micros), metrics)
    requires forall i :: 0 <= i < |metrics| ==> metrics[i] <= metrics[0]
    requires Rounds(Portions(micros as real, metrics[1..], Sum(metrics))) >= micros + 1
    ensures Shares(Bill(micros), metrics)[0] < 0.0
  {
    WinnerIsFirst(metrics);
    WinnerKeepsTheRest(micros, metrics);
    var parts := Portions(micros as real, metrics, Sum(metrics));
    assert parts[1..] == Portions(micros as real, metrics[1..], Sum(metrics));
    hide Shares, Portions, Round, Sum, Winner;
  }

  /** For bills from n - 2 up to the bound: n - 1 parts that each gain a half, and the winner takes (n - 3) / 2. */
  lemma LargerBillsCredit(n: nat, micros: int) returns (metrics: seq<Decimal>)
    requires n >= 4 && n - 2 <= micros <= (n - 1) * ((n - 2) / 2) - 1
    ensures |metrics| == n && Billable(Bill(micros), metrics)
    ensures Shares(Bill(micros), metrics)[0] < 0.0
  {
    var most := (n - 2) / 2;
    var r := Spread(n - 1, micros + 1, most);
    SpreadAddsUp(n - 1, micros + 1, most);
    HalfBelowFacts(r, 1, most);
    var rest := HalfBelow(r, 1);
    metrics := [(n - 3) as real] + rest;
    hide Spread, HalfBelow, SumInt;
    assert metrics[1..] == rest;
    assert Sum(metrics) == (n - 3) as real + Sum(rest);
    assert Sum(metrics) == (2 * micros) as real;
    HalvesRoundUp(r, 1, micros);
    hide Sum, Rounds, Portions, Shares;
    FirstIsCredited(micros, metrics);
  }

  /** One line more than the bill, each with a half of a micro-unit in units of a 4s-th. */
  lemma ManyHalves(s: int, micros: int) returns (halves: seq<Decimal>)
    requires s >= 1 && micros >= 3
    ensures |halves| == micros + 1 && Sum(halves) == (2 * s * (micros + 1)) as real
    ensures forall i :: 0 <= i < |halves| ==> 0.0 < halves[i] <= (2 * s) as real
    ensures (2 * (2 * s) * micros) as real > 0.0
    ensures Rounds(Portions(micros as real, halves, (2 * (2 * s) * micros) as real)) == micros + 1
  {
    var r := Spread(micros + 1, micros + 1, 1);
    SpreadAddsUp(micros + 1, micros + 1, 1);
    HalfBelowFacts(r, 2 * s, 1);
    halves := HalfBelow(r, 2 * s);
    hide Spread, SumInt, Rounds, Portions, Sum, HalfBelow;
    PortionByUnit(micros, 2 * (2 * s), 1.0);
    HalvesRoundUp(r, 2 * s, micros);
  }

  /** For bills from three to n - 3: one line more than the bill gets a half each, the winner a little less than
      the other half of the bill, and the remaining lines next to nothing. */
  lemma SmallerBillsCredit(n: nat, micros: int) returns (metrics: seq<Decimal>)
    requires 3 <= micros <= n - 3
    ensures |metrics| == n && Billable(Bill(micros), metrics)
    ensures Shares(Bill(micros), metrics)[0] < 0.0
  {
    var s := n - 2 - micros;
    var halves := ManyHalves(s, micros);
    var rest, top := halves + Ones(s), (s * (2 * micros - 3)) as real;
    OnesFacts(s);
    SumAppend(halves, Ones(s));
    FourTimes(s, micros);
    TailAddsNothing(micros, halves, Ones(s), (2 * (2 * s) * micros) as real);
    metrics := [top] + rest;
    assert metrics[1..] == rest;
    assert Sum(metrics) == top + Sum(rest);
    hide Sum, Rounds, Portions, Shares, Ones;
    assert Sum(metrics) == (2 * (2 * s) * micros) as real;
    FirstIsCredited(micros, metrics);
  }

  lemma FourTimes(s: int, micros: int)
    requires s >= 1 && micros >= 3
    ensures s * (2 * micros - 3) + 2 * s * (micros + 1) + s == 2 * (2 * s) * micros
    ensures 2 * s <= s * (2 * micros - 3)
  {
    ProductGrows(s, 2, 2 * micros - 3);
  }

  lemma TailAddsNothing(micros: int, head: seq<Decimal>, tail: seq<Decimal>, whole: Decimal)
    requires micros >= 1 && whole > 0.0 && AllPositive(tail)
    ensures Rounds(Portions(micros as real, head + tail, whole)) >= Rounds(Portions(micros as real, head, whole))
  {
    var bill := micros as real;
    PortionsAppend(bill, head, tail, whole);
    RoundsAppend(Portions(bill, head, whole), Portions(bill, tail, whole));
    SizesKept(bill, tail, whole);
    hide Portion, Portions, Rounds;
    forall i | 0 <= i < |tail|
      ensures Portion(bill, tail[i], whole) > 0.0
    {
      PortionPositive(bill, tail[i], whole);
    }
    RoundsOfPositive(Portions(bill, tail, whole));
  }

  lemma {:induction false} PortionsAppend(total: Decimal, a: seq<Decimal>, b: seq<Decimal>, whole: Decimal)
    requires whole > 0.0
    ensures Portions(total, a + b, whole) == Portions(total, a, whole) + Portions(total, b, whole)
  {
    hide Portion;
    if a == [] {
      assert a + b == b;
    } else {
      assert (a + b)[1..] == a[1..] + b;
      PortionsAppend(total, a[1..], b, whole);
    }
  }

  /** Every other bill credits some line for some metrics. */
  lemma UnsafeBillsCredit(n: nat, micros: int) returns (metrics: seq<Decimal>)
    requires micros >= 1 && !SafeBill(n, micros)
    ensures |metrics| == n && Billable(Bill(micros), metrics)
    ensures Shares(Bill(micros), metrics)[0] < 0.0
  {
    if micros >= n - 2 {
      metrics := LargerBillsCredit(n, micros);
    } else {
      metrics := SmallerBillsCredit(n, micros);
    }
  }

  /** A bill can be shared by n lines without ever crediting one, whatever their metrics, if and only if there are
      at most three lines, or it is below three micro-units (two for four lines), or it is at least
      (n - 1) * ((n - 2) div 2) micro-units. */
  lemma NeverCreditsWhen(n: nat, micros: int)
    requires n >= 1 && micros >= 1
    ensures NeverCredits(n, micros) <==> SafeBill(n, micros)
  {
    hide Shares, Sum, SafeBill;
    assert Bill(micros) > 0.0;
    if SafeBill(n, micros) {
      forall metrics: seq<Decimal>, i |
        |metrics| == n && metrics != [] && AllPositive(metrics) && Sum(metrics) > 0.0 && 0 <= i < n
        ensures Shares(Bill(micros), metrics)[i] >= 0.0
      {
        SharesNonNegative(micros, metrics, i);
      }
    } else {
      var metrics := UnsafeBillsCredit(n, micros);
      assert AllPositive(metrics);
    }
  }
}
