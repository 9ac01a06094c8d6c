/** The order in which fee and tax rows are stored does not matter. */
module RuleOrder {
  import opened Options
  import opened Decimals
  import opened Sequences
  import opened LandedCost

  // ---- Tax rows

  /** Two rows compete when both match with the longest pattern there is. */
  ghost predicate Best(taxes: seq<TaxFact>, taxType: TaxType, hsCode: string, row: TaxFact) {
    && row in taxes && row.taxType == taxType && Matching(hsCode)(row)
    && forall other :: other in taxes && other.taxType == taxType && Matching(hsCode)(other)
         ==> |other.pattern| <= |row.pattern|
  }

  ghost predicate BestAgree(taxes: seq<TaxFact>, taxType: TaxType, hsCode: string) {
    forall a, b :: Best(taxes, taxType, hsCode, a) && Best(taxes, taxType, hsCode, b) ==> a == b
  }

  /** One row per type and pattern, as the rule table keeps within a version. */
  ghost predicate UniquePatterns(taxes: seq<TaxFact>) {
    forall a, b :: a in taxes && b in taxes && a.taxType == b.taxType && a.pattern == b.pattern ==> a == b
  }

  /** Two prefixes of one code that are equally long are the same, so unique patterns leave no competition. */
  lemma UniqueMeansAgree(taxes: seq<TaxFact>, taxType: TaxType, hsCode: string)
    requires UniquePatterns(taxes)
    ensures BestAgree(taxes, taxType, hsCode)
  {
    forall a, b | Best(taxes, taxType, hsCode, a) && Best(taxes, taxType, hsCode, b)
      ensures a == b
    {
      assert |a.pattern| == |b.pattern|;
      assert a.pattern == hsCode[..|a.pattern|] == b.pattern;
    }
  }

  lemma {:induction false} LongestIsLongest(rows: seq<TaxFact>)
    requires rows != []
    ensures Longest(rows) in rows
    ensures forall i :: 0 <= i < |rows| ==> |rows[i].pattern| <= |Longest(rows).pattern|
    ensures (forall i :: 0 <= i < |rows| ==> |rows[i].pattern| <= |rows[0].pattern|) ==> Longest(rows) == rows[0]
  {
    if |rows| > 1 {
      LongestIsLongest(rows[..|rows| - 1]);
    }
  }

  /** The rows of one type that match one code. */
  function Specific(taxes: seq<TaxFact>, taxType: TaxType, hsCode: string): seq<TaxFact> {
    Filter(Filter(taxes, OfType(taxType)), Matching(hsCode))
  }

  lemma SpecificRows(taxes: seq<TaxFact>, taxType: TaxType, hsCode: string, row: TaxFact)
    ensures row in Specific(taxes, taxType, hsCode)
       <==> row in taxes && row.taxType == taxType && Matching(hsCode)(row)
  {
    FilterMember(Filter(taxes, OfType(taxType)), Matching(hsCode), row);
    FilterMember(taxes, OfType(taxType), row);
  }

  lemma PickedIsBest(taxes: seq<TaxFact>, taxType: TaxType, hsCode: string)
    requires Specific(taxes, taxType, hsCode) != []
    ensures PickTax(taxes, taxType, hsCode).Some? && Best(taxes, taxType, hsCode, PickTax(taxes, taxType, hsCode).value)
  {
    var rows := Specific(taxes, taxType, hsCode);
    LongestIsLongest(rows);
    var picked := Longest(rows);
    SpecificRows(taxes, taxType, hsCode, picked);
    forall other | other in taxes && other.taxType == taxType && Matching(hsCode)(other)
      ensures |other.pattern| <= |picked.pattern|
    {
      SpecificRows(taxes, taxType, hsCode, other);
      var i :| 0 <= i < |rows| && rows[i] == other;
    }
  }

  lemma SameBest(taxes: seq<TaxFact>, shuffled: seq<TaxFact>, taxType: TaxType, hsCode: string, row: TaxFact)
    requires multiset(taxes) == multiset(shuffled)
    ensures Best(taxes, taxType, hsCode, row) <==> Best(shuffled, taxType, hsCode, row)
  {
    ReorderedSize(taxes, shuffled);
  }

  lemma PickTaxReordered(taxes: seq<TaxFact>, shuffled: seq<TaxFact>, taxType: TaxType, hsCode: string)
    requires multiset(taxes) == multiset(shuffled) && BestAgree(taxes, taxType, hsCode)
    ensures PickTax(taxes, taxType, hsCode) == PickTax(shuffled, taxType, hsCode)
  {
    FilterReordered(taxes, shuffled, OfType(taxType));
    var rows, others := Filter(taxes, OfType(taxType)), Filter(shuffled, OfType(taxType));
    FilterReordered(rows, others, Matching(hsCode));
    FilterReordered(rows, others, CatchAll());
    ReorderedSize(Filter(rows, Matching(hsCode)), Filter(others, Matching(hsCode)));
    ReorderedSize(Filter(rows, CatchAll()), Filter(others, CatchAll()));
    if Specific(taxes, taxType, hsCode) != [] {
      PickedIsBest(taxes, taxType, hsCode);
      PickedIsBest(shuffled, taxType, hsCode);
      SameBest(taxes, shuffled, taxType, hsCode, PickTax(shuffled, taxType, hsCode).value);
    }
  }

  ghost predicate OrderFree(taxes: seq<TaxFact>, taxType: TaxType, hsCode: string) {
    forall shuffled :: multiset(shuffled) == multiset(taxes) ==>
      PickTax(shuffled, taxType, hsCode) == PickTax(taxes, taxType, hsCode)
  }

  /** The picked tax row is independent of the rows' order if and only if the longest matching rows do not
      differ; an ambiguous catch-all is a gap in every order. */
  lemma TaxOrderFreeWhen(taxes: seq<TaxFact>, taxType: TaxType, hsCode: string)
    ensures OrderFree(taxes, taxType, hsCode) <==> BestAgree(taxes, taxType, hsCode)
  {
    if BestAgree(taxes, taxType, hsCode) {
      forall shuffled | multiset(shuffled) == multiset(taxes)
        ensures PickTax(shuffled, taxType, hsCode) == PickTax(taxes, taxType, hsCode)
      {
        PickTaxReordered(taxes, shuffled, taxType, hsCode);
      }
    } else {
      var a, b :| Best(taxes, taxType, hsCode, a) && Best(taxes, taxType, hsCode, b) && a != b;
      var withA := BestFirst(taxes, taxType, hsCode, a);
      var withB := BestFirst(taxes, taxType, hsCode, b);
    }
  }

  /** Some order of the rows picks any given best row. */
  lemma BestFirst(taxes: seq<TaxFact>, taxType: TaxType, hsCode: string, row: TaxFact) returns (shuffled: seq<TaxFact>)
    requires Best(taxes, taxType, hsCode, row)
    ensures multiset(shuffled) == multiset(taxes)
    ensures PickTax(shuffled, taxType, hsCode) == Some(row)
  {
    var i :| 0 <= i < |taxes| && taxes[i] == row;
    var rest := taxes[..i] + taxes[i + 1..];
    WithoutAt(taxes, i);
    shuffled := [row] + rest;
    assert shuffled[1..] == rest;
    assert multiset(shuffled) == multiset(taxes);
    SameBest(taxes, shuffled, taxType, hsCode, row);
    var rows := Specific(shuffled, taxType, hsCode);
    assert Filter(shuffled, OfType(taxType)) == [row] + Filter(rest, OfType(taxType));
    assert ([row] + Filter(rest, OfType(taxType)))[1..] == Filter(rest, OfType(taxType));
    assert rows == [row] + Filter(Filter(rest, OfType(taxType)), Matching(hsCode));
    forall j | 0 <= j < |rows|
      ensures |rows[j].pattern| <= |rows[0].pattern|
    {
      SpecificRows(shuffled, taxType, hsCode, rows[j]);
    }
    LongestIsLongest(rows);
  }

  // ---- Fee rows

  lemma {:induction false} LabelsOnce(rows: seq<FeeFact>, s: string)
    ensures multiset(FeeLabels(rows))[s] == if exists r :: r in rows && r.feeLabel == s then 1 else 0
  {
    if rows != [] {
      LabelsOnce(rows[1..], s);
      assert s in FeeLabels(rows[1..]) <==> multiset(FeeLabels(rows[1..]))[s] > 0;
      if exists r :: r in rows && r.feeLabel == s {
        var r :| r in rows && r.feeLabel == s;
        assert r == rows[0] || r in rows[1..];
      }
      assert rows[0] in rows && forall r :: r in rows[1..] ==> r in rows;
    }
  }

  lemma LabelsReordered(rows: seq<FeeFact>, shuffled: seq<FeeFact>)
    requires multiset(rows) == multiset(shuffled)
    ensures Sorted(LexLeq, FeeLabels(rows)) == Sorted(LexLeq, FeeLabels(shuffled))
  {
    ReorderedSize(rows, shuffled);
    var a, b := multiset(FeeLabels(rows)), multiset(FeeLabels(shuffled));
    forall s: string
      ensures a[s] == b[s]
    {
      LabelsOnce(rows, s);
      LabelsOnce(shuffled, s);
    }
    assert a == b;
    LexPreorder();
    var labels := FeeLabels(rows);
    forall i, j | 0 <= i < |labels| && 0 <= j < |labels| && LexLeq(labels[i], labels[j]) && LexLeq(labels[j], labels[i])
      ensures labels[i] == labels[j]
    {
      LexTotal(labels[i], labels[j], labels[j]);
    }
    SortForgetsOrder(LexLeq, labels, FeeLabels(shuffled));
  }

  lemma PoolReordered(rows: seq<FeeFact>, shuffled: seq<FeeFact>, feeLabel: string, channel: string)
    requires multiset(rows) == multiset(shuffled)
    ensures multiset(Pool(rows, feeLabel, channel)) == multiset(Pool(shuffled, feeLabel, channel))
  {
    FilterReordered(rows, shuffled, At(feeLabel, channel));
    FilterReordered(rows, shuffled, At(feeLabel, "*"));
    ReorderedSize(Filter(rows, At(feeLabel, channel)), Filter(shuffled, At(feeLabel, channel)));
  }

  lemma {:induction false} PickForReordered(
    rows: seq<FeeFact>, shuffled: seq<FeeFact>, labels: seq<string>, channel: string)
    requires multiset(rows) == multiset(shuffled)
    ensures PickFor(rows, labels, channel) == PickFor(shuffled, labels, channel)
    decreases |labels|
  {
    if labels != [] {
      PoolReordered(rows, shuffled, labels[0], channel);
      ReorderedSize(Pool(rows, labels[0], channel), Pool(shuffled, labels[0], channel));
      hide Pool;
      PickForReordered(rows, shuffled, labels[1..], channel);
    }
  }

  /** Fee rows need no condition: the exact channel's rows beat the catch-all's, and a label with more than
      one row is an ambiguity in every order, never an arbitrary pick. */
  lemma PickFeesReordered(fees: seq<FeeFact>, shuffled: seq<FeeFact>, code: FeeCode, channel: string)
    requires multiset(fees) == multiset(shuffled)
    ensures PickFees(fees, code, channel) == PickFees(shuffled, code, channel)
  {
    FilterReordered(fees, shuffled, HasCode(code));
    var rows, others := Filter(fees, HasCode(code)), Filter(shuffled, HasCode(code));
    LabelsReordered(rows, others);
    PickForReordered(rows, others, Sorted(LexLeq, FeeLabels(rows)), channel);
  }

  // ---- Which fee rows are picked

  /** Row `i` competes for its label: it is the channel's own, or the catch-all's where the channel has none. */
  ghost predicate Competes(fees: seq<FeeFact>, code: FeeCode, channel: string, row: FeeFact) {
    && row in fees && row.feeCode == code
    && (row.channel == channel
        || (row.channel == "*"
            && forall other :: other in fees && other.feeCode == code && other.feeLabel == row.feeLabel ==>
                 other.channel != channel))
  }

  lemma {:induction false} FilterTwice<T>(s: seq<T>, p: T -> bool, q: T -> bool, r: T -> bool)
    requires forall x :: r(x) <==> p(x) && q(x)
    ensures Filter(Filter(s, p), q) == Filter(s, r)
  {
    if s != [] {
      FilterTwice(s[1..], p, q, r);
      FilterHead(s, p);
      FilterHead(s, r);
      FilterAppend(if p(s[0]) then [s[0]] else [], Filter(s[1..], p), q);
    }
  }

  /** More than one element passes exactly when two positions do. */
  lemma {:induction false} FilterTwo<T>(s: seq<T>, p: T -> bool)
    ensures |Filter(s, p)| > 1 <==> exists i, j :: 0 <= i < j < |s| && p(s[i]) && p(s[j])
  {
    if s != [] {
      FilterHead(s, p);
      FilterTwo(s[1..], p);
      if exists i, j :: 0 <= i < j < |s[1..]| && p(s[1..][i]) && p(s[1..][j]) {
        var i, j :| 0 <= i < j < |s[1..]| && p(s[1..][i]) && p(s[1..][j]);
        assert p(s[i + 1]) && p(s[j + 1]);
      }
      if p(s[0]) && Filter(s[1..], p) != [] {
        FilterMember(s[1..], p, Filter(s[1..], p)[0]);
        var j :| 0 <= j < |s[1..]| && s[1..][j] == Filter(s[1..], p)[0];
        assert p(s[0]) && p(s[j + 1]);
      }
      if exists i, j :: 0 <= i < j < |s| && p(s[i]) && p(s[j]) {
        var i, j :| 0 <= i < j < |s| && p(s[i]) && p(s[j]);
        FilterMember(s[1..], p, s[j]);
        assert s[1..][j - 1] == s[j];
        assert i > 0 ==> s[1..][i - 1] == s[i];
      }
    }
  }

  /** A label's pool holds exactly its competing rows, and more than one exactly when two stored rows compete. */
  lemma PoolOfLabel(fees: seq<FeeFact>, code: FeeCode, channel: string, feeLabel: string)
    ensures
      var pool := Pool(Filter(fees, HasCode(code)), feeLabel, channel);
      && (forall row :: row in pool <==> Competes(fees, code, channel, row) && row.feeLabel == feeLabel)
      && (|pool| > 1 <==>
            exists i, j :: 0 <= i < j < |fees| && fees[i].feeLabel == fees[j].feeLabel == feeLabel
              && Competes(fees, code, channel, fees[i]) && Competes(fees, code, channel, fees[j]))
  {
    var rows := Filter(fees, HasCode(code));
    var exact := Filter(rows, At(feeLabel, channel));
    forall x
      ensures x in rows <==> x in fees && x.feeCode == code
      ensures x in exact <==> x in fees && x.feeCode == code && x.feeLabel == feeLabel && x.channel == channel
      ensures x in Filter(rows, At(feeLabel, "*"))
         <==> x in fees && x.feeCode == code && x.feeLabel == feeLabel && x.channel == "*"
    {
      FilterMember(fees, HasCode(code), x);
      FilterMember(rows, At(feeLabel, channel), x);
      FilterMember(rows, At(feeLabel, "*"), x);
    }
    var used := if exact != [] then channel else "*";
    assert exact != [] ==> exact[0] in exact;
    var both := (row: FeeFact) => row.feeCode == code && row.feeLabel == feeLabel && row.channel == used;
    FilterTwice(fees, HasCode(code), At(feeLabel, used), both);
    FilterTwo(fees, both);
    hide Filter;
    forall i | 0 <= i < |fees|
      ensures both(fees[i]) <==> Competes(fees, code, channel, fees[i]) && fees[i].feeLabel == feeLabel
    {
      assert fees[i] in fees;
    }
  }

  ghost predicate OnePerLabel(rows: seq<FeeFact>, labels: seq<string>, channel: string, chosen: seq<FeeFact>) {
    && (forall row :: row in chosen <==> row.feeLabel in labels && Pool(rows, row.feeLabel, channel) == [row])
    && (forall i, j :: 0 <= i < j < |chosen| ==> chosen[i].feeLabel != chosen[j].feeLabel)
  }

  lemma PoolKeepsLabel(rows: seq<FeeFact>, feeLabel: string, channel: string)
    ensures forall row :: row in Pool(rows, feeLabel, channel) ==> row.feeLabel == feeLabel
  {
    forall row | row in Pool(rows, feeLabel, channel)
      ensures row.feeLabel == feeLabel
    {
      FilterMember(rows, At(feeLabel, channel), row);
      FilterMember(rows, At(feeLabel, "*"), row);
    }
  }

  lemma {:induction false} PickForChooses(rows: seq<FeeFact>, labels: seq<string>, channel: string)
    requires Distinct(labels)
    ensures PickFor(rows, labels, channel).None? <==>
              exists i :: 0 <= i < |labels| && |Pool(rows, labels[i], channel)| > 1
    ensures PickFor(rows, labels, channel).Some? ==>
              OnePerLabel(rows, labels, channel, PickFor(rows, labels, channel).value)
    decreases |labels|
  {
    hide Pool;
    if labels != [] {
      var rest := labels[1..];
      PickForChooses(rows, rest, channel);
      PoolKeepsLabel(rows, labels[0], channel);
      assert labels == [labels[0]] + rest;
      assert labels[0] !in rest;
      assert (exists i :: 0 <= i < |labels| && |Pool(rows, labels[i], channel)| > 1)
        <==> |Pool(rows, labels[0], channel)| > 1 || exists i :: 0 <= i < |rest| && |Pool(rows, rest[i], channel)| > 1
      by {
        assert forall i :: 0 <= i < |rest| ==> rest[i] == labels[i + 1];
        if exists i :: 0 <= i < |rest| && |Pool(rows, rest[i], channel)| > 1 {
          var i :| 0 <= i < |rest| && |Pool(rows, rest[i], channel)| > 1;
          assert |Pool(rows, labels[i + 1], channel)| > 1;
        }
      }
      PickForStep(rows, labels, channel);
    }
  }

  lemma PickForStep(rows: seq<FeeFact>, labels: seq<string>, channel: string)
    requires labels != [] && labels[0] !in labels[1..]
    requires forall row :: row in Pool(rows, labels[0], channel) ==> row.feeLabel == labels[0]
    requires PickFor(rows, labels[1..], channel).Some? ==>
               OnePerLabel(rows, labels[1..], channel, PickFor(rows, labels[1..], channel).value)
    ensures PickFor(rows, labels, channel).Some? ==>
              OnePerLabel(rows, labels, channel, PickFor(rows, labels, channel).value)
  {
    hide Pool;
    assert labels == [labels[0]] + labels[1..];
    var pool, chosen := Pool(rows, labels[0], channel), PickFor(rows, labels, channel);
    if chosen.Some? {
      var rest := PickFor(rows, labels[1..], channel).value;
      forall row
        ensures row in chosen.value <==> row.feeLabel in labels && Pool(rows, row.feeLabel, channel) == [row]
      {
        if pool != [] {
          assert pool == [pool[0]] && pool[0] in pool;
          assert chosen.value == [pool[0]] + rest;
        }
      }
      assert forall i :: 0 <= i < |rest| ==> rest[i] in rest;
    }
  }

  /** The picked fee rows, outright: nothing when two stored rows compete for one label; otherwise exactly the
      competing rows, one per label - the channel's own row wherever there is one. */
  lemma PickFeesChooses(fees: seq<FeeFact>, code: FeeCode, channel: string)
    ensures
      var picked := PickFees(fees, code, channel);
      && (picked.None? <==>
            exists i, j :: 0 <= i < j < |fees| && fees[i].feeLabel == fees[j].feeLabel
              && Competes(fees, code, channel, fees[i]) && Competes(fees, code, channel, fees[j]))
      && (picked.Some? ==>
            && (forall row :: row in picked.value <==> Competes(fees, code, channel, row))
            && (forall i, j :: 0 <= i < j < |picked.value| ==> picked.value[i].feeLabel != picked.value[j].feeLabel))
  {
    var rows := Filter(fees, HasCode(code));
    var labels := Sorted(LexLeq, FeeLabels(rows));
    LabelsDistinct(rows);
    PickForChooses(rows, labels, channel);
    forall row | Competes(fees, code, channel, row)
      ensures row.feeLabel in labels
    {
      FilterMember(fees, HasCode(code), row);
    }
    forall feeLabel: string
      ensures |Pool(rows, feeLabel, channel)| > 1 <==>
                exists i, j :: 0 <= i < j < |fees| && fees[i].feeLabel == fees[j].feeLabel == feeLabel
                  && Competes(fees, code, channel, fees[i]) && Competes(fees, code, channel, fees[j])
      ensures forall row :: row in Pool(rows, feeLabel, channel)
                <==> Competes(fees, code, channel, row) && row.feeLabel == feeLabel
    {
      PoolOfLabel(fees, code, channel, feeLabel);
    }
    hide Pool, Filter, FeeLabels, Sorted, PickFor, Competes;
    var picked := PickFees(fees, code, channel);
    if picked.Some? {
      forall row
        ensures row in picked.value <==> Competes(fees, code, channel, row)
      {
        var pool := Pool(rows, row.feeLabel, channel);
        if Competes(fees, code, channel, row) {
          assert row in pool;
          var i :| 0 <= i < |labels| && labels[i] == row.feeLabel;
          assert |pool| <= 1;
        }
      }
    }
  }

  lemma LabelsDistinct(rows: seq<FeeFact>)
    ensures Distinct(Sorted(LexLeq, FeeLabels(rows)))
    ensures forall row :: row in rows ==> row.feeLabel in Sorted(LexLeq, FeeLabels(rows))
  {
    var labels := FeeLabels(rows);
    forall s: string
      ensures multiset(labels)[s] <= 1
      ensures s in labels <==> exists r :: r in rows && r.feeLabel == s
    {
      LabelsOnce(rows, s);
      assert s in labels <==> multiset(labels)[s] > 0;
    }
    DistinctCounts(labels);
    SortedKeepsAll(LexLeq, labels);
    DistinctReordered(labels, Sorted(LexLeq, labels));
  }

  // ---- The whole result

  lemma {:induction false} PickTaxesReordered(
    taxes: seq<TaxFact>, shuffled: seq<TaxFact>, types: seq<TaxType>, hsCode: string)
    requires multiset(taxes) == multiset(shuffled)
    requires forall t :: BestAgree(taxes, t, hsCode)
    ensures PickTaxes(taxes, types, hsCode) == PickTaxes(shuffled, types, hsCode)
    decreases |types|
  {
    if types != [] {
      PickTaxReordered(taxes, shuffled, types[0], hsCode);
      hide PickTax, BestAgree;
      PickTaxesReordered(taxes, shuffled, types[1..], hsCode);
    }
  }

  lemma PickAllReordered(fees: seq<FeeFact>, shuffled: seq<FeeFact>, channel: string)
    requires multiset(fees) == multiset(shuffled)
    ensures forall code :: PickFees(fees, code, channel) == PickFees(shuffled, code, channel)
  {
    forall code
      ensures PickFees(fees, code, channel) == PickFees(shuffled, code, channel)
    {
      PickFeesReordered(fees, shuffled, code, channel);
    }
  }

  lemma OnlyReordered(fees: seq<FeeFact>, shuffled: seq<FeeFact>, channel: string)
    requires forall code :: PickFees(fees, code, channel) == PickFees(shuffled, code, channel)
    ensures forall code :: OnlyFee(fees, code, channel) == OnlyFee(shuffled, code, channel)
  {
    forall code
      ensures OnlyFee(fees, code, channel) == OnlyFee(shuffled, code, channel)
    {
      assert PickFees(fees, code, channel) == PickFees(shuffled, code, channel);
    }
  }

  /** Both tables give the same answers to every question the engine asks of them. */
  ghost predicate SameAnswers(
    data: LandedCostInput, taxes: seq<TaxFact>, otherTaxes: seq<TaxFact>, fees: seq<FeeFact>, otherFees: seq<FeeFact>)
  {
    && PickTax(taxes, DUTY_TAX, data.hsCode) == PickTax(otherTaxes, DUTY_TAX, data.hsCode)
    && PickTaxes(taxes, IMPORT_TAX_TYPES, data.hsCode) == PickTaxes(otherTaxes, IMPORT_TAX_TYPES, data.hsCode)
    && PickFees(fees, BrokerageFee, data.channel) == PickFees(otherFees, BrokerageFee, data.channel)
    && (forall code :: OnlyFee(fees, code, data.channel) == OnlyFee(otherFees, code, data.channel))
  }

  lemma SameLines(
    data: LandedCostInput, taxes: seq<TaxFact>, otherTaxes: seq<TaxFact>, fees: seq<FeeFact>, otherFees: seq<FeeFact>,
    purchase: CostLine, duty: CostLine, parts: seq<CostLine>)
    requires SameAnswers(data, taxes, otherTaxes, fees, otherFees)
    ensures
      var c := data.sellingCurrency;
      && DutyLine(data, taxes, c) == DutyLine(data, otherTaxes, c)
      && ImportTaxLine(data, taxes, c, duty) == ImportTaxLine(data, otherTaxes, c, duty)
      && BrokerageLine(data, fees, c) == BrokerageLine(data, otherFees, c)
      && StorageLine(data, fees, c) == StorageLine(data, otherFees, c)
      && FirstMileLine(data, fees, c, purchase) == FirstMileLine(data, otherFees, c, purchase)
      && FxReserveLine(fees, data.channel, c, parts) == FxReserveLine(otherFees, data.channel, c, parts)
      && PriceLines(data.sellingPrice, fees, data.channel, c) == PriceLines(data.sellingPrice, otherFees, data.channel, c)
  {
    hide PickTax, PickTaxes, PickFees, OnlyFee, Times, Quantize, Total, Priced, ImportTaxTotal, FixedTotal;
  }

  lemma SameLandedLines(
    data: LandedCostInput, taxes: seq<TaxFact>, otherTaxes: seq<TaxFact>, fees: seq<FeeFact>, otherFees: seq<FeeFact>,
    off: set<LineCode>)
    requires SameAnswers(data, taxes, otherTaxes, fees, otherFees)
    ensures LandedLines(data, taxes, fees, off) == LandedLines(data, otherTaxes, otherFees, off)
    ensures Deductions(data, fees, off) == Deductions(data, otherFees, off)
  {
    var c := data.sellingCurrency;
    var purchase := Gate(PurchaseLine(data, c), off, c);
    var duty := Gate(DutyLine(data, taxes, c), off, c);
    var importTax := Gate(ImportTaxLine(data, taxes, c, duty), off, c);
    var brokerage := Gate(BrokerageLine(data, fees, c), off, c);
    var storage := Gate(StorageLine(data, fees, c), off, c);
    var firstMile := Gate(FirstMileLine(data, fees, c, purchase), off, c);
    hide SameAnswers, PurchaseLine, DutyLine, ImportTaxLine, BrokerageLine, StorageLine, FirstMileLine, FxReserveLine,
         PriceLines, Gate;
    SameLines(data, taxes, otherTaxes, fees, otherFees, purchase, duty,
              [purchase, firstMile, duty, importTax, brokerage, storage]);
  }

  /** Permuting both rule tables never changes the result, given one row per tax type and pattern. */
  lemma ResultForgetsRuleOrder(
    data: LandedCostInput, taxes: seq<TaxFact>, otherTaxes: seq<TaxFact>, fees: seq<FeeFact>, otherFees: seq<FeeFact>,
    off: set<LineCode>)
    requires multiset(taxes) == multiset(otherTaxes) && multiset(fees) == multiset(otherFees)
    requires UniquePatterns(taxes)
    ensures ComputeLandedCost(data, taxes, fees, off) == ComputeLandedCost(data, otherTaxes, otherFees, off)
  {
    hide PickTax, PickTaxes, PickFees, OnlyFee, BestAgree, UniquePatterns, LandedLines, Deductions, Settle;
    forall t
      ensures BestAgree(taxes, t, data.hsCode)
    {
      UniqueMeansAgree(taxes, t, data.hsCode);
    }
    PickTaxReordered(taxes, otherTaxes, DUTY_TAX, data.hsCode);
    PickTaxesReordered(taxes, otherTaxes, IMPORT_TAX_TYPES, data.hsCode);
    PickAllReordered(fees, otherFees, data.channel);
    OnlyReordered(fees, otherFees, data.channel);
    SameLandedLines(data, taxes, otherTaxes, fees, otherFees, off);
  }
}
