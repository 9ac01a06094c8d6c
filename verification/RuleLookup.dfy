/** Which tax and fee row the engine uses, told from positions in the stored tables. */
module RuleLookup {
  import opened Options
  import opened Sequences
  import opened LandedCost
  import opened RuleOrder

  // ---- Tax rows

  /** Row `i` is of the type and its pattern, other than the catch-all, is a prefix of the code. */
  ghost predicate Applies(taxes: seq<TaxFact>, taxType: TaxType, hsCode: string, i: int) {
    && 0 <= i < |taxes| && taxes[i].taxType == taxType && taxes[i].pattern != "*"
    && |taxes[i].pattern| <= |hsCode| && hsCode[..|taxes[i].pattern|] == taxes[i].pattern
  }

  /** Row `i` is the first of the longest that apply. */
  ghost predicate FirstLongest(taxes: seq<TaxFact>, taxType: TaxType, hsCode: string, i: int) {
    && Applies(taxes, taxType, hsCode, i)
    && forall j :: Applies(taxes, taxType, hsCode, j) ==>
         if j < i then |taxes[j].pattern| < |taxes[i].pattern| else |taxes[j].pattern| <= |taxes[i].pattern|
  }

  ghost predicate CatchAllAt(taxes: seq<TaxFact>, taxType: TaxType, i: int) {
    0 <= i < |taxes| && taxes[i].taxType == taxType && taxes[i].pattern == "*"
  }

  ghost predicate OnlyCatchAll(taxes: seq<TaxFact>, taxType: TaxType, i: int) {
    CatchAllAt(taxes, taxType, i) && forall j :: CatchAllAt(taxes, taxType, j) ==> j == i
  }

  /** The rule for a code: the first of the longest rows that apply; where none applies, the only catch-all. */
  ghost function TaxRule(taxes: seq<TaxFact>, taxType: TaxType, hsCode: string): Option<TaxFact> {
    if exists i :: FirstLongest(taxes, taxType, hsCode, i) then
      var i :| FirstLongest(taxes, taxType, hsCode, i);
      FirstLongestUnique(taxes, taxType, hsCode);
      Some(taxes[i])
    else if exists i :: OnlyCatchAll(taxes, taxType, i) then
      var i :| OnlyCatchAll(taxes, taxType, i);
      Some(taxes[i])
    else None
  }

  lemma FirstLongestUnique(taxes: seq<TaxFact>, taxType: TaxType, hsCode: string)
    ensures forall i, j :: FirstLongest(taxes, taxType, hsCode, i) && FirstLongest(taxes, taxType, hsCode, j) ==> i == j
  {
  }

  lemma SpecificStep(init: seq<TaxFact>, last: TaxFact, taxType: TaxType, hsCode: string)
    ensures Specific(init + [last], taxType, hsCode)
            == Specific(init, taxType, hsCode)
               + if last.taxType == taxType && last.pattern != "*" && last.pattern <= hsCode then [last] else []
  {
    FilterAppend(init, [last], OfType(taxType));
    FilterAppend(Filter(init, OfType(taxType)), Filter([last], OfType(taxType)), Matching(hsCode));
  }

  /** The choice among the earlier rows stays unless the last one applies and is longer. */
  lemma FirstLongestStep(init: seq<TaxFact>, last: TaxFact, taxType: TaxType, hsCode: string)
    ensures
      var taxes, n := init + [last], |init|;
      && (Applies(taxes, taxType, hsCode, n)
          <==> last.taxType == taxType && last.pattern != "*" && last.pattern <= hsCode)
      && (forall i :: Applies(init, taxType, hsCode, i) <==> i != n && Applies(taxes, taxType, hsCode, i))
      && (forall i :: FirstLongest(init, taxType, hsCode, i) ==>
            FirstLongest(taxes, taxType, hsCode,
                         if Applies(taxes, taxType, hsCode, n) && |last.pattern| > |init[i].pattern| then n else i))
  {
    var taxes := init + [last];
    forall i
      ensures Applies(init, taxType, hsCode, i) <==> i != |init| && Applies(taxes, taxType, hsCode, i)
    {
      assert 0 <= i < |init| ==> taxes[i] == init[i];
    }
  }

  lemma SpecificWhen(taxes: seq<TaxFact>, taxType: TaxType, hsCode: string)
    ensures Specific(taxes, taxType, hsCode) != [] <==> exists i :: Applies(taxes, taxType, hsCode, i)
  {
    var rows := Specific(taxes, taxType, hsCode);
    if rows != [] {
      SpecificRows(taxes, taxType, hsCode, rows[0]);
      var i :| 0 <= i < |taxes| && taxes[i] == rows[0];
      assert Applies(taxes, taxType, hsCode, i);
    }
    if exists i :: Applies(taxes, taxType, hsCode, i) {
      var i :| Applies(taxes, taxType, hsCode, i);
      SpecificRows(taxes, taxType, hsCode, taxes[i]);
    }
  }

  lemma {:induction false} LongestIsFirst(taxes: seq<TaxFact>, taxType: TaxType, hsCode: string) returns (i: int)
    requires Specific(taxes, taxType, hsCode) != []
    ensures FirstLongest(taxes, taxType, hsCode, i) && taxes[i] == Longest(Specific(taxes, taxType, hsCode))
    decreases |taxes|
  {
    assert taxes != [];
    var n := |taxes| - 1;
    var init, last := taxes[..n], taxes[n];
    assert taxes == init + [last];
    SpecificStep(init, last, taxType, hsCode);
    FirstLongestStep(init, last, taxType, hsCode);
    SpecificWhen(init, taxType, hsCode);
    hide Specific, Applies, Longest;
    var earlier := Specific(init, taxType, hsCode);
    if earlier != [] {
      i := LongestIsFirst(init, taxType, hsCode);
      LongestStep(earlier, last);
      assert earlier + [] == earlier;
      i := if Applies(taxes, taxType, hsCode, n) && |last.pattern| > |init[i].pattern| then n else i;
    } else {
      i := n;
      OnlyLongest(last);
      assert [] + [last] == [last];
      assert FirstLongest(taxes, taxType, hsCode, n);
    }
  }

  lemma OnlyLongest(row: TaxFact)
    ensures Longest([row]) == row
  {
  }

  lemma LongestStep(rows: seq<TaxFact>, last: TaxFact)
    requires rows != []
    ensures Longest(rows + [last]) == if |last.pattern| > |Longest(rows).pattern| then last else Longest(rows)
  {
    assert (rows + [last])[..|rows|] == rows;
  }

  lemma OnlyCatchAllIs(taxes: seq<TaxFact>, taxType: TaxType)
    ensures
      var wild := Filter(Filter(taxes, OfType(taxType)), CatchAll());
      && (|wild| == 1 <==> exists i :: OnlyCatchAll(taxes, taxType, i))
      && (forall i :: |wild| == 1 && OnlyCatchAll(taxes, taxType, i) ==> taxes[i] == wild[0])
  {
    var both := (row: TaxFact) => row.taxType == taxType && row.pattern == "*";
    var wild := Filter(taxes, both);
    FilterTwice(taxes, OfType(taxType), CatchAll(), both);
    FilterTwo(taxes, both);
    assert forall i :: 0 <= i < |taxes| ==> (both(taxes[i]) <==> CatchAllAt(taxes, taxType, i));
    forall row
      ensures row in wild <==> row in taxes && both(row)
    {
      FilterMember(taxes, both, row);
    }
    hide Filter;
    if |wild| == 1 {
      assert wild[0] in wild;
      var i :| 0 <= i < |taxes| && taxes[i] == wild[0];
      assert both(taxes[i]);
      forall j | CatchAllAt(taxes, taxType, j)
        ensures j == i
      {
        assert both(taxes[j]);
      }
      assert OnlyCatchAll(taxes, taxType, i);
    }
    if exists i :: OnlyCatchAll(taxes, taxType, i) {
      var i :| OnlyCatchAll(taxes, taxType, i);
      assert taxes[i] in wild;
    }
  }

  /** The picked tax row is the rule for the code, told by position: the first of the longest rows that apply, or
      else the only catch-all row of the type, or none. */
  lemma PickTaxIsRule(taxes: seq<TaxFact>, taxType: TaxType, hsCode: string)
    ensures PickTax(taxes, taxType, hsCode) == TaxRule(taxes, taxType, hsCode)
  {
    SpecificWhen(taxes, taxType, hsCode);
    OnlyCatchAllIs(taxes, taxType);
    FirstLongestUnique(taxes, taxType, hsCode);
    if Specific(taxes, taxType, hsCode) != [] {
      var i := LongestIsFirst(taxes, taxType, hsCode);
    }
    hide Filter, Longest;
  }

  // ---- Fee rows

  /** Row `i` is the only stored row that competes, under whatever label. */
  ghost predicate SoleRow(fees: seq<FeeFact>, code: FeeCode, channel: string, i: int) {
    && 0 <= i < |fees| && Competes(fees, code, channel, fees[i])
    && forall j :: 0 <= j < |fees| && Competes(fees, code, channel, fees[j]) ==> j == i
  }

  ghost function FeeRule(fees: seq<FeeFact>, code: FeeCode, channel: string): Option<FeeFact> {
    if exists i :: SoleRow(fees, code, channel, i) then
      var i :| SoleRow(fees, code, channel, i);
      Some(fees[i])
    else None
  }

  lemma CompetingIsStored(fees: seq<FeeFact>, code: FeeCode, channel: string)
    ensures forall row :: Competes(fees, code, channel, row) ==> row in fees
  {
  }

  /** A fee that takes one row has it exactly when one stored row competes: the channel's own, or the catch-all
      channel's under a label for which the channel has none. */
  lemma OnlyFeeIsRule(fees: seq<FeeFact>, code: FeeCode, channel: string)
    ensures OnlyFee(fees, code, channel) == FeeRule(fees, code, channel)
  {
    PickFeesChooses(fees, code, channel);
    hide PickFees, Competes;
    var picked := PickFees(fees, code, channel);
    assert forall row :: Competes(fees, code, channel, row) ==> row in fees by {
      CompetingIsStored(fees, code, channel);
    }
    if picked.Some? && |picked.value| == 1 {
      var row := picked.value[0];
      assert row in picked.value;
      var i :| 0 <= i < |fees| && fees[i] == row;
      forall j | 0 <= j < |fees| && Competes(fees, code, channel, fees[j])
        ensures j == i
      {
        assert fees[j] in picked.value;
        assert fees[j] == row;
      }
      assert SoleRow(fees, code, channel, i);
    }
    assert picked.Some? && |picked.value| > 1 ==> picked.value[0].feeLabel != picked.value[1].feeLabel;
    if exists i :: SoleRow(fees, code, channel, i) {
      var i :| SoleRow(fees, code, channel, i);
      assert picked.Some?;
      assert fees[i] in picked.value;
      forall k | 0 <= k < |picked.value|
        ensures picked.value[k] == fees[i]
      {
        assert picked.value[k] in picked.value;
        var j :| 0 <= j < |fees| && fees[j] == picked.value[k];
      }
    }
  }
}
