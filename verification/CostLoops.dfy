/** The cost lines that the engine builds up step by step. */
module CostLoops {
  import opened Options
  import opened Decimals
  import opened Sequences
  import opened LandedCost

  /** Collects one row per label; the first ambiguous label ends the search with nothing. */
  method ChooseFees(fees: seq<FeeFact>, code: FeeCode, channel: string) returns (r: Option<seq<FeeFact>>)
    ensures r == PickFees(fees, code, channel)
  {
    hide Sorted, FeeLabels, Pool;
    var rows := Filter(fees, HasCode(code));
    var labels := Sorted(LexLeq, FeeLabels(rows));
    var chosen: seq<FeeFact> := [];
    ghost var all := PickFor(rows, labels, channel);
    assert labels[0..] == labels && (all.Some? ==> [] + all.value == all.value);
    for i := 0 to |labels|
      invariant
        var rest := PickFor(rows, labels[i..], channel);
        PickFor(rows, labels, channel) == if rest.None? then None else Some(chosen + rest.value)
    {
      var pool := Pool(rows, labels[i], channel);
      assert labels[i..][1..] == labels[i + 1..];
      if pool == [] {
        continue;
      }
      if |pool| != 1 {
        return None;
      }
      ghost var rest := PickFor(rows, labels[i + 1..], channel);
      assert rest.Some? ==> chosen + ([pool[0]] + rest.value) == (chosen + [pool[0]]) + rest.value;
      chosen := chosen + [pool[0]];
    }
    assert chosen + [] == chosen;
    return Some(chosen);
  }

  /** Adds up the rounded tax of every rule that applies. */
  method SumImportTax(data: LandedCostInput, taxes: seq<TaxFact>, currency: string, duty: CostLine)
    returns (line: CostLine)
    ensures line == ImportTaxLine(data, taxes, currency, duty)
  {
    hide PickTaxes, TaxOf, BlockedByThreshold, Quantize;
    var facts := PickTaxes(taxes, IMPORT_TAX_TYPES, data.hsCode);
    if facts == [] || !Declared(data, currency) || !duty.complete || duty.amount.None? {
      return Gap(IMPORT_TAX, currency);
    }
    var declared, paid := data.declaredValue.value, duty.amount.value;
    var total := 0.0;
    for i := 0 to |facts|
      invariant
        var rest := ImportTaxTotal(facts[i..], declared, paid, currency);
        ImportTaxTotal(facts, declared, paid, currency) == if rest.None? then None else Some(total + rest.value)
    {
      assert facts[i..][1..] == facts[i + 1..];
      var blocked := BlockedByThreshold(declared, currency, facts[i]);
      if blocked.None? {
        return Gap(IMPORT_TAX, currency);
      }
      if blocked.value {
        continue;
      }
      total := total + TaxOf(facts[i], declared + paid);
    }
    return Priced(IMPORT_TAX, total, currency);
  }

  /** Adds up the fixed clearance fees, stopping at the first in another currency. */
  method SumBrokerage(data: LandedCostInput, fees: seq<FeeFact>, currency: string) returns (line: CostLine)
    ensures line == BrokerageLine(data, fees, currency)
  {
    hide PickFees, Quantize;
    var chosen := ChooseFees(fees, BrokerageFee, data.channel);
    if chosen.None? || chosen.value == [] || !AllFixed(chosen.value) {
      return Gap(BROKERAGE, currency);
    }
    var rows := chosen.value;
    var total := 0.0;
    for i := 0 to |rows|
      invariant FixedTotal(rows) == total + FixedTotal(rows[i..])
      invariant AllIn(rows[..i], currency)
    {
      assert rows[i..][1..] == rows[i + 1..];
      if rows[i].currency != Some(currency) {
        return Gap(BROKERAGE, currency);
      }
      total := total + Quantize(rows[i].amount);
    }
    assert rows[..|rows|] == rows;
    return Priced(BROKERAGE, total, currency);
  }
}
