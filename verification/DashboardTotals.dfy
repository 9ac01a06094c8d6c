/** Summaries of the daily rows agree with each other and with the facts the rows were made from. */
module DashboardTotals {
  import opened Options
  import opened Decimals
  import opened Sequences
  import opened LandedCost
  import opened Grouping
  import opened Dashboard

  // ---- The three kinds of rollup agree

  /** A day's profit counts only when it is complete. */
  function CompleteNet(day: ShopDay): Option<Decimal> {
    if day.profitComplete then day.netProfit else None
  }

  function CompleteBookGmv(day: ShopDay): Option<Decimal> {
    if day.profitComplete then day.bookGmv else None
  }

  function CompleteBookNet(day: ShopDay): Option<Decimal> {
    if day.profitComplete then day.bookNetProfit else None
  }

  function DayOrdersPart(day: ShopDay): Option<Decimal> {
    Some(day.orderCount as real)
  }

  function OrdersPart<R>(figures: R -> Figures): R -> Option<Decimal> {
    (roll: R) => Some(figures(roll).orderCount as real)
  }

  function OrdersIn<R>(figures: R -> Figures): R -> int {
    (roll: R) => figures(roll).orderCount
  }

  function GmvIn<R>(figures: R -> Figures): R -> Option<Decimal> {
    (roll: R) => Some(figures(roll).gmv)
  }

  function NetIn<R>(figures: R -> Figures): R -> Option<Decimal> {
    (roll: R) => figures(roll).netProfit
  }

  function BookGmvIn<R>(figures: R -> Figures): R -> Option<Decimal> {
    (roll: R) => figures(roll).bookGmv
  }

  function BookNetIn<R>(figures: R -> Figures): R -> Option<Decimal> {
    (roll: R) => figures(roll).bookNetProfit
  }

  /** The rollups of one currency add up to that currency's days: orders, sales, profit and the two book figures,
      each missing exactly when some day's is. */
  ghost predicate AddsUp<R(!new)>(days: seq<ShopDay>, currency: string, mine: seq<R>, figures: R -> Figures) {
    var same := GroupOf(days, DayCurrency, currency);
    && CountOf(mine, OrdersIn(figures)) == CountOf(same, DayOrders)
    && OptionTotal(mine, GmvIn(figures)) == OptionTotal(same, DayGmv)
    && OptionTotal(mine, NetIn(figures)) == OptionTotal(same, CompleteNet)
    && OptionTotal(mine, BookGmvIn(figures)) == OptionTotal(same, CompleteBookGmv)
    && OptionTotal(mine, BookNetIn(figures)) == OptionTotal(same, CompleteBookNet)
  }

  lemma {:induction false} SameParts<T(!new)>(s: seq<T>, g: T -> Option<Decimal>, h: T -> Option<Decimal>)
    requires forall x :: x in s ==> g(x) == h(x)
    ensures OptionTotal(s, g) == OptionTotal(s, h)
  {
    SamePartsSum(s, g, h);
    forall i | 0 <= i < |s|
      ensures g(s[i]) == h(s[i])
    {
      assert s[i] in s;
    }
  }

  lemma {:induction false} SamePartsSum<T(!new)>(s: seq<T>, g: T -> Option<Decimal>, h: T -> Option<Decimal>)
    requires forall x :: x in s ==> g(x) == h(x)
    ensures Parts(s, g) == Parts(s, h)
  {
    if s != [] {
      assert s[0] in s;
      SamePartsSum(s[1..], g, h);
    }
  }

  /** A figure that is given only when every day is complete is the total of the complete days' parts. */
  lemma CompleteTotal(group: seq<ShopDay>, part: ShopDay -> Option<Decimal>, complete: ShopDay -> Option<Decimal>)
    requires forall day :: complete(day) == if day.profitComplete then part(day) else None
    ensures OptionTotal(group, complete) == if ProfitsComplete(group) then OptionTotal(group, part) else None
  {
    if ProfitsComplete(group) {
      forall x | x in group
        ensures complete(x) == part(x)
      {
        var i :| 0 <= i < |group| && group[i] == x;
      }
      SameParts(group, complete, part);
    } else {
      var i :| 0 <= i < |group| && !group[i].profitComplete;
      assert complete(group[i]).None?;
    }
  }

  /** The figures of a group, as totals of its days. */
  lemma FiguresAreTotals(group: seq<ShopDay>)
    ensures OptionTotal(group, DayOrdersPart) == Some(FiguresOf(group).orderCount as real)
    ensures OptionTotal(group, DayGmv) == Some(FiguresOf(group).gmv)
    ensures OptionTotal(group, CompleteNet) == FiguresOf(group).netProfit
    ensures OptionTotal(group, CompleteBookGmv) == FiguresOf(group).bookGmv
    ensures OptionTotal(group, CompleteBookNet) == FiguresOf(group).bookNetProfit
  {
    CountIsTotal(group, DayOrders, DayOrdersPart);
    CompleteTotal(group, DayNet, CompleteNet);
    CompleteTotal(group, DayBookGmv, CompleteBookGmv);
    CompleteTotal(group, DayBookNet, CompleteBookNet);
  }

  lemma {:induction false} KeysInOrder<K(!new)>(days: seq<ShopDay>, key: ShopDay -> K, leq: (K, K) -> bool)
    ensures
      var ks := Sorted(leq, Keys(days, key));
      Distinct(ks) && forall i :: 0 <= i < |days| ==> key(days[i]) in ks
  {
    KeysOnce(days, key);
    SortedKeepsAll(leq, Keys(days, key));
    hide Keys, Sorted;
    DistinctReordered(Keys(days, key), Sorted(leq, Keys(days, key)));
  }

  /** What the three kinds of rollup have in common: figures of a group, and one currency per key. */
  ghost predicate RollsFigures<K(!new), R(!new)>(
    key: ShopDay -> K, roll: (K, seq<ShopDay>) -> R, figures: R -> Figures, inRoll: R -> bool, currency: string)
  {
    && (forall k, group :: figures(roll(k, group)) == FiguresOf(group))
    && (forall day, group :: inRoll(roll(key(day), group)) == (DayCurrency(day) == currency))
  }

  lemma RollupsRolled<K(!new), R(!new)>(
    days: seq<ShopDay>, key: ShopDay -> K, leq: (K, K) -> bool, roll: (K, seq<ShopDay>) -> R, figures: R -> Figures,
    inRoll: R -> bool, currency: string, rollPart: R -> Option<Decimal>, rowPart: ShopDay -> Option<Decimal>)
    requires RollsFigures(key, roll, figures, inRoll, currency)
    requires forall k :: rollPart(roll(k, GroupOf(days, key, k))) == OptionTotal(GroupOf(days, key, k), rowPart)
    ensures Rolled(days, key, Sorted(leq, Keys(days, key)), Rollups(days, key, leq, roll), inRoll,
                   KeyIs(DayCurrency, currency), rollPart, rowPart)
  {
    hide FiguresOf, OptionTotal, Keys, Sorted;
    KeysInOrder(days, key, leq);
    var ks, rolls := Sorted(leq, Keys(days, key)), Rollups(days, key, leq, roll);
    forall i, j | 0 <= i < |days| && 0 <= j < |ks| && key(days[i]) == ks[j]
      ensures KeyIs(DayCurrency, currency)(days[i]) == inRoll(rolls[j])
    {
      assert rolls[j] == roll(key(days[i]), GroupOf(days, key, ks[j]));
    }
  }

  /** Sales and profits of the days have six decimals. */
  ghost predicate DaysOnGrid(days: seq<ShopDay>) {
    && PartsOnGrid(days, DayGmv) && PartsOnGrid(days, CompleteNet)
    && PartsOnGrid(days, CompleteBookGmv) && PartsOnGrid(days, CompleteBookNet)
  }

  lemma RollupTotal<K(!new), R(!new)>(
    days: seq<ShopDay>, key: ShopDay -> K, leq: (K, K) -> bool, roll: (K, seq<ShopDay>) -> R, figures: R -> Figures,
    inRoll: R -> bool, currency: string, rollPart: R -> Option<Decimal>, rowPart: ShopDay -> Option<Decimal>)
    requires RollsFigures(key, roll, figures, inRoll, currency) && PartsOnGrid(days, rowPart)
    requires forall k :: rollPart(roll(k, GroupOf(days, key, k))) == OptionTotal(GroupOf(days, key, k), rowPart)
    ensures OptionTotal(Filter(Rollups(days, key, leq, roll), inRoll), rollPart)
         == OptionTotal(GroupOf(days, DayCurrency, currency), rowPart)
  {
    RollupsRolled(days, key, leq, roll, figures, inRoll, currency, rollPart, rowPart);
    hide Rollups, FiguresOf, OnGrid, Keys, Sorted, Filter, Rolled, RollsFigures, OptionTotal;
    TotalsOfTotals(days, key, Sorted(leq, Keys(days, key)), Rollups(days, key, leq, roll), inRoll,
                   KeyIs(DayCurrency, currency), rollPart, rowPart);
  }

  lemma RollupsAddUp<K(!new), R(!new)>(
    days: seq<ShopDay>, key: ShopDay -> K, leq: (K, K) -> bool, roll: (K, seq<ShopDay>) -> R, figures: R -> Figures,
    inRoll: R -> bool, currency: string)
    requires RollsFigures(key, roll, figures, inRoll, currency)
    requires DaysOnGrid(days)
    ensures AddsUp(days, currency, Filter(Rollups(days, key, leq, roll), inRoll), figures)
  {
    var mine, same := Filter(Rollups(days, key, leq, roll), inRoll), GroupOf(days, DayCurrency, currency);
    forall k, group
      ensures OrdersPart(figures)(roll(k, group)) == OptionTotal(group, DayOrdersPart)
      ensures GmvIn(figures)(roll(k, group)) == OptionTotal(group, DayGmv)
      ensures NetIn(figures)(roll(k, group)) == OptionTotal(group, CompleteNet)
      ensures BookGmvIn(figures)(roll(k, group)) == OptionTotal(group, CompleteBookGmv)
      ensures BookNetIn(figures)(roll(k, group)) == OptionTotal(group, CompleteBookNet)
    {
      FiguresAreTotals(group);
    }
    CountsOnGrid(days);
    hide Rollups, FiguresOf, OnGrid, Quantize, Keys, Sorted, Filter, RollsFigures, PartsOnGrid, OptionTotal;
    RollupTotal(days, key, leq, roll, figures, inRoll, currency, OrdersPart(figures), DayOrdersPart);
    RollupTotal(days, key, leq, roll, figures, inRoll, currency, GmvIn(figures), DayGmv);
    RollupTotal(days, key, leq, roll, figures, inRoll, currency, NetIn(figures), CompleteNet);
    RollupTotal(days, key, leq, roll, figures, inRoll, currency, BookGmvIn(figures), CompleteBookGmv);
    RollupTotal(days, key, leq, roll, figures, inRoll, currency, BookNetIn(figures), CompleteBookNet);
    CountIsTotal(mine, OrdersIn(figures), OrdersPart(figures));
    CountIsTotal(same, DayOrders, DayOrdersPart);
  }

  lemma CountsOnGrid(days: seq<ShopDay>)
    ensures PartsOnGrid(days, DayOrdersPart)
  {
    hide OnGrid;
    forall i | 0 <= i < |days|
      ensures OnGrid(days[i].orderCount as real)
    {
      GridWhole(days[i].orderCount);
    }
  }

  function CurrencyFigures(roll: CurrencyRollup): Figures { roll.figures }
  function PlatformFigures(roll: PlatformRollup): Figures { roll.figures }
  function DateFigures(roll: DateRollup): Figures { roll.figures }
  function CurrencyOfCurrency(roll: CurrencyRollup): string { roll.key.currency }
  function CurrencyOfPlatform(roll: PlatformRollup): string { roll.key.currency }
  function CurrencyOfDate(roll: DateRollup): string { roll.key.currency }

  lemma CurrencyRollsFigures(currency: string)
    ensures RollsFigures(DayCurrencyKey, CurrencyRollupOf, CurrencyFigures, KeyIs(CurrencyOfCurrency, currency), currency)
  {
    hide FiguresOf, AdTotal;
    forall day, group
      ensures KeyIs(CurrencyOfCurrency, currency)(CurrencyRollupOf(DayCurrencyKey(day), group))
           == (DayCurrency(day) == currency)
    {
      assert CurrencyOfCurrency(CurrencyRollupOf(DayCurrencyKey(day), group)) == DayCurrency(day);
    }
  }

  lemma PlatformRollsFigures(currency: string)
    ensures RollsFigures(DayPlatformKey, PlatformRollupOf, PlatformFigures, KeyIs(CurrencyOfPlatform, currency), currency)
  {
    hide FiguresOf, FirstBook;
    forall day, group
      ensures KeyIs(CurrencyOfPlatform, currency)(PlatformRollupOf(DayPlatformKey(day), group))
           == (DayCurrency(day) == currency)
    {
      assert CurrencyOfPlatform(PlatformRollupOf(DayPlatformKey(day), group)) == DayCurrency(day);
    }
  }

  lemma DateRollsFigures(currency: string)
    ensures RollsFigures(DayDateKey, DateRollupOf, DateFigures, KeyIs(CurrencyOfDate, currency), currency)
  {
    hide FiguresOf, FirstBook;
    forall day, group
      ensures KeyIs(CurrencyOfDate, currency)(DateRollupOf(DayDateKey(day), group)) == (DayCurrency(day) == currency)
    {
      assert CurrencyOfDate(DateRollupOf(DayDateKey(day), group)) == DayCurrency(day);
    }
  }

  /** Per currency, the rollups by currency, by platform and by date all add up to the same days, and so to
      each other. */
  lemma RollupsAgree(days: seq<ShopDay>, currency: string)
    requires DaysOnGrid(days)
    ensures
      var byCurrency := Rollups(days, DayCurrencyKey, CurrencyKeyLeq, CurrencyRollupOf);
      AddsUp(days, currency, GroupOf(byCurrency, CurrencyOfCurrency, currency), CurrencyFigures)
    ensures
      var byPlatform := Rollups(days, DayPlatformKey, PlatformKeyLeq, PlatformRollupOf);
      AddsUp(days, currency, GroupOf(byPlatform, CurrencyOfPlatform, currency), PlatformFigures)
    ensures
      var byDate := Rollups(days, DayDateKey, DateKeyLeq, DateRollupOf);
      AddsUp(days, currency, GroupOf(byDate, CurrencyOfDate, currency), DateFigures)
  {
    hide FiguresOf, AddsUp, Rollups, Filter, RollsFigures, DaysOnGrid;
    CurrencyRollsFigures(currency);
    PlatformRollsFigures(currency);
    DateRollsFigures(currency);
    RollupsAddUp(days, DayCurrencyKey, CurrencyKeyLeq, CurrencyRollupOf, CurrencyFigures,
                 KeyIs(CurrencyOfCurrency, currency), currency);
    RollupsAddUp(days, DayPlatformKey, PlatformKeyLeq, PlatformRollupOf, PlatformFigures,
                 KeyIs(CurrencyOfPlatform, currency), currency);
    RollupsAddUp(days, DayDateKey, DateKeyLeq, DateRollupOf, DateFigures, KeyIs(CurrencyOfDate, currency), currency);
  }

  // ---- The book currency on a rollup

  /** Each group's label, its first day's book currency, is that of all its days. */
  ghost predicate LabelsRight<K(!new)>(days: seq<ShopDay>, key: ShopDay -> K) {
    forall i :: 0 <= i < |days| ==> days[i].bookCurrency == FirstBook(GroupOf(days, key, key(days[i])))
  }

  /** Days rolled up together have one book currency. */
  ghost predicate OneBookPerGroup<K(!new)>(days: seq<ShopDay>, key: ShopDay -> K) {
    forall i, j :: 0 <= i < |days| && 0 <= j < |days| && key(days[i]) == key(days[j]) ==>
      days[i].bookCurrency == days[j].bookCurrency
  }

  lemma LabelsRightWhen<K(!new)>(days: seq<ShopDay>, key: ShopDay -> K)
    ensures LabelsRight(days, key) <==> OneBookPerGroup(days, key)
  {
    hide FirstBook;
    if OneBookPerGroup(days, key) {
      forall i | 0 <= i < |days|
        ensures days[i].bookCurrency == FirstBook(GroupOf(days, key, key(days[i])))
      {
        FirstOfGroup(days, key, i);
      }
    }
  }

  lemma FirstOfGroup<K(!new)>(days: seq<ShopDay>, key: ShopDay -> K, i: nat)
    requires i < |days|
    ensures
      var group := GroupOf(days, key, key(days[i]));
      exists j :: 0 <= j < |days| && key(days[j]) == key(days[i]) && FirstBook(group) == days[j].bookCurrency
  {
    var k := key(days[i]);
    FilterMember(days, KeyIs(key, k), days[i]);
    var group := GroupOf(days, key, k);
    FilterMember(days, KeyIs(key, k), group[0]);
    var j :| 0 <= j < |days| && days[j] == group[0];
  }

  /** The label of a rollup by currency is part of its key and always right; those by platform and by date show their
      first day's book currency, which is right for all their days if and only if no two of these differ in it. */
  lemma BookLabels(days: seq<ShopDay>)
    ensures forall day :: DayCurrencyKey(day).bookCurrency == day.bookCurrency
    ensures forall k, group :: CurrencyRollupOf(k, group).key.bookCurrency == k.bookCurrency
    ensures forall k, group :: PlatformRollupOf(k, group).bookCurrency == FirstBook(group)
    ensures forall k, group :: DateRollupOf(k, group).bookCurrency == FirstBook(group)
    ensures LabelsRight(days, DayPlatformKey) <==> OneBookPerGroup(days, DayPlatformKey)
    ensures LabelsRight(days, DayDateKey) <==> OneBookPerGroup(days, DayDateKey)
  {
    LabelsRightWhen(days, DayPlatformKey);
    LabelsRightWhen(days, DayDateKey);
  }

  function SoldDay(shop: int, bookCurrency: string, bookGmv: Decimal): ShopDay {
    ShopDay(
      DayKey(shop, 0, "GBP"), "north", "x", bookCurrency, 1, 8.0, Some(bookGmv), Some(1.0), Some(1.0), true,
      1, 0, 0, None, None, 0, [])
  }

  /** Two shops of one platform, one kept in dollars and one in euros. */
  const MIXED_DAYS: seq<ShopDay> := [SoldDay(1, "USD", 10.0), SoldDay(2, "EUR", 20.0)]

  /** Their rollups add ten dollars and twenty euros and call it thirty dollars. */
  lemma MixedBooksAreAdded()
    ensures
      var key := PlatformKey("north", "x", "GBP");
      var roll := PlatformRollupOf(key, GroupOf(MIXED_DAYS, DayPlatformKey, key));
      roll.bookCurrency == "USD" && roll.figures.bookGmv == Some(30.0)
    ensures
      var key := DateKey(0, "north", "GBP");
      var roll := DateRollupOf(key, GroupOf(MIXED_DAYS, DayDateKey, key));
      roll.bookCurrency == "USD" && roll.figures.bookGmv == Some(30.0)
    ensures !LabelsRight(MIXED_DAYS, DayPlatformKey) && !LabelsRight(MIXED_DAYS, DayDateKey)
  {
    var days := MIXED_DAYS;
    var platform, date := PlatformKey("north", "x", "GBP"), DateKey(0, "north", "GBP");
    forall i | 0 <= i < |days|
      ensures KeyIs(DayPlatformKey, platform)(days[i]) && KeyIs(DayDateKey, date)(days[i])
    {
      assert DayPlatformKey(days[i]) == platform && DayDateKey(days[i]) == date;
    }
    FilterAll(days, KeyIs(DayPlatformKey, platform));
    FilterAll(days, KeyIs(DayDateKey, date));
    MixedTotal();
    hide FiguresOf, Filter;
    BookLabels(days);
    assert days[0].bookCurrency == "USD" && days[1].bookCurrency == "EUR" && "USD"[0] != "EUR"[0];
    assert DayPlatformKey(days[0]) == DayPlatformKey(days[1]) && DayDateKey(days[0]) == DayDateKey(days[1]);
  }

  lemma MixedTotal()
    ensures FiguresOf(MIXED_DAYS).bookGmv == Some(30.0) && FirstBook(MIXED_DAYS) == "USD"
  {
    var days := MIXED_DAYS;
    assert days[1..] == [days[1]] && days[1..][1..] == [];
    assert Parts(days[1..], DayBookGmv) == 20.0;
    assert Parts(days, DayBookGmv) == 30.0;
    GridWhole(30);
    QuantizeFixes(30.0);
    hide Quantize, OnGrid;
    assert AllSome(days, DayBookGmv) && ProfitsComplete(days);
  }

  // ---- Which days there are

  function DayKeyOf(day: ShopDay): DayKey {
    day.key
  }

  function KeyShown(facts: Facts): DayKey -> bool {
    (k: DayKey) => ShopOf(facts, k).Some?
  }

  lemma {:induction false} DaysAreShownKeys(facts: Facts, ks: seq<DayKey>)
    ensures Map(DaysFor(facts, ks), DayKeyOf) == Filter(ks, KeyShown(facts))
    ensures forall j :: 0 <= j < |DaysFor(facts, ks)| ==>
              DayFor(facts, DaysFor(facts, ks)[j].key) == Some(DaysFor(facts, ks)[j])
  {
    hide RowFor, LatestFor, ProfitFor, ShopOf;
    if ks != [] {
      var last := |ks| - 1;
      DaysAreShownKeys(facts, ks[..last]);
      assert ks == ks[..last] + [ks[last]];
      FilterAppend(ks[..last], [ks[last]], KeyShown(facts));
      RowKeepsKey(facts, ks[last]);
    }
  }

  lemma RowKeepsKey(facts: Facts, k: DayKey)
    ensures DayFor(facts, k).Some? <==> ShopOf(facts, k).Some?
    ensures DayFor(facts, k).Some? ==> DayFor(facts, k).value.key == k
  {
    hide LatestFor, ProfitFor, FoldedLines, Quantize;
  }

  lemma {:induction false} FilterDistinct<T(!new)>(s: seq<T>, p: T -> bool)
    requires Distinct(s)
    ensures Distinct(Filter(s, p))
  {
    if s != [] {
      FilterDistinct(s[1..], p);
      FilterHead(s, p);
      FilterMember(s[1..], p, s[0]);
      assert s[0] !in s[1..];
    }
  }

  ghost predicate DaysListed(facts: Facts, days: seq<ShopDay>) {
    && Distinct(Map(days, DayKeyOf))
    && (forall k :: k in Map(days, DayKeyOf) <==> k in MentionedKeys(facts) && ShopOf(facts, k).Some?)
    && (forall j :: 0 <= j < |days| ==> DayFor(facts, days[j].key) == Some(days[j]))
  }

  /** There is exactly one row per mentioned key whose shop can be told. */
  lemma DaysAreListed(facts: Facts)
    ensures DaysListed(facts, Days(facts))
  {
    hide DayFor, ShopOf, MentionedKeys, Filter;
    var mentioned := MentionedKeys(facts);
    var ks := DayKeys(facts);
    KeysOnce(mentioned, Itself);
    SortedKeepsAll(DayLeq, Keys(mentioned, Itself));
    hide Keys, Sorted;
    DistinctReordered(Keys(mentioned, Itself), ks);
    DaysAreShownKeys(facts, ks);
    FilterDistinct(ks, KeyShown(facts));
    forall k
      ensures k in Map(Days(facts), DayKeyOf) <==> k in mentioned && ShopOf(facts, k).Some?
    {
      FilterMember(ks, KeyShown(facts), k);
      if k in mentioned {
        var i :| 0 <= i < |mentioned| && mentioned[i] == k;
        assert Itself(mentioned[i]) in Keys(mentioned, Itself);
      }
    }
  }

  lemma {:induction false} MapMember<T(!new), U(!new)>(s: seq<T>, f: T -> U, x: T)
    requires x in s
    ensures f(x) in Map(s, f)
  {
    var i :| 0 <= i < |s| && s[i] == x;
    assert Map(s, f)[i] == f(x);
  }

  // ---- Cost lines agree with the raw profit rows

  predicate HasProfit(facts: Facts, day: ShopDay) {
    ProfitFor(facts.profits, day.key).Some?
  }

  /** The profit rows whose shop can be told; the others never reach the dashboard. */
  function RowShown(facts: Facts): ProfitRow -> bool {
    (row: ProfitRow) => ShopOf(facts, ProfitKey(row)).Some?
  }

  function RowCurrency(row: ProfitRow): string {
    row.currency
  }

  function RowAmount(code: LineCode): ProfitRow -> Option<Decimal> {
    (row: ProfitRow) => StoredAmount(row.lines, code)
  }

  function DayAmount(code: LineCode): ShopDay -> Option<Decimal> {
    (day: ShopDay) => StoredAmount(day.lines, code)
  }

  /** The shown rows of one currency. */
  function RawRows(facts: Facts, currency: string): seq<ProfitRow> {
    GroupOf(Filter(facts.profits, RowShown(facts)), RowCurrency, currency)
  }

  lemma StoredInFold(groups: seq<seq<LineTotal>>, code: LineCode)
    ensures StoredAmount(FoldedLines(groups), code) == if groups == [] then None else OptionTotal(groups, AmountAt(code))
  {
    var lines := FoldedLines(groups);
    var i := CodeIndex(code);
    hide FoldedLine;
    forall j | 0 <= j < i
      ensures lines[j].code != code
    {
      CodesDiffer(j, i);
      FoldedCode(groups, LINE_CODES[j]);
    }
    FoldedCode(groups, code);
    hide FoldedLines;
    StoredFirst(lines, i, code);
  }

  lemma FoldedCode(groups: seq<seq<LineTotal>>, code: LineCode)
    ensures
      var line := FoldedLine(groups, code);
      && line.code == code
      && line.amount == (if groups == [] then None else OptionTotal(groups, AmountAt(code)))
      && line.complete == line.amount.Some?
  {
  }

  lemma CodeIndex(code: LineCode) returns (i: nat)
    ensures i < |LINE_CODES| && LINE_CODES[i] == code
  {
    i := match code
      case PURCHASE => 0
      case FIRST_MILE => 1
      case DUTY => 2
      case IMPORT_TAX => 3
      case BROKERAGE => 4
      case STORAGE => 5
      case FX_RESERVE => 6
      case COMMISSION => 7
      case PAYMENT => 8
      case FULFILLMENT => 9
      case ADS => 10
      case RETURN => 11;
  }

  lemma {:induction false} StoredFirst(lines: seq<LineTotal>, i: nat, code: LineCode)
    requires i < |lines| && lines[i].code == code && forall j :: 0 <= j < i ==> lines[j].code != code
    ensures StoredAmount(lines, code) == if lines[i].complete then lines[i].amount else None
    decreases i
  {
    if i > 0 {
      StoredFirst(lines[1..], i - 1, code);
    }
  }

  /** What a day stores under a code is the total of its own profit rows. */
  lemma DayLineIsTotal(facts: Facts, day: ShopDay, code: LineCode)
    requires DayFor(facts, day.key) == Some(day)
    ensures
      StoredAmount(day.lines, code)
      == if HasProfit(facts, day) then OptionTotal(GroupOf(facts.profits, ProfitKey, day.key), RowAmount(code)) else None
  {
    var group := GroupOf(facts.profits, ProfitKey, day.key);
    DayLinesAre(facts, day);
    hide DayFor, GroupOf, OptionTotal, FoldedLines, StoredAmount;
    StoredInFold([], code);
    if group != [] {
      StoredInFold(Map(group, RowLines), code);
      TotalOfMap(group, RowLines, AmountAt(code), RowAmount(code));
    }
  }

  lemma DayLinesAre(facts: Facts, day: ShopDay)
    requires DayFor(facts, day.key) == Some(day)
    ensures
      var group := GroupOf(facts.profits, ProfitKey, day.key);
      && (HasProfit(facts, day) <==> group != [])
      && day.lines == if group == [] then FoldedLines([]) else FoldedLines(Map(group, RowLines))
  {
    hide GroupOf, LatestFor, FoldedLines, Quantize, MergedRow;
  }

  lemma {:induction false} FilterGroup<T(!new), K(!new)>(rows: seq<T>, p: T -> bool, key: T -> K, k: K)
    requires forall x :: x in rows && key(x) == k ==> p(x)
    ensures GroupOf(Filter(rows, p), key, k) == GroupOf(rows, key, k)
  {
    if rows != [] {
      FilterGroup(rows[1..], p, key, k);
      FilterHead(rows, p);
      FilterHead(rows, KeyIs(key, k));
      assert rows[0] in rows;
      FilterAppend(if p(rows[0]) then [rows[0]] else [], Filter(rows[1..], p), KeyIs(key, k));
    }
  }

  /** A day's own rows are all among the shown ones. */
  lemma ShownGroup(facts: Facts, day: ShopDay)
    requires DayFor(facts, day.key) == Some(day)
    ensures GroupOf(Filter(facts.profits, RowShown(facts)), ProfitKey, day.key)
         == GroupOf(facts.profits, ProfitKey, day.key)
  {
    RowKeepsKey(facts, day.key);
    hide DayFor, ShopOf;
    FilterGroup(facts.profits, RowShown(facts), ProfitKey, day.key);
  }

  /** The rows shown, keyed by day, against the days: the hypothesis shared by every per-currency total. */
  lemma ShownRowsHaveDays(facts: Facts)
    ensures
      var rows, ks := Filter(facts.profits, RowShown(facts)), Map(Days(facts), DayKeyOf);
      forall i :: 0 <= i < |rows| ==> ProfitKey(rows[i]) in ks
  {
    DaysAreListed(facts);
    var rows := Filter(facts.profits, RowShown(facts));
    hide Days, ShopOf, Filter;
    forall i | 0 <= i < |rows|
      ensures ProfitKey(rows[i]) in Map(Days(facts), DayKeyOf)
    {
      FilterMember(facts.profits, RowShown(facts), rows[i]);
      MapMember(facts.profits, ProfitKey, rows[i]);
    }
  }

  lemma DayIn(day: ShopDay, currency: string)
    ensures KeyIs(DayCurrency, currency)(day) <==> day.key.currency == currency
  {
    assert DayCurrency(day) == day.key.currency;
    if day.key.currency == currency {
      assert KeyIs(DayCurrency, currency)(day);
    }
  }

  lemma RowsRolled(
    facts: Facts, currency: string, dayPart: ShopDay -> Option<Decimal>, rowPart: ProfitRow -> Option<Decimal>)
    requires forall day :: day in Days(facts) && day.key.currency == currency ==>
               dayPart(day) == OptionTotal(GroupOf(facts.profits, ProfitKey, day.key), rowPart)
    ensures Rolled(Filter(facts.profits, RowShown(facts)), ProfitKey, Map(Days(facts), DayKeyOf), Days(facts),
                   KeyIs(DayCurrency, currency), KeyIs(RowCurrency, currency), dayPart, rowPart)
  {
    ShownRowsHaveDays(facts);
    DaysAreListed(facts);
    var days, rows := Days(facts), Filter(facts.profits, RowShown(facts));
    var ks := Map(days, DayKeyOf);
    hide Days, DayFor, MentionedKeys, ShopOf, Filter, OptionTotal, GroupOf, Map;
    forall i, j | 0 <= i < |rows| && 0 <= j < |ks| && ProfitKey(rows[i]) == ks[j]
      ensures KeyIs(RowCurrency, currency)(rows[i]) == KeyIs(DayCurrency, currency)(days[j])
    {
      assert ks[j] == DayKeyOf(days[j]) == days[j].key;
      assert KeyIs(RowCurrency, currency)(rows[i]) == (rows[i].currency == currency);
      DayIn(days[j], currency);
    }
    forall j | 0 <= j < |ks| && KeyIs(DayCurrency, currency)(days[j])
      ensures dayPart(days[j]) == OptionTotal(GroupOf(rows, ProfitKey, ks[j]), rowPart)
    {
      assert ks[j] == DayKeyOf(days[j]) == days[j].key;
      DayIn(days[j], currency);
      ShownGroup(facts, days[j]);
      assert days[j] in days;
    }
  }

  ghost predicate AllHaveProfit(facts: Facts, currency: string) {
    forall day :: day in Days(facts) && day.key.currency == currency ==> HasProfit(facts, day)
  }

  lemma LineAgrees(facts: Facts, currency: string, code: LineCode)
    requires AllHaveProfit(facts, currency)
    requires PartsOnGrid(facts.profits, RowAmount(code))
    ensures OptionTotal(GroupOf(Days(facts), DayCurrency, currency), DayAmount(code))
         == OptionTotal(RawRows(facts, currency), RowAmount(code))
  {
    DaysAreListed(facts);
    var rows := Filter(facts.profits, RowShown(facts));
    hide MentionedKeys, ShopOf, OptionTotal, OnGrid, StoredAmount, Days, DayFor, HasProfit, GroupOf;
    forall day | day in Days(facts) && day.key.currency == currency
      ensures DayAmount(code)(day) == OptionTotal(GroupOf(facts.profits, ProfitKey, day.key), RowAmount(code))
    {
      var j :| 0 <= j < |Days(facts)| && Days(facts)[j] == day;
      DayLineIsTotal(facts, day, code);
    }
    RowsRolled(facts, currency, DayAmount(code), RowAmount(code));
    ShownOnGrid(facts, RowAmount(code));
    hide Rolled;
    TotalsOfTotals(rows, ProfitKey, Map(Days(facts), DayKeyOf), Days(facts), KeyIs(DayCurrency, currency),
                   KeyIs(RowCurrency, currency), DayAmount(code), RowAmount(code));
    GroupIsFilter(Days(facts), DayCurrency, currency);
    GroupIsFilter(rows, RowCurrency, currency);
  }

  lemma GroupIsFilter<T, K>(rows: seq<T>, key: T -> K, k: K)
    ensures GroupOf(rows, key, k) == Filter(rows, KeyIs(key, k))
  {
  }

  lemma ShownOnGrid(facts: Facts, g: ProfitRow -> Option<Decimal>)
    requires PartsOnGrid(facts.profits, g)
    ensures PartsOnGrid(Filter(facts.profits, RowShown(facts)), g)
  {
    var rows := Filter(facts.profits, RowShown(facts));
    hide OnGrid, Filter;
    forall i | 0 <= i < |rows| && g(rows[i]).Some?
      ensures OnGrid(g(rows[i]).value)
    {
      FilterMember(facts.profits, RowShown(facts), rows[i]);
      var j :| 0 <= j < |facts.profits| && facts.profits[j] == rows[i];
    }
  }

  /** When a day of the currency has no profit rows at all, every one of its totals is missing. */
  lemma LineMissing(facts: Facts, currency: string, code: LineCode)
    requires !AllHaveProfit(facts, currency)
    ensures OptionTotal(GroupOf(Days(facts), DayCurrency, currency), DayAmount(code)).None?
  {
    DaysAreListed(facts);
    var days := Days(facts);
    hide MentionedKeys, ShopOf, StoredAmount, Days, DayFor, HasProfit;
    var day :| day in days && day.key.currency == currency && !HasProfit(facts, day);
    var j :| 0 <= j < |days| && days[j] == day;
    DayLineIsTotal(facts, day, code);
    DayIn(day, currency);
    FilterMember(days, KeyIs(DayCurrency, currency), day);
    var same := GroupOf(days, DayCurrency, currency);
    assert day in same;
    var i :| 0 <= i < |same| && same[i] == day;
    assert DayAmount(code)(same[i]).None?;
  }

  lemma SummaryLine(facts: Facts, currency: string, code: LineCode)
    requires PartsOnGrid(facts.profits, RowAmount(code))
    requires GroupOf(Days(facts), DayCurrency, currency) != []
    ensures
      FoldedLine(Map(GroupOf(Days(facts), DayCurrency, currency), DayLines), code)
      == if AllHaveProfit(facts, currency) then FoldedLine(Map(RawRows(facts, currency), RowLines), code)
         else FoldedLine([], code)
  {
    var same, raw := GroupOf(Days(facts), DayCurrency, currency), RawRows(facts, currency);
    TotalOfMap(same, DayLines, AmountAt(code), DayAmount(code));
    TotalOfMap(raw, RowLines, AmountAt(code), RowAmount(code));
    hide OptionTotal, StoredAmount, Days, GroupOf, RawRows, AllHaveProfit, PartsOnGrid, OnGrid;
    if AllHaveProfit(facts, currency) {
      LineAgrees(facts, currency, code);
      DaysNeedRows(facts, currency);
    } else {
      LineMissing(facts, currency, code);
    }
  }

  lemma DaysNeedRows(facts: Facts, currency: string)
    requires AllHaveProfit(facts, currency)
    requires GroupOf(Days(facts), DayCurrency, currency) != []
    ensures RawRows(facts, currency) != []
  {
    var days := Days(facts);
    var day := GroupOf(days, DayCurrency, currency)[0];
    DaysAreListed(facts);
    FilterMember(days, KeyIs(DayCurrency, currency), day);
    hide Days, MentionedKeys, ShopOf, Filter;
    DayIn(day, currency);
    var j :| 0 <= j < |days| && days[j] == day;
    DayLinesAre(facts, day);
    hide DayFor, HasProfit;
    ShownGroup(facts, day);
    var rows := Filter(facts.profits, RowShown(facts));
    var row := GroupOf(rows, ProfitKey, day.key)[0];
    FilterMember(rows, KeyIs(ProfitKey, day.key), row);
    RowIn(row, currency);
    FilterMember(rows, KeyIs(RowCurrency, currency), row);
  }

  lemma RowIn(row: ProfitRow, currency: string)
    ensures KeyIs(RowCurrency, currency)(row) <==> row.currency == currency
  {
    assert RowCurrency(row) == row.currency;
    if row.currency == currency {
      assert KeyIs(RowCurrency, currency)(row);
    }
  }

  ghost predicate AmountsOnGrid(rows: seq<ProfitRow>) {
    forall code :: PartsOnGrid(rows, RowAmount(code))
  }

  /** The two-step summary of a currency - rows into days, days into a window - is the one-step sum of its profit
      rows, line by line, exactly when every one of its days has profit rows; one day without any leaves all
      twelve lines missing. Rows whose shop cannot be told take no part. */
  lemma SummaryIsDirectFold(facts: Facts, currency: string)
    requires AmountsOnGrid(facts.profits)
    requires GroupOf(Days(facts), DayCurrency, currency) != []
    ensures
      CurrencyLines(Days(facts), currency)
      == if AllHaveProfit(facts, currency) then FoldedLines(Map(RawRows(facts, currency), RowLines))
         else FoldedLines([])
  {
    hide Days, GroupOf, RawRows, AllHaveProfit, PartsOnGrid, FoldedLine, Map;
    forall i | 0 <= i < |LINE_CODES|
      ensures
        FoldedLine(Map(GroupOf(Days(facts), DayCurrency, currency), DayLines), LINE_CODES[i])
        == if AllHaveProfit(facts, currency) then FoldedLine(Map(RawRows(facts, currency), RowLines), LINE_CODES[i])
           else FoldedLine([], LINE_CODES[i])
    {
      SummaryLine(facts, currency, LINE_CODES[i]);
    }
  }

  /** When every shop is registered no row is dropped. */
  lemma KnownShopsShowAll(facts: Facts, currency: string)
    requires forall row :: row in facts.profits ==> row.shop in facts.shops
    ensures RawRows(facts, currency) == GroupOf(facts.profits, RowCurrency, currency)
  {
    hide LatestFor;
    forall i | 0 <= i < |facts.profits|
      ensures RowShown(facts)(facts.profits[i])
    {
      assert facts.profits[i] in facts.profits;
    }
    FilterAll(facts.profits, RowShown(facts));
  }

  // ---- Assembled days have six decimals

  lemma TotalOnGrid<T>(s: seq<T>, g: T -> Option<Decimal>)
    ensures OptionTotal(s, g).Some? ==> OnGrid(OptionTotal(s, g).value)
  {
    QuantizeNear(Parts(s, g));
    hide OnGrid, Quantize;
  }

  lemma MergedOnGrid(group: seq<ProfitRow>)
    requires group != []
    ensures
      var row := MergedRow(group);
      && (row.bookRevenue.Some? ==> OnGrid(row.bookRevenue.value))
      && (row.netProfit.Some? ==> OnGrid(row.netProfit.value))
      && (row.bookNetProfit.Some? ==> OnGrid(row.bookNetProfit.value))
  {
    hide OnGrid, Quantize, OptionTotal, CommonBook, RowsComplete;
    TotalOnGrid(group, RowBookRevenue);
    TotalOnGrid(group, RowNet);
    TotalOnGrid(group, RowBookNet);
  }

  lemma DayOnGrid(facts: Facts, day: ShopDay)
    requires DayFor(facts, day.key) == Some(day)
    ensures OnGrid(day.gmv)
    ensures CompleteNet(day).Some? ==> OnGrid(CompleteNet(day).value)
    ensures CompleteBookGmv(day).Some? ==> OnGrid(CompleteBookGmv(day).value)
    ensures CompleteBookNet(day).Some? ==> OnGrid(CompleteBookNet(day).value)
  {
    var order := LatestFor(facts.orders, OrderKey, day.key);
    if order.Some? {
      QuantizeNear(order.value.gmv);
    }
    GridFromInteger(0);
    var group := GroupOf(facts.profits, ProfitKey, day.key);
    if group != [] {
      MergedOnGrid(group);
    }
    hide OnGrid, Quantize, MergedRow, LatestFor, GroupOf, FoldedLines;
  }

  lemma AssembledOnGrid(facts: Facts)
    ensures DaysOnGrid(Days(facts))
  {
    DaysAreListed(facts);
    var days := Days(facts);
    hide Days, DayFor, OnGrid, MentionedKeys, ShopOf, CompleteNet, CompleteBookGmv, CompleteBookNet;
    forall j | 0 <= j < |days|
      ensures OnGrid(days[j].gmv)
      ensures CompleteNet(days[j]).Some? ==> OnGrid(CompleteNet(days[j]).value)
      ensures CompleteBookGmv(days[j]).Some? ==> OnGrid(CompleteBookGmv(days[j]).value)
      ensures CompleteBookNet(days[j]).Some? ==> OnGrid(CompleteBookNet(days[j]).value)
    {
      DayOnGrid(facts, days[j]);
    }
  }

  /** The days made from any facts need no condition for their rollups to agree. */
  lemma AssembledRollupsAgree(facts: Facts, currency: string)
    ensures
      var days := Days(facts);
      var byCurrency := Rollups(days, DayCurrencyKey, CurrencyKeyLeq, CurrencyRollupOf);
      var byPlatform := Rollups(days, DayPlatformKey, PlatformKeyLeq, PlatformRollupOf);
      var byDate := Rollups(days, DayDateKey, DateKeyLeq, DateRollupOf);
      && AddsUp(days, currency, GroupOf(byCurrency, CurrencyOfCurrency, currency), CurrencyFigures)
      && AddsUp(days, currency, GroupOf(byPlatform, CurrencyOfPlatform, currency), PlatformFigures)
      && AddsUp(days, currency, GroupOf(byDate, CurrencyOfDate, currency), DateFigures)
  {
    hide Days, DaysOnGrid, AddsUp, Rollups, GroupOf;
    AssembledOnGrid(facts);
    RollupsAgree(Days(facts), currency);
  }

  // ---- Profit agrees with the raw profit rows

  function RowCompleteNet(row: ProfitRow): Option<Decimal> {
    if row.complete then row.netProfit else None
  }

  lemma MergedNet(group: seq<ProfitRow>)
    requires group != []
    ensures (if MergedRow(group).complete then MergedRow(group).netProfit else None) == OptionTotal(group, RowCompleteNet)
  {
    hide CommonBook, Quantize;
    if RowsComplete(group) {
      forall x | x in group
        ensures RowCompleteNet(x) == RowNet(x)
      {
        var i :| 0 <= i < |group| && group[i] == x;
      }
      SameParts(group, RowCompleteNet, RowNet);
    } else {
      var i :| 0 <= i < |group| && !group[i].complete;
      assert RowCompleteNet(group[i]).None?;
    }
  }

  lemma DayNetIsTotal(facts: Facts, day: ShopDay)
    requires DayFor(facts, day.key) == Some(day)
    ensures
      CompleteNet(day)
      == if HasProfit(facts, day) then OptionTotal(GroupOf(facts.profits, ProfitKey, day.key), RowCompleteNet) else None
  {
    var group := GroupOf(facts.profits, ProfitKey, day.key);
    if group != [] {
      MergedNet(group);
    }
    hide GroupOf, LatestFor, FoldedLines, Quantize, MergedRow, OptionTotal;
  }

  /** A currency's profit over the window is the sum of its rows' profits; it is missing when a row is incomplete
      or a day has no rows. */
  lemma SummaryNetIsDirectSum(facts: Facts, currency: string)
    requires PartsOnGrid(facts.profits, RowCompleteNet)
    ensures
      OptionTotal(GroupOf(Days(facts), DayCurrency, currency), CompleteNet)
      == if AllHaveProfit(facts, currency) then OptionTotal(RawRows(facts, currency), RowCompleteNet) else None
  {
    DaysAreListed(facts);
    var days, rows := Days(facts), Filter(facts.profits, RowShown(facts));
    hide MentionedKeys, ShopOf, OnGrid, Days, DayFor, HasProfit, CompleteNet, RowCompleteNet, Filter;
    forall day | day in days
      ensures
        CompleteNet(day)
        == if HasProfit(facts, day) then OptionTotal(GroupOf(facts.profits, ProfitKey, day.key), RowCompleteNet) else None
    {
      var j :| 0 <= j < |days| && days[j] == day;
      DayNetIsTotal(facts, day);
    }
    if AllHaveProfit(facts, currency) {
      RowsRolled(facts, currency, CompleteNet, RowCompleteNet);
      ShownOnGrid(facts, RowCompleteNet);
      hide Rolled, OptionTotal;
      TotalsOfTotals(rows, ProfitKey, Map(days, DayKeyOf), days, KeyIs(DayCurrency, currency),
                     KeyIs(RowCurrency, currency), CompleteNet, RowCompleteNet);
    } else {
      var day :| day in days && day.key.currency == currency && !HasProfit(facts, day);
      DayIn(day, currency);
      FilterMember(days, KeyIs(DayCurrency, currency), day);
      var same := GroupOf(days, DayCurrency, currency);
      var i :| 0 <= i < |same| && same[i] == day;
      assert CompleteNet(same[i]).None?;
    }
  }

  // ---- Orders agree with the order facts

  function OrderCurrency(order: OrderFact): string {
    order.currency
  }

  function OrderCountOf(order: OrderFact): int {
    order.orderCount
  }

  function OrderPart(order: OrderFact): Option<Decimal> {
    Some(order.orderCount as real)
  }

  function OrderGmv(order: OrderFact): Option<Decimal> {
    Some(order.gmv)
  }

  /** The facts with no later fact under the same key. */
  function Surviving<T, K(==)>(rows: seq<T>, key: T -> K): seq<T> {
    if rows == [] then []
    else (if key(rows[0]) in Map(rows[1..], key) then [] else [rows[0]]) + Surviving(rows[1..], key)
  }

  /** The other facts. */
  function Replaced(orders: seq<OrderFact>): seq<OrderFact> {
    if orders == [] then []
    else (if OrderKey(orders[0]) in Map(orders[1..], OrderKey) then [orders[0]] else []) + Replaced(orders[1..])
  }

  lemma {:induction false} NothingReplaced(orders: seq<OrderFact>)
    ensures Replaced(orders) == [] <==> Distinct(Map(orders, OrderKey))
    ensures Replaced(orders) == [] ==> Surviving(orders, OrderKey) == orders
  {
    if orders != [] {
      NothingReplaced(orders[1..]);
      DistinctHead(Map(orders, OrderKey));
      assert Map(orders, OrderKey)[1..] == Map(orders[1..], OrderKey);
    }
  }

  lemma DistinctHead<T>(s: seq<T>)
    requires s != []
    ensures Distinct(s) <==> s[0] !in s[1..] && Distinct(s[1..])
  {
    if s[0] !in s[1..] && Distinct(s[1..]) {
      forall i, j | 0 <= i < j < |s|
        ensures s[i] != s[j]
      {
        assert s[j] == s[1..][j - 1];
        assert i > 0 ==> s[i] == s[1..][i - 1];
      }
    }
  }

  /** The survivor under a key is the latest fact for it. */
  lemma {:induction false} SurvivorIsLatest<T(!new)>(rows: seq<T>, key: T -> DayKey, k: DayKey)
    ensures
      var latest := LatestFor(rows, key, k);
      GroupOf(Surviving(rows, key), key, k) == if latest.None? then [] else [latest.value]
  {
    if rows != [] {
      var rest := rows[1..];
      SurvivorIsLatest(rest, key, k);
      FilterHead(rows, KeyIs(key, k));
      var later := key(rows[0]) in Map(rest, key);
      FilterAppend(if later then [] else [rows[0]], Surviving(rest, key), KeyIs(key, k));
      LatestMentioned(rest, key, k);
    }
  }

  lemma LatestMentioned<T(!new)>(rows: seq<T>, key: T -> DayKey, k: DayKey)
    ensures GroupOf(rows, key, k) != [] <==> k in Map(rows, key)
  {
    if k in Map(rows, key) {
      var i :| 0 <= i < |rows| && Map(rows, key)[i] == k;
      FilterMember(rows, KeyIs(key, k), rows[i]);
    } else {
      forall x | x in rows
        ensures !KeyIs(key, k)(x)
      {
        MapMember(rows, key, x);
      }
      FilterNone(rows, KeyIs(key, k));
    }
  }

  lemma SingleTotal<T>(s: seq<T>, g: T -> Option<Decimal>)
    requires |s| <= 1 && forall i :: 0 <= i < |s| ==> g(s[i]).Some?
    ensures OptionTotal(s, g) == Some(Quantize(if s == [] then 0.0 else g(s[0]).value))
  {
    hide Quantize;
    if s != [] {
      assert g(s[0]).Some? && s[1..] == [];
      assert Parts(s, g) == g(s[0]).value + Parts(s[1..], g);
    }
    assert AllSome(s, g);
  }

  lemma DayOrdersAre(facts: Facts, day: ShopDay)
    requires DayFor(facts, day.key) == Some(day)
    ensures
      var group := GroupOf(Surviving(facts.orders, OrderKey), OrderKey, day.key);
      && OptionTotal(group, OrderPart) == Some(day.orderCount as real)
      && OptionTotal(group, OrderGmv) == Some(day.gmv)
  {
    var group := GroupOf(Surviving(facts.orders, OrderKey), OrderKey, day.key);
    SurvivorIsLatest(facts.orders, OrderKey, day.key);
    hide GroupOf, ProfitFor, FoldedLines, Quantize, OnGrid, OptionTotal, Surviving, LatestFor;
    SingleTotal(group, OrderPart);
    SingleTotal(group, OrderGmv);
    GridFromInteger(0);
    QuantizeFixes(0.0);
    GridWhole(day.orderCount);
    QuantizeFixes(day.orderCount as real);
  }

  lemma {:induction false} SurvivorsAmong<T(!new)>(rows: seq<T>, key: T -> DayKey)
    ensures forall x :: x in Surviving(rows, key) ==> x in rows
  {
    if rows != [] {
      SurvivorsAmong(rows[1..], key);
    }
  }

  /** Facts that all have a day, of which each holds the total of its own facts. */
  lemma FactsRolled<T(!new)>(
    facts: Facts, kept: seq<T>, key: T -> DayKey, currencyOf: T -> string, currency: string,
    dayPart: ShopDay -> Option<Decimal>, part: T -> Option<Decimal>)
    requires forall x :: x in kept ==>
               key(x) in MentionedKeys(facts) && ShopOf(facts, key(x)).Some? && currencyOf(x) == key(x).currency
    requires forall day :: day in Days(facts) ==> dayPart(day) == OptionTotal(GroupOf(kept, key, day.key), part)
    ensures Rolled(kept, key, Map(Days(facts), DayKeyOf), Days(facts),
                   KeyIs(DayCurrency, currency), KeyIs(currencyOf, currency), dayPart, part)
  {
    DaysAreListed(facts);
    var days := Days(facts);
    var ks := Map(days, DayKeyOf);
    hide Days, DayFor, ShopOf, Filter, OptionTotal, GroupOf, Map, MentionedKeys;
    forall i | 0 <= i < |kept|
      ensures key(kept[i]) in ks
    {
      assert kept[i] in kept;
    }
    forall i, j | 0 <= i < |kept| && 0 <= j < |ks| && key(kept[i]) == ks[j]
      ensures KeyIs(currencyOf, currency)(kept[i]) == KeyIs(DayCurrency, currency)(days[j])
    {
      assert kept[i] in kept;
      assert ks[j] == DayKeyOf(days[j]) == days[j].key;
      DayIn(days[j], currency);
    }
    forall j | 0 <= j < |ks|
      ensures dayPart(days[j]) == OptionTotal(GroupOf(kept, key, ks[j]), part)
    {
      assert ks[j] == DayKeyOf(days[j]) == days[j].key;
      assert days[j] in days;
    }
  }

  /** Then the days of a currency hold the total of its facts. */
  lemma FactTotals<T(!new)>(
    facts: Facts, kept: seq<T>, key: T -> DayKey, currencyOf: T -> string, currency: string,
    dayPart: ShopDay -> Option<Decimal>, part: T -> Option<Decimal>)
    requires forall x :: x in kept ==>
               key(x) in MentionedKeys(facts) && ShopOf(facts, key(x)).Some? && currencyOf(x) == key(x).currency
    requires forall day :: day in Days(facts) ==> dayPart(day) == OptionTotal(GroupOf(kept, key, day.key), part)
    requires PartsOnGrid(kept, part)
    ensures OptionTotal(GroupOf(Days(facts), DayCurrency, currency), dayPart)
         == OptionTotal(GroupOf(kept, currencyOf, currency), part)
  {
    FactsRolled(facts, kept, key, currencyOf, currency, dayPart, part);
    hide Rolled, Days, DayFor, ShopOf, MentionedKeys, Filter, OptionTotal, OnGrid;
    TotalsOfTotals(kept, key, Map(Days(facts), DayKeyOf), Days(facts), KeyIs(DayCurrency, currency),
                   KeyIs(currencyOf, currency), dayPart, part);
  }

  lemma OrderIsShown(facts: Facts, order: OrderFact)
    requires order in facts.orders
    ensures ShopOf(facts, OrderKey(order)).Some?
  {
    FilterMember(facts.orders, KeyIs(OrderKey, OrderKey(order)), order);
  }

  lemma SurvivorsOnGrid(orders: seq<OrderFact>)
    requires PartsOnGrid(orders, OrderGmv)
    ensures PartsOnGrid(Surviving(orders, OrderKey), OrderGmv)
  {
    var kept := Surviving(orders, OrderKey);
    SurvivorsAmong(orders, OrderKey);
    hide OnGrid, Surviving;
    forall i | 0 <= i < |kept|
      ensures OnGrid(kept[i].gmv)
    {
      assert kept[i] in kept;
      var j :| 0 <= j < |orders| && orders[j] == kept[i];
      assert OrderGmv(orders[j]).Some?;
    }
  }

  lemma SurvivorsShown(facts: Facts)
    ensures forall x :: x in Surviving(facts.orders, OrderKey) ==>
              OrderKey(x) in MentionedKeys(facts) && ShopOf(facts, OrderKey(x)).Some?
              && OrderCurrency(x) == OrderKey(x).currency
  {
    SurvivorsAmong(facts.orders, OrderKey);
    hide Surviving, ShopOf;
    forall x | x in Surviving(facts.orders, OrderKey)
      ensures OrderKey(x) in MentionedKeys(facts) && ShopOf(facts, OrderKey(x)).Some?
    {
      MapMember(facts.orders, OrderKey, x);
      OrderIsShown(facts, x);
    }
  }

  lemma SurvivorsReachSummary(facts: Facts, currency: string)
    requires PartsOnGrid(facts.orders, OrderGmv)
    ensures
      var same := GroupOf(Days(facts), DayCurrency, currency);
      var orders := GroupOf(Surviving(facts.orders, OrderKey), OrderCurrency, currency);
      && CountOf(same, DayOrders) == CountOf(orders, OrderCountOf)
      && OptionTotal(same, DayGmv) == OptionTotal(orders, OrderGmv)
  {
    DaysAreListed(facts);
    SurvivorsShown(facts);
    var days, orders := Days(facts), Surviving(facts.orders, OrderKey);
    hide Days, DayFor, MentionedKeys, ShopOf, Filter, OnGrid, Quantize, Surviving;
    forall day | day in days
      ensures OptionTotal(GroupOf(orders, OrderKey, day.key), OrderPart) == DayOrdersPart(day)
      ensures OptionTotal(GroupOf(orders, OrderKey, day.key), OrderGmv) == DayGmv(day)
    {
      var j :| 0 <= j < |days| && days[j] == day;
      DayOrdersAre(facts, day);
    }
    OrderCountsOnGrid(orders);
    SurvivorsOnGrid(facts.orders);
    FactTotals(facts, orders, OrderKey, OrderCurrency, currency, DayOrdersPart, OrderPart);
    FactTotals(facts, orders, OrderKey, OrderCurrency, currency, DayGmv, OrderGmv);
    CountIsTotal(GroupOf(days, DayCurrency, currency), DayOrders, DayOrdersPart);
    CountIsTotal(GroupOf(orders, OrderCurrency, currency), OrderCountOf, OrderPart);
  }

  lemma {:induction false} SurvivingAndReplaced(orders: seq<OrderFact>, p: OrderFact -> bool, f: OrderFact -> int)
    ensures CountIf(orders, p, f) == CountIf(Surviving(orders, OrderKey), p, f) + CountIf(Replaced(orders), p, f)
  {
    if orders != [] {
      var rest := orders[1..];
      SurvivingAndReplaced(rest, p, f);
      var later := OrderKey(orders[0]) in Map(rest, OrderKey);
      assert Surviving(orders, OrderKey)
          == if later then Surviving(rest, OrderKey) else [orders[0]] + Surviving(rest, OrderKey);
      assert Replaced(orders) == if later then [orders[0]] + Replaced(rest) else Replaced(rest);
    }
  }

  lemma {:induction false} SurvivingAndReplacedParts(orders: seq<OrderFact>, p: OrderFact -> bool)
    ensures PartsIf(orders, p, OrderGmv)
         == PartsIf(Surviving(orders, OrderKey), p, OrderGmv) + PartsIf(Replaced(orders), p, OrderGmv)
  {
    if orders != [] {
      var rest := orders[1..];
      SurvivingAndReplacedParts(rest, p);
      var later := OrderKey(orders[0]) in Map(rest, OrderKey);
      hide Part;
      assert Surviving(orders, OrderKey)
          == if later then Surviving(rest, OrderKey) else [orders[0]] + Surviving(rest, OrderKey);
      assert Replaced(orders) == if later then [orders[0]] + Replaced(rest) else Replaced(rest);
    }
  }

  lemma SalesOfDays(facts: Facts, currency: string)
    requires PartsOnGrid(facts.orders, OrderGmv)
    ensures Parts(GroupOf(Days(facts), DayCurrency, currency), DayGmv)
         == Parts(GroupOf(Surviving(facts.orders, OrderKey), OrderCurrency, currency), OrderGmv)
  {
    var days, kept := Days(facts), Surviving(facts.orders, OrderKey);
    var same, orders := GroupOf(days, DayCurrency, currency), GroupOf(kept, OrderCurrency, currency);
    SurvivorsReachSummary(facts, currency);
    AssembledOnGrid(facts);
    SurvivorsOnGrid(facts.orders);
    FilterOnGrid(days, KeyIs(DayCurrency, currency), DayGmv);
    FilterOnGrid(kept, KeyIs(OrderCurrency, currency), OrderGmv);
    hide Days, Surviving, OnGrid, Quantize, Filter;
    PartsExact(same, DayGmv);
    PartsExact(orders, OrderGmv);
    assert AllSome(same, DayGmv) && AllSome(orders, OrderGmv);
  }

  lemma FilterOnGrid<T(!new)>(rows: seq<T>, p: T -> bool, g: T -> Option<Decimal>)
    requires PartsOnGrid(rows, g)
    ensures PartsOnGrid(Filter(rows, p), g)
  {
    var kept := Filter(rows, p);
    hide OnGrid, Filter;
    forall i | 0 <= i < |kept| && g(kept[i]).Some?
      ensures OnGrid(g(kept[i]).value)
    {
      FilterMember(rows, p, kept[i]);
      var j :| 0 <= j < |rows| && rows[j] == kept[i];
    }
  }

  /** What becomes of the order facts, per currency: the days hold every order and every sale except those of facts
      that a later fact for the same shop, date and currency replaced. So counts agree exactly when the replaced
      facts count nothing, sales exactly when they sold nothing, and both when no two facts share a key. */
  lemma OrdersReachSummary(facts: Facts, currency: string)
    requires PartsOnGrid(facts.orders, OrderGmv)
    ensures
      var same, orders := GroupOf(Days(facts), DayCurrency, currency), GroupOf(facts.orders, OrderCurrency, currency);
      var replaced := GroupOf(Replaced(facts.orders), OrderCurrency, currency);
      && CountOf(same, DayOrders) == CountOf(orders, OrderCountOf) - CountOf(replaced, OrderCountOf)
      && Parts(same, DayGmv) == Parts(orders, OrderGmv) - Parts(replaced, OrderGmv)
      && (Distinct(Map(facts.orders, OrderKey)) <==> Replaced(facts.orders) == [])
  {
    var inOrder := KeyIs(OrderCurrency, currency);
    SurvivorsReachSummary(facts, currency);
    SalesOfDays(facts, currency);
    SurvivingAndReplaced(facts.orders, inOrder, OrderCountOf);
    SurvivingAndReplacedParts(facts.orders, inOrder);
    CountOfFilter(facts.orders, inOrder, OrderCountOf);
    CountOfFilter(Surviving(facts.orders, OrderKey), inOrder, OrderCountOf);
    CountOfFilter(Replaced(facts.orders), inOrder, OrderCountOf);
    PartsOfFilter(facts.orders, inOrder, OrderGmv);
    PartsOfFilter(Surviving(facts.orders, OrderKey), inOrder, OrderGmv);
    PartsOfFilter(Replaced(facts.orders), inOrder, OrderGmv);
    NothingReplaced(facts.orders);
    hide Days, Surviving, OptionTotal, Replaced, CountOf, CountIf, Filter, Parts, PartsIf;
  }

  lemma OneInCurrency(order: OrderFact)
    ensures GroupOf([order], OrderCurrency, order.currency) == [order]
    ensures CountOf([order], OrderCountOf) == order.orderCount && Parts([order], OrderGmv) == order.gmv
    ensures Replaced([order]) == []
  {
    assert OrderCurrency(order) == order.currency;
    assert [order][1..] == [];
    FilterHead([order], KeyIs(OrderCurrency, order.currency));
  }

  lemma TwoInCurrency(first: OrderFact, second: OrderFact)
    requires OrderKey(first) == OrderKey(second)
    ensures GroupOf([first, second], OrderCurrency, first.currency) == [first, second]
    ensures CountOf([first, second], OrderCountOf) == first.orderCount + second.orderCount
    ensures Parts([first, second], OrderGmv) == first.gmv + second.gmv
    ensures Replaced([first, second]) == [first]
  {
    var both := [first, second];
    assert both[1..] == [second];
    OneInCurrency(second);
    assert OrderCurrency(first) == first.currency == second.currency;
    FilterHead(both, KeyIs(OrderCurrency, first.currency));
    assert OrderKey(first) in Map([second], OrderKey) by {
      assert Map([second], OrderKey)[0] == OrderKey(second);
    }
  }

  /** Two facts for one shop, day and currency that differ in the platform: three orders worth thirty. */
  const TWO_FACTS: Facts :=
    Facts(
      [OrderFact(1, "north", "x", 0, "USD", 1, 10.0, 1, 0), OrderFact(1, "south", "x", 0, "USD", 2, 20.0, 2, 0)],
      [], [], [], map[], "USD")

  /** The days show only the two of the later fact, worth twenty. */
  lemma EarlierFactIsLost()
    ensures
      var orders := GroupOf(TWO_FACTS.orders, OrderCurrency, "USD");
      CountOf(orders, OrderCountOf) == 3 && Parts(orders, OrderGmv) == 30.0
    ensures
      var same := GroupOf(Days(TWO_FACTS), DayCurrency, "USD");
      CountOf(same, DayOrders) == 2 && Parts(same, DayGmv) == 20.0
  {
    var orders := TWO_FACTS.orders;
    var first, second := orders[0], orders[1];
    assert orders == [first, second];
    GridWhole(10);
    GridWhole(20);
    hide Days, Replaced, GroupOf, CountOf, Parts, OnGrid;
    TwoInCurrency(first, second);
    OneInCurrency(first);
    OrdersReachSummary(TWO_FACTS, "USD");
  }

  lemma OrderCountsOnGrid(orders: seq<OrderFact>)
    ensures PartsOnGrid(orders, OrderPart)
  {
    hide OnGrid;
    forall i | 0 <= i < |orders|
      ensures OnGrid(orders[i].orderCount as real)
    {
      GridWhole(orders[i].orderCount);
    }
  }

  // ---- Saving and reading back the lines of a day

  function Payload(lines: seq<LineTotal>): seq<LineTotal> {
    Map(lines, Stored)
  }

  /** Amounts are written with six decimals. */
  function Stored(line: LineTotal): LineTotal {
    line.(amount := if line.amount.None? then None else Some(Quantize(line.amount.value)))
  }

  function ParseLines(payload: seq<LineTotal>): seq<LineTotal> {
    if payload != [] then FoldedLines([payload]) else FoldedLines([])
  }

  /** The lines of any day come back from storage unchanged. */
  lemma StoredLinesReadBack(groups: seq<seq<LineTotal>>)
    ensures ParseLines(Payload(FoldedLines(groups))) == FoldedLines(groups)
  {
    var lines := FoldedLines(groups);
    PayloadKeeps(groups);
    hide FoldedLine, Payload, Quantize, OnGrid;
    forall i | 0 <= i < |LINE_CODES|
      ensures FoldedLine([lines], LINE_CODES[i]) == FoldedLine(groups, LINE_CODES[i])
    {
      var code := LINE_CODES[i];
      StoredInFold(groups, code);
      FoldedCode(groups, code);
      FoldedCode([lines], code);
      FoldedOnGrid(groups, code);
      hide FoldedLines, StoredAmount;
      var amount := StoredAmount(lines, code);
      assert Parts([lines], AmountAt(code)) == if amount.Some? then amount.value else 0.0;
      if amount.Some? {
        QuantizeFixes(amount.value);
      } else {
        assert AmountAt(code)([lines][0]).None?;
      }
    }
  }

  lemma FoldedOnGrid(groups: seq<seq<LineTotal>>, code: LineCode)
    ensures FoldedLine(groups, code).amount.Some? ==> OnGrid(FoldedLine(groups, code).amount.value)
  {
    QuantizeNear(Parts(groups, AmountAt(code)));
    hide OnGrid, Quantize;
  }

  lemma PayloadKeeps(groups: seq<seq<LineTotal>>)
    ensures Payload(FoldedLines(groups)) == FoldedLines(groups)
  {
    var lines := FoldedLines(groups);
    hide FoldedLine, Quantize, OnGrid;
    forall i | 0 <= i < |lines|
      ensures Stored(lines[i]) == lines[i]
    {
      FoldedOnGrid(groups, LINE_CODES[i]);
      if lines[i].amount.Some? {
        QuantizeFixes(lines[i].amount.value);
      }
    }
    assert Payload(lines) == lines;
  }
}
