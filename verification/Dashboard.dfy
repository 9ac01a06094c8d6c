/** The dashboard's daily shop rows, made from stored facts, and the summaries made from those rows. */
module Dashboard {
  import opened Options
  import opened Decimals
  import opened Sequences
  import opened LandedCost
  import opened Grouping

  // ---- Adding up stored cost lines

  datatype LineTotal = LineTotal(code: LineCode, amount: Option<Decimal>, complete: bool)

  /** The amount stored under a code, if the first entry with that code is complete. */
  function StoredAmount(lines: seq<LineTotal>, code: LineCode): Option<Decimal> {
    if lines == [] then None
    else if lines[0].code == code then (if lines[0].complete then lines[0].amount else None)
    else StoredAmount(lines[1..], code)
  }

  function AmountAt(code: LineCode): seq<LineTotal> -> Option<Decimal> {
    (lines: seq<LineTotal>) => StoredAmount(lines, code)
  }

  function FoldedLine(groups: seq<seq<LineTotal>>, code: LineCode): LineTotal {
    var total := if groups == [] then None else OptionTotal(groups, AmountAt(code));
    LineTotal(code, total, total.Some?)
  }

  function FoldedLines(groups: seq<seq<LineTotal>>): seq<LineTotal> {
    seq(|LINE_CODES|, i requires 0 <= i < |LINE_CODES| => FoldedLine(groups, LINE_CODES[i]))
  }

  lemma TotalSoFar(groups: seq<seq<LineTotal>>, i: nat, g: seq<LineTotal> -> Option<Decimal>)
    requires i < |groups| && AllSome(groups[..i], g)
    ensures AllSome(groups[..i + 1], g) <==> g(groups[i]).Some?
    ensures g(groups[i]).Some? ==> Parts(groups[..i + 1], g) == Parts(groups[..i], g) + g(groups[i]).value
  {
    assert groups[..i + 1] == groups[..i] + [groups[i]];
    PartsAppend(groups[..i], [groups[i]], g);
    assert groups[..i + 1][i] == groups[i];
  }

  /** One total per cost line; a line missing anywhere, or nothing to add up, leaves that total missing. */
  method FoldLines(groups: seq<seq<LineTotal>>) returns (folded: seq<LineTotal>)
    ensures folded == FoldedLines(groups)
  {
    hide Quantize, StoredAmount;
    folded := [];
    for i := 0 to |LINE_CODES|
      invariant |folded| == i && forall j :: 0 <= j < i ==> folded[j] == FoldedLine(groups, LINE_CODES[j])
    {
      var code := LINE_CODES[i];
      var amounts: seq<Decimal> := [];
      var complete := groups != [];
      var j := 0;
      while j < |groups|
        invariant 0 <= j <= |groups|
        invariant complete ==> AllSome(groups[..j], AmountAt(code)) && Sum(amounts) == Parts(groups[..j], AmountAt(code))
        invariant !complete && groups != [] ==> !AllSome(groups, AmountAt(code))
        invariant complete || groups == []
      {
        var amount := StoredAmount(groups[j], code);
        TotalSoFar(groups, j, AmountAt(code));
        if amount.None? {
          assert AmountAt(code)(groups[j]).None?;
          complete := false;
          break;
        }
        SumAppend(amounts, [amount.value]);
        amounts := amounts + [amount.value];
        j := j + 1;
      }
      assert groups[..|groups|] == groups;
      folded := folded + [LineTotal(code, if complete then Some(Quantize(Sum(amounts))) else None, complete)];
    }
  }

  // ---- Profit rows, folded per shop, day and currency

  datatype DayKey = DayKey(shop: int, date: int, currency: string)

  datatype ProfitRow = ProfitRow(
    shop: int,
    date: int,
    currency: string,
    bookCurrency: string,
    revenue: Decimal,
    bookRevenue: Option<Decimal>,
    netProfit: Option<Decimal>,
    bookNetProfit: Option<Decimal>,
    complete: bool,
    quantity: int,
    lines: seq<LineTotal>)

  function ProfitKey(row: ProfitRow): DayKey {
    DayKey(row.shop, row.date, row.currency)
  }

  function RowRevenue(row: ProfitRow): Option<Decimal> {
    Some(row.revenue)
  }

  function RowBookRevenue(row: ProfitRow): Option<Decimal> {
    row.bookRevenue
  }

  function RowNet(row: ProfitRow): Option<Decimal> {
    row.netProfit
  }

  function RowBookNet(row: ProfitRow): Option<Decimal> {
    row.bookNetProfit
  }

  function RowQuantity(row: ProfitRow): int {
    row.quantity
  }

  function RowLines(row: ProfitRow): seq<LineTotal> {
    row.lines
  }

  predicate RowsComplete(group: seq<ProfitRow>) {
    forall i :: 0 <= i < |group| ==> group[i].complete
  }

  /** The book currency the rows share, or the empty string. */
  function CommonBook(group: seq<ProfitRow>): string
    requires group != []
  {
    if forall i :: 0 <= i < |group| ==> group[i].bookCurrency == group[0].bookCurrency then group[0].bookCurrency else ""
  }

  datatype FoldedProfit = FoldedProfit(row: ProfitRow, lines: seq<LineTotal>)

  function MergedRow(group: seq<ProfitRow>): ProfitRow
    requires group != []
  {
    var complete, book, sample := RowsComplete(group), CommonBook(group), group[0];
    var bookOk := complete && book != "";
    ProfitRow(
      sample.shop, sample.date, sample.currency, book,
      Quantize(Parts(group, RowRevenue)),
      if bookOk then OptionTotal(group, RowBookRevenue) else None,
      if complete then OptionTotal(group, RowNet) else None,
      if bookOk then OptionTotal(group, RowBookNet) else None,
      complete, CountOf(group, RowQuantity), [])
  }

  function Merged(group: seq<ProfitRow>): FoldedProfit
    requires group != []
  {
    FoldedProfit(MergedRow(group), FoldedLines(Map(group, RowLines)))
  }

  function ProfitFor(rows: seq<ProfitRow>, k: DayKey): Option<FoldedProfit> {
    var group := GroupOf(rows, ProfitKey, k);
    if group == [] then None else Some(Merged(group))
  }

  method FoldProfit(rows: seq<ProfitRow>) returns (folded: map<DayKey, FoldedProfit>)
    ensures forall k :: Lookup(folded, k) == ProfitFor(rows, k)
  {
    hide GroupOf, MergedRow, FoldedLines;
    var keys, grouped := Group(rows, ProfitKey);
    GroupsOfKeys(rows, ProfitKey);
    folded := map[];
    for i := 0 to |keys|
      invariant forall k :: k in folded <==> k in keys[..i]
      invariant forall k :: k in folded ==> Some(folded[k]) == ProfitFor(rows, k)
    {
      var group := grouped[keys[i]];
      var lines := FoldLines(Map(group, RowLines));
      folded := folded[keys[i] := FoldedProfit(MergedRow(group), lines)];
      assert keys[..i + 1] == keys[..i] + [keys[i]];
    }
    assert keys[..|keys|] == keys;
  }

  // ---- One row per shop, day and currency

  datatype OrderFact = OrderFact(
    shop: int, platform: string, site: string, date: int, currency: string,
    orderCount: int, gmv: Decimal, onTime: int, late: int)

  datatype AdFact = AdFact(shop: int, date: int, currency: string, spend: Decimal, sales: Decimal, lossCount: int)

  datatype ReturnFact = ReturnFact(shop: int, date: int, currency: string, count: int)

  datatype Shop = Shop(platform: string, site: string)

  datatype Facts = Facts(
    orders: seq<OrderFact>, profits: seq<ProfitRow>, ads: seq<AdFact>, returned: seq<ReturnFact>,
    shops: map<int, Shop>, bookCurrency: string)

  datatype ShopDay = ShopDay(
    key: DayKey,
    platform: string,
    site: string,
    bookCurrency: string,
    orderCount: int,
    gmv: Decimal,
    bookGmv: Option<Decimal>,
    netProfit: Option<Decimal>,
    bookNetProfit: Option<Decimal>,
    profitComplete: bool,
    onTime: int,
    late: int,
    returnCount: int,
    adSpend: Option<Decimal>,
    adSales: Option<Decimal>,
    adLossCount: int,
    lines: seq<LineTotal>)

  function OrderKey(order: OrderFact): DayKey {
    DayKey(order.shop, order.date, order.currency)
  }

  function AdKey(ad: AdFact): DayKey {
    DayKey(ad.shop, ad.date, ad.currency)
  }

  function ReturnKey(returned: ReturnFact): DayKey {
    DayKey(returned.shop, returned.date, returned.currency)
  }

  function Itself(k: DayKey): DayKey {
    k
  }

  /** A later fact under the same key replaces an earlier one. */
  function LatestFor<T>(rows: seq<T>, key: T -> DayKey, k: DayKey): Option<T> {
    var group := GroupOf(rows, key, k);
    if group == [] then None else Some(group[|group| - 1])
  }

  predicate DayLeq(a: DayKey, b: DayKey) {
    if a.date != b.date then a.date < b.date
    else if a.shop != b.shop then a.shop < b.shop
    else LexLeq(a.currency, b.currency)
  }

  function MentionedKeys(facts: Facts): seq<DayKey> {
    Map(facts.orders, OrderKey) + Map(facts.profits, ProfitKey) + Map(facts.ads, AdKey) + Map(facts.returned, ReturnKey)
  }

  /** Every key any fact mentions, once, by date, shop and currency. */
  function DayKeys(facts: Facts): seq<DayKey> {
    Sorted(DayLeq, Keys(MentionedKeys(facts), Itself))
  }

  /** Where the row belongs: the shop's own registration, or else what its order says. */
  function ShopOf(facts: Facts, k: DayKey): Option<Shop> {
    var order := LatestFor(facts.orders, OrderKey, k);
    if k.shop in facts.shops then Some(facts.shops[k.shop])
    else if order.Some? then Some(Shop(order.value.platform, order.value.site))
    else None
  }

  function RowFor(
    k: DayKey, shop: Shop, order: Option<OrderFact>, profit: Option<FoldedProfit>, ad: Option<AdFact>,
    returned: Option<ReturnFact>, bookCurrency: string): ShopDay
  {
    ShopDay(
      k, shop.platform, shop.site,
      if profit.Some? && profit.value.row.bookCurrency != "" then profit.value.row.bookCurrency else bookCurrency,
      if order.None? then 0 else order.value.orderCount,
      if order.None? then 0.0 else Quantize(order.value.gmv),
      if profit.None? then None else profit.value.row.bookRevenue,
      if profit.None? || !profit.value.row.complete then None else profit.value.row.netProfit,
      if profit.None? then None else profit.value.row.bookNetProfit,
      profit.Some? && profit.value.row.complete,
      if order.None? then 0 else order.value.onTime,
      if order.None? then 0 else order.value.late,
      if returned.None? then 0 else returned.value.count,
      if ad.None? then None else Some(Quantize(ad.value.spend)),
      if ad.None? then None else Some(Quantize(ad.value.sales)),
      if ad.None? then 0 else ad.value.lossCount,
      if profit.None? then FoldedLines([]) else profit.value.lines)
  }

  function DayFor(facts: Facts, k: DayKey): Option<ShopDay> {
    var shop := ShopOf(facts, k);
    if shop.None? then None
    else Some(RowFor(
      k, shop.value, LatestFor(facts.orders, OrderKey, k), ProfitFor(facts.profits, k),
      LatestFor(facts.ads, AdKey, k), LatestFor(facts.returned, ReturnKey, k), facts.bookCurrency))
  }

  function DaysFor(facts: Facts, ks: seq<DayKey>): seq<ShopDay> {
    if ks == [] then []
    else
      var day := DayFor(facts, ks[|ks| - 1]);
      DaysFor(facts, ks[..|ks| - 1]) + if day.Some? then [day.value] else []
  }

  function Days(facts: Facts): seq<ShopDay> {
    DaysFor(facts, DayKeys(facts))
  }

  method AssembleShopDays(facts: Facts) returns (days: seq<ShopDay>)
    ensures days == Days(facts)
  {
    hide LatestFor, ProfitFor, DayKeys, FoldedLines, Quantize;
    var profitMap := FoldProfit(facts.profits);
    var empty := FoldLines([]);
    var keys := DayKeys(facts);
    days := [];
    for i := 0 to |keys|
      invariant days == DaysFor(facts, keys[..i])
    {
      var k := keys[i];
      assert keys[..i + 1][..i] == keys[..i];
      var order := LatestFor(facts.orders, OrderKey, k);
      var shop: Shop;
      if k.shop in facts.shops {
        shop := facts.shops[k.shop];
      } else if order.Some? {
        shop := Shop(order.value.platform, order.value.site);
      } else {
        continue;
      }
      var profit := Lookup(profitMap, k);
      var ad := LatestFor(facts.ads, AdKey, k);
      var returned := LatestFor(facts.returned, ReturnKey, k);
      var day := RowFor(k, shop, order, profit, ad, returned, facts.bookCurrency);
      days := days + [day.(lines := if profit.None? then empty else profit.value.lines)];
    }
    assert keys[..|keys|] == keys;
  }

  // ---- Summaries

  datatype Figures = Figures(
    orderCount: int,
    gmv: Decimal,
    bookGmv: Option<Decimal>,
    netProfit: Option<Decimal>,
    bookNetProfit: Option<Decimal>,
    profitComplete: bool)

  datatype CurrencyKey = CurrencyKey(currency: string, bookCurrency: string)

  datatype PlatformKey = PlatformKey(platform: string, site: string, currency: string)

  datatype DateKey = DateKey(date: int, platform: string, currency: string)

  datatype CurrencyRollup = CurrencyRollup(
    key: CurrencyKey, figures: Figures, adSpend: Option<Decimal>, adSales: Option<Decimal>, adLossCount: int)

  datatype PlatformRollup = PlatformRollup(
    key: PlatformKey, bookCurrency: string, figures: Figures, onTime: int, late: int, returnCount: int)

  datatype DateRollup = DateRollup(key: DateKey, bookCurrency: string, figures: Figures)

  datatype WindowSummary = WindowSummary(
    orderCount: int,
    onTime: int,
    late: int,
    returnCount: int,
    currencies: seq<CurrencyRollup>,
    platforms: seq<PlatformRollup>,
    dates: seq<DateRollup>,
    lines: map<string, seq<LineTotal>>)

  function DayOrders(day: ShopDay): int { day.orderCount }
  function DayOnTime(day: ShopDay): int { day.onTime }
  function DayLate(day: ShopDay): int { day.late }
  function DayReturns(day: ShopDay): int { day.returnCount }
  function DayLosses(day: ShopDay): int { day.adLossCount }
  function DayGmv(day: ShopDay): Option<Decimal> { Some(day.gmv) }
  function DayBookGmv(day: ShopDay): Option<Decimal> { day.bookGmv }
  function DayNet(day: ShopDay): Option<Decimal> { day.netProfit }
  function DayBookNet(day: ShopDay): Option<Decimal> { day.bookNetProfit }
  function DaySpend(day: ShopDay): Option<Decimal> { day.adSpend }
  function DaySales(day: ShopDay): Option<Decimal> { day.adSales }
  function DayLines(day: ShopDay): seq<LineTotal> { day.lines }
  function DayCurrency(day: ShopDay): string { day.key.currency }
  function DayCurrencyKey(day: ShopDay): CurrencyKey { CurrencyKey(day.key.currency, day.bookCurrency) }
  function DayPlatformKey(day: ShopDay): PlatformKey { PlatformKey(day.platform, day.site, day.key.currency) }
  function DayDateKey(day: ShopDay): DateKey { DateKey(day.key.date, day.platform, day.key.currency) }

  predicate ProfitsComplete(group: seq<ShopDay>) {
    forall i :: 0 <= i < |group| ==> group[i].profitComplete
  }

  function FiguresOf(group: seq<ShopDay>): Figures {
    var complete := ProfitsComplete(group);
    Figures(
      CountOf(group, DayOrders),
      Quantize(Parts(group, DayGmv)),
      if complete then OptionTotal(group, DayBookGmv) else None,
      if complete then OptionTotal(group, DayNet) else None,
      if complete then OptionTotal(group, DayBookNet) else None,
      complete)
  }

  function FirstBook(group: seq<ShopDay>): string {
    if group == [] then "" else group[0].bookCurrency
  }

  /** Amounts of the days that have any advertising; no amount when none has. */
  function AdTotal(group: seq<ShopDay>, part: ShopDay -> Option<Decimal>): Option<Decimal> {
    if exists i :: 0 <= i < |group| && group[i].adSpend.Some? then Some(Quantize(Parts(group, part))) else None
  }

  function CurrencyRollupOf(k: CurrencyKey, group: seq<ShopDay>): CurrencyRollup {
    CurrencyRollup(k, FiguresOf(group), AdTotal(group, DaySpend), AdTotal(group, DaySales), CountOf(group, DayLosses))
  }

  function PlatformRollupOf(k: PlatformKey, group: seq<ShopDay>): PlatformRollup {
    PlatformRollup(
      k, FirstBook(group), FiguresOf(group),
      CountOf(group, DayOnTime), CountOf(group, DayLate), CountOf(group, DayReturns))
  }

  function DateRollupOf(k: DateKey, group: seq<ShopDay>): DateRollup {
    DateRollup(k, FirstBook(group), FiguresOf(group))
  }

  predicate CurrencyKeyLeq(a: CurrencyKey, b: CurrencyKey) {
    if a.currency != b.currency then LexLeq(a.currency, b.currency) else LexLeq(a.bookCurrency, b.bookCurrency)
  }

  predicate PlatformKeyLeq(a: PlatformKey, b: PlatformKey) {
    if a.platform != b.platform then LexLeq(a.platform, b.platform)
    else if a.site != b.site then LexLeq(a.site, b.site)
    else LexLeq(a.currency, b.currency)
  }

  predicate DateKeyLeq(a: DateKey, b: DateKey) {
    if a.date != b.date then a.date < b.date
    else if a.platform != b.platform then LexLeq(a.platform, b.platform)
    else LexLeq(a.currency, b.currency)
  }

  /** One rollup per key, in key order. */
  function Rollups<K(==), R>(
    days: seq<ShopDay>, key: ShopDay -> K, leq: (K, K) -> bool, roll: (K, seq<ShopDay>) -> R): (rolls: seq<R>)
    ensures |rolls| == |Sorted(leq, Keys(days, key))|
  {
    var ks := Sorted(leq, Keys(days, key));
    seq(|ks|, i requires 0 <= i < |ks| => roll(ks[i], GroupOf(days, key, ks[i])))
  }

  /** Groups the days and rolls up each group, in key order. */
  method RollUp<K(!new, ==), R>(
    days: seq<ShopDay>, key: ShopDay -> K, leq: (K, K) -> bool, roll: (K, seq<ShopDay>) -> R) returns (rolls: seq<R>)
    ensures rolls == Rollups(days, key, leq, roll)
  {
    hide GroupOf, Keys, Sorted;
    var keys, grouped := Group(days, key);
    var ks := Sorted(leq, keys);
    SortedKeepsAll(leq, keys);
    rolls := [];
    for i := 0 to |ks|
      invariant |rolls| == i && forall j :: 0 <= j < i ==> rolls[j] == roll(ks[j], GroupOf(days, key, ks[j]))
    {
      assert ks[i] in ks;
      var rolled := roll(ks[i], grouped[ks[i]]);
      rolls := rolls + [rolled];
    }
  }

  /** The cost lines of one currency's days, added up. */
  function CurrencyLines(days: seq<ShopDay>, currency: string): seq<LineTotal> {
    FoldedLines(Map(GroupOf(days, DayCurrency, currency), DayLines))
  }

  method Summarize(days: seq<ShopDay>) returns (summary: WindowSummary)
    ensures summary.orderCount == CountOf(days, DayOrders)
    ensures summary.onTime == CountOf(days, DayOnTime) && summary.late == CountOf(days, DayLate)
    ensures summary.returnCount == CountOf(days, DayReturns)
    ensures summary.currencies == Rollups(days, DayCurrencyKey, CurrencyKeyLeq, CurrencyRollupOf)
    ensures summary.platforms == Rollups(days, DayPlatformKey, PlatformKeyLeq, PlatformRollupOf)
    ensures summary.dates == Rollups(days, DayDateKey, DateKeyLeq, DateRollupOf)
    ensures forall currency :: currency in summary.lines <==> currency in Keys(days, DayCurrency)
    ensures forall currency :: currency in summary.lines ==> summary.lines[currency] == CurrencyLines(days, currency)
  {
    hide Keys, CurrencyLines, Rollups, FoldedLines;
    var currencies := RollUp(days, DayCurrencyKey, CurrencyKeyLeq, CurrencyRollupOf);
    var platforms := RollUp(days, DayPlatformKey, PlatformKeyLeq, PlatformRollupOf);
    var dates := RollUp(days, DayDateKey, DateKeyLeq, DateRollupOf);
    var lines: map<string, seq<LineTotal>> := map[];
    var seen := Keys(days, DayCurrency);
    for i := 0 to |seen|
      invariant forall currency :: currency in lines <==> currency in seen[..i]
      invariant forall currency :: currency in lines ==> lines[currency] == CurrencyLines(days, currency)
    {
      var same := GroupOf(days, DayCurrency, seen[i]);
      var folded := FoldLines(Map(same, DayLines));
      LinesOfCurrency(days, seen[i]);
      lines := lines[seen[i] := folded];
      assert seen[..i + 1] == seen[..i] + [seen[i]];
    }
    assert seen[..|seen|] == seen;
    summary := WindowSummary(
      CountOf(days, DayOrders), CountOf(days, DayOnTime), CountOf(days, DayLate), CountOf(days, DayReturns),
      currencies, platforms, dates, lines);
  }

  lemma LinesOfCurrency(days: seq<ShopDay>, currency: string)
    ensures CurrencyLines(days, currency) == FoldedLines(Map(GroupOf(days, DayCurrency, currency), DayLines))
  {
  }
}
