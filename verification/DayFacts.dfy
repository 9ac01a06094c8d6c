/** What the daily rows and the rollups show of the facts, column by column. */
module DayFacts {
  import opened Options
  import opened Decimals
  import opened Sequences
  import opened LandedCost
  import opened Grouping
  import opened Dashboard
  import opened DashboardTotals

  // ---- The latest fact for a key, by position

  ghost predicate OrderAt(facts: Facts, k: DayKey, i: int) {
    && 0 <= i < |facts.orders|
    && facts.orders[i].shop == k.shop && facts.orders[i].date == k.date && facts.orders[i].currency == k.currency
  }

  ghost predicate ProfitAt(facts: Facts, k: DayKey, i: int) {
    && 0 <= i < |facts.profits|
    && facts.profits[i].shop == k.shop && facts.profits[i].date == k.date && facts.profits[i].currency == k.currency
  }

  ghost predicate AdAt(facts: Facts, k: DayKey, i: int) {
    && 0 <= i < |facts.ads|
    && facts.ads[i].shop == k.shop && facts.ads[i].date == k.date && facts.ads[i].currency == k.currency
  }

  ghost predicate ReturnAt(facts: Facts, k: DayKey, i: int) {
    && 0 <= i < |facts.returned|
    && facts.returned[i].shop == k.shop && facts.returned[i].date == k.date && facts.returned[i].currency == k.currency
  }

  ghost predicate LastOrder(facts: Facts, k: DayKey, i: int) {
    OrderAt(facts, k, i) && forall j :: OrderAt(facts, k, j) ==> j <= i
  }

  ghost predicate LastAd(facts: Facts, k: DayKey, i: int) {
    AdAt(facts, k, i) && forall j :: AdAt(facts, k, j) ==> j <= i
  }

  ghost predicate LastReturn(facts: Facts, k: DayKey, i: int) {
    ReturnAt(facts, k, i) && forall j :: ReturnAt(facts, k, j) ==> j <= i
  }

  ghost predicate LastAt<T(!new)>(rows: seq<T>, key: T -> DayKey, k: DayKey, i: int) {
    0 <= i < |rows| && key(rows[i]) == k && forall j :: 0 <= j < |rows| && key(rows[j]) == k ==> j <= i
  }

  lemma LatestStep<T(!new)>(init: seq<T>, last: T, key: T -> DayKey, k: DayKey)
    ensures LatestFor(init + [last], key, k) == if key(last) == k then Some(last) else LatestFor(init, key, k)
  {
    FilterAppend(init, [last], KeyIs(key, k));
    assert Filter([last], KeyIs(key, k)) == if key(last) == k then [last] else [];
    assert Filter(init, KeyIs(key, k)) + [] == Filter(init, KeyIs(key, k));
  }

  lemma {:induction false} LatestByPosition<T(!new)>(rows: seq<T>, key: T -> DayKey, k: DayKey) returns (i: int)
    ensures
      var latest := LatestFor(rows, key, k);
      && (latest.None? ==> forall j :: 0 <= j < |rows| ==> key(rows[j]) != k)
      && (latest.Some? ==> LastAt(rows, key, k, i) && latest.value == rows[i])
  {
    i := 0;
    if rows != [] {
      var last := |rows| - 1;
      var init := rows[..last];
      assert rows == init + [rows[last]];
      LatestStep(init, rows[last], key, k);
      i := LatestByPosition(init, key, k);
      hide LatestFor;
      assert forall j :: 0 <= j < last ==> init[j] == rows[j];
      i := if key(rows[last]) == k then last else i;
    }
  }

  // ---- One day, column by column

  /** The order columns are those of the latest order fact for the day's shop, date and currency, or nothing. */
  ghost predicate ShowsOrders(facts: Facts, day: ShopDay) {
    && (forall i :: LastOrder(facts, day.key, i) ==>
          && day.orderCount == facts.orders[i].orderCount && day.gmv == Quantize(facts.orders[i].gmv)
          && day.onTime == facts.orders[i].onTime && day.late == facts.orders[i].late)
    && ((forall i :: !OrderAt(facts, day.key, i)) ==>
          day.orderCount == 0 && day.gmv == 0.0 && day.onTime == 0 && day.late == 0)
  }

  ghost predicate ShowsAds(facts: Facts, day: ShopDay) {
    && (forall i :: LastAd(facts, day.key, i) ==>
          && day.adSpend == Some(Quantize(facts.ads[i].spend)) && day.adSales == Some(Quantize(facts.ads[i].sales))
          && day.adLossCount == facts.ads[i].lossCount)
    && ((forall i :: !AdAt(facts, day.key, i)) ==>
          day.adSpend.None? && day.adSales.None? && day.adLossCount == 0)
  }

  ghost predicate ShowsReturns(facts: Facts, day: ShopDay) {
    && (forall i :: LastReturn(facts, day.key, i) ==> day.returnCount == facts.returned[i].count)
    && ((forall i :: !ReturnAt(facts, day.key, i)) ==> day.returnCount == 0)
  }

  /** Platform and site are the shop's registered ones, or what its latest order says. */
  ghost predicate ShowsShop(facts: Facts, day: ShopDay) {
    if day.key.shop in facts.shops then
      day.platform == facts.shops[day.key.shop].platform && day.site == facts.shops[day.key.shop].site
    else
      exists i :: LastOrder(facts, day.key, i)
        && day.platform == facts.orders[i].platform && day.site == facts.orders[i].site
  }

  lemma LastOrderFor(facts: Facts, k: DayKey)
    ensures
      var latest := LatestFor(facts.orders, OrderKey, k);
      && (latest.None? <==> forall i :: !OrderAt(facts, k, i))
      && (latest.Some? ==> exists i :: LastOrder(facts, k, i))
      && (forall i :: LastOrder(facts, k, i) ==> latest == Some(facts.orders[i]))
  {
    var i := LatestByPosition(facts.orders, OrderKey, k);
    hide LatestFor;
    assert forall i :: 0 <= i < |facts.orders| ==> (OrderKey(facts.orders[i]) == k <==> OrderAt(facts, k, i));
    assert LatestFor(facts.orders, OrderKey, k).Some? ==> LastOrder(facts, k, i);
  }

  lemma LastAdFor(facts: Facts, k: DayKey)
    ensures
      var latest := LatestFor(facts.ads, AdKey, k);
      && (latest.None? <==> forall i :: !AdAt(facts, k, i))
      && (forall i :: LastAd(facts, k, i) ==> latest == Some(facts.ads[i]))
  {
    var i := LatestByPosition(facts.ads, AdKey, k);
    hide LatestFor;
    assert forall i :: 0 <= i < |facts.ads| ==> (AdKey(facts.ads[i]) == k <==> AdAt(facts, k, i));
    assert LatestFor(facts.ads, AdKey, k).Some? ==> LastAd(facts, k, i);
  }

  lemma LastReturnFor(facts: Facts, k: DayKey)
    ensures
      var latest := LatestFor(facts.returned, ReturnKey, k);
      && (latest.None? <==> forall i :: !ReturnAt(facts, k, i))
      && (forall i :: LastReturn(facts, k, i) ==> latest == Some(facts.returned[i]))
  {
    var i := LatestByPosition(facts.returned, ReturnKey, k);
    hide LatestFor;
    assert forall i :: 0 <= i < |facts.returned| ==> (ReturnKey(facts.returned[i]) == k <==> ReturnAt(facts, k, i));
    assert LatestFor(facts.returned, ReturnKey, k).Some? ==> LastReturn(facts, k, i);
  }

  lemma DayShows(facts: Facts, day: ShopDay)
    requires DayFor(facts, day.key) == Some(day)
    ensures ShowsOrders(facts, day) && ShowsAds(facts, day) && ShowsReturns(facts, day) && ShowsShop(facts, day)
  {
    LastOrderFor(facts, day.key);
    LastAdFor(facts, day.key);
    LastReturnFor(facts, day.key);
    hide OrderAt, AdAt, ReturnAt, LastOrder, LastAd, LastReturn, LatestFor, ProfitFor, FoldedLines, Quantize;
  }

  /** The profit rows for a day's shop, date and currency. */
  ghost function DayRows(facts: Facts, k: DayKey): seq<ProfitRow> {
    Filter(facts.profits, (row: ProfitRow) => row.shop == k.shop && row.date == k.date && row.currency == k.currency)
  }

  ghost predicate OneBook(rows: seq<ProfitRow>) {
    rows != [] && rows[0].bookCurrency != "" && forall row :: row in rows ==> row.bookCurrency == rows[0].bookCurrency
  }

  /** The profit columns: known when there are rows and all are complete, the book figures also only when the rows
      have one book currency; each the rounded sum over the rows, missing when one row lacks it. */
  ghost predicate ShowsProfit(facts: Facts, day: ShopDay) {
    var rows := DayRows(facts, day.key);
    var complete := rows != [] && forall row :: row in rows ==> row.complete;
    && day.profitComplete == complete
    && day.netProfit == (if complete then OptionTotal(rows, (row: ProfitRow) => row.netProfit) else None)
    && day.bookGmv
       == (if complete && OneBook(rows) then OptionTotal(rows, (row: ProfitRow) => row.bookRevenue) else None)
    && day.bookNetProfit
       == (if complete && OneBook(rows) then OptionTotal(rows, (row: ProfitRow) => row.bookNetProfit) else None)
    && day.bookCurrency == if OneBook(rows) then rows[0].bookCurrency else facts.bookCurrency
  }

  lemma {:induction false} DayRowsAre(rows: seq<ProfitRow>, k: DayKey)
    ensures Filter(rows, (row: ProfitRow) => row.shop == k.shop && row.date == k.date && row.currency == k.currency)
         == GroupOf(rows, ProfitKey, k)
  {
    if rows != [] {
      DayRowsAre(rows[1..], k);
      FilterHead(rows, KeyIs(ProfitKey, k));
      assert KeyIs(ProfitKey, k)(rows[0]) <==> ProfitKey(rows[0]) == k;
    }
  }

  lemma MergedShows(group: seq<ProfitRow>)
    requires group != []
    ensures
      var row := MergedRow(group);
      && row.complete == (forall x :: x in group ==> x.complete)
      && row.bookCurrency == (if OneBook(group) then group[0].bookCurrency else "")
      && row.netProfit == (if row.complete then OptionTotal(group, (x: ProfitRow) => x.netProfit) else None)
      && row.bookRevenue
         == (if row.complete && OneBook(group) then OptionTotal(group, (x: ProfitRow) => x.bookRevenue) else None)
      && row.bookNetProfit
         == (if row.complete && OneBook(group) then OptionTotal(group, (x: ProfitRow) => x.bookNetProfit) else None)
      && row.revenue == Quantize(Parts(group, (x: ProfitRow) => Some(x.revenue)))
      && row.quantity == CountOf(group, (x: ProfitRow) => x.quantity)
      && ProfitKey(row) == ProfitKey(group[0])
  {
    SameParts(group, RowNet, (x: ProfitRow) => x.netProfit);
    SameParts(group, RowBookRevenue, (x: ProfitRow) => x.bookRevenue);
    SameParts(group, RowBookNet, (x: ProfitRow) => x.bookNetProfit);
    SamePartsSum(group, RowRevenue, (x: ProfitRow) => Some(x.revenue));
    SameCount(group, RowQuantity, (x: ProfitRow) => x.quantity);
    hide OptionTotal, Quantize, Parts, CountOf;
    assert RowsComplete(group) <==> forall x :: x in group ==> x.complete;
    assert (forall i :: 0 <= i < |group| ==> group[i].bookCurrency == group[0].bookCurrency)
      <==> forall x :: x in group ==> x.bookCurrency == group[0].bookCurrency;
  }

  lemma {:induction false} SameCount<T(!new)>(s: seq<T>, f: T -> int, g: T -> int)
    requires forall x :: x in s ==> f(x) == g(x)
    ensures CountOf(s, f) == CountOf(s, g)
  {
    if s != [] {
      assert s[0] in s;
      SameCount(s[1..], f, g);
    }
  }

  lemma DayShowsProfit(facts: Facts, day: ShopDay)
    requires DayFor(facts, day.key) == Some(day)
    ensures ShowsProfit(facts, day)
  {
    DayRowsAre(facts.profits, day.key);
    var group := GroupOf(facts.profits, ProfitKey, day.key);
    if group != [] {
      MergedShows(group);
    }
    hide GroupOf, LatestFor, FoldedLines, Quantize, MergedRow, OptionTotal, Filter;
  }

  // ---- Which days there are, and in which order

  ghost predicate Mentioned(facts: Facts, k: DayKey) {
    exists i :: OrderAt(facts, k, i) || ProfitAt(facts, k, i) || AdAt(facts, k, i) || ReturnAt(facts, k, i)
  }

  predicate Earlier(a: DayKey, b: DayKey) {
    || a.date < b.date
    || (a.date == b.date && a.shop < b.shop)
    || (a.date == b.date && a.shop == b.shop && a.currency != b.currency && LexLeq(a.currency, b.currency))
  }

  lemma MentionedIs(facts: Facts, k: DayKey)
    ensures k in MentionedKeys(facts) <==> Mentioned(facts, k)
  {
    var orders, profits := Map(facts.orders, OrderKey), Map(facts.profits, ProfitKey);
    var ads, returned := Map(facts.ads, AdKey), Map(facts.returned, ReturnKey);
    hide Map;
    assert forall i :: 0 <= i < |orders| ==> (orders[i] == k <==> OrderAt(facts, k, i));
    assert forall i :: 0 <= i < |profits| ==> (profits[i] == k <==> ProfitAt(facts, k, i));
    assert forall i :: 0 <= i < |ads| ==> (ads[i] == k <==> AdAt(facts, k, i));
    assert forall i :: 0 <= i < |returned| ==> (returned[i] == k <==> ReturnAt(facts, k, i));
    assert k in orders <==> exists i :: OrderAt(facts, k, i);
    assert k in profits <==> exists i :: ProfitAt(facts, k, i);
    assert k in ads <==> exists i :: AdAt(facts, k, i);
    assert k in returned <==> exists i :: ReturnAt(facts, k, i);
    hide OrderAt, ProfitAt, AdAt, ReturnAt;
    assert k in MentionedKeys(facts) <==> k in orders || k in profits || k in ads || k in returned;
  }

  lemma DayOrder()
    ensures TotalPreorder(DayLeq)
  {
    forall a, b
      ensures DayLeq(a, b) || DayLeq(b, a)
    {
      LexTotal(a.currency, b.currency, b.currency);
    }
    forall a, b, c | DayLeq(a, b) && DayLeq(b, c)
      ensures DayLeq(a, c)
    {
      LexTotal(a.currency, b.currency, c.currency);
    }
  }

  lemma {:induction false} FilterSorted<T(!new)>(s: seq<T>, p: T -> bool, leq: (T, T) -> bool)
    requires IsSorted(leq, s)
    ensures IsSorted(leq, Filter(s, p))
  {
    if s != [] {
      FilterSorted(s[1..], p, leq);
      FilterHead(s, p);
      var rest := Filter(s[1..], p);
      forall j | 0 <= j < |rest|
        ensures leq(s[0], rest[j])
      {
        FilterMember(s[1..], p, rest[j]);
        var i :| 0 <= i < |s[1..]| && s[1..][i] == rest[j];
        assert s[i + 1] == rest[j];
      }
    }
  }

  ghost predicate DaysInOrder(days: seq<ShopDay>) {
    forall i, j :: 0 <= i < j < |days| ==> Earlier(days[i].key, days[j].key)
  }

  lemma ShownInOrder(facts: Facts)
    ensures IsSorted(DayLeq, Map(Days(facts), DayKeyOf)) && Distinct(Map(Days(facts), DayKeyOf))
  {
    var ks := DayKeys(facts);
    DayOrder();
    SortedSorts(DayLeq, Keys(MentionedKeys(facts), Itself));
    DaysAreShownKeys(facts, ks);
    DaysAreListed(facts);
    hide MentionedKeys, Filter, TotalPreorder, Keys, Sorted, IsSorted, DayFor, ShopOf;
    FilterSorted(ks, KeyShown(facts), DayLeq);
  }

  lemma DaysOrdered(facts: Facts)
    ensures DaysInOrder(Days(facts))
  {
    ShownInOrder(facts);
    var days := Days(facts);
    hide Days, LexLeq;
    var shown := Map(days, DayKeyOf);
    forall i, j | 0 <= i < j < |days|
      ensures Earlier(days[i].key, days[j].key)
    {
      assert shown[i] == days[i].key && shown[j] == days[j].key;
      assert DayLeq(shown[i], shown[j]) && shown[i] != shown[j];
    }
  }

  ghost predicate DayShown(facts: Facts, k: DayKey) {
    Mentioned(facts, k) && (k.shop in facts.shops || exists i :: OrderAt(facts, k, i))
  }

  /** The daily rows, outright: in order of date, shop and currency, one for every key that some fact mentions and
      whose shop is registered or has an order there; and every column of every row. */
  lemma DaysShowFacts(facts: Facts)
    ensures
      var days := Days(facts);
      && DaysInOrder(days)
      && (forall k :: DayShown(facts, k) <==> exists j :: 0 <= j < |days| && days[j].key == k)
      && (forall j :: 0 <= j < |days| ==>
            && ShowsOrders(facts, days[j]) && ShowsAds(facts, days[j]) && ShowsReturns(facts, days[j])
            && ShowsShop(facts, days[j]) && ShowsProfit(facts, days[j]))
  {
    DaysOrdered(facts);
    DaysAreListed(facts);
    var days := Days(facts);
    forall k
      ensures DayShown(facts, k) <==> k in MentionedKeys(facts) && ShopOf(facts, k).Some?
    {
      MentionedIs(facts, k);
      LastOrderFor(facts, k);
      hide LatestFor, OrderAt, MentionedKeys, Mentioned, LastOrder;
    }
    hide Days, DayFor, ShopOf, MentionedKeys, DayShown, ShowsOrders, ShowsAds, ShowsReturns, ShowsShop, ShowsProfit,
         DaysInOrder;
    forall k
      ensures DayShown(facts, k) <==> exists j :: 0 <= j < |days| && days[j].key == k
    {
      var shown := Map(days, DayKeyOf);
      assert forall j :: 0 <= j < |days| ==> shown[j] == days[j].key;
      assert k in shown <==> exists j :: 0 <= j < |days| && days[j].key == k;
    }
    forall j | 0 <= j < |days|
      ensures ShowsOrders(facts, days[j]) && ShowsAds(facts, days[j]) && ShowsReturns(facts, days[j])
      ensures ShowsShop(facts, days[j]) && ShowsProfit(facts, days[j])
    {
      DayShows(facts, days[j]);
      DayShowsProfit(facts, days[j]);
    }
  }

  // ---- Per currency, the days hold the latest facts

  function AdCurrency(ad: AdFact): string {
    ad.currency
  }

  function ReturnCurrency(returned: ReturnFact): string {
    returned.currency
  }

  /** The latest advertising facts whose shop can be told. */
  ghost function ShownAds(facts: Facts): seq<AdFact> {
    Filter(Surviving(facts.ads, AdKey), (ad: AdFact) => ShopOf(facts, AdKey(ad)).Some?)
  }

  ghost function ShownReturns(facts: Facts): seq<ReturnFact> {
    Filter(Surviving(facts.returned, ReturnKey), (returned: ReturnFact) => ShopOf(facts, ReturnKey(returned)).Some?)
  }

  lemma ShownLatest<T(!new)>(facts: Facts, rows: seq<T>, key: T -> DayKey, shown: T -> bool, k: DayKey)
    requires forall x :: shown(x) <==> ShopOf(facts, key(x)).Some?
    requires ShopOf(facts, k).Some?
    ensures
      var latest := LatestFor(rows, key, k);
      GroupOf(Filter(Surviving(rows, key), shown), key, k) == if latest.None? then [] else [latest.value]
  {
    SurvivorIsLatest(rows, key, k);
    hide LatestFor, ShopOf, GroupOf, Surviving;
    FilterGroup(Surviving(rows, key), shown, key, k);
  }

  lemma ShownAmong<T(!new)>(facts: Facts, rows: seq<T>, key: T -> DayKey, shown: T -> bool)
    requires forall x :: shown(x) <==> ShopOf(facts, key(x)).Some?
    requires forall x :: x in rows ==> key(x) in MentionedKeys(facts)
    ensures forall x :: x in Filter(Surviving(rows, key), shown) ==>
              key(x) in MentionedKeys(facts) && ShopOf(facts, key(x)).Some?
  {
    SurvivorsAmong(rows, key);
    hide ShopOf, MentionedKeys, Filter, Surviving;
    forall x | x in Filter(Surviving(rows, key), shown)
      ensures key(x) in MentionedKeys(facts) && ShopOf(facts, key(x)).Some?
    {
      FilterMember(Surviving(rows, key), shown, x);
    }
  }

  function SpendOf(day: ShopDay): Option<Decimal> { Some(if day.adSpend.None? then 0.0 else day.adSpend.value) }
  function SalesOf(day: ShopDay): Option<Decimal> { Some(if day.adSales.None? then 0.0 else day.adSales.value) }
  function LossesPart(day: ShopDay): Option<Decimal> { Some(day.adLossCount as real) }
  function ReturnsPart(day: ShopDay): Option<Decimal> { Some(day.returnCount as real) }
  function OnTimePart(day: ShopDay): Option<Decimal> { Some(day.onTime as real) }
  function LatePart(day: ShopDay): Option<Decimal> { Some(day.late as real) }
  function AdRowPart(day: ShopDay): Option<Decimal> { Some(if day.adSpend.None? then 0.0 else 1.0) }

  function AdSpendPart(ad: AdFact): Option<Decimal> { Some(Quantize(ad.spend)) }
  function AdSalesPart(ad: AdFact): Option<Decimal> { Some(Quantize(ad.sales)) }
  function AdLossesPart(ad: AdFact): Option<Decimal> { Some(ad.lossCount as real) }
  function ReturnedPart(returned: ReturnFact): Option<Decimal> { Some(returned.count as real) }
  function OrderOnTimePart(order: OrderFact): Option<Decimal> { Some(order.onTime as real) }
  function OrderLatePart(order: OrderFact): Option<Decimal> { Some(order.late as real) }

  /** A day holds the parts of the latest facts for its key. */
  ghost predicate HoldsAds(facts: Facts, day: ShopDay) {
    var ads := GroupOf(ShownAds(facts), AdKey, day.key);
    && SpendOf(day) == OptionTotal(ads, AdSpendPart)
    && SalesOf(day) == OptionTotal(ads, AdSalesPart)
    && LossesPart(day) == OptionTotal(ads, AdLossesPart)
    && (day.adSpend.Some? <==> ads != []) && (day.adSales.Some? <==> ads != [])
  }

  ghost predicate HoldsReturns(facts: Facts, day: ShopDay) {
    ReturnsPart(day) == OptionTotal(GroupOf(ShownReturns(facts), ReturnKey, day.key), ReturnedPart)
  }

  ghost predicate HoldsShipping(facts: Facts, day: ShopDay) {
    var orders := GroupOf(Surviving(facts.orders, OrderKey), OrderKey, day.key);
    OnTimePart(day) == OptionTotal(orders, OrderOnTimePart) && LatePart(day) == OptionTotal(orders, OrderLatePart)
  }

  lemma WholeStays(n: int)
    ensures Quantize(n as real) == n as real
  {
    GridWhole(n);
    QuantizeFixes(n as real);
  }

  lemma RoundedStays(x: Decimal)
    ensures Quantize(Quantize(x)) == Quantize(x)
  {
    QuantizeNear(x);
    QuantizeFixes(Quantize(x));
  }

  lemma AdColumns(facts: Facts, day: ShopDay)
    requires DayFor(facts, day.key) == Some(day)
    ensures
      var ad := LatestFor(facts.ads, AdKey, day.key);
      && ShopOf(facts, day.key).Some?
      && day.adSpend == (if ad.None? then None else Some(Quantize(ad.value.spend)))
      && day.adSales == (if ad.None? then None else Some(Quantize(ad.value.sales)))
      && day.adLossCount == if ad.None? then 0 else ad.value.lossCount
  {
    hide LatestFor, ProfitFor, FoldedLines, Quantize;
  }

  lemma DayHoldsAds(facts: Facts, day: ShopDay)
    requires DayFor(facts, day.key) == Some(day)
    ensures HoldsAds(facts, day)
  {
    AdColumns(facts, day);
    ShownLatest(facts, facts.ads, AdKey, (ad: AdFact) => ShopOf(facts, AdKey(ad)).Some?, day.key);
    hide GroupOf, LatestFor, DayFor, Quantize, OptionTotal, Surviving, Filter, ShopOf;
    var ads := GroupOf(ShownAds(facts), AdKey, day.key);
    SingleTotal(ads, AdSpendPart);
    SingleTotal(ads, AdSalesPart);
    SingleTotal(ads, AdLossesPart);
    WholeStays(0);
    WholeStays(day.adLossCount);
    if ads != [] {
      RoundedStays(ads[0].spend);
      RoundedStays(ads[0].sales);
    }
  }

  lemma OtherColumns(facts: Facts, day: ShopDay)
    requires DayFor(facts, day.key) == Some(day)
    ensures
      var order, returned := LatestFor(facts.orders, OrderKey, day.key), LatestFor(facts.returned, ReturnKey, day.key);
      && ShopOf(facts, day.key).Some?
      && day.onTime == (if order.None? then 0 else order.value.onTime)
      && day.late == (if order.None? then 0 else order.value.late)
      && day.returnCount == if returned.None? then 0 else returned.value.count
  {
    hide LatestFor, ProfitFor, FoldedLines, Quantize;
  }

  lemma DayHoldsReturns(facts: Facts, day: ShopDay)
    requires DayFor(facts, day.key) == Some(day)
    ensures HoldsReturns(facts, day)
  {
    OtherColumns(facts, day);
    ShownLatest(facts, facts.returned, ReturnKey, (r: ReturnFact) => ShopOf(facts, ReturnKey(r)).Some?, day.key);
    hide GroupOf, LatestFor, DayFor, Quantize, OptionTotal, Surviving, Filter, ShopOf;
    SingleTotal(GroupOf(ShownReturns(facts), ReturnKey, day.key), ReturnedPart);
    WholeStays(0);
    WholeStays(day.returnCount);
  }

  lemma DayHoldsShipping(facts: Facts, day: ShopDay)
    requires DayFor(facts, day.key) == Some(day)
    ensures HoldsShipping(facts, day)
  {
    OtherColumns(facts, day);
    SurvivorIsLatest(facts.orders, OrderKey, day.key);
    hide GroupOf, LatestFor, DayFor, Quantize, OptionTotal, Surviving, Filter, ShopOf;
    var orders := GroupOf(Surviving(facts.orders, OrderKey), OrderKey, day.key);
    SingleTotal(orders, OrderOnTimePart);
    SingleTotal(orders, OrderLatePart);
    WholeStays(0);
    WholeStays(day.onTime);
    WholeStays(day.late);
  }

  lemma FactParts<T(!new)>(
    facts: Facts, kept: seq<T>, key: T -> DayKey, currencyOf: T -> string, currency: string,
    dayPart: ShopDay -> Option<Decimal>, part: T -> Option<Decimal>)
    requires forall x :: x in kept ==>
               key(x) in MentionedKeys(facts) && ShopOf(facts, key(x)).Some? && currencyOf(x) == key(x).currency
    requires forall day :: day in Days(facts) ==> dayPart(day) == OptionTotal(GroupOf(kept, key, day.key), part)
    requires PartsOnGrid(kept, part) && forall x :: x in kept ==> part(x).Some?
    ensures Parts(GroupOf(Days(facts), DayCurrency, currency), dayPart)
         == Parts(GroupOf(kept, currencyOf, currency), part)
  {
    FactsRolled(facts, kept, key, currencyOf, currency, dayPart, part);
    hide Rolled, Days, DayFor, ShopOf, MentionedKeys, Filter, OptionTotal, OnGrid, Parts;
    var inDay, inFact := KeyIs(DayCurrency, currency), KeyIs(currencyOf, currency);
    RolledParts(kept, key, Map(Days(facts), DayKeyOf), Days(facts), inDay, inFact, dayPart, part);
    PartsOfFilter(Days(facts), inDay, dayPart);
    PartsOfFilter(kept, inFact, part);
  }

  lemma AdsOnGrid(ads: seq<AdFact>)
    ensures PartsOnGrid(ads, AdSpendPart) && PartsOnGrid(ads, AdSalesPart) && PartsOnGrid(ads, AdLossesPart)
  {
    hide OnGrid, Quantize;
    forall i | 0 <= i < |ads|
      ensures OnGrid(Quantize(ads[i].spend)) && OnGrid(Quantize(ads[i].sales)) && OnGrid(ads[i].lossCount as real)
    {
      QuantizeNear(ads[i].spend);
      QuantizeNear(ads[i].sales);
      GridWhole(ads[i].lossCount);
    }
  }

  lemma AdsShown(facts: Facts)
    ensures forall x :: x in ShownAds(facts) ==>
              AdKey(x) in MentionedKeys(facts) && ShopOf(facts, AdKey(x)).Some? && AdCurrency(x) == AdKey(x).currency
  {
    forall x | x in facts.ads
      ensures AdKey(x) in MentionedKeys(facts)
    {
      MapMember(facts.ads, AdKey, x);
    }
    hide Surviving, Filter, ShopOf, MentionedKeys;
    ShownAmong(facts, facts.ads, AdKey, (ad: AdFact) => ShopOf(facts, AdKey(ad)).Some?);
  }

  lemma AdPartsOfDays(facts: Facts, currency: string)
    ensures
      var same, ads := GroupOf(Days(facts), DayCurrency, currency), GroupOf(ShownAds(facts), AdCurrency, currency);
      && Parts(same, SpendOf) == Parts(ads, AdSpendPart) && Parts(same, SalesOf) == Parts(ads, AdSalesPart)
      && Parts(same, LossesPart) == Parts(ads, AdLossesPart)
  {
    DaysAreListed(facts);
    var days := Days(facts);
    hide Days, DayFor, MentionedKeys, ShopOf, ShownAds, OptionTotal, OnGrid, Quantize, GroupOf, Parts;
    forall day | day in days
      ensures HoldsAds(facts, day)
    {
      var j :| 0 <= j < |days| && days[j] == day;
      DayHoldsAds(facts, day);
    }
    AdsShown(facts);
    AdsOnGrid(ShownAds(facts));
    FactParts(facts, ShownAds(facts), AdKey, AdCurrency, currency, SpendOf, AdSpendPart);
    FactParts(facts, ShownAds(facts), AdKey, AdCurrency, currency, SalesOf, AdSalesPart);
    FactParts(facts, ShownAds(facts), AdKey, AdCurrency, currency, LossesPart, AdLossesPart);
  }

  lemma ReturnPartsOfDays(facts: Facts, currency: string)
    ensures Parts(GroupOf(Days(facts), DayCurrency, currency), ReturnsPart)
         == Parts(GroupOf(ShownReturns(facts), ReturnCurrency, currency), ReturnedPart)
  {
    forall x | x in facts.returned
      ensures ReturnKey(x) in MentionedKeys(facts)
    {
      MapMember(facts.returned, ReturnKey, x);
    }
    DaysAreListed(facts);
    var days, kept := Days(facts), ShownReturns(facts);
    hide Days, DayFor, MentionedKeys, ShopOf, OptionTotal, OnGrid, GroupOf, Parts, Surviving, Filter;
    ShownAmong(facts, facts.returned, ReturnKey, (r: ReturnFact) => ShopOf(facts, ReturnKey(r)).Some?);
    hide ShownReturns;
    forall day | day in days
      ensures HoldsReturns(facts, day)
    {
      var j :| 0 <= j < |days| && days[j] == day;
      DayHoldsReturns(facts, day);
    }
    forall i | 0 <= i < |kept|
      ensures OnGrid(kept[i].count as real)
    {
      GridWhole(kept[i].count);
    }
    FactParts(facts, kept, ReturnKey, ReturnCurrency, currency, ReturnsPart, ReturnedPart);
  }

  lemma ShippingPartsOfDays(facts: Facts, currency: string)
    ensures
      var same := GroupOf(Days(facts), DayCurrency, currency);
      var orders := GroupOf(Surviving(facts.orders, OrderKey), OrderCurrency, currency);
      Parts(same, OnTimePart) == Parts(orders, OrderOnTimePart) && Parts(same, LatePart) == Parts(orders, OrderLatePart)
  {
    DaysAreListed(facts);
    SurvivorsShown(facts);
    var days, kept := Days(facts), Surviving(facts.orders, OrderKey);
    hide Days, DayFor, MentionedKeys, ShopOf, OptionTotal, OnGrid, GroupOf, Parts, Surviving;
    forall day | day in days
      ensures HoldsShipping(facts, day)
    {
      var j :| 0 <= j < |days| && days[j] == day;
      DayHoldsShipping(facts, day);
    }
    forall i | 0 <= i < |kept|
      ensures OnGrid(kept[i].onTime as real) && OnGrid(kept[i].late as real)
    {
      GridWhole(kept[i].onTime);
      GridWhole(kept[i].late);
    }
    FactParts(facts, kept, OrderKey, OrderCurrency, currency, OnTimePart, OrderOnTimePart);
    FactParts(facts, kept, OrderKey, OrderCurrency, currency, LatePart, OrderLatePart);
  }

  function AdLosses(ad: AdFact): int { ad.lossCount }
  function ReturnedCount(returned: ReturnFact): int { returned.count }
  function OrderOnTime(order: OrderFact): int { order.onTime }
  function OrderLate(order: OrderFact): int { order.late }

  lemma {:induction false} PresentParts<T(!new)>(s: seq<T>, g: T -> Option<Decimal>, h: T -> Option<Decimal>)
    requires forall x :: x in s ==> h(x) == Some(if g(x).None? then 0.0 else g(x).value)
    ensures Parts(s, g) == Parts(s, h)
  {
    if s != [] {
      assert s[0] in s;
      PresentParts(s[1..], g, h);
    }
  }

  lemma CountsFromParts<T(!new), U(!new)>(
    s: seq<T>, f: T -> int, fPart: T -> Option<Decimal>, t: seq<U>, g: U -> int, gPart: U -> Option<Decimal>)
    requires forall x :: fPart(x) == Some(f(x) as real)
    requires forall y :: gPart(y) == Some(g(y) as real)
    requires Parts(s, fPart) == Parts(t, gPart)
    ensures CountOf(s, f) == CountOf(t, g)
  {
    CountIsParts(s, f, fPart);
    CountIsParts(t, g, gPart);
  }

  /** What becomes of the other facts, per currency: the days hold the spend, sales and losses of the latest
      advertising facts, the returns of the latest return facts - for shops that can be told - and the shipments of the
      latest order facts. */
  lemma FactsReachSummary(facts: Facts, currency: string)
    ensures
      var same := GroupOf(Days(facts), DayCurrency, currency);
      var ads, returned :=
        GroupOf(ShownAds(facts), AdCurrency, currency), GroupOf(ShownReturns(facts), ReturnCurrency, currency);
      var orders := GroupOf(Surviving(facts.orders, OrderKey), OrderCurrency, currency);
      && Parts(same, DaySpend) == Parts(ads, AdSpendPart) && Parts(same, DaySales) == Parts(ads, AdSalesPart)
      && CountOf(same, DayLosses) == CountOf(ads, AdLosses)
      && CountOf(same, DayReturns) == CountOf(returned, ReturnedCount)
      && CountOf(same, DayOnTime) == CountOf(orders, OrderOnTime) && CountOf(same, DayLate) == CountOf(orders, OrderLate)
  {
    var same := GroupOf(Days(facts), DayCurrency, currency);
    var ads, returned :=
      GroupOf(ShownAds(facts), AdCurrency, currency), GroupOf(ShownReturns(facts), ReturnCurrency, currency);
    var orders := GroupOf(Surviving(facts.orders, OrderKey), OrderCurrency, currency);
    AdPartsOfDays(facts, currency);
    ReturnPartsOfDays(facts, currency);
    ShippingPartsOfDays(facts, currency);
    hide Days, GroupOf, ShownAds, ShownReturns, Surviving, Parts, CountOf, Quantize;
    PresentParts(same, DaySpend, SpendOf);
    PresentParts(same, DaySales, SalesOf);
    CountsFromParts(same, DayLosses, LossesPart, ads, AdLosses, AdLossesPart);
    CountsFromParts(same, DayReturns, ReturnsPart, returned, ReturnedCount, ReturnedPart);
    CountsFromParts(same, DayOnTime, OnTimePart, orders, OrderOnTime, OrderOnTimePart);
    CountsFromParts(same, DayLate, LatePart, orders, OrderLate, OrderLatePart);
  }
}
