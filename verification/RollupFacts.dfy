/** What the rollups show of the facts, and which rollups there are. */
module RollupFacts {
  import opened Options
  import opened Decimals
  import opened Sequences
  import opened Grouping
  import opened Dashboard
  import opened DashboardTotals
  import opened DayFacts

  // ---- The rollups of a currency hold its facts

  function RollSpend(roll: CurrencyRollup): Option<Decimal> { roll.adSpend }
  function RollSales(roll: CurrencyRollup): Option<Decimal> { roll.adSales }
  function RollLosses(roll: CurrencyRollup): int { roll.adLossCount }
  function RollReturns(roll: PlatformRollup): int { roll.returnCount }
  function RollOnTime(roll: PlatformRollup): int { roll.onTime }
  function RollLate(roll: PlatformRollup): int { roll.late }

  function RollSpendOf(roll: CurrencyRollup): Option<Decimal> {
    Some(if roll.adSpend.None? then 0.0 else roll.adSpend.value)
  }

  function RollSalesOf(roll: CurrencyRollup): Option<Decimal> {
    Some(if roll.adSales.None? then 0.0 else roll.adSales.value)
  }

  function RollLossesPart(roll: CurrencyRollup): Option<Decimal> { Some(roll.adLossCount as real) }
  function RollReturnsPart(roll: PlatformRollup): Option<Decimal> { Some(roll.returnCount as real) }
  function RollOnTimePart(roll: PlatformRollup): Option<Decimal> { Some(roll.onTime as real) }
  function RollLatePart(roll: PlatformRollup): Option<Decimal> { Some(roll.late as real) }

  lemma RollupParts<K(!new), R(!new)>(
    days: seq<ShopDay>, key: ShopDay -> K, leq: (K, K) -> bool, roll: (K, seq<ShopDay>) -> R, figures: R -> Figures,
    inRoll: R -> bool, currency: string, rollPart: R -> Option<Decimal>, rowPart: ShopDay -> Option<Decimal>)
    requires RollsFigures(key, roll, figures, inRoll, currency) && PartsOnGrid(days, rowPart)
    requires forall day :: rowPart(day).Some?
    requires forall k :: rollPart(roll(k, GroupOf(days, key, k))) == OptionTotal(GroupOf(days, key, k), rowPart)
    ensures Parts(Filter(Rollups(days, key, leq, roll), inRoll), rollPart)
         == Parts(GroupOf(days, DayCurrency, currency), rowPart)
  {
    RollupsRolled(days, key, leq, roll, figures, inRoll, currency, rollPart, rowPart);
    var rolls, inDay := Rollups(days, key, leq, roll), KeyIs(DayCurrency, currency);
    hide Rollups, FiguresOf, OnGrid, Keys, Sorted, Filter, Rolled, RollsFigures, OptionTotal, Parts;
    RolledParts(days, key, Sorted(leq, Keys(days, key)), rolls, inRoll, inDay, rollPart, rowPart);
    PartsOfFilter(rolls, inRoll, rollPart);
    PartsOfFilter(days, inDay, rowPart);
  }

  /** Sales are known wherever spend is, and both have six decimals. */
  ghost predicate AdsTogether(days: seq<ShopDay>) {
    && PartsOnGrid(days, SpendOf) && PartsOnGrid(days, SalesOf)
    && forall i :: 0 <= i < |days| ==> (days[i].adSpend.Some? <==> days[i].adSales.Some?)
  }

  lemma AssembledAds(facts: Facts)
    ensures AdsTogether(Days(facts))
  {
    DaysAreListed(facts);
    GridFromInteger(0);
    var days := Days(facts);
    hide Days, DayFor, LatestFor, Quantize, OnGrid, ShopOf;
    forall i | 0 <= i < |days|
      ensures days[i].adSpend.Some? <==> days[i].adSales.Some?
      ensures OnGrid(SpendOf(days[i]).value) && OnGrid(SalesOf(days[i]).value)
    {
      AdColumns(facts, days[i]);
      var ad := LatestFor(facts.ads, AdKey, days[i].key);
      if ad.Some? {
        QuantizeNear(ad.value.spend);
        QuantizeNear(ad.value.sales);
      }
    }
  }

  /** The advertising amounts of a group, nothing counting as zero. */
  lemma AdTotalIs(group: seq<ShopDay>, part: ShopDay -> Option<Decimal>, orZero: ShopDay -> Option<Decimal>)
    requires forall x :: orZero(x) == Some(if part(x).None? then 0.0 else part(x).value)
    requires forall x :: x in group && part(x).Some? ==> x.adSpend.Some?
    ensures
      var total := AdTotal(group, part);
      OptionTotal(group, orZero) == Some(if total.None? then 0.0 else total.value)
  {
    PresentParts(group, part, orZero);
    if AdTotal(group, part).None? {
      forall x | x in group
        ensures part(x).None?
      {
        var i :| 0 <= i < |group| && group[i] == x;
        assert group[i].adSpend.None?;
      }
      NoParts(group, part);
      WholeStays(0);
    }
    hide Quantize, Parts;
  }

  lemma {:induction false} NoParts<T(!new)>(s: seq<T>, g: T -> Option<Decimal>)
    requires forall x :: x in s ==> g(x).None?
    ensures Parts(s, g) == 0.0
  {
    if s != [] {
      assert s[0] in s;
      NoParts(s[1..], g);
    }
  }

  lemma GroupAmong<T(!new), K(!new)>(rows: seq<T>, key: T -> K, k: K)
    ensures forall x :: x in GroupOf(rows, key, k) <==> x in rows && key(x) == k
  {
    forall x
      ensures x in GroupOf(rows, key, k) <==> x in rows && key(x) == k
    {
      FilterMember(rows, KeyIs(key, k), x);
    }
  }

  lemma CurrencyRollsAds(days: seq<ShopDay>, currency: string)
    requires AdsTogether(days)
    ensures
      var mine := GroupOf(Rollups(days, DayCurrencyKey, CurrencyKeyLeq, CurrencyRollupOf), CurrencyOfCurrency, currency);
      var same := GroupOf(days, DayCurrency, currency);
      && Parts(mine, RollSpendOf) == Parts(same, SpendOf) && Parts(mine, RollSalesOf) == Parts(same, SalesOf)
      && Parts(mine, RollLossesPart) == Parts(same, LossesPart)
  {
    CurrencyRollsFigures(currency);
    hide AdTotal, Rollups, FiguresOf, OptionTotal, OnGrid, Parts, RollsFigures, GroupOf;
    forall k
      ensures
        var group := GroupOf(days, DayCurrencyKey, k);
        && RollSpendOf(CurrencyRollupOf(k, group)) == OptionTotal(group, SpendOf)
        && RollSalesOf(CurrencyRollupOf(k, group)) == OptionTotal(group, SalesOf)
        && RollLossesPart(CurrencyRollupOf(k, group)) == OptionTotal(group, LossesPart)
    {
      var group := GroupOf(days, DayCurrencyKey, k);
      GroupAmong(days, DayCurrencyKey, k);
      AdTotalIs(group, DaySpend, SpendOf);
      AdTotalIs(group, DaySales, SalesOf);
      CountIsTotal(group, DayLosses, LossesPart);
    }
    forall i | 0 <= i < |days|
      ensures OnGrid(days[i].adLossCount as real)
    {
      GridWhole(days[i].adLossCount);
    }
    GroupIsFilter(Rollups(days, DayCurrencyKey, CurrencyKeyLeq, CurrencyRollupOf), CurrencyOfCurrency, currency);
    var inRoll := KeyIs(CurrencyOfCurrency, currency);
    RollupParts(days, DayCurrencyKey, CurrencyKeyLeq, CurrencyRollupOf, CurrencyFigures, inRoll, currency, RollSpendOf,
                SpendOf);
    RollupParts(days, DayCurrencyKey, CurrencyKeyLeq, CurrencyRollupOf, CurrencyFigures, inRoll, currency, RollSalesOf,
                SalesOf);
    RollupParts(days, DayCurrencyKey, CurrencyKeyLeq, CurrencyRollupOf, CurrencyFigures, inRoll, currency,
                RollLossesPart, LossesPart);
  }

  lemma PlatformRollsShipping(days: seq<ShopDay>, currency: string)
    ensures
      var mine := GroupOf(Rollups(days, DayPlatformKey, PlatformKeyLeq, PlatformRollupOf), CurrencyOfPlatform, currency);
      var same := GroupOf(days, DayCurrency, currency);
      && Parts(mine, RollReturnsPart) == Parts(same, ReturnsPart)
      && Parts(mine, RollOnTimePart) == Parts(same, OnTimePart) && Parts(mine, RollLatePart) == Parts(same, LatePart)
  {
    PlatformRollsFigures(currency);
    hide Rollups, FiguresOf, FirstBook, OptionTotal, OnGrid, Parts, RollsFigures, GroupOf;
    forall k
      ensures
        var group := GroupOf(days, DayPlatformKey, k);
        && RollReturnsPart(PlatformRollupOf(k, group)) == OptionTotal(group, ReturnsPart)
        && RollOnTimePart(PlatformRollupOf(k, group)) == OptionTotal(group, OnTimePart)
        && RollLatePart(PlatformRollupOf(k, group)) == OptionTotal(group, LatePart)
    {
      var group := GroupOf(days, DayPlatformKey, k);
      CountIsTotal(group, DayReturns, ReturnsPart);
      CountIsTotal(group, DayOnTime, OnTimePart);
      CountIsTotal(group, DayLate, LatePart);
    }
    forall i | 0 <= i < |days|
      ensures OnGrid(days[i].returnCount as real) && OnGrid(days[i].onTime as real) && OnGrid(days[i].late as real)
    {
      GridWhole(days[i].returnCount);
      GridWhole(days[i].onTime);
      GridWhole(days[i].late);
    }
    GroupIsFilter(Rollups(days, DayPlatformKey, PlatformKeyLeq, PlatformRollupOf), CurrencyOfPlatform, currency);
    var inRoll := KeyIs(CurrencyOfPlatform, currency);
    RollupParts(days, DayPlatformKey, PlatformKeyLeq, PlatformRollupOf, PlatformFigures, inRoll, currency,
                RollReturnsPart, ReturnsPart);
    RollupParts(days, DayPlatformKey, PlatformKeyLeq, PlatformRollupOf, PlatformFigures, inRoll, currency,
                RollOnTimePart, OnTimePart);
    RollupParts(days, DayPlatformKey, PlatformKeyLeq, PlatformRollupOf, PlatformFigures, inRoll, currency,
                RollLatePart, LatePart);
  }

  /** The rollups of a currency add up to the same facts: those by currency to the advertising, those by platform to
      returns and shipments. */
  lemma RollupsShowFacts(facts: Facts, currency: string)
    ensures
      var days := Days(facts);
      var byCurrency :=
        GroupOf(Rollups(days, DayCurrencyKey, CurrencyKeyLeq, CurrencyRollupOf), CurrencyOfCurrency, currency);
      var byPlatform :=
        GroupOf(Rollups(days, DayPlatformKey, PlatformKeyLeq, PlatformRollupOf), CurrencyOfPlatform, currency);
      var ads, returned :=
        GroupOf(ShownAds(facts), AdCurrency, currency), GroupOf(ShownReturns(facts), ReturnCurrency, currency);
      var orders := GroupOf(Surviving(facts.orders, OrderKey), OrderCurrency, currency);
      && Parts(byCurrency, RollSpend) == Parts(ads, AdSpendPart)
      && Parts(byCurrency, RollSales) == Parts(ads, AdSalesPart)
      && CountOf(byCurrency, RollLosses) == CountOf(ads, AdLosses)
      && CountOf(byPlatform, RollReturns) == CountOf(returned, ReturnedCount)
      && CountOf(byPlatform, RollOnTime) == CountOf(orders, OrderOnTime)
      && CountOf(byPlatform, RollLate) == CountOf(orders, OrderLate)
  {
    var days := Days(facts);
    var byCurrency :=
      GroupOf(Rollups(days, DayCurrencyKey, CurrencyKeyLeq, CurrencyRollupOf), CurrencyOfCurrency, currency);
    var byPlatform :=
      GroupOf(Rollups(days, DayPlatformKey, PlatformKeyLeq, PlatformRollupOf), CurrencyOfPlatform, currency);
    var ads, returned :=
      GroupOf(ShownAds(facts), AdCurrency, currency), GroupOf(ShownReturns(facts), ReturnCurrency, currency);
    var orders := GroupOf(Surviving(facts.orders, OrderKey), OrderCurrency, currency);
    hide Days, GroupOf, ShownAds, ShownReturns, Surviving, Parts, CountOf, Quantize, Rollups, AdsTogether;
    AdPartsOfDays(facts, currency);
    ReturnPartsOfDays(facts, currency);
    ShippingPartsOfDays(facts, currency);
    AssembledAds(facts);
    CurrencyRollsAds(days, currency);
    PlatformRollsShipping(days, currency);
    PresentParts(byCurrency, RollSpend, RollSpendOf);
    PresentParts(byCurrency, RollSales, RollSalesOf);
    CountsFromParts(byCurrency, RollLosses, RollLossesPart, ads, AdLosses, AdLossesPart);
    CountsFromParts(byPlatform, RollReturns, RollReturnsPart, returned, ReturnedCount, ReturnedPart);
    CountsFromParts(byPlatform, RollOnTime, RollOnTimePart, orders, OrderOnTime, OrderOnTimePart);
    CountsFromParts(byPlatform, RollLate, RollLatePart, orders, OrderLate, OrderLatePart);
  }

  // ---- One rollup per key, in key order

  lemma RollAt<K(!new), R(!new)>(
    days: seq<ShopDay>, key: ShopDay -> K, leq: (K, K) -> bool, roll: (K, seq<ShopDay>) -> R, i: nat) returns (k: K)
    requires i < |Rollups(days, key, leq, roll)|
    ensures GroupOf(days, key, k) != [] && Rollups(days, key, leq, roll)[i] == roll(k, GroupOf(days, key, k))
  {
    k := Sorted(leq, Keys(days, key))[i];
    SortedKeepsAll(leq, Keys(days, key));
    GroupsOfKeys(days, key);
    hide Sorted, Keys, GroupOf;
    assert k in Sorted(leq, Keys(days, key));
  }

  lemma RollFor<K(!new), R(!new)>(
    days: seq<ShopDay>, key: ShopDay -> K, leq: (K, K) -> bool, roll: (K, seq<ShopDay>) -> R, keyOf: R -> K, day: ShopDay)
    returns (i: nat)
    requires day in days && forall k, group :: keyOf(roll(k, group)) == k
    ensures i < |Rollups(days, key, leq, roll)| && keyOf(Rollups(days, key, leq, roll)[i]) == key(day)
  {
    var ks := Sorted(leq, Keys(days, key));
    KeysInOrder(days, key, leq);
    hide Sorted, Keys, GroupOf;
    var j :| 0 <= j < |days| && days[j] == day;
    i :| i < |ks| && ks[i] == key(days[j]);
    assert keyOf(roll(ks[i], GroupOf(days, key, ks[i]))) == ks[i];
  }

  lemma RollOrder<K(!new), R(!new)>(
    days: seq<ShopDay>, key: ShopDay -> K, leq: (K, K) -> bool, roll: (K, seq<ShopDay>) -> R, keyOf: R -> K, i: nat,
    j: nat)
    requires TotalPreorder(leq) && forall k, group :: keyOf(roll(k, group)) == k
    requires i < j < |Rollups(days, key, leq, roll)|
    ensures
      var rolls := Rollups(days, key, leq, roll);
      leq(keyOf(rolls[i]), keyOf(rolls[j])) && keyOf(rolls[i]) != keyOf(rolls[j])
  {
    KeysInOrder(days, key, leq);
    SortedSorts(leq, Keys(days, key));
    hide Sorted, Keys, GroupOf, TotalPreorder;
    var ks := Sorted(leq, Keys(days, key));
    assert keyOf(roll(ks[i], GroupOf(days, key, ks[i]))) == ks[i];
    assert keyOf(roll(ks[j], GroupOf(days, key, ks[j]))) == ks[j];
  }

  predicate TextBefore(a: string, b: string) {
    a != b && LexLeq(a, b)
  }

  lemma CurrencyKeyOrder()
    ensures TotalPreorder(CurrencyKeyLeq)
  {
    forall a, b
      ensures CurrencyKeyLeq(a, b) || CurrencyKeyLeq(b, a)
    {
      LexTotal(a.currency, b.currency, b.currency);
      LexTotal(a.bookCurrency, b.bookCurrency, b.bookCurrency);
    }
    forall a, b, c | CurrencyKeyLeq(a, b) && CurrencyKeyLeq(b, c)
      ensures CurrencyKeyLeq(a, c)
    {
      LexTotal(a.currency, b.currency, c.currency);
      LexTotal(a.bookCurrency, b.bookCurrency, c.bookCurrency);
    }
  }

  lemma PlatformKeyOrder()
    ensures TotalPreorder(PlatformKeyLeq)
  {
    forall a, b
      ensures PlatformKeyLeq(a, b) || PlatformKeyLeq(b, a)
    {
      LexTotal(a.platform, b.platform, b.platform);
      LexTotal(a.site, b.site, b.site);
      LexTotal(a.currency, b.currency, b.currency);
    }
    forall a, b, c | PlatformKeyLeq(a, b) && PlatformKeyLeq(b, c)
      ensures PlatformKeyLeq(a, c)
    {
      LexTotal(a.platform, b.platform, c.platform);
      LexTotal(a.site, b.site, c.site);
      LexTotal(a.currency, b.currency, c.currency);
    }
  }

  lemma DateKeyOrder()
    ensures TotalPreorder(DateKeyLeq)
  {
    forall a, b
      ensures DateKeyLeq(a, b) || DateKeyLeq(b, a)
    {
      LexTotal(a.platform, b.platform, b.platform);
      LexTotal(a.currency, b.currency, b.currency);
    }
    forall a, b, c | DateKeyLeq(a, b) && DateKeyLeq(b, c)
      ensures DateKeyLeq(a, c)
    {
      LexTotal(a.platform, b.platform, c.platform);
      LexTotal(a.currency, b.currency, c.currency);
    }
  }

  function CurrencyRollKey(roll: CurrencyRollup): CurrencyKey { roll.key }
  function PlatformRollKey(roll: PlatformRollup): PlatformKey { roll.key }
  function DateRollKey(roll: DateRollup): DateKey { roll.key }

  ghost predicate InCurrencyRoll(days: seq<ShopDay>, roll: CurrencyRollup, day: ShopDay) {
    day in days && day.key.currency == roll.key.currency && day.bookCurrency == roll.key.bookCurrency
  }

  ghost predicate InPlatformRoll(days: seq<ShopDay>, roll: PlatformRollup, day: ShopDay) {
    && day in days && day.platform == roll.key.platform && day.site == roll.key.site
    && day.key.currency == roll.key.currency
  }

  ghost predicate InDateRoll(days: seq<ShopDay>, roll: DateRollup, day: ShopDay) {
    && day in days && day.key.date == roll.key.date && day.platform == roll.key.platform
    && day.key.currency == roll.key.currency
  }

  lemma CompleteIs(group: seq<ShopDay>)
    ensures FiguresOf(group).profitComplete <==> forall day :: day in group ==> day.profitComplete
    ensures forall part :: AdTotal(group, part).Some? <==> exists day :: day in group && day.adSpend.Some?
  {
    hide OptionTotal, Quantize, Parts, CountOf;
    if FiguresOf(group).profitComplete {
      forall day | day in group
        ensures day.profitComplete
      {
        var i :| 0 <= i < |group| && group[i] == day;
      }
    }
    if exists day :: day in group && day.adSpend.Some? {
      var day :| day in group && day.adSpend.Some?;
      var i :| 0 <= i < |group| && group[i] == day;
      assert group[i].adSpend.Some?;
    }
  }

  predicate CurrencyBefore(a: CurrencyKey, b: CurrencyKey) {
    TextBefore(a.currency, b.currency) || (a.currency == b.currency && TextBefore(a.bookCurrency, b.bookCurrency))
  }

  predicate PlatformBefore(a: PlatformKey, b: PlatformKey) {
    || TextBefore(a.platform, b.platform)
    || (a.platform == b.platform && TextBefore(a.site, b.site))
    || (a.platform == b.platform && a.site == b.site && TextBefore(a.currency, b.currency))
  }

  predicate DateBefore(a: DateKey, b: DateKey) {
    || a.date < b.date
    || (a.date == b.date && TextBefore(a.platform, b.platform))
    || (a.date == b.date && a.platform == b.platform && TextBefore(a.currency, b.currency))
  }

  /** The rollup has days; its profit is complete exactly when all of them are, and it has advertising amounts exactly
      when one of them has. */
  ghost predicate CurrencyRollShows(days: seq<ShopDay>, roll: CurrencyRollup) {
    && (exists day :: InCurrencyRoll(days, roll, day))
    && (roll.figures.profitComplete <==> forall day :: InCurrencyRoll(days, roll, day) ==> day.profitComplete)
    && (roll.adSpend.Some? <==> exists day :: InCurrencyRoll(days, roll, day) && day.adSpend.Some?)
    && (roll.adSales.Some? <==> roll.adSpend.Some?)
  }

  ghost predicate PlatformRollShows(days: seq<ShopDay>, roll: PlatformRollup) {
    && (exists day :: InPlatformRoll(days, roll, day))
    && (roll.figures.profitComplete <==> forall day :: InPlatformRoll(days, roll, day) ==> day.profitComplete)
  }

  ghost predicate DateRollShows(days: seq<ShopDay>, roll: DateRollup) {
    && (exists day :: InDateRoll(days, roll, day))
    && (roll.figures.profitComplete <==> forall day :: InDateRoll(days, roll, day) ==> day.profitComplete)
  }

  lemma CurrencyRollIs(days: seq<ShopDay>, k: CurrencyKey)
    requires GroupOf(days, DayCurrencyKey, k) != []
    ensures CurrencyRollShows(days, CurrencyRollupOf(k, GroupOf(days, DayCurrencyKey, k)))
  {
    var group := GroupOf(days, DayCurrencyKey, k);
    GroupAmong(days, DayCurrencyKey, k);
    CompleteIs(group);
    hide GroupOf, FiguresOf, AdTotal, CountOf;
    assert forall day :: day in group <==> InCurrencyRoll(days, CurrencyRollupOf(k, group), day);
    assert group[0] in group;
  }

  lemma PlatformRollIs(days: seq<ShopDay>, k: PlatformKey)
    requires GroupOf(days, DayPlatformKey, k) != []
    ensures PlatformRollShows(days, PlatformRollupOf(k, GroupOf(days, DayPlatformKey, k)))
  {
    var group := GroupOf(days, DayPlatformKey, k);
    GroupAmong(days, DayPlatformKey, k);
    CompleteIs(group);
    hide GroupOf, FiguresOf, CountOf, FirstBook;
    assert forall day :: day in group <==> InPlatformRoll(days, PlatformRollupOf(k, group), day);
    assert group[0] in group;
  }

  lemma DateRollIs(days: seq<ShopDay>, k: DateKey)
    requires GroupOf(days, DayDateKey, k) != []
    ensures DateRollShows(days, DateRollupOf(k, GroupOf(days, DayDateKey, k)))
  {
    var group := GroupOf(days, DayDateKey, k);
    GroupAmong(days, DayDateKey, k);
    CompleteIs(group);
    hide GroupOf, FiguresOf, FirstBook;
    assert forall day :: day in group <==> InDateRoll(days, DateRollupOf(k, group), day);
    assert group[0] in group;
  }

  /** Rollups by currency: one for every pair of currency and book currency among the days, in that order. */
  lemma CurrencyRollupsListed(days: seq<ShopDay>)
    ensures
      var rolls := Rollups(days, DayCurrencyKey, CurrencyKeyLeq, CurrencyRollupOf);
      && (forall i, j :: 0 <= i < j < |rolls| ==> CurrencyBefore(rolls[i].key, rolls[j].key))
      && (forall day :: day in days ==> exists i :: 0 <= i < |rolls| && InCurrencyRoll(days, rolls[i], day))
      && (forall i :: 0 <= i < |rolls| ==> CurrencyRollShows(days, rolls[i]))
  {
    CurrencyKeyOrder();
    var rolls := Rollups(days, DayCurrencyKey, CurrencyKeyLeq, CurrencyRollupOf);
    hide Rollups, GroupOf, LexLeq, FiguresOf, AdTotal, CountOf, CurrencyRollShows, TotalPreorder;
    forall day | day in days
      ensures exists i :: 0 <= i < |rolls| && InCurrencyRoll(days, rolls[i], day)
    {
      var i := RollFor(days, DayCurrencyKey, CurrencyKeyLeq, CurrencyRollupOf, CurrencyRollKey, day);
      assert InCurrencyRoll(days, rolls[i], day);
    }
    hide InCurrencyRoll;
    forall i, j | 0 <= i < j < |rolls|
      ensures CurrencyBefore(rolls[i].key, rolls[j].key)
    {
      RollOrder(days, DayCurrencyKey, CurrencyKeyLeq, CurrencyRollupOf, CurrencyRollKey, i, j);
    }
    forall i | 0 <= i < |rolls|
      ensures CurrencyRollShows(days, rolls[i])
    {
      var k := RollAt(days, DayCurrencyKey, CurrencyKeyLeq, CurrencyRollupOf, i);
      CurrencyRollIs(days, k);
    }
  }

  /** Rollups by platform: one for every platform, site and currency among the days, in that order. */
  lemma PlatformRollupsListed(days: seq<ShopDay>)
    ensures
      var rolls := Rollups(days, DayPlatformKey, PlatformKeyLeq, PlatformRollupOf);
      && (forall i, j :: 0 <= i < j < |rolls| ==> PlatformBefore(rolls[i].key, rolls[j].key))
      && (forall day :: day in days ==> exists i :: 0 <= i < |rolls| && InPlatformRoll(days, rolls[i], day))
      && (forall i :: 0 <= i < |rolls| ==> PlatformRollShows(days, rolls[i]))
  {
    PlatformKeyOrder();
    var rolls := Rollups(days, DayPlatformKey, PlatformKeyLeq, PlatformRollupOf);
    hide Rollups, GroupOf, LexLeq, FiguresOf, FirstBook, CountOf, PlatformRollShows, TotalPreorder;
    forall day | day in days
      ensures exists i :: 0 <= i < |rolls| && InPlatformRoll(days, rolls[i], day)
    {
      var i := RollFor(days, DayPlatformKey, PlatformKeyLeq, PlatformRollupOf, PlatformRollKey, day);
      assert InPlatformRoll(days, rolls[i], day);
    }
    hide InPlatformRoll;
    forall i, j | 0 <= i < j < |rolls|
      ensures PlatformBefore(rolls[i].key, rolls[j].key)
    {
      RollOrder(days, DayPlatformKey, PlatformKeyLeq, PlatformRollupOf, PlatformRollKey, i, j);
    }
    forall i | 0 <= i < |rolls|
      ensures PlatformRollShows(days, rolls[i])
    {
      var k := RollAt(days, DayPlatformKey, PlatformKeyLeq, PlatformRollupOf, i);
      PlatformRollIs(days, k);
    }
  }

  /** Rollups by date: one for every date, platform and currency among the days, in that order. */
  lemma DateRollupsListed(days: seq<ShopDay>)
    ensures
      var rolls := Rollups(days, DayDateKey, DateKeyLeq, DateRollupOf);
      && (forall i, j :: 0 <= i < j < |rolls| ==> DateBefore(rolls[i].key, rolls[j].key))
      && (forall day :: day in days ==> exists i :: 0 <= i < |rolls| && InDateRoll(days, rolls[i], day))
      && (forall i :: 0 <= i < |rolls| ==> DateRollShows(days, rolls[i]))
  {
    DateKeyOrder();
    var rolls := Rollups(days, DayDateKey, DateKeyLeq, DateRollupOf);
    hide Rollups, GroupOf, LexLeq, FiguresOf, FirstBook, DateRollShows, TotalPreorder;
    forall day | day in days
      ensures exists i :: 0 <= i < |rolls| && InDateRoll(days, rolls[i], day)
    {
      var i := RollFor(days, DayDateKey, DateKeyLeq, DateRollupOf, DateRollKey, day);
      assert InDateRoll(days, rolls[i], day);
    }
    hide InDateRoll;
    forall i, j | 0 <= i < j < |rolls|
      ensures DateBefore(rolls[i].key, rolls[j].key)
    {
      RollOrder(days, DayDateKey, DateKeyLeq, DateRollupOf, DateRollKey, i, j);
    }
    forall i | 0 <= i < |rolls|
      ensures DateRollShows(days, rolls[i])
    {
      var k := RollAt(days, DayDateKey, DateKeyLeq, DateRollupOf, i);
      DateRollIs(days, k);
    }
  }
}
