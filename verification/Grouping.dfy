/** Grouping rows by a key and adding them up: totals of totals are totals of the rows. */
module Grouping {
  import opened Options
  import opened Decimals
  import opened Sequences

  // ---- Totals that are missing when any part is missing

  predicate AllSome<T>(s: seq<T>, g: T -> Option<Decimal>) {
    forall i :: 0 <= i < |s| ==> g(s[i]).Some?
  }

  function Parts<T>(s: seq<T>, g: T -> Option<Decimal>): Decimal {
    if s == [] then 0.0 else (if g(s[0]).Some? then g(s[0]).value else 0.0) + Parts(s[1..], g)
  }

  function OptionTotal<T>(s: seq<T>, g: T -> Option<Decimal>): Option<Decimal> {
    if AllSome(s, g) then Some(Quantize(Parts(s, g))) else None
  }

  function CountOf<T>(s: seq<T>, f: T -> int): int {
    if s == [] then 0 else f(s[0]) + CountOf(s[1..], f)
  }

  ghost predicate PartsOnGrid<T>(s: seq<T>, g: T -> Option<Decimal>) {
    forall i :: 0 <= i < |s| ==> g(s[i]).Some? ==> OnGrid(g(s[i]).value)
  }

  lemma {:induction false} PartsAppend<T>(s: seq<T>, t: seq<T>, g: T -> Option<Decimal>)
    ensures Parts(s + t, g) == Parts(s, g) + Parts(t, g)
  {
    if s == [] {
      assert s + t == t;
    } else {
      TailOfAppend(s, t);
      PartsAppend(s[1..], t, g);
    }
  }

  /** Parts of six decimals add up to six decimals, so the total needs no rounding. */
  lemma {:induction false} PartsExact<T>(s: seq<T>, g: T -> Option<Decimal>)
    requires PartsOnGrid(s, g)
    ensures OnGrid(Parts(s, g)) && Quantize(Parts(s, g)) == Parts(s, g)
  {
    hide OnGrid, Quantize;
    GridFromInteger(0);
    if s != [] {
      PartsExact(s[1..], g);
      GridAdd(if g(s[0]).Some? then g(s[0]).value else 0.0, Parts(s[1..], g));
    }
    QuantizeFixes(Parts(s, g));
  }

  // ---- Keys and groups

  function KeyIs<T, K(==)>(key: T -> K, k: K): T -> bool {
    (row: T) => key(row) == k
  }

  function Other<T, K(==)>(key: T -> K, k: K): T -> bool {
    (row: T) => key(row) != k
  }

  /** The keys of the rows, each once, in order of first appearance. */
  function Keys<T, K(==)>(rows: seq<T>, key: T -> K): seq<K> {
    if rows == [] then []
    else
      var before, k := Keys(rows[..|rows| - 1], key), key(rows[|rows| - 1]);
      if k in before then before else before + [k]
  }

  lemma {:induction false} KeysOnce<T, K>(rows: seq<T>, key: T -> K)
    ensures Distinct(Keys(rows, key))
    ensures forall i :: 0 <= i < |rows| ==> key(rows[i]) in Keys(rows, key)
    ensures forall k :: k in Keys(rows, key) ==> exists i :: 0 <= i < |rows| && key(rows[i]) == k
  {
    if rows != [] {
      var last := |rows| - 1;
      KeysOnce(rows[..last], key);
      forall i | 0 <= i < |rows|
        ensures key(rows[i]) in Keys(rows, key)
      {
        assert i < last ==> rows[..last][i] == rows[i];
      }
      forall k | k in Keys(rows, key)
        ensures exists i :: 0 <= i < |rows| && key(rows[i]) == k
      {
        if k in Keys(rows[..last], key) {
          var i :| 0 <= i < last && key(rows[..last][i]) == k;
          assert key(rows[i]) == k;
        } else {
          assert key(rows[last]) == k;
        }
      }
    }
  }

  /** The rows under one key, in their order. */
  function GroupOf<T, K(==)>(rows: seq<T>, key: T -> K, k: K): seq<T> {
    Filter(rows, KeyIs(key, k))
  }

  /** Appends every row to the list kept under its key, starting a list when there is none. */
  method Group<T, K(==)>(rows: seq<T>, key: T -> K) returns (keys: seq<K>, grouped: map<K, seq<T>>)
    ensures keys == Keys(rows, key)
    ensures forall k :: k in grouped <==> k in keys
    ensures forall k :: k in grouped ==> grouped[k] == GroupOf(rows, key, k)
  {
    hide GroupOf;
    keys, grouped := [], map[];
    for i := 0 to |rows|
      invariant keys == Keys(rows[..i], key)
      invariant forall k :: k in grouped <==> k in keys
      invariant forall k :: k in grouped ==> grouped[k] == GroupOf(rows[..i], key, k)
    {
      var k := key(rows[i]);
      assert rows[..i + 1][..i] == rows[..i];
      GroupGrows(rows, key, i);
      ghost var before := grouped;
      if k !in grouped {
        NoneYet(rows[..i], key, k);
        keys := keys + [k];
        grouped := grouped[k := []];
      }
      grouped := grouped[k := grouped[k] + [rows[i]]];
      forall k' | k' in grouped
        ensures grouped[k'] == GroupOf(rows[..i + 1], key, k')
      {
        assert k' != k ==> k' in before && grouped[k'] == before[k'];
        assert GroupOf(rows[..i + 1], key, k')
            == if k == k' then GroupOf(rows[..i], key, k') + [rows[i]] else GroupOf(rows[..i], key, k');
      }
    }
    assert rows[..|rows|] == rows;
  }

  lemma GroupGrows<T, K>(rows: seq<T>, key: T -> K, i: nat)
    requires i < |rows|
    ensures forall k :: GroupOf(rows[..i + 1], key, k)
                     == if key(rows[i]) == k then GroupOf(rows[..i], key, k) + [rows[i]] else GroupOf(rows[..i], key, k)
  {
    forall k
      ensures GroupOf(rows[..i + 1], key, k)
           == if key(rows[i]) == k then GroupOf(rows[..i], key, k) + [rows[i]] else GroupOf(rows[..i], key, k)
    {
      assert rows[..i + 1] == rows[..i] + [rows[i]];
      FilterAppend(rows[..i], [rows[i]], KeyIs(key, k));
    }
  }

  lemma NoneYet<T, K>(rows: seq<T>, key: T -> K, k: K)
    requires k !in Keys(rows, key)
    ensures GroupOf(rows, key, k) == []
  {
    KeysOnce(rows, key);
    hide Keys, Filter;
    FilterNone(rows, KeyIs(key, k));
  }

  // ---- Totals of totals

  function Part<T>(x: T, p: T -> bool, g: T -> Option<Decimal>): Decimal {
    if p(x) && g(x).Some? then g(x).value else 0.0
  }

  function PartsIf<T>(s: seq<T>, p: T -> bool, g: T -> Option<Decimal>): Decimal {
    if s == [] then 0.0 else Part(s[0], p, g) + PartsIf(s[1..], p, g)
  }

  lemma {:induction false} PartsOfFilter<T>(s: seq<T>, p: T -> bool, g: T -> Option<Decimal>)
    ensures Parts(Filter(s, p), g) == PartsIf(s, p, g)
  {
    if s != [] {
      PartsOfFilter(s[1..], p, g);
      FilterHead(s, p);
      PartsAppend(if p(s[0]) then [s[0]] else [], Filter(s[1..], p), g);
    }
  }

  lemma {:induction false} PartsSplit<T, K>(rows: seq<T>, key: T -> K, k: K, p: T -> bool, g: T -> Option<Decimal>)
    ensures PartsIf(rows, p, g)
         == PartsIf(GroupOf(rows, key, k), p, g) + PartsIf(Filter(rows, Other(key, k)), p, g)
  {
    if rows != [] {
      PartsSplit(rows[1..], key, k, p, g);
      FilterHead(rows, KeyIs(key, k));
      FilterHead(rows, Other(key, k));
      var mine, theirs := GroupOf(rows[1..], key, k), Filter(rows[1..], Other(key, k));
      hide Filter, Part;
      if key(rows[0]) == k {
        assert GroupOf(rows, key, k) == [rows[0]] + mine && Filter(rows, Other(key, k)) == theirs;
      } else {
        assert GroupOf(rows, key, k) == mine && Filter(rows, Other(key, k)) == [rows[0]] + theirs;
      }
    }
  }

  lemma {:induction false} OthersKeepGroups<T, K>(rows: seq<T>, key: T -> K, k: K, other: K)
    requires k != other
    ensures GroupOf(Filter(rows, Other(key, k)), key, other) == GroupOf(rows, key, other)
  {
    if rows != [] {
      OthersKeepGroups(rows[1..], key, k, other);
      FilterHead(rows, KeyIs(key, other));
      FilterHead(rows, Other(key, k));
      FilterAppend(if key(rows[0]) == k then [] else [rows[0]], Filter(rows[1..], Other(key, k)), KeyIs(key, other));
    }
  }

  /** One rollup per key, each holding the total of its own rows. */
  ghost predicate Rolled<T, K, R>(
    rows: seq<T>, key: T -> K, ks: seq<K>, rolls: seq<R>, inRoll: R -> bool, inRow: T -> bool,
    rollPart: R -> Option<Decimal>, rowPart: T -> Option<Decimal>)
  {
    && Distinct(ks) && |rolls| == |ks|
    && (forall i :: 0 <= i < |rows| ==> key(rows[i]) in ks)
    && (forall i, j :: 0 <= i < |rows| && 0 <= j < |ks| && key(rows[i]) == ks[j] ==>
          inRow(rows[i]) == inRoll(rolls[j]))
    && (forall j :: 0 <= j < |ks| && inRoll(rolls[j]) ==>
          rollPart(rolls[j]) == OptionTotal(GroupOf(rows, key, ks[j]), rowPart))
  }

  lemma TotalsDefined<T, K, R>(
    rows: seq<T>, key: T -> K, ks: seq<K>, rolls: seq<R>, inRoll: R -> bool, inRow: T -> bool,
    rollPart: R -> Option<Decimal>, rowPart: T -> Option<Decimal>)
    requires Rolled(rows, key, ks, rolls, inRoll, inRow, rollPart, rowPart)
    ensures AllSome(Filter(rolls, inRoll), rollPart) <==> AllSome(Filter(rows, inRow), rowPart)
  {
    hide OptionTotal;
    var some, all := Filter(rolls, inRoll), Filter(rows, inRow);
    if AllSome(some, rollPart) {
      forall x | x in all
        ensures rowPart(x).Some?
      {
        FilterMember(rows, inRow, x);
        var i :| 0 <= i < |rows| && rows[i] == x;
        var j :| 0 <= j < |ks| && ks[j] == key(x);
        FilterMember(rolls, inRoll, rolls[j]);
        assert rollPart(rolls[j]).Some?;
        FilterMember(rows, KeyIs(key, ks[j]), x);
        TotalDefined(GroupOf(rows, key, ks[j]), rowPart, x);
      }
    }
    if AllSome(all, rowPart) {
      forall y | y in some
        ensures rollPart(y).Some?
      {
        FilterMember(rolls, inRoll, y);
        var j :| 0 <= j < |rolls| && rolls[j] == y;
        var group := GroupOf(rows, key, ks[j]);
        forall x | x in group
          ensures rowPart(x).Some?
        {
          FilterMember(rows, KeyIs(key, ks[j]), x);
          var i :| 0 <= i < |rows| && rows[i] == x;
          FilterMember(rows, inRow, x);
        }
        TotalOfDefined(group, rowPart);
      }
    }
  }

  lemma TotalDefined<T>(s: seq<T>, g: T -> Option<Decimal>, x: T)
    requires OptionTotal(s, g).Some? && x in s
    ensures g(x).Some?
  {
  }

  lemma TotalOfDefined<T>(s: seq<T>, g: T -> Option<Decimal>)
    requires forall x :: x in s ==> g(x).Some?
    ensures OptionTotal(s, g).Some?
  {
  }

  lemma {:induction false} PartsAllIn<T>(s: seq<T>, p: T -> bool, inside: bool, g: T -> Option<Decimal>)
    requires forall x :: x in s ==> p(x) == inside
    ensures PartsIf(s, p, g) == if inside then Parts(s, g) else 0.0
  {
    if s != [] {
      PartsAllIn(s[1..], p, inside, g);
    }
  }

  /** The first key's roll holds the total of the first key's rows. */
  lemma FirstRoll<T, K, R>(
    rows: seq<T>, key: T -> K, ks: seq<K>, rolls: seq<R>, inRoll: R -> bool, inRow: T -> bool,
    rollPart: R -> Option<Decimal>, rowPart: T -> Option<Decimal>)
    requires ks != [] && Rolled(rows, key, ks, rolls, inRoll, inRow, rollPart, rowPart)
    requires PartsOnGrid(rows, rowPart)
    requires forall x :: x in rows && inRow(x) ==> rowPart(x).Some?
    ensures Part(rolls[0], inRoll, rollPart) == PartsIf(GroupOf(rows, key, ks[0]), inRow, rowPart)
  {
    var mine := GroupOf(rows, key, ks[0]);
    forall x | x in mine
      ensures x in rows && inRow(x) == inRoll(rolls[0])
    {
      FilterMember(rows, KeyIs(key, ks[0]), x);
      var i :| 0 <= i < |rows| && rows[i] == x;
    }
    hide GroupOf, OnGrid, Quantize;
    PartsAllIn(mine, inRow, inRoll(rolls[0]), rowPart);
    if inRoll(rolls[0]) {
      forall i | 0 <= i < |mine| && rowPart(mine[i]).Some?
        ensures OnGrid(rowPart(mine[i]).value)
      {
        assert mine[i] in rows;
        var j :| 0 <= j < |rows| && rows[j] == mine[i];
      }
      PartsExact(mine, rowPart);
      assert forall i :: 0 <= i < |mine| ==> mine[i] in mine;
    }
  }

  lemma RolledRest<T, K, R>(
    rows: seq<T>, key: T -> K, ks: seq<K>, rolls: seq<R>, inRoll: R -> bool, inRow: T -> bool,
    rollPart: R -> Option<Decimal>, rowPart: T -> Option<Decimal>)
    requires ks != [] && Rolled(rows, key, ks, rolls, inRoll, inRow, rollPart, rowPart)
    ensures
      var rest := Filter(rows, Other(key, ks[0]));
      && Rolled(rest, key, ks[1..], rolls[1..], inRoll, inRow, rollPart, rowPart)
      && (forall x :: x in rest ==> x in rows)
  {
    hide OptionTotal;
    var rest := Filter(rows, Other(key, ks[0]));
    forall x | x in rest
      ensures x in rows && key(x) in ks[1..]
    {
      FilterMember(rows, Other(key, ks[0]), x);
      var i :| 0 <= i < |rows| && rows[i] == x;
      assert ks == [ks[0]] + ks[1..];
    }
    forall i, j | 0 <= i < |rest| && 0 <= j < |ks[1..]| && key(rest[i]) == ks[1..][j]
      ensures inRow(rest[i]) == inRoll(rolls[1..][j])
    {
      assert rest[i] in rows;
      var i' :| 0 <= i' < |rows| && rows[i'] == rest[i];
      assert key(rows[i']) == ks[j + 1];
    }
    forall j | 0 <= j < |ks[1..]|
      ensures GroupOf(rest, key, ks[1..][j]) == GroupOf(rows, key, ks[j + 1])
    {
      OthersKeepGroups(rows, key, ks[0], ks[j + 1]);
    }
  }

  lemma KeysForRows<T, K>(rows: seq<T>, key: T -> K, ks: seq<K>)
    requires forall i :: 0 <= i < |rows| ==> key(rows[i]) in ks
    ensures rows != [] ==> ks != []
  {
    if rows != [] {
      assert key(rows[0]) in ks;
    }
  }

  lemma {:induction false} RolledParts<T, K, R>(
    rows: seq<T>, key: T -> K, ks: seq<K>, rolls: seq<R>, inRoll: R -> bool, inRow: T -> bool,
    rollPart: R -> Option<Decimal>, rowPart: T -> Option<Decimal>)
    requires Rolled(rows, key, ks, rolls, inRoll, inRow, rollPart, rowPart)
    requires PartsOnGrid(rows, rowPart)
    requires forall x :: x in rows && inRow(x) ==> rowPart(x).Some?
    ensures PartsIf(rolls, inRoll, rollPart) == PartsIf(rows, inRow, rowPart)
    decreases |ks|
  {
    KeysForRows(rows, key, ks);
    if ks == [] {
      assert rows == [];
    } else {
      var rest := Filter(rows, Other(key, ks[0]));
      FirstRoll(rows, key, ks, rolls, inRoll, inRow, rollPart, rowPart);
      RolledRest(rows, key, ks, rolls, inRoll, inRow, rollPart, rowPart);
      PartsSplit(rows, key, ks[0], inRow, rowPart);
      hide Rolled, GroupOf, OnGrid, Filter;
      forall i | 0 <= i < |rest| && rowPart(rest[i]).Some?
        ensures OnGrid(rowPart(rest[i]).value)
      {
        assert rest[i] in rows;
        var j :| 0 <= j < |rows| && rows[j] == rest[i];
      }
      RolledParts(rest, key, ks[1..], rolls[1..], inRoll, inRow, rollPart, rowPart);
    }
  }

  /** Adding up rollups is adding up the rows they were made from: same total, missing in the same cases. */
  lemma TotalsOfTotals<T, K, R>(
    rows: seq<T>, key: T -> K, ks: seq<K>, rolls: seq<R>, inRoll: R -> bool, inRow: T -> bool,
    rollPart: R -> Option<Decimal>, rowPart: T -> Option<Decimal>)
    requires Rolled(rows, key, ks, rolls, inRoll, inRow, rollPart, rowPart)
    requires PartsOnGrid(rows, rowPart)
    ensures OptionTotal(Filter(rolls, inRoll), rollPart) == OptionTotal(Filter(rows, inRow), rowPart)
  {
    TotalsDefined(rows, key, ks, rolls, inRoll, inRow, rollPart, rowPart);
    if AllSome(Filter(rows, inRow), rowPart) {
      forall x | x in rows && inRow(x)
        ensures rowPart(x).Some?
      {
        FilterMember(rows, inRow, x);
        var i :| 0 <= i < |Filter(rows, inRow)| && Filter(rows, inRow)[i] == x;
      }
      hide Rolled, Filter;
      RolledParts(rows, key, ks, rolls, inRoll, inRow, rollPart, rowPart);
      PartsOfFilter(rolls, inRoll, rollPart);
      PartsOfFilter(rows, inRow, rowPart);
    }
  }

  lemma {:induction false} CountIsTotal<T>(s: seq<T>, f: T -> int, g: T -> Option<Decimal>)
    requires forall x :: x in s ==> g(x) == Some(f(x) as real)
    ensures OptionTotal(s, g) == Some(CountOf(s, f) as real)
  {
    CountIsParts(s, f, g);
    GridWhole(CountOf(s, f));
    QuantizeFixes(Parts(s, g));
  }

  lemma {:induction false} CountIsParts<T>(s: seq<T>, f: T -> int, g: T -> Option<Decimal>)
    requires forall x :: x in s ==> g(x) == Some(f(x) as real)
    ensures Parts(s, g) == CountOf(s, f) as real
  {
    if s != [] {
      assert s[0] in s;
      CountIsParts(s[1..], f, g);
    }
  }

  lemma {:induction false} TotalOfMap<T, U>(s: seq<T>, f: T -> U, g: U -> Option<Decimal>, h: T -> Option<Decimal>)
    requires forall x :: x in s ==> h(x) == g(f(x))
    ensures OptionTotal(Map(s, f), g) == OptionTotal(s, h)
  {
    PartsOfMap(s, f, g, h);
    var t := Map(s, f);
    forall i | 0 <= i < |s|
      ensures g(t[i]) == h(s[i])
    {
      assert s[i] in s;
    }
  }

  lemma {:induction false} PartsOfMap<T, U>(s: seq<T>, f: T -> U, g: U -> Option<Decimal>, h: T -> Option<Decimal>)
    requires forall x :: x in s ==> h(x) == g(f(x))
    ensures Parts(Map(s, f), g) == Parts(s, h)
  {
    if s != [] {
      assert s[0] in s;
      PartsOfMap(s[1..], f, g, h);
    }
  }

  /** A key has rows exactly when it is listed. */
  lemma GroupsOfKeys<T, K>(rows: seq<T>, key: T -> K)
    ensures forall k :: k in Keys(rows, key) <==> GroupOf(rows, key, k) != []
  {
    KeysOnce(rows, key);
    hide Keys;
    forall k
      ensures k in Keys(rows, key) <==> GroupOf(rows, key, k) != []
    {
      if k in Keys(rows, key) {
        var i :| 0 <= i < |rows| && key(rows[i]) == k;
        FilterMember(rows, KeyIs(key, k), rows[i]);
      } else {
        FilterNone(rows, KeyIs(key, k));
      }
    }
  }

  function CountIf<T>(s: seq<T>, p: T -> bool, f: T -> int): int {
    if s == [] then 0 else (if p(s[0]) then f(s[0]) else 0) + CountIf(s[1..], p, f)
  }

  lemma {:induction false} CountAppend<T>(s: seq<T>, t: seq<T>, f: T -> int)
    ensures CountOf(s + t, f) == CountOf(s, f) + CountOf(t, f)
  {
    if s == [] {
      assert s + t == t;
    } else {
      TailOfAppend(s, t);
      CountAppend(s[1..], t, f);
    }
  }

  lemma {:induction false} CountOfFilter<T>(s: seq<T>, p: T -> bool, f: T -> int)
    ensures CountOf(Filter(s, p), f) == CountIf(s, p, f)
  {
    if s != [] {
      CountOfFilter(s[1..], p, f);
      FilterHead(s, p);
      CountAppend(if p(s[0]) then [s[0]] else [], Filter(s[1..], p), f);
    }
  }
}
