/** Filtering and stable sorting of sequences, and when the outcome does not depend on input order. */
module Sequences {

  function Filter<T>(s: seq<T>, p: T -> bool): seq<T> {
    if s == [] then [] else (if p(s[0]) then [s[0]] else []) + Filter(s[1..], p)
  }

  function Map<T, U>(s: seq<T>, f: T -> U): (mapped: seq<U>)
    ensures |mapped| == |s| && forall i :: 0 <= i < |s| ==> mapped[i] == f(s[i])
  {
    if s == [] then [] else [f(s[0])] + Map(s[1..], f)
  }

  lemma FilterHead<T>(s: seq<T>, p: T -> bool)
    requires s != []
    ensures Filter(s, p) == (if p(s[0]) then [s[0]] else []) + Filter(s[1..], p)
  {
  }

  lemma AppendAssociates<T>(a: seq<T>, b: seq<T>, c: seq<T>)
    ensures a + b + c == a + (b + c)
  {
  }

  lemma TailOfAppend<T>(s: seq<T>, t: seq<T>)
    requires s != []
    ensures s + t != [] && (s + t)[0] == s[0] && (s + t)[1..] == s[1..] + t
  {
  }

  lemma {:induction false} FilterAppend<T>(s: seq<T>, t: seq<T>, p: T -> bool)
    ensures Filter(s + t, p) == Filter(s, p) + Filter(t, p)
  {
    hide Filter;
    if s == [] {
      assert s + t == t;
      FilterNothing(p);
    } else {
      FilterAppend(s[1..], t, p);
      TailOfAppend(s, t);
      FilterHead(s, p);
      FilterHead(s + t, p);
      AppendAssociates(if p(s[0]) then [s[0]] else [], Filter(s[1..], p), Filter(t, p));
    }
  }

  lemma FilterNothing<T>(p: T -> bool)
    ensures Filter([], p) == []
  {
  }

  lemma {:induction false} FilterAll<T>(s: seq<T>, p: T -> bool)
    requires forall i :: 0 <= i < |s| ==> p(s[i])
    ensures Filter(s, p) == s
  {
    if s != [] {
      FilterAll(s[1..], p);
    }
  }

  lemma {:induction false} FilterNone<T>(s: seq<T>, p: T -> bool)
    requires forall i :: 0 <= i < |s| ==> !p(s[i])
    ensures Filter(s, p) == []
  {
    if s != [] {
      FilterNone(s[1..], p);
    }
  }

  lemma {:induction false} FilterCounts<T>(s: seq<T>, p: T -> bool, x: T)
    ensures multiset(Filter(s, p))[x] == if p(x) then multiset(s)[x] else 0
  {
    if s != [] {
      FilterCounts(s[1..], p, x);
      assert s == [s[0]] + s[1..];
    }
  }

  lemma FilterMember<T>(s: seq<T>, p: T -> bool, x: T)
    ensures x in Filter(s, p) <==> x in s && p(x)
  {
    FilterCounts(s, p, x);
    assert x in s <==> multiset(s)[x] > 0;
    assert x in Filter(s, p) <==> multiset(Filter(s, p))[x] > 0;
  }

  lemma ReorderedSize<T>(s: seq<T>, t: seq<T>)
    requires multiset(s) == multiset(t)
    ensures |s| == |t|
    ensures forall x :: x in s <==> x in t
    ensures |s| == 1 ==> s == t
  {
    assert |s| == |multiset(s)| && |t| == |multiset(t)|;
    forall x: T
      ensures x in s <==> x in t
    {
      assert x in s <==> x in multiset(s);
    }
    if |s| == 1 {
      assert s[0] in t;
    }
  }

  lemma WithoutAt<T>(s: seq<T>, i: nat)
    requires i < |s|
    ensures multiset(s[..i] + s[i + 1..]) == multiset(s) - multiset{s[i]}
  {
    assert s == s[..i] + ([s[i]] + s[i + 1..]);
    assert multiset(s) == multiset(s[..i]) + (multiset{s[i]} + multiset(s[i + 1..]));
  }

  /** Where the first element of `s` stands in a reordering `t`, and what is left of both without it. */
  lemma FindHead<T>(s: seq<T>, t: seq<T>) returns (i: nat)
    requires s != [] && multiset(s) == multiset(t)
    ensures i < |t| && t[i] == s[0]
    ensures multiset(s[1..]) == multiset(t[..i] + t[i + 1..])
  {
    ReorderedSize(s, t);
    assert s[0] in t;
    i :| i < |t| && t[i] == s[0];
    WithoutAt(t, i);
    WithoutAt(s, 0);
    assert s[..0] + s[0 + 1..] == s[1..];
  }

  lemma FilterAround<T>(t: seq<T>, i: nat, p: T -> bool)
    requires i < |t|
    ensures Filter(t, p) == Filter(t[..i], p) + (if p(t[i]) then [t[i]] else []) + Filter(t[i + 1..], p)
  {
    assert t == t[..i] + t[i..];
    FilterAppend(t[..i], t[i..], p);
  }

  lemma {:induction false} FilterReordered<T>(s: seq<T>, t: seq<T>, p: T -> bool)
    requires multiset(s) == multiset(t)
    ensures multiset(Filter(s, p)) == multiset(Filter(t, p))
    decreases |s|
  {
    ReorderedSize(s, t);
    if s != [] {
      var i := FindHead(s, t);
      FilterReordered(s[1..], t[..i] + t[i + 1..], p);
      FilterAppend(t[..i], t[i + 1..], p);
      FilterAround(t, i, p);
    }
  }

  // ---- No element twice

  ghost predicate Distinct<K>(ks: seq<K>) {
    forall i, j :: 0 <= i < j < |ks| ==> ks[i] != ks[j]
  }

  ghost predicate NoRepeats<T(!new)>(s: seq<T>) {
    forall x :: multiset(s)[x] <= 1
  }

  lemma RepeatCounts<T>(s: seq<T>, i: nat, j: nat)
    requires i < j < |s|
    ensures s[i] == s[j] ==> multiset(s)[s[i]] >= 2
  {
    assert s == s[..j] + s[j..];
    assert s[..j][i] in multiset(s[..j]) && s[j..][0] in multiset(s[j..]);
    assert multiset(s) == multiset(s[..j]) + multiset(s[j..]);
  }

  lemma DistinctCounts<T(!new)>(s: seq<T>)
    ensures Distinct(s) <==> NoRepeats(s)
  {
    if Distinct(s) {
      DistinctNoRepeats(s);
    }
    if NoRepeats(s) {
      forall i, j | 0 <= i < j < |s|
        ensures s[i] != s[j]
      {
        RepeatCounts(s, i, j);
      }
    }
  }

  lemma {:induction false} DistinctNoRepeats<T(!new)>(s: seq<T>)
    requires Distinct(s)
    ensures NoRepeats(s)
  {
    if s != [] {
      DistinctNoRepeats(s[1..]);
      assert s == [s[0]] + s[1..];
      assert s[0] !in s[1..];
    }
  }

  lemma DistinctReordered<T(!new)>(s: seq<T>, t: seq<T>)
    requires Distinct(s) && multiset(s) == multiset(t)
    ensures Distinct(t)
  {
    DistinctCounts(s);
    DistinctCounts(t);
  }

  // ---- Stable insertion sort

  function Insert<T>(leq: (T, T) -> bool, x: T, s: seq<T>): seq<T> {
    if s == [] then [x]
    else if leq(x, s[0]) then [x] + s
    else [s[0]] + Insert(leq, x, s[1..])
  }

  function Sorted<T>(leq: (T, T) -> bool, s: seq<T>): seq<T> {
    if s == [] then [] else Insert(leq, s[0], Sorted(leq, s[1..]))
  }

  ghost predicate TotalPreorder<T(!new)>(leq: (T, T) -> bool) {
    && (forall x, y :: leq(x, y) || leq(y, x))
    && (forall x, y, z :: leq(x, y) && leq(y, z) ==> leq(x, z))
  }

  ghost predicate IsSorted<T>(leq: (T, T) -> bool, s: seq<T>) {
    forall i, j :: 0 <= i < j < |s| ==> leq(s[i], s[j])
  }

  /** No two different elements of `s` rank the same. */
  ghost predicate NoTies<T>(leq: (T, T) -> bool, s: seq<T>) {
    forall i, j :: 0 <= i < |s| && 0 <= j < |s| && leq(s[i], s[j]) && leq(s[j], s[i]) ==> s[i] == s[j]
  }

  lemma {:induction false} InsertKeepsAll<T>(leq: (T, T) -> bool, x: T, s: seq<T>)
    ensures multiset(Insert(leq, x, s)) == multiset{x} + multiset(s)
  {
    if s != [] && !leq(x, s[0]) {
      InsertKeepsAll(leq, x, s[1..]);
      assert s == [s[0]] + s[1..];
    }
  }

  /** Whatever the comparison, sorting only rearranges. */
  lemma {:induction false} SortedKeepsAll<T>(leq: (T, T) -> bool, s: seq<T>)
    ensures multiset(Sorted(leq, s)) == multiset(s)
    ensures |Sorted(leq, s)| == |s| && forall x :: x in Sorted(leq, s) <==> x in s
  {
    if s != [] {
      SortedKeepsAll(leq, s[1..]);
      InsertKeepsAll(leq, s[0], Sorted(leq, s[1..]));
      assert s == [s[0]] + s[1..];
    }
    ReorderedSize(s, Sorted(leq, s));
  }

  lemma {:induction false} InsertKeeps<T(!new)>(leq: (T, T) -> bool, x: T, s: seq<T>)
    requires TotalPreorder(leq) && IsSorted(leq, s)
    ensures multiset(Insert(leq, x, s)) == multiset{x} + multiset(s)
    ensures IsSorted(leq, Insert(leq, x, s))
  {
    if s != [] && !leq(x, s[0]) {
      var rest := Insert(leq, x, s[1..]);
      InsertKeeps(leq, x, s[1..]);
      assert s == [s[0]] + s[1..];
      forall j | 0 <= j < |rest|
        ensures leq(s[0], rest[j])
      {
        assert rest[j] in multiset(rest);
        if rest[j] != x {
          assert rest[j] in s[1..];
        }
      }
    } else if s != [] {
      forall j | 0 <= j < |s|
        ensures leq(x, s[j])
      {
        assert j > 0 ==> leq(s[0], s[j]);
      }
    }
  }

  lemma {:induction false} SortedSorts<T(!new)>(leq: (T, T) -> bool, s: seq<T>)
    requires TotalPreorder(leq)
    ensures multiset(Sorted(leq, s)) == multiset(s)
    ensures IsSorted(leq, Sorted(leq, s))
  {
    if s != [] {
      SortedSorts(leq, s[1..]);
      InsertKeeps(leq, s[0], Sorted(leq, s[1..]));
      assert s == [s[0]] + s[1..];
    }
  }

  lemma SameLeast<T(!new)>(leq: (T, T) -> bool, s: seq<T>, t: seq<T>)
    requires TotalPreorder(leq) && IsSorted(leq, s) && IsSorted(leq, t) && s != []
    requires multiset(s) == multiset(t) && NoTies(leq, s)
    ensures t != [] && s[0] == t[0]
  {
    ReorderedSize(s, t);
    assert s[0] in t && t[0] in s;
    var i :| 0 <= i < |t| && t[i] == s[0];
    var j :| 0 <= j < |s| && s[j] == t[0];
    assert leq(s[0], s[0]) && leq(t[0], t[0]);
    assert leq(t[0], t[i]);
    assert leq(s[0], s[j]);
  }

  lemma TailMultiset<T>(s: seq<T>)
    requires s != []
    ensures multiset(s[1..]) == multiset(s) - multiset{s[0]}
  {
    assert s == [s[0]] + s[1..];
  }

  lemma {:induction false} SortedUnique<T(!new)>(leq: (T, T) -> bool, s: seq<T>, t: seq<T>)
    requires TotalPreorder(leq) && IsSorted(leq, s) && IsSorted(leq, t)
    requires multiset(s) == multiset(t) && NoTies(leq, s)
    ensures s == t
    decreases |s|
  {
    ReorderedSize(s, t);
    if s != [] {
      SameLeast(leq, s, t);
      TailMultiset(s);
      TailMultiset(t);
      SortedUnique(leq, s[1..], t[1..]);
      assert s == [s[0]] + s[1..] && t == [t[0]] + t[1..];
    }
  }

  /** Sorting forgets the input order when no two different elements tie. */
  lemma SortForgetsOrder<T(!new)>(leq: (T, T) -> bool, s: seq<T>, t: seq<T>)
    requires TotalPreorder(leq) && NoTies(leq, s) && multiset(s) == multiset(t)
    ensures Sorted(leq, s) == Sorted(leq, t)
  {
    SortedSorts(leq, s);
    SortedSorts(leq, t);
    var a := Sorted(leq, s);
    ReorderedSize(s, a);
    forall i, j | 0 <= i < |a| && 0 <= j < |a| && leq(a[i], a[j]) && leq(a[j], a[i])
      ensures a[i] == a[j]
    {
      assert a[i] in s && a[j] in s;
    }
    SortedUnique(leq, a, Sorted(leq, t));
  }

  /** Code-point order of strings. */
  predicate LexLeq(a: string, b: string) {
    if a == "" then true
    else if b == "" then false
    else if a[0] != b[0] then a[0] < b[0]
    else LexLeq(a[1..], b[1..])
  }

  lemma {:induction false} LexTotal(a: string, b: string, c: string)
    ensures LexLeq(a, b) || LexLeq(b, a)
    ensures LexLeq(a, b) && LexLeq(b, c) ==> LexLeq(a, c)
    ensures LexLeq(a, b) && LexLeq(b, a) ==> a == b
    decreases |a| + |b| + |c|
  {
    if a != "" && b != "" && a[0] == b[0] {
      if c != "" {
        LexTotal(a[1..], b[1..], c[1..]);
      } else {
        LexTotal(a[1..], b[1..], c);
      }
      assert a == [a[0]] + a[1..] && b == [b[0]] + b[1..];
    }
  }

  /** Where the order is decided: a prefix comes first, otherwise the first differing character decides. */
  lemma {:induction false} LexDecides(a: string, b: string)
    ensures LexLeq(a, b) <==>
              a <= b || exists i :: 0 <= i < |a| && i < |b| && a[..i] == b[..i] && a[i] < b[i]
    decreases |a|
  {
    if a != "" && b != "" {
      if a[0] == b[0] {
        var c, d := a[1..], b[1..];
        LexDecides(c, d);
        assert a <= b <==> c <= d;
        if exists i :: 0 <= i < |c| && i < |d| && c[..i] == d[..i] && c[i] < d[i] {
          var i :| 0 <= i < |c| && i < |d| && c[..i] == d[..i] && c[i] < d[i];
          assert a[..i + 1] == [a[0]] + c[..i] && b[..i + 1] == [b[0]] + d[..i];
          assert a[i + 1] < b[i + 1];
        }
        if exists i :: 0 <= i < |a| && i < |b| && a[..i] == b[..i] && a[i] < b[i] {
          var i :| 0 <= i < |a| && i < |b| && a[..i] == b[..i] && a[i] < b[i];
          assert c[..i - 1] == a[..i][1..] && d[..i - 1] == b[..i][1..];
          assert c[i - 1] < d[i - 1];
        }
      } else {
        assert a[..0] == b[..0];
        if exists i :: 0 <= i < |a| && i < |b| && a[..i] == b[..i] && a[i] < b[i] {
          var i :| 0 <= i < |a| && i < |b| && a[..i] == b[..i] && a[i] < b[i];
          assert i > 0 ==> a[..i][0] == b[..i][0];
        }
      }
    }
  }

  lemma LexPreorder()
    ensures TotalPreorder(LexLeq)
  {
    forall a, b
      ensures LexLeq(a, b) || LexLeq(b, a)
    {
      LexTotal(a, b, b);
    }
    forall a, b, c | LexLeq(a, b) && LexLeq(b, c)
      ensures LexLeq(a, c)
    {
      LexTotal(a, b, c);
    }
  }
}
