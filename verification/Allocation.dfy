/** Greedy multi-warehouse allocation: the default warehouse first, then the fullest others. */
module Allocation {
  import opened Options
  import opened Sequences

  datatype WarehouseType = LOCAL | OVERSEAS | FBA | PLATFORM

  datatype BinView = BinView(
    warehouseId: int, available: int, occupied: int, isDefault: bool, warehouseType: WarehouseType)

  datatype Share = Share(warehouseId: int, quantity: int)

  datatype Plan = Plan(chosen: seq<Share>, left: int)

  datatype PlanError = NegativeQuantity

  function FreeQty(b: BinView): int {
    b.available - b.occupied
  }

  predicate Eligible(b: BinView) {
    (b.isDefault || b.warehouseType != PLATFORM) && FreeQty(b) > 0
  }

  /** Default bins first, then more free stock first, then the smaller id. */
  predicate RankLeq(a: BinView, b: BinView) {
    if a.isDefault != b.isDefault then a.isDefault
    else if FreeQty(a) != FreeQty(b) then FreeQty(a) > FreeQty(b)
    else a.warehouseId <= b.warehouseId
  }

  function Greedy(ranked: seq<BinView>, left: int): Plan {
    if ranked == [] || left == 0 then Plan([], left)
    else if !Eligible(ranked[0]) then Greedy(ranked[1..], left)
    else
      var free := FreeQty(ranked[0]);
      var take := if free <= left then free else left;
      var rest := Greedy(ranked[1..], left - take);
      Plan([Share(ranked[0].warehouseId, take)] + rest.chosen, rest.left)
  }

  function PlanFor(bins: seq<BinView>, quantity: int): Plan {
    Greedy(Sorted(RankLeq, bins), quantity)
  }

  method PlanAllocations(bins: seq<BinView>, quantity: int) returns (r: Result<Plan, PlanError>)
    ensures r == if quantity < 0 then Err(NegativeQuantity) else Ok(PlanFor(bins, quantity))
  {
    if quantity < 0 {
      return Err(NegativeQuantity);
    }
    var ranked := Sorted(RankLeq, bins);
    var left := quantity;
    var chosen: seq<Share> := [];
    var i := 0;
    while i < |ranked|
      invariant 0 <= i <= |ranked|
      invariant Greedy(ranked, quantity)
             == Plan(chosen + Greedy(ranked[i..], left).chosen, Greedy(ranked[i..], left).left)
    {
      if left == 0 {
        break;
      }
      var item := ranked[i];
      assert ranked[i..][1..] == ranked[i + 1..];
      if !item.isDefault && item.warehouseType == PLATFORM {
        i := i + 1;
        continue;
      }
      var free := item.available - item.occupied;
      if free <= 0 {
        i := i + 1;
        continue;
      }
      var take := if free <= left then free else left;
      ghost var further := Greedy(ranked[i + 1..], left - take).chosen;
      assert chosen + ([Share(item.warehouseId, take)] + further)
          == (chosen + [Share(item.warehouseId, take)]) + further;
      chosen := chosen + [Share(item.warehouseId, take)];
      left := left - take;
      i := i + 1;
    }
    assert chosen + [] == chosen;
    return Ok(Plan(chosen, left));
  }

  // ---- Sums

  function Free(bins: seq<BinView>): int {
    if bins == [] then 0 else FreeQty(bins[0]) + Free(bins[1..])
  }

  function Taken(chosen: seq<Share>): int {
    if chosen == [] then 0 else chosen[0].quantity + Taken(chosen[1..])
  }

  lemma {:induction false} FreeAppend(a: seq<BinView>, b: seq<BinView>)
    ensures Free(a + b) == Free(a) + Free(b)
  {
    if a == [] {
      assert a + b == b;
    } else {
      assert (a + b)[1..] == a[1..] + b;
      FreeAppend(a[1..], b);
    }
  }

  lemma FreeAround(s: seq<BinView>, i: nat)
    requires i < |s|
    ensures Free(s) == FreeQty(s[i]) + Free(s[..i] + s[i + 1..])
  {
    assert s == s[..i] + s[i..];
    FreeAppend(s[..i], s[i..]);
    FreeAppend(s[..i], s[i + 1..]);
  }

  lemma {:induction false} FreeReordered(s: seq<BinView>, t: seq<BinView>)
    requires multiset(s) == multiset(t)
    ensures Free(s) == Free(t)
    decreases |s|
  {
    ReorderedSize(s, t);
    if s != [] {
      var i := FindHead(s, t);
      FreeReordered(s[1..], t[..i] + t[i + 1..]);
      FreeAround(t, i);
    }
  }

  // ---- The greedy plan takes a prefix of the eligible bins

  /** Bins 0..n-1 give all they have free. */
  function FullShares(bins: seq<BinView>): seq<Share> {
    if bins == [] then []
    else [Share(bins[0].warehouseId, FreeQty(bins[0]))] + FullShares(bins[1..])
  }

  /** The plan empties `full` and takes the rest of the quantity from `last`, if there is a last bin. */
  ghost predicate TakesPrefix(eligible: seq<BinView>, quantity: int, plan: Plan, full: nat) {
    && full <= |eligible|
    && Free(eligible[..full]) <= quantity
    && (full == |eligible| ==>
          plan == Plan(FullShares(eligible), quantity - Free(eligible)))
    && (full < |eligible| ==>
          var rest := quantity - Free(eligible[..full]);
          && rest < FreeQty(eligible[full])
          && plan == Plan(
               FullShares(eligible[..full]) +
               (if rest == 0 then [] else [Share(eligible[full].warehouseId, rest)]),
               0))
  }

  lemma TakesOneMore(b: BinView, rest: seq<BinView>, quantity: int, plan: Plan, more: nat)
    requires FreeQty(b) <= quantity && TakesPrefix(rest, quantity - FreeQty(b), plan, more)
    ensures TakesPrefix([b] + rest, quantity,
                        Plan([Share(b.warehouseId, FreeQty(b))] + plan.chosen, plan.left), more + 1)
  {
    var all := [b] + rest;
    assert all[..more + 1] == [b] + rest[..more];
    assert all[1..] == rest && ([b] + rest[..more])[1..] == rest[..more];
    if more < |rest| {
      assert all[more + 1] == rest[more];
    }
  }

  lemma TakesPart(b: BinView, rest: seq<BinView>, quantity: int)
    requires 0 <= quantity < FreeQty(b)
    ensures TakesPrefix([b] + rest, quantity,
                        Plan(if quantity == 0 then [] else [Share(b.warehouseId, quantity)], 0), 0)
  {
    assert ([b] + rest)[..0] == [];
  }

  lemma {:induction false} GreedyTakesPrefix(ranked: seq<BinView>, quantity: int) returns (full: nat)
    requires quantity >= 0
    ensures TakesPrefix(Filter(ranked, Eligible), quantity, Greedy(ranked, quantity), full)
  {
    full := 0;
    if ranked != [] {
      var rest := Filter(ranked[1..], Eligible);
      if !Eligible(ranked[0]) {
        full := GreedyTakesPrefix(ranked[1..], quantity);
        assert Filter(ranked, Eligible) == rest;
        assert quantity == 0 ==> Greedy(ranked[1..], 0) == Plan([], 0);
      } else if FreeQty(ranked[0]) <= quantity {
        var more := GreedyTakesPrefix(ranked[1..], quantity - FreeQty(ranked[0]));
        full := more + 1;
        TakesOneMore(ranked[0], rest, quantity, Greedy(ranked[1..], quantity - FreeQty(ranked[0])), more);
      } else {
        TakesPart(ranked[0], rest, quantity);
        assert Greedy(ranked[1..], 0) == Plan([], 0);
        assert [Share(ranked[0].warehouseId, quantity)] + [] == [Share(ranked[0].warehouseId, quantity)];
      }
    }
  }

  // ---- What the plan guarantees

  /** The bins a plan may use, in the order it uses them. */
  function Candidates(bins: seq<BinView>): seq<BinView> {
    Filter(Sorted(RankLeq, bins), Eligible)
  }

  lemma RankIsTotal()
    ensures TotalPreorder(RankLeq)
  {
  }

  lemma CandidatesMultiset(bins: seq<BinView>)
    ensures multiset(Candidates(bins)) == multiset(Filter(bins, Eligible))
    ensures IsSorted(RankLeq, Candidates(bins))
    ensures forall b :: b in Candidates(bins) <==> b in bins && Eligible(b)
  {
    RankIsTotal();
    SortedSorts(RankLeq, bins);
    FilterReordered(Sorted(RankLeq, bins), bins, Eligible);
    FilterKeepsOrder(Sorted(RankLeq, bins));
    ReorderedSize(Candidates(bins), Filter(bins, Eligible));
    forall b
      ensures b in Candidates(bins) <==> b in bins && Eligible(b)
    {
      FilterMember(bins, Eligible, b);
    }
  }

  lemma {:induction false} FilterKeepsOrder(s: seq<BinView>)
    requires IsSorted(RankLeq, s)
    ensures IsSorted(RankLeq, Filter(s, Eligible))
  {
    if s != [] {
      FilterKeepsOrder(s[1..]);
      var rest := Filter(s[1..], Eligible);
      forall j | 0 <= j < |rest|
        ensures RankLeq(s[0], rest[j])
      {
        FilterMember(s[1..], Eligible, rest[j]);
        assert rest[j] in rest;
        var k :| 0 <= k < |s[1..]| && s[1..][k] == rest[j];
        assert RankLeq(s[0], s[k + 1]);
      }
    }
  }

  lemma {:induction false} FullSharesFacts(bins: seq<BinView>)
    ensures |FullShares(bins)| == |bins| && Taken(FullShares(bins)) == Free(bins)
    ensures forall i :: 0 <= i < |bins| ==> FullShares(bins)[i] == Share(bins[i].warehouseId, FreeQty(bins[i]))
  {
    if bins != [] {
      FullSharesFacts(bins[1..]);
    }
  }

  lemma {:induction false} TakenAppend(a: seq<Share>, b: seq<Share>)
    ensures Taken(a + b) == Taken(a) + Taken(b)
  {
    if a == [] {
      assert a + b == b;
    } else {
      assert (a + b)[1..] == a[1..] + b;
      TakenAppend(a[1..], b);
    }
  }

  lemma {:induction false} FreePrefixMonotone(bins: seq<BinView>, n: nat)
    requires n <= |bins| && forall i :: 0 <= i < |bins| ==> FreeQty(bins[i]) > 0
    ensures 0 <= Free(bins[..n]) <= Free(bins)
    ensures n < |bins| ==> Free(bins[..n]) < Free(bins)
  {
    if n > 0 {
      assert bins[..n][1..] == bins[1..][..n - 1];
      FreePrefixMonotone(bins[1..], n - 1);
    } else if bins != [] {
      FreePrefixMonotone(bins[1..], 0);
      assert bins[..0] == [] && bins[1..][..0] == [];
    }
  }

  /** The shares follow the candidates: every one but the last empties its bin, the last takes a positive
      part of its bin, together they reach the quantity or everything there is. */
  ghost predicate Shape(c: seq<BinView>, quantity: int, plan: Plan) {
    var n := |plan.chosen|;
    && n <= |c|
    && (forall i :: 0 <= i < n ==>
          && plan.chosen[i].warehouseId == c[i].warehouseId
          && 0 < plan.chosen[i].quantity <= FreeQty(c[i])
          && (i < n - 1 || plan.left > 0 ==> plan.chosen[i].quantity == FreeQty(c[i])))
    && Taken(plan.chosen) + plan.left == quantity
    && plan.left == (if quantity > Free(c) then quantity - Free(c) else 0)
    && (n > 0 ==> Free(c[..n - 1]) < Taken(plan.chosen))
    && (n < |c| ==> plan.left == 0)
  }

  lemma ShapeOfFull(c: seq<BinView>, quantity: int, plan: Plan, full: nat)
    requires forall i :: 0 <= i < |c| ==> FreeQty(c[i]) > 0
    requires full <= |c| && Free(c[..full]) <= quantity && (full < |c| ==> Free(c[..full]) == quantity)
    requires plan == Plan(FullShares(c[..full]), quantity - Free(c[..full]))
    ensures Shape(c, quantity, plan)
  {
    FullSharesFacts(c[..full]);
    FreePrefixMonotone(c, full);
    assert full == |c| ==> c[..full] == c;
    if full > 0 {
      assert c[..full][..full - 1] == c[..full - 1];
      FreePrefixMonotone(c[..full], full - 1);
    }
  }

  lemma ShapeOfPart(c: seq<BinView>, quantity: int, plan: Plan, full: nat, rest: int)
    requires forall i :: 0 <= i < |c| ==> FreeQty(c[i]) > 0
    requires full < |c| && rest == quantity - Free(c[..full]) && 0 < rest < FreeQty(c[full])
    requires plan == Plan(FullShares(c[..full]) + [Share(c[full].warehouseId, rest)], 0)
    ensures Shape(c, quantity, plan)
  {
    FullSharesFacts(c[..full]);
    TakenAppend(FullShares(c[..full]), [Share(c[full].warehouseId, rest)]);
    assert c[..full + 1] == c[..full] + [c[full]];
    FreeAppend(c[..full], [c[full]]);
    FreePrefixMonotone(c, full + 1);
  }

  lemma PlanShape(bins: seq<BinView>, quantity: int)
    requires quantity >= 0
    ensures Shape(Candidates(bins), quantity, PlanFor(bins, quantity))
  {
    var c := Candidates(bins);
    var plan := PlanFor(bins, quantity);
    CandidatesMultiset(bins);
    var full := GreedyTakesPrefix(Sorted(RankLeq, bins), quantity);
    hide PlanFor, Candidates, Greedy, RankLeq;
    assert TakesPrefix(c, quantity, plan, full);
    forall i | 0 <= i < |c|
      ensures FreeQty(c[i]) > 0
    {
      assert c[i] in c;
    }
    var rest := quantity - Free(c[..full]);
    if full < |c| && rest > 0 {
      ShapeOfPart(c, quantity, plan, full, rest);
    } else {
      assert full == |c| ==> c[..full] == c;
      assert FullShares(c[..full]) + [] == FullShares(c[..full]);
      ShapeOfFull(c, quantity, plan, full);
    }
  }

  /** Conservation: what is taken and what is left make up the request, and what is left is exactly the
      part of the request that all eligible bins together cannot cover. */
  lemma PlanConserves(bins: seq<BinView>, quantity: int)
    requires quantity >= 0
    ensures
      var plan := PlanFor(bins, quantity);
      var total := Free(Filter(bins, Eligible));
      && Taken(plan.chosen) + plan.left == quantity
      && plan.left == if quantity > total then quantity - total else 0
  {
    PlanShape(bins, quantity);
    CandidatesMultiset(bins);
    FreeReordered(Candidates(bins), Filter(bins, Eligible));
  }

  ghost predicate DistinctIds(bins: seq<BinView>) {
    forall i, j :: 0 <= i < |bins| && 0 <= j < |bins| && bins[i].warehouseId == bins[j].warehouseId ==> bins[i] == bins[j]
  }

  /** No bin gives more than it has free, and none gives nothing. */
  lemma SharesWithinBins(bins: seq<BinView>, quantity: int, s: Share)
    requires quantity >= 0 && s in PlanFor(bins, quantity).chosen
    ensures exists b :: b in bins && Eligible(b) && b.warehouseId == s.warehouseId && 0 < s.quantity <= FreeQty(b)
  {
    var c := Candidates(bins);
    PlanShape(bins, quantity);
    CandidatesMultiset(bins);
    hide Candidates, PlanFor, Eligible;
    var chosen := PlanFor(bins, quantity).chosen;
    var i :| 0 <= i < |chosen| && chosen[i] == s;
    assert c[i] in c;
  }

  /** A non-default bin is used only when every default bin gives all it has free. */
  lemma DefaultsFirst(bins: seq<BinView>, quantity: int, s: Share, b: BinView, d: BinView)
    requires quantity >= 0 && DistinctIds(bins) && s in PlanFor(bins, quantity).chosen
    requires b in bins && b.warehouseId == s.warehouseId && !b.isDefault
    requires d in bins && d.isDefault && Eligible(d)
    ensures Share(d.warehouseId, FreeQty(d)) in PlanFor(bins, quantity).chosen
  {
    hide Candidates, PlanFor, Eligible, Free, Taken, FreeQty;
    var c := Candidates(bins);
    PlanShape(bins, quantity);
    CandidatesMultiset(bins);
    var chosen := PlanFor(bins, quantity).chosen;
    var i :| 0 <= i < |chosen| && chosen[i] == s;
    assert c[i] in c;
    assert c[i] in bins && c[i] == b;
    assert d in c;
    var k :| 0 <= k < |c| && c[k] == d;
    assert k < i;
    assert chosen[k] == Share(d.warehouseId, FreeQty(d));
  }

  /** Takes one bin off both lists: the top of the sorted one and, if it is there, the same of the other. */
  lemma DropOne(sorted: seq<BinView>, some: seq<BinView>) returns (i: nat)
    requires multiset(some) <= multiset(sorted) && some != []
    ensures i < |some| && some[i] in sorted && sorted != []
    ensures multiset(some[..i] + some[i + 1..]) <= multiset(sorted[1..])
  {
    assert some[0] in multiset(some);
    assert some[0] in sorted;
    var top := sorted[0];
    i := if top in some then IndexOf(some, top) else 0;
    WithoutAt(some, i);
    TailMultiset(sorted);
    assert some[i] in multiset(some);
    if top !in some {
      assert multiset(some)[top] == 0;
    }
  }

  /** Any k bins out of a list sorted by falling free stock have at most as much free as its first k. */
  lemma {:induction false} FirstAreLargest(sorted: seq<BinView>, some: seq<BinView>)
    requires forall i, j :: 0 <= i < j < |sorted| ==> FreeQty(sorted[i]) >= FreeQty(sorted[j])
    requires multiset(some) <= multiset(sorted)
    ensures |some| <= |sorted| && Free(some) <= Free(sorted[..|some|])
    decreases |sorted|
  {
    SubMultisetSize(some, sorted);
    if some != [] {
      var i := DropOne(sorted, some);
      var others := some[..i] + some[i + 1..];
      FirstAreLargest(sorted[1..], others);
      FreeAround(some, i);
      assert sorted[..|some|][1..] == sorted[1..][..|others|];
      assert FreeQty(some[i]) <= FreeQty(sorted[0]);
    }
  }

  lemma SubMultisetSize(a: seq<BinView>, b: seq<BinView>)
    requires multiset(a) <= multiset(b)
    ensures |a| <= |b|
  {
    assert |multiset(b)| == |multiset(a)| + |multiset(b) - multiset(a)|;
  }

  function IndexOf(s: seq<BinView>, b: BinView): (i: nat)
    requires b in s
    ensures i < |s| && s[i] == b
  {
    if s[0] == b then 0 else 1 + IndexOf(s[1..], b)
  }

  predicate IsOther(b: BinView) {
    !b.isDefault
  }

  predicate IsDefault(b: BinView) {
    b.isDefault
  }

  /** The candidates are the defaults followed by the others. */
  lemma {:induction false} DefaultsThenOthers(c: seq<BinView>)
    requires IsSorted(RankLeq, c)
    ensures c == Filter(c, IsDefault) + Filter(c, IsOther)
  {
    if c != [] {
      DefaultsThenOthers(c[1..]);
      if !c[0].isDefault {
        forall j | 0 <= j < |c|
          ensures !c[j].isDefault
        {
          assert j > 0 ==> RankLeq(c[0], c[j]);
        }
        NoDefaults(c[1..]);
      }
    }
  }

  lemma {:induction false} NoDefaults(c: seq<BinView>)
    requires forall j :: 0 <= j < |c| ==> !c[j].isDefault
    ensures Filter(c, IsDefault) == []
  {
    if c != [] {
      NoDefaults(c[1..]);
    }
  }

  /** How many non-default bins the plan uses. */
  function OthersUsed(bins: seq<BinView>, quantity: int): int {
    var defaults := |Filter(Candidates(bins), IsDefault)|;
    var used := |PlanFor(bins, quantity).chosen|;
    if used > defaults then used - defaults else 0
  }

  lemma OthersAmongCandidates(bins: seq<BinView>, others: seq<BinView>, rest: seq<BinView>)
    requires rest == Filter(Candidates(bins), IsOther)
    requires multiset(others) <= multiset(bins) && forall b :: b in others ==> Eligible(b) && IsOther(b)
    ensures multiset(others) <= multiset(rest)
  {
    CandidatesMultiset(bins);
    forall b: BinView
      ensures multiset(others)[b] <= multiset(rest)[b]
    {
      FilterCounts(Candidates(bins), IsOther, b);
      FilterCounts(bins, Eligible, b);
      if b in multiset(others) {
        assert b in others;
      }
    }
  }

  lemma FewerCannotCover(defaults: seq<BinView>, rest: seq<BinView>, others: seq<BinView>, k: nat)
    requires forall i, j :: 0 <= i < j < |rest| ==> FreeQty(rest[i]) >= FreeQty(rest[j])
    requires forall i :: 0 <= i < |rest| ==> FreeQty(rest[i]) > 0
    requires multiset(others) <= multiset(rest) && |others| <= k <= |rest|
    ensures Free(defaults) + Free(others) <= Free(defaults + rest[..k])
  {
    FirstAreLargest(rest, others);
    FreeAppend(defaults, rest[..k]);
    assert rest[..k][..|others|] == rest[..|others|];
    FreePrefixMonotone(rest[..k], |others|);
  }

  lemma OthersFallingFree(c: seq<BinView>, defaults: seq<BinView>, rest: seq<BinView>)
    requires IsSorted(RankLeq, c) && c == defaults + rest
    requires forall b :: b in rest ==> IsOther(b)
    ensures forall i, j :: 0 <= i < j < |rest| ==> FreeQty(rest[i]) >= FreeQty(rest[j])
  {
    var d := |defaults|;
    forall i, j | 0 <= i < j < |rest|
      ensures FreeQty(rest[i]) >= FreeQty(rest[j])
    {
      assert c[d + i] == rest[i] && c[d + j] == rest[j];
      assert RankLeq(c[d + i], c[d + j]);
      assert rest[i] in rest && rest[j] in rest;
    }
  }

  lemma OthersFacts(bins: seq<BinView>, c: seq<BinView>, defaults: seq<BinView>, rest: seq<BinView>)
    requires c == Candidates(bins) && defaults == Filter(c, IsDefault) && rest == Filter(c, IsOther)
    ensures c == defaults + rest
    ensures forall i, j :: 0 <= i < j < |rest| ==> FreeQty(rest[i]) >= FreeQty(rest[j])
    ensures forall i :: 0 <= i < |rest| ==> FreeQty(rest[i]) > 0
  {
    CandidatesMultiset(bins);
    DefaultsThenOthers(c);
    forall b
      ensures b in rest <==> b in c && IsOther(b)
    {
      FilterMember(c, IsOther, b);
    }
    hide Candidates, Filter, RankLeq;
    OthersFallingFree(c, defaults, rest);
    forall i | 0 <= i < |rest|
      ensures FreeQty(rest[i]) > 0
    {
      assert rest[i] in rest;
    }
  }

  lemma ShapeReaches(c: seq<BinView>, quantity: int, plan: Plan)
    requires Shape(c, quantity, plan)
    ensures |plan.chosen| <= |c|
    ensures plan.chosen != [] ==> Free(c[..|plan.chosen| - 1]) < Taken(plan.chosen)
  {
  }

  lemma CoverNeedsAsMany(
    c: seq<BinView>, defaults: seq<BinView>, rest: seq<BinView>, others: seq<BinView>, plan: Plan, quantity: int)
    requires c == defaults + rest && Shape(c, quantity, plan)
    requires forall i, j :: 0 <= i < j < |rest| ==> FreeQty(rest[i]) >= FreeQty(rest[j])
    requires forall i :: 0 <= i < |rest| ==> FreeQty(rest[i]) > 0
    requires multiset(others) <= multiset(rest)
    requires Free(defaults) + Free(others) >= Taken(plan.chosen)
    ensures |others| >= |plan.chosen| - |defaults|
  {
    ShapeReaches(c, quantity, plan);
    hide Shape, Free, Taken, FreeQty;
    var k := |plan.chosen| - 1 - |defaults|;
    if 0 <= k && |others| <= k {
      assert c[..|plan.chosen| - 1] == defaults + rest[..k];
      FewerCannotCover(defaults, rest, others, k);
    }
  }

  /** Greedy is optimal: any set of eligible non-default bins that, with all the defaults, can cover what
      the plan covers has at least as many bins as the plan uses. */
  lemma FewestOthers(bins: seq<BinView>, quantity: int, others: seq<BinView>)
    requires quantity >= 0
    requires multiset(others) <= multiset(bins) && forall b :: b in others ==> Eligible(b) && IsOther(b)
    requires Free(Filter(Candidates(bins), IsDefault)) + Free(others) >= Taken(PlanFor(bins, quantity).chosen)
    ensures |others| >= OthersUsed(bins, quantity)
  {
    var c := Candidates(bins);
    var defaults, rest := Filter(c, IsDefault), Filter(c, IsOther);
    PlanShape(bins, quantity);
    OthersFacts(bins, c, defaults, rest);
    OthersAmongCandidates(bins, others, rest);
    hide Candidates, PlanFor, Filter, Free, FreeQty, Shape;
    CoverNeedsAsMany(c, defaults, rest, others, PlanFor(bins, quantity), quantity);
  }

  /** The share comes from a non-default bin. */
  function FromOther(bins: seq<BinView>): Share -> bool {
    (s: Share) => exists i :: 0 <= i < |bins| && bins[i].warehouseId == s.warehouseId && IsOther(bins[i])
  }

  lemma CountFrom(chosen: seq<Share>, p: Share -> bool, d: nat)
    requires forall i :: 0 <= i < |chosen| ==> (p(chosen[i]) <==> i >= d)
    ensures |Filter(chosen, p)| == if |chosen| > d then |chosen| - d else 0
  {
    if |chosen| > d {
      assert chosen == chosen[..d] + chosen[d..];
      FilterAppend(chosen[..d], chosen[d..], p);
      FilterNone(chosen[..d], p);
      FilterAll(chosen[d..], p);
    } else {
      FilterNone(chosen, p);
    }
  }

  lemma SourceOfShare(bins: seq<BinView>, b: BinView, s: Share)
    requires DistinctIds(bins) && b in bins && s.warehouseId == b.warehouseId
    ensures FromOther(bins)(s) <==> IsOther(b)
  {
    var k :| 0 <= k < |bins| && bins[k] == b;
  }

  /** With distinct warehouse ids that count is the number of shares from non-default warehouses. */
  lemma OthersUsedAreShares(bins: seq<BinView>, quantity: int)
    requires quantity >= 0 && DistinctIds(bins)
    ensures |Filter(PlanFor(bins, quantity).chosen, FromOther(bins))| == OthersUsed(bins, quantity)
  {
    hide Candidates, PlanFor, Filter, Eligible, Free, Taken, FreeQty, RankLeq, DistinctIds, FromOther;
    var c, chosen := Candidates(bins), PlanFor(bins, quantity).chosen;
    var defaults, rest := Filter(c, IsDefault), Filter(c, IsOther);
    PlanShape(bins, quantity);
    OthersFacts(bins, c, defaults, rest);
    CandidatesMultiset(bins);
    forall i | 0 <= i < |chosen|
      ensures FromOther(bins)(chosen[i]) <==> i >= |defaults|
    {
      assert c[i] in c;
      SourceOfShare(bins, c[i], chosen[i]);
      if i < |defaults| {
        assert c[i] == defaults[i] && defaults[i] in defaults;
        FilterMember(c, IsDefault, c[i]);
      } else {
        assert c[i] == rest[i - |defaults|] && rest[i - |defaults|] in rest;
        FilterMember(c, IsOther, c[i]);
      }
    }
    CountFrom(chosen, FromOther(bins), |defaults|);
  }

  // ---- The plan, outright

  /** A bin that may give: a default one whatever its type, another unless a platform's, with pieces not yet taken. */
  predicate MayGive(b: BinView) {
    (b.isDefault || b.warehouseType != PLATFORM) && b.available - b.occupied > 0
  }

  /** Defaults before others, then more free pieces first, then the smaller id. */
  predicate Ahead(a: BinView, b: BinView) {
    || (a.isDefault && !b.isDefault)
    || (a.isDefault == b.isDefault
        && (a.available - a.occupied > b.available - b.occupied
            || (a.available - a.occupied == b.available - b.occupied && a.warehouseId < b.warehouseId)))
  }

  /** The shares are drawn in turn: each from its bin, no more than it has, all it has but for the last; and all that
      every bin has if the quantity is not reached. */
  ghost predicate DrawnInTurn(plan: Plan, drawn: seq<BinView>) {
    && |plan.chosen| == |drawn|
    && forall i :: 0 <= i < |drawn| ==>
         && plan.chosen[i].warehouseId == drawn[i].warehouseId
         && 0 < plan.chosen[i].quantity <= drawn[i].available - drawn[i].occupied
         && (i < |drawn| - 1 || plan.left > 0 ==> plan.chosen[i].quantity == drawn[i].available - drawn[i].occupied)
  }

  ghost predicate InRankOrder(bins: seq<BinView>) {
    forall i, j :: 0 <= i < j < |bins| ==> !Ahead(bins[j], bins[i])
  }

  /** The bins a plan draws on, followed by those it spares, are all that may give, in rank order: defaults, then fuller
      ones, then smaller ids. It draws on them in turn, and spares one only when nothing is left to find. */
  lemma PlanFollowsRank(bins: seq<BinView>, quantity: int) returns (drawn: seq<BinView>, spared: seq<BinView>)
    requires quantity >= 0
    ensures multiset(drawn + spared) == multiset(Filter(bins, MayGive)) && InRankOrder(drawn + spared)
    ensures DrawnInTurn(PlanFor(bins, quantity), drawn)
    ensures PlanFor(bins, quantity).left > 0 ==> spared == []
  {
    hide *;
    var c, plan := Candidates(bins), PlanFor(bins, quantity);
    PlanShape(bins, quantity);
    CandidatesMultiset(bins);
    SameFilter(bins);
    RankedInOrder(c);
    ShapeDraws(c, quantity, plan);
    var n := |plan.chosen|;
    drawn, spared := c[..n], c[n..];
    assert c == drawn + spared;
  }

  lemma RankedInOrder(c: seq<BinView>)
    requires IsSorted(RankLeq, c)
    ensures InRankOrder(c)
  {
    forall i, j | 0 <= i < j < |c|
      ensures !Ahead(c[j], c[i])
    {
      assert RankLeq(c[i], c[j]);
    }
  }

  lemma ShapeDraws(c: seq<BinView>, quantity: int, plan: Plan)
    requires Shape(c, quantity, plan)
    ensures |plan.chosen| <= |c| && DrawnInTurn(plan, c[..|plan.chosen|])
    ensures plan.left > 0 ==> |plan.chosen| == |c|
  {
    hide Free, Taken;
  }

  lemma {:induction false} SameFilter(bins: seq<BinView>)
    ensures Filter(bins, Eligible) == Filter(bins, MayGive)
  {
    if bins != [] {
      SameFilter(bins[1..]);
    }
  }

  /** With distinct warehouse ids the plan does not depend on the order the bins come in. */
  lemma PlanForgetsOrder(bins: seq<BinView>, shuffled: seq<BinView>, quantity: int)
    requires DistinctIds(bins) && multiset(bins) == multiset(shuffled)
    ensures PlanFor(bins, quantity) == PlanFor(shuffled, quantity)
  {
    RankIsTotal();
    SortForgetsOrder(RankLeq, bins, shuffled);
  }
}
