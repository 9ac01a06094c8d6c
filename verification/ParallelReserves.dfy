/** Many attempts to reserve from one level. The reservation runs under a lock; the shared success counter
    is bumped outside it, as a read followed by a write. */
module ParallelReserves {
  import opened StockLedger

  datatype Phase = Pending | Refused | Reserved | Loaded(seen: int) | Counted

  datatype Race = Race(level: Level, successes: int, phases: seq<Phase>)

  /** `Bump` is an increment that nothing comes between; `Load` and `Store` are its two halves. */
  datatype Action = TryOnce(i: nat) | Load(i: nat) | Store(i: nat) | Bump(i: nat)

  function Next(s: Race, quantity: int, a: Action): Race {
    if a.i >= |s.phases| then s
    else
      match a
      case TryOnce(i) =>
        if s.phases[i] != Pending then s
        else
          var t := Try(s.level, Reserve, quantity, s.level.version);
          s.(level := t.level, phases := s.phases[i := if t.outcome == Applied then Reserved else Refused])
      case Load(i) =>
        if s.phases[i] != Reserved then s else s.(phases := s.phases[i := Loaded(s.successes)])
      case Store(i) =>
        if !s.phases[i].Loaded? then s
        else s.(successes := s.phases[i].seen + 1, phases := s.phases[i := Counted])
      case Bump(i) =>
        if s.phases[i] != Reserved then s
        else s.(successes := s.successes + 1, phases := s.phases[i := Counted])
  }

  function Run(s: Race, quantity: int, actions: seq<Action>): Race
    decreases |actions|
  {
    if actions == [] then s else Run(Next(s, quantity, actions[0]), quantity, actions[1..])
  }

  function Start(available: int, attempts: nat): Race {
    Race(Level(available, 0, 0), 0, seq(attempts, _ => Pending))
  }

  ghost predicate Finished(s: Race) {
    forall i :: 0 <= i < |s.phases| ==> s.phases[i] == Refused || s.phases[i] == Counted
  }

  /** How many reservations the stock can hold out of so many attempts. */
  function Holds(available: int, attempts: nat, quantity: int): int
    requires quantity >= 1
  {
    if available < quantity then 0
    else if attempts <= available / quantity then attempts
    else available / quantity
  }

  predicate Won(p: Phase) {
    p.Reserved? || p.Loaded? || p.Counted?
  }

  function Winners(phases: seq<Phase>): nat {
    if phases == [] then 0 else (if Won(phases[0]) then 1 else 0) + Winners(phases[1..])
  }

  function CountedOnes(phases: seq<Phase>): nat {
    if phases == [] then 0 else (if phases[0].Counted? then 1 else 0) + CountedOnes(phases[1..])
  }

  lemma {:induction false} Repaint(phases: seq<Phase>, i: nat, p: Phase)
    requires i < |phases|
    ensures Winners(phases[i := p])
         == Winners(phases) - (if Won(phases[i]) then 1 else 0) + (if Won(p) then 1 else 0)
    ensures CountedOnes(phases[i := p])
         == CountedOnes(phases) - (if phases[i].Counted? then 1 else 0) + (if p.Counted? then 1 else 0)
    decreases |phases|
  {
    if i == 0 {
      assert phases[0 := p][1..] == phases[1..];
    } else {
      assert phases[i := p][1..] == phases[1..][i - 1 := p];
      Repaint(phases[1..], i - 1, p);
    }
  }

  lemma {:induction false} CountBounds(phases: seq<Phase>)
    ensures CountedOnes(phases) <= Winners(phases) <= |phases|
    ensures (forall i :: 0 <= i < |phases| ==> phases[i] == Counted) ==> Winners(phases) == |phases|
    ensures (forall i :: 0 <= i < |phases| ==> phases[i] == Refused || phases[i] == Counted) ==>
              CountedOnes(phases) == Winners(phases)
    ensures (forall i :: 0 <= i < |phases| ==> phases[i] == Pending) ==> Winners(phases) == 0
    ensures (exists i :: 0 <= i < |phases| && phases[i].Loaded?) ==> CountedOnes(phases) < Winners(phases)
  {
    if phases != [] {
      CountBounds(phases[1..]);
      forall i | 0 < i < |phases| && phases[i].Loaded?
        ensures exists j :: 0 <= j < |phases[1..]| && phases[1..][j].Loaded?
      {
        assert phases[1..][i - 1].Loaded?;
      }
    }
  }

  /** The level holds exactly the winners' reservations, never more than there is, and an attempt was
      refused only when no further reservation fits. */
  ghost predicate Inv(s: Race, available: int, quantity: int) {
    && s.level.available == available
    && s.level.occupied == Winners(s.phases) * quantity
    && (Winners(s.phases) > 0 ==> s.level.occupied <= available)
    && (forall i :: 0 <= i < |s.phases| && s.phases[i] == Refused ==> available - s.level.occupied < quantity)
  }

  lemma OneMore(n: nat, quantity: int)
    ensures (n + 1) * quantity == n * quantity + quantity
  {
  }

  lemma NextKeepsInv(s: Race, available: int, quantity: int, a: Action)
    requires quantity >= 1 && Inv(s, available, quantity)
    ensures Inv(Next(s, quantity, a), available, quantity) && |Next(s, quantity, a).phases| == |s.phases|
  {
    var t := Next(s, quantity, a);
    if t != s {
      Repaint(s.phases, a.i, t.phases[a.i]);
      OneMore(Winners(s.phases), quantity);
    }
  }

  lemma {:induction false} RunKeepsInv(s: Race, available: int, quantity: int, actions: seq<Action>)
    requires quantity >= 1 && Inv(s, available, quantity)
    ensures Inv(Run(s, quantity, actions), available, quantity)
    ensures |Run(s, quantity, actions).phases| == |s.phases|
    decreases |actions|
  {
    if actions != [] {
      NextKeepsInv(s, available, quantity, actions[0]);
      RunKeepsInv(Next(s, quantity, actions[0]), available, quantity, actions[1..]);
    }
  }

  lemma StartInv(available: int, attempts: nat, quantity: int)
    requires quantity >= 1
    ensures Inv(Start(available, attempts), available, quantity)
  {
    CountBounds(Start(available, attempts).phases);
  }

  lemma ProductGrows(k: int, n: int, quantity: int)
    requires quantity >= 1 && k < n
    ensures k * quantity + quantity <= n * quantity
  {
    assert (n - k - 1) * quantity >= 0;
  }

  lemma DivideExactly(k: nat, quantity: int, whole: int)
    requires quantity >= 1 && 0 <= whole - k * quantity < quantity
    ensures whole / quantity == k
  {
    var d := whole / quantity;
    assert whole == d * quantity + whole % quantity;
    if d < k {
      ProductGrows(d, k, quantity);
    } else if k < d {
      ProductGrows(k, d, quantity);
    }
  }

  lemma FullStock(available: int, winners: nat, quantity: int)
    requires quantity >= 1
    requires winners > 0 ==> winners * quantity <= available
    requires available - winners * quantity < quantity
    ensures winners == if available < quantity then 0 else available / quantity
  {
    if winners > 0 {
      ProductGrows(0, winners, quantity);
      DivideExactly(winners, quantity, available);
    }
  }

  lemma RoomForAll(available: int, winners: nat, quantity: int)
    requires quantity >= 1 && winners > 0 && winners * quantity <= available
    ensures available >= quantity && winners <= available / quantity
  {
    ProductGrows(0, winners, quantity);
    var k := available / quantity;
    assert available == k * quantity + available % quantity;
    if winners > k {
      ProductGrows(k, winners, quantity);
    }
  }

  /** Under every schedule, once all attempts are over exactly min(attempts, available div quantity)
      reservations are in the level. */
  lemma ReservationsAreExact(available: int, attempts: nat, quantity: int, actions: seq<Action>)
    requires quantity >= 1
    requires Finished(Run(Start(available, attempts), quantity, actions))
    ensures
      var s := Run(Start(available, attempts), quantity, actions);
      && s.level.available == available
      && s.level.occupied == Holds(available, attempts, quantity) * quantity
      && CountedOnes(s.phases) == Holds(available, attempts, quantity)
  {
    StartInv(available, attempts, quantity);
    RunKeepsInv(Start(available, attempts), available, quantity, actions);
    var s := Run(Start(available, attempts), quantity, actions);
    CountBounds(s.phases);
    var winners := Winners(s.phases);
    if winners > 0 {
      RoomForAll(available, winners, quantity);
    }
    if exists i :: 0 <= i < |s.phases| && s.phases[i] == Refused {
      FullStock(available, winners, quantity);
    }
  }

  // ---- The counter

  ghost predicate CounterInv(s: Race, lost: int) {
    && s.successes + lost == CountedOnes(s.phases)
    && (forall i :: 0 <= i < |s.phases| ==> !s.phases[i].Loaded?)
  }

  ghost predicate Atomic(actions: seq<Action>) {
    forall i :: 0 <= i < |actions| ==> actions[i].TryOnce? || actions[i].Bump?
  }

  lemma {:induction false} AtomicKeepsLost(s: Race, quantity: int, actions: seq<Action>, lost: int)
    requires CounterInv(s, lost) && Atomic(actions)
    ensures CounterInv(Run(s, quantity, actions), lost)
    decreases |actions|
  {
    if actions != [] {
      var t := Next(s, quantity, actions[0]);
      if t != s {
        Repaint(s.phases, actions[0].i, t.phases[actions[0].i]);
      }
      AtomicKeepsLost(t, quantity, actions[1..], lost);
    }
  }

  /** When nothing comes between the two halves of an increment, every schedule reports
      min(attempts, available div quantity) successes. */
  lemma AtomicCounterIsExact(available: int, attempts: nat, quantity: int, actions: seq<Action>)
    requires quantity >= 1 && Atomic(actions)
    requires Finished(Run(Start(available, attempts), quantity, actions))
    ensures Run(Start(available, attempts), quantity, actions).successes == Holds(available, attempts, quantity)
  {
    CountBounds(Start(available, attempts).phases);
    AtomicKeepsLost(Start(available, attempts), quantity, actions, 0);
    ReservationsAreExact(available, attempts, quantity, actions);
  }

  /** With at most one winner no update of the counter can be lost; it never runs ahead in any case. */
  ghost predicate LoneInv(s: Race) {
    && 0 <= s.successes <= CountedOnes(s.phases)
    && (forall i :: 0 <= i < |s.phases| && s.phases[i].Loaded? ==> 0 <= s.phases[i].seen <= CountedOnes(s.phases))
    && (Winners(s.phases) <= 1 ==> s.successes == CountedOnes(s.phases))
  }

  lemma {:induction false} RunKeepsLone(s: Race, quantity: int, actions: seq<Action>)
    requires LoneInv(s)
    ensures LoneInv(Run(s, quantity, actions))
    decreases |actions|
  {
    if actions != [] {
      NextKeepsLone(s, quantity, actions[0]);
      RunKeepsLone(Next(s, quantity, actions[0]), quantity, actions[1..]);
    }
  }

  lemma NextKeepsLone(s: Race, quantity: int, a: Action)
    requires LoneInv(s)
    ensures LoneInv(Next(s, quantity, a))
  {
    var t := Next(s, quantity, a);
    if t != s {
      Repaint(s.phases, a.i, t.phases[a.i]);
      CountBounds(s.phases);
      CountBounds(t.phases);
    }
  }

  /** Two winners can read the same count; everyone else is undisturbed. */
  function LosingPrefix(): seq<Action> {
    [TryOnce(0), TryOnce(1), Load(0), Load(1), Store(0), Store(1)]
  }

  function Rest(from: nat, end: int): seq<Action>
    decreases end - from
  {
    if from >= end then [] else [TryOnce(from), Bump(from)] + Rest(from + 1, end)
  }

  lemma {:induction false} RunAppend(s: Race, quantity: int, a: seq<Action>, b: seq<Action>)
    ensures Run(s, quantity, a + b) == Run(Run(s, quantity, a), quantity, b)
    decreases |a|
  {
    if a == [] {
      assert a + b == b;
    } else {
      assert (a + b)[1..] == a[1..] + b;
      RunAppend(Next(s, quantity, a[0]), quantity, a[1..], b);
    }
  }

  ghost predicate FinishedBelow(s: Race, k: nat) {
    && k <= |s.phases|
    && (forall i :: 0 <= i < k ==> s.phases[i] == Refused || s.phases[i] == Counted)
    && (forall i :: k <= i < |s.phases| ==> s.phases[i] == Pending)
  }

  lemma {:induction false} RestFinishes(s: Race, quantity: int, from: nat, end: int)
    requires end == |s.phases| && FinishedBelow(s, from)
    ensures Finished(Run(s, quantity, Rest(from, end))) && Atomic(Rest(from, end))
    decreases end - from
  {
    if from < end {
      var s1 := Next(s, quantity, TryOnce(from));
      var s2 := Next(s1, quantity, Bump(from));
      var pair, later := [TryOnce(from), Bump(from)], Rest(from + 1, end);
      RunAppend(s, quantity, pair, later);
      assert pair[1..] == [Bump(from)] && pair[1..][1..] == [];
      assert Run(s1, quantity, [Bump(from)]) == s2;
      assert Run(s, quantity, pair) == s2;
      RestFinishes(s2, quantity, from + 1, end);
    }
  }

  lemma PrefixLosesOne(available: int, attempts: nat, quantity: int)
    requires quantity >= 1 && Holds(available, attempts, quantity) >= 2
    ensures
      var s := Run(Start(available, attempts), quantity, LosingPrefix());
      |s.phases| == attempts && FinishedBelow(s, 2) && CounterInv(s, 1)
  {
    assert available >= 2 * quantity by {
      assert available == (available / quantity) * quantity + available % quantity;
      assert (available / quantity) * quantity >= 2 * quantity;
    }
    var s0 := Start(available, attempts);
    var p := LosingPrefix();
    var s1 := Next(s0, quantity, TryOnce(0));
    var s2 := Next(s1, quantity, TryOnce(1));
    var s3 := Next(s2, quantity, Load(0));
    var s4 := Next(s3, quantity, Load(1));
    var s5 := Next(s4, quantity, Store(0));
    var s6 := Next(s5, quantity, Store(1));
    assert s2.phases == s0.phases[0 := Reserved][1 := Reserved];
    assert s4.phases == s0.phases[0 := Loaded(0)][1 := Loaded(0)];
    assert s6.phases == s0.phases[0 := Counted][1 := Counted];
    assert p[1..][1..][1..] == [Load(1), Store(0), Store(1)];
    assert p[1..][1..][1..][1..][1..] == [Store(1)];
    assert Run(s0, quantity, p) == s6;
    CountBounds(s0.phases);
    Repaint(s0.phases, 0, Counted);
    Repaint(s0.phases[0 := Counted], 1, Counted);
  }

  ghost predicate EveryScheduleReports(available: int, attempts: nat, quantity: int, result: int) {
    forall actions :: Finished(Run(Start(available, attempts), quantity, actions)) ==>
      Run(Start(available, attempts), quantity, actions).successes == result
  }

  /** When the increment may be interrupted between its halves, the reported successes are exact under
      every schedule if and only if at most one reservation can win. */
  lemma InterruptedCounterExactWhen(available: int, attempts: nat, quantity: int)
    requires quantity >= 1
    ensures EveryScheduleReports(available, attempts, quantity, Holds(available, attempts, quantity))
       <==> Holds(available, attempts, quantity) <= 1
  {
    var start, holds := Start(available, attempts), Holds(available, attempts, quantity);
    if holds <= 1 {
      forall actions | Finished(Run(start, quantity, actions))
        ensures Run(start, quantity, actions).successes == holds
      {
        CountBounds(start.phases);
        RunKeepsLone(start, quantity, actions);
        ReservationsAreExact(available, attempts, quantity, actions);
        CountBounds(Run(start, quantity, actions).phases);
      }
    } else {
      PrefixLosesOne(available, attempts, quantity);
      var s := Run(start, quantity, LosingPrefix());
      var actions := LosingPrefix() + Rest(2, attempts);
      RunAppend(start, quantity, LosingPrefix(), Rest(2, attempts));
      RestFinishes(s, quantity, 2, attempts);
      AtomicKeepsLost(s, quantity, Rest(2, attempts), 1);
      ReservationsAreExact(available, attempts, quantity, actions);
      assert Run(start, quantity, actions).successes != holds;
    }
  }

  /** Whatever the schedule, no more successes are reported than reservations were made. */
  lemma CounterNeverRunsAhead(available: int, attempts: nat, quantity: int, actions: seq<Action>)
    requires quantity >= 1
    requires Finished(Run(Start(available, attempts), quantity, actions))
    ensures Run(Start(available, attempts), quantity, actions).successes <= Holds(available, attempts, quantity)
  {
    CountBounds(Start(available, attempts).phases);
    RunKeepsLone(Start(available, attempts), quantity, actions);
    ReservationsAreExact(available, attempts, quantity, actions);
  }
}
