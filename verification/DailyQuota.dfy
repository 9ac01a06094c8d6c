/** The UTC-day quota: callers check the day's count, take a token, and count the call, each a separate
    step on the store and the clock. Times are whole microseconds since the Unix epoch. */
module DailyQuota {
  import opened Options

  const DAY: int := 86_400_000_000
  const SECOND: int := 1_000_000

  function Day(now: int): int {
    now / DAY
  }

  /** Microseconds a caller is told to wait for the next UTC day, at least one second. */
  function UntilNextDay(now: int): int {
    var left := (Day(now) + 1) * DAY - now;
    if left < SECOND then SECOND else left
  }

  /** Waiting as told always ends in the next UTC day, never a later one. */
  lemma WaitReachesNextDay(now: int)
    ensures Day(now + UntilNextDay(now)) == Day(now) + 1
    ensures SECOND <= UntilNextDay(now) <= DAY
  {
  }

  /** A missing or negative stored count reads as zero. */
  function Used(counts: map<int, int>, day: int): nat {
    if day in counts && counts[day] >= 0 then counts[day] else 0
  }

  function Counted(counts: map<int, int>, day: int): map<int, int> {
    counts[day := Used(counts, day) + 1]
  }

  predicate Blocked(counts: map<int, int>, day: int, quota: int) {
    Used(counts, day) >= quota
  }

  /** Where a call is: it has read the clock for its check, passed the check, got its token, or read
      the clock for its count. */
  datatype Phase =
    | Checking(day: int)
    | Passed(day: int)
    | Holding(day: int)
    | Counting(day: int)

  datatype System = System(now: int, counts: map<int, int>, calls: map<nat, Phase>, allowed: multiset<int>)

  /** What becomes of the counting step: stored, not stored, or stored while the answer is lost on the way. */
  datatype Outcome = Stored | NotStored | ReplyLost

  datatype Action =
    | Tick(to: int)
    | Begin(w: nat)
    | Check(w: nat)
    | TakeToken(w: nat, granted: bool)
    | Stamp(w: nat)
    | Count(w: nat, outcome: Outcome)

  /** At most `inFlight` calls run at once. An action that is not enabled changes nothing. */
  datatype Config = Config(quota: int, inFlight: nat)

  function Leave(s: System, w: nat): System {
    s.(calls := s.calls - {w})
  }

  function Next(c: Config, s: System, a: Action): System {
    match a
    case Tick(to) => if to >= s.now then s.(now := to) else s
    case Begin(w) =>
      if w !in s.calls && |s.calls| < c.inFlight then s.(calls := s.calls[w := Checking(Day(s.now))]) else s
    case Check(w) =>
      if w in s.calls && s.calls[w].Checking? then
        var day := s.calls[w].day;
        if Blocked(s.counts, day, c.quota) then Leave(s, w) else s.(calls := s.calls[w := Passed(day)])
      else s
    case TakeToken(w, granted) =>
      if w in s.calls && s.calls[w].Passed? then
        if granted then s.(calls := s.calls[w := Holding(s.calls[w].day)]) else Leave(s, w)
      else s
    case Stamp(w) =>
      if w in s.calls && s.calls[w].Holding? then s.(calls := s.calls[w := Counting(Day(s.now))]) else s
    case Count(w, outcome) =>
      if w in s.calls && s.calls[w].Counting? then
        var day := s.calls[w].day;
        match outcome
        case Stored => Leave(s, w).(counts := Counted(s.counts, day), allowed := s.allowed + multiset{day})
        case NotStored => Leave(s, w)
        case ReplyLost => Leave(s, w).(counts := Counted(s.counts, day))
      else s
  }

  function Run(c: Config, s: System, actions: seq<Action>): System
    decreases |actions|
  {
    if actions == [] then s else Run(c, Next(c, s, actions[0]), actions[1..])
  }

  function Start(now: int): System {
    System(now, map[], map[], multiset{})
  }

  // ---- The invariant

  /** A call in this phase can still be counted on `day` once that day's quota is used up. */
  predicate MayCount(p: Phase, day: int) {
    match p
    case Checking(d) => d < day
    case Passed(d) => d <= day
    case Holding(d) => d <= day
    case Counting(d) => d == day
  }

  ghost function Risky(calls: map<nat, Phase>, day: int): set<nat> {
    set w | w in calls && MayCount(calls[w], day)
  }

  ghost predicate DayInv(c: Config, s: System, day: int) {
    Used(s.counts, day) >= c.quota && c.quota >= 1 ==>
      && Day(s.now) >= day
      && Used(s.counts, day) + |Risky(s.calls, day)| <= c.quota + c.inFlight - 1
  }

  ghost predicate Inv(c: Config, s: System) {
    && |s.calls| <= c.inFlight
    && (forall w :: w in s.calls ==> s.calls[w].day <= Day(s.now))
    && (c.quota < 1 ==> forall w :: w in s.calls ==> s.calls[w].Checking?)
    && (forall day :: DayInv(c, s, day))
    && (forall day :: s.allowed[day] <= Used(s.counts, day))
  }

  lemma SubsetSize(a: set<nat>, b: set<nat>)
    requires a <= b
    ensures |a| <= |b|
  {
    assert b == a + (b - a);
  }

  lemma RiskyAmongCalls(calls: map<nat, Phase>, day: int)
    ensures Risky(calls, day) <= calls.Keys && |Risky(calls, day)| <= |calls|
  {
    SubsetSize(Risky(calls, day), calls.Keys);
    assert |calls| == |calls.Keys|;
  }

  /** Unless a step counts a call, no day gains a call at risk. */
  lemma RiskShrinks(c: Config, s: System, a: Action, day: int)
    requires Inv(c, s) && Used(s.counts, day) >= c.quota >= 1
    ensures Risky(Next(c, s, a).calls, day) <= Risky(s.calls, day)
    ensures Day(Next(c, s, a).now) >= Day(s.now)
  {
    assert DayInv(c, s, day);
  }

  lemma CountPays(c: Config, s: System, w: nat, day: int, outcome: Outcome)
    requires Inv(c, s) && c.quota >= 1 && !outcome.NotStored?
    requires w in s.calls && s.calls[w] == Counting(day)
    ensures DayInv(c, Next(c, s, Count(w, outcome)), day)
  {
    var t := Next(c, s, Count(w, outcome));
    assert DayInv(c, s, day);
    assert t.calls.Keys == s.calls.Keys - {w};
    RiskyAmongCalls(t.calls, day);
    if Used(s.counts, day) >= c.quota {
      assert Risky(t.calls, day) == Risky(s.calls, day) - {w};
    }
  }

  lemma CallsStayWithin(c: Config, s: System, a: Action)
    requires Inv(c, s)
    ensures |Next(c, s, a).calls| <= c.inFlight
  {
    var t := Next(c, s, a);
    if a.Begin? && t != s {
      assert t.calls.Keys == s.calls.Keys + {a.w};
    } else {
      SubsetSize(t.calls.Keys, s.calls.Keys);
    }
  }

  lemma CallsStayCurrent(c: Config, s: System, a: Action)
    requires Inv(c, s)
    ensures Day(Next(c, s, a).now) >= Day(s.now)
    ensures forall w :: w in Next(c, s, a).calls ==> Next(c, s, a).calls[w].day <= Day(Next(c, s, a).now)
    ensures c.quota < 1 ==> forall w :: w in Next(c, s, a).calls ==> Next(c, s, a).calls[w].Checking?
  {
    assert a.Tick? && a.to >= s.now ==> Day(a.to) >= Day(s.now);
    hide Day;
  }

  lemma DayStaysWithin(c: Config, s: System, a: Action, day: int)
    requires Inv(c, s)
    ensures DayInv(c, Next(c, s, a), day)
  {
    hide Day;
    var t := Next(c, s, a);
    assert DayInv(c, s, day);
    if c.quota >= 1 {
      if a.Count? && !a.outcome.NotStored? && a.w in s.calls && s.calls[a.w] == Counting(day) {
        CountPays(c, s, a.w, day, a.outcome);
      } else if Used(t.counts, day) >= c.quota {
        RiskShrinks(c, s, a, day);
        SubsetSize(Risky(t.calls, day), Risky(s.calls, day));
      }
    }
  }

  lemma ChargesMatch(c: Config, s: System, a: Action, day: int)
    requires Inv(c, s)
    ensures Next(c, s, a).allowed[day] <= Used(Next(c, s, a).counts, day)
  {
    hide Day;
  }

  lemma NextKeepsInv(c: Config, s: System, a: Action)
    requires Inv(c, s)
    ensures Inv(c, Next(c, s, a))
  {
    CallsStayWithin(c, s, a);
    CallsStayCurrent(c, s, a);
    forall day
      ensures DayInv(c, Next(c, s, a), day)
    {
      DayStaysWithin(c, s, a, day);
    }
    forall day
      ensures Next(c, s, a).allowed[day] <= Used(Next(c, s, a).counts, day)
    {
      ChargesMatch(c, s, a, day);
    }
    hide Day, Used, Next, DayInv;
  }

  lemma {:induction false} RunKeepsInv(c: Config, s: System, actions: seq<Action>)
    requires Inv(c, s)
    ensures Inv(c, Run(c, s, actions))
    decreases |actions|
  {
    if actions != [] {
      NextKeepsInv(c, s, actions[0]);
      RunKeepsInv(c, Next(c, s, actions[0]), actions[1..]);
    }
  }

  predicate AnswersArrive(actions: seq<Action>) {
    forall i :: 0 <= i < |actions| && actions[i].Count? ==> !actions[i].outcome.ReplyLost?
  }

  /** However the steps interleave, wherever midnight falls and whichever steps fail: the allowed calls charged to
      one UTC day are at most the day's stored count - exactly it when no answer is lost - and never exceed
      quota + inFlight - 1; a quota below one allows none. */
  lemma QuotaBound(c: Config, now: int, actions: seq<Action>, day: int)
    requires c.inFlight >= 1
    ensures
      var s := Run(c, Start(now), actions);
      && s.allowed[day] <= Used(s.counts, day)
      && (AnswersArrive(actions) ==> s.allowed[day] == Used(s.counts, day))
      && Used(s.counts, day) <= if c.quota < 1 then 0 else c.quota + c.inFlight - 1
  {
    StartInv(c, now);
    RunKeepsInv(c, Start(now), actions);
    var s := Run(c, Start(now), actions);
    assert DayInv(c, s, day);
    if AnswersArrive(actions) {
      ChargesAreCounts(c, Start(now), actions, day);
    }
    if c.quota < 1 {
      NothingCounted(c, Start(now), actions, day);
    }
  }

  lemma {:induction false} ChargesAreCounts(c: Config, s: System, actions: seq<Action>, day: int)
    requires AnswersArrive(actions) && s.allowed[day] == Used(s.counts, day)
    ensures Run(c, s, actions).allowed[day] == Used(Run(c, s, actions).counts, day)
    decreases |actions|
  {
    hide Day;
    if actions != [] {
      assert AnswersArrive(actions[1..]);
      ChargesAreCounts(c, Next(c, s, actions[0]), actions[1..], day);
    }
  }

  lemma StartInv(c: Config, now: int)
    ensures Inv(c, Start(now))
  {
    forall day
      ensures DayInv(c, Start(now), day)
    {
    }
  }

  lemma {:induction false} NothingCounted(c: Config, s: System, actions: seq<Action>, day: int)
    requires Inv(c, s) && c.quota < 1 && Used(s.counts, day) == 0
    ensures Used(Run(c, s, actions).counts, day) == 0
    decreases |actions|
  {
    if actions != [] {
      NextKeepsInv(c, s, actions[0]);
      NothingCounted(c, Next(c, s, actions[0]), actions[1..], day);
    }
  }

  /** One call at a time never exceeds the quota, even when it straddles midnight. */
  lemma SequentialQuota(quota: nat, now: int, actions: seq<Action>, day: int)
    ensures Run(Config(quota, 1), Start(now), actions).allowed[day] <= quota
  {
    QuotaBound(Config(quota, 1), now, actions, day);
  }

  // ---- The bound is reached

  function Call(w: nat): seq<Action> {
    [Begin(w), Check(w), TakeToken(w, true), Stamp(w)]
  }

  /** Calls 0..n-1 up to the point where each is about to count. */
  function Crowd(n: nat): seq<Action> {
    if n == 0 then [] else Crowd(n - 1) + Call(n - 1)
  }

  function Counts(n: nat): seq<Action> {
    if n == 0 then [] else Counts(n - 1) + [Count(n - 1, Stored)]
  }

  function WholeCall(): seq<Action> {
    Call(0) + [Count(0, Stored)]
  }

  function OneByOne(n: nat): seq<Action> {
    if n == 0 then [] else OneByOne(n - 1) + WholeCall()
  }

  lemma {:induction false} RunAppend(c: Config, s: System, a: seq<Action>, b: seq<Action>)
    ensures Run(c, s, a + b) == Run(c, Run(c, s, a), b)
    decreases |a|
  {
    if a == [] {
      assert a + b == b;
    } else {
      assert (a + b)[1..] == a[1..] + b;
      RunAppend(c, Next(c, s, a[0]), a[1..], b);
    }
  }

  lemma RunOne(c: Config, s: System, a: Action)
    ensures Run(c, s, [a]) == Next(c, s, a)
  {
    assert [a][1..] == [];
  }

  lemma RunCall(c: Config, s: System, w: nat)
    requires w !in s.calls && |s.calls| < c.inFlight && !Blocked(s.counts, Day(s.now), c.quota)
    ensures Run(c, s, Call(w)) == s.(calls := s.calls[w := Counting(Day(s.now))])
  {
    hide Day, Used;
    var d := Day(s.now);
    var s1 := Next(c, s, Begin(w));
    var s2 := Next(c, s1, Check(w));
    var s3 := Next(c, s2, TakeToken(w, true));
    var s4 := Next(c, s3, Stamp(w));
    assert s1.calls == s.calls[w := Checking(d)];
    assert s2.calls == s.calls[w := Passed(d)];
    assert s3.calls == s.calls[w := Holding(d)];
    assert s4.calls == s.calls[w := Counting(d)];
    RunOne(c, s3, Stamp(w));
    assert Call(w)[1..] == [Check(w), TakeToken(w, true), Stamp(w)];
    assert Call(w)[1..][1..] == [TakeToken(w, true), Stamp(w)];
    assert Call(w)[1..][1..][1..] == [Stamp(w)];
    assert Run(c, s2, Call(w)[1..][1..]) == s4;
    assert Run(c, s1, Call(w)[1..]) == s4;
  }

  function CrowdCalls(n: nat, d: int): map<nat, Phase> {
    if n == 0 then map[] else CrowdCalls(n - 1, d)[n - 1 := Counting(d)]
  }

  lemma {:induction false} CrowdSize(n: nat, d: int)
    ensures |CrowdCalls(n, d)| == n
    ensures forall w: nat :: w in CrowdCalls(n, d) <==> w < n
    ensures forall w: nat :: w in CrowdCalls(n, d) ==> CrowdCalls(n, d)[w] == Counting(d)
  {
    if n > 0 {
      CrowdSize(n - 1, d);
    }
  }

  lemma {:induction false} RunCrowd(c: Config, s: System, n: nat)
    requires s.calls == map[] && n <= c.inFlight && !Blocked(s.counts, Day(s.now), c.quota)
    ensures Run(c, s, Crowd(n)) == s.(calls := CrowdCalls(n, Day(s.now)))
  {
    hide Day, Used, Next, Call;
    if n > 0 {
      var d := Day(s.now);
      RunCrowd(c, s, n - 1);
      RunAppend(c, s, Crowd(n - 1), Call(n - 1));
      CrowdSize(n - 1, d);
      RunCall(c, s.(calls := CrowdCalls(n - 1, d)), n - 1);
    }
  }

  lemma CountOne(c: Config, s: System, w: nat, d: int)
    requires w in s.calls && s.calls[w] == Counting(d)
    ensures
      var t := Next(c, s, Count(w, Stored));
      t.now == s.now && Used(t.counts, d) == Used(s.counts, d) + 1 && t.calls == s.calls - {w}
  {
  }

  lemma {:induction false} RunCounts(c: Config, s: System, n: nat, d: int)
    requires forall w: nat :: w < n ==> w in s.calls && s.calls[w] == Counting(d)
    ensures
      var t := Run(c, s, Counts(n));
      && Used(t.counts, d) == Used(s.counts, d) + n
      && forall w :: w in s.calls && w >= n ==> w in t.calls && t.calls[w] == s.calls[w]
  {
    hide Day, Used, Next;
    if n > 0 {
      var w := n - 1;
      RunCounts(c, s, w, d);
      var t := Run(c, s, Counts(w));
      assert w in t.calls && t.calls[w] == Counting(d);
      RunAppend(c, s, Counts(w), [Count(w, Stored)]);
      RunOne(c, t, Count(w, Stored));
      CountOne(c, t, w, d);
    }
  }

  lemma RunWholeCall(c: Config, s: System)
    requires s.calls == map[] && c.inFlight >= 1 && !Blocked(s.counts, Day(s.now), c.quota)
    ensures
      var t := Run(c, s, WholeCall());
      && t.now == s.now && t.calls == map[]
      && Used(t.counts, Day(s.now)) == Used(s.counts, Day(s.now)) + 1
  {
    hide Day, Next, Call;
    RunAppend(c, s, Call(0), [Count(0, Stored)]);
    RunCall(c, s, 0);
    var u := s.(calls := s.calls[0 := Counting(Day(s.now))]);
    RunOne(c, u, Count(0, Stored));
    CountOne(c, u, 0, Day(s.now));
    assert u.calls - {0} == map[];
  }

  lemma {:induction false} RunOneByOne(c: Config, now: int, n: nat)
    requires n <= c.quota && c.inFlight >= 1
    ensures
      var t := Run(c, Start(now), OneByOne(n));
      t.now == now && t.calls == map[] && Used(t.counts, Day(now)) == n
  {
    hide Day, Next, WholeCall;
    if n > 0 {
      RunOneByOne(c, now, n - 1);
      RunAppend(c, Start(now), OneByOne(n - 1), WholeCall());
      RunWholeCall(c, Run(c, Start(now), OneByOne(n - 1)));
    }
  }

  /** For every quota and every number of calls in flight some run charges exactly quota + inFlight - 1
      calls to one day, so the bound cannot be lowered. */
  lemma QuotaBoundIsReached(c: Config, now: int)
    requires c.quota >= 1 && c.inFlight >= 1
    ensures
      var run := OneByOne(c.quota - 1) + (Crowd(c.inFlight) + Counts(c.inFlight));
      Run(c, Start(now), run).allowed[Day(now)] == c.quota + c.inFlight - 1
  {
    hide Day, Next;
    var crowd, counts := Crowd(c.inFlight), Counts(c.inFlight);
    CrowdSize(c.inFlight, Day(now));
    RunOneByOne(c, now, c.quota - 1);
    var s := Run(c, Start(now), OneByOne(c.quota - 1));
    RunAppend(c, Start(now), OneByOne(c.quota - 1), crowd + counts);
    RunAppend(c, s, crowd, counts);
    RunCrowd(c, s, c.inFlight);
    RunCounts(c, Run(c, s, crowd), c.inFlight, Day(now));
    OneByOneAnswers(c.quota - 1);
    CrowdAnswers(c.inFlight);
    QuotaBound(c, now, OneByOne(c.quota - 1) + (crowd + counts), Day(now));
  }

  lemma {:induction false} OneByOneAnswers(n: nat)
    ensures AnswersArrive(OneByOne(n))
  {
    if n > 0 {
      OneByOneAnswers(n - 1);
    }
  }

  lemma {:induction false} CrowdAnswers(n: nat)
    ensures AnswersArrive(Crowd(n)) && AnswersArrive(Counts(n))
  {
    if n > 0 {
      CrowdAnswers(n - 1);
    }
  }

  /** The quota holds for every interleaving, with midnights and failures anywhere, if and only if calls never
      overlap. */
  lemma QuotaHoldsWhen(c: Config, now: int)
    requires c.quota >= 1 && c.inFlight >= 1
    ensures
      (forall actions: seq<Action>, day :: Run(c, Start(now), actions).allowed[day] <= c.quota) <==> c.inFlight == 1
  {
    if c.inFlight == 1 {
      forall actions: seq<Action>, day
        ensures Run(c, Start(now), actions).allowed[day] <= c.quota
      {
        QuotaBound(c, now, actions, day);
      }
    } else {
      QuotaBoundIsReached(c, now);
      var run := OneByOne(c.quota - 1) + (Crowd(c.inFlight) + Counts(c.inFlight));
      assert Run(c, Start(now), run).allowed[Day(now)] > c.quota;
    }
  }
}
