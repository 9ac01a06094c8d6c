/** The adaptive token bucket: refill, 429 penalty and recovery, over whole runs.
    Times are seconds and tokens are exact reals. */
module TokenBucket {
  import opened Options
  import opened Decimals

  datatype BucketState = BucketState(
    tokens: real,
    updatedAt: real,
    penalty: real,
    consecutive429: nat,
    consecutiveOk: nat)

  datatype Policy = Policy(slowdownRatio: real, penaltyFloor: real, recoverAfterSuccesses: int)

  datatype Limits = Limits(qps: real, burst: int)

  datatype Acquired = Acquired(allowed: bool, wait: real, state: BucketState)

  predicate ValidPolicy(policy: Policy) {
    && 0.0 < policy.slowdownRatio <= 1.0
    && 0.0 < policy.penaltyFloor <= 1.0
    && policy.recoverAfterSuccesses >= 1
  }

  function Capacity(burst: int, penalty: real): real {
    Max(1.0, Times(burst as real, penalty))
  }

  function Fresh(now: real, burst: int): BucketState {
    BucketState(Capacity(burst, 1.0), now, 1.0, 0, 0)
  }

  function ApplyAcquire(state: Option<BucketState>, now: real, limits: Limits): Acquired {
    var penalty := if state.None? then 1.0 else state.value.penalty;
    var rate := Times(limits.qps, penalty);
    var capacity := Capacity(limits.burst, penalty);
    var tokens :=
      if state.None? then capacity
      else Min(capacity, state.value.tokens + Times(Max(0.0, now - state.value.updatedAt), rate));
    var streak429 := if state.None? then 0 else state.value.consecutive429;
    var streakOk := if state.None? then 0 else state.value.consecutiveOk;
    if rate <= 0.0 || tokens < 1.0 then
      Acquired(false, if rate <= 0.0 then 1.0 else (1.0 - tokens) / rate,
               BucketState(Max(0.0, tokens), now, penalty, streak429, streakOk))
    else
      Acquired(true, 0.0, BucketState(tokens - 1.0, now, penalty, streak429, streakOk))
  }

  function ApplyThrottle(state: Option<BucketState>, now: real, burst: int, policy: Policy): BucketState {
    var base := if state.Some? then state.value else Fresh(now, burst);
    var penalty := Max(policy.penaltyFloor, Times(base.penalty, policy.slowdownRatio));
    BucketState(Min(base.tokens, Capacity(burst, penalty)), base.updatedAt, penalty, base.consecutive429 + 1, 0)
  }

  function ApplySuccess(state: Option<BucketState>, now: real, burst: int, policy: Policy): BucketState
    requires ValidPolicy(policy)
  {
    var base := if state.Some? then state.value else Fresh(now, burst);
    var streak := base.consecutiveOk + 1;
    var recovers := streak >= policy.recoverAfterSuccesses && base.penalty < 1.0;
    var penalty := if recovers then Min(1.0, base.penalty / policy.slowdownRatio) else base.penalty;
    BucketState(Min(base.tokens, Capacity(burst, penalty)), base.updatedAt, penalty, 0, if recovers then 0 else streak)
  }

  // ---- Runs on one bucket key

  /** `Lost` is a stored bucket that expired or could not be decoded; the next reader starts afresh. */
  datatype Event = Acquire(now: real) | Throttle(now: real) | Success(now: real) | Lost

  datatype Context = Context(limits: Limits, policy: Policy)

  predicate ValidContext(c: Context) {
    ValidPolicy(c.policy) && c.limits.qps >= 0.0
  }

  function Step(c: Context, state: Option<BucketState>, e: Event): Option<BucketState>
    requires ValidContext(c)
  {
    match e
    case Acquire(now) => Some(ApplyAcquire(state, now, c.limits).state)
    case Throttle(now) => Some(ApplyThrottle(state, now, c.limits.burst, c.policy))
    case Success(now) => Some(ApplySuccess(state, now, c.limits.burst, c.policy))
    case Lost => None
  }

  function Granted(c: Context, state: Option<BucketState>, e: Event): nat {
    if e.Acquire? && ApplyAcquire(state, e.now, c.limits).allowed then 1 else 0
  }

  function Final(c: Context, state: Option<BucketState>, events: seq<Event>): Option<BucketState>
    requires ValidContext(c)
    decreases |events|
  {
    if events == [] then state else Final(c, Step(c, state, events[0]), events[1..])
  }

  function Grants(c: Context, state: Option<BucketState>, events: seq<Event>): nat
    requires ValidContext(c)
    decreases |events|
  {
    if events == [] then 0
    else Granted(c, state, events[0]) + Grants(c, Step(c, state, events[0]), events[1..])
  }

  ghost predicate Valid(c: Context, state: Option<BucketState>) {
    state.Some? ==>
      && c.policy.penaltyFloor <= state.value.penalty <= 1.0
      && 0.0 <= state.value.tokens <= Capacity(c.limits.burst, state.value.penalty)
  }

  lemma RecoveryRaises(penalty: real, ratio: real)
    requires 0.0 < ratio <= 1.0 && 0.0 <= penalty
    ensures penalty <= penalty / ratio
    ensures Times(penalty, ratio) <= penalty
  {
    TimesOver(penalty, ratio);
    TimesMonotone(ratio, 1.0, penalty);
    TimesUnit(penalty);
    if penalty / ratio < penalty {
      TimesStrict(penalty / ratio, penalty, ratio);
      assert false;
    }
  }

  lemma StepKeepsValid(c: Context, state: Option<BucketState>, e: Event)
    requires ValidContext(c) && Valid(c, state)
    ensures Valid(c, Step(c, state, e))
  {
    match e
    case Acquire(now) =>
      hide Times;
      if state.Some? {
        TimesSign(c.limits.qps, state.value.penalty);
        TimesSign(Max(0.0, now - state.value.updatedAt), Times(c.limits.qps, state.value.penalty));
      }
    case Throttle(now) =>
      var base := if state.Some? then state.value else Fresh(now, c.limits.burst);
      RecoveryRaises(base.penalty, c.policy.slowdownRatio);
      hide Times;
    case Success(now) =>
      var base := if state.Some? then state.value else Fresh(now, c.limits.burst);
      RecoveryRaises(base.penalty, c.policy.slowdownRatio);
      hide Times;
    case Lost =>
  }

  /** Every reachable bucket has floor <= penalty <= 1 and 0 <= tokens <= capacity. */
  lemma {:induction false} RunKeepsValid(c: Context, state: Option<BucketState>, events: seq<Event>)
    requires ValidContext(c) && Valid(c, state)
    ensures Valid(c, Final(c, state, events))
    decreases |events|
  {
    if events != [] {
      StepKeepsValid(c, state, events[0]);
      RunKeepsValid(c, Step(c, state, events[0]), events[1..]);
    }
  }

  // ---- Rate bound

  /** How far the clock moves forward between the acquires of a run, starting from reading `clock`. */
  function Forward(clock: real, events: seq<Event>): real
    decreases |events|
  {
    if events == [] then 0.0
    else if events[0].Acquire? then Max(0.0, events[0].now - clock) + Forward(events[0].now, events[1..])
    else Forward(clock, events[1..])
  }

  function Losses(events: seq<Event>): nat {
    if events == [] then 0 else (if events[0].Lost? then 1 else 0) + Losses(events[1..])
  }

  /** One full bucket, one more for every lost state, and the rate over a span of time. */
  function Allowance(lost: nat, cap: real, span: real, r: real): real {
    Times((1 + lost) as real, cap) + Times(span, r)
  }

  ghost predicate BucketAtMost(c: Context, state: Option<BucketState>, r: real, cap: real) {
    state.Some? ==>
      Times(c.limits.qps, state.value.penalty) <= r && Capacity(c.limits.burst, state.value.penalty) <= cap
  }

  /** Every bucket seen during the run refills at most at `r` and holds at most `cap`. */
  ghost predicate RateAtMost(c: Context, state: Option<BucketState>, events: seq<Event>, r: real, cap: real)
    requires ValidContext(c)
    decreases |events|
  {
    && BucketAtMost(c, state, r, cap)
    && (events != [] ==> RateAtMost(c, Step(c, state, events[0]), events[1..], r, cap))
  }

  /** What a rate `r` refills between two clock readings. */
  function Accrued(r: real, from: real, to: real): real {
    Times(Max(0.0, to - from), r)
  }

  /** Tokens that can be there at time `clock` when the rate is `r` and the capacity `cap`. */
  function Available(state: Option<BucketState>, clock: real, r: real, cap: real): real {
    if state.None? then cap
    else Min(cap, state.value.tokens + Accrued(r, state.value.updatedAt, clock))
  }

  lemma AccruedGrows(rate: real, r: real, updated: real, clock: real, now: real)
    requires 0.0 <= rate <= r
    ensures 0.0 <= Accrued(rate, updated, now) <= Accrued(r, updated, now)
    ensures Accrued(r, updated, now) <= Accrued(r, updated, clock) + Accrued(r, clock, now)
    ensures 0.0 <= Accrued(r, updated, clock) && 0.0 <= Accrued(r, clock, now)
  {
    hide Times;
    var gone, before, ahead := Max(0.0, now - updated), Max(0.0, clock - updated), Max(0.0, now - clock);
    TimesMonotone(rate, r, gone);
    TimesMonotone(gone, before + ahead, r);
    TimesAdd(before, ahead, r);
    TimesSign(gone, rate);
    TimesSign(before, r);
    TimesSign(ahead, r);
  }

  lemma AcquirePays(c: Context, state: Option<BucketState>, now: real, clock: real, r: real, cap: real)
    requires ValidContext(c) && Valid(c, state)
    requires BucketAtMost(c, Step(c, state, Acquire(now)), r, cap)
    ensures Granted(c, state, Acquire(now)) as real + Available(Step(c, state, Acquire(now)), now, r, cap)
         <= Available(state, clock, r, cap) + Accrued(r, clock, now)
  {
    hide Times;
    StepKeepsValid(c, state, Acquire(now));
    var s := Step(c, state, Acquire(now)).value;
    TimesSign(c.limits.qps, s.penalty);
    AccruedGrows(Times(c.limits.qps, s.penalty), r, if state.Some? then state.value.updatedAt else now, clock, now);
    TimesUnit(r);
  }

  lemma SettleIsFree(c: Context, state: Option<BucketState>, e: Event, clock: real, r: real, cap: real)
    requires ValidContext(c) && 0.0 <= r
    requires e.Throttle? || e.Success?
    ensures Available(Step(c, state, e), clock, r, cap) <= Available(state, clock, r, cap)
  {
    hide Times;
  }

  lemma BudgetSplits(lost: nat, cap: real, ahead: real, further: real, r: real)
    ensures Times((1 + lost) as real, cap) == cap + Times(lost as real, cap)
    ensures Times(ahead + further, r) == Times(ahead, r) + Times(further, r)
  {
    hide Times;
    assert (1 + lost) as real == 1.0 + lost as real;
    TimesAdd(1.0, lost as real, cap);
    TimesUnit(cap);
    TimesAdd(ahead, further, r);
  }

  lemma {:induction false} GrantsWithinBudget(
    c: Context, state: Option<BucketState>, events: seq<Event>, clock: real, r: real, cap: real)
    requires ValidContext(c) && Valid(c, state) && 0.0 <= r && 0.0 <= cap
    requires RateAtMost(c, state, events, r, cap)
    ensures Grants(c, state, events) as real
         <= Available(state, clock, r, cap) + Times(Losses(events) as real, cap) + Times(Forward(clock, events), r)
    decreases |events|
  {
    hide Times;
    TimesUnit(cap);
    TimesUnit(r);
    if state.Some? {
      AccruedGrows(r, r, state.value.updatedAt, clock, clock);
    }
    if events != [] {
      var e, rest := events[0], events[1..];
      var at := if e.Acquire? then e.now else clock;
      StepKeepsValid(c, state, e);
      GrantsWithinBudget(c, Step(c, state, e), rest, at, r, cap);
      BudgetSplits(Losses(rest), cap, Max(0.0, at - clock), Forward(at, rest), r);
      if e.Acquire? {
        AcquirePays(c, state, e.now, clock, r, cap);
      } else if !e.Lost? {
        SettleIsFree(c, state, e, clock, r, cap);
      }
    }
  }

  /** For every clock, forward or backward: what a run grants is paid for by one full bucket, one more
      for every lost state, and the rate times the forward movement of the clock. */
  lemma GrantsArePaid(c: Context, state: Option<BucketState>, events: seq<Event>, clock: real, r: real, cap: real)
    requires ValidContext(c) && Valid(c, state) && 0.0 <= r && 0.0 <= cap
    requires RateAtMost(c, state, events, r, cap)
    ensures Grants(c, state, events) as real <= Allowance(Losses(events), cap, Forward(clock, events), r)
  {
    hide Times;
    GrantsWithinBudget(c, state, events, clock, r, cap);
    BudgetSplits(Losses(events), cap, 0.0, 0.0, r);
  }

  /** The penalty of every bucket seen during the run is at most `p`. */
  ghost predicate PenaltyAtMost(c: Context, state: Option<BucketState>, events: seq<Event>, p: real)
    requires ValidContext(c)
    decreases |events|
  {
    && (state.Some? ==> state.value.penalty <= p)
    && (events != [] ==> PenaltyAtMost(c, Step(c, state, events[0]), events[1..], p))
  }

  lemma CapacityMonotone(burst: int, penalty: real, p: real)
    requires 0.0 <= penalty <= p
    ensures Capacity(burst, penalty) <= Capacity(burst, p)
  {
    hide Times;
    if burst >= 0 {
      TimesMonotone(penalty, p, burst as real);
    } else {
      TimesSign(burst as real, penalty);
    }
  }

  lemma {:induction false} PenaltyBoundsRate(c: Context, state: Option<BucketState>, events: seq<Event>, p: real)
    requires ValidContext(c) && Valid(c, state)
    requires PenaltyAtMost(c, state, events, p)
    ensures RateAtMost(c, state, events, Times(c.limits.qps, p), Capacity(c.limits.burst, p))
    decreases |events|
  {
    hide Times;
    if state.Some? {
      TimesMonotone(state.value.penalty, p, c.limits.qps);
      CapacityMonotone(c.limits.burst, state.value.penalty, p);
    }
    if events != [] {
      StepKeepsValid(c, state, events[0]);
      PenaltyBoundsRate(c, Step(c, state, events[0]), events[1..], p);
    }
  }

  /** The clock readings of the acquires never go back and lie in [t1, t2]. */
  predicate WithinWindow(t1: real, t2: real, events: seq<Event>)
    decreases |events|
  {
    if events == [] then t1 <= t2
    else if events[0].Acquire? then t1 <= events[0].now && WithinWindow(events[0].now, t2, events[1..])
    else WithinWindow(t1, t2, events[1..])
  }

  lemma {:induction false} WindowForward(t1: real, t2: real, events: seq<Event>)
    requires WithinWindow(t1, t2, events)
    ensures Forward(t1, events) <= t2 - t1
    decreases |events|
  {
    if events != [] {
      WindowForward(if events[0].Acquire? then events[0].now else t1, t2, events[1..]);
    }
  }

  lemma {:induction false} FullPenaltyAlways(c: Context, state: Option<BucketState>, events: seq<Event>)
    requires ValidContext(c) && Valid(c, state)
    ensures PenaltyAtMost(c, state, events, 1.0)
    decreases |events|
  {
    hide Times;
    if events != [] {
      StepKeepsValid(c, state, events[0]);
      FullPenaltyAlways(c, Step(c, state, events[0]), events[1..]);
    }
  }

  /** Rate bound: whatever happened before the window, while the penalty stays at most `p` a window
      [t1, t2] grants at most one slowed bucket plus the slowed rate times its length, and one bucket
      more for every lost state. */
  lemma SlowedRateBound(c: Context, history: seq<Event>, window: seq<Event>, t1: real, t2: real, p: real)
    requires ValidContext(c) && 0.0 <= p
    requires WithinWindow(t1, t2, window)
    requires PenaltyAtMost(c, Final(c, None, history), window, p)
    ensures Grants(c, Final(c, None, history), window) as real
         <= Allowance(Losses(window), Capacity(c.limits.burst, p), t2 - t1, Times(c.limits.qps, p))
  {
    hide Times;
    var state := Final(c, None, history);
    RunKeepsValid(c, None, history);
    TimesSign(c.limits.qps, p);
    PenaltyBoundsRate(c, state, window, p);
    GrantsArePaid(c, state, window, t1, Times(c.limits.qps, p), Capacity(c.limits.burst, p));
    WindowForward(t1, t2, window);
    TimesMonotone(Forward(t1, window), t2 - t1, Times(c.limits.qps, p));
  }

  /** The same without assuming anything of the penalty: when no state is lost, a window grants at most
      max(1, burst) + (t2 - t1) * qps. */
  lemma RateBound(c: Context, history: seq<Event>, window: seq<Event>, t1: real, t2: real)
    requires ValidContext(c)
    requires WithinWindow(t1, t2, window)
    ensures Grants(c, Final(c, None, history), window) as real
         <= Allowance(Losses(window), Max(1.0, c.limits.burst as real), t2 - t1, c.limits.qps)
  {
    hide Times;
    RunKeepsValid(c, None, history);
    FullPenaltyAlways(c, Final(c, None, history), window);
    SlowedRateBound(c, history, window, t1, t2, 1.0);
    TimesUnit(c.limits.qps);
    TimesUnit(c.limits.burst as real);
  }

  /** The clock must not go back. With one token every ten seconds, acquires read at 0, 10, 0 and 10
      seconds refill twice over the same ten seconds: three grants where a window allows two. */
  lemma BackwardClockBreaksBound()
    ensures
      var c := Context(Limits(0.1, 1), Policy(0.5, 0.25, 20));
      var run := [Acquire(0.0), Acquire(10.0), Acquire(0.0), Acquire(10.0)];
      && ValidContext(c)
      && Losses(run) == 0
      && (forall i :: 0 <= i < |run| ==> 0.0 <= run[i].now <= 10.0)
      && Grants(c, None, run) as real > Max(1.0, c.limits.burst as real) + c.limits.qps * (10.0 - 0.0)
  {
    var c := Context(Limits(0.1, 1), Policy(0.5, 0.25, 20));
    var s, t := BucketState(0.0, 0.0, 1.0, 0, 0), BucketState(0.0, 10.0, 1.0, 0, 0);
    var run := [Acquire(0.0), Acquire(10.0), Acquire(0.0), Acquire(10.0)];
    assert run[1..] == [Acquire(10.0), Acquire(0.0), Acquire(10.0)];
    assert run[1..][1..] == [Acquire(0.0), Acquire(10.0)];
    assert run[1..][1..][1..] == [Acquire(10.0)];
    assert ApplyAcquire(None, 0.0, c.limits) == Acquired(true, 0.0, s);
    assert ApplyAcquire(Some(s), 10.0, c.limits) == Acquired(true, 0.0, t);
    var back := ApplyAcquire(Some(t), 0.0, c.limits);
    assert !back.allowed && back.state == s;
    assert Grants(c, Some(s), [Acquire(10.0)]) == 1;
    assert Grants(c, Some(t), [Acquire(0.0), Acquire(10.0)]) == 1;
    assert Grants(c, Some(s), run[1..]) == 2;
  }

  function SameInstant(n: nat, now: real): seq<Event> {
    seq(n, _ => Acquire(now))
  }

  lemma {:induction false} DrainsOneByOne(c: Context, s: BucketState, k: nat, n: nat, now: real)
    requires ValidContext(c) && Valid(c, Some(s)) && Times(c.limits.qps, s.penalty) > 0.0
    requires s.tokens == k as real && s.updatedAt == now
    ensures Grants(c, Some(s), SameInstant(n, now)) == if n <= k then n else k
    decreases n
  {
    if n > 0 {
      var events := SameInstant(n, now);
      assert events[1..] == SameInstant(n - 1, now);
      var next := ApplyAcquire(Some(s), now, c.limits);
      StepKeepsValid(c, Some(s), Acquire(now));
      DrainsOneByOne(c, next.state, if k > 0 then k - 1 else 0, n - 1, now);
    }
  }

  /** The bound is reached: n simultaneous callers of an untouched bucket get exactly min(n, burst). */
  lemma BurstIsExact(c: Context, n: nat, now: real)
    requires ValidContext(c) && c.limits.qps > 0.0 && c.limits.burst >= 1
    ensures Grants(c, None, SameInstant(n, now)) == if n <= c.limits.burst then n else c.limits.burst
  {
    if n > 0 {
      var events := SameInstant(n, now);
      assert events[1..] == SameInstant(n - 1, now);
      var first := ApplyAcquire(None, now, c.limits);
      StepKeepsValid(c, None, Acquire(now));
      assert first.allowed && first.state.tokens == (c.limits.burst - 1) as real;
      DrainsOneByOne(c, first.state, c.limits.burst - 1, n - 1, now);
    }
  }

  // ---- Slowing down and recovering

  function Slowed(penalty: real, ratio: real, n: nat): real {
    if n == 0 then penalty else Times(Slowed(penalty, ratio, n - 1), ratio)
  }

  function Repeat(e: Event, n: nat): seq<Event> {
    if n == 0 then [] else Repeat(e, n - 1) + [e]
  }

  lemma {:induction false} FinalSnoc(c: Context, state: Option<BucketState>, events: seq<Event>, e: Event)
    requires ValidContext(c)
    ensures Final(c, state, events + [e]) == Step(c, Final(c, state, events), e)
    decreases |events|
  {
    hide Times;
    if events == [] {
      assert [e][1..] == [];
    } else {
      assert (events + [e])[1..] == events[1..] + [e];
      FinalSnoc(c, Step(c, state, events[0]), events[1..], e);
    }
  }

  /** n answers of 429 in a row slow the bucket by ratio^n, but never below the floor. */
  lemma {:induction false} ThrottleStreak(c: Context, s: BucketState, now: real, n: nat)
    requires ValidContext(c) && Valid(c, Some(s))
    ensures
      var r := Final(c, Some(s), Repeat(Throttle(now), n));
      && r.Some?
      && r.value.penalty == Max(c.policy.penaltyFloor, Slowed(s.penalty, c.policy.slowdownRatio, n))
      && r.value.consecutive429 == s.consecutive429 + n
      && r.value.updatedAt == s.updatedAt
  {
    hide Times;
    if n > 0 {
      ThrottleStreak(c, s, now, n - 1);
      FinalSnoc(c, Some(s), Repeat(Throttle(now), n - 1), Throttle(now));
      var floor, ratio := c.policy.penaltyFloor, c.policy.slowdownRatio;
      RecoveryRaises(floor, ratio);
      if Slowed(s.penalty, ratio, n - 1) <= floor {
        TimesMonotone(Slowed(s.penalty, ratio, n - 1), floor, ratio);
      }
    }
  }

  /** A slowed bucket keeps its penalty for the first recover_after_successes - 1 successes in a row and
      is raised by exactly one step, capped at full speed, by the last of them. */
  lemma {:induction false} RecoveryStreak(c: Context, s: BucketState, now: real, n: nat)
    requires ValidContext(c) && s.consecutiveOk == 0 && s.penalty < 1.0
    requires n <= c.policy.recoverAfterSuccesses
    ensures
      var r := Final(c, Some(s), Repeat(Success(now), n));
      && r.Some?
      && (n < c.policy.recoverAfterSuccesses ==>
            r.value.penalty == s.penalty && r.value.consecutiveOk == n)
      && (n == c.policy.recoverAfterSuccesses ==>
            r.value.penalty == Min(1.0, s.penalty / c.policy.slowdownRatio) && r.value.consecutiveOk == 0)
      && (n > 0 ==> r.value.consecutive429 == 0)
  {
    hide Times;
    if n > 0 {
      RecoveryStreak(c, s, now, n - 1);
      FinalSnoc(c, Some(s), Repeat(Success(now), n - 1), Success(now));
    }
  }

  // ---- Retry-after

  predicate GrantedAt(c: Context, s: BucketState, t: real) {
    ApplyAcquire(Some(s), t, c.limits).allowed
  }

  /** When the bucket holds a whole token again. */
  function ReadyAt(s: BucketState, rate: real): real
    requires rate > 0.0
  {
    s.updatedAt + (1.0 - s.tokens) / rate
  }

  lemma Refills(missing: real, rate: real, d: real)
    requires rate > 0.0
    ensures Times(d, rate) >= missing <==> d >= missing / rate
  {
    hide Times;
    TimesOver(missing, rate);
    if d >= missing / rate {
      TimesMonotone(missing / rate, d, rate);
    } else {
      TimesStrict(d, missing / rate, rate);
    }
  }

  lemma DeniedUntilReady(c: Context, s: BucketState, t: real)
    requires ValidContext(c) && Valid(c, Some(s)) && Times(c.limits.qps, s.penalty) > 0.0
    requires s.tokens < 1.0
    ensures GrantedAt(c, s, t) <==> t >= ReadyAt(s, Times(c.limits.qps, s.penalty))
  {
    hide Times;
    var rate := Times(c.limits.qps, s.penalty);
    TimesUnit(rate);
    Refills(1.0 - s.tokens, rate, t - s.updatedAt);
    Refills(1.0 - s.tokens, rate, 0.0);
  }

  /** A denial's retry-after is exact - denied before it, granted from it on - if and only if the
      configured rate is positive. */
  lemma RetryAfterExact(c: Context, state: Option<BucketState>, now: real)
    requires ValidContext(c) && Valid(c, state) && !ApplyAcquire(state, now, c.limits).allowed
    ensures
      var denied := ApplyAcquire(state, now, c.limits);
      (forall t: real :: GrantedAt(c, denied.state, t) <==> t >= now + denied.wait) <==> c.limits.qps > 0.0
  {
    hide Times;
    var denied := ApplyAcquire(state, now, c.limits);
    var s := denied.state;
    TimesSign(c.limits.qps, s.penalty);
    TimesUnit(s.penalty);
    StepKeepsValid(c, state, Acquire(now));
    if c.limits.qps > 0.0 {
      if state.Some? {
        TimesSign(Max(0.0, now - state.value.updatedAt), Times(c.limits.qps, s.penalty));
      }
      forall t: real
        ensures GrantedAt(c, s, t) <==> t >= now + denied.wait
      {
        DeniedUntilReady(c, s, t);
      }
    } else {
      assert !GrantedAt(c, s, now + denied.wait);
    }
  }

  function Polls(times: seq<real>): seq<Event> {
    seq(|times|, i requires 0 <= i < |times| => Acquire(times[i]))
  }

  /** `times` never goes back from `now` and ends before `end`. */
  predicate Waits(now: real, times: seq<real>, end: real)
    decreases |times|
  {
    if times == [] then now <= end else now <= times[0] < end && Waits(times[0], times[1..], end)
  }

  lemma SameReady(tokens: real, d: real, rate: real)
    requires rate > 0.0
    ensures d + (1.0 - (tokens + Times(d, rate))) / rate == (1.0 - tokens) / rate
  {
    assert Times(d, rate) / rate == d;
  }

  lemma PollOnce(c: Context, s: BucketState, t: real, later: real, rate: real)
    requires ValidContext(c) && Valid(c, Some(s)) && s.tokens < 1.0
    requires rate == Times(c.limits.qps, s.penalty) && rate > 0.0
    requires s.updatedAt <= t <= later && t < ReadyAt(s, rate)
    ensures
      var poll := ApplyAcquire(Some(s), t, c.limits);
      && !poll.allowed
      && poll.state.tokens < 1.0 && poll.state.updatedAt == t && poll.state.penalty == s.penalty
      && ReadyAt(poll.state, rate) == ReadyAt(s, rate)
      && ApplyAcquire(Some(poll.state), later, c.limits) == ApplyAcquire(Some(s), later, c.limits)
  {
    hide Times;
    DeniedUntilReady(c, s, t);
    var poll := ApplyAcquire(Some(s), t, c.limits);
    var gained := Times(t - s.updatedAt, rate);
    TimesSign(t - s.updatedAt, rate);
    TimesAdd(later - t, t - s.updatedAt, rate);
    TimesSign(later - t, rate);
    assert poll.state == s.(tokens := s.tokens + gained, updatedAt := t);
    SameReady(s.tokens, t - s.updatedAt, rate);
  }

  /** Polling is free: any number of polls between a denial and its retry-after is denied, and leaves
      every later acquire - decision, wait and stored bucket - as if none of them had happened. */
  lemma {:induction false} PollingIsFree(c: Context, s: BucketState, times: seq<real>, later: real, rate: real)
    requires ValidContext(c) && Valid(c, Some(s)) && s.tokens < 1.0
    requires rate == Times(c.limits.qps, s.penalty) && rate > 0.0
    requires Waits(s.updatedAt, times, ReadyAt(s, rate))
    requires s.updatedAt <= later && forall i :: 0 <= i < |times| ==> times[i] <= later
    ensures Grants(c, Some(s), Polls(times)) == 0
    ensures ApplyAcquire(Final(c, Some(s), Polls(times)), later, c.limits) == ApplyAcquire(Some(s), later, c.limits)
    decreases |times|
  {
    hide Times;
    if times != [] {
      assert Polls(times)[1..] == Polls(times[1..]);
      PollOnce(c, s, times[0], later, rate);
      StepKeepsValid(c, Some(s), Acquire(times[0]));
      PollingIsFree(c, ApplyAcquire(Some(s), times[0], c.limits).state, times[1..], later, rate);
    }
  }
}
