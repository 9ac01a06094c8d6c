/** Exactly when the window formula of the token bucket holds: a condition on the clock readings alone. */
module WindowBound {
  import opened Options
  import opened Decimals
  import opened TokenBucket

  /** How far the clock moves forward over the acquires of a run, from the first of them on. */
  function Travel(events: seq<Event>): real {
    if events == [] then 0.0
    else if events[0].Acquire? then Forward(events[0].now, events[1..])
    else Travel(events[1..])
  }

  lemma {:induction false} ForwardNotNegative(clock: real, events: seq<Event>)
    ensures Forward(clock, events) >= 0.0
    decreases |events|
  {
    if events != [] {
      ForwardNotNegative(if events[0].Acquire? then events[0].now else clock, events[1..]);
    }
  }

  /** Some clock reading from which the run moves forward no more than from its own first one. */
  lemma {:induction false} StartOfTravel(events: seq<Event>) returns (clock: real)
    ensures Forward(clock, events) == Travel(events)
  {
    clock := 0.0;
    if events != [] {
      if events[0].Acquire? {
        clock := events[0].now;
      } else {
        clock := StartOfTravel(events[1..]);
      }
    }
  }

  /** Whatever happened before, and whatever the clock does: while the penalty stays at most `p`, a run grants at most
      one slowed bucket, one more for every lost state, and the slowed rate times the forward travel of the clock. */
  lemma SlowedTravelBound(c: Context, history: seq<Event>, events: seq<Event>, p: real)
    requires ValidContext(c) && 0.0 <= p
    requires PenaltyAtMost(c, Final(c, None, history), events, p)
    ensures Grants(c, Final(c, None, history), events) as real
         <= Allowance(Losses(events), Capacity(c.limits.burst, p), Travel(events), Times(c.limits.qps, p))
  {
    hide Times;
    var state := Final(c, None, history);
    RunKeepsValid(c, None, history);
    TimesSign(c.limits.qps, p);
    PenaltyBoundsRate(c, state, events, p);
    var clock := StartOfTravel(events);
    GrantsArePaid(c, state, events, clock, Times(c.limits.qps, p), Capacity(c.limits.burst, p));
  }

  /** The same at full speed, with nothing asked of the penalty. */
  lemma TravelBound(c: Context, history: seq<Event>, events: seq<Event>)
    requires ValidContext(c)
    ensures Grants(c, Final(c, None, history), events) as real
         <= Allowance(Losses(events), Max(1.0, c.limits.burst as real), Travel(events), c.limits.qps)
  {
    hide Times;
    RunKeepsValid(c, None, history);
    FullPenaltyAlways(c, Final(c, None, history), events);
    SlowedTravelBound(c, history, events, 1.0);
    TimesUnit(c.limits.qps);
    TimesUnit(c.limits.burst as real);
  }

  /** Readings that never go back within the window travel no further than its length. */
  lemma {:induction false} OrderedTravel(t1: real, t2: real, events: seq<Event>)
    requires WithinWindow(t1, t2, events)
    ensures Travel(events) <= t2 - t1
    decreases |events|
  {
    if events != [] {
      if events[0].Acquire? {
        WindowForward(events[0].now, t2, events[1..]);
      } else {
        OrderedTravel(t1, t2, events[1..]);
      }
    }
  }

  // ---- The window formula

  /** A window [t1, t2] of the events grants at most one slowed bucket plus the slowed rate times its length, for all
      limits and policies and after every history, as long as the penalty stays at most `p`. */
  ghost predicate FormulaHolds(events: seq<Event>, t1: real, t2: real, p: real) {
    forall c: Context, history: seq<Event> ::
      ValidContext(c) && PenaltyAtMost(c, Final(c, None, history), events, p) ==>
        Grants(c, Final(c, None, history), events) as real
        <= Capacity(c.limits.burst, p) + Times(t2 - t1, Times(c.limits.qps, p))
  }

  // ---- A bucket that makes the most of the travel

  /** A bucket of one token at penalty `p` that no success in the run can raise. */
  ghost predicate Steady(c: Context, s: BucketState, p: real, more: nat) {
    && ValidContext(c) && 0.0 < p <= 1.0
    && c.limits.burst == 1 && c.policy.slowdownRatio == p && c.policy.penaltyFloor == p
    && s.penalty == p && 0.0 <= s.tokens <= 1.0
    && s.consecutiveOk + more < c.policy.recoverAfterSuccesses
  }

  lemma OneToken(p: real)
    requires 0.0 < p <= 1.0
    ensures Capacity(1, p) == 1.0 && Times(p, p) <= p
  {
    TimesUnit(p);
    TimesMonotone(p, 1.0, p);
    hide Times;
  }

  lemma SettleKeepsSteady(c: Context, s: BucketState, e: Event, p: real, more: nat)
    requires more > 0 && Steady(c, s, p, more) && (e.Throttle? || e.Success?)
    ensures
      var t := Step(c, Some(s), e).value;
      Steady(c, t, p, more - 1) && t.tokens == s.tokens && t.updatedAt == s.updatedAt
  {
    OneToken(p);
    hide Times, Capacity;
  }

  lemma {:induction false} SteadyPenalty(c: Context, s: BucketState, events: seq<Event>, p: real)
    requires Steady(c, s, p, |events|) && Losses(events) == 0
    ensures PenaltyAtMost(c, Some(s), events, p)
    decreases |events|
  {
    hide Times;
    if events != [] {
      var e := events[0];
      if e.Acquire? {
        SteadyAcquire(c, s, e.now, p, |events|);
      } else {
        SettleKeepsSteady(c, s, e, p, |events|);
      }
      SteadyPenalty(c, Step(c, Some(s), e).value, events[1..], p);
    }
  }

  lemma SteadyAcquire(c: Context, s: BucketState, now: real, p: real, more: nat)
    requires more > 0 && Steady(c, s, p, more)
    ensures
      var a := ApplyAcquire(Some(s), now, c.limits);
      var rate := Times(c.limits.qps, p);
      var tokens := s.tokens + Accrued(rate, s.updatedAt, now);
      && Steady(c, a.state, p, more - 1) && a.state.updatedAt == now
      && (rate > 0.0 && tokens >= 1.0 ==> a.allowed && (s.tokens == 1.0 ==> a.state.tokens == 0.0))
      && (rate > 0.0 && tokens < 1.0 ==> !a.allowed && a.state.tokens == tokens)
  {
    OneToken(p);
    TimesSign(c.limits.qps, p);
    TimesSign(Max(0.0, now - s.updatedAt), Times(c.limits.qps, p));
    hide Times, Capacity;
  }

  /** Travel that refills the rest of a token earns a grant. */
  lemma {:induction false} TravelEarns(c: Context, s: BucketState, events: seq<Event>, p: real)
    requires Steady(c, s, p, |events|) && Losses(events) == 0 && Times(c.limits.qps, p) > 0.0
    requires s.tokens < 1.0
    requires s.tokens + Times(Forward(s.updatedAt, events), Times(c.limits.qps, p)) >= 1.0
    ensures Grants(c, Some(s), events) >= 1
    decreases |events|
  {
    hide Times, ApplyAcquire, ApplyThrottle, ApplySuccess;
    var rate := Times(c.limits.qps, p);
    TimesUnit(rate);
    if events != [] {
      var e, rest := events[0], events[1..];
      if e.Acquire? {
        SteadyAcquire(c, s, e.now, p, |events|);
        TimesAdd(Max(0.0, e.now - s.updatedAt), Forward(e.now, rest), rate);
        if s.tokens + Accrued(rate, s.updatedAt, e.now) < 1.0 {
          TravelEarns(c, ApplyAcquire(Some(s), e.now, c.limits).state, rest, p);
        }
      } else {
        SettleKeepsSteady(c, s, e, p, |events|);
        TravelEarns(c, Step(c, Some(s), e).value, rest, p);
      }
    }
  }

  /** A full bucket grants the first acquire, and travel worth a token a second one. */
  lemma {:induction false} FullBucketEarnsTwo(c: Context, s: BucketState, events: seq<Event>, p: real)
    requires Steady(c, s, p, |events|) && Losses(events) == 0 && Times(c.limits.qps, p) > 0.0
    requires s.tokens == 1.0 && Times(Travel(events), Times(c.limits.qps, p)) >= 1.0
    ensures Grants(c, Some(s), events) >= 2
    decreases |events|
  {
    hide Times, ApplyAcquire, ApplyThrottle, ApplySuccess;
    var rate := Times(c.limits.qps, p);
    TimesUnit(rate);
    if events != [] {
      var e, rest := events[0], events[1..];
      if e.Acquire? {
        SteadyAcquire(c, s, e.now, p, |events|);
        AccruedGrows(rate, rate, s.updatedAt, e.now, e.now);
        TravelEarns(c, ApplyAcquire(Some(s), e.now, c.limits).state, rest, p);
      } else {
        SettleKeepsSteady(c, s, e, p, |events|);
        FullBucketEarnsTwo(c, Step(c, Some(s), e).value, rest, p);
      }
    }
  }

  /** One token in the bucket, and one more for exactly the travel of the run, at penalty `p`. */
  function Tight(events: seq<Event>, p: real): Context
    requires Travel(events) > 0.0 && p > 0.0
  {
    Context(Limits(1.0 / Travel(events) / p, 1), Policy(p, p, |events| + 1))
  }

  lemma TightRate(events: seq<Event>, p: real)
    requires Travel(events) > 0.0 && p > 0.0
    ensures Tight(events, p).limits.qps > 0.0
    ensures Times(Tight(events, p).limits.qps, p) == 1.0 / Travel(events) > 0.0
    ensures Times(Travel(events), 1.0 / Travel(events)) == 1.0
  {
    var travel := Travel(events);
    assert 1.0 / travel > 0.0;
    assert 1.0 / travel / p > 0.0;
    TimesOver(1.0 / travel, p);
    TimesOver(1.0, travel);
    TimesSwap(travel, 1.0 / travel);
  }

  lemma AfterOneThrottle(c: Context, p: real, more: nat)
    requires 0.0 < p <= 1.0 && ValidContext(c)
    requires c.limits.burst == 1 && c.policy == Policy(p, p, more + 1)
    ensures
      var s := Final(c, None, [Throttle(0.0)]);
      s.Some? && Steady(c, s.value, p, more) && s.value.tokens == 1.0
  {
    OneToken(p);
    OneToken(1.0);
    TimesUnit(p);
    hide Times, Capacity;
    assert [Throttle(0.0)][1..] == [];
  }

  /** Limits, policy and history for which more travel than the window's length breaks the formula. */
  lemma TravelBreaksFormula(events: seq<Event>, t1: real, t2: real, p: real)
    requires Losses(events) == 0 && t1 <= t2 && 0.0 < p <= 1.0 && Travel(events) > t2 - t1
    ensures
      var c, history := Tight(events, p), [Throttle(0.0)];
      && ValidContext(c) && PenaltyAtMost(c, Final(c, None, history), events, p)
      && Grants(c, Final(c, None, history), events) as real
         > Capacity(c.limits.burst, p) + Times(t2 - t1, Times(c.limits.qps, p))
  {
    var c := Tight(events, p);
    TightRate(events, p);
    hide Times;
    AfterOneThrottle(c, p, |events|);
    var s := Final(c, None, [Throttle(0.0)]).value;
    hide Final, Grants, PenaltyAtMost, Travel;
    SteadyPenalty(c, s, events, p);
    FullBucketEarnsTwo(c, s, events, p);
    TimesStrict(t2 - t1, Travel(events), 1.0 / Travel(events));
    OneToken(p);
  }

  /** The window formula holds for all limits, policies and histories if and only if the clock readings move forward
      by no more than the length of the window. Readings may go back: only what they then gain again counts twice. */
  lemma FormulaHoldsWhen(events: seq<Event>, t1: real, t2: real, p: real)
    requires Losses(events) == 0 && t1 <= t2 && 0.0 < p <= 1.0
    ensures FormulaHolds(events, t1, t2, p) <==> Travel(events) <= t2 - t1
  {
    hide Times, PenaltyAtMost, Final, Grants, Travel, Capacity;
    if Travel(events) <= t2 - t1 {
      forall c: Context, history: seq<Event> |
        ValidContext(c) && PenaltyAtMost(c, Final(c, None, history), events, p)
        ensures Grants(c, Final(c, None, history), events) as real
             <= Capacity(c.limits.burst, p) + Times(t2 - t1, Times(c.limits.qps, p))
      {
        SlowedTravelBound(c, history, events, p);
        TimesSign(c.limits.qps, p);
        TimesMonotone(Travel(events), t2 - t1, Times(c.limits.qps, p));
        TimesUnit(Capacity(c.limits.burst, p));
      }
    } else {
      TravelBreaksFormula(events, t1, t2, p);
    }
  }

  /** At full speed nothing need be asked of the penalty. */
  lemma FullSpeedFormulaWhen(events: seq<Event>, t1: real, t2: real)
    requires Losses(events) == 0 && t1 <= t2
    ensures
      (forall c: Context, history: seq<Event> :: ValidContext(c) ==>
         Grants(c, Final(c, None, history), events) as real
         <= Max(1.0, c.limits.burst as real) + Times(t2 - t1, c.limits.qps))
      <==> Travel(events) <= t2 - t1
  {
    hide Times, PenaltyAtMost, Final, Grants, Travel;
    if Travel(events) <= t2 - t1 {
      forall c: Context, history: seq<Event> | ValidContext(c)
        ensures Grants(c, Final(c, None, history), events) as real
             <= Max(1.0, c.limits.burst as real) + Times(t2 - t1, c.limits.qps)
      {
        TravelBound(c, history, events);
        TimesMonotone(Travel(events), t2 - t1, c.limits.qps);
        TimesUnit(Max(1.0, c.limits.burst as real));
      }
    } else {
      TravelBreaksFormula(events, t1, t2, 1.0);
      var c := Tight(events, 1.0);
      TimesUnit(c.limits.qps);
      TimesUnit(c.limits.burst as real);
      assert Grants(c, Final(c, None, [Throttle(0.0)]), events) as real
           > Max(1.0, c.limits.burst as real) + Times(t2 - t1, c.limits.qps);
    }
  }
}
