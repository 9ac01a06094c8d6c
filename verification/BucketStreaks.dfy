/** How the bucket's penalty and its two streaks develop over runs, and what each step does to the tokens. */
module BucketStreaks {
  import opened Options
  import opened Decimals
  import opened TokenBucket

  predicate OnlyCalls(events: seq<Event>) {
    forall i :: 0 <= i < |events| ==> events[i].Acquire? || events[i].Success?
  }

  function Successes(events: seq<Event>): nat {
    if events == [] then 0 else (if events[0].Success? then 1 else 0) + Successes(events[1..])
  }

  /** While fewer successes are reported than it takes, the penalty stays and each success counts. */
  lemma {:induction false} ShortStreak(c: Context, s: BucketState, events: seq<Event>)
    requires ValidContext(c) && OnlyCalls(events)
    requires s.consecutiveOk + Successes(events) < c.policy.recoverAfterSuccesses
    ensures
      var t := Final(c, Some(s), events);
      t.Some? && t.value.penalty == s.penalty && t.value.consecutiveOk == s.consecutiveOk + Successes(events)
    decreases |events|
  {
    hide Times;
    if events != [] {
      ShortStreak(c, Step(c, Some(s), events[0]).value, events[1..]);
    }
  }

  /** A 429 clears the streak of successes, whatever came before it: any mix of acquires with fewer than the required
      successes leaves the penalty as the 429 set it, and the success that completes the number raises it by exactly
      one step, capped at full speed. */
  lemma RecoveryStartsOver(c: Context, history: seq<Event>, hit: real, events: seq<Event>, now: real)
    requires ValidContext(c) && OnlyCalls(events)
    requires Successes(events) < c.policy.recoverAfterSuccesses
    ensures
      var before := Final(c, None, history);
      var slowed := Final(c, before, [Throttle(hit)]);
      var later := Final(c, slowed, events);
      var raised := Final(c, later, [Success(now)]);
      && slowed.Some? && later.Some? && raised.Some?
      && slowed.value.penalty
         == Max(c.policy.penaltyFloor, Times(if before.Some? then before.value.penalty else 1.0, c.policy.slowdownRatio))
      && later.value.penalty == slowed.value.penalty
      && raised.value.penalty
         == if Successes(events) + 1 == c.policy.recoverAfterSuccesses && slowed.value.penalty < 1.0 then
              Min(1.0, slowed.value.penalty / c.policy.slowdownRatio)
            else slowed.value.penalty
  {
    hide Times;
    var before := Final(c, None, history);
    assert [Throttle(hit)][1..] == [] && [Success(now)][1..] == [];
    var slowed := Step(c, before, Throttle(hit)).value;
    assert Final(c, before, [Throttle(hit)]) == Some(slowed);
    ShortStreak(c, slowed, events);
    var later := Final(c, Some(slowed), events);
    assert Final(c, later, [Success(now)]) == Step(c, later, Success(now));
  }

  /** The 429s since the last success, loss or beginning. */
  function Recent429(events: seq<Event>): nat {
    if events == [] then 0
    else
      var last := events[|events| - 1];
      var before := Recent429(events[..|events| - 1]);
      if last.Throttle? then before + 1 else if last.Acquire? then before else 0
  }

  /** The bucket's count of 429s is that number after every run; acquires do not disturb it. */
  lemma {:induction false} CountsRecent429(c: Context, events: seq<Event>)
    requires ValidContext(c)
    ensures
      var s := Final(c, None, events);
      if s.Some? then s.value.consecutive429 == Recent429(events) else Recent429(events) == 0
    decreases |events|
  {
    hide Times;
    if events != [] {
      var last := |events| - 1;
      CountsRecent429(c, events[..last]);
      assert events == events[..last] + [events[last]];
      FinalSnoc(c, None, events[..last], events[last]);
    }
  }

  /** What a bucket holds at a clock reading: its tokens and what has been refilled since, up to its capacity. */
  function Level(c: Context, s: BucketState, now: real): real {
    var gone := if now > s.updatedAt then now - s.updatedAt else 0.0;
    var most := if Times(c.limits.burst as real, s.penalty) > 1.0 then Times(c.limits.burst as real, s.penalty) else 1.0;
    var filled := s.tokens + Times(gone, Times(c.limits.qps, s.penalty));
    if filled < most then filled else most
  }

  /** An acquire takes exactly one token from that level if it is granted and none if it is denied, dates the bucket,
      and touches neither penalty nor streaks; it is granted exactly when a token is there and the rate is positive,
      and a denial's wait is what the missing part takes to refill, or a second when nothing refills. */
  lemma AcquireTakesOne(c: Context, s: BucketState, now: real)
    requires ValidContext(c) && Valid(c, Some(s))
    ensures
      var a := ApplyAcquire(Some(s), now, c.limits);
      var rate := Times(c.limits.qps, s.penalty);
      && (a.allowed <==> rate > 0.0 && Level(c, s, now) >= 1.0)
      && a.state == s.(tokens := Level(c, s, now) - (if a.allowed then 1.0 else 0.0), updatedAt := now)
      && (a.allowed ==> a.wait == 0.0)
      && (!a.allowed && rate > 0.0 ==> Times(a.wait, rate) == 1.0 - Level(c, s, now))
      && (!a.allowed && rate <= 0.0 ==> a.wait == 1.0)
  {
    hide Times;
    var rate := Times(c.limits.qps, s.penalty);
    TimesSign(c.limits.qps, s.penalty);
    TimesSign(Max(0.0, now - s.updatedAt), rate);
    if rate > 0.0 {
      TimesOver(1.0 - Level(c, s, now), rate);
    }
  }

  /** Slowing down and recovering take no tokens but those the new capacity cannot hold, and refill none. */
  lemma SettlingKeepsTokens(c: Context, s: BucketState, e: Event)
    requires ValidContext(c) && (e.Throttle? || e.Success?)
    ensures
      var t := Step(c, Some(s), e).value;
      var most := Times(c.limits.burst as real, t.penalty);
      && t.updatedAt == s.updatedAt
      && t.tokens == (if s.tokens <= 1.0 || s.tokens <= most then s.tokens else if most > 1.0 then most else 1.0)
  {
    hide Times;
  }

  /** A bucket that nobody has used yet starts full, at full speed and without streaks. */
  lemma StartsFull(c: Context, now: real)
    requires ValidContext(c)
    ensures
      var full := if c.limits.burst > 1 then c.limits.burst as real else 1.0;
      var a := ApplyAcquire(None, now, c.limits);
      && (a.allowed <==> c.limits.qps > 0.0)
      && a.state == BucketState(full - (if a.allowed then 1.0 else 0.0), now, 1.0, 0, 0)
      && a.wait == (if a.allowed then 0.0 else 1.0)
      && ApplySuccess(None, now, c.limits.burst, c.policy) == BucketState(full, now, 1.0, 0, 1)
      && ApplyThrottle(None, now, c.limits.burst, c.policy).updatedAt == now
      && ApplyThrottle(None, now, c.limits.burst, c.policy).consecutive429 == 1
      && ApplyThrottle(None, now, c.limits.burst, c.policy).consecutiveOk == 0
  {
    TimesUnit(c.limits.burst as real);
    TimesUnit(c.limits.qps);
    hide Times;
  }
}
