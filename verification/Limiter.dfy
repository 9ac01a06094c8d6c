/** The limiter object: one bucket per key, one counter per key and UTC day, and stores that may be
    unreachable at any step. */
module Limiter {
  import opened Options
  import opened Decimals
  import opened TokenBucket
  import DailyQuota

  datatype Scope = Shared | Own(shopId: string)

  datatype Key = Key(platform: string, scope: Scope)

  const APP_DIMENSIONS: set<string> := {"app", "per_app"}

  datatype Spec = Spec(limits: Limits, dimension: string, dailyQuota: Option<int>)

  datatype Decision = Decision(allowed: bool, retryAfter: real, penalty: real)

  /** The clock readings of one call, in microseconds: for the check, for the wait of a blocked call,
      for the bucket and for the count. */
  datatype Readings = Readings(check: int, blocked: int, take: int, count: int)

  /** What becomes of a writing store step: it works, it does not reach the store, or it does and the answer is lost
      on the way back. */
  datatype Fault = Works | Unreachable | ReplyLost

  /** What becomes of the store steps of one call. */
  datatype Outage = Outage(dayRead: bool, bucket: Fault, dayWrite: Fault)

  datatype Stores = Stores(buckets: map<Key, BucketState>, days: map<Key, map<int, int>>, hasDayStore: bool)

  /** Shops of a platform share one bucket when the quota is per application. */
  function BucketKey(platform: string, shopId: string, spec: Spec): Key {
    Key(platform, if spec.dimension in APP_DIMENSIONS then Shared else Own(shopId))
  }

  /** Two shops share a bucket exactly when they are on one platform and its quota is per application. */
  lemma SharedBuckets(platform: string, a: string, other: string, b: string, spec: Spec)
    requires a != b
    ensures BucketKey(platform, a, spec) == BucketKey(other, b, spec)
       <==> platform == other && spec.dimension in APP_DIMENSIONS
  {
  }

  function Seconds(micros: int): real {
    micros as real / 1000000.0
  }

  function DayCounts(s: Stores, key: Key): map<int, int> {
    if key in s.days then s.days[key] else map[]
  }

  const UNAVAILABLE: Decision := Decision(false, 1.0, 1.0)

  /** The daily check: a decision when the call must stop here, nothing when it may go on. */
  function DailyBlock(s: Stores, key: Key, quota: int, clock: Readings, outage: Outage): Option<Decision> {
    if !s.hasDayStore || outage.dayRead then Some(UNAVAILABLE)
    else if DailyQuota.Blocked(DayCounts(s, key), DailyQuota.Day(clock.check), quota) then
      Some(Decision(false, Seconds(DailyQuota.UntilNextDay(clock.blocked)), 1.0))
    else None
  }

  function Taken(s: Stores, key: Key, limits: Limits, now: int): Acquired {
    ApplyAcquire(Lookup(s.buckets, key), Seconds(now), limits)
  }

  function AfterTake(s: Stores, key: Key, limits: Limits, now: int): Stores {
    s.(buckets := s.buckets[key := Taken(s, key, limits, now).state])
  }

  function AfterCount(s: Stores, key: Key, now: int): Stores {
    s.(days := s.days[key := DailyQuota.Counted(DayCounts(s, key), DailyQuota.Day(now))])
  }

  class TokenBucketLimiter {
    var stores: Stores
    const policy: Policy

    constructor (policy: Policy, hasDayStore: bool)
      ensures this.policy == policy && stores == Stores(map[], map[], hasDayStore)
    {
      this.policy := policy;
      stores := Stores(map[], map[], hasDayStore);
    }

    /** A token is taken from the store whenever the write reaches it, and granted only when the answer does too. */
    method TakeToken(key: Key, limits: Limits, now: int, fault: Fault) returns (d: Decision)
      modifies this`stores
      ensures stores == if fault == Unreachable then old(stores) else AfterTake(old(stores), key, limits, now)
      ensures fault != Works ==> d == Decision(false, 1.0, 1.0)
      ensures fault == Works ==>
        var a := Taken(old(stores), key, limits, now); d == Decision(a.allowed, a.wait, a.state.penalty)
    {
      if fault == Unreachable {
        return UNAVAILABLE;
      }
      var acquired := ApplyAcquire(Lookup(stores.buckets, key), Seconds(now), limits);
      var holder := Decision(acquired.allowed, acquired.wait, acquired.state.penalty);
      stores := stores.(buckets := stores.buckets[key := acquired.state]);
      return if fault == Works then holder else UNAVAILABLE;
    }

    /** Whether the caller learns that its call was counted, and whether it was. */
    method CountDaily(key: Key, now: int, fault: Fault) returns (counted: bool)
      modifies this`stores
      ensures counted <==> stores.hasDayStore && fault == Works
      ensures stores ==
        if old(stores).hasDayStore && fault != Unreachable then AfterCount(old(stores), key, now) else old(stores)
    {
      if !stores.hasDayStore || fault == Unreachable {
        return false;
      }
      var counts := if key in stores.days then stores.days[key] else map[];
      var day := DailyQuota.Day(now);
      var current := if day in counts && counts[day] >= 0 then counts[day] else 0;
      stores := stores.(days := stores.days[key := counts[day := current + 1]]);
      return fault == Works;
    }

    /** The call is allowed exactly when every store step it reaches works, the day it was checked on is below the
        quota and its bucket grants a token. What reaches the stores stays there: a call that its day blocks spends
        no token, and a lost answer refuses a call whose token or count is spent all the same. */
    method TryAcquire(platform: string, shopId: string, spec: Spec, clock: Readings, outage: Outage)
      returns (d: Decision)
      modifies this`stores
      ensures
        var s, key := old(stores), BucketKey(platform, shopId, spec);
        var quota := spec.dailyQuota;
        var block := if quota.None? then None else DailyBlock(s, key, quota.value, clock, outage);
        var taken := Taken(s, key, spec.limits, clock.take);
        var spent := AfterTake(s, key, spec.limits, clock.take);
        var granted := outage.bucket == Works && taken.allowed;
        && (d.allowed <==> block.None? && granted && (quota.Some? ==> outage.dayWrite == Works))
        && (block.Some? ==> d == block.value)
        && (block.None? && outage.bucket != Works ==> d == Decision(false, 1.0, 1.0))
        && (block.None? && outage.bucket == Works ==>
              && d.penalty == taken.state.penalty
              && d.retryAfter == if d.allowed == taken.allowed then taken.wait else 1.0)
        && stores ==
           if block.Some? || outage.bucket == Unreachable then s
           else if granted && quota.Some? && outage.dayWrite != Unreachable then AfterCount(spent, key, clock.count)
           else spent
    {
      var key := BucketKey(platform, shopId, spec);
      if spec.dailyQuota.Some? {
        var blocked := DailyBlock(stores, key, spec.dailyQuota.value, clock, outage);
        if blocked.Some? {
          return blocked.value;
        }
      }
      d := TakeToken(key, spec.limits, clock.take, outage.bucket);
      if d.allowed && spec.dailyQuota.Some? {
        var counted := CountDaily(key, clock.count, outage.dayWrite);
        if !counted {
          return Decision(false, 1.0, d.penalty);
        }
      }
    }

    /** The new penalty, or nothing when the store raised to the caller; whether a slowdown is to be reported. */
    method RecordThrottled(key: Key, burst: int, now: int, fault: Fault)
      returns (penalty: Option<real>, slowed: bool)
      modifies this`stores
      ensures
        var state := Lookup(old(stores).buckets, key);
        var next := ApplyThrottle(state, Seconds(now), burst, policy);
        && stores ==
           (if fault == Unreachable then old(stores)
            else old(stores).(buckets := old(stores).buckets[key := next]))
        && penalty == (if fault == Works then Some(next.penalty) else None)
        && (slowed <==> fault == Works && next.penalty < if state.Some? then state.value.penalty else 1.0)
    {
      if fault == Unreachable {
        return None, false;
      }
      var state := Lookup(stores.buckets, key);
      var before := if state.None? then 1.0 else state.value.penalty;
      var next := ApplyThrottle(state, Seconds(now), burst, policy);
      stores := stores.(buckets := stores.buckets[key := next]);
      if fault == ReplyLost {
        return None, false;
      }
      return Some(next.penalty), next.penalty < before;
    }

    method RecordSuccess(key: Key, burst: int, now: int, fault: Fault) returns (penalty: Option<real>)
      requires ValidPolicy(policy)
      modifies this`stores
      ensures
        var next := ApplySuccess(Lookup(old(stores).buckets, key), Seconds(now), burst, policy);
        && stores ==
           (if fault == Unreachable then old(stores)
            else old(stores).(buckets := old(stores).buckets[key := next]))
        && penalty == (if fault == Works then Some(next.penalty) else None)
    {
      if fault == Unreachable {
        return None;
      }
      var next := ApplySuccess(Lookup(stores.buckets, key), Seconds(now), burst, policy);
      stores := stores.(buckets := stores.buckets[key := next]);
      return if fault == Works then Some(next.penalty) else None;
    }
  }

  /** The limiter's daily check and count are the check and count of the day protocol: without a reachable day store
      no call goes on, and a call it blocks for the day is told to come back in the next one. */
  lemma DailyStepsFollowProtocol(s: Stores, key: Key, quota: int, clock: Readings, outage: Outage)
    ensures
      var blocked := DailyBlock(s, key, quota, clock, outage);
      && (blocked.Some? ==> !blocked.value.allowed && blocked.value.penalty == 1.0)
      && (!s.hasDayStore || outage.dayRead ==> blocked.Some? && blocked.value.retryAfter == 1.0)
      && (s.hasDayStore && !outage.dayRead ==>
            && (blocked.Some? <==> DailyQuota.Used(DayCounts(s, key), DailyQuota.Day(clock.check)) >= quota)
            && (blocked.Some? ==>
                  && blocked.value.retryAfter >= 1.0
                  && (exists wait: int ::
                        && blocked.value.retryAfter == Seconds(wait) && Seconds(wait) * 1000000.0 == wait as real
                        && DailyQuota.Day(clock.blocked + wait) == DailyQuota.Day(clock.blocked) + 1)))
    ensures
      var day := DailyQuota.Day(clock.count);
      var t := AfterCount(s, key, clock.count);
      && DailyQuota.Used(DayCounts(t, key), day) == DailyQuota.Used(DayCounts(s, key), day) + 1
      && (forall k, other :: k != key || other != day ==>
            DailyQuota.Used(DayCounts(t, k), other) == DailyQuota.Used(DayCounts(s, k), other))
      && t.buckets == s.buckets
  {
    DailyQuota.WaitReachesNextDay(clock.blocked);
    var blocked := DailyBlock(s, key, quota, clock, outage);
    if blocked.Some? {
      var wait := DailyQuota.UntilNextDay(clock.blocked);
      assert Seconds(wait) * 1000000.0 == wait as real;
    }
  }
}
