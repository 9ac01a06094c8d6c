/** Many workers over one stored bucket. Each reads the stored value, later reads its own clock and computes the new
    one, and later still writes it back only if the stored value is then still the one it read. The stored value can
    expire or turn out unreadable at any time. */
module SharedBucket {
  import opened Options
  import opened Decimals
  import opened TokenBucket
  import opened WindowBound

  datatype Worker =
    | HasRead(seen: Option<BucketState>)
    | HasComputed(seen: Option<BucketState>, event: Event, next: BucketState, granted: nat)

  datatype System = System(
    store: Option<BucketState>,
    workers: map<nat, Worker>,
    log: seq<Event>,
    granted: nat)

  datatype Kind = Take | SawThrottle | SawSuccess

  /** `now` is what the worker's own clock shows when it computes. */
  datatype Action =
    | Expire
    | Read(w: nat)
    | Compute(w: nat, kind: Kind, now: real)
    | CompareSet(w: nat, answered: bool)

  function EventOf(kind: Kind, now: real): Event {
    match kind
    case Take => Acquire(now)
    case SawThrottle => Throttle(now)
    case SawSuccess => Success(now)
  }

  /** A failed compare-and-set drops the computed value; the worker starts over or gives up. One whose answer is
      lost on the way has stored its bucket, but its call is refused. */
  function Next(c: Context, s: System, a: Action): System
    requires ValidContext(c)
  {
    match a
    case Expire => if s.store.None? then s else s.(store := None, log := s.log + [Lost])
    case Read(w) => s.(workers := s.workers[w := HasRead(s.store)])
    case Compute(w, kind, now) =>
      if w !in s.workers || !s.workers[w].HasRead? then s
      else
        var seen, e := s.workers[w].seen, EventOf(kind, now);
        s.(workers := s.workers[w := HasComputed(seen, e, Step(c, seen, e).value, Granted(c, seen, e))])
    case CompareSet(w, answered) =>
      if w !in s.workers || !s.workers[w].HasComputed? then s
      else
        var worker := s.workers[w];
        var rest := s.(workers := s.workers - {w});
        if s.store != worker.seen then rest
        else
          rest.(store := Some(worker.next), log := s.log + [worker.event],
                granted := s.granted + if answered then worker.granted else 0)
  }

  function Run(c: Context, s: System, actions: seq<Action>): System
    requires ValidContext(c)
    decreases |actions|
  {
    if actions == [] then s else Run(c, Next(c, s, actions[0]), actions[1..])
  }

  const START: System := System(None, map[], [], 0)

  ghost predicate WorkerFaithful(c: Context, w: Worker)
    requires ValidContext(c)
  {
    w.HasComputed? ==>
      && !w.event.Lost?
      && Some(w.next) == Step(c, w.seen, w.event)
      && w.granted == Granted(c, w.seen, w.event)
  }

  ghost predicate Inv(c: Context, s: System)
    requires ValidContext(c)
  {
    && s.store == Final(c, None, s.log)
    && s.granted <= Grants(c, None, s.log)
    && (forall w :: w in s.workers ==> WorkerFaithful(c, s.workers[w]))
  }

  lemma {:induction false} GrantsSnoc(c: Context, state: Option<BucketState>, events: seq<Event>, e: Event)
    requires ValidContext(c)
    ensures Grants(c, state, events + [e])
         == Grants(c, state, events) + Granted(c, Final(c, state, events), e)
    decreases |events|
  {
    hide Times;
    if events == [] {
      assert [e][1..] == [];
      assert Grants(c, Step(c, state, e), []) == 0;
    } else {
      assert (events + [e])[1..] == events[1..] + [e];
      GrantsSnoc(c, Step(c, state, events[0]), events[1..], e);
    }
  }

  lemma NextKeepsInv(c: Context, s: System, a: Action)
    requires ValidContext(c) && Inv(c, s)
    ensures Inv(c, Next(c, s, a))
  {
    hide Times, ApplyAcquire, ApplyThrottle, ApplySuccess;
    if a.Expire? {
      FinalSnoc(c, None, s.log, Lost);
      GrantsSnoc(c, None, s.log, Lost);
    }
    if a.CompareSet? && a.w in s.workers && s.workers[a.w].HasComputed? && s.store == s.workers[a.w].seen {
      var worker := s.workers[a.w];
      FinalSnoc(c, None, s.log, worker.event);
      GrantsSnoc(c, None, s.log, worker.event);
    }
  }

  lemma {:induction false} RunKeepsInv(c: Context, s: System, actions: seq<Action>)
    requires ValidContext(c) && Inv(c, s)
    ensures Inv(c, Run(c, s, actions))
    decreases |actions|
  {
    hide Times, ApplyAcquire, ApplyThrottle, ApplySuccess;
    if actions != [] {
      NextKeepsInv(c, s, actions[0]);
      RunKeepsInv(c, Next(c, s, actions[0]), actions[1..]);
    }
  }

  predicate AllAnswered(actions: seq<Action>) {
    forall i :: 0 <= i < |actions| && actions[i].CompareSet? ==> actions[i].answered
  }

  lemma {:induction false} AnsweredGrantsMatch(c: Context, s: System, actions: seq<Action>)
    requires ValidContext(c) && Inv(c, s) && AllAnswered(actions) && s.granted == Grants(c, None, s.log)
    ensures Run(c, s, actions).granted == Grants(c, None, Run(c, s, actions).log)
    decreases |actions|
  {
    hide Times, ApplyAcquire, ApplyThrottle, ApplySuccess;
    if actions != [] {
      var a := actions[0];
      NextKeepsInv(c, s, a);
      assert AllAnswered(actions[1..]);
      if a.Expire? {
        GrantsSnoc(c, None, s.log, Lost);
      }
      if a.CompareSet? && a.w in s.workers && s.workers[a.w].HasComputed? && s.store == s.workers[a.w].seen {
        GrantsSnoc(c, None, s.log, s.workers[a.w].event);
      }
      AnsweredGrantsMatch(c, Next(c, s, a), actions[1..]);
    }
  }

  /** However the workers interleave, whatever their clocks show and whenever the bucket expires: the stored bucket is
      that of the committed events taken one after another, and no more is granted than they grant - exactly that
      when no answer is lost. No token is spent twice. */
  lemma InterleavingIsSequential(c: Context, actions: seq<Action>)
    requires ValidContext(c)
    ensures
      var s := Run(c, START, actions);
      && s.store == Final(c, None, s.log)
      && s.granted <= Grants(c, None, s.log)
      && (AllAnswered(actions) ==> s.granted == Grants(c, None, s.log))
  {
    hide Times, ApplyAcquire, ApplyThrottle, ApplySuccess;
    RunKeepsInv(c, START, actions);
    if AllAnswered(actions) {
      AnsweredGrantsMatch(c, START, actions);
    }
  }

  /** The rate bound holds for every interleaving and any clocks: a stretch log[i..j] of what was committed grants at
      most one full bucket, one more for every expiry, and the rate times the forward travel of its readings. */
  lemma ConcurrentRateBound(c: Context, actions: seq<Action>, i: nat, j: nat)
    requires ValidContext(c)
    requires i <= j <= |Run(c, START, actions).log|
    ensures
      var log := Run(c, START, actions).log;
      Grants(c, Final(c, None, log[..i]), log[i..j]) as real
        <= Allowance(Losses(log[i..j]), Max(1.0, c.limits.burst as real), Travel(log[i..j]), c.limits.qps)
  {
    hide Times, ApplyAcquire, ApplyThrottle, ApplySuccess;
    var log := Run(c, START, actions).log;
    TravelBound(c, log[..i], log[i..j]);
  }

  // ---- Workers whose clocks agree

  /** The readings never go back in the order in which they are taken, and nothing expires. */
  predicate ClocksAgree(clock: real, actions: seq<Action>)
    decreases |actions|
  {
    if actions == [] then true
    else if actions[0].Expire? then false
    else if actions[0].Compute? then clock <= actions[0].now && ClocksAgree(actions[0].now, actions[1..])
    else ClocksAgree(clock, actions[1..])
  }

  ghost predicate AcquiresOrdered(log: seq<Event>) {
    && (forall i :: 0 <= i < |log| ==> !log[i].Lost?)
    && (forall i, j :: 0 <= i < j < |log| && log[i].Acquire? && log[j].Acquire? ==> log[i].now <= log[j].now)
  }

  ghost predicate AcquiresBy(log: seq<Event>, t: real) {
    forall i :: 0 <= i < |log| && log[i].Acquire? ==> log[i].now <= t
  }

  ghost predicate WorkerOnTime(w: Worker, clock: real) {
    && (w.seen.Some? ==> w.seen.value.updatedAt <= clock)
    && (w.HasComputed? ==>
          !w.event.Lost? && w.event.now <= clock && (w.seen.Some? ==> w.seen.value.updatedAt <= w.event.now))
  }

  ghost predicate OnTime(c: Context, s: System, clock: real)
    requires ValidContext(c)
  {
    && Inv(c, s) && AcquiresOrdered(s.log)
    && (s.store.None? ==> s.log == [])
    && (s.store.Some? ==> s.store.value.updatedAt <= clock && AcquiresBy(s.log, s.store.value.updatedAt))
    && (forall w :: w in s.workers ==> WorkerOnTime(s.workers[w], clock))
  }

  lemma StepKeepsTime(c: Context, state: Option<BucketState>, e: Event)
    requires ValidContext(c) && !e.Lost?
    ensures Step(c, state, e).value.updatedAt == if e.Acquire? || state.None? then e.now else state.value.updatedAt
  {
    hide Times;
  }

  lemma NextKeepsOnTime(c: Context, s: System, a: Action, clock: real)
    requires ValidContext(c) && OnTime(c, s, clock) && !a.Expire? && (a.Compute? ==> clock <= a.now)
    ensures OnTime(c, Next(c, s, a), if a.Compute? then a.now else clock)
  {
    hide Times, ApplyAcquire, ApplyThrottle, ApplySuccess;
    NextKeepsInv(c, s, a);
    if a.CompareSet? && a.w in s.workers && s.workers[a.w].HasComputed? && s.store == s.workers[a.w].seen {
      StepKeepsTime(c, s.store, s.workers[a.w].event);
    }
  }

  lemma {:induction false} RunStaysOnTime(c: Context, s: System, actions: seq<Action>, clock: real)
    requires ValidContext(c) && OnTime(c, s, clock) && ClocksAgree(clock, actions)
    ensures AcquiresOrdered(Run(c, s, actions).log)
    decreases |actions|
  {
    if actions != [] {
      NextKeepsOnTime(c, s, actions[0], clock);
      hide OnTime, Next;
      RunStaysOnTime(c, Next(c, s, actions[0]), actions[1..],
                     if actions[0].Compute? then actions[0].now else clock);
    }
  }

  lemma {:induction false} OrderedFitsWindow(events: seq<Event>, t1: real, t2: real)
    requires AcquiresOrdered(events) && AcquiresBy(events, t2) && t1 <= t2
    requires forall i :: 0 <= i < |events| && events[i].Acquire? ==> t1 <= events[i].now
    ensures WithinWindow(t1, t2, events) && Losses(events) == 0
    decreases |events|
  {
    if events != [] {
      OrderedFitsWindow(events[1..], if events[0].Acquire? then events[0].now else t1, t2);
    }
  }

  /** With clocks that agree, what is committed is ordered by reading, and any stretch of it read in [t1, t2] grants at
      most one full bucket plus the rate times t2 - t1. */
  lemma AgreeingClocksBound(
    c: Context, actions: seq<Action>, clock: real, i: nat, j: nat, t1: real, t2: real)
    requires ValidContext(c) && ClocksAgree(clock, actions)
    requires i <= j <= |Run(c, START, actions).log| && t1 <= t2
    requires forall k :: i <= k < j && Run(c, START, actions).log[k].Acquire?
                     ==> t1 <= Run(c, START, actions).log[k].now <= t2
    ensures
      var log := Run(c, START, actions).log;
      && AcquiresOrdered(log)
      && Grants(c, Final(c, None, log[..i]), log[i..j]) as real
           <= Allowance(0, Max(1.0, c.limits.burst as real), t2 - t1, c.limits.qps)
  {
    hide Times, ApplyAcquire, ApplyThrottle, ApplySuccess;
    RunStaysOnTime(c, START, actions, clock);
    var log := Run(c, START, actions).log;
    OrderedFitsWindow(log[i..j], t1, t2);
    RateBound(c, log[..i], log[i..j], t1, t2);
  }
}
