/** The unified order status: what polling, webhooks and operators may change, and where runs end up. */
module OrderStatus {
  import opened Options

  datatype Status =
    | PENDING | PAID | SHIPPED | DELIVERED | COMPLETED
    | CANCELLED | REFUNDING | REFUNDED | RETURNED

  datatype Source = SYSTEM | WEBHOOK | MANUAL

  datatype Kind = Apply | Unchanged | Reject

  datatype Decision = Decision(kind: Kind, from: Option<Status>, target: Status, unmapped: bool)

  predicate InMain(s: Status) {
    s.PENDING? || s.PAID? || s.SHIPPED? || s.DELIVERED? || s.COMPLETED?
  }

  function Rank(s: Status): nat
    requires InMain(s)
  {
    match s
    case PENDING => 0
    case PAID => 1
    case SHIPPED => 2
    case DELIVERED => 3
    case COMPLETED => 4
  }

  function ManualTargets(s: Status): set<Status> {
    match s
    case PENDING => {PAID, CANCELLED}
    case PAID => {SHIPPED, CANCELLED, REFUNDING}
    case SHIPPED => {DELIVERED, CANCELLED, REFUNDING, RETURNED}
    case DELIVERED => {COMPLETED, REFUNDING, RETURNED}
    case COMPLETED => {REFUNDING, RETURNED}
    case REFUNDING => {REFUNDED, RETURNED}
    case RETURNED => {REFUNDED}
    case REFUNDED => {}
    case CANCELLED => {}
  }

  const CANCEL_FROM: set<Status> := {PENDING, PAID, SHIPPED}
  const REFUND_FROM: set<Status> := {PAID, SHIPPED, DELIVERED, COMPLETED}
  const RETURN_FROM: set<Status> := {SHIPPED, DELIVERED, COMPLETED, REFUNDING}

  predicate Allowed(current: Status, target: Status, source: Source) {
    if source == MANUAL then target in ManualTargets(current)
    else if current == CANCELLED then false
    else if current == REFUNDED then target == RETURNED
    else if current == RETURNED then target == REFUNDED
    else if InMain(current) && InMain(target) then Rank(target) > Rank(current)
    else if target == CANCELLED then current in CANCEL_FROM
    else if target == REFUNDING then current in REFUND_FROM
    else if target == REFUNDED then current in REFUND_FROM || current == REFUNDING
    else if target == RETURNED then current in RETURN_FROM
    else false
  }

  function DecideStatus(current: Option<Status>, target: Option<Status>, source: Source): Decision {
    if target.None? then
      if current.None? then Decision(Apply, None, PENDING, true)
      else Decision(Unchanged, current, current.value, true)
    else if current.None? then Decision(Apply, None, target.value, false)
    else if current == target then Decision(Unchanged, current, current.value, false)
    else if Allowed(current.value, target.value, source) then Decision(Apply, current, target.value, false)
    else Decision(Reject, current, current.value, false)
  }

  // ---- Runs

  /** What the platform or an operator asks for; no target means an unmapped platform status. */
  datatype Event = Event(target: Option<Status>, source: Source)

  function Step(current: Option<Status>, e: Event): Option<Status> {
    Some(DecideStatus(current, e.target, e.source).target)
  }

  function Run(current: Option<Status>, events: seq<Event>): Option<Status>
    decreases |events|
  {
    if events == [] then current else Run(Step(current, events[0]), events[1..])
  }

  /** An operator can do nothing that polling could not. */
  lemma ManualWithinSystem(current: Status, target: Status)
    requires Allowed(current, target, MANUAL)
    ensures Allowed(current, target, SYSTEM) && Allowed(current, target, WEBHOOK)
  {
  }

  /** Where polling and webhooks may take an order: along the main chain in steps of any length, off it for a reason, and
      to and fro between the two ends of a refund. */
  predicate SystemEdge(from: Status, to: Status) {
    match to
    case PENDING => false
    case PAID => from.PENDING?
    case SHIPPED => from.PENDING? || from.PAID?
    case DELIVERED => from.PENDING? || from.PAID? || from.SHIPPED?
    case COMPLETED => from.PENDING? || from.PAID? || from.SHIPPED? || from.DELIVERED?
    case CANCELLED => from.PENDING? || from.PAID? || from.SHIPPED?
    case REFUNDING => from.PAID? || from.SHIPPED? || from.DELIVERED? || from.COMPLETED?
    case REFUNDED =>
      from.PAID? || from.SHIPPED? || from.DELIVERED? || from.COMPLETED? || from.REFUNDING? || from.RETURNED?
    case RETURNED => from.SHIPPED? || from.DELIVERED? || from.COMPLETED? || from.REFUNDING? || from.REFUNDED?
  }

  /** Where an operator may take it, one step at a time. */
  predicate ManualEdge(from: Status, to: Status) {
    match to
    case PENDING => false
    case PAID => from.PENDING?
    case SHIPPED => from.PAID?
    case DELIVERED => from.SHIPPED?
    case COMPLETED => from.DELIVERED?
    case CANCELLED => from.PENDING? || from.PAID? || from.SHIPPED?
    case REFUNDING => from.PAID? || from.SHIPPED? || from.DELIVERED? || from.COMPLETED?
    case REFUNDED => from.REFUNDING? || from.RETURNED?
    case RETURNED => from.SHIPPED? || from.DELIVERED? || from.COMPLETED? || from.REFUNDING?
  }

  predicate Edge(from: Status, to: Status, source: Source) {
    if source == MANUAL then ManualEdge(from, to) else SystemEdge(from, to)
  }

  lemma AllowedIsEdge(from: Status, to: Status, source: Source)
    ensures Allowed(from, to, source) <==> Edge(from, to, source)
  {
    match from {
      case PENDING =>
      case PAID =>
      case SHIPPED =>
      case DELIVERED =>
      case COMPLETED =>
      case CANCELLED =>
      case REFUNDING =>
      case REFUNDED =>
      case RETURNED =>
    }
  }

  /** A request is applied exactly to a new order or along an edge of its source, and then leaves the order at the
      requested status, or PENDING for an unmapped one; it changes nothing if unmapped or already there; anything else
      is rejected. Only an unmapped request is flagged. */
  lemma DecisionExplained(current: Option<Status>, target: Option<Status>, source: Source)
    ensures
      var d := DecideStatus(current, target, source);
      var along := current.Some? && target.Some? && Edge(current.value, target.value, source);
      && (d.kind == Apply <==> current.None? || along)
      && (d.kind == Unchanged <==> current.Some? && (target.None? || target == current))
      && d.from == current && d.unmapped == target.None?
      && d.target == if current.Some? && !along then current.value else if target.Some? then target.value else PENDING
  {
    if current.Some? && target.Some? {
      AllowedIsEdge(current.value, target.value, source);
    }
    hide Allowed;
  }

  predicate ByOperator(events: seq<Event>) {
    forall i :: 0 <= i < |events| ==> events[i].source == MANUAL
  }

  lemma {:induction false} OperatorKeepsRefunded(events: seq<Event>)
    requires ByOperator(events)
    ensures Run(Some(REFUNDED), events) == Some(REFUNDED)
  {
    if events != [] {
      OperatorKeepsRefunded(events[1..]);
    }
  }

  function Ask(target: Status): Event {
    Event(Some(target), MANUAL)
  }

  lemma AskStep(from: Status, to: Status, events: seq<Event>)
    requires ManualEdge(from, to)
    ensures Run(Some(from), [Ask(to)] + events) == Run(Some(to), events)
    ensures ByOperator(events) ==> ByOperator([Ask(to)] + events)
  {
    AllowedIsEdge(from, to, MANUAL);
    hide Allowed;
    assert ([Ask(to)] + events)[1..] == events;
  }

  /** An operator gets from one end of a system edge to the other. */
  lemma {:induction false} ByHand(from: Status, to: Status) returns (events: seq<Event>)
    requires SystemEdge(from, to) && from != REFUNDED
    ensures ByOperator(events) && Run(Some(from), events) == Some(to)
    decreases Distance(from)
  {
    if ManualEdge(from, to) {
      AskStep(from, to, []);
      events := [Ask(to)] + [];
    } else {
      var next := if to == REFUNDED then REFUNDING else if from == PENDING then PAID else if from == PAID then SHIPPED
                  else DELIVERED;
      var rest := ByHand(next, to);
      AskStep(from, next, rest);
      events := [Ask(next)] + rest;
    }
  }

  /** Every jump of polling is a chain of operator steps, except from REFUNDED to RETURNED, where no operator gets. */
  lemma JumpsAreChains(from: Status, to: Status)
    requires Allowed(from, to, SYSTEM)
    ensures (exists events :: ByOperator(events) && Run(Some(from), events) == Some(to))
       <==> !(from == REFUNDED && to == RETURNED)
  {
    AllowedIsEdge(from, to, SYSTEM);
    hide Allowed;
    if from == REFUNDED {
      forall events | ByOperator(events)
        ensures Run(Some(from), events) != Some(RETURNED)
      {
        OperatorKeepsRefunded(events);
      }
    } else {
      var events := ByHand(from, to);
      hide Run;
    }
  }

  predicate MainChainEvents(events: seq<Event>) {
    forall i :: 0 <= i < |events| ==>
      events[i].target.Some? && InMain(events[i].target.value) && events[i].source != MANUAL
  }

  function HigherOf(a: Option<Status>, b: Status): Status
    requires InMain(b) && (a.Some? ==> InMain(a.value))
  {
    if a.Some? && Rank(a.value) >= Rank(b) then a.value else b
  }

  function Highest(current: Option<Status>, events: seq<Event>): Option<Status>
    requires MainChainEvents(events) && (current.Some? ==> InMain(current.value))
    decreases |events|
  {
    if events == [] then current
    else Highest(Some(HigherOf(current, events[0].target.value)), events[1..])
  }

  lemma {:induction false} RunIsHighest(current: Option<Status>, events: seq<Event>)
    requires MainChainEvents(events) && (current.Some? ==> InMain(current.value))
    ensures Run(current, events) == Highest(current, events)
    decreases |events|
  {
    if events != [] {
      var next := Step(current, events[0]);
      assert next == Some(HigherOf(current, events[0].target.value));
      RunIsHighest(next, events[1..]);
    }
  }

  /** The status reported by the highest-ranked of the order's first status and all events. */
  ghost predicate IsTop(current: Option<Status>, events: seq<Event>, top: Status) {
    && InMain(top)
    && (current == Some(top) || exists i :: 0 <= i < |events| && events[i].target == Some(top))
    && (current.Some? ==> InMain(current.value) && Rank(current.value) <= Rank(top))
    && (forall i :: 0 <= i < |events| ==>
          events[i].target.Some? && InMain(events[i].target.value) && Rank(events[i].target.value) <= Rank(top))
  }

  lemma {:induction false} HighestIsTop(current: Option<Status>, events: seq<Event>)
    requires MainChainEvents(events) && (current.Some? ==> InMain(current.value))
    requires current.Some? || events != []
    ensures Highest(current, events).Some? && IsTop(current, events, Highest(current, events).value)
    decreases |events|
  {
    if events != [] {
      var next := Some(HigherOf(current, events[0].target.value));
      HighestIsTop(next, events[1..]);
      var top := Highest(next, events[1..]).value;
      if next != Some(top) {
        var i :| 0 <= i < |events[1..]| && events[1..][i].target == Some(top);
        assert events[i + 1].target == Some(top);
      }
    }
  }

  /** Convergence: polled and pushed main-chain statuses may arrive late, twice and in any order; the order
      always ends at the highest-ranked of them. */
  lemma OrderOfArrivalIrrelevant(current: Option<Status>, events: seq<Event>, shuffled: seq<Event>)
    requires MainChainEvents(events) && MainChainEvents(shuffled)
    requires current.Some? ==> InMain(current.value)
    requires forall e :: e in events <==> e in shuffled
    ensures Run(current, events) == Run(current, shuffled)
    ensures current.Some? || events != [] ==>
              Run(current, events).Some? && IsTop(current, events, Run(current, events).value)
  {
    RunIsHighest(current, events);
    RunIsHighest(current, shuffled);
    assert events != [] ==> events[0] in events;
    assert shuffled != [] ==> shuffled[0] in shuffled;
    if events == [] {
    } else {
      HighestIsTop(current, events);
      HighestIsTop(current, shuffled);
      SameTop(current, events, shuffled, Run(current, events).value, Run(current, shuffled).value);
    }
  }

  lemma SameTop(current: Option<Status>, events: seq<Event>, shuffled: seq<Event>, a: Status, b: Status)
    requires IsTop(current, events, a) && IsTop(current, shuffled, b)
    requires forall e :: e in events <==> e in shuffled
    ensures a == b
  {
    TopNotAbove(current, events, shuffled, a, b);
    TopNotAbove(current, shuffled, events, b, a);
  }

  lemma TopNotAbove(current: Option<Status>, events: seq<Event>, shuffled: seq<Event>, a: Status, b: Status)
    requires IsTop(current, events, a) && IsTop(current, shuffled, b)
    requires forall e :: e in events ==> e in shuffled
    ensures Rank(a) <= Rank(b)
  {
    if current != Some(a) {
      var i :| 0 <= i < |events| && events[i].target == Some(a);
      assert events[i] in shuffled;
    }
  }

  /** CANCELLED is absorbing, and an order that has left the main chain never returns to it. */
  lemma {:induction false} NoWayBack(s: Status, events: seq<Event>)
    requires !InMain(s)
    ensures Run(Some(s), events).Some? && !InMain(Run(Some(s), events).value)
    ensures s == CANCELLED ==> Run(Some(s), events) == Some(CANCELLED)
    ensures s != CANCELLED ==> Run(Some(s), events) != Some(CANCELLED)
    decreases |events|
  {
    if events != [] {
      NoWayBack(Step(Some(s), events[0]).value, events[1..]);
    }
  }

  /** How many more changes an order can go through, counting REFUNDED and RETURNED as one place. */
  function Distance(s: Status): nat {
    match s
    case PENDING => 6
    case PAID => 5
    case SHIPPED => 4
    case DELIVERED => 3
    case COMPLETED => 2
    case REFUNDING => 1
    case CANCELLED => 0
    case REFUNDED => 0
    case RETURNED => 0
  }

  predicate WithinPair(a: Status, b: Status) {
    (a.REFUNDED? || a.RETURNED?) && (b.REFUNDED? || b.RETURNED?)
  }

  /** Changes applied during a run to something outside the REFUNDED/RETURNED pair. */
  function Changes(s: Status, events: seq<Event>): nat
    decreases |events|
  {
    if events == [] then 0
    else
      var next := Step(Some(s), events[0]).value;
      (if next != s && !WithinPair(s, next) then 1 else 0) + Changes(next, events[1..])
  }

  /** Whoever asks and however often, an order changes at most six times, but for flipping between
      REFUNDED and RETURNED. */
  lemma {:induction false} BoundedChanges(s: Status, events: seq<Event>)
    ensures Run(Some(s), events).Some?
    ensures Changes(s, events) + Distance(Run(Some(s), events).value) <= Distance(s) <= 6
    decreases |events|
  {
    if events != [] {
      var next := Step(Some(s), events[0]).value;
      BoundedChanges(next, events[1..]);
    }
  }
}
