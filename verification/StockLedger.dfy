/** Stock rows under an optimistic lock: the in-memory rules, the guarded UPDATE and what many workers
    racing through it can do. */
module StockLedger {
  import opened Options

  datatype Outcome = Applied | Insufficient | Conflict

  datatype StockError = NegativeQuantity

  datatype Op = Reserve | Release | ShipOut | Outbound | Inbound

  datatype Level = Level(available: int, occupied: int, version: int)

  function FreeQty(available: int, occupied: int): int {
    available - occupied
  }

  /** What each rule asks of the row, and what it does to it. */
  predicate Enough(l: Level, op: Op, quantity: int) {
    match op
    case Reserve => FreeQty(l.available, l.occupied) >= quantity
    case Release => l.occupied >= quantity
    case ShipOut => l.occupied >= quantity && l.available >= quantity
    case Outbound => FreeQty(l.available, l.occupied) >= quantity
    case Inbound => true
  }

  function AvailableDelta(op: Op, quantity: int): int {
    match op
    case Reserve => 0
    case Release => 0
    case ShipOut => -quantity
    case Outbound => -quantity
    case Inbound => quantity
  }

  function OccupiedDelta(op: Op, quantity: int): int {
    match op
    case Reserve => quantity
    case Release => -quantity
    case ShipOut => -quantity
    case Outbound => 0
    case Inbound => 0
  }

  datatype Tried = Tried(outcome: Outcome, level: Level)

  function Try(l: Level, op: Op, quantity: int, seenVersion: int): Tried {
    if l.version != seenVersion then Tried(Conflict, l)
    else if !Enough(l, op, quantity) then Tried(Insufficient, l)
    else Tried(Applied, Level(l.available + AvailableDelta(op, quantity),
                              l.occupied + OccupiedDelta(op, quantity),
                              l.version + 1))
  }

  class StockLevel {
    var available: int
    var occupied: int
    var version: int

    constructor (available: int, occupied: int, version: int)
      ensures Value() == Level(available, occupied, version)
    {
      this.available, this.occupied, this.version := available, occupied, version;
    }

    function Value(): Level
      reads this
    {
      Level(available, occupied, version)
    }

    method TryReserve(quantity: int, seenVersion: int) returns (r: Result<Outcome, StockError>)
      modifies this
      ensures quantity < 0 ==> r == Err(NegativeQuantity) && Value() == old(Value())
      ensures quantity >= 0 ==>
        var t := Try(old(Value()), Reserve, quantity, seenVersion); r == Ok(t.outcome) && Value() == t.level
      ensures r == Ok(Conflict) <==> quantity >= 0 && old(version) != seenVersion
      ensures r == Ok(Applied) <==>
        quantity >= 0 && old(version) == seenVersion && old(available) - old(occupied) >= quantity
      ensures r == Ok(Applied) ==>
        available == old(available) && occupied == old(occupied) + quantity && version == old(version) + 1
      ensures r != Ok(Applied) ==> Value() == old(Value())
    {
      if quantity < 0 {
        return Err(NegativeQuantity);
      }
      if version != seenVersion {
        return Ok(Conflict);
      }
      if FreeQty(available, occupied) < quantity {
        return Ok(Insufficient);
      }
      occupied := occupied + quantity;
      version := version + 1;
      return Ok(Applied);
    }

    method TryRelease(quantity: int, seenVersion: int) returns (r: Result<Outcome, StockError>)
      modifies this
      ensures quantity < 0 ==> r == Err(NegativeQuantity) && Value() == old(Value())
      ensures quantity >= 0 ==>
        var t := Try(old(Value()), Release, quantity, seenVersion); r == Ok(t.outcome) && Value() == t.level
      ensures r == Ok(Conflict) <==> quantity >= 0 && old(version) != seenVersion
      ensures r == Ok(Applied) <==> quantity >= 0 && old(version) == seenVersion && old(occupied) >= quantity
      ensures r == Ok(Applied) ==>
        available == old(available) && occupied == old(occupied) - quantity && version == old(version) + 1
      ensures r != Ok(Applied) ==> Value() == old(Value())
    {
      if quantity < 0 {
        return Err(NegativeQuantity);
      }
      if version != seenVersion {
        return Ok(Conflict);
      }
      if occupied < quantity {
        return Ok(Insufficient);
      }
      occupied := occupied - quantity;
      version := version + 1;
      return Ok(Applied);
    }

    method TryShip(quantity: int, seenVersion: int) returns (r: Result<Outcome, StockError>)
      modifies this
      ensures quantity < 0 ==> r == Err(NegativeQuantity) && Value() == old(Value())
      ensures quantity >= 0 ==>
        var t := Try(old(Value()), ShipOut, quantity, seenVersion); r == Ok(t.outcome) && Value() == t.level
      ensures r == Ok(Conflict) <==> quantity >= 0 && old(version) != seenVersion
      ensures r == Ok(Applied) <==>
        quantity >= 0 && old(version) == seenVersion && old(occupied) >= quantity && old(available) >= quantity
      ensures r == Ok(Applied) ==>
        available == old(available) - quantity && occupied == old(occupied) - quantity && version == old(version) + 1
      ensures r != Ok(Applied) ==> Value() == old(Value())
    {
      if quantity < 0 {
        return Err(NegativeQuantity);
      }
      if version != seenVersion {
        return Ok(Conflict);
      }
      if occupied < quantity || available < quantity {
        return Ok(Insufficient);
      }
      available := available - quantity;
      occupied := occupied - quantity;
      version := version + 1;
      return Ok(Applied);
    }

    method TryOutbound(quantity: int, seenVersion: int) returns (r: Result<Outcome, StockError>)
      modifies this
      ensures quantity < 0 ==> r == Err(NegativeQuantity) && Value() == old(Value())
      ensures quantity >= 0 ==>
        var t := Try(old(Value()), Outbound, quantity, seenVersion); r == Ok(t.outcome) && Value() == t.level
      ensures r == Ok(Conflict) <==> quantity >= 0 && old(version) != seenVersion
      ensures r == Ok(Applied) <==>
        quantity >= 0 && old(version) == seenVersion && old(available) - old(occupied) >= quantity
      ensures r == Ok(Applied) ==>
        available == old(available) - quantity && occupied == old(occupied) && version == old(version) + 1
      ensures r != Ok(Applied) ==> Value() == old(Value())
    {
      if quantity < 0 {
        return Err(NegativeQuantity);
      }
      if version != seenVersion {
        return Ok(Conflict);
      }
      if FreeQty(available, occupied) < quantity {
        return Ok(Insufficient);
      }
      available := available - quantity;
      version := version + 1;
      return Ok(Applied);
    }

    method TryInbound(quantity: int, seenVersion: int) returns (r: Result<Outcome, StockError>)
      modifies this
      ensures quantity < 0 ==> r == Err(NegativeQuantity) && Value() == old(Value())
      ensures quantity >= 0 ==>
        var t := Try(old(Value()), Inbound, quantity, seenVersion); r == Ok(t.outcome) && Value() == t.level
      ensures r == Ok(Conflict) <==> quantity >= 0 && old(version) != seenVersion
      ensures r == Ok(Applied) <==> quantity >= 0 && old(version) == seenVersion
      ensures r == Ok(Applied) ==>
        available == old(available) + quantity && occupied == old(occupied) && version == old(version) + 1
      ensures r != Ok(Applied) ==> Value() == old(Value())
    {
      if quantity < 0 {
        return Err(NegativeQuantity);
      }
      if version != seenVersion {
        return Ok(Conflict);
      }
      available := available + quantity;
      version := version + 1;
      return Ok(Applied);
    }
  }

  // ---- The inventory table

  datatype Row = Row(tenant: int, available: int, occupied: int, defective: int, inTransit: int, version: int)

  datatype Delta = Delta(available: int, occupied: int, defective: int, inTransit: int)

  datatype Status = RowApplied | RowConflict | RowInsufficient | RowMissing

  /** The table's check constraints. */
  predicate ValidRow(r: Row) {
    0 <= r.occupied <= r.available && 0 <= r.defective && 0 <= r.inTransit
  }

  function Changed(r: Row, d: Delta): Row {
    Row(r.tenant, r.available + d.available, r.occupied + d.occupied, r.defective + d.defective,
        r.inTransit + d.inTransit, r.version + 1)
  }

  /** The WHERE clause of the update, apart from identity and version. */
  predicate Fits(r: Row, d: Delta) {
    ValidRow(Changed(r, d)) && r.available + d.available >= 0
  }

  class InventoryRepository {
    var rows: map<int, Row>

    constructor ()
      ensures rows == map[]
    {
      rows := map[];
    }

    /** One atomic guarded UPDATE, then a fresh read to tell why it did not match. */
    method ApplyChange(tenant: int, id: int, version: int, d: Delta) returns (status: Status)
      modifies this
      ensures
        var found := id in old(rows) && old(rows)[id].tenant == tenant;
        && (status == RowMissing <==> !found)
        && (found ==>
              var row := old(rows)[id];
              && (status == RowConflict <==> row.version != version)
              && (status == RowApplied <==> row.version == version && Fits(row, d)))
        && rows == if status == RowApplied then old(rows)[id := Changed(old(rows)[id], d)] else old(rows)
      ensures status == RowApplied <==>
        && id in old(rows) && old(rows)[id].tenant == tenant && old(rows)[id].version == version
        && 0 <= old(rows)[id].occupied + d.occupied <= old(rows)[id].available + d.available
        && 0 <= old(rows)[id].defective + d.defective
        && 0 <= old(rows)[id].inTransit + d.inTransit
      ensures status == RowApplied ==>
        && rows.Keys == old(rows).Keys
        && rows[id].tenant == old(rows)[id].tenant
        && rows[id].available == old(rows)[id].available + d.available
        && rows[id].occupied == old(rows)[id].occupied + d.occupied
        && rows[id].defective == old(rows)[id].defective + d.defective
        && rows[id].inTransit == old(rows)[id].inTransit + d.inTransit
        && rows[id].version == old(rows)[id].version + 1
        && forall other :: other in rows && other != id ==> rows[other] == old(rows)[other]
      ensures status != RowApplied ==> rows == old(rows)
    {
      if id in rows {
        var row := rows[id];
        if && row.tenant == tenant
           && row.version == version
           && row.available + d.available >= 0
           && row.occupied + d.occupied >= 0
           && row.defective + d.defective >= 0
           && row.inTransit + d.inTransit >= 0
           && row.available + d.available >= row.occupied + d.occupied
        {
          rows := rows[id := Changed(row, d)];
          return RowApplied;
        }
      }
      if id !in rows || rows[id].tenant != tenant {
        return RowMissing;
      }
      if rows[id].version != version {
        return RowConflict;
      }
      return RowInsufficient;
    }
  }

  /** The guarded update with an operation's deltas decides and changes a valid row exactly as the
      in-memory rule does. */
  lemma UpdateRefinesRules(r: Row, op: Op, quantity: int, seenVersion: int)
    requires ValidRow(r) && quantity >= 0
    ensures
      var level := Level(r.available, r.occupied, r.version);
      var d := Delta(AvailableDelta(op, quantity), OccupiedDelta(op, quantity), 0, 0);
      var t := Try(level, op, quantity, seenVersion);
      && (t.outcome == Conflict <==> r.version != seenVersion)
      && (t.outcome == Applied <==> r.version == seenVersion && Fits(r, d))
      && (t.outcome == Applied ==>
            t.level == Level(Changed(r, d).available, Changed(r, d).occupied, Changed(r, d).version))
      && (t.outcome != Applied ==> t.level == level)
  {
  }

  // ---- Workers that read a row and later compare-and-set

  datatype System = System(row: Row, snapshots: map<nat, Row>, applied: seq<Delta>)

  datatype Action = Read(w: nat) | Update(w: nat, d: Delta)

  function Next(s: System, a: Action): System {
    match a
    case Read(w) => s.(snapshots := s.snapshots[w := s.row])
    case Update(w, d) =>
      if w in s.snapshots && s.row.version == s.snapshots[w].version && Fits(s.row, d) then
        s.(row := Changed(s.row, d), applied := s.applied + [d])
      else s
  }

  function Run(s: System, actions: seq<Action>): System
    decreases |actions|
  {
    if actions == [] then s else Run(Next(s, actions[0]), actions[1..])
  }

  function Start(row: Row): System {
    System(row, map[], [])
  }

  /** Changes applied one after another, each fitting the row it meets. */
  ghost predicate SerialRun(from: Row, changes: seq<Delta>, to: Row)
    decreases |changes|
  {
    if changes == [] then from == to
    else Fits(from, changes[0]) && SerialRun(Changed(from, changes[0]), changes[1..], to)
  }

  lemma {:induction false} SerialSnoc(from: Row, changes: seq<Delta>, mid: Row, d: Delta)
    requires SerialRun(from, changes, mid) && Fits(mid, d)
    ensures SerialRun(from, changes + [d], Changed(mid, d))
    decreases |changes|
  {
    if changes == [] {
      assert [d][1..] == [];
    } else {
      assert (changes + [d])[1..] == changes[1..] + [d];
      SerialSnoc(Changed(from, changes[0]), changes[1..], mid, d);
    }
  }

  /** A worker's snapshot is either outdated by version or still the row itself. */
  ghost predicate SnapshotsHonest(s: System) {
    forall w :: w in s.snapshots ==>
      && s.snapshots[w].version <= s.row.version
      && (s.snapshots[w].version == s.row.version ==> s.snapshots[w] == s.row)
  }

  ghost predicate Inv(from: Row, s: System) {
    ValidRow(s.row) && SerialRun(from, s.applied, s.row) && SnapshotsHonest(s)
  }

  lemma {:induction false} RunKeepsInv(from: Row, s: System, actions: seq<Action>)
    requires Inv(from, s)
    ensures Inv(from, Run(s, actions))
    decreases |actions|
  {
    if actions != [] {
      var a := actions[0];
      if a.Update? && Next(s, a) != s {
        SerialSnoc(from, s.applied, s.row, a.d);
      }
      RunKeepsInv(from, Next(s, a), actions[1..]);
    }
  }

  /** Every interleaving keeps the row valid and equals the applied changes taken one after another; and
      whatever a worker applies next, it applies to exactly the row it had read. */
  lemma InterleavingIsSerial(row: Row, actions: seq<Action>, w: nat, d: Delta)
    requires ValidRow(row)
    ensures
      var s := Run(Start(row), actions);
      && ValidRow(s.row)
      && SerialRun(row, s.applied, s.row)
      && (Next(s, Update(w, d)).applied != s.applied ==>
            s.snapshots[w] == s.row && Next(s, Update(w, d)).row == Changed(s.snapshots[w], d))
  {
    RunKeepsInv(row, Start(row), actions);
  }

  lemma {:induction false} VersionCounts(s: System, actions: seq<Action>)
    ensures Run(s, actions).row.version - s.row.version == |Run(s, actions).applied| - |s.applied| >= 0
    decreases |actions|
  {
    if actions != [] {
      VersionCounts(Next(s, actions[0]), actions[1..]);
    }
  }

  /** The reason reported for an update that did not apply, from the row read afterwards. */
  function Reason(row: Row, seenVersion: int): Status {
    if row.version != seenVersion then RowConflict else RowInsufficient
  }

  /** The row is read again only after the failed update, and others may update it in between. A version conflict
      is still reported as one; a shortage is reported as one exactly when nothing was applied in between, and as a
      conflict otherwise. */
  lemma ReasonUnderRace(row: Row, before: seq<Action>, between: seq<Action>, w: nat, d: Delta)
    requires ValidRow(row)
    ensures
      var s := Run(Start(row), before);
      var t := Run(s, between);
      w in s.snapshots && Next(s, Update(w, d)) == s ==>
        var seen := s.snapshots[w].version;
        && (s.row.version != seen ==> Reason(t.row, seen) == RowConflict)
        && (s.row.version == seen ==>
              !Fits(s.row, d) && (Reason(t.row, seen) == RowInsufficient <==> |t.applied| == |s.applied|))
  {
    RunKeepsInv(row, Start(row), before);
    VersionCounts(Run(Start(row), before), between);
  }

  /** One component of the changes added up. */
  function SumOf(changes: seq<Delta>, part: Delta -> int): int {
    if changes == [] then 0 else part(changes[0]) + SumOf(changes[1..], part)
  }

  /** The row has moved by the changes, component by component. */
  ghost predicate MovedBy(from: Row, changes: seq<Delta>, row: Row) {
    && row.tenant == from.tenant
    && row.available == from.available + SumOf(changes, (d: Delta) => d.available)
    && row.occupied == from.occupied + SumOf(changes, (d: Delta) => d.occupied)
    && row.defective == from.defective + SumOf(changes, (d: Delta) => d.defective)
    && row.inTransit == from.inTransit + SumOf(changes, (d: Delta) => d.inTransit)
    && row.version == from.version + |changes|
  }

  lemma {:induction false} SerialTotals(from: Row, changes: seq<Delta>, row: Row)
    requires SerialRun(from, changes, row)
    ensures MovedBy(from, changes, row)
    decreases |changes|
  {
    if changes != [] {
      SerialTotals(Changed(from, changes[0]), changes[1..], row);
    }
  }

  /** Nothing is lost or invented: each quantity moved by exactly the sum of that component of the applied changes, the
      version counted them, and net reservations stayed within what was free plus what came in. */
  lemma InterleavingConserves(row: Row, actions: seq<Action>)
    requires ValidRow(row)
    ensures
      var s := Run(Start(row), actions);
      && MovedBy(row, s.applied, s.row)
      && SumOf(s.applied, (d: Delta) => d.occupied)
         <= row.available - row.occupied + SumOf(s.applied, (d: Delta) => d.available)
  {
    RunKeepsInv(row, Start(row), actions);
    var s := Run(Start(row), actions);
    SerialTotals(row, s.applied, s.row);
  }

  /** At the version it was read an update applies exactly when the four sums satisfy the table's constraints, and at
      any other it never does. */
  lemma AppliesWhen(row: Row, actions: seq<Action>, w: nat, d: Delta)
    ensures
      var s := Run(Start(row), actions);
      w in s.snapshots ==>
        (|Next(s, Update(w, d)).applied| > |s.applied| <==>
           && s.snapshots[w].version == s.row.version
           && 0 <= s.row.occupied + d.occupied <= s.row.available + d.available
           && 0 <= s.row.defective + d.defective
           && 0 <= s.row.inTransit + d.inTransit)
  {
  }
}
