/** Moving stock between two warehouses: the legs of a transfer, its status, and everything else that may
    happen to the two rows in between. */
module Transfer {
  import opened Options
  import opened StockLedger

  datatype Move = Move(availableDelta: int, inTransitDelta: int)

  datatype MoveError = NotPositive

  /** Shipping takes from the source and puts in transit at the destination. */
  function ShipMoves(quantity: int): Result<(Move, Move), MoveError> {
    if quantity <= 0 then Err(NotPositive) else Ok((Move(-quantity, 0), Move(0, quantity)))
  }

  function ReceiveMove(quantity: int): Result<Move, MoveError> {
    if quantity <= 0 then Err(NotPositive) else Ok(Move(quantity, -quantity))
  }

  /** Cancelling in transit: destination first, then source. */
  function CancelTransitMoves(quantity: int): Result<(Move, Move), MoveError> {
    if quantity <= 0 then Err(NotPositive) else Ok((Move(0, -quantity), Move(quantity, 0)))
  }

  datatype BinResult = BinResult(applied: bool, available: int, occupied: int, inTransit: int)

  function ApplyBin(available: int, occupied: int, inTransit: int, m: Move): BinResult {
    var newAvailable := available + m.availableDelta;
    var newTransit := inTransit + m.inTransitDelta;
    if newAvailable < 0 || newTransit < 0 || newAvailable < occupied then
      BinResult(false, available, occupied, inTransit)
    else BinResult(true, newAvailable, occupied, newTransit)
  }

  function AsDelta(m: Move): Delta {
    Delta(m.availableDelta, 0, 0, m.inTransitDelta)
  }

  /** On a valid row the guarded update applies a move exactly when the bin rule does, with the same result. */
  lemma UpdateRefinesBin(r: Row, m: Move)
    requires ValidRow(r)
    ensures
      var b := ApplyBin(r.available, r.occupied, r.inTransit, m);
      && (b.applied <==> Fits(r, AsDelta(m)))
      && (b.applied ==>
            Changed(r, AsDelta(m)) == Row(r.tenant, b.available, b.occupied, r.defective, b.inTransit, r.version + 1))
      && (!b.applied ==> b == BinResult(false, r.available, r.occupied, r.inTransit))
  {
  }

  datatype TransferStatus = DRAFT | IN_TRANSIT | RECEIVED | CANCELLED

  /** One caller's guarded status update. */
  datatype Call = Call(from: TransferStatus, next: TransferStatus)

  predicate Wins(status: TransferStatus, call: Call) {
    status == call.from
  }

  function Moved(status: TransferStatus, call: Call): TransferStatus {
    if Wins(status, call) then call.next else status
  }

  class TransferRow {
    var status: TransferStatus

    constructor ()
      ensures status == DRAFT
    {
      status := DRAFT;
    }

    method Transition(from: TransferStatus, next: TransferStatus) returns (won: bool)
      modifies this
      ensures won == Wins(old(status), Call(from, next)) && status == Moved(old(status), Call(from, next))
      ensures won <==> old(status) == from
      ensures status == if won then next else old(status)
    {
      won := status == from;
      if won {
        status := next;
      }
    }
  }

  // ---- Racing callers

  function StatusAfter(status: TransferStatus, calls: seq<Call>): TransferStatus
    decreases |calls|
  {
    if calls == [] then status else StatusAfter(Moved(status, calls[0]), calls[1..])
  }

  /** Which callers win, in the order the updates reach the row. */
  function Winners(status: TransferStatus, calls: seq<Call>): (wins: seq<bool>)
    ensures |wins| == |calls|
    decreases |calls|
  {
    if calls == [] then [] else [Wins(status, calls[0])] + Winners(Moved(status, calls[0]), calls[1..])
  }

  function Stage(status: TransferStatus): nat {
    match status
    case DRAFT => 0
    case IN_TRANSIT => 1
    case RECEIVED => 2
    case CANCELLED => 2
  }

  /** Every caller moves the transfer forward, as shipping, receiving and cancelling do. */
  predicate Forward(calls: seq<Call>) {
    forall i :: 0 <= i < |calls| ==> Stage(calls[i].from) < Stage(calls[i].next)
  }

  lemma {:induction false} PastStagesLose(status: TransferStatus, calls: seq<Call>, j: nat)
    requires Forward(calls) && j < |calls| && Stage(calls[j].from) < Stage(status)
    ensures !Winners(status, calls)[j]
    decreases |calls|
  {
    if j > 0 {
      assert Forward(calls[1..]) && calls[1..][j - 1] == calls[j];
      PastStagesLose(Moved(status, calls[0]), calls[1..], j - 1);
    }
  }

  /** Of any number of racing callers that expect the same status at most one wins; and while the transfer has
      the expected status, the first of them to arrive does. */
  lemma {:induction false} OneWinnerPerStatus(status: TransferStatus, calls: seq<Call>, i: nat, j: nat)
    requires Forward(calls) && i < j < |calls| && calls[i].from == calls[j].from
    ensures !(Winners(status, calls)[i] && Winners(status, calls)[j])
    ensures status == calls[i].from && (forall k :: 0 <= k < i ==> calls[k].from != status) ==> Winners(status, calls)[i]
    decreases |calls|
  {
    assert Forward(calls[1..]);
    if i == 0 {
      if Wins(status, calls[0]) {
        assert calls[1..][j - 1] == calls[j];
        PastStagesLose(calls[0].next, calls[1..], j - 1);
      }
    } else {
      assert calls[1..][i - 1] == calls[i] && calls[1..][j - 1] == calls[j];
      OneWinnerPerStatus(Moved(status, calls[0]), calls[1..], i - 1, j - 1);
      if status == calls[i].from && forall k :: 0 <= k < i ==> calls[k].from != status {
        assert calls[0].from != status;
        assert forall k :: 0 <= k < i - 1 ==> calls[1..][k] == calls[k + 1];
      }
    }
  }

  // ---- A transfer of several products, and everyone else

  /** One product: its rows at both ends and what everyone else added to them meanwhile. */
  datatype Line = Line(quantity: int, source: Row, dest: Row, sourceOther: Delta, destOther: Delta)

  datatype Transfer = Transfer(status: TransferStatus, lines: seq<Line>)

  datatype Action = Ship | Receive | Cancel | AtSource(line: nat, d: Delta) | AtDest(line: nat, d: Delta)

  function Add(x: Delta, y: Delta): Delta {
    Delta(x.available + y.available, x.occupied + y.occupied, x.defective + y.defective, x.inTransit + y.inTransit)
  }

  function MoveBoth(l: Line, source: Move, dest: Move): Option<Line> {
    if Fits(l.source, AsDelta(source)) && Fits(l.dest, AsDelta(dest)) then
      Some(l.(source := Changed(l.source, AsDelta(source)), dest := Changed(l.dest, AsDelta(dest))))
    else None
  }

  function ShipLine(l: Line): Option<Line> {
    var moves := ShipMoves(l.quantity);
    if moves.Err? then None else MoveBoth(l, moves.value.0, moves.value.1)
  }

  function ReceiveLine(l: Line): Option<Line> {
    var move := ReceiveMove(l.quantity);
    if move.Err? || !Fits(l.dest, AsDelta(move.value)) then None
    else Some(l.(dest := Changed(l.dest, AsDelta(move.value))))
  }

  function CancelLine(l: Line): Option<Line> {
    var moves := CancelTransitMoves(l.quantity);
    if moves.Err? then None else MoveBoth(l, moves.value.1, moves.value.0)
  }

  /** Every line or none: one that does not fit rolls the whole transaction back. */
  function AllLines(lines: seq<Line>, step: Line -> Option<Line>): (r: Option<seq<Line>>)
    ensures r.Some? <==> forall i :: 0 <= i < |lines| ==> step(lines[i]).Some?
    ensures r.Some? ==> |r.value| == |lines| && forall i :: 0 <= i < |lines| ==> Some(r.value[i]) == step(lines[i])
  {
    if lines == [] then Some([])
    else
      var head, rest := step(lines[0]), AllLines(lines[1..], step);
      if head.None? || rest.None? then None else Some([head.value] + rest.value)
  }

  function Advance(t: Transfer, step: Line -> Option<Line>, status: TransferStatus): Transfer {
    var lines := AllLines(t.lines, step);
    if lines.None? then t else Transfer(status, lines.value)
  }

  function Next(t: Transfer, a: Action): Transfer {
    match a
    case Ship => if t.status == DRAFT then Advance(t, ShipLine, IN_TRANSIT) else t
    case Receive => if t.status == IN_TRANSIT then Advance(t, ReceiveLine, RECEIVED) else t
    case Cancel =>
      if t.status == DRAFT then t.(status := CANCELLED)
      else if t.status == IN_TRANSIT then Advance(t, CancelLine, CANCELLED)
      else t
    case AtSource(i, d) =>
      if i < |t.lines| && Fits(t.lines[i].source, d) then
        var l := t.lines[i];
        t.(lines := t.lines[i := l.(source := Changed(l.source, d), sourceOther := Add(l.sourceOther, d))])
      else t
    case AtDest(i, d) =>
      if i < |t.lines| && Fits(t.lines[i].dest, d) then
        var l := t.lines[i];
        t.(lines := t.lines[i := l.(dest := Changed(l.dest, d), destOther := Add(l.destOther, d))])
      else t
  }

  function Run(t: Transfer, actions: seq<Action>): Transfer
    decreases |actions|
  {
    if actions == [] then t else Run(Next(t, actions[0]), actions[1..])
  }

  const NO_CHANGE: Delta := Delta(0, 0, 0, 0)

  /** A transfer as it is created, over valid rows. */
  ghost predicate Fresh(t: Transfer) {
    && t.status == DRAFT
    && forall i :: 0 <= i < |t.lines| ==>
         && t.lines[i].quantity > 0 && ValidRow(t.lines[i].source) && ValidRow(t.lines[i].dest)
         && t.lines[i].sourceOther == NO_CHANGE && t.lines[i].destOther == NO_CHANGE
  }

  /** Where a line's quantity is: at the source, in transit or at the destination - in one place, once. */
  ghost predicate LinePlaced(from: Line, status: TransferStatus, l: Line) {
    && l.quantity == from.quantity > 0 && ValidRow(l.source) && ValidRow(l.dest)
    && l.source.available == from.source.available + l.sourceOther.available
         - (if status == IN_TRANSIT || status == RECEIVED then l.quantity else 0)
    && l.source.inTransit == from.source.inTransit + l.sourceOther.inTransit
    && l.dest.available == from.dest.available + l.destOther.available
         + (if status == RECEIVED then l.quantity else 0)
    && l.dest.inTransit == from.dest.inTransit + l.destOther.inTransit
         + (if status == IN_TRANSIT then l.quantity else 0)
  }

  ghost predicate Placed(from: Transfer, t: Transfer) {
    && |t.lines| == |from.lines|
    && forall i :: 0 <= i < |t.lines| ==> LinePlaced(from.lines[i], t.status, t.lines[i])
  }

  lemma StepKeepsLine(from: Line, l: Line)
    ensures LinePlaced(from, DRAFT, l) && ShipLine(l).Some? ==> LinePlaced(from, IN_TRANSIT, ShipLine(l).value)
    ensures LinePlaced(from, IN_TRANSIT, l) && ReceiveLine(l).Some? ==> LinePlaced(from, RECEIVED, ReceiveLine(l).value)
    ensures LinePlaced(from, IN_TRANSIT, l) && CancelLine(l).Some? ==> LinePlaced(from, CANCELLED, CancelLine(l).value)
  {
  }

  lemma NextKeepsPlaced(from: Transfer, t: Transfer, a: Action)
    requires Placed(from, t)
    ensures Placed(from, Next(t, a))
  {
    if a.AtSource? || a.AtDest? {
    } else {
      forall i | 0 <= i < |t.lines|
        ensures LinePlaced(from.lines[i], DRAFT, t.lines[i]) ==> LinePlaced(from.lines[i], CANCELLED, t.lines[i])
        ensures LinePlaced(from.lines[i], Next(t, a).status, Next(t, a).lines[i])
      {
        StepKeepsLine(from.lines[i], t.lines[i]);
      }
    }
  }

  lemma {:induction false} RunKeepsPlaced(from: Transfer, t: Transfer, actions: seq<Action>)
    requires Placed(from, t)
    ensures Placed(from, Run(t, actions))
    decreases |actions|
  {
    if actions != [] {
      NextKeepsPlaced(from, t, actions[0]);
      RunKeepsPlaced(from, Next(t, actions[0]), actions[1..]);
    }
  }

  function Held(l: Line): int {
    l.source.available + l.source.inTransit + l.dest.available + l.dest.inTransit
  }

  function AddedByOthers(l: Line): int {
    l.sourceOther.available + l.sourceOther.inTransit + l.destOther.available + l.destOther.inTransit
  }

  /** Over every run of a new transfer, with any other changes in between: every line's quantity is in exactly one
      place, once; all rows stay valid; and the stock of each product over the two warehouses changes only by what
      the others did. */
  lemma TransferConserves(created: Transfer, actions: seq<Action>, i: nat)
    requires Fresh(created) && i < |created.lines|
    ensures
      var t := Run(created, actions);
      && Placed(created, t)
      && Held(t.lines[i]) == Held(created.lines[i]) + AddedByOthers(t.lines[i])
  {
    RunKeepsPlaced(created, created, actions);
    var t := Run(created, actions);
    assert LinePlaced(created.lines[i], t.status, t.lines[i]);
  }

  /** A finished transfer stays finished. */
  lemma {:induction false} FinishedIsFinal(t: Transfer, actions: seq<Action>)
    requires t.status == RECEIVED || t.status == CANCELLED
    ensures Run(t, actions).status == t.status
    decreases |actions|
  {
    if actions != [] {
      FinishedIsFinal(Next(t, actions[0]), actions[1..]);
    }
  }

  /** The line with both rows two versions on. */
  function Restored(l: Line): Line {
    l.(source := l.source.(version := l.source.version + 2), dest := l.dest.(version := l.dest.version + 2))
  }

  lemma CancelUndoesLine(l: Line)
    requires ValidRow(l.source) && ValidRow(l.dest) && ShipLine(l).Some?
    ensures CancelLine(ShipLine(l).value) == Some(Restored(l))
  {
  }

  /** Shipping and then cancelling in transit restores every row, whatever it held, but for the version - and
      with nothing in between the cancellation never fails. */
  lemma CancelUndoesShip(created: Transfer)
    requires Fresh(created) && Next(created, Ship).status == IN_TRANSIT
    ensures
      var t := Next(Next(created, Ship), Cancel);
      && t.status == CANCELLED && |t.lines| == |created.lines|
      && forall i :: 0 <= i < |t.lines| ==> t.lines[i] == Restored(created.lines[i])
  {
    hide ShipLine, CancelLine, ReceiveLine, Restored;
    var shipped := Next(created, Ship);
    forall i | 0 <= i < |created.lines|
      ensures CancelLine(shipped.lines[i]) == Some(Restored(created.lines[i]))
    {
      assert Some(shipped.lines[i]) == ShipLine(created.lines[i]);
      CancelUndoesLine(created.lines[i]);
    }
  }

  // ---- Every step, row by row

  /** The row bears such a change of stock and transit. */
  predicate Bears(r: Row, stock: int, transit: int) {
    0 <= r.occupied <= r.available + stock && 0 <= r.defective && 0 <= r.inTransit + transit
  }

  function Shifted(r: Row, stock: int, transit: int): Row {
    r.(available := r.available + stock, inTransit := r.inTransit + transit, version := r.version + 1)
  }

  /** Whether a line can take a step of its transfer from this status, and what it then is. */
  ghost predicate LineSteps(status: TransferStatus, a: Action, l: Line, after: Option<Line>) {
    var q := l.quantity;
    match a
    case Ship =>
      after == if q > 0 && Bears(l.source, -q, 0) && Bears(l.dest, 0, q) then
                 Some(l.(source := Shifted(l.source, -q, 0), dest := Shifted(l.dest, 0, q)))
               else None
    case Receive => after == if q > 0 && Bears(l.dest, q, -q) then Some(l.(dest := Shifted(l.dest, q, -q))) else None
    case Cancel =>
      after == if status == DRAFT then Some(l)
               else if q > 0 && Bears(l.dest, 0, -q) && Bears(l.source, q, 0) then
                 Some(l.(source := Shifted(l.source, q, 0), dest := Shifted(l.dest, 0, -q)))
               else None
    case _ => false
  }

  /** The status a step starts from and leads to. */
  ghost predicate StatusSteps(a: Action, from: TransferStatus, to: TransferStatus) {
    || (a.Ship? && from == DRAFT && to == IN_TRANSIT)
    || (a.Receive? && from == IN_TRANSIT && to == RECEIVED)
    || (a.Cancel? && (from == DRAFT || from == IN_TRANSIT) && to == CANCELLED)
  }

  lemma LegsExplained(l: Line)
    ensures LineSteps(DRAFT, Ship, l, ShipLine(l)) && LineSteps(IN_TRANSIT, Receive, l, ReceiveLine(l))
    ensures LineSteps(IN_TRANSIT, Cancel, l, CancelLine(l))
  {
  }

  /** Shipping, receiving and cancelling: from the right status, and if every line bears it, the status moves on and
      every line with it; otherwise nothing changes at all. */
  lemma TransferStepExplained(t: Transfer, a: Action, next: TransferStatus)
    requires a.Ship? || a.Receive? || a.Cancel?
    ensures StatusSteps(a, t.status, next) ==>
      var u := Next(t, a);
      && |u.lines| == |t.lines|
      && (if forall i :: 0 <= i < |t.lines| ==> !LineSteps(t.status, a, t.lines[i], None) then
            u.status == next && forall i :: 0 <= i < |t.lines| ==> LineSteps(t.status, a, t.lines[i], Some(u.lines[i]))
          else u == t)
    ensures (forall to :: !StatusSteps(a, t.status, to)) ==> Next(t, a) == t
  {
    forall i | 0 <= i < |t.lines|
      ensures LineSteps(DRAFT, Ship, t.lines[i], ShipLine(t.lines[i]))
      ensures LineSteps(IN_TRANSIT, Receive, t.lines[i], ReceiveLine(t.lines[i]))
      ensures LineSteps(IN_TRANSIT, Cancel, t.lines[i], CancelLine(t.lines[i]))
    {
      LegsExplained(t.lines[i]);
    }
    hide ShipLine, ReceiveLine, CancelLine, Bears, Shifted;
    assert a.Ship? ==> StatusSteps(a, DRAFT, IN_TRANSIT);
    assert a.Receive? ==> StatusSteps(a, IN_TRANSIT, RECEIVED);
    assert a.Cancel? ==> StatusSteps(a, DRAFT, CANCELLED) && StatusSteps(a, IN_TRANSIT, CANCELLED);
  }

  ghost predicate Accrues(before: Delta, after: Delta, d: Delta) {
    && after.available == before.available + d.available && after.occupied == before.occupied + d.occupied
    && after.defective == before.defective + d.defective && after.inTransit == before.inTransit + d.inTransit
  }

  /** The row after someone else's change. */
  ghost predicate RowChanges(before: Row, after: Row, d: Delta) {
    && after.tenant == before.tenant && after.version == before.version + 1
    && after.available == before.available + d.available && after.occupied == before.occupied + d.occupied
    && after.defective == before.defective + d.defective && after.inTransit == before.inTransit + d.inTransit
  }

  /** Everyone else changes one row of one line, where the table's constraints allow it, and it is put to their
      account. */
  lemma OthersExplained(t: Transfer, i: nat, d: Delta)
    requires i < |t.lines|
    ensures
      var l, u := t.lines[i], Next(t, AtSource(i, d));
      if 0 <= l.source.occupied + d.occupied <= l.source.available + d.available
         && 0 <= l.source.defective + d.defective && 0 <= l.source.inTransit + d.inTransit then
        && u.status == t.status && |u.lines| == |t.lines|
        && (forall j :: 0 <= j < |t.lines| && j != i ==> u.lines[j] == t.lines[j])
        && u.lines[i] == l.(source := u.lines[i].source, sourceOther := u.lines[i].sourceOther)
        && RowChanges(l.source, u.lines[i].source, d) && Accrues(l.sourceOther, u.lines[i].sourceOther, d)
      else u == t
    ensures
      var l, u := t.lines[i], Next(t, AtDest(i, d));
      if 0 <= l.dest.occupied + d.occupied <= l.dest.available + d.available
         && 0 <= l.dest.defective + d.defective && 0 <= l.dest.inTransit + d.inTransit then
        && u.status == t.status && |u.lines| == |t.lines|
        && (forall j :: 0 <= j < |t.lines| && j != i ==> u.lines[j] == t.lines[j])
        && u.lines[i] == l.(dest := u.lines[i].dest, destOther := u.lines[i].destOther)
        && RowChanges(l.dest, u.lines[i].dest, d) && Accrues(l.destOther, u.lines[i].destOther, d)
      else u == t
  {
  }
}
