/** Purchase orders: the status rules, receipts, quantity changes and the in-transit ledger they post to. */
module PurchaseOrder {
  import opened Options

  datatype Status = DRAFT | PENDING | APPROVED | PARTIAL | RECEIVED | CLOSED | CANCELLED

  datatype Command = SUBMIT | REJECT | APPROVE | CANCEL | CLOSE

  datatype RuleError =
    | AlreadyReceived | WrongState | NotPositive | BelowReceived | NothingLeft | OverReceipt
    | StillOpen | NoLines | UnknownLine | RepeatedLine

  function OpenQty(ordered: int, received: int, short: int): int {
    var left := ordered - received - short;
    if left > 0 then left else 0
  }

  function AssertTransition(status: Status, command: Command, received: int): Result<Status, RuleError> {
    if command == SUBMIT && status == DRAFT then Ok(PENDING)
    else if command == REJECT && status == PENDING then Ok(DRAFT)
    else if command == APPROVE && status == PENDING then Ok(APPROVED)
    else if command == CANCEL && (status == DRAFT || status == PENDING) then Ok(CANCELLED)
    else if command == CANCEL && status == APPROVED then
      if received > 0 then Err(AlreadyReceived) else Ok(CANCELLED)
    else if command == CLOSE && (status == PARTIAL || status == RECEIVED) then Ok(CLOSED)
    else Err(WrongState)
  }

  predicate OpenForEdit(s: Status) {
    s == DRAFT || s == PENDING || s == APPROVED || s == PARTIAL
  }

  predicate OpenForReceipt(s: Status) {
    s == APPROVED || s == PARTIAL
  }

  function TransitDeltaForQtyChange(status: Status, ordered: int, received: int, short: int, newOrdered: int)
    : Result<int, RuleError>
  {
    if newOrdered <= 0 then Err(NotPositive)
    else if newOrdered < received + short then Err(BelowReceived)
    else if !OpenForEdit(status) then Err(WrongState)
    else if status == DRAFT || status == PENDING then Ok(0)
    else Ok(OpenQty(newOrdered, received, short) - OpenQty(ordered, received, short))
  }

  datatype Disposition = RECEIVE | SHORT

  datatype ReceiptPlan = ReceiptPlan(receiveQty: int, transitRelease: int, newReceived: int, newShort: int)

  function PlanReceive(
    ordered: int, received: int, short: int, quantity: int, disposition: Disposition, allowOver: bool)
    : Result<ReceiptPlan, RuleError>
  {
    var remaining := OpenQty(ordered, received, short);
    if disposition == SHORT then
      if remaining <= 0 then Err(NothingLeft) else Ok(ReceiptPlan(0, remaining, received, short + remaining))
    else if quantity <= 0 then Err(NotPositive)
    else if quantity > remaining && !allowOver then Err(OverReceipt)
    else Ok(ReceiptPlan(quantity, if quantity <= remaining then quantity else remaining, received + quantity, short))
  }

  /** One order line and what the ledger holds in transit for it. */
  datatype Line = Line(ordered: int, received: int, short: int, inTransit: int)

  predicate Closed(l: Line) {
    OpenQty(l.ordered, l.received, l.short) == 0
  }

  predicate Touched(l: Line) {
    l.received != 0 || l.short != 0
  }

  predicate AllClosed(lines: seq<Line>) {
    forall i :: 0 <= i < |lines| ==> Closed(lines[i])
  }

  predicate AnyTouched(lines: seq<Line>) {
    exists i :: 0 <= i < |lines| && Touched(lines[i])
  }

  function NextReceiptStatus(lines: seq<Line>): Status {
    if lines != [] && AllClosed(lines) then RECEIVED
    else if AnyTouched(lines) then PARTIAL
    else APPROVED
  }

  // ---- An order and its ledger as one state

  datatype Order = Order(status: Status, lines: seq<Line>)

  datatype Action =
    | Do(command: Command)
    | Edit(line: nat, newOrdered: int)
    | AddLine(ordered: int)
    | Receive(items: seq<(nat, int)>, disposition: Disposition, allowOver: bool)

  function TotalReceived(lines: seq<Line>): int {
    if lines == [] then 0 else lines[0].received + TotalReceived(lines[1..])
  }

  /** Approval posts what was ordered, cancelling takes out what is still open. */
  function Posted(lines: seq<Line>, from: Status, command: Command): seq<Line> {
    seq(|lines|, i requires 0 <= i < |lines| =>
      var l := lines[i];
      if command == APPROVE then l.(inTransit := l.inTransit + l.ordered)
      else if command == CANCEL && from == APPROVED then
        l.(inTransit := l.inTransit - OpenQty(l.ordered, l.received, l.short))
      else l)
  }

  function ReceiveLines(lines: seq<Line>, items: seq<(nat, int)>, disposition: Disposition, allowOver: bool)
    : Result<seq<Line>, RuleError>
    decreases |items|
  {
    if items == [] then Ok(lines)
    else
      var i := items[0].0;
      if i >= |lines| then Err(UnknownLine)
      else
        var l := lines[i];
        var plan := PlanReceive(l.ordered, l.received, l.short, items[0].1, disposition, allowOver);
        if plan.Err? then Err(plan.error)
        else
          var p := plan.value;
          var received := Line(l.ordered, p.newReceived, p.newShort, l.inTransit - p.transitRelease);
          ReceiveLines(lines[i := received], items[1..], disposition, allowOver)
  }

  predicate Repeats(items: seq<(nat, int)>) {
    exists i, j :: 0 <= i < j < |items| && items[i].0 == items[j].0
  }

  /** A rejected request changes nothing. */
  function Next(o: Order, a: Action): Result<Order, RuleError> {
    match a
    case Do(command) =>
      if command == CLOSE && !AllClosed(o.lines) then Err(StillOpen)
      else if command == SUBMIT && o.lines == [] then Err(NoLines)
      else
        var next := AssertTransition(o.status, command, TotalReceived(o.lines));
        if next.Err? then Err(next.error) else Ok(Order(next.value, Posted(o.lines, o.status, command)))
    case Edit(line, newOrdered) =>
      if line >= |o.lines| then Err(UnknownLine)
      else
        var l := o.lines[line];
        var delta := TransitDeltaForQtyChange(o.status, l.ordered, l.received, l.short, newOrdered);
        if delta.Err? then Err(delta.error)
        else
          Ok(o.(lines := o.lines[line := l.(ordered := newOrdered, inTransit := l.inTransit + delta.value)]))
    case AddLine(ordered) =>
      if ordered <= 0 then Err(NotPositive)
      else if !OpenForEdit(o.status) then Err(WrongState)
      else
        var posted := if o.status == APPROVED || o.status == PARTIAL then ordered else 0;
        Ok(o.(lines := o.lines + [Line(ordered, 0, 0, posted)]))
    case Receive(items, disposition, allowOver) =>
      if !OpenForReceipt(o.status) then Err(WrongState)
      else if Repeats(items) then Err(RepeatedLine)
      else
        var lines := ReceiveLines(o.lines, items, disposition, allowOver);
        if lines.Err? then Err(lines.error) else Ok(Order(NextReceiptStatus(lines.value), lines.value))
  }

  function After(o: Order, a: Action): Order {
    var next := Next(o, a);
    if next.Ok? then next.value else o
  }

  function Run(o: Order, actions: seq<Action>): Order
    decreases |actions|
  {
    if actions == [] then o else Run(After(o, actions[0]), actions[1..])
  }

  // ---- The ledger

  predicate Live(s: Status) {
    s == APPROVED || s == PARTIAL || s == RECEIVED
  }

  ghost predicate LineInv(l: Line, s: Status) {
    && l.ordered > 0 && l.received >= 0 && l.short >= 0
    && l.inTransit == (if Live(s) then OpenQty(l.ordered, l.received, l.short) else 0)
    && (s == DRAFT || s == PENDING || s == APPROVED || s == CANCELLED ==> !Touched(l))
    && (s == RECEIVED || s == CLOSED ==> Closed(l))
  }

  ghost predicate Inv(o: Order) {
    && (forall i :: 0 <= i < |o.lines| ==> LineInv(o.lines[i], o.status))
    && (o.status == PARTIAL || o.status == RECEIVED || o.status == CLOSED ==> AnyTouched(o.lines))
  }

  /** During a receipt every line's ledger entry is its open quantity. */
  ghost predicate Posting(lines: seq<Line>) {
    forall i :: 0 <= i < |lines| ==>
      && lines[i].ordered > 0 && lines[i].received >= 0 && lines[i].short >= 0
      && lines[i].inTransit == OpenQty(lines[i].ordered, lines[i].received, lines[i].short)
  }

  lemma {:induction false} ReceiptKeepsPosting(
    lines: seq<Line>, items: seq<(nat, int)>, disposition: Disposition, allowOver: bool)
    requires Posting(lines)
    ensures
      var r := ReceiveLines(lines, items, disposition, allowOver);
      r.Ok? ==>
        && Posting(r.value) && |r.value| == |lines|
        && (forall i :: 0 <= i < |lines| ==>
              && r.value[i].ordered == lines[i].ordered
              && r.value[i].received >= lines[i].received && r.value[i].short >= lines[i].short)
    decreases |items|
  {
    if items != [] && items[0].0 < |lines| {
      var i := items[0].0;
      var l := lines[i];
      var plan := PlanReceive(l.ordered, l.received, l.short, items[0].1, disposition, allowOver);
      if plan.Ok? {
        var p := plan.value;
        var received := Line(l.ordered, p.newReceived, p.newShort, l.inTransit - p.transitRelease);
        ReceiptKeepsPosting(lines[i := received], items[1..], disposition, allowOver);
      }
    }
  }

  lemma ReceiptKeepsInv(o: Order, a: Action)
    requires Inv(o) && a.Receive?
    ensures Inv(After(o, a))
  {
    if OpenForReceipt(o.status) {
      var r := ReceiveLines(o.lines, a.items, a.disposition, a.allowOver);
      ReceiptKeepsPosting(o.lines, a.items, a.disposition, a.allowOver);
      hide ReceiveLines;
      if r.Ok? && !Repeats(a.items) {
        var lines := r.value;
        if AllClosed(lines) && lines != [] {
          assert Closed(lines[0]) && Touched(lines[0]);
        }
      }
    }
  }

  lemma EditKeepsInv(o: Order, a: Action)
    requires Inv(o) && (a.Edit? || a.AddLine?)
    ensures Inv(After(o, a))
  {
    var t := After(o, a);
    if t != o && o.status == PARTIAL {
      var i :| 0 <= i < |o.lines| && Touched(o.lines[i]);
      assert Touched(t.lines[i]);
    }
  }

  lemma CommandKeepsInv(o: Order, a: Action)
    requires Inv(o) && a.Do?
    ensures Inv(After(o, a))
  {
    var t := After(o, a);
    if t.status == CLOSED && o.status != CLOSED {
      var i :| 0 <= i < |o.lines| && Touched(o.lines[i]);
      assert t.lines[i] == o.lines[i];
    }
  }

  /** Over every run the ledger holds exactly the open quantity of every line of a live order and nothing
      for any other, so it is never negative; a cancelled order has no receipt, and a received or closed
      one nothing left open. */
  lemma {:induction false} LedgerIsOpenQuantity(o: Order, actions: seq<Action>)
    requires Inv(o)
    ensures Inv(Run(o, actions))
    decreases |actions|
  {
    hide Inv, After;
    if actions != [] {
      match actions[0] {
        case Do(_) => CommandKeepsInv(o, actions[0]);
        case Edit(_, _) => EditKeepsInv(o, actions[0]);
        case AddLine(_) => EditKeepsInv(o, actions[0]);
        case Receive(_, _, _) => ReceiptKeepsInv(o, actions[0]);
      }
      LedgerIsOpenQuantity(After(o, actions[0]), actions[1..]);
    }
  }

  // ---- Over-receipt

  ghost predicate NoOver(lines: seq<Line>) {
    forall i :: 0 <= i < |lines| ==> lines[i].received + lines[i].short <= lines[i].ordered
  }

  ghost predicate NeverAllowsOver(actions: seq<Action>) {
    forall i :: 0 <= i < |actions| && actions[i].Receive? ==> !actions[i].allowOver
  }

  lemma {:induction false} ReceiptKeepsNoOver(lines: seq<Line>, items: seq<(nat, int)>, disposition: Disposition)
    requires NoOver(lines)
    ensures
      var r := ReceiveLines(lines, items, disposition, false);
      r.Ok? ==> NoOver(r.value)
    decreases |items|
  {
    if items != [] && items[0].0 < |lines| {
      var i := items[0].0;
      var l := lines[i];
      var plan := PlanReceive(l.ordered, l.received, l.short, items[0].1, disposition, false);
      if plan.Ok? {
        var p := plan.value;
        var received := Line(l.ordered, p.newReceived, p.newShort, l.inTransit - p.transitRelease);
        ReceiptKeepsNoOver(lines[i := received], items[1..], disposition);
      }
    }
  }

  /** Unless a receipt explicitly allows it, no line ever takes more than was ordered. */
  lemma {:induction false} NeverOverReceived(o: Order, actions: seq<Action>)
    requires NoOver(o.lines) && NeverAllowsOver(actions)
    ensures NoOver(Run(o, actions).lines)
    decreases |actions|
  {
    if actions != [] {
      var a := actions[0];
      if a.Receive? {
        ReceiptKeepsNoOver(o.lines, a.items, a.disposition);
      }
      hide ReceiveLines;
      assert NoOver(After(o, a).lines);
      hide Next;
      NeverOverReceived(After(o, a), actions[1..]);
    }
  }

  // ---- Status

  /** An order that has taken a receipt can never be cancelled, and CLOSED and CANCELLED are final. */
  lemma {:induction false} NoCancelAfterReceipt(o: Order, actions: seq<Action>)
    requires Inv(o)
    ensures AnyTouched(o.lines) ==> AnyTouched(Run(o, actions).lines) && Run(o, actions).status != CANCELLED
    ensures o.status == CLOSED || o.status == CANCELLED ==> Run(o, actions) == o
    decreases |actions|
  {
    if actions == [] {
      if AnyTouched(o.lines) {
        var i :| 0 <= i < |o.lines| && Touched(o.lines[i]);
        assert LineInv(o.lines[i], o.status);
      }
    } else {
      TouchedStays(o, actions[0]);
      LedgerIsOpenQuantity(o, [actions[0]]);
      assert [actions[0]][1..] == [];
      assert Run(o, [actions[0]]) == After(o, actions[0]);
      hide Next, Inv;
      NoCancelAfterReceipt(After(o, actions[0]), actions[1..]);
    }
  }

  lemma TouchedStays(o: Order, a: Action)
    requires Inv(o)
    ensures AnyTouched(o.lines) ==> AnyTouched(After(o, a).lines)
    ensures o.status == CLOSED || o.status == CANCELLED ==> After(o, a) == o
  {
    if AnyTouched(o.lines) {
      var i :| 0 <= i < |o.lines| && Touched(o.lines[i]);
      var t := After(o, a);
      if a.Receive? && OpenForReceipt(o.status) {
        ReceiptKeepsPosting(o.lines, a.items, a.disposition, a.allowOver);
      }
      hide ReceiveLines;
      assert Touched(t.lines[i]);
    }
  }

  /** In a live order the status says RECEIVED exactly when no line is open. */
  ghost predicate StatusTellsClosed(o: Order) {
    Live(o.status) ==> (o.status == RECEIVED <==> o.lines != [] && AllClosed(o.lines))
  }

  /** Lowering the last open line of a partly received order to exactly what it has taken. */
  ghost predicate ClosesLastLine(o: Order, a: Action) {
    && a.Edit? && o.status == PARTIAL && a.line < |o.lines|
    && 0 < a.newOrdered == o.lines[a.line].received + o.lines[a.line].short
    && forall i :: 0 <= i < |o.lines| && i != a.line ==> Closed(o.lines[i])
  }

  lemma ClosedByEdit(o: Order, a: Action)
    requires Inv(o) && a.Edit? && o.status == PARTIAL && StatusTellsClosed(o)
    ensures AllClosed(After(o, a).lines) <==> ClosesLastLine(o, a)
  {
    var t := After(o, a);
    if AllClosed(t.lines) {
      assert t != o;
      assert forall i :: 0 <= i < |o.lines| && i != a.line ==> t.lines[i] == o.lines[i];
      assert Closed(t.lines[a.line]);
    }
  }

  /** Every action keeps the status telling whether all lines are closed, with one exception: lowering the
      last open line to what it has taken leaves the order PARTIAL with nothing open. */
  lemma StatusTellsClosedUnlessEdited(o: Order, a: Action)
    requires Inv(o) && StatusTellsClosed(o)
    ensures StatusTellsClosed(After(o, a)) <==> !ClosesLastLine(o, a)
  {
    var t := After(o, a);
    if a.Edit? && o.status == PARTIAL {
      ClosedByEdit(o, a);
    }
    if a.Receive? && OpenForReceipt(o.status) {
      ReceiptKeepsPosting(o.lines, a.items, a.disposition, a.allowOver);
      hide ReceiveLines;
    }
    if t != o && a.AddLine? {
      assert !Closed(t.lines[|o.lines|]);
    }
    if t != o && a.Edit? && o.status == APPROVED {
      assert !Closed(t.lines[a.line]);
    }
    if t != o && a.Do? && a.command == APPROVE && o.lines != [] {
      assert !Closed(t.lines[0]);
    }
  }

  /** No step of the run is such a lowering. */
  ghost predicate NeverClosesByEdit(o: Order, actions: seq<Action>)
    decreases |actions|
  {
    actions == [] || (!ClosesLastLine(o, actions[0]) && NeverClosesByEdit(After(o, actions[0]), actions[1..]))
  }

  /** The status tells at every moment of a run exactly when no step is such a lowering. */
  ghost predicate AlwaysTells(o: Order, actions: seq<Action>)
    decreases |actions|
  {
    StatusTellsClosed(o) && (actions != [] ==> AlwaysTells(After(o, actions[0]), actions[1..]))
  }

  lemma {:induction false} StatusTellsOverRuns(o: Order, actions: seq<Action>)
    requires Inv(o) && StatusTellsClosed(o)
    ensures AlwaysTells(o, actions) <==> NeverClosesByEdit(o, actions)
    decreases |actions|
  {
    if actions != [] {
      StatusTellsClosedUnlessEdited(o, actions[0]);
      LedgerIsOpenQuantity(o, [actions[0]]);
      assert [actions[0]][1..] == [];
      assert Run(o, [actions[0]]) == After(o, actions[0]);
      if !ClosesLastLine(o, actions[0]) {
        StatusTellsOverRuns(After(o, actions[0]), actions[1..]);
      } else {
        assert !StatusTellsClosed(After(o, actions[0]));
        assert !AlwaysTells(After(o, actions[0]), actions[1..]);
      }
    }
  }

  /** Every order starts as a draft of untouched lines, so all of this holds of whatever it goes through. */
  lemma DraftsKeepTheRules(lines: seq<Line>, actions: seq<Action>)
    requires forall i :: 0 <= i < |lines| ==> lines[i].ordered > 0 && lines[i] == Line(lines[i].ordered, 0, 0, 0)
    ensures
      var draft := Order(DRAFT, lines);
      && Inv(Run(draft, actions))
      && (NeverAllowsOver(actions) ==> NoOver(Run(draft, actions).lines))
      && (AlwaysTells(draft, actions) <==> NeverClosesByEdit(draft, actions))
  {
    var draft := Order(DRAFT, lines);
    LedgerIsOpenQuantity(draft, actions);
    if NeverAllowsOver(actions) {
      NeverOverReceived(draft, actions);
    }
    StatusTellsOverRuns(draft, actions);
  }

  /** The exception happens: ten ordered, four received, the order lowered to four. */
  lemma EditCanCloseSilently()
    ensures
      var o := Order(PARTIAL, [Line(10, 4, 0, 6)]);
      var t := After(o, Edit(0, 4));
      && Inv(o) && StatusTellsClosed(o)
      && t == Order(PARTIAL, [Line(4, 4, 0, 0)]) && AllClosed(t.lines)
  {
    var o := Order(PARTIAL, [Line(10, 4, 0, 6)]);
    assert Touched(o.lines[0]) && !Closed(o.lines[0]);
  }
}
