/** What one action does to a purchase order: when it is accepted, with which error it is not, and what changes. */
module OrderSteps {
  import opened Options
  import opened PurchaseOrder

  function Outstanding(l: Line): int {
    if l.ordered > l.received + l.short then l.ordered - l.received - l.short else 0
  }

  /** What the first `n` lines have received. */
  ghost function Received(lines: seq<Line>, n: nat): int
    requires n <= |lines|
  {
    if n == 0 then 0 else Received(lines, n - 1) + lines[n - 1].received
  }

  lemma {:induction false} ReceivedAfter(lines: seq<Line>, n: nat)
    requires n <= |lines|
    ensures TotalReceived(lines) == Received(lines, n) + TotalReceived(lines[n..])
  {
    if n == 0 {
      assert lines[0..] == lines;
    } else {
      ReceivedAfter(lines, n - 1);
      assert lines[n - 1..][1..] == lines[n..];
    }
  }

  // ---- Commands

  ghost predicate Accepts(o: Order, command: Command) {
    match command
    case SUBMIT => o.status == DRAFT && o.lines != []
    case REJECT => o.status == PENDING
    case APPROVE => o.status == PENDING
    case CANCEL => o.status in {DRAFT, PENDING} || (o.status == APPROVED && Received(o.lines, |o.lines|) <= 0)
    case CLOSE => o.status in {PARTIAL, RECEIVED} && forall i :: 0 <= i < |o.lines| ==> Outstanding(o.lines[i]) == 0
  }

  /** The status a command leads to. */
  ghost function Reached(command: Command): Status {
    match command
    case SUBMIT => PENDING
    case REJECT => DRAFT
    case APPROVE => APPROVED
    case CANCEL => CANCELLED
    case CLOSE => CLOSED
  }

  /** What a command adds to a line's transit: approval all that was ordered, cancelling an approved order takes out what
      is outstanding, nothing else moves any. */
  ghost function TransitBy(o: Order, command: Command, l: Line): int {
    if command == APPROVE then l.ordered
    else if command == CANCEL && o.status == APPROVED then -Outstanding(l)
    else 0
  }

  /** Why a command is refused. */
  ghost predicate RefusedFor(o: Order, command: Command, error: RuleError) {
    if command == CLOSE && exists i :: 0 <= i < |o.lines| && Outstanding(o.lines[i]) > 0 then error == StillOpen
    else if command == SUBMIT && o.lines == [] then error == NoLines
    else if command == CANCEL && o.status == APPROVED then error == AlreadyReceived
    else error == WrongState
  }

  /** Commands: the status table, and that only the transit of lines ever moves. */
  lemma CommandExplained(o: Order, command: Command)
    ensures
      var r := Next(o, Do(command));
      && (r.Ok? <==> Accepts(o, command))
      && (r.Err? ==> RefusedFor(o, command, r.error))
      && (r.Ok? ==>
            && r.value.status == Reached(command) && |r.value.lines| == |o.lines|
            && forall i :: 0 <= i < |o.lines| ==>
                 var before, after := o.lines[i], r.value.lines[i];
                 && after.ordered == before.ordered && after.received == before.received && after.short == before.short
                 && after.inTransit == before.inTransit + TransitBy(o, command, before))
  {
    ReceivedAfter(o.lines, |o.lines|);
    assert o.lines[|o.lines|..] == [];
    hide Received;
    assert AllClosed(o.lines) <==> forall i :: 0 <= i < |o.lines| ==> Outstanding(o.lines[i]) == 0 by {
      hide TotalReceived;
      assert forall i :: 0 <= i < |o.lines| ==> (Closed(o.lines[i]) <==> Outstanding(o.lines[i]) == 0);
    }
  }

  // ---- Changing and adding lines

  predicate Editable(s: Status) {
    s in {DRAFT, PENDING, APPROVED, PARTIAL}
  }

  /** A quantity change moves one line alone: its order to the new quantity, and the transit of an approved order by as
      much as the outstanding quantity changes. */
  lemma EditExplained(o: Order, line: nat, newOrdered: int)
    ensures
      var r := Next(o, Edit(line, newOrdered));
      if line >= |o.lines| then r == Err(UnknownLine)
      else
        var before := o.lines[line];
        if newOrdered <= 0 then r == Err(NotPositive)
        else if newOrdered < before.received + before.short then r == Err(BelowReceived)
        else if !Editable(o.status) then r == Err(WrongState)
        else
          && r.Ok? && r.value.status == o.status && |r.value.lines| == |o.lines|
          && (forall i :: 0 <= i < |o.lines| && i != line ==> r.value.lines[i] == o.lines[i])
          && (var after := r.value.lines[line];
              && after.ordered == newOrdered && after.received == before.received && after.short == before.short
              && after.inTransit - before.inTransit
                 == if o.status in {APPROVED, PARTIAL} then Outstanding(after) - Outstanding(before) else 0)
  {
  }

  /** A new line joins at the end, with nothing received and, on an approved order, all of it in transit. */
  lemma AddLineExplained(o: Order, ordered: int)
    ensures
      var r := Next(o, AddLine(ordered));
      if ordered <= 0 then r == Err(NotPositive)
      else if !Editable(o.status) then r == Err(WrongState)
      else
        && r.Ok? && r.value.status == o.status && |r.value.lines| == |o.lines| + 1
        && (forall i :: 0 <= i < |o.lines| ==> r.value.lines[i] == o.lines[i])
        && (var added := r.value.lines[|o.lines|];
            && added.ordered == ordered && added.received == 0 && added.short == 0
            && added.inTransit == if o.status in {APPROVED, PARTIAL} then ordered else 0)
  {
  }

  // ---- Receipts

  /** The item can be booked on its line: a shortage needs something outstanding, a delivery a quantity, and no more than
      is outstanding unless more is allowed. */
  predicate Bookable(l: Line, quantity: int, disposition: Disposition, allowOver: bool) {
    if disposition == SHORT then Outstanding(l) > 0
    else quantity > 0 && (allowOver || quantity <= Outstanding(l))
  }

  /** A shortage writes off what is outstanding; a delivery counts as received, and takes out of transit what it brings
      as far as that was outstanding. */
  ghost predicate Booked(before: Line, after: Line, quantity: int, disposition: Disposition) {
    && after.ordered == before.ordered
    && (disposition == SHORT ==>
          && after.received == before.received && after.short == before.short + Outstanding(before)
          && after.inTransit == before.inTransit - Outstanding(before))
    && (disposition == RECEIVE ==>
          && after.received == before.received + quantity && after.short == before.short
          && after.inTransit
             == before.inTransit - if quantity <= Outstanding(before) then quantity else Outstanding(before))
  }

  ghost predicate OncePerLine(items: seq<(nat, int)>) {
    forall i, j :: 0 <= i < |items| && 0 <= j < |items| && items[i].0 == items[j].0 ==> i == j
  }

  /** Item `k` cannot be booked on the lines as they were, for this reason. */
  ghost predicate ItemRefused(
    lines: seq<Line>, item: (nat, int), disposition: Disposition, allowOver: bool, error: RuleError)
  {
    if item.0 >= |lines| then error == UnknownLine
    else
      && !Bookable(lines[item.0], item.1, disposition, allowOver)
      && error == if disposition == SHORT then NothingLeft else if item.1 <= 0 then NotPositive else OverReceipt
  }

  ghost predicate ItemBooked(
    lines: seq<Line>, after: seq<Line>, item: (nat, int), disposition: Disposition, allowOver: bool)
  {
    && item.0 < |lines| && item.0 < |after|
    && Bookable(lines[item.0], item.1, disposition, allowOver)
    && Booked(lines[item.0], after[item.0], item.1, disposition)
  }

  ghost predicate Spared(items: seq<(nat, int)>, i: int) {
    forall k :: 0 <= k < |items| ==> items[k].0 != i
  }

  /** All items booked, every other line as it was. */
  ghost predicate AllBooked(
    lines: seq<Line>, after: seq<Line>, items: seq<(nat, int)>, disposition: Disposition, allowOver: bool)
  {
    && |after| == |lines|
    && (forall k :: 0 <= k < |items| ==> ItemBooked(lines, after, items[k], disposition, allowOver))
    && (forall i :: 0 <= i < |lines| && Spared(items, i) ==> after[i] == lines[i])
  }

  /** A planned receipt balances: what goes to stock is what is received more, what leaves transit is by how much the
      outstanding quantity falls, and a shortage brings nothing to stock and leaves nothing outstanding. */
  lemma PlanBalances(l: Line, quantity: int, disposition: Disposition, allowOver: bool)
    ensures
      var plan := PlanReceive(l.ordered, l.received, l.short, quantity, disposition, allowOver);
      && (plan.Ok? <==> Bookable(l, quantity, disposition, allowOver))
      && (plan.Ok? ==>
            var p := plan.value;
            var after := l.(received := p.newReceived, short := p.newShort);
            && p.receiveQty == after.received - l.received == (if disposition == SHORT then 0 else quantity)
            && p.transitRelease == Outstanding(l) - Outstanding(after)
            && (disposition == SHORT ==> Outstanding(after) == 0)
            && (disposition == RECEIVE ==> after.short == l.short))
  {
  }

  lemma FirstItem(lines: seq<Line>, item: (nat, int), disposition: Disposition, allowOver: bool)
    requires item.0 < |lines|
    ensures
      var l := lines[item.0];
      var plan := PlanReceive(l.ordered, l.received, l.short, item.1, disposition, allowOver);
      && (plan.Ok? <==> Bookable(l, item.1, disposition, allowOver))
      && (plan.Err? ==> ItemRefused(lines, item, disposition, allowOver, plan.error))
      && (plan.Ok? ==>
            var p := plan.value;
            Booked(l, Line(l.ordered, p.newReceived, p.newShort, l.inTransit - p.transitRelease), item.1, disposition))
  {
  }

  lemma {:induction false} ReceiptBooks(
    lines: seq<Line>, items: seq<(nat, int)>, disposition: Disposition, allowOver: bool) returns (bad: nat)
    requires OncePerLine(items)
    ensures
      var r := ReceiveLines(lines, items, disposition, allowOver);
      && (r.Ok? ==> AllBooked(lines, r.value, items, disposition, allowOver))
      && (r.Err? ==> bad < |items| && ItemRefused(lines, items[bad], disposition, allowOver, r.error))
    decreases |items|
  {
    bad := 0;
    if items != [] && items[0].0 < |lines| {
      var i := items[0].0;
      var l := lines[i];
      FirstItem(lines, items[0], disposition, allowOver);
      var plan := PlanReceive(l.ordered, l.received, l.short, items[0].1, disposition, allowOver);
      if plan.Ok? {
        var p := plan.value;
        var booked := Line(l.ordered, p.newReceived, p.newShort, l.inTransit - p.transitRelease);
        hide PlanReceive, Bookable, Booked;
        var rest := ReceiptBooks(lines[i := booked], items[1..], disposition, allowOver);
        bad := rest + 1;
        assert forall k :: 0 < k < |items| ==> items[1..][k - 1] == items[k] && items[k].0 != i;
        RestBooked(lines, booked, items, disposition, allowOver);
      }
    }
  }

  /** Later items are about other lines, so booking the first one does not change what they find. */
  lemma RestBooked(lines: seq<Line>, booked: Line, items: seq<(nat, int)>, disposition: Disposition, allowOver: bool)
    requires items != [] && OncePerLine(items) && items[0].0 < |lines|
    requires Bookable(lines[items[0].0], items[0].1, disposition, allowOver)
    requires Booked(lines[items[0].0], booked, items[0].1, disposition)
    ensures forall after :: AllBooked(lines[items[0].0 := booked], after, items[1..], disposition, allowOver) ==>
              AllBooked(lines, after, items, disposition, allowOver)
  {
    hide Bookable, Booked;
    var i := items[0].0;
    var next := lines[i := booked];
    assert forall k :: 0 <= k < |items[1..]| ==> items[1..][k] == items[k + 1] && items[k + 1].0 != i;
    forall after | AllBooked(next, after, items[1..], disposition, allowOver)
      ensures AllBooked(lines, after, items, disposition, allowOver)
    {
      assert Spared(items[1..], i);
      assert after[i] == booked;
      forall k | 0 <= k < |items|
        ensures ItemBooked(lines, after, items[k], disposition, allowOver)
      {
        if k > 0 {
          assert ItemBooked(next, after, items[1..][k - 1], disposition, allowOver);
        }
      }
    }
  }

  /** Where a receipt leaves the order: received when nothing is outstanding, otherwise partly received once any line has
      received or written off something. */
  ghost predicate StatusAfterReceipt(status: Status, lines: seq<Line>) {
    if lines != [] && forall i :: 0 <= i < |lines| ==> Outstanding(lines[i]) == 0 then status == RECEIVED
    else if exists i :: 0 <= i < |lines| && (lines[i].received != 0 || lines[i].short != 0) then status == PARTIAL
    else status == APPROVED
  }

  /** A receipt is refused as a whole - wrong status, a line named twice, or some item that cannot be booked - or books
      every item and sets the status by what is left. */
  lemma ReceiptExplained(o: Order, items: seq<(nat, int)>, disposition: Disposition, allowOver: bool)
    returns (bad: nat)
    ensures
      var r := Next(o, Receive(items, disposition, allowOver));
      if o.status != APPROVED && o.status != PARTIAL then r == Err(WrongState)
      else if !OncePerLine(items) then r == Err(RepeatedLine)
      else if r.Err? then bad < |items| && ItemRefused(o.lines, items[bad], disposition, allowOver, r.error)
      else
        && AllBooked(o.lines, r.value.lines, items, disposition, allowOver)
        && StatusAfterReceipt(r.value.status, r.value.lines)
  {
    bad := 0;
    RepeatsIs(items);
    if OncePerLine(items) {
      bad := ReceiptBooks(o.lines, items, disposition, allowOver);
      var lines := ReceiveLines(o.lines, items, disposition, allowOver);
      if lines.Ok? {
        StatusIs(lines.value);
      }
    }
    hide ReceiveLines, Repeats, OncePerLine, NextReceiptStatus, AllBooked, ItemRefused, StatusAfterReceipt;
  }

  lemma RepeatsIs(items: seq<(nat, int)>)
    ensures Repeats(items) <==> !OncePerLine(items)
  {
    if !OncePerLine(items) {
      var i, j :| 0 <= i < |items| && 0 <= j < |items| && items[i].0 == items[j].0 && i != j;
      assert if i < j then items[i].0 == items[j].0 else items[j].0 == items[i].0;
    }
  }

  lemma StatusIs(lines: seq<Line>)
    ensures StatusAfterReceipt(NextReceiptStatus(lines), lines)
  {
    assert forall i :: 0 <= i < |lines| ==> (Closed(lines[i]) <==> Outstanding(lines[i]) == 0);
    assert AllClosed(lines) <==> forall i :: 0 <= i < |lines| ==> Outstanding(lines[i]) == 0;
    assert forall i :: 0 <= i < |lines| ==> (Touched(lines[i]) <==> lines[i].received != 0 || lines[i].short != 0);
    assert AnyTouched(lines) <==> exists i :: 0 <= i < |lines| && (lines[i].received != 0 || lines[i].short != 0);
  }
}
