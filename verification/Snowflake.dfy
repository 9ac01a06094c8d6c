/** Snowflake identifiers: milliseconds since a custom epoch, ten bits of worker, twelve bits of sequence. */
module Snowflake {

  const EPOCH_MS: int := 1_735_689_600_000
  const MAX_WORKER: int := 1023
  const MAX_SEQ: int := 4095

  // ---- Bit operations on integers of any size, in two's complement

  function Pow2(k: nat): int {
    if k == 0 then 1 else 2 * Pow2(k - 1)
  }

  function Shl(a: int, k: nat): int {
    a * Pow2(k)
  }

  /** Arithmetic shift right: rounds towards minus infinity. */
  function Shr(a: int, k: nat): int
    decreases k
  {
    if k == 0 then a else Shr(a / 2, k - 1)
  }

  function BitOr(a: int, b: nat): int
    decreases b
  {
    if b == 0 then a
    else 2 * BitOr(a / 2, b / 2) + (if a % 2 == 1 || b % 2 == 1 then 1 else 0)
  }

  /** `or` of fields that do not overlap is addition. */
  lemma {:induction false} DisjointOr(a: int, k: nat, b: nat)
    requires b < Pow2(k)
    ensures BitOr(Shl(a, k), b) == Shl(a, k) + b
    decreases k
  {
    if k > 0 && b > 0 {
      var half := Shl(a, k - 1);
      assert Shl(a, k) == 2 * half;
      DisjointOr(a, k - 1, b / 2);
      assert BitOr(half, b / 2) == half + b / 2;
    }
  }

  lemma {:induction false} ShiftBack(a: int, k: nat, b: nat)
    requires b < Pow2(k)
    ensures Shr(Shl(a, k) + b, k) == a
    decreases k
  {
    if k > 0 {
      assert Shl(a, k) == 2 * Shl(a, k - 1);
      assert (2 * Shl(a, k - 1) + b) / 2 == Shl(a, k - 1) + b / 2;
      ShiftBack(a, k - 1, b / 2);
    }
  }

  // ---- Generator

  datatype State = State(lastMs: int, seqNo: int)

  const INITIAL: State := State(-1, 0)

  predicate Valid(s: State) {
    0 <= s.seqNo <= MAX_SEQ
  }

  /** The bit layout. */
  function Compose(workerId: nat, s: State): int
    requires workerId <= MAX_WORKER && Valid(s)
  {
    BitOr(BitOr(Shl(s.lastMs - EPOCH_MS, 22), Shl(workerId, 12)), s.seqNo)
  }

  function ParseTimestamp(id: int): int {
    Shr(id, 22) + EPOCH_MS
  }

  /** One call: `now` is the first clock reading, `later` the reading that ends the wait when the
      millisecond's sequence is used up. */
  datatype Reading = Reading(now: int, later: int)

  predicate Overflows(s: State, r: Reading) {
    r.now <= s.lastMs && s.seqNo == MAX_SEQ
  }

  predicate Feasible(s: State, r: Reading) {
    Overflows(s, r) ==> r.later >= s.lastMs + 1
  }

  function Next(s: State, r: Reading): State
    requires Valid(s) && Feasible(s, r)
  {
    if Overflows(s, r) then State(r.later, 0)
    else if r.now <= s.lastMs then State(s.lastMs, s.seqNo + 1)
    else State(r.now, 0)
  }

  class SnowflakeGenerator {
    const workerId: nat
    var lastMs: int
    var seqNo: int

    function Value(): State
      reads this
    {
      State(lastMs, seqNo)
    }

    constructor (worker: int)
      ensures workerId == worker % 1024 && Value() == INITIAL
    {
      workerId := worker % 1024;
      lastMs := -1;
      seqNo := 0;
    }

    /** Reads the clock until it shows at least `target`. */
    static method BlockUntil(target: int, clock: seq<int>) returns (current: int)
      requires exists i :: 0 <= i < |clock| && clock[i] >= target
      ensures current >= target
      ensures exists i :: 0 <= i < |clock| && clock[i] == current && forall j :: 0 <= j < i ==> clock[j] < target
    {
      var i := 0;
      while clock[i] < target
        invariant 0 <= i < |clock|
        invariant forall j :: 0 <= j < i ==> clock[j] < target
        decreases |clock| - i
      {
        i := i + 1;
      }
      return clock[i];
    }

    method NextId(now: int, waiting: seq<int>) returns (id: int, ghost later: int)
      requires Valid(Value()) && workerId <= MAX_WORKER
      requires Overflows(Value(), Reading(now, 0)) ==> exists i :: 0 <= i < |waiting| && waiting[i] >= lastMs + 1
      modifies this
      ensures Feasible(old(Value()), Reading(now, later)) && Valid(Value())
      ensures Value() == Next(old(Value()), Reading(now, later))
      ensures now > old(lastMs) ==> lastMs == now && seqNo == 0
      ensures now <= old(lastMs) && old(seqNo) < MAX_SEQ ==> lastMs == old(lastMs) && seqNo == old(seqNo) + 1
      ensures now <= old(lastMs) && old(seqNo) == MAX_SEQ ==>
                && lastMs > old(lastMs) && seqNo == 0
                && exists i :: 0 <= i < |waiting| && waiting[i] == lastMs
                     && forall j :: 0 <= j < i ==> waiting[j] <= old(lastMs)
      ensures id == Compose(workerId, Value())
    {
      var current := now;
      later := lastMs;
      if current < lastMs {
        current := lastMs;
      }
      if current == lastMs {
        seqNo := seqNo + 1;
        if seqNo > MAX_SEQ {
          current := BlockUntil(lastMs + 1, waiting);
          later := current;
          seqNo := 0;
        }
      } else {
        seqNo := 0;
      }
      lastMs := current;
      id := BitOr(BitOr(Shl(current - EPOCH_MS, 22), Shl(workerId, 12)), seqNo);
    }
  }

  // ---- What an identifier carries

  lemma Powers()
    ensures Pow2(10) == 1024 && Pow2(12) == 4096 && Pow2(22) == 4194304
  {
    assert Pow2(5) == 32;
    assert Pow2(10) == 1024;
    assert Pow2(15) == 32768;
    assert Pow2(20) == 1048576;
  }

  lemma ComposeIs(workerId: nat, s: State)
    requires workerId <= MAX_WORKER && Valid(s)
    ensures Compose(workerId, s) == (s.lastMs - EPOCH_MS) * 4194304 + workerId * 4096 + s.seqNo
  {
    Powers();
    hide Pow2, BitOr;
    var high := s.lastMs - EPOCH_MS;
    DisjointOr(high, 22, workerId * 4096);
    assert Shl(high, 22) + workerId * 4096 == Shl(high * 1024 + workerId, 12);
    DisjointOr(high * 1024 + workerId, 12, s.seqNo);
  }

  lemma LowFields(high: int, workerId: nat, seqNo: nat)
    requires workerId <= MAX_WORKER && seqNo <= MAX_SEQ
    ensures
      var id := high * 4194304 + workerId * 4096 + seqNo;
      id / 4096 % 1024 == workerId && id % 4096 == seqNo
  {
    var id := high * 4194304 + workerId * 4096 + seqNo;
    assert id == (high * 1024 + workerId) * 4096 + seqNo;
    assert id / 4096 == high * 1024 + workerId;
  }

  lemma TimestampReadsBack(workerId: nat, s: State)
    requires workerId <= MAX_WORKER && Valid(s)
    ensures ParseTimestamp(Compose(workerId, s)) == s.lastMs
  {
    ComposeIs(workerId, s);
    Powers();
    hide Pow2, BitOr, Shr, Compose;
    ShiftBack(s.lastMs - EPOCH_MS, 22, workerId * 4096 + s.seqNo);
  }

  /** Every field can be read back, before or after the epoch: the timestamp parser recovers the millisecond
      used, and the low bits the worker and the sequence. */
  lemma FieldsReadBack(workerId: nat, s: State)
    requires workerId <= MAX_WORKER && Valid(s)
    ensures
      var id := Compose(workerId, s);
      && ParseTimestamp(id) == s.lastMs
      && id / 4096 % 1024 == workerId
      && id % 4096 == s.seqNo
  {
    TimestampReadsBack(workerId, s);
    ComposeIs(workerId, s);
    hide ParseTimestamp, Compose;
    LowFields(s.lastMs - EPOCH_MS, workerId, s.seqNo);
  }

  /** Identifiers of different workers, or of different moments of one worker, differ. */
  lemma NeverCollide(workerA: nat, a: State, workerB: nat, b: State)
    requires workerA <= MAX_WORKER && Valid(a) && workerB <= MAX_WORKER && Valid(b)
    ensures Compose(workerA, a) == Compose(workerB, b) <==> workerA == workerB && a == b
  {
    FieldsReadBack(workerA, a);
    FieldsReadBack(workerB, b);
  }

  /** Positive and within the 63 bits of a signed 64-bit column exactly for the 41 bits of milliseconds
      from the epoch on. */
  lemma FitsColumn(workerId: nat, s: State)
    requires workerId <= MAX_WORKER && Valid(s)
    ensures 0 <= Compose(workerId, s) < 0x8000_0000_0000_0000 <==> 0 <= s.lastMs - EPOCH_MS < 0x200_0000_0000
  {
    ComposeIs(workerId, s);
  }

  // ---- Whole runs of one generator

  ghost predicate FeasibleRun(s: State, readings: seq<Reading>)
    requires Valid(s)
    decreases |readings|
  {
    readings != [] ==> Feasible(s, readings[0]) && FeasibleRun(Next(s, readings[0]), readings[1..])
  }

  function Ids(workerId: nat, s: State, readings: seq<Reading>): seq<int>
    requires workerId <= MAX_WORKER && Valid(s) && FeasibleRun(s, readings)
    decreases |readings|
  {
    if readings == [] then []
    else
      var t := Next(s, readings[0]);
      [Compose(workerId, t)] + Ids(workerId, t, readings[1..])
  }

  lemma NextRises(workerId: nat, s: State, r: Reading)
    requires workerId <= MAX_WORKER && Valid(s) && Feasible(s, r)
    ensures Compose(workerId, s) < Compose(workerId, Next(s, r))
    ensures Next(s, r).lastMs >= s.lastMs && Next(s, r).lastMs >= r.now
  {
    ComposeIs(workerId, s);
    ComposeIs(workerId, Next(s, r));
    hide Compose;
  }

  /** For every sequence of clock readings, with jumps backwards and exhausted milliseconds, one
      generator's identifiers strictly increase. */
  lemma {:induction false} IdsIncrease(workerId: nat, s: State, readings: seq<Reading>)
    requires workerId <= MAX_WORKER && Valid(s) && FeasibleRun(s, readings)
    ensures
      var ids := Ids(workerId, s, readings);
      && |ids| == |readings|
      && (forall i :: 0 <= i < |ids| ==> Compose(workerId, s) < ids[i])
      && (forall i, j :: 0 <= i < j < |ids| ==> ids[i] < ids[j])
    decreases |readings|
  {
    hide Compose;
    if readings != [] {
      NextRises(workerId, s, readings[0]);
      IdsIncrease(workerId, Next(s, readings[0]), readings[1..]);
    }
  }

  lemma {:induction false} IdsCarryWorker(workerId: nat, s: State, readings: seq<Reading>)
    requires workerId <= MAX_WORKER && Valid(s) && FeasibleRun(s, readings)
    ensures forall i :: 0 <= i < |Ids(workerId, s, readings)| ==> Ids(workerId, s, readings)[i] / 4096 % 1024 == workerId
    decreases |readings|
  {
    hide Compose;
    if readings != [] {
      FieldsReadBack(workerId, Next(s, readings[0]));
      IdsCarryWorker(workerId, Next(s, readings[0]), readings[1..]);
    }
  }

  /** Two generators with different worker numbers never issue the same identifier, over any two runs. */
  lemma WorkersNeverCollide(workerA: nat, runA: seq<Reading>, workerB: nat, runB: seq<Reading>, i: nat, j: nat)
    requires workerA <= MAX_WORKER && workerB <= MAX_WORKER && workerA != workerB
    requires FeasibleRun(INITIAL, runA) && FeasibleRun(INITIAL, runB)
    requires i < |Ids(workerA, INITIAL, runA)| && j < |Ids(workerB, INITIAL, runB)|
    ensures Ids(workerA, INITIAL, runA)[i] != Ids(workerB, INITIAL, runB)[j]
  {
    IdsCarryWorker(workerA, INITIAL, runA);
    IdsCarryWorker(workerB, INITIAL, runB);
  }
}
