/** The export store that falls back, once and for good, from a remote store to a local directory. */
module ExportStore {
  import opened Options

  type Key = string
  type Body = seq<bv8>

  /** `usingRemote` is whether the process still holds the remote store. */
  datatype State = State(usingRemote: bool, remote: map<Key, Body>, local: map<Key, Body>)

  /** One call. `fails` is whether the remote step raises; a failed remote write may or may not have
      reached the remote store first. */
  datatype Op =
    | Put(key: Key, body: Body, fails: bool, reached: bool)
    | Get(key: Key, fails: bool)
    | Delete(key: Key, fails: bool, reached: bool)

  function PutTo(s: State, key: Key, body: Body, fails: bool, reached: bool): State {
    if !s.usingRemote then s.(local := s.local[key := body])
    else if !fails then s.(remote := s.remote[key := body])
    else State(false, if reached then s.remote[key := body] else s.remote, s.local[key := body])
  }

  function GetFrom(s: State, key: Key, fails: bool): (State, Option<Body>) {
    if s.usingRemote && !fails && key in s.remote then (s, Some(s.remote[key]))
    else (s.(usingRemote := s.usingRemote && !fails), Lookup(s.local, key))
  }

  function DeleteFrom(s: State, key: Key, fails: bool, reached: bool): State {
    var remote := if s.usingRemote && (!fails || reached) then s.remote - {key} else s.remote;
    State(s.usingRemote && !fails, remote, s.local - {key})
  }

  class ResilientExportStore {
    var usingRemote: bool
    var remote: map<Key, Body>
    var local: map<Key, Body>

    function Value(): State
      reads this
    {
      State(usingRemote, remote, local)
    }

    constructor (configured: bool, remote: map<Key, Body>, local: map<Key, Body>)
      ensures Value() == State(configured, remote, local)
    {
      this.usingRemote, this.remote, this.local := configured, remote, local;
    }

    method Put(key: Key, body: Body, fails: bool, reached: bool)
      modifies this
      ensures Value() == PutTo(old(Value()), key, body, fails, reached)
      ensures usingRemote == (old(usingRemote) && !fails)
      ensures remote == if old(usingRemote) && (!fails || reached) then old(remote)[key := body] else old(remote)
      ensures local == if old(usingRemote) && !fails then old(local) else old(local)[key := body]
    {
      if !usingRemote {
        local := local[key := body];
        return;
      }
      if !fails || reached {
        remote := remote[key := body];
      }
      if fails {
        usingRemote := false;
        local := local[key := body];
      }
    }

    method Get(key: Key, fails: bool) returns (found: Option<Body>)
      modifies this
      ensures (Value(), found) == GetFrom(old(Value()), key, fails)
      ensures usingRemote == (old(usingRemote) && !fails) && remote == old(remote) && local == old(local)
      ensures found == if usingRemote && key in remote then Some(remote[key])
                       else if key in local then Some(local[key]) else None
    {
      if usingRemote {
        if fails {
          usingRemote := false;
        } else if key in remote {
          return Some(remote[key]);
        }
      }
      return if key in local then Some(local[key]) else None;
    }

    method Delete(key: Key, fails: bool, reached: bool)
      modifies this
      ensures Value() == DeleteFrom(old(Value()), key, fails, reached)
      ensures usingRemote == (old(usingRemote) && !fails)
      ensures remote == if old(usingRemote) && (!fails || reached) then old(remote) - {key} else old(remote)
      ensures local == old(local) - {key}
    {
      if usingRemote {
        if !fails || reached {
          remote := remote - {key};
        }
        if fails {
          usingRemote := false;
        }
      }
      local := local - {key};
    }
  }

  // ---- Runs, against a plain map that never fails

  function Step(s: State, op: Op): State {
    match op
    case Put(key, body, fails, reached) => PutTo(s, key, body, fails, reached)
    case Get(key, fails) => GetFrom(s, key, fails).0
    case Delete(key, fails, reached) => DeleteFrom(s, key, fails, reached)
  }

  function Run(s: State, ops: seq<Op>): State
    decreases |ops|
  {
    if ops == [] then s else Run(Step(s, ops[0]), ops[1..])
  }

  /** The last body put for each key and not deleted since. */
  function Latest(m: map<Key, Body>, ops: seq<Op>): map<Key, Body>
    decreases |ops|
  {
    if ops == [] then m
    else
      match ops[0]
      case Put(key, body, _, _) => Latest(m[key := body], ops[1..])
      case Get(_, _) => Latest(m, ops[1..])
      case Delete(key, _, _) => Latest(m - {key}, ops[1..])
  }

  /** `m` holds nothing but what `latest` holds. */
  ghost predicate Within(m: map<Key, Body>, latest: map<Key, Body>) {
    forall key :: key in m ==> key in latest && m[key] == latest[key]
  }

  /** The remote store is exactly the plain map while it is in use, the local one only ever a part of it. */
  ghost predicate Fresh(s: State, latest: map<Key, Body>) {
    && Within(s.local, latest)
    && (s.usingRemote ==> s.remote == latest && s.local == map[])
  }

  lemma {:induction false} RunStaysFresh(s: State, latest: map<Key, Body>, ops: seq<Op>)
    requires Fresh(s, latest)
    ensures Fresh(Run(s, ops), Latest(latest, ops))
    ensures !s.usingRemote ==> !Run(s, ops).usingRemote
    decreases |ops|
  {
    if ops != [] {
      var next := match ops[0]
        case Put(key, body, _, _) => latest[key := body]
        case Get(_, _) => latest
        case Delete(key, _, _) => latest - {key};
      assert Fresh(Step(s, ops[0]), next);
      RunStaysFresh(Step(s, ops[0]), next, ops[1..]);
    }
  }

  /** A read after the run returns the last body put for the key, or nothing. */
  ghost predicate ReadsLatestOrNothing(s: State, latest: map<Key, Body>, key: Key, fails: bool) {
    var found := GetFrom(s, key, fails).1;
    found == None || found == Lookup(latest, key)
  }

  /** Starting from empty stores, whatever fails: a read gives the last body put for the key or nothing,
      never an older one and nothing after a delete; while the remote store holds out it gives exactly the
      last body; and the switch to the local directory is permanent. */
  lemma NeverStale(configured: bool, ops: seq<Op>, later: seq<Op>, key: Key, fails: bool)
    ensures
      var s := Run(State(configured, map[], map[]), ops);
      var latest := Latest(map[], ops);
      && ReadsLatestOrNothing(s, latest, key, fails)
      && (s.usingRemote && !fails ==> GetFrom(s, key, fails).1 == Lookup(latest, key))
      && (!s.usingRemote ==> !Run(s, later).usingRemote)
  {
    var start := State(configured, map[], map[]);
    RunStaysFresh(start, map[], ops);
    var s := Run(start, ops);
    RunStaysFresh(s, Latest(map[], ops), []);
    PermanentSwitch(s, later);
  }

  lemma {:induction false} PermanentSwitch(s: State, ops: seq<Op>)
    ensures !s.usingRemote ==> !Run(s, ops).usingRemote
    decreases |ops|
  {
    if ops != [] {
      PermanentSwitch(Step(s, ops[0]), ops[1..]);
    }
  }

  /** Every run of a process that finds these stores reads the last body or nothing. */
  ghost predicate NeverStaleFrom(remote: map<Key, Body>, local: map<Key, Body>) {
    forall ops: seq<Op>, key: Key, fails: bool ::
      ReadsLatestOrNothing(Run(State(true, remote, local), ops), Latest(remote, ops), key, fails)
  }

  /** The bucket and the local directory both outlive a process. Whatever the bucket holds, files that an
      earlier process left in the local directory break this: a process that starts with the remote store is
      never stale, over every run, if and only if it finds the local directory empty. */
  lemma NeverStaleWhen(remote: map<Key, Body>, local: map<Key, Body>)
    ensures NeverStaleFrom(remote, local) <==> local == map[]
  {
    var start := State(true, remote, local);
    if local == map[] {
      forall ops: seq<Op>, key: Key, fails: bool
        ensures ReadsLatestOrNothing(Run(start, ops), Latest(remote, ops), key, fails)
      {
        RunStaysFresh(start, remote, ops);
      }
    } else {
      var key :| key in local;
      var body := local[key] + [0];
      var ops := [Op.Put(key, body, false, false)];
      assert ops[1..] == [];
      assert Run(start, ops) == PutTo(start, key, body, false, false);
      assert Latest(remote, ops) == remote[key := body];
      assert GetFrom(Run(start, ops), key, true).1 == Some(local[key]);
      assert !ReadsLatestOrNothing(Run(start, ops), Latest(remote, ops), key, true);
    }
  }
}
