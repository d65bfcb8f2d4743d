/**
 Idempotent creates: concurrent callers of one key share a computation, later ones replay its stored
 response. The store is bounded and forgets.
 */
module Idempotency {
  import opened Sets
  import opened Wrappers

  const TTL_MS := 86400000
  const MAX_ENTRIES := 500

  type Id = string
  type Response = string
  type CallId = nat

  datatype Row = Row(at: int, entry: Response)
  type Rows = map<Id, Row>

  // ----- the store ----------------------------------------------------------------------------------

  predicate Expired(row: Row, now: int) { now - row.at > TTL_MS }

  function Lookup(rows: Rows, id: Id, now: int): Option<Response> {
    if id in rows && !Expired(rows[id], now) then Some(rows[id].entry) else None
  }

  function Pruned(rows: Rows, now: int): Rows { map id | id in rows && !Expired(rows[id], now) :: rows[id] }

  // A stored response is found for a day.
  lemma FoundForADay(rows: Rows, id: Id, now: int, entry: Response)
    ensures Lookup(rows, id, now) == Some(entry) <==>
      id in rows && rows[id].entry == entry && now <= rows[id].at + 24 * 60 * 60 * 1000
  {
  }

  // Which row a full store may give up for another: never the one being written.
  predicate VictimOk(pruned: Rows, id: Id, victim: Option<Id>) {
    && (victim.Some? ==> victim.value in pruned && victim.value != id && |pruned| >= MAX_ENTRIES)
    && (|pruned| >= MAX_ENTRIES && id !in pruned ==> victim.Some?)
  }

  function Put(rows: Rows, id: Id, entry: Response, now: int, victim: Option<Id>): Rows {
    var pruned := Pruned(rows, now);
    (if victim.Some? then pruned - {victim.value} else pruned)[id := Row(now, entry)]
  }

  lemma PutIsBounded(rows: Rows, id: Id, entry: Response, now: int, victim: Option<Id>)
    requires |rows| <= MAX_ENTRIES && VictimOk(Pruned(rows, now), id, victim)
    ensures |Put(rows, id, entry, now, victim)| <= MAX_ENTRIES
  {
    var pruned := Pruned(rows, now);
    assert pruned.Keys <= rows.Keys;
    SubsetSize(pruned.Keys, rows.Keys);
    var kept := if victim.Some? then pruned - {victim.value} else pruned;
    assert kept.Keys == if victim.Some? then pruned.Keys - {victim.value} else pruned.Keys;
    assert kept[id := Row(now, entry)].Keys == kept.Keys + {id};
  }

  // A put leaves every other live row as it is, but for one if the store has 500 of them or more.
  lemma PutKeepsTheRest(rows: Rows, id: Id, entry: Response, now: int, victim: Option<Id>, k: Id)
    requires VictimOk(Pruned(rows, now), id, victim) && k != id
    requires k in rows && now <= rows[k].at + 24 * 60 * 60 * 1000
    ensures var rows' := Put(rows, id, entry, now, victim);
      && (victim != Some(k) ==> k in rows' && rows'[k] == rows[k])
      && (victim == Some(k) ==> 500 <= |set x | x in rows && now <= rows[x].at + 24 * 60 * 60 * 1000|)
  {
    assert Pruned(rows, now).Keys == set x | x in rows && now <= rows[x].at + 24 * 60 * 60 * 1000;
  }

  // ----- runs -----------------------------------------------------------------------------------------

  datatype Promise = Pending | Resolved(response: Response) | Rejected

  // An owner computes, then stores what it computed; a follower waits for an owner's computation.
  datatype Call =
    | Computing(id: Id, promise: Promise)
    | Storing(id: Id, promise: Promise, at: int)
    | Following(id: Id, owner: CallId)
    | Returned(id: Id, promise: Promise, response: Response, replay: bool)
    | Threw(id: Id, promise: Promise)

  // `computes` and `evictions` count, for each key, the computations begun and the rows given up to make
  // room: history only.
  datatype State = State(
    rows: Rows, inflight: map<Id, CallId>, calls: map<CallId, Call>, clock: int,
    computes: map<Id, nat>, evictions: map<Id, nat>)

  const Initial := State(map[], map[], map[], 0, map[], map[])

  datatype Action =
    | Run(call: CallId, id: Id)
    | Settle(call: CallId, result: Option<Response>)      // the computation resolves or rejects
    | Wake(call: CallId)                                  // a follower's await ends
    | Store(call: CallId)                                 // the owner calls put
    | Stored(call: CallId, ok: bool, victim: Option<Id>)  // the put settles, and the finally block runs
    | Crash
    | Tick(now: int)

  function Count(m: map<Id, nat>, id: Id): nat { if id in m then m[id] else 0 }

  predicate Owns(c: Call) { c.Computing? || c.Storing? }

  function PromiseOf(s: State, call: CallId): Promise {
    if call !in s.calls || s.calls[call].Following? then Pending else s.calls[call].promise
  }

  function End(s: State, call: CallId, c: Call): State
    requires call in s.calls
  {
    s.(calls := s.calls[call := c], inflight := s.inflight - {s.calls[call].id})
  }

  function Begin(s: State, call: CallId, id: Id): State {
    if id in s.inflight then s.(calls := s.calls[call := Following(id, s.inflight[id])]) else
    var stored := Lookup(s.rows, id, s.clock);
    if stored.Some? then s.(calls := s.calls[call := Returned(id, Resolved(stored.value), stored.value, true)])
    else s.(rows := s.rows - {id}, calls := s.calls[call := Computing(id, Pending)],
            inflight := s.inflight[id := call], computes := s.computes[id := Count(s.computes, id) + 1])
  }

  function Keep(s: State, call: CallId, victim: Option<Id>): State
    requires call in s.calls && s.calls[call].Storing? && s.calls[call].promise.Resolved?
  {
    var c := s.calls[call];
    s.(rows := Put(s.rows, c.id, c.promise.response, c.at, victim),
       evictions := if victim.Some? then s.evictions[victim.value := Count(s.evictions, victim.value) + 1]
         else s.evictions)
  }

  function Next(s: State, a: Action): State {
    match a
    case Run(call, id) => if call in s.calls then s else Begin(s, call, id)
    case Settle(call, result) =>
      if call !in s.calls || !s.calls[call].Computing? || !s.calls[call].promise.Pending? then s
      else s.(calls := s.calls[call :=
        Computing(s.calls[call].id, if result.Some? then Resolved(result.value) else Rejected)])
    case Wake(call) =>
      if call !in s.calls || !s.calls[call].Following? then s else
      var c := s.calls[call];
      var promise := PromiseOf(s, c.owner);
      if promise.Pending? then s
      else s.(calls := s.calls[call :=
        if promise.Resolved? then Returned(c.id, promise, promise.response, true) else Threw(c.id, promise)])
    case Store(call) =>
      if call !in s.calls || !s.calls[call].Computing? || s.calls[call].promise.Pending? then s else
      var c := s.calls[call];
      if c.promise.Rejected? then End(s, call, Threw(c.id, c.promise))
      else s.(calls := s.calls[call := Storing(c.id, c.promise, s.clock)])
    case Stored(call, ok, victim) =>
      if call !in s.calls || !s.calls[call].Storing? || !s.calls[call].promise.Resolved? then s else
      var c := s.calls[call];
      if !ok then End(s, call, Threw(c.id, c.promise))
      else if !VictimOk(Pruned(s.rows, c.at), c.id, victim) then s
      else End(Keep(s, call, victim), call, Returned(c.id, c.promise, c.promise.response, false))
    case Crash => s.(inflight := map[], calls := map[])
    case Tick(now) => if now < s.clock then s else s.(clock := now)
  }

  function Execute(s: State, actions: seq<Action>): State
    decreases |actions|
  {
    if actions == [] then s else Execute(Next(s, actions[0]), actions[1..])
  }

  // ----- the invariant --------------------------------------------------------------------------------

  // The calls that own a key's computation are exactly those in flight.
  predicate OwnersOk(s: State) {
    && (forall id <- s.inflight ::
      s.inflight[id] in s.calls && Owns(s.calls[s.inflight[id]]) && s.calls[s.inflight[id]].id == id)
    && (forall c <- s.calls | Owns(s.calls[c]) :: s.calls[c].id in s.inflight && s.inflight[s.calls[c].id] == c)
  }

  predicate CallsOk(s: State) {
    forall c <- s.calls ::
      && (s.calls[c].Following? ==>
        s.calls[c].owner in s.calls && s.calls[s.calls[c].owner].id == s.calls[c].id
        && !s.calls[s.calls[c].owner].Following?)
      && (s.calls[c].Returned? ==> s.calls[c].promise == Resolved(s.calls[c].response))
      && (s.calls[c].Storing? ==> s.calls[c].promise.Resolved? && s.calls[c].at <= s.clock)
  }

  // While a row can be replayed, its key is not being computed.
  predicate RowsOk(s: State) {
    && |s.rows| <= MAX_ENTRIES
    && forall id <- s.rows :: s.rows[id].at <= s.clock && (id in s.inflight ==> Expired(s.rows[id], s.clock))
  }

  predicate Inv(s: State) { OwnersOk(s) && CallsOk(s) && RowsOk(s) }

  // A call starts to wait, or comes back at once.
  lemma JoinKeepsInv(s: State, call: CallId, c: Call)
    requires Inv(s) && call !in s.calls && !Owns(c)
    requires c.Following? ==> c.id in s.inflight && c.owner == s.inflight[c.id]
    requires c.Returned? ==> c.promise == Resolved(c.response)
    ensures Inv(s.(calls := s.calls[call := c]))
  {
  }

  // A new owner: nobody owned the key before.
  lemma ComputeKeepsOwners(s: State, call: CallId, id: Id)
    requires OwnersOk(s) && call !in s.calls && id !in s.inflight && Lookup(s.rows, id, s.clock).None?
    ensures OwnersOk(Begin(s, call, id))
  {
  }

  lemma ComputeKeepsCalls(s: State, call: CallId, id: Id)
    requires CallsOk(s) && call !in s.calls && id !in s.inflight && Lookup(s.rows, id, s.clock).None?
    ensures CallsOk(Begin(s, call, id))
  {
  }

  lemma ComputeKeepsRows(s: State, call: CallId, id: Id)
    requires RowsOk(s) && id !in s.inflight && Lookup(s.rows, id, s.clock).None?
    ensures RowsOk(Begin(s, call, id))
  {
    var s' := Begin(s, call, id);
    assert s'.rows.Keys <= s.rows.Keys;
    SubsetSize(s'.rows.Keys, s.rows.Keys);
  }

  lemma BeginKeepsInv(s: State, call: CallId, id: Id)
    requires Inv(s) && call !in s.calls
    ensures Inv(Begin(s, call, id))
  {
    if id in s.inflight {
      JoinKeepsInv(s, call, Following(id, s.inflight[id]));
    } else if Lookup(s.rows, id, s.clock).Some? {
      var stored := Lookup(s.rows, id, s.clock).value;
      JoinKeepsInv(s, call, Returned(id, Resolved(stored), stored, true));
    } else {
      ComputeKeepsOwners(s, call, id);
      ComputeKeepsCalls(s, call, id);
      ComputeKeepsRows(s, call, id);
    }
  }

  // A call moves on without starting or ending an ownership.
  lemma ReplaceKeepsInv(s: State, call: CallId, c: Call)
    requires Inv(s) && call in s.calls && c.id == s.calls[call].id && Owns(c) == Owns(s.calls[call]) && !c.Following?
    requires c.Returned? ==> c.promise == Resolved(c.response)
    requires c.Storing? ==> c.promise.Resolved? && c.at <= s.clock
    ensures Inv(s.(calls := s.calls[call := c]))
  {
  }

  lemma EndKeepsInv(s: State, call: CallId, c: Call)
    requires Inv(s) && call in s.calls && Owns(s.calls[call]) && !Owns(c) && !c.Following? && c.id == s.calls[call].id
    requires c.Returned? ==> c.promise == Resolved(c.response)
    ensures Inv(End(s, call, c))
  {
  }

  lemma StoredKeepsInv(s: State, call: CallId, victim: Option<Id>)
    requires Inv(s) && call in s.calls && s.calls[call].Storing? && s.calls[call].promise.Resolved?
    requires VictimOk(Pruned(s.rows, s.calls[call].at), s.calls[call].id, victim)
    ensures var c := s.calls[call];
      Inv(End(Keep(s, call, victim), call, Returned(c.id, c.promise, c.promise.response, false)))
  {
    var c := s.calls[call];
    PutIsBounded(s.rows, c.id, c.promise.response, c.at, victim);
    EndKeepsInv(s, call, Returned(c.id, c.promise, c.promise.response, false));
  }

  lemma NextKeepsInv(s: State, a: Action)
    requires Inv(s)
    ensures Inv(Next(s, a))
  {
    match a {
      case Run(call, id) => if call !in s.calls { BeginKeepsInv(s, call, id); }
      case Settle(call, result) =>
        if call in s.calls && s.calls[call].Computing? {
          ReplaceKeepsInv(s, call,
            Computing(s.calls[call].id, if result.Some? then Resolved(result.value) else Rejected));
        }
      case Wake(call) => WakeKeepsInv(s, call);
      case Store(call) => StoreKeepsInv(s, call);
      case Stored(call, ok, victim) =>
        if call in s.calls && s.calls[call].Storing? {
          var c := s.calls[call];
          if !ok { EndKeepsInv(s, call, Threw(c.id, c.promise)); }
          else if VictimOk(Pruned(s.rows, c.at), c.id, victim) { StoredKeepsInv(s, call, victim); }
        }
      case Crash =>
      case Tick(now) => TickKeepsInv(s, now);
    }
  }

  lemma WakeKeepsInv(s: State, call: CallId)
    requires Inv(s)
    ensures Inv(Next(s, Wake(call)))
  {
    if call in s.calls && s.calls[call].Following? {
      var c := s.calls[call];
      var promise := PromiseOf(s, c.owner);
      if promise.Resolved? {
        ReplaceKeepsInv(s, call, Returned(c.id, promise, promise.response, true));
      } else {
        ReplaceKeepsInv(s, call, Threw(c.id, promise));
      }
    }
  }

  lemma StoreKeepsInv(s: State, call: CallId)
    requires Inv(s)
    ensures Inv(Next(s, Store(call)))
  {
    if call in s.calls && s.calls[call].Computing? {
      var c := s.calls[call];
      if c.promise.Rejected? { EndKeepsInv(s, call, Threw(c.id, c.promise)); }
      if c.promise.Resolved? { ReplaceKeepsInv(s, call, Storing(c.id, c.promise, s.clock)); }
    }
  }

  lemma TickKeepsInv(s: State, now: int)
    requires Inv(s)
    ensures Inv(Next(s, Tick(now)))
  {
  }

  lemma {:induction false} RunKeepsInv(s: State, actions: seq<Action>)
    requires Inv(s)
    ensures Inv(Execute(s, actions))
    decreases |actions|
  {
    if actions != [] {
      NextKeepsInv(s, actions[0]);
      RunKeepsInv(Next(s, actions[0]), actions[1..]);
    }
  }

  // ----- at most one computation -------------------------------------------------------------------------

  // Two calls of one key are never both computing or storing, in any interleaving and across crashes; and a
  // call that comes while one is joins it.
  lemma OneComputationAtATime(actions: seq<Action>, a: CallId, b: CallId)
    requires var s := Execute(Initial, actions);
      a in s.calls && b in s.calls && Owns(s.calls[a]) && Owns(s.calls[b]) && s.calls[a].id == s.calls[b].id
    ensures a == b
    ensures var s := Execute(Initial, actions); forall c: CallId | c !in s.calls ::
      Next(s, Run(c, s.calls[a].id)).calls[c] == Following(s.calls[a].id, a)
        && Next(s, Run(c, s.calls[a].id)).computes == s.computes
  {
    RunKeepsInv(Initial, actions);
  }

  lemma StoreIsBounded(actions: seq<Action>)
    ensures |Execute(Initial, actions).rows| <= 500
  {
    RunKeepsInv(Initial, actions);
  }

  // ----- replay until forgotten --------------------------------------------------------------------------

  // The response of a key is stored and not yet old.
  predicate Remembered(s: State, id: Id, row: Row) { id in s.rows && s.rows[id] == row && !Expired(row, s.clock) }

  lemma StepRemembers(s: State, a: Action, id: Id, row: Row)
    requires Inv(s) && Remembered(s, id, row)
    ensures var s' := Next(s, a);
      s'.clock >= s.clock && Count(s'.evictions, id) >= Count(s.evictions, id) &&
      (Expired(row, s'.clock) || Count(s'.evictions, id) > Count(s.evictions, id) ||
        (Remembered(s', id, row) && Count(s'.computes, id) == Count(s.computes, id)))
  {
    match a {
      case Stored(call, ok, victim) =>
        if call in s.calls && s.calls[call].Storing? {
          KeepRemembers(s, call, victim, id, row);
        }
      case _ =>
    }
  }

  lemma KeepRemembers(s: State, call: CallId, victim: Option<Id>, id: Id, row: Row)
    requires Inv(s) && Remembered(s, id, row) && call in s.calls && s.calls[call].Storing?
    ensures s.calls[call].id != id
    ensures var s' := Keep(s, call, victim); victim == Some(id) || Remembered(s', id, row)
  {
  }

  // A counter of evictions and the clock never go back.
  lemma {:induction false} NothingUndone(s: State, actions: seq<Action>, id: Id)
    ensures var s' := Execute(s, actions); s'.clock >= s.clock && Count(s'.evictions, id) >= Count(s.evictions, id)
    decreases |actions|
  {
    if actions != [] {
      NeverBack(s, actions[0], id);
      NothingUndone(Next(s, actions[0]), actions[1..], id);
    }
  }

  lemma NeverBack(s: State, a: Action, id: Id)
    ensures var s' := Next(s, a); s'.clock >= s.clock && Count(s'.evictions, id) >= Count(s.evictions, id)
  {
  }

  // Once a response is stored, no computation of its key begins until the response is a day old or has been
  // evicted, whatever else happens, crashes included; until then every call of the key replays it.
  lemma {:induction false} ReplayedUntilForgotten(s: State, actions: seq<Action>, id: Id, row: Row, call: CallId)
    requires Inv(s) && Remembered(s, id, row)
    requires !Expired(row, Execute(s, actions).clock)
      && Count(Execute(s, actions).evictions, id) == Count(s.evictions, id)
    requires call !in Execute(s, actions).calls
    ensures var s' := Execute(s, actions);
      && Count(s'.computes, id) == Count(s.computes, id)
      && Next(s', Run(call, id)).calls[call] == Returned(id, Resolved(row.entry), row.entry, true)
      && Next(s', Run(call, id)).computes == s'.computes
    decreases |actions|
  {
    if actions == [] {
    } else {
      var s' := Next(s, actions[0]);
      NextKeepsInv(s, actions[0]);
      StepRemembers(s, actions[0], id, row);
      NothingUndone(s', actions[1..], id);
      ReplayedUntilForgotten(s', actions[1..], id, row, call);
    }
  }

  // The put decides: after it the key is remembered with the computed response exactly when it succeeded
  // within a day of being called.
  lemma StoredIsRemembered(s: State, call: CallId, ok: bool, victim: Option<Id>)
    requires Inv(s) && call in s.calls && s.calls[call].Storing?
      && VictimOk(Pruned(s.rows, s.calls[call].at), s.calls[call].id, victim)
    ensures var c := s.calls[call]; var s' := Next(s, Stored(call, ok, victim));
      var row := Row(c.at, c.promise.response);
      && (ok ==> s'.calls[call] == Returned(c.id, c.promise, c.promise.response, false))
      && (Lookup(s'.rows, c.id, s'.clock).Some? <==> ok && !Expired(row, s.clock))
      && (ok && !Expired(row, s.clock) ==> Remembered(s', c.id, row))
  {
  }

  // A response that is put at once is found until a day after, and not a moment longer.
  lemma KeptForADay(s: State, call: CallId, victim: Option<Id>, response: Response, later: int)
    requires Inv(s) && call in s.calls && s.calls[call] == Computing(s.calls[call].id, Resolved(response))
    requires VictimOk(Pruned(s.rows, s.clock), s.calls[call].id, victim)
    ensures var id := s.calls[call].id; var s' := Next(Next(s, Store(call)), Stored(call, true, victim));
      && call in s'.calls && s'.calls[call] == Returned(id, Resolved(response), response, false)
      && (Lookup(s'.rows, id, later) == Some(response) <==> later <= s.clock + 24 * 60 * 60 * 1000)
      && id !in s'.inflight
  {
    var s1 := Next(s, Store(call));
    assert s1.calls[call] == Storing(s.calls[call].id, Resolved(response), s.clock);
    var s2 := Next(s1, Stored(call, true, victim));
    assert s2.rows == Put(s.rows, s.calls[call].id, response, s.clock, victim);
  }

  // A call that joined waits until the computation it joined has come back, and comes back with what that did.
  lemma FollowersShareTheResult(s: State, call: CallId, follower: CallId)
    requires call in s.calls && s.calls[call].Computing? && follower in s.calls
    requires s.calls[follower] == Following(s.calls[call].id, call)
    ensures var promise, s' := s.calls[call].promise, Next(s, Wake(follower));
      && (promise.Pending? ==> s' == s)
      && (promise.Resolved? ==>
            s'.calls[follower] == Returned(s.calls[call].id, promise, promise.response, true))
      && (promise.Rejected? ==> s'.calls[follower] == Threw(s.calls[call].id, promise))
  {
  }

  // A computation that fails is not stored: its call throws, whoever joined it throws too, and the next call computes.
  lemma FailuresAreNotStored(s: State, call: CallId, follower: CallId, next: CallId)
    requires Inv(s) && call in s.calls && s.calls[call] == Computing(s.calls[call].id, Rejected)
    requires follower in s.calls && s.calls[follower] == Following(s.calls[call].id, call) && next !in s.calls
    ensures var id := s.calls[call].id; var s' := Next(s, Store(call));
      && s'.rows == s.rows && s'.calls[call].Threw? && Next(s, Wake(follower)).calls[follower].Threw?
      && (Next(s', Run(next, id)).calls[next] == Computing(id, Pending) <==> Lookup(s.rows, id, s.clock).None?)
  {
  }

  // A follower is answered before the put: when the put then fails, the key is computed again although a
  // caller already has a response.
  const ANSWERED := [Run(0, "k"), Run(1, "k"), Settle(0, Some("made")), Wake(1)]
  const LOST := [Store(0), Stored(0, false, None), Run(2, "k")]

  lemma AnsweredThenComputedAgain()
    ensures var s := Execute(Initial, ANSWERED);
      1 in s.calls && s.calls[1] == Returned("k", Resolved("made"), "made", true) && Count(s.computes, "k") == 1
    ensures var s := Execute(Execute(Initial, ANSWERED), LOST);
      2 in s.calls && s.calls[2] == Computing("k", Pending) && Count(s.computes, "k") == 2
  {
    Answers();
    ThenLoses();
  }

  const AfterAnswer := State(
    map[], map["k" := 0],
    map[0 := Computing("k", Resolved("made")), 1 := Returned("k", Resolved("made"), "made", true)],
    0, map["k" := 1], map[])

  lemma Answers()
    ensures Execute(Initial, ANSWERED) == AfterAnswer
  {
    var s1 := Next(Initial, Run(0, "k"));
    var s2 := Next(s1, Run(1, "k"));
    var s3 := Next(s2, Settle(0, Some("made")));
    assert s1 == State(map[], map["k" := 0], map[0 := Computing("k", Pending)], 0, map["k" := 1], map[]);
    assert Next(s3, Wake(1)) == AfterAnswer;
    ExecuteFour(Initial, ANSWERED);
  }

  lemma ThenLoses()
    ensures var s := Execute(AfterAnswer, LOST);
      2 in s.calls && s.calls[2] == Computing("k", Pending) && Count(s.computes, "k") == 2
  {
    var s2 := Next(Next(AfterAnswer, Store(0)), Stored(0, false, None));
    assert s2.inflight == map[] && s2.rows == map[] && s2.computes == map["k" := 1];
    ExecuteThree(AfterAnswer, LOST);
  }

  lemma ExecuteThree(s: State, actions: seq<Action>)
    requires |actions| == 3
    ensures Execute(s, actions) == Next(Next(Next(s, actions[0]), actions[1]), actions[2])
  {
    var s1, rest := Next(s, actions[0]), actions[1..];
    assert Execute(s, actions) == Execute(s1, rest);
    assert Execute(s1, rest) == Execute(Next(s1, rest[0]), rest[1..]);
    assert rest[1..] == [actions[2]];
    assert Execute(Next(s1, rest[0]), [actions[2]]) == Execute(Next(Next(s1, rest[0]), actions[2]), []);
  }

  lemma ExecuteFour(s: State, actions: seq<Action>)
    requires |actions| == 4
    ensures Execute(s, actions) == Next(Next(Next(Next(s, actions[0]), actions[1]), actions[2]), actions[3])
  {
    ExecuteThree(Next(s, actions[0]), actions[1..]);
  }
}
