/**
 The per-key promise lock: `coordinated(store, key, work)`.

 A call chains its work behind the tail promise of its key's lock and counts itself in; when its own
 promise has settled it counts itself out and the last one out deletes the lock entry. A running work
 may itself call `coordinated` on `$registration` and wait for it.
 */
module Coordination {
  import opened Sets
  import opened Wrappers

  datatype Key = Hash(hash: string) | Registration
  type CallId = nat

  const MAX_PENDING := 32

  datatype Phase = Queued | Running | Settled

  // One call of `coordinated` that has not returned yet. `prev` is the tail promise it was chained to;
  // `nested` is how many more times its work will ask for `$registration`; `parent` is the call whose
  // work is waiting for this one.
  datatype Call = Call(key: Key, prev: Option<CallId>, phase: Phase, parent: Option<CallId>, nested: nat)

  datatype Lock = Lock(tail: Option<CallId>, count: nat)

  datatype State = State(
    locks: map<Key, Lock>, calls: map<CallId, Call>,
    entered: seq<Key>,           // history: the key of every call ever accepted, by id
    started: seq<CallId>)        // history: the order in which works began

  const Initial := State(map[], map[], [], [])

  datatype Action =
    | Enter(hash: string, nested: nat)  // a new top-level call
    | Start(id: CallId)                 // the chained work begins
    | Nest(id: CallId)                  // a running work calls coordinated('$registration')
    | Settle(id: CallId)                // the work resolves or rejects
    | Leave(id: CallId)                 // the caller's finally block

  predicate Done(s: State, id: CallId) { id in s.calls ==> s.calls[id].phase == Settled }
  predicate Waits(s: State, id: CallId) { exists c <- s.calls :: s.calls[c].parent == Some(id) }
  function LockOf(s: State, key: Key): Lock { if key in s.locks then s.locks[key] else Lock(None, 0) }
  predicate Busy(s: State, key: Key) { LockOf(s, key).count >= MAX_PENDING }

  predicate Enabled(s: State, a: Action) {
    match a
    case Enter(_, _) => true
    case Start(id) =>
      id in s.calls && s.calls[id].phase == Queued && (s.calls[id].prev.Some? ==> Done(s, s.calls[id].prev.value))
    case Nest(id) =>
      id in s.calls && s.calls[id].phase == Running && s.calls[id].key.Hash? && s.calls[id].nested > 0 && !Waits(s, id)
    case Settle(id) => id in s.calls && s.calls[id].phase == Running && !Waits(s, id)
    case Leave(id) => id in s.calls && s.calls[id].phase == Settled
  }

  // Chain a call behind the current tail and count it in.
  function Chain(s: State, key: Key, parent: Option<CallId>, nested: nat): State {
    var lock := LockOf(s, key);
    var id := |s.entered|;
    s.(locks := s.locks[key := Lock(Some(id), lock.count + 1)],
       calls := s.calls[id := Call(key, lock.tail, Queued, parent, nested)],
       entered := s.entered + [key])
  }

  // Replacing one call by another in place.
  function Update(s: State, id: CallId, c: Call): State { s.(calls := s.calls[id := c]) }

  function Spend(s: State, id: CallId): State
    requires id in s.calls && s.calls[id].nested > 0
  {
    Update(s, id, s.calls[id].(nested := s.calls[id].nested - 1))
  }

  function Next(s: State, a: Action): State {
    if !Enabled(s, a) then s else
    match a
    case Enter(hash, nested) => if Busy(s, Hash(hash)) then s else Chain(s, Hash(hash), None, nested)
    case Start(id) => Update(s, id, s.calls[id].(phase := Running)).(started := s.started + [id])
    case Nest(id) =>
      var s' := Spend(s, id);
      if Busy(s', Registration) then s' else Chain(s', Registration, Some(id), 0)
    case Settle(id) => Update(s, id, s.calls[id].(phase := Settled))
    case Leave(id) =>
      var key := s.calls[id].key;
      var lock := LockOf(s, key);
      s.(calls := s.calls - {id},
         locks := if lock.count <= 1 then s.locks - {key} else s.locks[key := lock.(count := lock.count - 1)])
  }

  function Execute(s: State, actions: seq<Action>): State
    decreases |actions|
  {
    if actions == [] then s else Execute(Next(s, actions[0]), actions[1..])
  }

  // ----- the invariant ------------------------------------------------------------------------

  function CallsOn(s: State, key: Key): set<CallId> { set id | id in s.calls && s.calls[id].key == key }

  predicate IsOuter(s: State, id: CallId) { id < |s.entered| && s.entered[id].Hash? }

  predicate CallsOk(s: State) {
    forall id <- s.calls ::
      && id < |s.entered| && s.entered[id] == s.calls[id].key
      && (s.calls[id].key == Registration ==> s.calls[id].nested == 0)
      && (s.calls[id].parent.Some? ==> s.calls[id].key == Registration && IsOuter(s, s.calls[id].parent.value))
      && (s.calls[id].prev.Some? ==>
        s.calls[id].prev.value < id && s.entered[s.calls[id].prev.value] == s.calls[id].key)
  }

  // A call waits, directly or through its predecessor, for every earlier call of its key.
  predicate Chained(s: State) {
    forall id, q | id in s.calls && q in s.calls && q < id && s.calls[q].key == s.calls[id].key ::
      s.calls[id].prev.Some? && q <= s.calls[id].prev.value
  }

  predicate Begun(s: State, id: CallId) { id < |s.entered| && !(id in s.calls && s.calls[id].phase == Queued) }

  // When a work has begun, every earlier work of its key is over.
  ghost predicate InOrder(s: State) {
    forall id: CallId, q <- s.calls | Begun(s, id) && q < id && q < |s.entered| && s.entered[q] == s.entered[id] ::
      s.calls[q].phase == Settled
  }

  // A lock counts the pending calls of its key.
  predicate CountsOk(s: State) {
    forall key <- s.locks :: s.locks[key].count == |CallsOn(s, key)| && 0 < s.locks[key].count <= MAX_PENDING
  }

  // Every pending call has a lock, whose tail is the last call of its key.
  predicate TailsOk(s: State) {
    && (forall key <- s.locks ::
          s.locks[key].tail.Some? && s.locks[key].tail.value < |s.entered| && s.entered[s.locks[key].tail.value] == key)
    && (forall id <- s.calls :: s.calls[id].key in s.locks && id <= s.locks[s.calls[id].key].tail.value)
  }

  predicate LocksOk(s: State) { CountsOk(s) && TailsOk(s) }

  ghost predicate StartedIds(s: State) { forall id: CallId :: id in s.started <==> Begun(s, id) }

  // The works of one key began in the order of their calls, each once.
  predicate Fifo(started: seq<CallId>, entered: seq<Key>) {
    forall i, j | 0 <= i < j < |started| ::
      && started[i] != started[j]
      && (started[i] < |entered| && started[j] < |entered| && entered[started[i]] == entered[started[j]] ==>
        started[i] < started[j])
  }

  ghost predicate Inv(s: State) {
    CallsOk(s) && LocksOk(s) && Chained(s) && InOrder(s) && StartedIds(s) && Fifo(s.started, s.entered)
  }

  // Starting is safe: everything that entered this key earlier is over.
  lemma StartIsSafe(s: State, id: CallId)
    requires Inv(s) && Enabled(s, Start(id))
    ensures forall q | q < id && q in s.calls && s.calls[q].key == s.calls[id].key :: s.calls[q].phase == Settled
  {
    forall q | q < id && q in s.calls && s.calls[q].key == s.calls[id].key ensures s.calls[q].phase == Settled {
      var p := s.calls[id].prev.value;
      if q < p {
        assert Begun(s, p);
        assert s.entered[q] == s.entered[p];
      }
    }
  }

  // ----- every action keeps it ----------------------------------------------------------------

  lemma ChainCounts(s: State, key: Key, parent: Option<CallId>, nested: nat, k: Key)
    requires CallsOk(s)
    ensures |CallsOn(Chain(s, key, parent, nested), k)| == |CallsOn(s, k)| + if k == key then 1 else 0
  {
    var s' := Chain(s, key, parent, nested);
    var id := |s.entered|;
    assert id !in s.calls;
    if k == key { assert CallsOn(s', k) == CallsOn(s, k) + {id}; } else { assert CallsOn(s', k) == CallsOn(s, k); }
  }

  lemma ChainKeepsCounts(s: State, key: Key, parent: Option<CallId>, nested: nat)
    requires CallsOk(s) && LocksOk(s) && !Busy(s, key)
    ensures CountsOk(Chain(s, key, parent, nested))
  {
    var s' := Chain(s, key, parent, nested);
    NoLockNoCalls(s, key);
    forall k <- s'.locks ensures s'.locks[k].count == |CallsOn(s', k)| && 0 < s'.locks[k].count <= MAX_PENDING {
      ChainCounts(s, key, parent, nested, k);
    }
  }

  lemma NoLockNoCalls(s: State, key: Key)
    requires TailsOk(s)
    ensures key !in s.locks ==> CallsOn(s, key) == {}
  {
  }

  lemma ChainKeepsTails(s: State, key: Key, parent: Option<CallId>, nested: nat)
    requires CallsOk(s) && TailsOk(s)
    ensures TailsOk(Chain(s, key, parent, nested))
  {
    var s' := Chain(s, key, parent, nested);
    forall id <- s.calls ensures s'.calls[id] == s.calls[id] {}
  }

  // The new call has not begun, and nothing else changes.
  lemma ChainBegins(s: State, key: Key, parent: Option<CallId>, nested: nat)
    requires CallsOk(s)
    ensures forall x: CallId :: Begun(Chain(s, key, parent, nested), x) <==> Begun(s, x)
  {
  }

  lemma ChainKeepsOrder(s: State, key: Key, parent: Option<CallId>, nested: nat)
    requires CallsOk(s) && InOrder(s) && StartedIds(s) && Fifo(s.started, s.entered)
    ensures var s' := Chain(s, key, parent, nested); InOrder(s') && StartedIds(s') && Fifo(s'.started, s'.entered)
  {
    ChainBegins(s, key, parent, nested);
    ChainKeepsInOrder(s, key, parent, nested);
    forall i | 0 <= i < |s.started| ensures s.started[i] < |s.entered| { assert Begun(s, s.started[i]); }
    FifoGrows(s.started, s.entered, key);
  }

  lemma ChainKeepsInOrder(s: State, key: Key, parent: Option<CallId>, nested: nat)
    requires CallsOk(s) && InOrder(s) && forall x: CallId :: Begun(Chain(s, key, parent, nested), x) <==> Begun(s, x)
    ensures InOrder(Chain(s, key, parent, nested))
  {
    var s' := Chain(s, key, parent, nested);
    forall x: CallId, q <- s'.calls | Begun(s', x) && q < x && q < |s'.entered| && s'.entered[q] == s'.entered[x]
      ensures s'.calls[q].phase == Settled
    {
      assert Begun(s, x) && x < |s.entered|;
    }
  }

  lemma FifoGrows(started: seq<CallId>, entered: seq<Key>, key: Key)
    requires Fifo(started, entered) && forall i | 0 <= i < |started| :: started[i] < |entered|
    ensures Fifo(started, entered + [key])
  {
  }

  lemma ChainKeepsInv(s: State, key: Key, parent: Option<CallId>, nested: nat)
    requires Inv(s) && !Busy(s, key) && (key == Registration ==> nested == 0)
    requires parent.Some? ==> key == Registration && IsOuter(s, parent.value)
    ensures Inv(Chain(s, key, parent, nested))
  {
    ChainKeepsCounts(s, key, parent, nested);
    ChainKeepsTails(s, key, parent, nested);
    ChainKeepsCalls(s, key, parent, nested);
    ChainKeepsLine(s, key, parent, nested);
    ChainKeepsOrder(s, key, parent, nested);
  }

  lemma ChainKeepsCalls(s: State, key: Key, parent: Option<CallId>, nested: nat)
    requires CallsOk(s) && TailsOk(s) && (key == Registration ==> nested == 0)
    requires parent.Some? ==> key == Registration && IsOuter(s, parent.value)
    ensures CallsOk(Chain(s, key, parent, nested))
  {
    var s' := Chain(s, key, parent, nested);
    forall id <- s.calls ensures s'.calls[id] == s.calls[id] {}
  }

  // The tail promise the new call is chained to comes after every pending call of its key.
  lemma ChainKeepsLine(s: State, key: Key, parent: Option<CallId>, nested: nat)
    requires CallsOk(s) && TailsOk(s) && Chained(s)
    ensures Chained(Chain(s, key, parent, nested))
  {
    var s' := Chain(s, key, parent, nested);
    forall id <- s.calls ensures s'.calls[id] == s.calls[id] {}
  }

  lemma UpdateKeepsChains(s: State, id: CallId, c: Call)
    requires CallsOk(s) && LocksOk(s) && Chained(s) && id in s.calls
    requires c == s.calls[id].(phase := c.phase, nested := c.nested) && c.nested <= s.calls[id].nested
    ensures CallsOk(Update(s, id, c)) && LocksOk(Update(s, id, c)) && Chained(Update(s, id, c))
  {
    UpdateKeepsLocks(s, id, c);
    UpdateKeepsCalls(s, id, c);
  }

  lemma UpdateKeepsCalls(s: State, id: CallId, c: Call)
    requires CallsOk(s) && Chained(s) && id in s.calls
    requires c == s.calls[id].(phase := c.phase, nested := c.nested) && c.nested <= s.calls[id].nested
    ensures CallsOk(Update(s, id, c)) && Chained(Update(s, id, c))
  {
    var s' := Update(s, id, c);
    forall q <- s.calls
      ensures s'.calls[q].key == s.calls[q].key && s'.calls[q].prev == s.calls[q].prev
        && s'.calls[q].parent == s.calls[q].parent
    {}
  }

  lemma UpdateKeepsLocks(s: State, id: CallId, c: Call)
    requires LocksOk(s) && id in s.calls && c.key == s.calls[id].key
    ensures LocksOk(Update(s, id, c))
  {
    UpdateKeepsTails(s, id, c);
    forall key <- s.locks ensures CallsOn(Update(s, id, c), key) == CallsOn(s, key) {}
  }

  lemma UpdateKeepsTails(s: State, id: CallId, c: Call)
    requires TailsOk(s) && id in s.calls && c.key == s.calls[id].key
    ensures TailsOk(Update(s, id, c))
  {
  }

  // A call that had begun moves on: the order of works is what it was.
  lemma UpdateKeepsOrder(s: State, id: CallId, c: Call)
    requires InOrder(s) && StartedIds(s) && id in s.calls && s.calls[id].phase != Queued && c.phase != Queued
    requires s.calls[id].phase == Settled ==> c.phase == Settled
    ensures InOrder(Update(s, id, c)) && StartedIds(Update(s, id, c))
  {
    SameBegun(s, id, c);
    UpdateKeepsInOrder(s, id, c);
  }

  lemma SameBegun(s: State, id: CallId, c: Call)
    requires id in s.calls && s.calls[id].phase != Queued && c.phase != Queued
    ensures forall x: CallId :: Begun(Update(s, id, c), x) <==> Begun(s, x)
  {
  }

  lemma UpdateKeepsInOrder(s: State, id: CallId, c: Call)
    requires InOrder(s) && id in s.calls && (s.calls[id].phase == Settled ==> c.phase == Settled)
    requires forall x: CallId :: Begun(Update(s, id, c), x) <==> Begun(s, x)
    ensures InOrder(Update(s, id, c))
  {
    var s' := Update(s, id, c);
    forall x: CallId, q <- s'.calls | Begun(s', x) && q < x && q < |s'.entered| && s'.entered[q] == s'.entered[x]
      ensures s'.calls[q].phase == Settled
    {
      assert Begun(s, x) && s.calls[q].phase == Settled;
    }
  }

  lemma StartKeepsInv(s: State, id: CallId)
    requires Inv(s) && Enabled(s, Start(id))
    ensures Inv(Next(s, Start(id)))
  {
    UpdateKeepsChains(s, id, s.calls[id].(phase := Running));
    StartKeepsOrder(s, id);
    StartIsFifo(s, id);
    IgnoresStarted(Update(s, id, s.calls[id].(phase := Running)), s.started + [id]);
  }

  lemma IgnoresStarted(s: State, started: seq<CallId>)
    requires CallsOk(s) && LocksOk(s) && Chained(s)
    ensures var s' := s.(started := started); CallsOk(s') && LocksOk(s') && Chained(s')
  {
    forall key <- s.locks ensures CallsOn(s.(started := started), key) == CallsOn(s, key) {}
  }

  lemma StartKeepsOrder(s: State, id: CallId)
    requires Inv(s) && Enabled(s, Start(id))
    ensures InOrder(Next(s, Start(id))) && StartedIds(Next(s, Start(id)))
  {
    StartIsSafe(s, id);
    StartIsRecorded(s, id);
    StartIsInOrder(s, id);
  }

  lemma StartIsRecorded(s: State, id: CallId)
    requires CallsOk(s) && StartedIds(s) && Enabled(s, Start(id))
    ensures StartedIds(Next(s, Start(id)))
    ensures forall x: CallId :: Begun(Next(s, Start(id)), x) <==> Begun(s, x) || x == id
  {
  }

  lemma StartIsInOrder(s: State, id: CallId)
    requires InOrder(s) && Enabled(s, Start(id)) && CallsOk(s)
    requires forall q | q < id && q in s.calls && s.calls[q].key == s.calls[id].key :: s.calls[q].phase == Settled
    requires forall x: CallId :: Begun(Next(s, Start(id)), x) <==> Begun(s, x) || x == id
    ensures InOrder(Next(s, Start(id)))
  {
    var s' := Next(s, Start(id));
    forall x: CallId, q <- s'.calls | Begun(s', x) && q < x && q < |s'.entered| && s'.entered[q] == s'.entered[x]
      ensures s'.calls[q].phase == Settled
    {
      assert q in s.calls;
      if x == id {} else { assert Begun(s, x); }
      if q == id { assert false; }
    }
  }

  lemma StartIsFifo(s: State, id: CallId)
    requires Inv(s) && Enabled(s, Start(id))
    ensures Fifo(s.started + [id], s.entered)
  {
    forall i | 0 <= i < |s.started|
      ensures s.started[i] != id
        && (s.started[i] < |s.entered| && s.entered[s.started[i]] == s.entered[id] ==> s.started[i] < id)
    {
      var x := s.started[i];
      assert Begun(s, x);
      if x > id && s.entered[x] == s.entered[id] { assert false; }
    }
  }

  lemma SettleKeepsInv(s: State, id: CallId)
    requires Inv(s) && Enabled(s, Settle(id))
    ensures Inv(Next(s, Settle(id)))
  {
    UpdateKeepsChains(s, id, s.calls[id].(phase := Settled));
    UpdateKeepsOrder(s, id, s.calls[id].(phase := Settled));
  }

  lemma SpendKeepsInv(s: State, id: CallId)
    requires Inv(s) && Enabled(s, Nest(id))
    ensures Inv(Spend(s, id))
  {
    var c := s.calls[id].(nested := s.calls[id].nested - 1);
    UpdateKeepsChains(s, id, c);
    UpdateKeepsOrder(s, id, c);
  }

  lemma LeaveCounts(s: State, id: CallId, k: Key)
    requires Enabled(s, Leave(id))
    ensures |CallsOn(Next(s, Leave(id)), k)| == |CallsOn(s, k)| - if k == s.calls[id].key then 1 else 0
    ensures k == s.calls[id].key ==> |CallsOn(s, k)| > 0
  {
    var s' := Next(s, Leave(id));
    if k == s.calls[id].key {
      assert id in CallsOn(s, k);
      assert CallsOn(s', k) == CallsOn(s, k) - {id};
    } else {
      assert CallsOn(s', k) == CallsOn(s, k);
    }
  }

  lemma LeaveKeepsCounts(s: State, id: CallId)
    requires LocksOk(s) && Enabled(s, Leave(id))
    ensures CountsOk(Next(s, Leave(id)))
  {
    var s' := Next(s, Leave(id));
    forall k <- s'.locks
      ensures s'.locks[k].count == |CallsOn(s', k)| && 0 < s'.locks[k].count <= MAX_PENDING
    {
      LeaveCounts(s, id, k);
    }
  }

  // The last call of a key to be counted out leaves no other behind.
  lemma LastOneOut(s: State, id: CallId, other: CallId)
    requires CountsOk(s) && TailsOk(s) && id in s.calls && other in s.calls && other != id
    requires s.locks[s.calls[id].key].count <= 1
    ensures s.calls[other].key != s.calls[id].key
  {
    var pending := CallsOn(s, s.calls[id].key);
    if other in pending { OnlyOne(pending, id, other); }
  }

  lemma LeaveKeepsTails(s: State, id: CallId)
    requires LocksOk(s) && Enabled(s, Leave(id))
    ensures TailsOk(Next(s, Leave(id)))
  {
    var s' := Next(s, Leave(id));
    forall x <- s'.calls ensures s'.calls[x].key in s'.locks && x <= s'.locks[s'.calls[x].key].tail.value {
      if s.locks[s.calls[id].key].count <= 1 { LastOneOut(s, id, x); }
    }
  }

  lemma LeaveKeepsInv(s: State, id: CallId)
    requires Inv(s) && Enabled(s, Leave(id))
    ensures Inv(Next(s, Leave(id)))
  {
    LeaveKeepsCounts(s, id);
    LeaveKeepsTails(s, id);
    LeaveKeepsCalls(s, id);
    LeaveKeepsOrder(s, id);
  }

  lemma LeaveKeepsCalls(s: State, id: CallId)
    requires CallsOk(s) && Chained(s) && Enabled(s, Leave(id))
    ensures CallsOk(Next(s, Leave(id))) && Chained(Next(s, Leave(id)))
  {
    var s' := Next(s, Leave(id));
    forall q <- s'.calls ensures q in s.calls && s'.calls[q] == s.calls[q] {}
  }

  lemma LeaveKeepsOrder(s: State, id: CallId)
    requires InOrder(s) && StartedIds(s) && Fifo(s.started, s.entered) && Enabled(s, Leave(id))
    ensures var s' := Next(s, Leave(id)); InOrder(s') && StartedIds(s') && Fifo(s'.started, s'.entered)
  {
    forall x: CallId ensures Begun(Next(s, Leave(id)), x) <==> Begun(s, x) {}
  }

  lemma EnterKeepsInv(s: State, hash: string, nested: nat)
    requires Inv(s)
    ensures Inv(Next(s, Enter(hash, nested)))
  {
    if !Busy(s, Hash(hash)) { ChainKeepsInv(s, Hash(hash), None, nested); }
  }

  lemma NestKeepsInv(s: State, id: CallId)
    requires Inv(s) && Enabled(s, Nest(id))
    ensures Inv(Next(s, Nest(id)))
  {
    SpendKeepsInv(s, id);
    NestFrom(Spend(s, id), id);
  }

  lemma NestFrom(s: State, id: CallId)
    requires Inv(s) && IsOuter(s, id)
    ensures Inv(if Busy(s, Registration) then s else Chain(s, Registration, Some(id), 0))
  {
    if !Busy(s, Registration) { ChainKeepsInv(s, Registration, Some(id), 0); }
  }

  lemma NextKeepsInv(s: State, a: Action)
    requires Inv(s)
    ensures Inv(Next(s, a))
  {
    if Enabled(s, a) {
      match a {
        case Enter(hash, nested) => EnterKeepsInv(s, hash, nested);
        case Start(id) => StartKeepsInv(s, id);
        case Nest(id) => NestKeepsInv(s, id);
        case Settle(id) => SettleKeepsInv(s, id);
        case Leave(id) => LeaveKeepsInv(s, id);
      }
    }
  }

  lemma {:induction false} RunKeepsInv(s: State, actions: seq<Action>)
    requires Inv(s)
    ensures Inv(Execute(s, actions))
    decreases |actions|
  {
    if actions == [] {
    } else {
      NextKeepsInv(s, actions[0]);
      RunKeepsInv(Next(s, actions[0]), actions[1..]);
    }
  }

  // ----- exclusion, order and bound -----------------------------------------------------------

  lemma InitialInv()
    ensures Inv(Initial)
  {
  }

  // At most one work per key runs, works of a key begin in the order of their calls, and when one
  // begins every earlier one has begun and is over: the lock entry may come and go meanwhile.
  lemma ExclusiveFifo(actions: seq<Action>)
    ensures var s := Execute(Initial, actions);
      && (forall a, b | a in s.calls && b in s.calls && a != b && s.calls[a].key == s.calls[b].key ::
            !(s.calls[a].phase == Running && s.calls[b].phase == Running))
      && Fifo(s.started, s.entered)
      && (forall id: CallId, q: CallId | id in s.started && q < id && id < |s.entered|
        && s.entered[q] == s.entered[id] ::
            q in s.started && Done(s, q))
  {
    RunKeepsInv(Initial, actions);
    var s := Execute(Initial, actions);
    forall id: CallId, q: CallId | id in s.started && q < id && id < |s.entered| && s.entered[q] == s.entered[id]
      ensures q in s.started && Done(s, q)
    {
      assert Begun(s, id);
      assert Begun(s, q);
    }
    forall a, b | a in s.calls && b in s.calls && a < b && s.calls[a].key == s.calls[b].key
      && s.calls[b].phase == Running
      ensures s.calls[a].phase == Settled
    {
      assert Begun(s, b);
    }
  }

  // No key ever has more than 32 pending calls, a call is refused exactly when its key has 32, and
  // a lock entry exists exactly while its key has pending calls.
  lemma PendingIsBounded(actions: seq<Action>, key: Key)
    ensures var s := Execute(Initial, actions); var pending := |CallsOn(s, key)|;
      pending <= 32 && (Busy(s, key) <==> pending == 32) && (key in s.locks <==> pending > 0)
  {
    RunKeepsInv(Initial, actions);
    var s := Execute(Initial, actions);
    if key !in s.locks { assert CallsOn(s, key) == {}; }
  }

  // A call is accepted exactly while fewer than 32 are pending on its key: then it is queued behind them; otherwise
  // nothing changes.
  lemma EntersExactly(actions: seq<Action>, hash: string, nested: nat)
    ensures var s := Execute(Initial, actions); var s', id := Next(s, Enter(hash, nested)), |s.entered|;
      if |CallsOn(s, Hash(hash))| < 32
      then s'.entered == s.entered + [Hash(hash)] && s'.calls.Keys == s.calls.Keys + {id} && id !in s.calls
           && s'.calls[id].key == Hash(hash) && s'.calls[id].phase == Queued && s'.calls[id].nested == nested
      else s' == s
  {
    PendingIsBounded(actions, Hash(hash));
    RunKeepsInv(Initial, actions);
  }

  // The same of a running work's own call of `$registration`: accepted, the work waits for it; refused, the work goes
  // on with one call less to make.
  lemma NestsExactly(actions: seq<Action>, id: CallId)
    requires var s := Execute(Initial, actions); id in s.calls && s.calls[id].phase == Running && s.calls[id].key.Hash?
    requires var s := Execute(Initial, actions);
      s.calls[id].nested > 0 && forall c <- s.calls :: s.calls[c].parent != Some(id)
    ensures var s := Execute(Initial, actions); var s', child := Next(s, Nest(id)), |s.entered|;
      && id in s'.calls && s'.calls[id].nested == s.calls[id].nested - 1
      && if |CallsOn(s, Registration)| < 32
         then s'.entered == s.entered + [Registration] && child in s'.calls && s'.calls[child].key == Registration
              && s'.calls[child].parent == Some(id) && s'.calls[child].phase == Queued && child !in s.calls
         else s'.entered == s.entered && s'.calls.Keys == s.calls.Keys
  {
    PendingIsBounded(actions, Registration);
    RunKeepsInv(Initial, actions);
    NestsHere(Execute(Initial, actions), id);
  }

  lemma NestsHere(s: State, id: CallId)
    requires CallsOk(s) && id in s.calls && s.calls[id].phase == Running && s.calls[id].key.Hash?
    requires s.calls[id].nested > 0 && !Waits(s, id)
    ensures var s', child := Next(s, Nest(id)), |s.entered|;
      && id in s'.calls && s'.calls[id].nested == s.calls[id].nested - 1
      && if !Busy(s, Registration)
         then s'.entered == s.entered + [Registration] && child in s'.calls && s'.calls[child].key == Registration
              && s'.calls[child].parent == Some(id) && s'.calls[child].phase == Queued && child !in s.calls
         else s'.entered == s.entered && s'.calls.Keys == s.calls.Keys
  {
    assert id < |s.entered|;
  }

  // A queued work begins exactly when the works called earlier on its key are over.
  lemma StartsExactly(actions: seq<Action>, id: CallId)
    requires var s := Execute(Initial, actions); id in s.calls && s.calls[id].phase == Queued
    ensures var s := Execute(Initial, actions);
      Next(s, Start(id)).calls[id].phase == Running <==>
        forall q <- s.calls | q < id && s.calls[q].key == s.calls[id].key :: s.calls[q].phase == Settled
  {
    RunKeepsInv(Initial, actions);
    var s := Execute(Initial, actions);
    if Enabled(s, Start(id)) { StartIsSafe(s, id); }
  }

  // A running work that waits for no call of its own can settle, and a settled call can be counted out.
  lemma SettlesAndLeaves(s: State, id: CallId)
    requires id in s.calls
    ensures s.calls[id].phase == Running && (forall c <- s.calls :: s.calls[c].parent != Some(id)) ==>
      Next(s, Settle(id)).calls == s.calls[id := s.calls[id].(phase := Settled)]
    ensures s.calls[id].phase == Settled ==> Next(s, Leave(id)).calls == s.calls - {id}
  {
  }

  // ----- nested use cannot deadlock ------------------------------------------------------------

  predicate Internal(a: Action) { !a.Enter? }

  // Among the unfinished calls of a key the first can always move, unless its work waits for a
  // nested call.
  lemma FirstCanMove(s: State, key: Key, id: CallId)
    requires Inv(s) && id in s.calls && s.calls[id].key == key && !Waits(s, id)
    requires forall q | q in s.calls && s.calls[q].key == key && q < id :: s.calls[q].phase == Settled
    ensures Enabled(s, Start(id)) || Enabled(s, Settle(id)) || Enabled(s, Leave(id))
  {
    if s.calls[id].phase == Queued && s.calls[id].prev.Some? && s.calls[id].prev.value in s.calls {
      assert s.calls[s.calls[id].prev.value].key == key;
    }
  }

  ghost function FirstUnsettled(s: State, key: Key, some: CallId): (id: CallId)
    requires some in s.calls && s.calls[some].key == key && s.calls[some].phase != Settled
    ensures id in s.calls && s.calls[id].key == key && s.calls[id].phase != Settled
    ensures forall q | q in s.calls && s.calls[q].key == key && q < id :: s.calls[q].phase == Settled
    decreases some
  {
    if q: CallId :| q in s.calls && s.calls[q].key == key && s.calls[q].phase != Settled && q < some
      then FirstUnsettled(s, key, q) else some
  }

  // A nested call waits only for nested calls, and they wait for nothing.
  lemma NestedCanMove(s: State, id: CallId)
    requires Inv(s) && id in s.calls && s.calls[id].key == Registration && s.calls[id].phase != Settled
    ensures exists a :: Internal(a) && Enabled(s, a)
  {
    var first := FirstUnsettled(s, Registration, id);
    assert !Waits(s, first) by {
      if c :| c in s.calls && s.calls[c].parent == Some(first) { assert IsOuter(s, first); }
    }
    FirstCanMove(s, Registration, first);
  }

  lemma OuterCanMove(s: State, id: CallId)
    requires Inv(s) && id in s.calls && s.calls[id].phase != Settled
    requires forall c <- s.calls :: s.calls[c].key != Registration
    ensures exists a :: Internal(a) && Enabled(s, a)
  {
    var first := FirstUnsettled(s, s.calls[id].key, id);
    assert !Waits(s, first);
    FirstCanMove(s, s.calls[id].key, first);
  }

  // While any call is pending, some work can begin, finish or be counted out.
  lemma NoDeadlock(s: State)
    requires Inv(s) && s.calls != map[]
    ensures exists a :: Internal(a) && Enabled(s, a)
  {
    if id :| id in s.calls && s.calls[id].phase == Settled {
      assert Enabled(s, Leave(id));
    } else if id :| id in s.calls && s.calls[id].key == Registration {
      NestedCanMove(s, id);
    } else {
      var id :| id in s.calls;
      OuterCanMove(s, id);
    }
  }

  // ----- every queued work runs -----------------------------------------------------------------

  function Weight(c: Call): nat { 4 * c.nested + match c.phase case Queued => 3 case Running => 2 case Settled => 1 }

  function WeightAt(calls: map<CallId, Call>, id: CallId): nat { if id in calls then Weight(calls[id]) else 0 }

  // What is left to do for the first n calls.
  function Remaining(calls: map<CallId, Call>, n: nat): nat {
    if n == 0 then 0 else Remaining(calls, n - 1) + WeightAt(calls, n - 1)
  }

  lemma {:induction false} OneChange(before: map<CallId, Call>, after: map<CallId, Call>, id: CallId, n: nat)
    requires forall q: CallId | q != id :: WeightAt(before, q) == WeightAt(after, q)
    ensures Remaining(after, n) - Remaining(before, n) ==
      if id < n then WeightAt(after, id) - WeightAt(before, id) else 0
  {
    if n > 0 {
      OneChange(before, after, id, n - 1);
      if n - 1 == id {} else {}
    }
  }

  function Left(s: State): nat { Remaining(s.calls, |s.entered|) }

  lemma ChainAdds(s: State, key: Key, parent: Option<CallId>)
    requires CallsOk(s)
    ensures Left(Chain(s, key, parent, 0)) == Left(s) + 3
  {
    var s' := Chain(s, key, parent, 0);
    OneChange(s.calls, s'.calls, |s.entered|, |s.entered|);
  }

  lemma SpendTakes(s: State, id: CallId)
    requires CallsOk(s) && id in s.calls && s.calls[id].nested > 0
    ensures Left(Spend(s, id)) == Left(s) - 4
  {
    OneChange(s.calls, Spend(s, id).calls, id, |s.entered|);
  }

  lemma NestProgress(s: State, id: CallId)
    requires CallsOk(s) && Enabled(s, Nest(id)) && CallsOk(Spend(s, id))
    ensures Left(Next(s, Nest(id))) < Left(s)
  {
    SpendTakes(s, id);
    ChainAdds(Spend(s, id), Registration, Some(id));
  }

  lemma StartProgress(s: State, id: CallId)
    requires CallsOk(s) && Enabled(s, Start(id))
    ensures Left(Next(s, Start(id))) < Left(s)
  {
    OneChange(s.calls, Next(s, Start(id)).calls, id, |s.entered|);
  }

  lemma SettleProgress(s: State, id: CallId)
    requires CallsOk(s) && Enabled(s, Settle(id))
    ensures Left(Next(s, Settle(id))) < Left(s)
  {
    OneChange(s.calls, Next(s, Settle(id)).calls, id, |s.entered|);
  }

  lemma LeaveProgress(s: State, id: CallId)
    requires CallsOk(s) && Enabled(s, Leave(id))
    ensures Left(Next(s, Leave(id))) < Left(s)
  {
    OneChange(s.calls, Next(s, Leave(id)).calls, id, |s.entered|);
  }

  lemma Progress(s: State, a: Action)
    requires Inv(s) && Internal(a) && Enabled(s, a)
    ensures Left(Next(s, a)) < Left(s)
  {
    match a {
      case Nest(id) => SpendKeepsInv(s, id); NestProgress(s, id);
      case Start(id) => StartProgress(s, id);
      case Settle(id) => SettleProgress(s, id);
      case Leave(id) => LeaveProgress(s, id);
    }
  }

  // A run of enabled actions in which no new top-level call arrives.
  predicate Draining(s: State, actions: seq<Action>)
    decreases |actions|
  {
    actions != [] ==> Internal(actions[0]) && Enabled(s, actions[0]) && Draining(Next(s, actions[0]), actions[1..])
  }

  lemma {:induction false} DrainingIsShort(s: State, actions: seq<Action>)
    requires Inv(s) && Draining(s, actions)
    ensures Inv(Execute(s, actions)) && |actions| + Left(Execute(s, actions)) <= Left(s)
    decreases |actions|
  {
    if actions != [] {
      NextKeepsInv(s, actions[0]);
      Progress(s, actions[0]);
      DrainingIsShort(Next(s, actions[0]), actions[1..]);
    }
  }

  // However the steps interleave, works that all terminate drain every queue in a bounded number of
  // steps, and when nothing can move any more every call ever accepted has had its work run.
  lemma EveryCallRuns(arrivals: seq<Action>, actions: seq<Action>)
    requires Draining(Execute(Initial, arrivals), actions)
    ensures |actions| <= Left(Execute(Initial, arrivals))
    ensures var s := Execute(Execute(Initial, arrivals), actions);
      (exists a :: Internal(a) && Enabled(s, a))
        || (s.calls == map[] && s.locks == map[] && forall id: CallId | id < |s.entered| :: id in s.started)
  {
    RunKeepsInv(Initial, arrivals);
    DrainingIsShort(Execute(Initial, arrivals), actions);
    var s := Execute(Execute(Initial, arrivals), actions);
    if s.calls != map[] {
      NoDeadlock(s);
    } else {
      Drained(s);
    }
  }

  lemma Drained(s: State)
    requires Inv(s) && s.calls == map[]
    ensures s.locks == map[] && forall id: CallId | id < |s.entered| :: id in s.started
  {
    forall key ensures key !in s.locks { assert CallsOn(s, key) == {}; }
    forall id: CallId | id < |s.entered| ensures id in s.started { assert Begun(s, id); }
  }

  // ----- the coordinator itself ------------------------------------------------------------------

  // Every pending call is counted by its lock, so the source's `lock` is still the mapped one when it
  // is counted out.
  lemma PendingIsCounted(s: State, id: CallId)
    requires Inv(s) && id in s.calls
    ensures s.calls[id].key in s.locks && s.locks[s.calls[id].key].count > 0
  {
  }

  /** The lock map as the source keeps it, next to the promises handed out and the history of calls. */
  class Coordinator {
    var locks: map<Key, Lock>
    var calls: map<CallId, Call>
    var entered: seq<Key>
    ghost var started: seq<CallId>

    ghost function Current(): State
      reads this
    {
      State(locks, calls, entered, started)
    }

    constructor ()
      ensures Current() == Initial
    {
      locks, calls, entered, started := map[], map[], [], [];
    }

    // The synchronous part of `coordinated`: everything up to its await. None is the BusyError.
    method Enter(key: Key, parent: Option<CallId>, nested: nat) returns (id: Option<CallId>)
      modifies this
      ensures Busy(old(Current()), key) ==> id == None && Current() == old(Current())
      ensures !Busy(old(Current()), key) ==>
        id == Some(|old(entered)|) && Current() == Chain(old(Current()), key, parent, nested)
    {
      if key !in locks {
        locks := locks[key := Lock(None, 0)];
      }
      if locks[key].count >= MAX_PENDING { return None; }
      var previous := locks[key].tail;
      locks := locks[key := locks[key].(count := locks[key].count + 1)];
      id := Some(|entered|);
      calls := calls[id.value := Call(key, previous, Queued, parent, nested)];
      entered := entered + [key];
      locks := locks[key := locks[key].(tail := id)];
    }

    // The promise this work was chained to has settled.
    method Begin(id: CallId)
      requires Enabled(Current(), Start(id))
      modifies this
      ensures Current() == Next(old(Current()), Start(id))
    {
      calls := calls[id := calls[id].(phase := Running)];
      started := started + [id];
    }

    method Finish(id: CallId)
      requires Enabled(Current(), Settle(id))
      modifies this
      ensures Current() == Next(old(Current()), Settle(id))
    {
      calls := calls[id := calls[id].(phase := Settled)];
    }

    // The finally block: the entry disappears exactly with its last pending call.
    method Release(id: CallId)
      requires Enabled(Current(), Leave(id)) && calls[id].key in locks && locks[calls[id].key].count > 0
      modifies this
      ensures Current() == Next(old(Current()), Leave(id))
    {
      ghost var before := locks;
      var key := calls[id].key;
      calls := calls - {id};
      locks := locks[key := locks[key].(count := locks[key].count - 1)];
      if locks[key].count == 0 {
        locks := locks - {key};
        assert locks == before - {key};
      }
    }
  }
}
