/**
 Admission to the download slots of one origin. Registrations and guarded file selections count the
 active transfers and then write, serialized on `$registration`; every other step runs freely around
 them. Only what the count depends on is kept here: entries, which torrents are listed and complete,
 and for each task the list it counts with.
 */
module SlotAdmission {
  import opened Sets
  import opened Wrappers

  type Hash = string
  type BackendId = string
  type TaskId = nat

  datatype Origin = Search | Store
  datatype Stage = Registering | Settled | Queued  // Settled: any other lifecycle
  datatype Entry = Entry(origin: Origin, backend: BackendId, stage: Stage)

  datatype Kind =
    | Register(origin: Origin, queueIfBusy: bool)  // the torrent is absent: admit, write, submit
    | SelectNew                                    // store link to an incomplete file: admit, write, select
    | PickFile                                     // no selection in the request: select what pickFile chose

  // Each point names the await a task is suspended at.
  datatype Point =
    | QueueHash | QueueSlot | Listing | Counting | SavingQueued | Saving | Submitting | Selecting | Settling

  datatype Task = Task(hash: Hash, kind: Kind, at: Point, listed: map<Hash, bool>)

  datatype State = State(
    backend: BackendId, storeCap: nat,
    entries: map<Hash, Entry>,
    live: map<Hash, bool>,      // torrents of the program's scope in the backend: complete?
    tasks: map<TaskId, Task>)

  function Cap(s: State, o: Origin): nat { if o == Store then s.storeCap else 10 }

  // ----- counting -----------------------------------------------------------------------------

  predicate Unfinished(e: Entry, h: Hash, live: map<Hash, bool>) {
    e.stage == Registering || h !in live || !live[h]
  }

  // The entries that take a slot of origin o, given some list of live torrents (manager.ts:146-151).
  function Occupying(entries: map<Hash, Entry>, backend: BackendId, o: Origin, live: map<Hash, bool>): set<Hash> {
    set h | h in entries && entries[h].backend == backend && entries[h].origin == o
            && entries[h].stage != Queued && Unfinished(entries[h], h, live)
  }

  function Active(s: State, o: Origin): set<Hash> { Occupying(s.entries, s.backend, o, s.live) }

  // What a task counts: the entries now, the list it fetched before, its own hash excluded.
  function Counted(s: State, t: Task, o: Origin): set<Hash> {
    Occupying(s.entries, s.backend, o, t.listed) - {t.hash}
  }

  function OriginOf(s: State, t: Task): Origin {
    if t.hash in s.entries then s.entries[t.hash].origin
    else match t.kind case Register(o, _) => o case _ => Store
  }

  // ----- steps --------------------------------------------------------------------------------

  predicate InSection(t: Task) { t.at != QueueHash }
  predicate InRegistration(t: Task) {
    t.at == Listing || t.at == Counting || t.at == SavingQueued || t.at == Saving || t.at == Submitting
  }

  datatype Choice = Choice(fail: bool, landed: bool, complete: bool)

  predicate HashFree(s: State, h: Hash) { forall u <- s.tasks :: !(InSection(s.tasks[u]) && s.tasks[u].hash == h) }
  predicate RegistrationFree(s: State) { forall u <- s.tasks :: !InRegistration(s.tasks[u]) }

  // The checks made on entering the section (manager.ts:129-140).
  predicate MayStart(s: State, t: Task) {
    match t.kind
    case Register(o, _) => t.hash !in s.live && (t.hash in s.entries ==> s.entries[t.hash].backend == s.backend)
    case SelectNew => t.hash in s.live && t.hash in s.entries && s.entries[t.hash] == Entry(Store, s.backend, Settled)
    case PickFile => t.hash in s.live && t.hash in s.entries
  }

  // What a step writes to its own entry and torrent, and how its task goes on, if it does.
  datatype Outcome = Outcome(entry: Option<Entry>, complete: Option<bool>, next: Option<Task>)

  const Ended := Outcome(None, None, None)

  function Goto(t: Task, at: Point): Outcome { Outcome(None, None, Some(t.(at := at))) }

  function Advance(s: State, t: Task, c: Choice): Outcome {
    match t.at
    case QueueHash =>
      if !HashFree(s, t.hash) then Goto(t, QueueHash)
      else if c.fail || !MayStart(s, t) then Ended
      else Goto(t, if t.kind.PickFile? then Selecting else QueueSlot)
    case QueueSlot => Goto(t, if RegistrationFree(s) then Listing else QueueSlot)
    case Listing => if c.fail then Ended else Goto(t.(listed := s.live), Counting)
    case Counting =>
      var o := OriginOf(s, t);
      if |Counted(s, t, o)| < Cap(s, o) then Goto(t, Saving)
      else if t.kind.Register? && t.kind.queueIfBusy && o == Store then Goto(t, SavingQueued)
      else Ended
    case SavingQueued =>
      if c.fail then Ended else Outcome(Some(Entry(OriginOf(s, t), s.backend, Queued)), None, None)
    case Saving =>
      if c.fail then Ended
      else Outcome(Some(Entry(OriginOf(s, t), s.backend, Registering)), None,
                   Some(t.(at := if t.kind.Register? then Submitting else Selecting)))
    case Submitting =>
      Outcome(None, if c.landed && t.hash !in s.live then Some(false) else None,
              if c.fail then None else Some(t.(at := Settling)))
    case Selecting =>
      Outcome(None, if c.landed && t.hash in s.live then Some(c.complete) else None,
              if c.fail then None else Some(t.(at := Settling)))
    case Settling =>
      if c.fail || t.hash !in s.entries then Ended
      else Outcome(Some(s.entries[t.hash].(stage := Settled)), None, None)
  }

  function Apply(s: State, tid: TaskId, t: Task, o: Outcome): State {
    s.(entries := if o.entry.Some? then s.entries[t.hash := o.entry.value] else s.entries,
       live := if o.complete.Some? then s.live[t.hash := o.complete.value] else s.live,
       tasks := if o.next.Some? then s.tasks[tid := o.next.value] else s.tasks - {tid})
  }

  datatype Action =
    | Spawn(task: TaskId, hash: Hash, kind: Kind)
    | Step(task: TaskId, choice: Choice)
    | Complete(hash: Hash)

  function Next(s: State, a: Action): State {
    match a
    case Spawn(tid, h, kind) =>
      if tid in s.tasks then s else s.(tasks := s.tasks[tid := Task(h, kind, QueueHash, map[])])
    case Step(tid, c) => if tid in s.tasks then Apply(s, tid, s.tasks[tid], Advance(s, s.tasks[tid], c)) else s
    case Complete(h) => if h in s.live then s.(live := s.live[h := true]) else s
  }

  function Execute(s: State, actions: seq<Action>): State
    decreases |actions|
  {
    if actions == [] then s else Execute(Next(s, actions[0]), actions[1..])
  }

  // ----- when the cap can be bypassed ---------------------------------------------------------

  // Selecting files makes a complete torrent incomplete again although no slot was reserved for it.
  predicate Unreserved(s: State, t: Task, c: Choice) {
    && t.at == Selecting && c.landed && t.hash in s.live && s.live[t.hash] && !c.complete
    && !(t.hash in s.entries && s.entries[t.hash].stage == Registering)
  }

  // A record stops being Registering while another admission counts with a list that still shows
  // the torrent complete, although it no longer is; or a queued record becomes managed.
  predicate Unnoticed(s: State, t: Task, c: Choice) {
    && t.at == Settling && !c.fail && t.hash in s.entries
    && !(t.hash in s.live && s.live[t.hash])
    && (s.entries[t.hash].stage == Queued
        || exists u <- s.tasks :: s.tasks[u].at == Counting && t.hash in s.tasks[u].listed && s.tasks[u].listed[t.hash])
  }

  // A counted record of origin o becomes active outside $registration: by an unreserved selection, or
  // because a queued record is made managed while its torrent is not complete.
  predicate TakesSlot(s: State, t: Task, c: Choice, o: Origin) {
    && t.hash in s.entries && s.entries[t.hash].backend == s.backend && s.entries[t.hash].origin == o
    && ((Unreserved(s, t, c) && s.entries[t.hash].stage == Settled)
        || (t.at == Settling && !c.fail && s.entries[t.hash].stage == Queued && !(t.hash in s.live && s.live[t.hash])))
  }

  predicate Orderly(s: State, a: Action) {
    a.Step? && a.task in s.tasks ==>
      var t := s.tasks[a.task]; !Unreserved(s, t, a.choice) && !Unnoticed(s, t, a.choice)
  }

  // The hash that slips past the count in this step, if any.
  function Slip(s: State, a: Action): set<Hash> {
    if a.Step? && a.task in s.tasks && !Orderly(s, a) then {s.tasks[a.task].hash} else {}
  }

  // All that slip in a run, and how often it happens.
  function Slipped(s: State, actions: seq<Action>): set<Hash>
    decreases |actions|
  {
    if actions == [] then {} else Slip(s, actions[0]) + Slipped(Next(s, actions[0]), actions[1..])
  }

  function Slips(s: State, actions: seq<Action>): nat
    decreases |actions|
  {
    if actions == [] then 0 else |Slip(s, actions[0])| + Slips(Next(s, actions[0]), actions[1..])
  }

  // ----- the invariant ------------------------------------------------------------------------

  ghost predicate WithinCap(s: State) { forall o :: |Active(s, o)| <= Cap(s, o) }

  // The active records but those of x.
  function Rest(s: State, o: Origin, x: set<Hash>): set<Hash> { Active(s, o) - x }

  predicate Exclusive(s: State) {
    && (forall t, u | t in s.tasks && u in s.tasks && t != u ::
          !(InSection(s.tasks[t]) && InSection(s.tasks[u]) && s.tasks[t].hash == s.tasks[u].hash))
    && (forall t, u | t in s.tasks && u in s.tasks && t != u ::
          !(InRegistration(s.tasks[t]) && InRegistration(s.tasks[u])))
  }

  ghost predicate TaskOk(s: State, x: set<Hash>, t: Task) {
    var o := OriginOf(s, t);
    match t.at
    case Counting => Rest(s, o, x) - {t.hash} <= Counted(s, t, o)
    case Saving => |Rest(s, o, x) - {t.hash}| < Cap(s, o)
    case Selecting => t.kind.SelectNew? ==> t.hash in s.entries && s.entries[t.hash].stage == Registering
    case _ => true
  }

  // But for the hashes in x, the caps hold and every task's count is good.
  ghost predicate Inv(s: State, x: set<Hash>) {
    && (forall o :: |Rest(s, o, x)| <= Cap(s, o))
    && Exclusive(s)
    && forall tid <- s.tasks :: TaskOk(s, x, s.tasks[tid])
  }

  lemma WithOne<T>(a: set<T>, x: T)
    ensures |a| <= |a - {x}| + 1
  {
    if x in a { assert a == (a - {x}) + {x}; } else { assert a == a - {x}; }
  }

  // The map entry of k, if any, is the same.
  predicate SameAt<K, V(==)>(m: map<K, V>, m': map<K, V>, k: K) {
    (k in m' <==> k in m) && (k in m ==> m'[k] == m[k])
  }

  // A step leaves the entry and the torrent of every other hash alone.
  lemma OtherHashes(s: State, tid: TaskId, c: Choice, h: Hash)
    requires tid in s.tasks && h != s.tasks[tid].hash
    ensures var s' := Next(s, Step(tid, c));
      && SameAt(s.entries, s'.entries, h) && SameAt(s.live, s'.live, h)
      && s'.backend == s.backend && s'.storeCap == s.storeCap
  {
    ApplyElsewhere(s, tid, s.tasks[tid], Advance(s, s.tasks[tid], c), h);
  }

  lemma ApplyElsewhere(s: State, tid: TaskId, t: Task, o: Outcome, h: Hash)
    requires h != t.hash
    ensures SameAt(s.entries, Apply(s, tid, t, o).entries, h) && SameAt(s.live, Apply(s, tid, t, o).live, h)
  {
  }

  // A task makes its own hash active only by saving under $registration or by taking a slot.
  lemma OwnHash(s: State, tid: TaskId, c: Choice, o: Origin)
    requires tid in s.tasks && s.tasks[tid].at != Saving && !TakesSlot(s, s.tasks[tid], c, o)
    requires s.tasks[tid].hash in Active(Next(s, Step(tid, c)), o)
    ensures s.tasks[tid].hash in Active(s, o)
  {
    var t := s.tasks[tid];
    match t.at {
      case SavingQueued => if c.fail {}
      case Submitting => if c.fail {} else {}
      case Selecting => if c.fail {} else {}
      case Settling => if c.fail {} else {}
      case _ =>
    }
  }

  lemma StepGrowth(s: State, tid: TaskId, c: Choice, o: Origin)
    requires tid in s.tasks
    ensures var t := s.tasks[tid]; var s' := Next(s, Step(tid, c));
      && Active(s', o) <= Active(s, o) + {t.hash}
      && (t.at != Saving && !TakesSlot(s, t, c, o) ==> Active(s', o) <= Active(s, o))
  {
    var t, s' := s.tasks[tid], Next(s, Step(tid, c));
    forall h | h in Active(s', o) ensures h in Active(s, o) + {t.hash} {
      if h != t.hash { OtherHashes(s, tid, c, h); }
    }
    if t.at != Saving && !TakesSlot(s, t, c, o) {
      forall h | h in Active(s', o) ensures h in Active(s, o) {
        if h != t.hash { OtherHashes(s, tid, c, h); } else { OwnHash(s, tid, c, o); }
      }
    }
  }

  lemma TakingGrows(s: State, tid: TaskId, c: Choice, o: Origin)
    requires tid in s.tasks && TakesSlot(s, s.tasks[tid], c, o)
    ensures |Active(Next(s, Step(tid, c)), o)| == |Active(s, o)| + 1
  {
    var t, s' := s.tasks[tid], Next(s, Step(tid, c));
    forall h ensures h in Active(s', o) <==> h in Active(s, o) + {t.hash} {
      if h != t.hash { OtherHashes(s, tid, c, h); } else { TakesItsOwn(s, tid, c, o); }
    }
    assert Active(s', o) == Active(s, o) + {t.hash};
    TakesItsOwn(s, tid, c, o);
  }

  lemma TakesItsOwn(s: State, tid: TaskId, c: Choice, o: Origin)
    requires tid in s.tasks && TakesSlot(s, s.tasks[tid], c, o)
    ensures s.tasks[tid].hash !in Active(s, o) && s.tasks[tid].hash in Active(Next(s, Step(tid, c)), o)
  {
    if s.tasks[tid].at == Selecting { if c.fail {} else {} }
  }

  // ----- one step keeps the invariant ---------------------------------------------------------

  // What is active behind a step was active, or is saved by it, or slips.
  lemma RestAfter(s: State, x: set<Hash>, tid: TaskId, c: Choice, o: Origin)
    requires tid in s.tasks
    ensures var t := s.tasks[tid]; var s', x' := Next(s, Step(tid, c)), x + Slip(s, Step(tid, c));
      && Rest(s', o, x') <= Rest(s, o, x) + {t.hash}
      && (t.at != Saving ==> Rest(s', o, x') <= Rest(s, o, x))
  {
    StepGrowth(s, tid, c, o);
  }

  lemma BystanderOk(s: State, x: set<Hash>, tid: TaskId, c: Choice, u: TaskId)
    requires Inv(s, x) && tid in s.tasks && u in s.tasks && u != tid
    ensures TaskOk(Next(s, Step(tid, c)), x + Slip(s, Step(tid, c)), s.tasks[u])
  {
    assert TaskOk(s, x, s.tasks[u]);
    if InSection(s.tasks[u]) {
      if s.tasks[tid].hash == s.tasks[u].hash { WaitsOutside(s, x, tid, c, u); } else { NeighbourOk(s, x, tid, c, u); }
    }
  }

  // A task of the same hash is waiting for the section, so nothing happens.
  lemma WaitsOutside(s: State, x: set<Hash>, tid: TaskId, c: Choice, u: TaskId)
    requires Exclusive(s) && tid in s.tasks && u in s.tasks && u != tid && TaskOk(s, x, s.tasks[u])
    requires InSection(s.tasks[u]) && s.tasks[tid].hash == s.tasks[u].hash
    ensures TaskOk(Next(s, Step(tid, c)), x + Slip(s, Step(tid, c)), s.tasks[u])
  {
    assert !HashFree(s, s.tasks[tid].hash);
    assert s.tasks[tid := s.tasks[tid]] == s.tasks;
    assert Next(s, Step(tid, c)) == s;
    NoSlip(s, x, tid, c);
  }

  // Only the last steps of a section can slip.
  lemma NoSlip(s: State, x: set<Hash>, tid: TaskId, c: Choice)
    requires tid in s.tasks && s.tasks[tid].at != Selecting && s.tasks[tid].at != Settling
    ensures x + Slip(s, Step(tid, c)) == x
  {
  }

  lemma NeighbourOk(s: State, x: set<Hash>, tid: TaskId, c: Choice, u: TaskId)
    requires Exclusive(s) && tid in s.tasks && u in s.tasks && u != tid && TaskOk(s, x, s.tasks[u])
    requires s.tasks[tid].hash != s.tasks[u].hash
    ensures TaskOk(Next(s, Step(tid, c)), x + Slip(s, Step(tid, c)), s.tasks[u])
  {
    var w := s.tasks[u];
    OtherHashes(s, tid, c, w.hash);
    match w.at {
      case Counting => StillAllCounted(s, x, tid, c, u, OriginOf(s, w));
      case Saving => StillRoom(s, x, tid, c, w, OriginOf(s, w)); SameCap(s, tid, c, OriginOf(s, w));
      case _ =>
    }
  }

  lemma StillRoom(s: State, x: set<Hash>, tid: TaskId, c: Choice, w: Task, o: Origin)
    requires tid in s.tasks && s.tasks[tid].at != Saving && |Rest(s, o, x) - {w.hash}| < Cap(s, o)
    ensures |Rest(Next(s, Step(tid, c)), o, x + Slip(s, Step(tid, c))) - {w.hash}| < Cap(s, o)
  {
    RestAfter(s, x, tid, c, o);
    SubsetSize(Rest(Next(s, Step(tid, c)), o, x + Slip(s, Step(tid, c))) - {w.hash}, Rest(s, o, x) - {w.hash});
  }

  lemma StillAllCounted(s: State, x: set<Hash>, tid: TaskId, c: Choice, u: TaskId, o: Origin)
    requires tid in s.tasks && u in s.tasks && s.tasks[u].at == Counting && !InRegistration(s.tasks[tid])
    requires Rest(s, o, x) - {s.tasks[u].hash} <= Counted(s, s.tasks[u], o)
    ensures var s', x' := Next(s, Step(tid, c)), x + Slip(s, Step(tid, c));
      Rest(s', o, x') - {s.tasks[u].hash} <= Counted(s', s.tasks[u], o)
  {
    var t, w, s', x' := s.tasks[tid], s.tasks[u], Next(s, Step(tid, c)), x + Slip(s, Step(tid, c));
    RestAfter(s, x, tid, c, o);
    forall h | h in Rest(s', o, x') - {w.hash} ensures h in Counted(s', w, o) {
      assert h in Counted(s, w, o);
      if h != t.hash { OtherHashes(s, tid, c, h); } else { StillCounted(s, tid, c, u, o); }
    }
  }

  // The acting task's own hash, if it is still active, is still counted by a task that is counting.
  lemma StillCounted(s: State, tid: TaskId, c: Choice, u: TaskId, o: Origin)
    requires tid in s.tasks && u in s.tasks && s.tasks[u].at == Counting && !InRegistration(s.tasks[tid])
    requires Orderly(s, Step(tid, c)) && s.tasks[tid].hash in Counted(s, s.tasks[u], o)
    requires s.tasks[tid].hash in Active(Next(s, Step(tid, c)), o)
    ensures s.tasks[tid].hash in Counted(Next(s, Step(tid, c)), s.tasks[u], o)
  {
    var t := s.tasks[tid];
    match t.at { case Settling => if c.fail {} else {} case Selecting => case _ => }
  }

  lemma ActorOk(s: State, x: set<Hash>, tid: TaskId, c: Choice)
    requires Inv(s, x) && tid in s.tasks && tid in Next(s, Step(tid, c)).tasks
    ensures TaskOk(Next(s, Step(tid, c)), x + Slip(s, Step(tid, c)), Next(s, Step(tid, c)).tasks[tid])
  {
    var t := s.tasks[tid];
    if t.at == Counting {
      AdmittedOk(s, x, tid, c);
      NoSlip(s, x, tid, c);
    } else if t.at == Listing {
      ListedOk(s, x, tid, c);
    } else if t.at == Saving {
      SavedOk(s, x, tid, c);
    } else {
      ElsewhereOk(s, x, tid, c);
    }
  }

  lemma SavedOk(s: State, x: set<Hash>, tid: TaskId, c: Choice)
    requires tid in s.tasks && s.tasks[tid].at == Saving && tid in Next(s, Step(tid, c)).tasks
    ensures TaskOk(Next(s, Step(tid, c)), x + Slip(s, Step(tid, c)), Next(s, Step(tid, c)).tasks[tid])
  {
  }

  // The list that is counted is fixed.
  lemma ListedOk(s: State, x: set<Hash>, tid: TaskId, c: Choice)
    requires tid in s.tasks && s.tasks[tid].at == Listing && tid in Next(s, Step(tid, c)).tasks
    ensures TaskOk(Next(s, Step(tid, c)), x + Slip(s, Step(tid, c)), Next(s, Step(tid, c)).tasks[tid])
  {
  }

  // Elsewhere the step leads to a point that promises nothing new.
  lemma ElsewhereOk(s: State, x: set<Hash>, tid: TaskId, c: Choice)
    requires tid in s.tasks && TaskOk(s, x, s.tasks[tid]) && tid in Next(s, Step(tid, c)).tasks
    requires s.tasks[tid].at != Counting && s.tasks[tid].at != Saving && s.tasks[tid].at != Listing
    ensures TaskOk(Next(s, Step(tid, c)), x + Slip(s, Step(tid, c)), Next(s, Step(tid, c)).tasks[tid])
  {
    LeadsOn(s, tid, c);
  }

  lemma LeadsOn(s: State, tid: TaskId, c: Choice)
    requires tid in s.tasks && tid in Next(s, Step(tid, c)).tasks
    requires s.tasks[tid].at != Counting && s.tasks[tid].at != Saving && s.tasks[tid].at != Listing
    ensures var t, t' := s.tasks[tid], Next(s, Step(tid, c)).tasks[tid];
      t'.at != Counting && t'.at != Saving && (t'.at == Selecting ==> t'.kind.PickFile?)
  {
    match s.tasks[tid].at {
      case Submitting => if c.fail {} else {}
      case Selecting => if c.fail {} else {}
      case _ =>
    }
  }

  lemma AdmittedOk(s: State, x: set<Hash>, tid: TaskId, c: Choice)
    requires tid in s.tasks && TaskOk(s, x, s.tasks[tid]) && s.tasks[tid].at == Counting
    requires tid in Next(s, Step(tid, c)).tasks
    ensures TaskOk(Next(s, Step(tid, c)), x, Next(s, Step(tid, c)).tasks[tid])
  {
    var t := s.tasks[tid];
    var o := OriginOf(s, t);
    if |Counted(s, t, o)| < Cap(s, o) {
      CountingOk(s, x, t);
      assert Next(s, Step(tid, c)) == Apply(s, tid, t, Goto(t, Saving));
      StaysOk(s, Apply(s, tid, t, Goto(t, Saving)), x, t.(at := Saving));
    } else {
      assert Next(s, Step(tid, c)) == Apply(s, tid, t, Goto(t, SavingQueued));
    }
  }

  // Counting fewer than the cap leaves room for one more active record.
  lemma CountingOk(s: State, x: set<Hash>, t: Task)
    requires t.at == Counting && TaskOk(s, x, t) && |Counted(s, t, OriginOf(s, t))| < Cap(s, OriginOf(s, t))
    ensures TaskOk(s, x, t.(at := Saving))
  {
    var o := OriginOf(s, t);
    SubsetSize(Rest(s, o, x) - {t.hash}, Counted(s, t, o));
  }

  lemma StepKeepsCap(s: State, x: set<Hash>, tid: TaskId, c: Choice, o: Origin)
    requires Inv(s, x) && tid in s.tasks
    ensures |Rest(Next(s, Step(tid, c)), o, x + Slip(s, Step(tid, c)))| <= Cap(s, o)
  {
    var t, s', x' := s.tasks[tid], Next(s, Step(tid, c)), x + Slip(s, Step(tid, c));
    RestAfter(s, x, tid, c, o);
    if t.at == Saving && o == OriginOf(s, t) {
      WithOne(Rest(s', o, x'), t.hash);
      SubsetSize(Rest(s', o, x') - {t.hash}, Rest(s, o, x) - {t.hash});
    } else if t.at == Saving {
      SavesAnotherOrigin(s, tid, c, o);
      SubsetSize(Rest(s', o, x'), Rest(s, o, x));
    } else {
      SubsetSize(Rest(s', o, x'), Rest(s, o, x));
    }
  }

  lemma SavesAnotherOrigin(s: State, tid: TaskId, c: Choice, o: Origin)
    requires tid in s.tasks && s.tasks[tid].at == Saving && o != OriginOf(s, s.tasks[tid])
    ensures Active(Next(s, Step(tid, c)), o) <= Active(s, o)
  {
    forall h | h in Active(Next(s, Step(tid, c)), o) ensures h in Active(s, o) {
      if h != s.tasks[tid].hash { OtherHashes(s, tid, c, h); }
    }
  }

  // A step replaces or ends its own task, and enters a section only when it is free.
  predicate MovesTo(s: State, t: Task, t': Task) {
    && t'.hash == t.hash
    && (InSection(t') ==> InSection(t) || HashFree(s, t.hash))
    && (InRegistration(t') ==> InRegistration(t) || RegistrationFree(s))
  }

  lemma TaskMoves(s: State, t: Task, c: Choice)
    ensures var next := Advance(s, t, c).next; next.Some? ==> MovesTo(s, t, next.value)
  {
  }

  lemma StepKeepsExclusive(s: State, tid: TaskId, c: Choice)
    requires Exclusive(s) && tid in s.tasks
    ensures Exclusive(Next(s, Step(tid, c)))
  {
    TaskMoves(s, s.tasks[tid], c);
    var s' := Next(s, Step(tid, c));
    forall u | u in s'.tasks && u != tid ensures u in s.tasks && s'.tasks[u] == s.tasks[u] {}
  }

  lemma StepKeepsInv(s: State, x: set<Hash>, tid: TaskId, c: Choice)
    requires Inv(s, x) && tid in s.tasks
    ensures Inv(Next(s, Step(tid, c)), x + Slip(s, Step(tid, c)))
  {
    var s', x' := Next(s, Step(tid, c)), x + Slip(s, Step(tid, c));
    TaskMoves(s, s.tasks[tid], c);
    StepKeepsExclusive(s, tid, c);
    forall o ensures |Rest(s', o, x')| <= Cap(s', o) { StepKeepsCap(s, x, tid, c, o); SameCap(s, tid, c, o); }
    forall u <- s'.tasks ensures TaskOk(s', x', s'.tasks[u]) {
      if u == tid {
        ActorOk(s, x, tid, c);
      } else {
        BystanderOk(s, x, tid, c, u);
      }
    }
  }

  lemma SameCap(s: State, tid: TaskId, c: Choice, o: Origin)
    requires tid in s.tasks
    ensures Cap(Next(s, Step(tid, c)), o) == Cap(s, o)
  {
    OtherHashes(s, tid, c, s.tasks[tid].hash + "x");
  }

  lemma NextKeepsInv(s: State, x: set<Hash>, a: Action)
    requires Inv(s, x)
    ensures Inv(Next(s, a), x + Slip(s, a))
  {
    match a {
      case Step(tid, c) => if tid in s.tasks { StepKeepsInv(s, x, tid, c); } else { assert x + {} == x; }
      case Spawn(tid, h, kind) => SpawnKeepsInv(s, x, tid, h, kind); assert x + {} == x;
      case Complete(h) => CompleteKeepsInv(s, x, h); assert x + {} == x;
    }
  }

  lemma SpawnKeepsInv(s: State, x: set<Hash>, tid: TaskId, h: Hash, kind: Kind)
    requires Inv(s, x)
    ensures Inv(Next(s, Spawn(tid, h, kind)), x)
  {
    var s' := Next(s, Spawn(tid, h, kind));
    SpawnChangesNothing(s, tid, h, kind);
    forall u <- s'.tasks ensures TaskOk(s', x, s'.tasks[u]) {
      if u in s.tasks {
        assert TaskOk(s, x, s.tasks[u]);
        StaysOk(s, s', x, s.tasks[u]);
      }
    }
  }

  lemma SpawnChangesNothing(s: State, tid: TaskId, h: Hash, kind: Kind)
    requires Exclusive(s)
    ensures var s' := Next(s, Spawn(tid, h, kind));
      && s' == s.(tasks := s'.tasks) && Exclusive(s')
      && forall o :: Active(s', o) == Active(s, o) && Cap(s', o) == Cap(s, o)
  {
  }

  lemma StaysOk(s: State, s': State, x: set<Hash>, t: Task)
    requires s' == s.(tasks := s'.tasks) && TaskOk(s, x, t)
    ensures TaskOk(s', x, t)
  {
    var o := OriginOf(s, t);
    assert OriginOf(s', t) == o && Active(s', o) == Active(s, o);
    assert Cap(s', o) == Cap(s, o) && Counted(s', t, o) == Counted(s, t, o);
  }

  lemma CompletesActive(s: State, h: Hash, o: Origin)
    ensures Active(Next(s, Complete(h)), o) <= Active(s, o)
  {
  }

  lemma CompleteKeepsInv(s: State, x: set<Hash>, h: Hash)
    requires Inv(s, x)
    ensures Inv(Next(s, Complete(h)), x)
  {
    var s' := Next(s, Complete(h));
    forall o ensures |Rest(s', o, x)| <= Cap(s', o) {
      CompletesActive(s, h, o);
      SubsetSize(Rest(s', o, x), Rest(s, o, x));
    }
    forall u <- s.tasks ensures TaskOk(s', x, s.tasks[u]) { CompleteKeepsTask(s, x, h, s.tasks[u]); }
  }

  lemma CompleteKeepsTask(s: State, x: set<Hash>, h: Hash, t: Task)
    requires TaskOk(s, x, t)
    ensures TaskOk(Next(s, Complete(h)), x, t)
  {
    var o, s' := OriginOf(s, t), Next(s, Complete(h));
    CompletesActive(s, h, o);
    match t.at {
      case Counting => CompleteCounts(s, h, t, o);
      case Saving => CompleteKeepsRoom(s, x, h, t, o);
      case _ =>
    }
  }

  lemma CompleteKeepsRoom(s: State, x: set<Hash>, h: Hash, t: Task, o: Origin)
    requires |Rest(s, o, x) - {t.hash}| < Cap(s, o)
    ensures |Rest(Next(s, Complete(h)), o, x) - {t.hash}| < Cap(Next(s, Complete(h)), o)
  {
    CompletesActive(s, h, o);
    SubsetSize(Rest(Next(s, Complete(h)), o, x) - {t.hash}, Rest(s, o, x) - {t.hash});
  }

  lemma CompleteCounts(s: State, h: Hash, t: Task, o: Origin)
    ensures Counted(Next(s, Complete(h)), t, o) == Counted(s, t, o)
  {
  }

  // ----- the theorems -------------------------------------------------------------------------

  lemma {:induction false} RunKeepsInv(s: State, x: set<Hash>, actions: seq<Action>)
    requires Inv(s, x)
    ensures Inv(Execute(s, actions), x + Slipped(s, actions))
    decreases |actions|
  {
    if actions == [] {
      assert x + {} == x;
    } else {
      var x' := x + Slip(s, actions[0]);
      NextKeepsInv(s, x, actions[0]);
      RunKeepsInv(Next(s, actions[0]), x', actions[1..]);
      assert x' + Slipped(Next(s, actions[0]), actions[1..]) == x + Slipped(s, actions);
    }
  }

  lemma {:induction false} SlippedAreFew(s: State, actions: seq<Action>)
    ensures |Slipped(s, actions)| <= Slips(s, actions)
    decreases |actions|
  {
    if actions != [] {
      var a, b := Slip(s, actions[0]), Slipped(Next(s, actions[0]), actions[1..]);
      SlippedAreFew(Next(s, actions[0]), actions[1..]);
      assert |a + b| == |a| + |b| - |a * b|;
    }
  }

  // In every run from a state within the caps, whatever its tasks and its schedule, the caps hold for all
  // records but those that slipped past a count: the number of active records of an origin exceeds its cap by
  // no more than the number of steps that slip, and not at all if none does.
  lemma AdmissionCap(s: State, actions: seq<Action>, o: Origin)
    requires Inv(s, {})
    ensures var s' := Execute(s, actions);
      && |Active(s', o) - Slipped(s, actions)| <= Cap(s', o)
      && |Active(s', o)| <= Cap(s', o) + Slips(s, actions)
  {
    var s', x := Execute(s, actions), Slipped(s, actions);
    RunKeepsInv(s, {}, actions);
    assert {} + x == x;
    SlippedAreFew(s, actions);
    SubsetSize(Active(s', o), Rest(s', o, x) + x);
    assert |Rest(s', o, x) + x| == |Rest(s', o, x)| + |x| - |Rest(s', o, x) * x|;
  }

  // With no task running, being within the caps is enough to start from.
  lemma IdleIsOrdered(s: State)
    requires WithinCap(s) && s.tasks == map[]
    ensures Inv(s, {})
  {
    forall o ensures Rest(s, o, {}) == Active(s, o) {}
  }

  // Saving makes a record active that was not.
  predicate SavesNew(s: State, t: Task, c: Choice, o: Origin) {
    t.at == Saving && !c.fail && OriginOf(s, t) == o && t.hash !in Active(s, o)
  }

  // From any state within the cap of an origin, a step exceeds it exactly when the cap is reached and the step
  // either makes a counted record active outside $registration, or saves a record that was not active, on a
  // count that is no longer true.
  lemma ExceededExactly(s: State, tid: TaskId, c: Choice, o: Origin)
    requires |Active(s, o)| <= Cap(s, o) && tid in s.tasks
    ensures |Active(Next(s, Step(tid, c)), o)| > Cap(s, o) <==>
      |Active(s, o)| == Cap(s, o) && (TakesSlot(s, s.tasks[tid], c, o) || SavesNew(s, s.tasks[tid], c, o))
  {
    if TakesSlot(s, s.tasks[tid], c, o) {
      TakingGrows(s, tid, c, o);
    } else if SavesNew(s, s.tasks[tid], c, o) {
      SavingGrows(s, tid, c, o);
    } else {
      NothingNew(s, tid, c, o);
      SubsetSize(Active(Next(s, Step(tid, c)), o), Active(s, o));
    }
  }

  lemma SavingGrows(s: State, tid: TaskId, c: Choice, o: Origin)
    requires tid in s.tasks && SavesNew(s, s.tasks[tid], c, o)
    ensures |Active(Next(s, Step(tid, c)), o)| == |Active(s, o)| + 1
  {
    var t, s' := s.tasks[tid], Next(s, Step(tid, c));
    SavedIsActive(s, tid, c, o);
    forall h ensures h in Active(s', o) <==> h in Active(s, o) + {t.hash} {
      if h != t.hash { OtherHashes(s, tid, c, h); }
    }
    assert Active(s', o) == Active(s, o) + {t.hash};
  }

  lemma SavedIsActive(s: State, tid: TaskId, c: Choice, o: Origin)
    requires tid in s.tasks && SavesNew(s, s.tasks[tid], c, o)
    ensures s.tasks[tid].hash in Active(Next(s, Step(tid, c)), o)
  {
  }

  lemma NothingNew(s: State, tid: TaskId, c: Choice, o: Origin)
    requires tid in s.tasks && !TakesSlot(s, s.tasks[tid], c, o) && !SavesNew(s, s.tasks[tid], c, o)
    ensures Active(Next(s, Step(tid, c)), o) <= Active(s, o)
  {
    var t := s.tasks[tid];
    StepGrowth(s, tid, c, o);
    if t.at == Saving {
      if c.fail { FailedSaves(s, tid, c, o); } else if OriginOf(s, t) != o { SavesAnotherOrigin(s, tid, c, o); }
    }
  }

  lemma FailedSaves(s: State, tid: TaskId, c: Choice, o: Origin)
    requires tid in s.tasks && s.tasks[tid].at == Saving && c.fail
    ensures Active(Next(s, Step(tid, c)), o) == Active(s, o)
  {
  }

  // ----- registrations alone ------------------------------------------------------------------

  // While nobody selects files, a torrent listed as complete stays complete, and what a registration settles
  // is what it has registered.
  ghost predicate RegisterOnly(s: State) {
    && Exclusive(s)
    && forall tid <- s.tasks :: RegisterOk(s, s.tasks[tid])
  }

  predicate RegisterOk(s: State, t: Task) {
    && t.kind.Register? && t.at != Selecting
    && (t.at == Counting ==> forall h <- t.listed :: t.listed[h] ==> h in s.live && s.live[h])
    && (t.at == Submitting || t.at == Settling ==> t.hash in s.entries && s.entries[t.hash].stage == Registering)
  }

  predicate Registers(a: Action) { a.Spawn? ==> a.kind.Register? }

  lemma RegistrationIsOrderly(s: State, a: Action)
    requires RegisterOnly(s)
    ensures Orderly(s, a)
  {
    if a.Step? && a.task in s.tasks {
      var t := s.tasks[a.task];
      forall u <- s.tasks | s.tasks[u].at == Counting && t.hash in s.tasks[u].listed && s.tasks[u].listed[t.hash]
        ensures t.hash in s.live && s.live[t.hash]
      {
        assert RegisterOk(s, s.tasks[u]);
      }
    }
  }

  lemma RegisterStaysComplete(s: State, tid: TaskId, c: Choice, h: Hash)
    requires tid in s.tasks && RegisterOk(s, s.tasks[tid]) && h in s.live && s.live[h]
    ensures var s' := Next(s, Step(tid, c)); h in s'.live && s'.live[h]
  {
    if s.tasks[tid].at == Submitting { if c.fail {} else {} }
  }

  lemma RegisterActor(s: State, tid: TaskId, c: Choice)
    requires tid in s.tasks && RegisterOk(s, s.tasks[tid]) && tid in Next(s, Step(tid, c)).tasks
    ensures RegisterOk(Next(s, Step(tid, c)), Next(s, Step(tid, c)).tasks[tid])
  {
    match s.tasks[tid].at {
      case Listing => if c.fail {} else {}
      case Saving => if c.fail {} else {}
      case Submitting => if c.fail {} else {}
      case _ =>
    }
  }

  lemma RegisterBystander(s: State, tid: TaskId, c: Choice, u: TaskId)
    requires RegisterOnly(s) && tid in s.tasks && u in s.tasks && u != tid
    ensures RegisterOk(Next(s, Step(tid, c)), s.tasks[u])
  {
    var t, w, s' := s.tasks[tid], s.tasks[u], Next(s, Step(tid, c));
    assert RegisterOk(s, t) && RegisterOk(s, w);
    if w.at == Counting {
      forall h <- w.listed | w.listed[h] ensures h in s'.live && s'.live[h] { RegisterStaysComplete(s, tid, c, h); }
    }
    if w.at == Submitting || w.at == Settling {
      if t.hash != w.hash { OtherHashes(s, tid, c, w.hash); } else { QueuesOutside(s, tid, c); }
    }
  }

  // A task outside the section of its hash changes no entry.
  lemma QueuesOutside(s: State, tid: TaskId, c: Choice)
    requires tid in s.tasks && !InSection(s.tasks[tid])
    ensures Next(s, Step(tid, c)).entries == s.entries
  {
  }

  lemma NextKeepsRegisterOnly(s: State, a: Action)
    requires RegisterOnly(s) && Registers(a)
    ensures RegisterOnly(Next(s, a))
  {
    match a {
      case Step(tid, c) =>
        if tid in s.tasks {
          var s' := Next(s, a);
          StepKeepsExclusive(s, tid, c);
          TaskMoves(s, s.tasks[tid], c);
          forall u <- s'.tasks ensures RegisterOk(s', s'.tasks[u]) {
            if u == tid {
              RegisterActor(s, tid, c);
            } else {
              RegisterBystander(s, tid, c, u);
            }
          }
        }
      case Spawn(tid, h, kind) => SpawnKeepsRegisterOnly(s, tid, h, kind);
      case Complete(h) =>
    }
  }

  lemma SpawnKeepsRegisterOnly(s: State, tid: TaskId, h: Hash, kind: Kind)
    requires RegisterOnly(s) && kind.Register?
    ensures RegisterOnly(Next(s, Spawn(tid, h, kind)))
  {
    SpawnChangesNothing(s, tid, h, kind);
    var s' := Next(s, Spawn(tid, h, kind));
    forall u <- s'.tasks ensures RegisterOk(s', s'.tasks[u]) { if u in s.tasks { assert RegisterOk(s, s.tasks[u]); } }
  }

  lemma {:induction false} RegistrationsNeverSlip(s: State, actions: seq<Action>)
    requires RegisterOnly(s) && forall a <- actions :: Registers(a)
    ensures Slips(s, actions) == 0
    decreases |actions|
  {
    if actions != [] {
      RegistrationIsOrderly(s, actions[0]);
      NextKeepsRegisterOnly(s, actions[0]);
      RegistrationsNeverSlip(Next(s, actions[0]), actions[1..]);
    }
  }

  // However registrations of any number of hashes interleave, from any state within the caps, neither cap is
  // ever exceeded.
  lemma RegistrationsKeepTheCap(s: State, actions: seq<Action>)
    requires WithinCap(s) && s.tasks == map[] && forall a <- actions :: Registers(a)
    ensures WithinCap(Execute(s, actions))
  {
    IdleIsOrdered(s);
    RegistrationsNeverSlip(s, actions);
    forall o ensures |Active(Execute(s, actions), o)| <= Cap(Execute(s, actions), o) { AdmissionCap(s, actions, o); }
  }

  // ----- a free slot is given ----------------------------------------------------------------

  // The origin a request is counted under: that of the record there is, or else its own.
  function Asked(s: State, h: Hash, kind: Kind): Origin {
    if h in s.entries then s.entries[h].origin else if kind.Register? then kind.origin else Store
  }

  // The other hashes that take a slot of origin o, as far as the list shows.
  function Others(s: State, h: Hash, o: Origin, listed: map<Hash, bool>): set<Hash> {
    set x | x in s.entries && x != h && s.entries[x].backend == s.backend && s.entries[x].origin == o
            && !s.entries[x].stage.Queued?
            && (s.entries[x].stage.Registering? || x !in listed || listed[x] == false)
  }

  predicate FreeSlot(s: State, h: Hash, o: Origin, listed: map<Hash, bool>) {
    |Others(s, h, o, listed)| < if o.Store? then s.storeCap else 10
  }

  // A request that has counted goes on to save if and only if there is a free slot; otherwise it is queued if it
  // is a store registration that may be, and in every other case refused. Nothing else changes.
  lemma AdmittedExactly(s: State, tid: TaskId, c: Choice)
    requires tid in s.tasks && s.tasks[tid].at == Counting
    ensures var t, s' := s.tasks[tid], Next(s, Step(tid, c));
      var o := Asked(s, t.hash, t.kind);
      && s' == s.(tasks := s'.tasks)
      && (FreeSlot(s, t.hash, o, t.listed) ==> tid in s'.tasks && s'.tasks[tid] == t.(at := Saving))
      && (!FreeSlot(s, t.hash, o, t.listed) ==>
            if t.kind.Register? && t.kind.queueIfBusy && o.Store?
            then tid in s'.tasks && s'.tasks[tid] == t.(at := SavingQueued)
            else tid !in s'.tasks)
  {
    CountsTheOthers(s, s.tasks[tid]);
  }

  lemma CountsTheOthers(s: State, t: Task)
    ensures var o := Asked(s, t.hash, t.kind);
      OriginOf(s, t) == o && (|Counted(s, t, o)| < Cap(s, o) <==> FreeSlot(s, t.hash, o, t.listed))
  {
    var o := Asked(s, t.hash, t.kind);
    assert Counted(s, t, o) == Others(s, t.hash, o, t.listed);
  }

  const Fine := Choice(false, true, false)  // every call goes through

  function Steps(s: State, tid: TaskId, n: nat): State {
    if n == 0 then s else Next(Steps(s, tid, n - 1), Step(tid, Fine))
  }

  function With(s: State, tid: TaskId, t: Task): State { s.(tasks := s.tasks[tid := t]) }

  // Nothing stands in the way of registering h.
  predicate MayRegister(s: State, tid: TaskId, h: Hash) {
    && tid !in s.tasks && HashFree(s, h) && RegistrationFree(s)
    && h !in s.live && (h in s.entries ==> s.entries[h].backend == s.backend)
  }

  lemma MovesOn(s: State, tid: TaskId, t: Task, next: Task)
    ensures Apply(With(s, tid, t), tid, t, Outcome(None, None, Some(next))) == With(s, tid, next)
  {
    assert s.tasks[tid := t][tid := next] == s.tasks[tid := next];
  }

  lemma EntersSection(s: State, tid: TaskId, t: Task)
    requires MayRegister(s, tid, t.hash) && t.kind.Register? && t.at == QueueHash
    ensures Next(With(s, tid, t), Step(tid, Fine)) == With(s, tid, t.(at := QueueSlot))
  {
    assert HashFree(With(s, tid, t), t.hash) && MayStart(With(s, tid, t), t);
    MovesOn(s, tid, t, t.(at := QueueSlot));
  }

  lemma EntersRegistration(s: State, tid: TaskId, t: Task)
    requires MayRegister(s, tid, t.hash) && t.at == QueueSlot
    ensures Next(With(s, tid, t), Step(tid, Fine)) == With(s, tid, t.(at := Listing))
  {
    assert RegistrationFree(With(s, tid, t));
    MovesOn(s, tid, t, t.(at := Listing));
  }

  lemma FetchesList(s: State, tid: TaskId, t: Task)
    requires t.at == Listing
    ensures Next(With(s, tid, t), Step(tid, Fine)) == With(s, tid, t.(listed := s.live, at := Counting))
  {
    MovesOn(s, tid, t, t.(listed := s.live, at := Counting));
  }

  lemma IsAdmitted(s: State, tid: TaskId, t: Task)
    requires t.at == Counting && FreeSlot(s, t.hash, Asked(s, t.hash, t.kind), t.listed)
    ensures Next(With(s, tid, t), Step(tid, Fine)) == With(s, tid, t.(at := Saving))
  {
    var o := Asked(s, t.hash, t.kind);
    assert Others(With(s, tid, t), t.hash, o, t.listed) == Others(s, t.hash, o, t.listed);
    AdmittedExactly(With(s, tid, t), tid, Fine);
    MovesOn(s, tid, t, t.(at := Saving));
  }

  lemma Saves(s: State, tid: TaskId, t: Task)
    requires t.at == Saving && t.kind.Register?
    ensures Next(With(s, tid, t), Step(tid, Fine)) ==
      With(s.(entries := s.entries[t.hash := Entry(Asked(s, t.hash, t.kind), s.backend, Registering)]), tid,
           t.(at := Submitting))
  {
    assert OriginOf(With(s, tid, t), t) == Asked(s, t.hash, t.kind);
    assert s.tasks[tid := t][tid := t.(at := Submitting)] == s.tasks[tid := t.(at := Submitting)];
  }

  lemma Submits(s: State, tid: TaskId, t: Task)
    requires t.at == Submitting && t.hash !in s.live
    ensures Next(With(s, tid, t), Step(tid, Fine)) ==
      With(s.(live := s.live[t.hash := false]), tid, t.(at := Settling))
  {
    assert s.tasks[tid := t][tid := t.(at := Settling)] == s.tasks[tid := t.(at := Settling)];
  }

  lemma Settles(s: State, tid: TaskId, t: Task)
    requires t.at == Settling && tid !in s.tasks && t.hash in s.entries
    ensures Next(With(s, tid, t), Step(tid, Fine)) ==
      s.(entries := s.entries[t.hash := s.entries[t.hash].(stage := Settled)])
  {
    assert s.tasks[tid := t] - {tid} == s.tasks;
  }

  // Left alone with a free slot, and with every call going through, a registration ends with its torrent in the
  // client and its record settled.
  lemma FreeSlotIsUsed(s: State, tid: TaskId, h: Hash, kind: Kind, n: nat)
    requires MayRegister(s, tid, h) && kind.Register? && FreeSlot(s, h, Asked(s, h, kind), s.live) && n == 3
    ensures Steps(Next(s, Spawn(tid, h, kind)), tid, n + 4) ==
      s.(entries := s.entries[h := Entry(Asked(s, h, kind), s.backend, Settled)], live := s.live[h := false])
  {
    var s0, t := Next(s, Spawn(tid, h, kind)), Task(h, kind, QueueHash, map[]);
    assert s0 == With(s, tid, t);
    EntersSection(s, tid, t);
    assert Steps(s0, tid, n - 2) == With(s, tid, t.(at := QueueSlot));
    EntersRegistration(s, tid, t.(at := QueueSlot));
    assert Steps(s0, tid, n - 1) == With(s, tid, t.(at := Listing));
    FetchesList(s, tid, t.(at := Listing));
    assert Steps(s0, tid, n) == With(s, tid, t.(listed := s.live, at := Counting));
    IsAdmitted(s, tid, t.(listed := s.live, at := Counting));
    AdmittedRegisters(s, s0, tid, t.(listed := s.live, at := Saving), n);
  }

  // From the admission to the end.
  lemma AdmittedRegisters(s: State, s0: State, tid: TaskId, t: Task, n: nat)
    requires tid !in s.tasks && t.kind.Register? && t.hash !in s.live && t.at == Saving && n == 3
    requires Steps(s0, tid, n + 1) == With(s, tid, t)
    ensures Steps(s0, tid, n + 4) == s.(
      entries := s.entries[t.hash := Entry(Asked(s, t.hash, t.kind), s.backend, Settled)],
      live := s.live[t.hash := false])
  {
    Saves(s, tid, t);
    var s5 := s.(entries := s.entries[t.hash := Entry(Asked(s, t.hash, t.kind), s.backend, Registering)]);
    assert Steps(s0, tid, n + 2) == With(s5, tid, t.(at := Submitting));
    Submits(s5, tid, t.(at := Submitting));
    var s6 := s5.(live := s5.live[t.hash := false]);
    assert Steps(s0, tid, n + 3) == With(s6, tid, t.(at := Settling));
    Settles(s6, tid, t.(at := Settling));
  }

  // A request enters the section of its hash, once that is free, exactly if what it asks for is there: for a
  // registration no torrent, and no record of another client; for a new file of a store link a settled store record of
  // this client and its torrent; for any other file a record and its torrent. Otherwise it ends.
  lemma EntersExactly(s: State, tid: TaskId, c: Choice)
    requires tid in s.tasks && s.tasks[tid].at == QueueHash && HashFree(s, s.tasks[tid].hash)
    ensures var t, s' := s.tasks[tid], Next(s, Step(tid, c));
      var found := t.hash in s.entries && t.hash in s.live;
      var may := match t.kind
        case Register(_, _) => t.hash !in s.live && (t.hash !in s.entries || s.entries[t.hash].backend == s.backend)
        case SelectNew => found && s.entries[t.hash] == Entry(Store, s.backend, Settled)
        case PickFile => found;
      && (c.fail || !may ==> s' == s.(tasks := s.tasks - {tid}))
      && (!c.fail && may ==> s' == With(s, tid, t.(at := if t.kind == PickFile then Selecting else QueueSlot)))
  {
  }

  // A call that fails ends the request, and no record is written.
  lemma FailuresEnd(s: State, tid: TaskId, c: Choice)
    requires tid in s.tasks && c.fail
    requires s.tasks[tid].at in {Listing, SavingQueued, Saving, Submitting, Selecting, Settling}
    ensures tid !in Next(s, Step(tid, c)).tasks && Next(s, Step(tid, c)).entries == s.entries
  {
    match s.tasks[tid].at { case Listing => case SavingQueued => case Saving => case Submitting =>
                            case Selecting => case Settling => }
  }

  // A request that has to wait leaves a queued record.
  lemma WaitingIsRecorded(s: State, tid: TaskId, c: Choice)
    requires tid in s.tasks && s.tasks[tid].at == SavingQueued && !c.fail
    ensures var t, s' := s.tasks[tid], Next(s, Step(tid, c));
      s' == s.(entries := s.entries[t.hash := Entry(Asked(s, t.hash, t.kind), s.backend, Queued)],
               tasks := s.tasks - {tid})
  {
  }

  // ----- the bypasses are real ----------------------------------------------------------------

  const Go := Choice(false, true, false)
  const Finished := Entry(Store, "q", Settled)
  const Admitted := Entry(Store, "q", Registering)

  // One store slot, and a transfer "a".
  function Library(a: Entry, complete: bool, tasks: map<TaskId, Task>): State {
    State("q", 1, map["a" := a], map["a" := complete], tasks)
  }

  // The slot is taken by "b".
  function FullLibrary(complete: bool, tasks: map<TaskId, Task>): State {
    State("q", 1, map["a" := Finished, "b" := Admitted], map["a" := complete, "b" := false], tasks)
  }

  lemma FullIsWithinCap()
    ensures WithinCap(FullLibrary(true, map[]))
  {
    var s := FullLibrary(true, map[]);
    assert Active(s, Store) == {"b"} && Active(s, Search) == {};
  }

  lemma FinishedIsWithinCap()
    ensures WithinCap(Library(Finished, true, map[]))
  {
    var s := Library(Finished, true, map[]);
    assert Active(s, Store) == {} && Active(s, Search) == {};
  }

  function Picked(s: State): State { Next(Next(Next(s, Spawn(0, "a", PickFile)), Step(0, Go)), Step(0, Go)) }

  // The slot is taken: replaying "a" without a selection picks another file of it, and no slot is asked for.
  lemma PickExceedsCap()
    ensures WithinCap(FullLibrary(true, map[]))
    ensures |Active(Picked(FullLibrary(true, map[])), Store)| == 2
  {
    FullIsWithinCap();
    var s1 := Next(FullLibrary(true, map[]), Spawn(0, "a", PickFile));
    var s2 := Next(s1, Step(0, Go));
    assert s2 == FullLibrary(true, map[0 := Task("a", PickFile, Selecting, map[])]);
    PickReopens(s2);
  }

  lemma PickReopens(s: State)
    requires s == FullLibrary(true, map[0 := Task("a", PickFile, Selecting, map[])])
    ensures |Active(Next(s, Step(0, Go)), Store)| == 2
  {
    assert Active(Next(s, Step(0, Go)), Store) == {"a", "b"};
  }

  const SelectingA := Task("a", SelectNew, Selecting, map["a" := true])
  const CountingB := Task("b", Register(Store, false), Counting, map["a" := true])

  // The slot is free: selecting a new file of "a" is admitted; while registering "b" counts with a list
  // fetched before the selection took effect, "a" becomes managed and is overlooked.
  lemma StaleListExceedsCap()
    ensures WithinCap(Library(Finished, true, map[]))
    ensures |Active(Finale(Selected(Library(Finished, true, map[]))), Store)| == 2
  {
    FinishedIsWithinCap();
    SelectionAdmitted(Library(Finished, true, map[]));
    RegistrationAdmitted(Selected(Library(Finished, true, map[])));
  }

  function TwoSteps(s: State, tid: TaskId): State { Next(Next(s, Step(tid, Go)), Step(tid, Go)) }

  // Task 0 selects a new file of "a" up to its reservation.
  function Selected(s: State): State { Next(TwoSteps(TwoSteps(Next(s, Spawn(0, "a", SelectNew)), 0), 0), Step(0, Go)) }

  // Task 1 registers "b" up to its list; task 0 selects and settles; task 1 counts and saves.
  function Listed(s: State): State { Next(TwoSteps(Next(s, Spawn(1, "b", Register(Store, false))), 1), Step(1, Go)) }

  function Finale(s: State): State { TwoSteps(TwoSteps(Listed(s), 0), 1) }

  lemma SelectionAdmitted(s: State)
    requires s == Library(Finished, true, map[])
    ensures Selected(s) == Library(Admitted, true, map[0 := SelectingA])
  {
    var s1 := Next(s, Spawn(0, "a", SelectNew));
    var s2 := Next(s1, Step(0, Go));
    assert s2.tasks == map[0 := Task("a", SelectNew, QueueSlot, map[])];
    var s3 := Next(s2, Step(0, Go));
    var s4 := Next(s3, Step(0, Go));
    assert s4 == Library(Finished, true, map[0 := SelectingA.(at := Counting)]);
    SlotIsFree(s4);
  }

  lemma SlotIsFree(s: State)
    requires s == Library(Finished, true, map[0 := SelectingA.(at := Counting)])
    ensures TwoSteps(s, 0) == Library(Admitted, true, map[0 := SelectingA])
  {
    assert Counted(s, s.tasks[0], Store) == {};
    assert Next(s, Step(0, Go)) == Library(Finished, true, map[0 := SelectingA.(at := Saving)]);
  }

  lemma RegistrationAdmitted(s: State)
    requires s == Library(Admitted, true, map[0 := SelectingA])
    ensures |Active(Finale(s), Store)| == 2
  {
    var queued := CountingB.(at := QueueHash, listed := map[]);
    var s1 := Next(s, Spawn(1, "b", Register(Store, false)));
    var s2 := Next(s1, Step(1, Go));
    assert s2.tasks == map[0 := SelectingA, 1 := queued.(at := QueueSlot)];
    var s3 := Next(s2, Step(1, Go));
    assert s3.tasks == map[0 := SelectingA, 1 := queued.(at := Listing)];
    assert Next(s3, Step(1, Go)) == Library(Admitted, true, map[0 := SelectingA, 1 := CountingB]);
    ListTurnsStale(Next(s3, Step(1, Go)));
  }

  lemma ListTurnsStale(s: State)
    requires s == Library(Admitted, true, map[0 := SelectingA, 1 := CountingB])
    ensures |Active(TwoSteps(TwoSteps(s, 0), 1), Store)| == 2
  {
    var s1 := Next(s, Step(0, Go));
    assert s1.live == map["a" := false];
    assert TwoSteps(s, 0) == Library(Finished, false, map[1 := CountingB]);
    Overlooked(TwoSteps(s, 0));
  }

  lemma Overlooked(s: State)
    requires s == Library(Finished, false, map[1 := CountingB])
    ensures |Active(TwoSteps(s, 1), Store)| == 2
  {
    CountsNone(s);
    ThenSaves(Next(s, Step(1, Go)));
  }

  lemma CountsNone(s: State)
    requires s == Library(Finished, false, map[1 := CountingB])
    ensures Next(s, Step(1, Go)) == Library(Finished, false, map[1 := CountingB.(at := Saving)])
  {
    OverlooksA(s);
    assert OriginOf(s, CountingB) == Store && Next(s, Step(1, Go)) == Apply(s, 1, CountingB, Goto(CountingB, Saving));
  }

  lemma OverlooksA(s: State)
    requires s == Library(Finished, false, map[1 := CountingB])
    ensures Counted(s, CountingB, Store) == {}
  {
  }

  lemma ThenSaves(s: State)
    requires s == Library(Finished, false, map[1 := CountingB.(at := Saving)])
    ensures |Active(Next(s, Step(1, Go)), Store)| == 2
  {
    assert Active(Next(s, Step(1, Go)), Store) == {"a", "b"};
  }
}
