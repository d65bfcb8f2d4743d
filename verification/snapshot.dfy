/**
 The backend snapshot cache: one promise of a job list per client, shared by its readers, dropped by
 every mutation.

 Readers are concurrent; each `await` is a separate step. The environment settles the lists.
 */
module SnapshotCache {
  import opened OrderedMaps
  import opened Wrappers

  const TTL_MS := 5000
  const MAX_ENTRIES := 32

  type Identity = string
  type ListId = nat
  type ReaderId = nat

  datatype Status = InFlight | Landed(at: int) | Failed

  // One list request. `issued` is the step it was sent at; `dropped` records that the cache let go of it
  // while it was the cached one: by an invalidation, a clear, or the eviction of a full cache.
  datatype List = List(backend: Identity, issued: nat, status: Status, dropped: bool)

  // A reader waits for a list it found or for its own, and ends with one or with an error. `floor` is the
  // step of the last invalidation of its backend when it began, and `at` the time when it returned.
  datatype Progress = Waiting(list: ListId, own: bool) | Returned(list: ListId, own: bool, at: int) | Threw
  datatype Reader = Reader(backend: Identity, floor: nat, progress: Progress)

  datatype State = State(
    snapshots: OrderedMap<Identity, ListId>, lists: seq<List>, readers: map<ReaderId, Reader>,
    invalidated: map<Identity, nat>, clock: int, step: nat)

  datatype Action =
    | Read(reader: ReaderId, backend: Identity)
    | Resume(reader: ReaderId)       // the awaited promise has settled
    | Land(list: ListId)
    | Fail(list: ListId)
    | Invalidate(backend: Identity)
    | Clear
    | Tick(now: int)

  const Initial := State([], [], map[], map[], 0, 1)

  function LastInvalidation(s: State, backend: Identity): nat {
    if backend in s.invalidated then s.invalidated[backend] else 0
  }

  function Cached(snapshots: OrderedMap<Identity, ListId>, backend: Identity): Option<ListId> {
    Get(snapshots, backend)
  }

  // The cache lets go of a list.
  function Dropped(lists: seq<List>, id: Option<ListId>): (r: seq<List>)
    ensures |r| == |lists|
  {
    if id.Some? && id.value < |lists| then lists[id.value := lists[id.value].(dropped := true)] else lists
  }

  // snapshots.delete(identity)
  function Forget(s: State, backend: Identity): State {
    s.(snapshots := Delete<Identity, ListId>(s.snapshots, backend),
      lists := Dropped(s.lists, Cached(s.snapshots, backend)))
  }

  // A full cache drops its first key before taking another list.
  function MakeRoom(s: State): State {
    if |s.snapshots| >= MAX_ENTRIES then Forget(s, s.snapshots[0].0) else s
  }

  // Send a list request and cache its promise; the reader waits for it.
  function Insert(s: State, reader: ReaderId, backend: Identity, floor: nat): State {
    s.(lists := s.lists + [List(backend, s.step, InFlight, false)],
       snapshots := Set<Identity, ListId>(s.snapshots, backend, |s.lists|),
       readers := s.readers[reader := Reader(backend, floor, Waiting(|s.lists|, true))])
  }

  function Issue(s: State, reader: ReaderId, backend: Identity, floor: nat): State {
    Insert(MakeRoom(s), reader, backend, floor)
  }

  // backendSnapshot up to its first await.
  function Begin(s: State, reader: ReaderId, backend: Identity, floor: nat): State {
    match Cached(s.snapshots, backend)
    case Some(list) => s.(readers := s.readers[reader := Reader(backend, floor, Waiting(list, false))])
    case None => Issue(s, reader, backend, floor)
  }

  function Finish(s: State, reader: ReaderId, progress: Progress): State
    requires reader in s.readers
  {
    s.(readers := s.readers[reader := s.readers[reader].(progress := progress)])
  }

  // The code behind an await whose promise is `list`.
  function Continue(s: State, reader: ReaderId, list: ListId, own: bool): State
    requires reader in s.readers && list < |s.lists|
  {
    var r := s.readers[reader];
    match s.lists[list].status
    case InFlight => s
    case Failed =>
      var s' := Finish(s, reader, Threw);
      if own && Cached(s.snapshots, r.backend) == Some(list) then Forget(s', r.backend) else s'
    case Landed(at) =>
      if own || s.clock - at <= TTL_MS then Finish(s, reader, Returned(list, own, s.clock))
      else if Cached(s.snapshots, r.backend) != Some(list) then Begin(s, reader, r.backend, r.floor)
      else Issue(s, reader, r.backend, r.floor)
  }

  function Effect(s: State, a: Action): State {
    match a
    case Read(reader, backend) =>
      if reader in s.readers then s else Begin(s, reader, backend, LastInvalidation(s, backend))
    case Resume(reader) =>
      if reader !in s.readers || !s.readers[reader].progress.Waiting?
        || s.readers[reader].progress.list >= |s.lists| then s
      else Continue(s, reader, s.readers[reader].progress.list, s.readers[reader].progress.own)
    case Land(list) =>
      if list >= |s.lists| || !s.lists[list].status.InFlight? then s
      else s.(lists := s.lists[list := s.lists[list].(status := Landed(s.clock))])
    case Fail(list) =>
      if list >= |s.lists| || !s.lists[list].status.InFlight? then s
      else s.(lists := s.lists[list := s.lists[list].(status := Failed)])
    case Invalidate(backend) => Forget(s, backend).(invalidated := s.invalidated[backend := s.step])
    case Clear =>
      s.(snapshots := [], lists := seq(|s.lists|, i requires 0 <= i < |s.lists| => s.lists[i].(dropped := true)))
    case Tick(now) => if now < s.clock then s else s.(clock := now)
  }

  function Next(s: State, a: Action): State { Effect(s, a).(step := s.step + 1) }

  function Execute(s: State, actions: seq<Action>): State
    decreases |actions|
  {
    if actions == [] then s else Execute(Next(s, actions[0]), actions[1..])
  }

  // ----- the invariant --------------------------------------------------------------------------------

  // What is cached for a backend is a list of it, sent after the last invalidation.
  ghost predicate CachedOk(s: State) {
    forall b: Identity | Cached(s.snapshots, b).Some? ::
      var id := Cached(s.snapshots, b).value;
      id < |s.lists| && s.lists[id].backend == b && s.lists[id].issued > LastInvalidation(s, b)
  }

  // A list in flight that the cache has not let go of is the cached one.
  predicate FlightsCached(s: State) {
    forall i | 0 <= i < |s.lists| && s.lists[i].status.InFlight? && !s.lists[i].dropped ::
      Cached(s.snapshots, s.lists[i].backend) == Some(i)
  }

  predicate ReaderOk(s: State, r: Reader) {
    r.progress.Threw? ||
      (r.progress.list < |s.lists| && s.lists[r.progress.list].backend == r.backend
        && s.lists[r.progress.list].issued > r.floor)
  }

  predicate ReadersOk(s: State) {
    forall id <- s.readers ::
      ReaderOk(s, s.readers[id]) && s.readers[id].floor <= LastInvalidation(s, s.readers[id].backend)
  }

  ghost predicate StepsOk(s: State) {
    (forall b <- s.invalidated :: s.invalidated[b] < s.step) && s.step > 0
  }

  ghost predicate Inv(s: State) {
    CachedOk(s) && FlightsCached(s) && ReadersOk(s) && StepsOk(s) && |s.snapshots| <= MAX_ENTRIES
  }

  // Lists keep their backend and the step they were sent at.
  predicate SameLists(s: State, s': State) {
    |s.lists| <= |s'.lists| && forall i | 0 <= i < |s.lists| ::
      s'.lists[i].backend == s.lists[i].backend && s'.lists[i].issued == s.lists[i].issued
  }

  lemma ForgetKeepsInv(s: State, backend: Identity)
    requires Inv(s)
    ensures Inv(Forget(s, backend)) && SameLists(s, Forget(s, backend))
      && Cached(Forget(s, backend).snapshots, backend).None?
    ensures |s.snapshots| > 0 && Cached(s.snapshots, backend).Some? ==> |Forget(s, backend).snapshots| < |s.snapshots|
  {
    var s' := Forget(s, backend);
    forall b: Identity ensures Cached(s'.snapshots, b) == if b == backend then None else Cached(s.snapshots, b) {
      DeleteThenGet<Identity, ListId>(s.snapshots, backend, b);
    }
  }

  // No list of the backend is in flight and still cached.
  predicate Idle(s: State, backend: Identity) {
    forall i | 0 <= i < |s.lists| && s.lists[i].status.InFlight? && !s.lists[i].dropped :: s.lists[i].backend != backend
  }

  lemma MakeRoomKeepsInv(s: State, backend: Identity)
    requires Inv(s) && Idle(s, backend)
    ensures var s' := MakeRoom(s);
      Inv(s') && SameLists(s, s') && Idle(s', backend) && |s'.snapshots| < MAX_ENTRIES
        && LastInvalidation(s', backend) == LastInvalidation(s, backend)
  {
    if |s.snapshots| >= MAX_ENTRIES {
      ForgetKeepsInv(s, s.snapshots[0].0);
    }
  }

  lemma InsertKeepsCache(s: State, reader: ReaderId, backend: Identity, floor: nat)
    requires Inv(s) && Idle(s, backend)
    ensures CachedOk(Insert(s, reader, backend, floor)) && FlightsCached(Insert(s, reader, backend, floor))
  {
    var s' := Insert(s, reader, backend, floor);
    forall b: Identity
      ensures Cached(s'.snapshots, b) == if b == backend then Some(|s.lists|) else Cached(s.snapshots, b)
    {
      SetThenGet<Identity, ListId>(s.snapshots, backend, |s.lists|, b);
    }
    forall i | 0 <= i < |s.lists| ensures s'.lists[i] == s.lists[i] {}
  }

  lemma InsertKeepsInv(s: State, reader: ReaderId, backend: Identity, floor: nat)
    requires Inv(s) && Idle(s, backend) && |s.snapshots| < MAX_ENTRIES && floor <= LastInvalidation(s, backend)
    ensures Inv(Insert(s, reader, backend, floor)) && SameLists(s, Insert(s, reader, backend, floor))
  {
    InsertKeepsCache(s, reader, backend, floor);
  }

  lemma IssueKeepsInv(s: State, reader: ReaderId, backend: Identity, floor: nat)
    requires Inv(s) && Idle(s, backend) && floor <= LastInvalidation(s, backend)
    ensures Inv(Issue(s, reader, backend, floor))
  {
    MakeRoomKeepsInv(s, backend);
    InsertKeepsInv(MakeRoom(s), reader, backend, floor);
  }

  // Without a cached list, or with one that has settled, nothing cached is in flight.
  lemma NothingInFlight(s: State, backend: Identity)
    requires FlightsCached(s)
    requires Cached(s.snapshots, backend).Some? ==>
      Cached(s.snapshots, backend).value < |s.lists| && !s.lists[Cached(s.snapshots, backend).value].status.InFlight?
    ensures Idle(s, backend)
  {
  }

  lemma BeginKeepsInv(s: State, reader: ReaderId, backend: Identity, floor: nat)
    requires Inv(s) && floor <= LastInvalidation(s, backend)
    ensures Inv(Begin(s, reader, backend, floor))
  {
    if Cached(s.snapshots, backend).None? {
      NothingInFlight(s, backend);
      IssueKeepsInv(s, reader, backend, floor);
    }
  }

  lemma FinishKeepsInv(s: State, reader: ReaderId, progress: Progress)
    requires Inv(s) && reader in s.readers && ReaderOk(s, s.readers[reader].(progress := progress))
    ensures Inv(Finish(s, reader, progress))
  {
  }

  lemma ContinueKeepsInv(s: State, reader: ReaderId, list: ListId, own: bool)
    requires Inv(s) && reader in s.readers && s.readers[reader].progress == Waiting(list, own)
    ensures list < |s.lists| && Inv(Continue(s, reader, list, own))
  {
    var r := s.readers[reader];
    match s.lists[list].status {
      case InFlight =>
      case Failed =>
        FinishKeepsInv(s, reader, Threw);
        if own && Cached(s.snapshots, r.backend) == Some(list) { ForgetKeepsInv(Finish(s, reader, Threw), r.backend); }
      case Landed(at) =>
        if own || s.clock - at <= TTL_MS {
          FinishKeepsInv(s, reader, Returned(list, own, s.clock));
        } else if Cached(s.snapshots, r.backend) != Some(list) {
          BeginKeepsInv(s, reader, r.backend, r.floor);
        } else {
          NothingInFlight(s, r.backend);
          IssueKeepsInv(s, reader, r.backend, r.floor);
        }
    }
  }

  lemma SettleKeepsInv(s: State, list: ListId, status: Status)
    requires Inv(s) && list < |s.lists| && !status.InFlight?
    ensures Inv(s.(lists := s.lists[list := s.lists[list].(status := status)]))
  {
    var s' := s.(lists := s.lists[list := s.lists[list].(status := status)]);
    assert SameLists(s, s');
  }

  lemma InvalidateKeepsInv(s: State, backend: Identity)
    requires Inv(s)
    ensures Inv(Next(s, Invalidate(backend)))
  {
    ForgetKeepsInv(s, backend);
  }

  lemma ClearKeepsInv(s: State)
    requires Inv(s)
    ensures Inv(Next(s, Clear))
  {
    assert SameLists(s, Next(s, Clear));
  }

  lemma LaterKeepsInv(s: State)
    requires Inv(s)
    ensures Inv(s.(step := s.step + 1))
  {
  }

  lemma NextKeepsInv(s: State, a: Action)
    requires Inv(s)
    ensures Inv(Next(s, a))
  {
    if a.Invalidate? {
      InvalidateKeepsInv(s, a.backend);
    } else if a.Clear? {
      ClearKeepsInv(s);
    } else {
      PlainKeepsInv(s, a);
    }
  }

  lemma PlainKeepsInv(s: State, a: Action)
    requires Inv(s) && !a.Invalidate? && !a.Clear?
    ensures Inv(Next(s, a))
  {
    EffectKeepsInv(s, a);
    LaterKeepsInv(Effect(s, a));
  }

  lemma EffectKeepsInv(s: State, a: Action)
    requires Inv(s) && !a.Invalidate? && !a.Clear?
    ensures Inv(Effect(s, a))
  {
    match a {
      case Read(reader, backend) =>
        if reader !in s.readers {
          BeginKeepsInv(s, reader, backend, LastInvalidation(s, backend));
        }
      case Resume(reader) =>
        if reader in s.readers && s.readers[reader].progress.Waiting? {
          ContinueKeepsInv(s, reader, s.readers[reader].progress.list, s.readers[reader].progress.own);
        }
      case Land(list) => if list < |s.lists| { SettleKeepsInv(s, list, Landed(s.clock)); }
      case Fail(list) => if list < |s.lists| { SettleKeepsInv(s, list, Failed); }
      case Tick(_) =>
    }
  }

  lemma {:induction false} RunKeepsInv(s: State, actions: seq<Action>)
    requires Inv(s)
    ensures Inv(Execute(s, actions))
    decreases |actions|
  {
    if actions != [] {
      NextKeepsInv(s, actions[0]);
      RunKeepsInv(Next(s, actions[0]), actions[1..]);
    }
  }

  // ----- freshness and sharing --------------------------------------------------------------------------

  lemma InitialInv()
    ensures Inv(Initial)
  {
  }

  // A reader only ever returns a list of its own client that was sent after the last invalidation before
  // it began, through any number of later steps.
  lemma ReadersAreFresh(before: seq<Action>, reader: ReaderId, backend: Identity, after: seq<Action>)
    requires reader !in Execute(Initial, before).readers
    ensures var begun := Execute(Initial, before);
      var ended := Execute(Next(begun, Read(reader, backend)), after);
      reader in ended.readers && (ended.readers[reader].progress.Returned? ==>
        var list := ended.readers[reader].progress.list;
        list < |ended.lists| && ended.lists[list].backend == backend
          && ended.lists[list].issued > LastInvalidation(begun, backend))
  {
    InitialInv();
    RunKeepsInv(Initial, before);
    var begun := Execute(Initial, before);
    NextKeepsInv(begun, Read(reader, backend));
    RunKeepsInv(Next(begun, Read(reader, backend)), after);
    ReaderRemembered(Next(begun, Read(reader, backend)), after, reader);
  }

  lemma {:induction false} ReaderRemembered(s: State, actions: seq<Action>, reader: ReaderId)
    requires reader in s.readers
    ensures var s' := Execute(s, actions);
      reader in s'.readers && s'.readers[reader].backend == s.readers[reader].backend
        && s'.readers[reader].floor == s.readers[reader].floor
    decreases |actions|
  {
    if actions != [] {
      ReaderKept(s, actions[0], reader);
      ReaderRemembered(Next(s, actions[0]), actions[1..], reader);
    }
  }

  lemma ReaderKept(s: State, a: Action, reader: ReaderId)
    requires reader in s.readers
    ensures var s' := Next(s, a);
      reader in s'.readers && s'.readers[reader].backend == s.readers[reader].backend
        && s'.readers[reader].floor == s.readers[reader].floor
  {
    if a.Resume? && a.reader in s.readers && s.readers[a.reader].progress.Waiting? {
      var p := s.readers[a.reader].progress;
      if p.list < |s.lists| && !s.lists[p.list].status.InFlight? {}
    }
  }

  // While the cache keeps hold of them, at most one list per client is in flight, and whoever reads
  // meanwhile shares it.
  lemma FlightsAreShared(actions: seq<Action>, i: ListId, j: ListId, reader: ReaderId)
    requires var s := Execute(Initial, actions);
      && i < |s.lists| && j < |s.lists| && s.lists[i].status.InFlight? && s.lists[j].status.InFlight?
      && !s.lists[i].dropped && !s.lists[j].dropped && s.lists[i].backend == s.lists[j].backend
      && reader !in s.readers
    ensures var s := Execute(Initial, actions);
      i == j && Next(s, Read(reader, s.lists[i].backend)).lists == s.lists
      && Next(s, Read(reader, s.lists[i].backend)).readers[reader].progress == Waiting(i, false)
  {
    InitialInv();
    RunKeepsInv(Initial, actions);
  }

  // The cache never grows past its bound.
  lemma CacheIsBounded(actions: seq<Action>)
    ensures |Execute(Initial, actions).snapshots| <= 32
  {
    InitialInv();
    RunKeepsInv(Initial, actions);
  }

  // A list is only let go of by an invalidation, by clearing, by a full cache making room, or once it has
  // settled: so a second request in flight means one of these came between.
  lemma OnlyThenDropped(s: State, a: Action, i: ListId)
    requires Inv(s) && i < |s.lists| && !s.lists[i].dropped && s.lists[i].status.InFlight?
    ensures i < |Next(s, a).lists| && (Next(s, a).lists[i].dropped ==>
      a == Invalidate(s.lists[i].backend) || a == Clear || |s.snapshots| >= 32)
  {
  }

  // ----- how old a list can be --------------------------------------------------------------------------

  // A list that has landed stays as it landed.
  predicate StillLanded(s: State, s': State) {
    |s.lists| <= |s'.lists| && forall i | 0 <= i < |s.lists| && s.lists[i].status.Landed? ::
      s'.lists[i].status == s.lists[i].status
  }

  predicate Recent(s: State, p: Progress) {
    p.Returned? ==>
      && p.list < |s.lists| && s.lists[p.list].status.Landed?
      && p.at <= s.clock && (!p.own ==> p.at <= s.lists[p.list].status.at + 5 * 1000)
  }

  predicate AllRecent(s: State) { forall id <- s.readers :: Recent(s, s.readers[id].progress) }

  lemma BeginKeepsLanded(s: State, reader: ReaderId, backend: Identity, floor: nat)
    ensures var s' := Begin(s, reader, backend, floor);
      && StillLanded(s, s') && s'.clock == s.clock && s'.readers.Keys == s.readers.Keys + {reader}
      && (forall id <- s'.readers ::
        if id == reader then s'.readers[id].progress.Waiting? else s'.readers[id] == s.readers[id])
  {
  }

  lemma IssueKeepsLanded(s: State, reader: ReaderId, backend: Identity, floor: nat)
    ensures var s' := Issue(s, reader, backend, floor);
      && StillLanded(s, s') && s'.clock == s.clock && s'.readers.Keys == s.readers.Keys + {reader}
      && (forall id <- s'.readers ::
        if id == reader then s'.readers[id].progress.Waiting? else s'.readers[id] == s.readers[id])
  {
  }

  lemma ContinueKeepsRecent(s: State, reader: ReaderId, list: ListId, own: bool)
    requires AllRecent(s) && reader in s.readers && list < |s.lists|
    ensures StillLanded(s, Continue(s, reader, list, own)) && AllRecent(Continue(s, reader, list, own))
  {
    var r := s.readers[reader];
    if s.lists[list].status.Landed? && !own && s.clock - s.lists[list].status.at > TTL_MS {
      BeginKeepsLanded(s, reader, r.backend, r.floor);
      IssueKeepsLanded(s, reader, r.backend, r.floor);
    }
  }

  lemma EffectKeepsRecent(s: State, a: Action)
    requires AllRecent(s)
    ensures AllRecent(Effect(s, a))
  {
    match a {
      case Read(reader, backend) =>
        if reader !in s.readers { BeginKeepsLanded(s, reader, backend, LastInvalidation(s, backend)); }
      case Resume(reader) =>
        if reader in s.readers && s.readers[reader].progress.Waiting? && s.readers[reader].progress.list < |s.lists| {
          ContinueKeepsRecent(s, reader, s.readers[reader].progress.list, s.readers[reader].progress.own);
        }
      case _ =>
    }
  }

  lemma {:induction false} RunKeepsRecent(s: State, actions: seq<Action>)
    requires AllRecent(s)
    ensures AllRecent(Execute(s, actions))
    decreases |actions|
  {
    if actions != [] {
      EffectKeepsRecent(s, actions[0]);
      RunKeepsRecent(Next(s, actions[0]), actions[1..]);
    }
  }

  // In every run, a reader that did not send the request itself returns its list within five seconds of its
  // arrival; and what a reader returns has arrived.
  lemma FoundListsAreRecent(actions: seq<Action>, reader: ReaderId)
    requires reader in Execute(Initial, actions).readers
    ensures var s := Execute(Initial, actions); Recent(s, s.readers[reader].progress)
  {
    RunKeepsRecent(Initial, actions);
  }

  // Waiting for a list that has arrived, a reader that sent the request itself returns it, and one that found it
  // returns it exactly while it is no older than five seconds. Otherwise it joins the list that has taken its place,
  // or sends the one request there is to send.
  lemma ResumesExactly(s: State, reader: ReaderId, list: ListId, own: bool, at: int)
    requires reader in s.readers && s.readers[reader].progress == Waiting(list, own)
    requires list < |s.lists| && s.lists[list].status == Landed(at)
    ensures var s' := Next(s, Resume(reader)); var cached := Get(s.snapshots, s.readers[reader].backend);
      var next := s'.readers[reader].progress;
      && reader in s'.readers
      && (next.Returned? <==> own || s.clock <= at + 5 * 1000)
      && (next.Returned? ==>
            next == Returned(list, own, s.clock) && s'.lists == s.lists && s'.snapshots == s.snapshots)
      && (!next.Returned? && cached.Some? && cached.value != list ==>
            next == Waiting(cached.value, false) && s'.lists == s.lists && s'.snapshots == s.snapshots)
      && (!next.Returned? && (cached.None? || cached.value == list) ==>
            next == Waiting(|s.lists|, true) && |s'.lists| == |s.lists| + 1
            && s'.lists[|s.lists|] == List(s.readers[reader].backend, s.step, InFlight, false))
  {
  }

  // A reader whose list failed fails; and it drops the list exactly if it had sent the request and the list is still
  // the one that is shared.
  lemma FailuresAreDropped(s: State, reader: ReaderId, list: ListId, own: bool)
    requires reader in s.readers && s.readers[reader].progress == Waiting(list, own)
    requires list < |s.lists| && s.lists[list].status == Failed
    ensures var s' := Next(s, Resume(reader)); var backend := s.readers[reader].backend;
      && reader in s'.readers && s'.readers[reader].progress == Threw && |s'.lists| == |s.lists|
      && (own && Get(s.snapshots, backend) == Some(list) ==> Get(s'.snapshots, backend) == None)
      && (!(own && Get(s.snapshots, backend) == Some(list)) ==> s'.snapshots == s.snapshots)
  {
    DeleteThenGet(s.snapshots, s.readers[reader].backend, s.readers[reader].backend);
  }

  // Two readers of a client of which nothing is cached share one request: when the list lands and both resume within
  // five seconds, both return it.
  lemma OneListServesBoth(s: State, a: ReaderId, b: ReaderId, backend: Identity, later: int)
    requires a !in s.readers && b !in s.readers && a != b && Get(s.snapshots, backend).None? && |s.snapshots| < 32
    requires s.clock <= later <= s.clock + 5 * 1000
    ensures var list := |s.lists|;
      var waiting := Next(Next(s, Read(a, backend)), Read(b, backend));
      var done := Next(Next(Next(Next(waiting, Land(list)), Tick(later)), Resume(a)), Resume(b));
      && |done.lists| == |s.lists| + 1 && done.lists[list].backend == backend && done.lists[list].issued == s.step
      && a in done.readers && done.readers[a].progress == Returned(list, true, later)
      && b in done.readers && done.readers[b].progress == Returned(list, false, later)
  {
    SetThenGet<Identity, ListId>(s.snapshots, backend, |s.lists|, backend);
    var s1 := Next(s, Read(a, backend));
    assert s1.lists == s.lists + [List(backend, s.step, InFlight, false)];
    var s2 := Next(s1, Read(b, backend));
    assert s2.readers[b].progress == Waiting(|s.lists|, false) && s2.lists == s1.lists;
    var s4 := Next(Next(s2, Land(|s.lists|)), Tick(later));
    assert s4.lists[|s.lists|] == List(backend, s.step, Landed(s.clock), false) && s4.clock == later;
    ResumesExactly(s4, a, |s.lists|, true, s.clock);
    var s5 := Next(s4, Resume(a));
    ResumesExactly(s5, b, |s.lists|, false, s.clock);
  }

  // ----- the module's own code ----------------------------------------------------------------------------

  /** The map of promises, beside the requests sent, the readers waiting and the history of invalidations. */
  class Snapshots {
    var snapshots: OrderedMap<Identity, ListId>
    var lists: seq<List>
    var readers: map<ReaderId, Reader>
    var invalidated: map<Identity, nat>
    var clock: int
    var step: nat

    ghost function Current(): State
      reads this
    {
      State(snapshots, lists, readers, invalidated, clock, step)
    }

    constructor ()
      ensures Current() == Initial
    {
      snapshots, lists, readers, invalidated, clock, step := [], [], map[], map[], 0, 1;
    }

    method Remove(backend: Identity)
      modifies this
      ensures Current() == Forget(old(Current()), backend)
    {
      var found := Cached(snapshots, backend);
      snapshots := Delete<Identity, ListId>(snapshots, backend);
      lists := Dropped(lists, found);
    }

    // From `backend.list` to the await of the new promise.
    method Request(reader: ReaderId, backend: Identity, floor: nat)
      modifies this
      ensures Current() == Issue(old(Current()), reader, backend, floor)
    {
      if |snapshots| >= MAX_ENTRIES {
        Remove(snapshots[0].0);
      }
      var pending := |lists|;
      lists := lists + [List(backend, step, InFlight, false)];
      snapshots := Set<Identity, ListId>(snapshots, backend, pending);
      readers := readers[reader := Reader(backend, floor, Waiting(pending, true))];
    }

    // backendSnapshot up to its first await; `step` passes with every action.
    method Start(reader: ReaderId, backend: Identity, floor: nat)
      modifies this
      ensures Current() == Begin(old(Current()), reader, backend, floor)
    {
      var cached := Cached(snapshots, backend);
      if cached.Some? {
        readers := readers[reader := Reader(backend, floor, Waiting(cached.value, false))];
      } else {
        Request(reader, backend, floor);
      }
    }

    method Read(reader: ReaderId, backend: Identity)
      requires reader !in readers
      modifies this
      ensures Current() == Next(old(Current()), Action.Read(reader, backend))
    {
      Start(reader, backend, if backend in invalidated then invalidated[backend] else 0);
      step := step + 1;
    }

    // The code behind the await, once the awaited list has settled.
    method Resume(reader: ReaderId)
      requires reader in readers && readers[reader].progress.Waiting? && readers[reader].progress.list < |lists|
      requires !lists[readers[reader].progress.list].status.InFlight?
      modifies this
      ensures Current() == Next(old(Current()), Action.Resume(reader))
    {
      var r := readers[reader];
      var list, own := r.progress.list, r.progress.own;
      match lists[list].status {
        case Failed =>
          readers := readers[reader := r.(progress := Threw)];
          if own && Cached(snapshots, r.backend) == Some(list) { Remove(r.backend); }
        case Landed(at) =>
          if own || clock - at <= TTL_MS {
            readers := readers[reader := r.(progress := Returned(list, own, clock))];
          } else if Cached(snapshots, r.backend) != Some(list) {
            Start(reader, r.backend, r.floor);
          } else {
            Request(reader, r.backend, r.floor);
          }
        case InFlight =>
      }
      step := step + 1;
    }

    method Invalidate(backend: Identity)
      modifies this
      ensures Current() == Next(old(Current()), Action.Invalidate(backend))
    {
      Remove(backend);
      invalidated := invalidated[backend := step];
      step := step + 1;
    }
  }
}
