/**
 Whole runs of one task, from its start to its end, when every call goes through and nothing else happens to its
 hash: each does what the call would do without its awaits. An addition ends with a running torrent and a managed
 record, a deletion with neither or with both.
 */
module ManagedRuns {
  import opened Wrappers
  import opened ManagedDownloads
  import opened ManagedSequential
  import opened ManagedSteps
  import opened ManagedSafety

  // ----- one task alone -----------------------------------------------------------------------

  // The task, its record and its torrent; no other task is in the section of its hash or registers.
  predicate Stands(s: State, tid: TaskId, t: Task, stored: Option<Record>, live: Option<Torrent>) {
    && tid in s.tasks && s.tasks[tid] == t
    && Stored(s, t.prog.hash) == stored && Live(s, t.prog.backend, t.prog.hash) == live
    && Alone(s, tid, t.prog.hash)
  }

  predicate Alone(s: State, tid: TaskId, h: Hash) {
    forall u <- s.tasks | u != tid :: !s.tasks[u].inReg && !(s.tasks[u].inSection && s.tasks[u].prog.hash == h)
  }

  function StoredAfter(stored: Option<Record>, e: Effect): Option<Record> {
    match e
    case Upsert(r) => Some(r)
    case Forget => None
    case _ => stored
  }

  // What is left when the task has ended.
  predicate Leaves(s: State, tid: TaskId, p: Program, stored: Option<Record>, live: Option<Torrent>) {
    tid !in s.tasks && Stored(s, p.hash) == stored && Live(s, p.backend, p.hash) == live
  }

  lemma Views(s: State, tid: TaskId, t: Task, stored: Option<Record>, live: Option<Torrent>)
    requires Stands(s, tid, t, stored, live)
    ensures var v := ViewOf(s, t.prog);
      && v.stored == stored && v.live == live && v.known == s.known && (v.playing <==> s.playing[t.prog.hash] > 0)
      && (v.lockFree <==> !t.inSection) && (v.regFree <==> !t.inReg)
  {
  }

  lemma Applies(s: State, tid: TaskId, t: Task, stored: Option<Record>, live: Option<Torrent>, o: Outcome)
    requires Stands(s, tid, t, stored, live) && (o.next.Continue? ==> o.next.task.prog == t.prog)
    ensures var s' := Apply(s, tid, t, o);
      var stored', live' := StoredAfter(stored, o.effect), LiveAfter(t.prog.hash, live, o.effect);
      && (if o.next.Continue? then Stands(s', tid, o.next.task, stored', live')
          else Leaves(s', tid, t.prog, stored', live'))
      && s'.known == KnownAfter(s.known, o.effect)
      && s'.playing == (if o.effect.MarkPlaying? then s.playing + multiset{t.prog.hash} else s.playing)
      && s'.log == LogAfter(s.log, tid, t, o)
  {
  }

  // n steps of the task.
  function Steps(s: State, tid: TaskId, c: Choice, n: nat): State
    decreases n
  {
    if n == 0 then s else Steps(Next(s, Step(tid, c)), tid, c, n - 1)
  }

  // ----- what is still to come from each point ------------------------------------------------------

  function Fate(t: Task, stored: Option<Record>, live: Option<Torrent>, playing: bool, c: Choice): Left {
    match t.pc
    case Wait(w) => WaitFate(t, w, stored, live, playing, c)
    case Register(r) => if t.prog.Prepare? then RegisterFate(t, r, stored, live, c) else Fails(stored, live)
    case Verify(w) => if live.Some? then VerifyFate(t, w, stored, live.value, playing, c) else Fails(stored, live)
    case Choose(w) =>
      if t.prog.Prepare? && live.Some? then ChooseFate(t, w, live.value, c) else Fails(stored, live)
    case Configure(w) =>
      if t.prog.Prepare? && live.Some? && c.file.Some? then ConfigureFate(t, w, live.value, c) else Fails(stored, live)
    case Finish(w) =>
      if t.prog.Prepare? && live.Some? && stored.Some? then FinishFate(t, w, stored.value, live.value)
      else Fails(stored, live)
    case Erase(w) => EraseFate(t, w, stored, live, playing, c)
    case Patrol(w) => PatrolFate(t, w, stored, live, playing, c)
  }

  function WaitFate(
      t: Task, w: WaitPoint, stored: Option<Record>, live: Option<Torrent>, playing: bool, c: Choice): Left
  {
    if t.prog.Toggle? && w.Press? && live.Some?
    then Ends(stored, Some(live.value.(stopped := !t.prog.running)), true)
    else Leaving(t.prog, stored, live, playing, c)
  }

  function RegisterFate(t: Task, r: RegisterPoint, stored: Option<Record>, live: Option<Torrent>, c: Choice): Left
    requires t.prog.Prepare?
  {
    match r
    case Lookup | QueueRegistration | Count => Obtained(t.prog, stored, live, c)
    case Space =>
      if stored.Some? && stored.value.owner.None? then Fails(stored, live)
      else Registered(t.prog, Intended(t.prog, stored, Registering, c), c)
    case SaveQueued => Fails(Some(t.pending), live)
    case SaveIntent => if t.pending.owner.Some? then Registered(t.prog, t.pending, c) else Fails(stored, live)
    case Submission => if t.record.owner.Some? then Registered(t.prog, t.record, c) else Fails(stored, live)
    case Poll => if live.Some? then Preparing(t.prog, t.record, live.value, live.value, c) else Fails(stored, live)
  }

  function VerifyFate(t: Task, w: VerifyPoint, stored: Option<Record>, live: Torrent, playing: bool, c: Choice): Left {
    var b := t.prog.backend;
    match w
    case Check | Evidence | AddMark | ConfirmMark =>
      Onward(t.prog, Judgement(t.record, t.torrent, b, c), t.torrent, playing, c)
    case SaveAdopted => Onward(t.prog, Verdict(true, t.pending, live), t.torrent, playing, c)
    case SaveConflict => Fails(Some(t.pending), Some(live))
  }

  function ChooseFate(t: Task, w: ChoosePoint, live: Torrent, c: Choice): Left
    requires t.prog.Prepare?
  {
    match w
    case Begin => Preparing(t.prog, t.record, t.torrent, live, c)
    case StartIt => Filed(t.prog, t.record, t.torrent, live.(stopped := false), true, c)
    case Files => Filed(t.prog, t.record, t.torrent, live, t.started, c)
    case QueueSlot | SlotCheck =>
      if c.busy || c.file.None? then Fails(Some(t.record), Some(live))
      else Configured(t.prog, Slotted(t.record, c.file.value), t.torrent, live, t.started, c)
    case SaveSlot =>
      if c.file.None? then Fails(Some(t.record), Some(live))
      else Configured(t.prog, t.pending, t.torrent, live, t.started, c)
  }

  function ConfigureFate(t: Task, w: ConfigurePoint, live: Torrent, c: Choice): Left
    requires t.prog.Prepare? && c.file.Some?
  {
    match w
    case Refresh | Tuning | Merge => Configured(t.prog, t.record, t.torrent, live, t.started, c)
    case SaveMerged =>
      Finished(t.prog, t.pending, t.torrent, live.(complete := c.complete), t.started, c.fileComplete)
    case Deselect | SelectWanted =>
      Finished(t.prog, t.record, t.torrent, live.(complete := c.complete), t.started, c.fileComplete)
  }

  function FinishFate(t: Task, w: FinishPoint, stored: Record, live: Torrent): Left
    requires t.prog.Prepare?
  {
    match w
    case StartAgain => Finished(t.prog, t.record, t.torrent, live, t.started, t.fileComplete)
    case Manage => Left(Some(t.record.(lifecycle := Managed)), Some(live), t.prog.playback, Returned(true))
    case SaveManaged => Left(Some(t.pending), Some(live), t.prog.playback, Returned(true))
    case Ready => Left(Some(stored), Some(live), t.prog.playback, Returned(true))
    case Failure(noFile) => Fails(Some(Fallen(stored, noFile)), Some(live))
    case SaveFailure => Fails(Some(t.pending), Some(live))
  }

  function EraseFate(
      t: Task, w: ErasePoint, stored: Option<Record>, live: Option<Torrent>, playing: bool, c: Choice): Left
  {
    match w
    case Find => Found(t.prog, t.record, live, playing, c)
    case Decide =>
      if t.prog.Delete? && stored.Some? && live.Some?
      then Erased(t.prog.rule, stored.value, t.torrent, live.value, playing, c)
      else Fails(stored, live)
    case SaveDeleting | Removal => Ends(None, None, true)
    case Confirm | Forgetting => Ends(None, live, true)
  }

  function PatrolFate(
      t: Task, w: PatrolPoint, stored: Option<Record>, live: Option<Torrent>, playing: bool, c: Choice): Left
  {
    match w
    case Inspect => if t.prog.Sweep? then Swept(t.prog, stored, live, playing, c) else Fails(stored, live)
    case SaveMark => Ends(Some(t.pending), live, true)
    case Relimit | StartStop =>
      if live.Some? then Settled(t.prog, t.record, t.torrent, live.value) else Fails(stored, live)
  }

  // ----- where an undisturbed task stands -------------------------------------------------------

  // How many steps there are at most from a point to the end.
  function Rank(pc: Pc): nat {
    match pc
    case Wait(w) => (
      match w case StartPrepare => 32 case Ask => 3 case Prove => 2 case Press => 1 case _ => 31)
    case Register(r) => (
      match r case Lookup => 30 case QueueRegistration => 29 case Count => 28 case Space => 27 case SaveQueued => 1
              case SaveIntent => 26 case Submission => 25 case Poll => 24)
    case Verify(w) => (
      match w case Check => 23 case Evidence => 22 case AddMark => 21 case ConfirmMark => 20 case SaveAdopted => 19
              case SaveConflict => 1)
    case Choose(w) => (
      match w case Begin => 18 case StartIt => 17 case Files => 16 case QueueSlot => 15 case SlotCheck => 14
              case SaveSlot => 13)
    case Configure(w) => (
      match w case Refresh => 12 case Tuning => 11 case Merge => 10 case SaveMerged => 9 case Deselect => 8
              case SelectWanted => 7)
    case Finish(w) => (
      match w case StartAgain => 6 case Manage => 5 case SaveManaged => 4 case Ready => 3 case Failure(_) => 2
              case SaveFailure => 1)
    case Erase(w) => (
      match w case Find => 30 case Decide => 6 case SaveDeleting => 5 case Removal => 4 case Confirm => 3
              case Forgetting => 2)
    case Patrol(w) => (match w case Inspect => 30 case SaveMark => 1 case Relimit => 3 case StartStop => 2)
  }

  // The points inside the section of all registrations.
  predicate Admitting(pc: Pc) {
    match pc
    case Register(r) => !r.Lookup? && !r.QueueRegistration?
    case Choose(w) => w.SlotCheck? || w.SaveSlot?
    case _ => false
  }

  // What a task knows of its record and its torrent at each of its points.
  predicate QuietOk(t: Task, stored: Option<Record>, live: Option<Torrent>, known: set<Marker>, c: Choice) {
    && Sound(t.prog, stored)
    && t.inSection == !t.pc.Wait? && t.inReg == Admitting(t.pc)
    && match t.pc
       case Wait(w) => Unused(stored, known, c) && !t.tracked && !t.started && WaitOk(t, w, stored, live)
       case Register(r) => t.prog.Prepare? && !t.started && RegisterOk(t, r, stored, live, known, c)
       case Verify(w) =>
         !t.prog.Toggle? && !t.started && stored == Some(t.record) && live.Some? && VerifyOk(t, w, live.value, known, c)
       case Choose(w) => t.prog.Prepare? && stored == Some(t.record) && live.Some? && ChooseOk(t, w, c)
       case Configure(w) =>
         t.prog.Prepare? && stored == Some(t.record) && live.Some? && HasFile(t, c)
         && (w.SaveMerged? ==> t.pending == Merged(t.record, t.file, c.chosen))
       case Finish(w) => t.prog.Prepare? && stored.Some? && live.Some? && FinishOk(t, w, stored.value)
       case Erase(w) => stored.Some? && !t.prog.Toggle? && EraseOk(t, w, stored.value, live, known, c)
       case Patrol(w) => t.prog.Sweep? && stored == Some(t.record) && PatrolOk(t, w, live, known, c)
  }

  // A preparation finds a record of its own hash; and where it may be needed, the marker drawn is new.
  predicate Sound(p: Program, stored: Option<Record>) {
    p.Prepare? && stored.Some? ==> stored.value.hash == p.hash
  }

  predicate Unused(stored: Option<Record>, known: set<Marker>, c: Choice) {
    (stored.Some? && stored.value.owner.Some?) || c.marker !in known
  }

  predicate WaitOk(t: Task, w: WaitPoint, stored: Option<Record>, live: Option<Torrent>) {
    match w
    case StartPrepare | QueuePrepare => t.prog.Prepare?
    case QueueDelete => t.prog.Delete?
    case QueueSweep => t.prog.Sweep?
    case Ask => t.prog.Toggle?
    case Prove => t.prog.Toggle? && stored == Some(t.record) && Askable(t.record)
    case Press => t.prog.Toggle? && live.Some?
  }

  predicate RegisterOk(
      t: Task, r: RegisterPoint, stored: Option<Record>, live: Option<Torrent>, known: set<Marker>, c: Choice)
    requires t.prog.Prepare?
  {
    match r
    case Lookup => Unregistered(t, stored, known, c) && Entered(t.prog, stored)
    case QueueRegistration | Count | Space =>
      && Unregistered(t, stored, known, c) && live.None? && Servable(t.prog, stored, live) && (r.Space? ==> !c.busy)
    case SaveQueued => live.None?
    case SaveIntent => live.None? && Intends(t.prog, t.pending)
    case Submission => live.None? && stored == Some(t.record) && Intends(t.prog, t.record)
    case Poll =>
      stored == Some(t.record) && Intends(t.prog, t.record) && live == Some(NewTorrent(t.prog, t.record))
  }

  predicate Entered(p: Program, stored: Option<Record>)
    requires p.Prepare?
  {
    stored.Some? ==> stored.value.lifecycle != Deleting && !(p.origin == Store && stored.value.origin == Search)
  }

  predicate Unregistered(t: Task, stored: Option<Record>, known: set<Marker>, c: Choice) {
    Unused(stored, known, c) && t.tracked == stored.Some? && (stored.Some? ==> t.record == stored.value)
  }

  predicate Intends(p: Program, r: Record) {
    r.hash == p.hash && r.owner.Some? && r.owner.value.backend == p.backend
  }

  predicate VerifyOk(t: Task, w: VerifyPoint, live: Torrent, known: set<Marker>, c: Choice) {
    var unseen := t.record.owner.None? ==> c.marker !in known;
    match w
    case Check => live == t.torrent && unseen
    case Evidence => live == t.torrent && unseen && Legacy(t)
    case AddMark => live == t.torrent && Adopts(t, c)
    case ConfirmMark => live == t.torrent.(markers := t.torrent.markers + {c.marker}) && Adopts(t, c)
    case SaveAdopted =>
      live == t.torrent.(markers := t.torrent.markers + {c.marker}) && Adopts(t, c) && t.torrent.hash == t.record.hash
    case SaveConflict => true
  }

  predicate Legacy(t: Task) {
    t.record.owner.None? && t.torrent.scope in {"debridarr", "debridgerr"} && t.record.file.path != ""
  }

  predicate Adopts(t: Task, c: Choice) {
    Legacy(t) && c.matches && t.pending == Adopted(t.record, t.torrent, t.prog.backend, c)
  }

  predicate HasFile(t: Task, c: Choice) { c.file == Some(t.file) && c.fileComplete == t.fileComplete }

  predicate ChooseOk(t: Task, w: ChoosePoint, c: Choice)
    requires t.prog.Prepare?
  {
    match w
    case Begin => !t.started
    case StartIt => true
    case Files => true
    case QueueSlot | SlotCheck => HasFile(t, c)
    case SaveSlot => HasFile(t, c) && t.pending == Slotted(t.record, t.file)
  }

  predicate FinishOk(t: Task, w: FinishPoint, stored: Record)
    requires t.prog.Prepare?
  {
    match w
    case StartAgain | Manage => stored == t.record
    case SaveManaged => stored == t.record && t.pending == t.record.(lifecycle := Managed)
    case _ => true
  }

  predicate EraseOk(t: Task, w: ErasePoint, stored: Record, live: Option<Torrent>, known: set<Marker>, c: Choice) {
    match w
    case Find =>
      && t.prog.Delete? && !t.started && t.record == stored && (stored.owner.None? ==> c.marker !in known)
      && (stored.owner.Some? ==> stored.owner.value.backend == t.prog.backend)
    case Decide => t.prog.Delete? && live.Some?
    case SaveDeleting => t.prog.Delete? && t.pending == stored.(lifecycle := Deleting)
    case Removal => t.prog.Delete?
    case Confirm | Forgetting => live.None?
  }

  predicate PatrolOk(t: Task, w: PatrolPoint, live: Option<Torrent>, known: set<Marker>, c: Choice) {
    match w
    case Inspect => !t.started && (t.record.owner.None? ==> c.marker !in known)
    case SaveMark => true
    case Relimit => live.Some?
    case StartStop => live.Some? && t.record.lifecycle != Deleting
  }

  // ----- each step keeps what is to come ------------------------------------------------------------

  // The step leaves just as much to come as there was, and is nearer to the end; or it was the end.
  predicate Quietly(t: Task, o: Outcome, v: View, c: Choice) {
    var stored, live := StoredAfter(v.stored, o.effect), LiveAfter(t.prog.hash, v.live, o.effect);
    var fate := Fate(t, v.stored, v.live, v.playing, c);
    match o.next
    case Halt(ending) => fate == Left(stored, live, o.effect.MarkPlaying?, ending)
    case Continue(t') =>
      && t'.prog == t.prog && !o.effect.MarkPlaying? && Rank(t'.pc) < Rank(t.pc)
      && QuietOk(t', stored, live, KnownAfter(v.known, o.effect), c) && Fate(t', stored, live, v.playing, c) == fate
  }

  predicate Sees(v: View, t: Task) { (v.lockFree <==> !t.inSection) && (v.regFree <==> !t.inReg) }

  predicate Ready(v: View, t: Task, c: Choice) {
    Works(c) && Sees(v, t) && QuietOk(t, v.stored, v.live, v.known, c)
  }

  lemma WaitQuietly(v: View, tid: TaskId, t: Task, p: WaitPoint, c: Choice)
    requires t.pc == Wait(p) && Ready(v, t, c)
    ensures Quietly(t, WaitStep(v, tid, t, p, c), v, c)
  {
  }

  lemma RegisterQuietly(v: View, tid: TaskId, t: Task, p: RegisterPoint, c: Choice)
    requires t.pc == Register(p) && Ready(v, t, c)
    ensures Quietly(t, RegisterStep(v, tid, t, p, c), v, c)
  {
    if p.Lookup? {
      LookupQuietly(v, tid, t, p, c);
    } else if p.Count? || p.Space? {
      IntentQuietly(v, tid, t, p, c);
    } else {
      AdmissionQuietly(v, tid, t, p, c);
    }
  }

  lemma LookupQuietly(v: View, tid: TaskId, t: Task, p: RegisterPoint, c: Choice)
    requires t.pc == Register(p) && Ready(v, t, c) && p.Lookup?
    ensures Quietly(t, RegisterStep(v, tid, t, p, c), v, c)
  {
  }

  lemma AdmissionQuietly(v: View, tid: TaskId, t: Task, p: RegisterPoint, c: Choice)
    requires t.pc == Register(p) && Ready(v, t, c) && !p.Lookup? && !p.Count? && !p.Space?
    ensures Quietly(t, RegisterStep(v, tid, t, p, c), v, c)
  {
  }

  lemma IntentQuietly(v: View, tid: TaskId, t: Task, p: RegisterPoint, c: Choice)
    requires t.pc == Register(p) && Ready(v, t, c) && (p.Count? || p.Space?)
    ensures Quietly(t, RegisterStep(v, tid, t, p, c), v, c)
  {
  }

  lemma VerifyQuietly(v: View, tid: TaskId, t: Task, p: VerifyPoint, c: Choice)
    requires t.pc == Verify(p) && Ready(v, t, c)
    ensures Quietly(t, VerifyStep(v, tid, t, p, c), v, c)
  {
    if p.Check? {
      ProofQuietly(v, tid, t, p, c);
    } else if p.SaveAdopted? {
      AdoptedQuietly(v, tid, t, p, c);
    } else if p.Evidence? {
      EvidenceQuietly(v, tid, t, p, c);
    } else {
      AdoptionQuietly(v, tid, t, p, c);
    }
  }

  lemma ProofQuietly(v: View, tid: TaskId, t: Task, p: VerifyPoint, c: Choice)
    requires t.pc == Verify(p) && Ready(v, t, c) && p.Check?
    ensures Quietly(t, VerifyStep(v, tid, t, p, c), v, c)
  {
    if Legacy(t) || !IsOwned(t.record, t.torrent, t.prog.backend) {
      DoubtQuietly(v, tid, t, p, c);
    } else if t.prog.Prepare? {
      FileIsChosenNext(v, tid, t, p, c);
    } else {
      ErasureOrSeedingIsNext(v, tid, t, p, c);
    }
  }

  lemma DoubtQuietly(v: View, tid: TaskId, t: Task, p: VerifyPoint, c: Choice)
    requires t.pc == Verify(p) && Ready(v, t, c) && p.Check?
    requires Legacy(t) || !IsOwned(t.record, t.torrent, t.prog.backend)
    ensures Quietly(t, VerifyStep(v, tid, t, p, c), v, c)
  {
    OwnsIsOwned(t.record, t.torrent, t.prog.backend);
  }

  lemma FileIsChosenNext(v: View, tid: TaskId, t: Task, p: VerifyPoint, c: Choice)
    requires t.pc == Verify(p) && Ready(v, t, c) && p.Check?
    requires t.prog.Prepare? && IsOwned(t.record, t.torrent, t.prog.backend)
    ensures Quietly(t, VerifyStep(v, tid, t, p, c), v, c)
  {
    OwnsIsOwned(t.record, t.torrent, t.prog.backend);
  }

  lemma ErasureOrSeedingIsNext(v: View, tid: TaskId, t: Task, p: VerifyPoint, c: Choice)
    requires t.pc == Verify(p) && Ready(v, t, c) && p.Check?
    requires !t.prog.Prepare? && IsOwned(t.record, t.torrent, t.prog.backend)
    ensures Quietly(t, VerifyStep(v, tid, t, p, c), v, c)
  {
    OwnsIsOwned(t.record, t.torrent, t.prog.backend);
  }

  lemma OwnsIsOwned(r: Record, t: Torrent, b: BackendId)
    ensures IsOwned(r, t, b) <==> Owns(r, t, b)
  {
  }

  lemma AdoptionQuietly(v: View, tid: TaskId, t: Task, p: VerifyPoint, c: Choice)
    requires t.pc == Verify(p) && Ready(v, t, c) && (p.AddMark? || p.ConfirmMark? || p.SaveConflict?)
    ensures Quietly(t, VerifyStep(v, tid, t, p, c), v, c)
  {
  }

  lemma EvidenceQuietly(v: View, tid: TaskId, t: Task, p: VerifyPoint, c: Choice)
    requires t.pc == Verify(p) && Ready(v, t, c) && p.Evidence?
    ensures Quietly(t, VerifyStep(v, tid, t, p, c), v, c)
  {
  }

  lemma AdoptedQuietly(v: View, tid: TaskId, t: Task, p: VerifyPoint, c: Choice)
    requires t.pc == Verify(p) && Ready(v, t, c) && p.SaveAdopted?
    ensures Quietly(t, VerifyStep(v, tid, t, p, c), v, c)
  {
  }

  lemma ChooseQuietly(v: View, tid: TaskId, t: Task, p: ChoosePoint, c: Choice)
    requires t.pc == Choose(p) && Ready(v, t, c)
    ensures Quietly(t, ChooseStep(v, tid, t, p, c), v, c)
  {
    if p.Files? {
      FilesQuietly(v, tid, t, p, c);
    } else if p.SaveSlot? {
      SlotSavedQuietly(v, tid, t, p, c);
    } else {
      SlotQuietly(v, tid, t, p, c);
    }
  }

  lemma FilesQuietly(v: View, tid: TaskId, t: Task, p: ChoosePoint, c: Choice)
    requires t.pc == Choose(p) && Ready(v, t, c) && p.Files?
    ensures Quietly(t, ChooseStep(v, tid, t, p, c), v, c)
  {
    WantedIsAllowed(t.prog, t.record, c);
    if Wanted(t.prog, t.record, c.file) { FileQuietly(v, tid, t, p, c); } else { NoFileQuietly(v, tid, t, p, c); }
  }

  lemma FileQuietly(v: View, tid: TaskId, t: Task, p: ChoosePoint, c: Choice)
    requires t.pc == Choose(p) && Ready(v, t, c) && p.Files? && Wanted(t.prog, t.record, c.file)
    ensures Quietly(t, ChooseStep(v, tid, t, p, c), v, c)
  {
    WantedIsAllowed(t.prog, t.record, c);
  }

  lemma NoFileQuietly(v: View, tid: TaskId, t: Task, p: ChoosePoint, c: Choice)
    requires t.pc == Choose(p) && Ready(v, t, c) && p.Files? && !Wanted(t.prog, t.record, c.file)
    ensures Quietly(t, ChooseStep(v, tid, t, p, c), v, c)
  {
    WantedIsAllowed(t.prog, t.record, c);
  }

  lemma WantedIsAllowed(p: Program, r: Record, c: Choice)
    requires p.Prepare?
    ensures Wanted(p, r, c.file) <==> c.file.Some? && FileAllowed(p, r, c.file.value)
    ensures Wanted(p, r, c.file) ==> (Reserves(p, r, c.file.value, c.fileComplete) <==>
      p.selection.AllowSelect? && !c.fileComplete && !Covers(r.selected, c.file.value.index))
  {
  }

  lemma SlotQuietly(v: View, tid: TaskId, t: Task, p: ChoosePoint, c: Choice)
    requires t.pc == Choose(p) && Ready(v, t, c) && !p.Files? && !p.SaveSlot?
    ensures Quietly(t, ChooseStep(v, tid, t, p, c), v, c)
  {
  }

  lemma SlotSavedQuietly(v: View, tid: TaskId, t: Task, p: ChoosePoint, c: Choice)
    requires t.pc == Choose(p) && Ready(v, t, c) && p.SaveSlot?
    ensures Quietly(t, ChooseStep(v, tid, t, p, c), v, c)
  {
  }

  lemma ConfigureQuietly(v: View, tid: TaskId, t: Task, p: ConfigurePoint, c: Choice)
    requires t.pc == Configure(p) && Ready(v, t, c)
    ensures Quietly(t, ConfigureStep(v, tid, t, p, c), v, c)
  {
    if p.Refresh? || p.Tuning? || p.Merge? {
      TuneQuietly(v, tid, t, p, c);
    } else if p.SaveMerged? {
      MergedQuietly(v, tid, t, p, c);
    } else {
      SelectQuietly(v, tid, t, p, c);
    }
  }

  lemma TuneQuietly(v: View, tid: TaskId, t: Task, p: ConfigurePoint, c: Choice)
    requires t.pc == Configure(p) && Ready(v, t, c) && (p.Refresh? || p.Tuning? || p.Merge?)
    ensures Quietly(t, ConfigureStep(v, tid, t, p, c), v, c)
  {
  }

  lemma SelectQuietly(v: View, tid: TaskId, t: Task, p: ConfigurePoint, c: Choice)
    requires t.pc == Configure(p) && Ready(v, t, c) && (p.Deselect? || p.SelectWanted?)
    ensures Quietly(t, ConfigureStep(v, tid, t, p, c), v, c)
  {
    if p.Deselect? { DeselectedQuietly(v, tid, t, p, c); } else { SelectedQuietly(v, tid, t, p, c); }
  }

  lemma DeselectedQuietly(v: View, tid: TaskId, t: Task, p: ConfigurePoint, c: Choice)
    requires t.pc == Configure(p) && Ready(v, t, c) && p.Deselect?
    ensures Quietly(t, ConfigureStep(v, tid, t, p, c), v, c)
  {
  }

  lemma SelectedQuietly(v: View, tid: TaskId, t: Task, p: ConfigurePoint, c: Choice)
    requires t.pc == Configure(p) && Ready(v, t, c) && p.SelectWanted?
    ensures Quietly(t, ConfigureStep(v, tid, t, p, c), v, c)
  {
  }

  lemma MergedQuietly(v: View, tid: TaskId, t: Task, p: ConfigurePoint, c: Choice)
    requires t.pc == Configure(p) && Ready(v, t, c) && p.SaveMerged?
    ensures Quietly(t, ConfigureStep(v, tid, t, p, c), v, c)
  {
  }

  lemma FinishQuietly(v: View, tid: TaskId, t: Task, p: FinishPoint, c: Choice)
    requires t.pc == Finish(p) && Ready(v, t, c)
    ensures Quietly(t, FinishStep(v, tid, t, p, c), v, c)
  {
    if p.StartAgain? { RestartQuietly(v, tid, t, p, c); } else { EndQuietly(v, tid, t, p, c); }
  }

  lemma RestartQuietly(v: View, tid: TaskId, t: Task, p: FinishPoint, c: Choice)
    requires t.pc == Finish(p) && Ready(v, t, c) && p.StartAgain?
    ensures Quietly(t, FinishStep(v, tid, t, p, c), v, c)
  {
  }

  lemma EndQuietly(v: View, tid: TaskId, t: Task, p: FinishPoint, c: Choice)
    requires t.pc == Finish(p) && Ready(v, t, c) && !p.StartAgain?
    ensures Quietly(t, FinishStep(v, tid, t, p, c), v, c)
  {
  }

  lemma EligibleMayGo(rule: Rule, r: Record, seen: Torrent, now: int)
    ensures Eligible(rule, r, seen, now) <==> MayGo(rule, r, seen, now)
  {
  }

  lemma EraseQuietly(v: View, tid: TaskId, t: Task, p: ErasePoint, c: Choice)
    requires t.pc == Erase(p) && Ready(v, t, c)
    ensures Quietly(t, EraseStep(v, tid, t, p, c), v, c)
  {
    if p.Decide? {
      EligibleMayGo(t.prog.rule, v.stored.value, t.torrent, c.now);
    }
  }

  lemma PatrolQuietly(v: View, tid: TaskId, t: Task, p: PatrolPoint, c: Choice)
    requires t.pc == Patrol(p) && Ready(v, t, c)
    ensures Quietly(t, PatrolStep(v, tid, t, p, c), v, c)
  {
    if p.Inspect? { InspectQuietly(v, tid, t, p, c); } else { SeedQuietly(v, tid, t, p, c); }
  }

  lemma InspectQuietly(v: View, tid: TaskId, t: Task, p: PatrolPoint, c: Choice)
    requires t.pc == Patrol(p) && Ready(v, t, c) && p.Inspect?
    ensures Quietly(t, PatrolStep(v, tid, t, p, c), v, c)
  {
  }

  lemma SeedQuietly(v: View, tid: TaskId, t: Task, p: PatrolPoint, c: Choice)
    requires t.pc == Patrol(p) && Ready(v, t, c) && !p.Inspect?
    ensures Quietly(t, PatrolStep(v, tid, t, p, c), v, c)
  {
  }

  lemma StepQuietly(v: View, tid: TaskId, t: Task, c: Choice)
    requires Ready(v, t, c)
    ensures Quietly(t, Advance(v, tid, t, c), v, c)
  {
    match t.pc {
      case Wait(p) => WaitQuietly(v, tid, t, p, c);
      case Register(p) => RegisterQuietly(v, tid, t, p, c);
      case Verify(p) => VerifyQuietly(v, tid, t, p, c);
      case Choose(p) => ChooseQuietly(v, tid, t, p, c);
      case Configure(p) => ConfigureQuietly(v, tid, t, p, c);
      case Finish(p) => FinishQuietly(v, tid, t, p, c);
      case Erase(p) => EraseQuietly(v, tid, t, p, c);
      case Patrol(p) => PatrolQuietly(v, tid, t, p, c);
    }
  }

  // ----- a whole run --------------------------------------------------------------------------------

  // Nothing has changed at any other hash or in any other client.
  ghost predicate OnlyAt(s: State, s': State, b: BackendId, h: Hash) {
    && (forall h' | h' != h :: Stored(s', h') == Stored(s, h'))
    && (forall b', h' | (b', h') != (b, h) :: Live(s', b', h') == Live(s, b', h'))
  }

  lemma AppliesOnlyThere(s: State, tid: TaskId, t: Task, o: Outcome)
    ensures OnlyAt(s, Apply(s, tid, t, o), t.prog.backend, t.prog.hash)
  {
  }

  // A task in its section, or one that will enter it, ends by releasing the lock.
  predicate Locks(t: Task, stored: Option<Record>, playing: bool) {
    t.inSection || Enters(t.prog, stored, playing)
  }

  // How a run shows in the log: by the release of the lock at its end, or not at all.
  predicate Shows(log: seq<Event>, log': seq<Event>, tid: TaskId, p: Program, locks: bool, ending: Ending) {
    && (locks ==> log' != [] && log'[|log'| - 1] == Unlocked(tid, p.hash, ending))
    && (!locks && !p.Toggle? ==> log' == log)
  }

  predicate StepShowsAs(v: View, tid: TaskId, t: Task, o: Outcome) {
    var locks := Locks(t, v.stored, v.playing);
    match o.next
    case Halt(ending) => Shows(v.log, LogAfter(v.log, tid, t, o), tid, t.prog, locks, ending)
    case Continue(t') =>
      && (!locks && !t.prog.Toggle? ==> o.note.None?)
      && (t.inSection ==> t'.inSection) && (!t.inSection ==> o.effect.Nothing?) && (t'.inSection ==> locks)
  }

  lemma StepShows(v: View, tid: TaskId, t: Task, c: Choice)
    requires Ready(v, t, c)
    ensures Rank(t.pc) > 0 && StepShowsAs(v, tid, t, Advance(v, tid, t, c))
  {
    StepQuietly(v, tid, t, c);
    if t.pc.Wait? { WaitShows(v, tid, t, t.pc.w, c); } else { SectionShows(v, tid, t, c, Advance(v, tid, t, c)); }
  }

  lemma SectionShows(v: View, tid: TaskId, t: Task, c: Choice, o: Outcome)
    requires Ready(v, t, c) && t.inSection && Quietly(t, o, v, c)
    requires o.next.Continue? ==> o.next.task.inSection
    ensures StepShowsAs(v, tid, t, o)
  {
  }

  lemma WaitShows(v: View, tid: TaskId, t: Task, p: WaitPoint, c: Choice)
    requires t.pc == Wait(p) && Ready(v, t, c)
    ensures var o := WaitStep(v, tid, t, p, c);
      match o.next
      case Halt(_) => !t.prog.Toggle? ==> o.note.None? && !Enters(t.prog, v.stored, v.playing)
      case Continue(t') =>
        && o.effect.Nothing? && (t'.inSection ==> Enters(t.prog, v.stored, v.playing))
        && (!Enters(t.prog, v.stored, v.playing) && !t.prog.Toggle? ==> o.note.None?)
  {
  }

  lemma Stays(s: State, tid: TaskId, c: Choice, n: nat)
    requires tid !in s.tasks
    ensures Steps(s, tid, c, n) == s
    decreases n
  {
    if n > 0 { Stays(s, tid, c, n - 1); }
  }

  // What is still to come does come.
  ghost predicate ComesTrue(s: State, s': State, tid: TaskId, p: Program, f: Left, locks: bool) {
    && Leaves(s', tid, p, f.stored, f.live) && OnlyAt(s, s', p.backend, p.hash)
    && s'.playing == (if f.playing then s.playing + multiset{p.hash} else s.playing)
    && Shows(s.log, s'.log, tid, p, locks, f.ending)
  }

  // The task is at most n steps from its end, and just this is still to come.
  predicate OnTrack(s: State, tid: TaskId, p: Program, c: Choice, n: nat, f: Left, locks: bool) {
    && tid in s.tasks && s.tasks[tid].prog == p && Alone(s, tid, p.hash) && Rank(s.tasks[tid].pc) <= n
    && var t := s.tasks[tid]; var stored, live := Stored(s, p.hash), Live(s, p.backend, p.hash);
       && QuietOk(t, stored, live, s.known, c)
       && Fate(t, stored, live, s.playing[p.hash] > 0, c) == f && Locks(t, stored, s.playing[p.hash] > 0) == locks
  }

  // Nothing has happened but at this hash, and no call has shown that will not take the lock.
  ghost predicate Passes(s: State, s1: State, p: Program, locks: bool) {
    && s1.playing == s.playing && OnlyAt(s, s1, p.backend, p.hash)
    && (!locks && !p.Toggle? ==> s1.log == s.log)
  }

  // One step on: what is to come has come, or is still to come and nothing else has happened.
  ghost predicate GoesOn(s: State, tid: TaskId, p: Program, c: Choice, n: nat, f: Left, locks: bool,
                         track: (State, nat) -> bool)
  {
    var s1 := Next(s, Step(tid, c));
    && n > 0
    && (ComesTrue(s, s1, tid, p, f, locks)
        || (track(s1, n - 1) && Passes(s, s1, p, locks)))
  }

  lemma QuietStep(s: State, tid: TaskId, p: Program, c: Choice, n: nat, f: Left, locks: bool,
                  track: (State, nat) -> bool)
    requires OnTrack(s, tid, p, c, n, f, locks) && Works(c)
    requires forall s', k: nat :: track(s', k) <==> OnTrack(s', tid, p, c, k, f, locks)
    ensures GoesOn(s, tid, p, c, n, f, locks, track)
  {
    var t := s.tasks[tid];
    var stored, live := Stored(s, p.hash), Live(s, p.backend, p.hash);
    StepGoesOn(s, tid, t, stored, live, c);
    if tid in Next(s, Step(tid, c)).tasks { assert track(Next(s, Step(tid, c)), n - 1); }
  }

  lemma StepGoesOn(s: State, tid: TaskId, t: Task, stored: Option<Record>, live: Option<Torrent>, c: Choice)
    requires Stands(s, tid, t, stored, live) && Works(c) && QuietOk(t, stored, live, s.known, c)
    ensures var s1 := Next(s, Step(tid, c)); var p := t.prog; var playing := s.playing[p.hash] > 0;
      var f, locks := Fate(t, stored, live, playing, c), Locks(t, stored, playing);
      && Rank(t.pc) > 0
      && if tid in s1.tasks
         then OnTrack(s1, tid, p, c, Rank(t.pc) - 1, f, locks) && Passes(s, s1, p, locks)
         else ComesTrue(s, s1, tid, p, f, locks)
  {
    var v := ViewOf(s, t.prog);
    Views(s, tid, t, stored, live);
    StepQuietly(v, tid, t, c);
    StepShows(v, tid, t, c);
    OutcomeGoesOn(s, tid, t, stored, live, c, v, Advance(v, tid, t, c));
  }

  lemma OutcomeGoesOn(s: State, tid: TaskId, t: Task, stored: Option<Record>, live: Option<Torrent>, c: Choice,
                      v: View, o: Outcome)
    requires Stands(s, tid, t, stored, live) && v.stored == stored && v.live == live && v.known == s.known
    requires v.log == s.log && v.playing == (s.playing[t.prog.hash] > 0)
    requires Quietly(t, o, v, c) && StepShowsAs(v, tid, t, o)
    ensures var s1 := Apply(s, tid, t, o); var p := t.prog;
      var f, locks := Fate(t, stored, live, v.playing, c), Locks(t, stored, v.playing);
      if o.next.Continue?
      then Rank(t.pc) > 0 && OnTrack(s1, tid, p, c, Rank(t.pc) - 1, f, locks) && Passes(s, s1, p, locks)
      else ComesTrue(s, s1, tid, p, f, locks)
  {
    Applies(s, tid, t, stored, live, o);
    AppliesOnlyThere(s, tid, t, o);
  }

  // Whatever is on a track that only goes on to what is to come, comes to that.
  lemma {:induction false} TracksEnd(s: State, tid: TaskId, p: Program, c: Choice, n: nat, f: Left, locks: bool,
                                     track: (State, nat) -> bool)
    requires forall s', k: nat {:trigger GoesOn(s', tid, p, c, k, f, locks, track)} | track(s', k) ::
      GoesOn(s', tid, p, c, k, f, locks, track)
    requires track(s, n)
    ensures ComesTrue(s, Steps(s, tid, c, n), tid, p, f, locks)
    decreases n
  {
    var s1 := Next(s, Step(tid, c));
    assert GoesOn(s, tid, p, c, n, f, locks, track);
    if track(s1, n - 1) && Passes(s, s1, p, locks) {
      TracksEnd(s1, tid, p, c, n - 1, f, locks, track);
      OneFurther(s, s1, Steps(s1, tid, c, n - 1), tid, p, f, locks);
    } else {
      Stays(s1, tid, c, n - 1);
    }
  }

  lemma OneFurther(s: State, s1: State, s': State, tid: TaskId, p: Program, f: Left, locks: bool)
    requires Passes(s, s1, p, locks) && ComesTrue(s1, s', tid, p, f, locks)
    ensures ComesTrue(s, s', tid, p, f, locks)
  {
  }

  // Nobody else is at this hash or registers, and the next task's number is new.
  predicate Idle(s: State, h: Hash) { s.nextTask !in s.tasks && Alone(s, s.nextTask, h) }

  lemma SpawnStands(s: State, p: Program)
    requires Idle(s, p.hash)
    ensures var s1 := Next(s, Spawn(p));
      && Stands(s1, s.nextTask, InitialTask(p), Stored(s, p.hash), Live(s, p.backend, p.hash))
      && s1.known == s.known && s1.playing == s.playing && s1.log == s.log
      && OnlyAt(s, s1, p.backend, p.hash)
  {
  }

  // Every call that is left alone does what it would do without its awaits: to the record, to the torrent, to the
  // count of playbacks, in what it returns and whether it takes the lock at all; and it does nothing else.
  lemma UndisturbedCallsAreSequential(s: State, p: Program, c: Choice)
    requires Idle(s, p.hash) && Works(c)
    requires Sound(p, Stored(s, p.hash)) && Unused(Stored(s, p.hash), s.known, c)
    ensures var s' := Steps(Next(s, Spawn(p)), s.nextTask, c, 32);
      var stored, playing := Stored(s, p.hash), s.playing[p.hash] > 0;
      ComesTrue(s, s', s.nextTask, p, Leaving(p, stored, Live(s, p.backend, p.hash), playing, c),
                Enters(p, stored, playing))
  {
    var tid, stored, playing := s.nextTask, Stored(s, p.hash), s.playing[p.hash] > 0;
    var f, locks := Leaving(p, stored, Live(s, p.backend, p.hash), playing, c), Enters(p, stored, playing);
    var track := (s': State, k: nat) => OnTrack(s', tid, p, c, k, f, locks);
    SpawnStands(s, p);
    forall s', k: nat | track(s', k) ensures GoesOn(s', tid, p, c, k, f, locks, track) {
      QuietStep(s', tid, p, c, k, f, locks, track);
    }
    TracksEnd(Next(s, Spawn(p)), tid, p, c, 32, f, locks, track);
  }

  // ----- additions and deletions ----------------------------------------------------------------------

  // A request for nothing in particular, for which there is a slot and a file.
  predicate Adding(p: Program, c: Choice) {
    p.Prepare? && p.selection.Pick? && !p.existingOnly && Works(c) && !c.busy && c.file.Some?
  }

  // An addition ends with a running torrent and with a managed record that owns it, names the picked file, covers
  // every chosen one and keeps all that was selected before. A new record carries the marker drawn and expires after
  // its retention; an earlier one stays as old, as long, as kept and whose it was.
  lemma AdditionsEndRunning(s: State, p: Program, c: Choice)
    requires Idle(s, p.hash) && Adding(p, c) && Live(s, p.backend, p.hash).None?
    requires p.hash !in s.records ==> c.marker !in s.known
    requires p.hash in s.records ==>
      var r := s.records[p.hash];
      && r.hash == p.hash && r.lifecycle != Deleting && r.owner.Some? && r.owner.value.backend == p.backend
      && !(p.origin == Store && r.origin == Search)
    ensures var s' := Steps(Next(s, Spawn(p)), s.nextTask, c, 32);
      && s.nextTask !in s'.tasks && s'.playing == (if p.playback then s.playing + multiset{p.hash} else s.playing)
      && p.hash in s'.records
      && var r := s'.records[p.hash];
         && r.hash == p.hash && r.lifecycle == Managed && r.owner.Some? && r.owner.value.backend == p.backend
         && Live(s', p.backend, p.hash) ==
              Some(Torrent(p.hash, r.owner.value.scope, {r.owner.value.marker}, false, c.complete, 0.0))
         && r.file == c.file.value && Covers(r.selected, r.file.index)
         && (forall f <- c.chosen :: Covers(r.selected, f.index))
         && (p.hash !in s.records ==>
               && r.origin == p.origin && !r.kept && r.owner == Some(Owner(p.backend, "debridarr", c.marker))
               && r.addedAt == c.now && r.expiresAt == c.now + p.retentionDays * 24 * 60 * 60 * 1000)
         && (p.hash in s.records ==>
               var was := s.records[p.hash];
               && r.origin == was.origin && r.kept == was.kept && r.owner == was.owner
               && r.addedAt == was.addedAt && r.expiresAt == was.expiresAt && was.selected <= r.selected)
  {
    var stored := Stored(s, p.hash);
    AdditionLeaves(p, stored, s.playing[p.hash] > 0, c);
    UndisturbedCallsAreSequential(s, p, c);
    MergedCovers(Intended(p, stored, Registering, c), c.file.value, c.chosen);
  }

  lemma AdditionLeaves(p: Program, stored: Option<Record>, playing: bool, c: Choice)
    requires Adding(p, c) && Servable(p, stored, None)
    ensures var r := Intended(p, stored, Registering, c);
      Leaving(p, stored, None, playing, c) ==
        Left(Some(Merged(r, c.file.value, c.chosen).(lifecycle := Managed)),
             Some(Torrent(p.hash, r.owner.value.scope, {r.owner.value.marker}, false, c.complete, 0.0)),
             p.playback, Returned(true))
  {
  }

  lemma MergedCovers(r: Record, f: FileRef, chosen: seq<FileRef>)
    ensures var m := Merged(r, f, chosen);
      && Covers(m.selected, m.file.index) && (forall g <- chosen :: Covers(m.selected, g.index))
      && r.selected <= m.selected
  {
    var one := [f];
    assert Covers(one, one[0].index);
    forall g <- chosen ensures Covers(Merged(r, f, chosen).selected, g.index) { assert Covers(chosen, g.index); }
    UnionKeeps(Union(r.selected, one), chosen, f.index);
  }

  // A file joins a selection behind what was selected before, unless its index was.
  lemma UnionAddsOnce(selected: seq<FileRef>, f: FileRef)
    ensures Union(selected, [f]) == if exists g <- selected :: g.index == f.index then selected else selected + [f]
  {
    assert [f][1..] == [];
  }

  lemma UnionKeeps(selected: seq<FileRef>, chosen: seq<FileRef>, index: nat)
    requires Covers(selected, index)
    ensures Covers(Union(selected, chosen), index)
  {
    var u := Union(selected, chosen);
    var g :| g in selected && g.index == index;
    assert g in u[..|selected|];
  }

  // A deletion of a record that owns the torrent and that nobody plays: a title that may go by the deletion's rule is
  // gone at its end, torrent and record; of any other nothing has changed.
  lemma DeletionsAreExact(s: State, p: Program, c: Choice, seen: Torrent)
    requires Idle(s, p.hash) && p.Delete? && Works(c) && s.playing[p.hash] == 0
    requires p.hash in s.records && IsOwned(s.records[p.hash], seen, p.backend)
    requires Live(s, p.backend, p.hash) == Some(seen)
    ensures var r := s.records[p.hash]; var may := MayGo(p.rule, r, seen, c.now);
      var s' := Steps(Next(s, Spawn(p)), s.nextTask, c, 32);
      && s.nextTask !in s'.tasks
      && (may ==> p.hash !in s'.records && Live(s', p.backend, p.hash).None?)
      && (!may ==> Stored(s', p.hash) == Some(r) && Live(s', p.backend, p.hash) == Some(seen))
  {
    DeletionLeaves(p, s.records[p.hash], seen, c);
    UndisturbedCallsAreSequential(s, p, c);
  }

  lemma DeletionLeaves(p: Program, r: Record, seen: Torrent, c: Choice)
    requires p.Delete? && IsOwned(r, seen, p.backend)
    ensures Leaving(p, Some(r), Some(seen), false, c) ==
      if MayGo(p.rule, r, seen, c.now) then Left(None, None, false, Returned(true))
      else Left(Some(r), Some(seen), false, Returned(false))
  {
  }

  // ----- admissions, adoptions and switches -----------------------------------------------------------

  // An addition that finds every slot taken is queued exactly if it asked for that and is the store's; its record then
  // has an owner already, but no torrent. Otherwise it leaves nothing.
  lemma BusyAdditionsAreQueuedExactly(s: State, p: Program, c: Choice)
    requires Idle(s, p.hash) && p.Prepare? && p.selection.Pick? && !p.existingOnly && Works(c) && c.busy
    requires Live(s, p.backend, p.hash).None? && Servable(p, Stored(s, p.hash), None)
    requires Sound(p, Stored(s, p.hash)) && Unused(Stored(s, p.hash), s.known, c)
    ensures var s' := Steps(Next(s, Spawn(p)), s.nextTask, c, 32); var was := Stored(s, p.hash);
      var queues := p.queueIfBusy && (if was.Some? then was.value.origin == Store else p.origin == Store);
      && s.nextTask !in s'.tasks && Live(s', p.backend, p.hash).None?
      && (!queues ==> Stored(s', p.hash) == was)
      && (queues ==> p.hash in s'.records && QueuedFor(s'.records[p.hash], p, was, c))
  {
    UndisturbedCallsAreSequential(s, p, c);
  }

  // The record of a queued title: an earlier one with its new size, or one of the request.
  predicate QueuedFor(r: Record, p: Program, was: Option<Record>, c: Choice)
    requires p.Prepare?
  {
    && r.lifecycle == Queued && r.owner.Some? && r.owner.value.backend == p.backend && r.file.bytes == p.bytes
    && (was.Some? ==> r == was.value.(lifecycle := Queued, file := was.value.file.(bytes := p.bytes)))
    && (was.None? ==>
          && r.owner == Some(Owner(p.backend, "debridarr", c.marker)) && r.origin == Store && !r.kept
          && r.hash == p.hash && r.selected == [] && r.addedAt == c.now
          && r.expiresAt == c.now + p.retentionDays * 24 * 60 * 60 * 1000)
  }

  // A sweep gives a record without an owner one exactly if its torrent is of this hash, in a scope of ours and holds
  // the recorded file; any other such record becomes a conflict.
  lemma LegacyTitlesAreAdoptedExactly(s: State, p: Program, c: Choice, seen: Torrent)
    requires Idle(s, p.hash) && p.Sweep? && Works(c) && c.marker !in s.known
    requires p.hash in s.records && s.records[p.hash].owner.None? && Live(s, p.backend, p.hash) == Some(seen)
    ensures var s' := Steps(Next(s, Spawn(p)), s.nextTask, c, 32); var was := s.records[p.hash];
      var ours := (seen.scope == "debridarr" || seen.scope == "debridgerr") && was.file.path != "" && c.matches;
      && p.hash in s'.records && Live(s', p.backend, p.hash).Some?
      && Live(s', p.backend, p.hash).value.markers == (if ours then seen.markers + {c.marker} else seen.markers)
      && var r := s'.records[p.hash];
         if ours && seen.hash == was.hash
         then r.owner == Some(Owner(p.backend, seen.scope, c.marker)) && r.lifecycle == Managed
              && r.selected == [was.file] && r == was.(owner := r.owner, lifecycle := Managed, selected := r.selected)
         else r == was.(lifecycle := Conflict)
  {
    LegacyLeaves(p, s.records[p.hash], seen, s.playing[p.hash] > 0, c);
    UndisturbedCallsAreSequential(s, p, c);
  }

  lemma LegacyLeaves(p: Program, r: Record, seen: Torrent, playing: bool, c: Choice)
    requires p.Sweep? && r.owner.None?
    ensures var left := Leaving(p, Some(r), Some(seen), playing, c);
      var ours := (seen.scope == "debridarr" || seen.scope == "debridgerr") && r.file.path != "" && c.matches;
      && left.live.Some? && left.live.value.markers == (if ours then seen.markers + {c.marker} else seen.markers)
      && left.stored == Some(
           if ours && seen.hash == r.hash
           then r.(owner := Some(Owner(p.backend, seen.scope, c.marker)), lifecycle := Managed, selected := [r.file])
           else r.(lifecycle := Conflict))
  {
  }

  // A pause or resume reaches exactly the torrent of a managed store record that owns it, and it changes no record.
  lemma TogglesAreExact(s: State, p: Program, c: Choice)
    requires Idle(s, p.hash) && p.Toggle? && Works(c) && Unused(Stored(s, p.hash), s.known, c)
    ensures var s' := Steps(Next(s, Spawn(p)), s.nextTask, c, 32); var live := Live(s, p.backend, p.hash);
      && s.nextTask !in s'.tasks && Stored(s', p.hash) == Stored(s, p.hash)
      && if p.hash in s.records && s.records[p.hash].origin == Store && s.records[p.hash].lifecycle == Managed
            && live.Some? && IsOwned(s.records[p.hash], live.value, p.backend)
         then Live(s', p.backend, p.hash) == Some(live.value.(stopped := !p.running))
         else Live(s', p.backend, p.hash) == live
  {
    UndisturbedCallsAreSequential(s, p, c);
  }

  // ----- every removal ------------------------------------------------------------------------

  // Event j is the judgement of a record that may go by the rule of the deletion that event k began.
  ghost predicate LetGo(log: seq<Event>, i: nat, k: nat, m: nat, j: nat, tid: TaskId, h: Hash) {
    && JudgedBefore(log, i, k, m, j, tid, h)
    && MayGo(log[k].prog.rule, log[j].stored.value, log[j].torrent, log[j].now)
  }

  // In every run, before every removal and in the same section, the record stored then might go by the rule of the
  // deletion: so no rule but the unconditional one ever removes a kept title, unless it was being deleted already.
  lemma OnlyWhatMayGoIsRemoved(s: State, actions: seq<Action>, i: nat)
    requires Init(s) && i < |Execute(s, actions).log|
    requires Execute(s, actions).log[i].Acted? && Execute(s, actions).log[i].act.Remove?
    ensures var log := Execute(s, actions).log; var e := log[i];
      exists k: nat, m: nat, j: nat :: LetGo(log, i, k, m, j, e.task, e.hash)
  {
    RemovalsAreIdleAndEligible(s, actions, i);
    var log := Execute(s, actions).log;
    var k: nat, m: nat, j: nat :| JudgedBefore(log, i, k, m, j, log[i].task, log[i].hash);
    JudgedMayGo(log, i, k, m, j, log[i].task, log[i].hash);
  }

  lemma JudgedMayGo(log: seq<Event>, i: nat, k: nat, m: nat, j: nat, tid: TaskId, h: Hash)
    requires JudgedBefore(log, i, k, m, j, tid, h)
    ensures LetGo(log, i, k, m, j, tid, h)
  {
    EligibleMayGo(log[k].prog.rule, log[j].stored.value, log[j].torrent, log[j].now);
  }

  // And in every state: a deletion that judges goes on exactly when nobody plays the title and the stored record may
  // go, and what it then writes is that record with its deletion begun.
  lemma JudgesExactly(s: State, tid: TaskId, c: Choice, c': Choice)
    requires tid in s.tasks && s.tasks[tid].pc == Erase(Decide) && s.tasks[tid].prog.Delete?
    requires s.tasks[tid].prog.hash in s.records && !c'.fail
    ensures var t := s.tasks[tid]; var r := s.records[t.prog.hash]; var s' := Next(s, Step(tid, c));
      var goes := s.playing[t.prog.hash] == 0 && MayGo(t.prog.rule, r, t.torrent, c.now);
      && s'.records == s.records
      && (tid in s'.tasks <==> goes)
      && (goes ==> Stored(Next(s', Step(tid, c')), t.prog.hash) == Some(r.(lifecycle := Deleting)))
  {
    var t := s.tasks[tid];
    EligibleMayGo(t.prog.rule, s.records[t.prog.hash], t.torrent, c.now);
    DecisionIsMade(s, tid, c);
    if tid in Next(s, Step(tid, c)).tasks { DeletionIsWritten(Next(s, Step(tid, c)), tid, c'); }
  }

  lemma DecisionIsMade(s: State, tid: TaskId, c: Choice)
    requires tid in s.tasks && s.tasks[tid].pc == Erase(Decide) && s.tasks[tid].prog.Delete?
    requires s.tasks[tid].prog.hash in s.records
    ensures var t := s.tasks[tid]; var r := s.records[t.prog.hash]; var s' := Next(s, Step(tid, c));
      && s'.records == s.records
      && (tid in s'.tasks <==> s.playing[t.prog.hash] == 0 && Eligible(t.prog.rule, r, t.torrent, c.now))
      && (tid in s'.tasks ==>
            && s'.tasks[tid].prog == t.prog && s'.tasks[tid].pc == Erase(SaveDeleting)
            && s'.tasks[tid].pending == r.(lifecycle := Deleting))
  {
  }

  lemma DeletionIsWritten(s: State, tid: TaskId, c: Choice)
    requires tid in s.tasks && s.tasks[tid].pc == Erase(SaveDeleting) && s.tasks[tid].prog.hash in s.records && !c.fail
    ensures Stored(Next(s, Step(tid, c)), s.tasks[tid].prog.hash) == Some(s.tasks[tid].pending)
  {
  }
}
