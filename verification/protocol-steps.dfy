/**
 What the managed-download protocol promises, what each of its program points relies on, and that a task's
 own step keeps it.
 */
module ManagedSteps {
  import opened Wrappers
  import opened ManagedDownloads

  // ----- the properties -----------------------------------------------------------------------

  // Every torrent carrying a marker drawn by a preparation has a stored record with that same marker.
  ghost predicate NoOrphans(s: State) {
    forall b, h | b in s.backends && h in s.backends[b] ::
      forall m | m in s.backends[b][h].markers && m in s.prepared :: Tracked(s, b, h, m)
  }

  predicate Tracked(s: State, b: BackendId, h: Hash, m: Marker) {
    && h in s.records
    && s.records[h].owner.Some?
    && s.records[h].owner.value.backend == b
    && s.records[h].owner.value.marker == m
  }

  predicate Breaks(e: Event, h: Hash) {
    e.Crashed? || (e.Locked? && e.prog.hash == h) || (e.Unlocked? && e.hash == h)
  }

  // From `from` up to (not including) `to`, task `tid` is the only one inside the section of its hash.
  ghost predicate Section(log: seq<Event>, from: nat, to: nat, tid: TaskId, p: Program) {
    && from < to <= |log|
    && log[from] == Locked(tid, p)
    && forall x | from < x < to :: !Breaks(log[x], p.hash)
  }

  // Event k is where task `tid` entered the section of h that it is still in before event i.
  ghost predicate Entered(log: seq<Event>, i: nat, k: nat, tid: TaskId, h: Hash) {
    k < i <= |log| && log[k].Locked? && log[k].prog.hash == h && Section(log, k, i, tid, log[k].prog)
  }

  predicate SawAt(log: seq<Event>, from: nat, at: nat, tid: TaskId, p: Program, live: Option<Torrent>) {
    from < at < |log| && log[at] == Saw(tid, p.backend, p.hash, live)
  }

  predicate Proves(owner: Owner, torrent: Torrent, b: BackendId, h: Hash) {
    owner.backend == b && torrent.hash == h && torrent.scope == owner.scope && owner.marker in torrent.markers
  }

  // Event j is a lookup that shows the owner's scope and marker.
  predicate Shows(log: seq<Event>, j: nat, tid: TaskId, b: BackendId, h: Hash, owner: Owner)
    requires j < |log|
  {
    && log[j].Saw? && log[j].live.Some?
    && log[j] == Saw(tid, b, h, log[j].live)
    && Proves(owner, log[j].live.value, b, h)
  }

  // Inside one section, before event i: such a lookup.
  ghost predicate ProvenBefore(
      log: seq<Event>, i: nat, k: nat, j: nat, tid: TaskId, b: BackendId, h: Hash, owner: Owner) {
    Entered(log, i, k, tid, h) && k < j < i && Shows(log, j, tid, b, h, owner)
  }

  ghost predicate AbsentBefore(log: seq<Event>, i: nat, k: nat, j: nat, tid: TaskId, b: BackendId, h: Hash) {
    Entered(log, i, k, tid, h) && k < j < i && log[j] == Saw(tid, b, h, None)
  }

  // Event j accepts the record stored at that moment by the rule the deletion was called with, for a torrent
  // looked up by event m, while nobody plays the title.
  predicate Accepts(log: seq<Event>, j: nat, m: nat, tid: TaskId, p: Program)
    requires m < |log| && j < |log|
  {
    && p.Delete?
    && log[j].Judged? && log[j].task == tid && log[j].hash == p.hash && log[j].rule == p.rule
    && log[j].stored.Some? && !log[j].playing
    && Eligible(log[j].rule, log[j].stored.value, log[j].torrent, log[j].now)
    && log[m] == Saw(tid, p.backend, p.hash, Some(log[j].torrent))
  }

  ghost predicate JudgedBefore(log: seq<Event>, i: nat, k: nat, m: nat, j: nat, tid: TaskId, h: Hash) {
    Entered(log, i, k, tid, h) && k < m < j < i && Accepts(log, j, m, tid, log[k].prog)
  }

  const SCOPES := {"debridarr", "debridgerr"}

  // What a legacy adoption needs before it marks a torrent: an unowned record with a file, and the scope.
  ghost predicate TaggableBefore(log: seq<Event>, i: nat, k: nat, j: nat, tid: TaskId, b: BackendId, h: Hash) {
    && Entered(log, i, k, tid, h) && k < j < i
    && log[j].Saw? && log[j].live.Some? && log[j] == Saw(tid, b, h, log[j].live)
    && log[j].live.value.scope in SCOPES
  }

  // A toggle's own reading of a managed store record, and after it a lookup that proves the owner it read.
  predicate AskedBefore(
      log: seq<Event>, i: nat, k: nat, j: nat, tid: TaskId, b: BackendId, h: Hash, owner: Owner) {
    && k < j < i <= |log|
    && AskedAt(log, k, tid, h, owner)
    && Shows(log, j, tid, b, h, owner)
  }

  predicate AskedAt(log: seq<Event>, k: nat, tid: TaskId, h: Hash, owner: Owner)
    requires k < |log|
  {
    && log[k].Asked? && log[k].stored.Some?
    && log[k] == Asked(tid, h, log[k].stored)
    && Askable(log[k].stored.value) && log[k].stored.value.owner == Some(owner)
  }

  // What must have happened before each consequential event.
  ghost predicate EventOk(log: seq<Event>, i: nat)
    requires i < |log|
  {
    match log[i]
    case Acted(tid, b, h, act, owner, claimed, undone, playing) =>
      && owner == (if undone then None else Some(claimed))
      && (exists k, j :: ProvenBefore(log, i, k, j, tid, b, h, claimed))
      && (act.Remove? ==> !playing && exists k, m, j :: JudgedBefore(log, i, k, m, j, tid, h))
    case Tagged(tid, b, h, marker, stored) =>
      && stored.Some? && stored.value.owner.None? && stored.value.file.path != ""
      && exists k, j :: TaggableBefore(log, i, k, j, tid, b, h)
    case Submitted(tid, b, h, marker, stored) =>
      stored.Some? && OwnedBy(stored.value, b) && stored.value.owner.value.marker == marker
    case Forgot(tid, b, h, owner, undone) =>
      && (if undone then owner == None else owner.Some? && owner.value.backend == b)
      && exists k, j :: AbsentBefore(log, i, k, j, tid, b, h)
    case Prepared(tid, h, file, stored, over, _, _, _) =>
      stored.Some? && (if over.None? then Usable(stored.value, file) else Agree(over.value, stored.value))
    case Toggled(tid, b, h, running, claimed) => exists k, j :: AskedBefore(log, i, k, j, tid, b, h, claimed)
    case _ => true
  }

  predicate Chosen(r: Record, file: FileRef) { r.file == file && Covers(r.selected, file.index) }

  predicate Usable(r: Record, file: FileRef) { r.lifecycle == Managed && Chosen(r, file) }

  ghost predicate LogOk(log: seq<Event>) {
    forall i | 0 <= i < |log| :: EventOk(log, i)
  }

  // ----- the inductive invariant --------------------------------------------------------------

  predicate Agree(a: Record, b: Record) { a == b.(kept := a.kept, expiresAt := a.expiresAt) }

  // What was last written or read, or what a late keep has put back since.
  function Basis(t: Task): Record { if t.past.over.Some? then t.past.over.value else t.record }

  // The stored record differs from the task's basis at most in what racing writes may change.
  predicate Agrees(t: Task, stored: Option<Record>) {
    && t.tracked == stored.Some?
    && (stored.Some? ==>
          && t.record.hash == t.prog.hash
          && Agree(Basis(t), stored.value)
          && stored.value.owner == (if t.past.undone then None else t.record.owner))
  }

  predicate OwnedBy(r: Record, b: BackendId) { r.owner.Some? && r.owner.value.backend == b }

  // A pending write leaves the stored owner alone.
  predicate PendingOk(v: View, t: Task) {
    t.pending.hash == t.prog.hash && (v.stored.Some? ==> t.pending.owner == v.stored.value.owner)
  }

  predicate SameOwner(v: View, t: Task) { v.stored.Some? && t.record.owner == v.stored.value.owner }

  // Before ownership is proved, a keep can only have been put back over the intent of an owned record.
  predicate Early(t: Task) { !t.past.undone && (t.past.over.Some? ==> t.record.owner.Some?) }

  predicate Untouched(t: Task) { !t.past.undone && t.past.over.None? }

  ghost predicate LocalOk(v: View, tid: TaskId, t: Task) {
    if !t.inSection then t.pc.Wait? && !t.inReg && Untouched(t) && ToggleOk(v.log, tid, t)
    else Section(v.log, t.past.enteredAt, |v.log|, tid, t.prog) && Agrees(t, v.stored) && PcOk(v, tid, t)
  }

  predicate ToggleOk(log: seq<Event>, tid: TaskId, t: Task) {
    && (t.pc == Wait(Prove) || t.pc == Wait(Press) ==>
          && t.past.judgedAt < |log| && AskedAt(log, t.past.judgedAt, tid, t.prog.hash, t.past.claimed)
          && log[t.past.judgedAt].stored == Some(t.record) && t.record.hash == t.prog.hash)
    && (t.pc == Wait(Press) ==>
          && t.past.judgedAt < t.past.proofAt < |log|
          && Shows(log, t.past.proofAt, tid, t.prog.backend, t.prog.hash, t.past.claimed))
  }

  // What each program point relies on.
  ghost predicate PcOk(v: View, tid: TaskId, t: Task) {
    match t.pc
    case Wait(_) => false
    case Register(p) => Early(t) && RegisterOk(v, t, p)
    case Verify(p) =>
      && t.tracked && Early(t)
      && SawAt(v.log, t.past.enteredAt, t.past.sawAt, tid, t.prog, Some(t.torrent))
      && VerifyOk(v, tid, t, p)
    case Choose(p) => t.tracked && ProofOk(v, tid, t) && (p.SaveSlot? ==> PendingOk(v, t))
    case Configure(p) => t.tracked && ProofOk(v, tid, t) && ConfigureOk(v, t, p)
    case Finish(p) => t.tracked && ProofOk(v, tid, t) && FinishOk(v, t, p)
    case Erase(p) => t.tracked && EraseOk(v, tid, t, p)
    case Patrol(p) => t.tracked && PatrolOk(v, tid, t, p)
  }

  predicate RegisterOk(v: View, t: Task, p: RegisterPoint) {
    match p
    case Lookup => true
    case QueueRegistration | Count | Space => t.tracked ==> OwnedBy(t.record, t.prog.backend)
    case SaveQueued => PendingOk(v, t)
    case SaveIntent => PendingOk(v, t) && OwnedBy(t.pending, t.prog.backend)
    case Submission | Poll => t.tracked && OwnedBy(t.record, t.prog.backend)
  }

  predicate ConfigureOk(v: View, t: Task, p: ConfigurePoint) {
    match p
    case Refresh | Tuning | Merge => true
    case SaveMerged => PendingOk(v, t) && Chosen(t.pending, t.file)
    case Deselect | SelectWanted => SameOwner(v, t) && Chosen(t.record, t.file)
  }

  predicate FinishOk(v: View, t: Task, p: FinishPoint) {
    match p
    case StartAgain | Manage => SameOwner(v, t) && Chosen(t.record, t.file)
    case SaveManaged => PendingOk(v, t) && Usable(t.pending, t.file)
    case Ready => Usable(t.record, t.file)
    case Failure(_) => true
    case SaveFailure => PendingOk(v, t)
  }

  ghost predicate VerifyOk(v: View, tid: TaskId, t: Task, p: VerifyPoint) {
    match p
    case Check => true
    case Evidence => TaggableOk(t)
    case AddMark | ConfirmMark => TaggableOk(t) && AdoptOk(v, t)
    case SaveAdopted => AdoptOk(v, t) && ConfirmedOk(v, tid, t)
    case SaveConflict => PendingOk(v, t)
  }

  predicate TaggableOk(t: Task) {
    t.record.owner.None? && t.torrent.scope in SCOPES && t.record.file.path != ""
  }

  predicate AdoptOk(v: View, t: Task) {
    && t.record.owner.None?
    && t.pending.hash == t.prog.hash
    && t.pending.owner.Some?
    && t.pending.owner.value.marker in v.known
    && t.pending.owner.value.marker !in v.prepared
  }

  predicate ConfirmedOk(v: View, tid: TaskId, t: Task) {
    && SawAt(v.log, t.past.enteredAt, t.past.proofAt, tid, t.prog, Some(t.past.proof))
    && t.pending.owner.Some? && Proves(t.pending.owner.value, t.past.proof, t.prog.backend, t.prog.hash)
  }

  ghost predicate EraseOk(v: View, tid: TaskId, t: Task, p: ErasePoint) {
    match p
    case Find => Early(t) && (t.record.owner.Some? ==> OwnedBy(t.record, t.prog.backend))
    case Decide =>
      ProofOk(v, tid, t) && SawAt(v.log, t.past.enteredAt, t.past.sawAt, tid, t.prog, Some(t.torrent))
    case Confirm => ProofOk(v, tid, t)
    case SaveDeleting => ProofOk(v, tid, t) && PendingOk(v, t) && !v.playing && JudgedOk(v, tid, t)
    case Removal => ProofOk(v, tid, t) && !v.playing && JudgedOk(v, tid, t)
    case Forgetting =>
      && ForgettableOk(v, t)
      && !v.marked
      && SawAt(v.log, t.past.enteredAt, t.past.sawAt, tid, t.prog, None)
  }

  predicate ForgettableOk(v: View, t: Task) {
    && v.stored.Some?
    && (if t.past.undone then v.stored.value.owner == None else OwnedBy(v.stored.value, t.prog.backend))
  }

  predicate PatrolOk(v: View, tid: TaskId, t: Task, p: PatrolPoint) {
    match p
    case Inspect => Early(t)
    case SaveMark => PendingOk(v, t)
    case Relimit | StartStop => ProofOk(v, tid, t)
  }

  // The owner claimed was proved in this section, and it is the stored one unless a keep undid the adoption.
  predicate ProofOk(v: View, tid: TaskId, t: Task) {
    && SawAt(v.log, t.past.enteredAt, t.past.proofAt, tid, t.prog, Some(t.past.proof))
    && Proves(t.past.claimed, t.past.proof, t.prog.backend, t.prog.hash)
    && v.stored.Some?
    && v.stored.value.owner == (if t.past.undone then None else Some(t.past.claimed))
  }

  predicate JudgedOk(v: View, tid: TaskId, t: Task) {
    && t.past.enteredAt < t.past.sawAt < t.past.judgedAt < |v.log|
    && Accepts(v.log, t.past.judgedAt, t.past.sawAt, tid, t.prog)
  }

  ghost predicate MarkersKnown(s: State) {
    && s.prepared <= s.known
    && forall b, h | b in s.backends && h in s.backends[b] :: s.backends[b][h].markers <= s.known
  }

  predicate Exclusive(s: State) {
    && (forall t, u | t in s.tasks && u in s.tasks && t != u ::
          !(s.tasks[t].inSection && s.tasks[u].inSection && s.tasks[t].prog.hash == s.tasks[u].prog.hash))
    && (forall t, u | t in s.tasks && u in s.tasks && t != u :: !(s.tasks[t].inReg && s.tasks[u].inReg))
  }

  predicate Keyed(s: State) { forall h <- s.records :: s.records[h].hash == h }

  ghost predicate TasksOk(s: State) {
    forall tid <- s.tasks :: tid < s.nextTask && LocalOk(ViewOf(s, s.tasks[tid].prog), tid, s.tasks[tid])
  }

  ghost predicate Inv(s: State) {
    NoOrphans(s) && MarkersKnown(s) && Keyed(s) && Exclusive(s) && LogOk(s.log) && TasksOk(s)
  }

  // Any durable state in which nothing is orphaned, with no task running: a fresh install or a restart.
  ghost predicate Init(s: State) {
    s.tasks == map[] && s.log == [] && NoOrphans(s) && MarkersKnown(s) && Keyed(s)
  }

  // ----- the log only ever grows --------------------------------------------------------------

  lemma EventOkGrows(log: seq<Event>, more: seq<Event>, i: nat)
    requires i < |log| && EventOk(log, i)
    ensures EventOk(log + more, i)
  {
    var log' := log + more;
    match log[i] {
      case Acted(tid, b, h, act, owner, claimed, undone, playing) =>
        var k, j :| ProvenBefore(log, i, k, j, tid, b, h, claimed);
        EnteredGrows(log, more, i, k, tid, h);
        assert ProvenBefore(log', i, k, j, tid, b, h, claimed);
        if act.Remove? { JudgedGrows(log, more, i, tid, h); }
      case Tagged(tid, b, h, marker, stored) =>
        var k, j :| TaggableBefore(log, i, k, j, tid, b, h);
        EnteredGrows(log, more, i, k, tid, h);
        assert TaggableBefore(log', i, k, j, tid, b, h);
      case Forgot(tid, b, h, owner, undone) =>
        var k, j :| AbsentBefore(log, i, k, j, tid, b, h);
        EnteredGrows(log, more, i, k, tid, h);
        assert AbsentBefore(log', i, k, j, tid, b, h);
      case Toggled(tid, b, h, running, claimed) =>
        var k, j :| AskedBefore(log, i, k, j, tid, b, h, claimed);
        assert AskedBefore(log', i, k, j, tid, b, h, claimed);
      case _ =>
    }
  }

  lemma EnteredGrows(log: seq<Event>, more: seq<Event>, i: nat, k: nat, tid: TaskId, h: Hash)
    requires Entered(log, i, k, tid, h)
    ensures Entered(log + more, i, k, tid, h)
  {
  }

  lemma JudgedGrows(log: seq<Event>, more: seq<Event>, i: nat, tid: TaskId, h: Hash)
    requires i <= |log| && exists k, m, j :: JudgedBefore(log, i, k, m, j, tid, h)
    ensures exists k, m, j :: JudgedBefore(log + more, i, k, m, j, tid, h)
  {
    var k, m, j :| JudgedBefore(log, i, k, m, j, tid, h);
    EnteredGrows(log, more, i, k, tid, h);
    assert JudgedBefore(log + more, i, k, m, j, tid, h);
  }

  lemma LogOkGrows(log: seq<Event>, e: Event)
    requires LogOk(log) && EventOk(log + [e], |log|)
    ensures LogOk(log + [e])
  {
    forall i | 0 <= i < |log + [e]| ensures EventOk(log + [e], i) {
      if i < |log| { EventOkGrows(log, [e], i); }
    }
  }

  // ----- one task's own step ------------------------------------------------------------------

  // What an effect may do, judged by the task's own view.
  predicate EffectOk(v: View, t: Task, e: Effect) {
    var b, h := t.prog.backend, t.prog.hash;
    match e
    case Nothing => true
    case Upsert(r) =>
      && t.inSection && r.hash == h
      && (v.stored.Some? && v.stored.value.owner.Some? ==> r.owner == v.stored.value.owner)
    case Forget =>
      t.inSection && v.stored.Some? && (v.stored.value.owner.Some? ==> OwnedBy(v.stored.value, b)) && !v.marked
    case Mint(m, _) => t.inSection && m !in v.known
    case Submit(owner, _) =>
      t.inSection && v.stored.Some? && OwnedBy(v.stored.value, b) && v.stored.value.owner.value == owner
    case AddMarker(m, _) => t.inSection && m in v.known && m !in v.prepared
    case Change(act, _, _) => t.inSection || act.Run?
    case MarkPlaying => t.inSection
  }

  // The acting task's view after its own step.
  predicate Follows(v: View, v': View, tid: TaskId, t: Task, o: Outcome) {
    && v'.log == LogAfter(v.log, tid, t, o)
    && v'.stored == (match o.effect case Upsert(r) => Some(r) case Forget => None case _ => v.stored)
    && (!o.effect.MarkPlaying? ==> v'.playing == v.playing)
    && (o.effect.Nothing? ==> v'.marked == v.marked)
    && v'.known == KnownAfter(v.known, o.effect)
    && v'.prepared == (if o.effect.Mint? && o.effect.prepared then v.prepared + {o.effect.marker} else v.prepared)
  }

  predicate Breaking(e: Event) { e.Crashed? || e.Locked? || e.Unlocked? }

  // What a task outside the section of its hash may do while another task is inside.
  predicate Harmless(o: Outcome) {
    && (o.note.Some? ==> !Breaking(o.note.value))
    && (o.effect.Nothing? || (o.effect.Change? && o.effect.act.Run?))
  }

  ghost predicate NextOk(v: View, v': View, tid: TaskId, t: Task, next: Flow) {
    next.Continue? ==>
      && next.task.prog == t.prog
      && LocalOk(v', tid, next.task)
      && (next.task.inSection ==> t.inSection || v.lockFree)
      && (next.task.inReg ==> t.inReg || v.regFree)
  }

  ghost predicate ActorOk(v: View, v': View, tid: TaskId, t: Task, o: Outcome) {
    && EffectOk(v, t, o.effect)
    && LogOk(v'.log)
    && (o.note.Some? && Breaking(o.note.value) ==> o.note.value == Locked(tid, t.prog) && !t.inSection)
    && (!t.inSection && !v.lockFree ==> Harmless(o))
    && NextOk(v, v', tid, t, o.next)
  }

  lemma LocateLog(log: seq<Event>, tid: TaskId, t: Task, o: Outcome)
    requires LogOk(log) && (o.note.Some? ==> EventOk(log + [o.note.value], |log|))
    ensures LogOk(LogAfter(log, tid, t, o))
  {
    var noted := if o.note.Some? then log + [o.note.value] else log;
    if o.note.Some? { LogOkGrows(log, o.note.value); }
    if o.next.Halt? && t.inSection { LogOkGrows(noted, Unlocked(tid, t.prog.hash, o.next.ending)); }
  }

  // The history a task relies on is still there after its own step.
  lemma HistoryKept(log: seq<Event>, tid: TaskId, t: Task, o: Outcome)
    requires t.inSection && o.next.Continue? && Section(log, t.past.enteredAt, |log|, tid, t.prog)
    requires o.note.Some? ==> !Breaking(o.note.value)
    ensures var log' := LogAfter(log, tid, t, o);
      && Section(log', t.past.enteredAt, |log'|, tid, t.prog)
      && |log| <= |log'| && log == log'[..|log|]
      && (o.note.Some? ==> |log'| == |log| + 1 && log'[|log|] == o.note.value)
  {
  }

  // ----- outside a section -----

  lemma WaitOk(v: View, v': View, tid: TaskId, t: Task, c: Choice)
    requires LocalOk(v, tid, t) && LogOk(v.log) && !t.inSection
    requires v.stored.Some? ==> v.stored.value.hash == t.prog.hash
    requires Follows(v, v', tid, t, WaitStep(v, tid, t, t.pc.w, c))
    ensures ActorOk(v, v', tid, t, WaitStep(v, tid, t, t.pc.w, c))
  {
    match t.pc.w {
      case Ask => AskOk(v, v', tid, t);
      case Prove => ProveOk(v, v', tid, t, c);
      case Press => PressOk(v, v', tid, t, c);
      case _ => EnterOk(v, v', tid, t, c);
    }
  }

  lemma EnterOk(v: View, v': View, tid: TaskId, t: Task, c: Choice)
    requires LocalOk(v, tid, t) && LogOk(v.log) && !t.inSection && t.pc.w !in {Ask, Prove, Press}
    requires v.stored.Some? ==> v.stored.value.hash == t.prog.hash
    requires Follows(v, v', tid, t, WaitStep(v, tid, t, t.pc.w, c))
    ensures ActorOk(v, v', tid, t, WaitStep(v, tid, t, t.pc.w, c))
  {
    var o := WaitStep(v, tid, t, t.pc.w, c);
    LocateLog(v.log, tid, t, o);
    if o.note.Some? { InsideOk(v, v', tid, t); }
  }

  lemma InsideOk(v: View, v': View, tid: TaskId, t: Task)
    requires LocalOk(v, tid, t) && !t.inSection && t.pc.w !in {Ask, Prove, Press}
    requires t.pc.w == QueuePrepare || v.stored.Some?
    requires v.stored.Some? ==> v.stored.value.hash == t.prog.hash
    requires t.pc.w.QueueDelete? && v.stored.value.owner.Some? ==> OwnedBy(v.stored.value, t.prog.backend)
    requires v'.log == v.log + [Locked(tid, t.prog)] && v'.stored == v.stored
    ensures LocalOk(v', tid, Inside(v, t, t.pc.w))
  {
    assert Section(v'.log, |v.log|, |v'.log|, tid, t.prog);
  }

  lemma AskOk(v: View, v': View, tid: TaskId, t: Task)
    requires LocalOk(v, tid, t) && LogOk(v.log) && !t.inSection
    requires v.stored.Some? ==> v.stored.value.hash == t.prog.hash
    requires Follows(v, v', tid, t, AskStep(v, tid, t))
    ensures ActorOk(v, v', tid, t, AskStep(v, tid, t))
  {
    LocateLog(v.log, tid, t, AskStep(v, tid, t));
  }

  lemma ProveOk(v: View, v': View, tid: TaskId, t: Task, c: Choice)
    requires LocalOk(v, tid, t) && LogOk(v.log) && !t.inSection && t.pc == Wait(Prove)
    requires Follows(v, v', tid, t, ProveStep(v, tid, t, c))
    ensures ActorOk(v, v', tid, t, ProveStep(v, tid, t, c))
  {
    LocateLog(v.log, tid, t, ProveStep(v, tid, t, c));
  }

  lemma PressOk(v: View, v': View, tid: TaskId, t: Task, c: Choice)
    requires LocalOk(v, tid, t) && LogOk(v.log) && !t.inSection && t.pc == Wait(Press)
    requires Follows(v, v', tid, t, PressStep(tid, t, c))
    ensures ActorOk(v, v', tid, t, PressStep(tid, t, c))
  {
    var o := PressStep(tid, t, c);
    if o.note.Some? {
      var b, h := t.prog.backend, t.prog.hash;
      var log := v.log + [o.note.value];
      assert AskedBefore(log, |v.log|, t.past.judgedAt, t.past.proofAt, tid, b, h, t.past.claimed);
    }
    LocateLog(v.log, tid, t, o);
  }

  // ----- registering -----

  lemma RegisterNextIntend(v: View, v': View, tid: TaskId, t: Task, p: RegisterPoint, c: Choice)
    requires LocalOk(v, tid, t) && t.inSection && t.pc == Register(p)
    requires p.Count? || p.Space?
    requires Follows(v, v', tid, t, RegisterStep(v, tid, t, p, c))
    ensures NextOk(v, v', tid, t, RegisterStep(v, tid, t, p, c).next)
  {
    var o := RegisterStep(v, tid, t, p, c);
    if o.next.Continue? { HistoryKept(v.log, tid, t, o); }
  }

  lemma RegisterNext(v: View, v': View, tid: TaskId, t: Task, p: RegisterPoint, c: Choice)
    requires LocalOk(v, tid, t) && t.inSection && t.pc == Register(p)
    requires !p.Count? && !p.Space? && !p.Lookup?
    requires Follows(v, v', tid, t, RegisterStep(v, tid, t, p, c))
    ensures NextOk(v, v', tid, t, RegisterStep(v, tid, t, p, c).next)
  {
    var o := RegisterStep(v, tid, t, p, c);
    if o.next.Continue? { HistoryKept(v.log, tid, t, o); }
  }

  lemma RegisterNextLookup(v: View, v': View, tid: TaskId, t: Task, p: RegisterPoint, c: Choice)
    requires LocalOk(v, tid, t) && t.inSection && t.pc == Register(p)
    requires p.Lookup?
    requires Follows(v, v', tid, t, RegisterStep(v, tid, t, p, c))
    ensures NextOk(v, v', tid, t, RegisterStep(v, tid, t, p, c).next)
  {
    var o := RegisterStep(v, tid, t, p, c);
    if o.next.Continue? {
      HistoryKept(v.log, tid, t, o);
      if v.live.Some? { SightedHere(v, v', tid, t); }
    }
  }

  // ----- verifying -----

  lemma VerifyNextCheck(v: View, v': View, tid: TaskId, t: Task, c: Choice)
    requires LocalOk(v, tid, t) && t.inSection && t.pc == Verify(Check)
    requires Follows(v, v', tid, t, VerifyStep(v, tid, t, Check, c))
    ensures NextOk(v, v', tid, t, VerifyStep(v, tid, t, Check, c).next)
  {
    var o := VerifyStep(v, tid, t, Check, c);
    HistoryKept(v.log, tid, t, o);
    if o.next.task == Rejected(t) { RejectsHere(v, v', tid, t); }
    else if IsOwned(t.record, t.torrent, t.prog.backend) { ProvesHere(v, v', tid, t); }
  }

  // The same section goes on, and the record is as it was.
  ghost predicate Later(v: View, v': View, tid: TaskId, t: Task) {
    Section(v'.log, t.past.enteredAt, |v'.log|, tid, t.prog) && v.log <= v'.log && v'.stored == v.stored
  }

  lemma RejectsHere(v: View, v': View, tid: TaskId, t: Task)
    requires LocalOk(v, tid, t) && t.inSection && t.pc.Verify? && Later(v, v', tid, t)
    ensures LocalOk(v', tid, Rejected(t))
  {
  }

  // The torrent looked up carries the stored record's scope and marker.
  lemma ProvesHere(v: View, v': View, tid: TaskId, t: Task)
    requires LocalOk(v, tid, t) && t.inSection && t.pc == Verify(Check) && IsOwned(t.record, t.torrent, t.prog.backend)
    requires Later(v, v', tid, t)
    ensures var t' := Proven(t, t.torrent, t.past.sawAt); LocalOk(v', tid, t')
  {
  }

  lemma VerifyNextMark(v: View, v': View, tid: TaskId, t: Task, p: VerifyPoint, c: Choice)
    requires LocalOk(v, tid, t) && t.inSection && t.pc == Verify(p) && v.prepared <= v.known
    requires p.Evidence? || p.AddMark?
    requires Follows(v, v', tid, t, VerifyStep(v, tid, t, p, c))
    ensures NextOk(v, v', tid, t, VerifyStep(v, tid, t, p, c).next)
  {
    var o := VerifyStep(v, tid, t, p, c);
    if o.next.Continue? { HistoryKept(v.log, tid, t, o); }
  }

  lemma VerifyNextConfirm(v: View, v': View, tid: TaskId, t: Task, c: Choice)
    requires LocalOk(v, tid, t) && t.inSection && t.pc == Verify(ConfirmMark)
    requires Follows(v, v', tid, t, VerifyStep(v, tid, t, ConfirmMark, c))
    ensures NextOk(v, v', tid, t, VerifyStep(v, tid, t, ConfirmMark, c).next)
  {
    var o := VerifyStep(v, tid, t, ConfirmMark, c);
    if o.next.Continue? {
      HistoryKept(v.log, tid, t, o);
      if o.next.task == Rejected(t) { RejectsHere(v, v', tid, t); } else { ConfirmsHere(v, v', tid, t); }
    }
  }

  lemma ConfirmsHere(v: View, v': View, tid: TaskId, t: Task)
    requires LocalOk(v, tid, t) && t.inSection && t.pc == Verify(ConfirmMark) && Later(v, v', tid, t)
    requires v.live.Some? && IsOwned(t.pending, v.live.value, t.prog.backend)
    requires v'.log == v.log + [Saw(tid, t.prog.backend, t.prog.hash, v.live)]
    requires v'.known == v.known && v'.prepared == v.prepared
    ensures LocalOk(v', tid, Confirmed(v, t))
  {
  }

  lemma VerifyNextSave(v: View, v': View, tid: TaskId, t: Task, p: VerifyPoint, c: Choice)
    requires LocalOk(v, tid, t) && t.inSection && t.pc == Verify(p)
    requires p.SaveAdopted? || p.SaveConflict?
    requires Follows(v, v', tid, t, VerifyStep(v, tid, t, p, c))
    ensures NextOk(v, v', tid, t, VerifyStep(v, tid, t, p, c).next)
  {
    var o := VerifyStep(v, tid, t, p, c);
    if o.next.Continue? { HistoryKept(v.log, tid, t, o); }
  }

  // ----- choosing a file -----

  predicate Unusable(t: Task, c: Choice) {
    t.prog.Prepare? && (c.fail || c.file.None? || !FileAllowed(t.prog, t.record, c.file.value))
  }

  lemma ChooseNextNoFile(v: View, v': View, tid: TaskId, t: Task, c: Choice)
    requires LocalOk(v, tid, t) && t.inSection && t.pc == Choose(Files)
    requires Unusable(t, c)
    requires Follows(v, v', tid, t, ChooseStep(v, tid, t, Files, c))
    ensures NextOk(v, v', tid, t, ChooseStep(v, tid, t, Files, c).next)
  {
    var o := ChooseStep(v, tid, t, Files, c);
    if o.next.Continue? { HistoryKept(v.log, tid, t, o); }
  }

  lemma ChooseNextFiles(v: View, v': View, tid: TaskId, t: Task, c: Choice)
    requires LocalOk(v, tid, t) && t.inSection && t.pc == Choose(Files)
    requires !Unusable(t, c)
    requires Follows(v, v', tid, t, ChooseStep(v, tid, t, Files, c))
    ensures NextOk(v, v', tid, t, ChooseStep(v, tid, t, Files, c).next)
  {
    var o := ChooseStep(v, tid, t, Files, c);
    if o.next.Continue? { HistoryKept(v.log, tid, t, o); }
  }

  lemma ChooseNextStart(v: View, v': View, tid: TaskId, t: Task, p: ChoosePoint, c: Choice)
    requires LocalOk(v, tid, t) && t.inSection && t.pc == Choose(p)
    requires p.Begin? || p.StartIt? || p.QueueSlot?
    requires Follows(v, v', tid, t, ChooseStep(v, tid, t, p, c))
    ensures NextOk(v, v', tid, t, ChooseStep(v, tid, t, p, c).next)
  {
    var o := ChooseStep(v, tid, t, p, c);
    if o.next.Continue? { HistoryKept(v.log, tid, t, o); }
  }

  lemma ChooseNextSlot(v: View, v': View, tid: TaskId, t: Task, p: ChoosePoint, c: Choice)
    requires LocalOk(v, tid, t) && t.inSection && t.pc == Choose(p)
    requires p.SlotCheck? || p.SaveSlot?
    requires v.stored.Some? ==> v.stored.value.hash == t.prog.hash
    requires Follows(v, v', tid, t, ChooseStep(v, tid, t, p, c))
    ensures NextOk(v, v', tid, t, ChooseStep(v, tid, t, p, c).next)
  {
    var o := ChooseStep(v, tid, t, p, c);
    if o.next.Continue? { HistoryKept(v.log, tid, t, o); }
  }

  // ----- configuring -----

  lemma MergeCovers(selected: seq<FileRef>, file: FileRef, chosen: seq<FileRef>)
    ensures Covers(Union(Union(selected, [file]), chosen), file.index)
  {
    var u := Union(selected, [file]);
    assert Covers([file], file.index) by { assert [file][0] == file; }
    var k :| 0 <= k < |u| && u[k].index == file.index;
    assert Union(u, chosen)[k] == u[k];
  }

  lemma ConfigureNextMerge(v: View, v': View, tid: TaskId, t: Task, c: Choice)
    requires LocalOk(v, tid, t) && t.inSection && t.pc == Configure(Merge)
    requires v.stored.Some? ==> v.stored.value.hash == t.prog.hash
    requires Follows(v, v', tid, t, ConfigureStep(v, tid, t, Merge, c))
    ensures NextOk(v, v', tid, t, ConfigureStep(v, tid, t, Merge, c).next)
  {
    MergeCovers(t.record.selected, t.file, c.chosen);
    var o := ConfigureStep(v, tid, t, Merge, c);
    if o.next.Continue? { HistoryKept(v.log, tid, t, o); }
  }

  lemma ConfigureNextTune(v: View, v': View, tid: TaskId, t: Task, p: ConfigurePoint, c: Choice)
    requires LocalOk(v, tid, t) && t.inSection && t.pc == Configure(p)
    requires p.Refresh? || p.Tuning?
    requires Follows(v, v', tid, t, ConfigureStep(v, tid, t, p, c))
    ensures NextOk(v, v', tid, t, ConfigureStep(v, tid, t, p, c).next)
  {
    var o := ConfigureStep(v, tid, t, p, c);
    if o.next.Continue? { HistoryKept(v.log, tid, t, o); }
  }

  lemma ConfigureNextSelect(v: View, v': View, tid: TaskId, t: Task, p: ConfigurePoint, c: Choice)
    requires LocalOk(v, tid, t) && t.inSection && t.pc == Configure(p)
    requires p.SaveMerged? || p.Deselect? || p.SelectWanted?
    requires Follows(v, v', tid, t, ConfigureStep(v, tid, t, p, c))
    ensures NextOk(v, v', tid, t, ConfigureStep(v, tid, t, p, c).next)
  {
    var o := ConfigureStep(v, tid, t, p, c);
    if o.next.Continue? { HistoryKept(v.log, tid, t, o); }
  }

  // ----- finishing -----

  lemma FinishNextSave(v: View, v': View, tid: TaskId, t: Task, p: FinishPoint, c: Choice)
    requires LocalOk(v, tid, t) && t.inSection && t.pc == Finish(p)
    requires p.SaveManaged? || p.SaveFailure? || p.Ready? || p.Failure?
    requires v.stored.Some? ==> v.stored.value.hash == t.prog.hash
    requires Follows(v, v', tid, t, FinishStep(v, tid, t, p, c))
    ensures NextOk(v, v', tid, t, FinishStep(v, tid, t, p, c).next)
  {
    var o := FinishStep(v, tid, t, p, c);
    if o.next.Continue? { HistoryKept(v.log, tid, t, o); }
  }

  lemma FinishNextStart(v: View, v': View, tid: TaskId, t: Task, c: Choice)
    requires LocalOk(v, tid, t) && t.inSection && t.pc == Finish(StartAgain)
    requires Follows(v, v', tid, t, FinishStep(v, tid, t, StartAgain, c))
    ensures NextOk(v, v', tid, t, FinishStep(v, tid, t, StartAgain, c).next)
  {
    var o := FinishStep(v, tid, t, StartAgain, c);
    if o.next.Continue? { HistoryKept(v.log, tid, t, o); }
  }

  lemma FinishNextManage(v: View, v': View, tid: TaskId, t: Task, c: Choice)
    requires LocalOk(v, tid, t) && t.inSection && t.pc == Finish(Manage)
    requires Follows(v, v', tid, t, FinishStep(v, tid, t, Manage, c))
    ensures NextOk(v, v', tid, t, FinishStep(v, tid, t, Manage, c).next)
  {
    if FinishStep(v, tid, t, Manage, c).next.Continue? {
      if t.record.lifecycle == Managed { HandsOver(v, v', tid, t); } else { SavesManaged(v, v', tid, t); }
    }
  }

  lemma HandsOver(v: View, v': View, tid: TaskId, t: Task)
    requires LocalOk(v, tid, t) && t.inSection && t.pc == Finish(Manage) && t.record.lifecycle == Managed
    requires v'.log == v.log && v'.stored == v.stored
    ensures LocalOk(v', tid, t.(pc := Finish(FinishPoint.Ready)))
  {
  }

  lemma SavesManaged(v: View, v': View, tid: TaskId, t: Task)
    requires LocalOk(v, tid, t) && t.inSection && t.pc == Finish(Manage)
    requires v'.log == v.log && v'.stored == v.stored
    ensures LocalOk(v', tid, t.(pc := Finish(SaveManaged), pending := t.record.(lifecycle := Managed)))
  {
  }

  // ----- deleting -----

  lemma EraseNextFind(v: View, v': View, tid: TaskId, t: Task, c: Choice)
    requires LocalOk(v, tid, t) && t.inSection && t.pc == Erase(Find) && (v.live.None? ==> !v.marked)
    requires Follows(v, v', tid, t, EraseStep(v, tid, t, Find, c))
    ensures NextOk(v, v', tid, t, EraseStep(v, tid, t, Find, c).next)
  {
    var o := EraseStep(v, tid, t, Find, c);
    if o.next.Continue? {
      HistoryKept(v.log, tid, t, o);
      if v.live.Some? { SightedHere(v, v', tid, t); } else { AbsentHere(v, v', tid, t); }
    }
  }

  // What a lookup that finds the torrent, or does not, lets the section rely on.
  lemma SightedHere(v: View, v': View, tid: TaskId, t: Task)
    requires LocalOk(v, tid, t) && t.inSection && t.tracked && Early(t) && Later(v, v', tid, t) && v.live.Some?
    requires v'.log == v.log + [Saw(tid, t.prog.backend, t.prog.hash, v.live)]
    ensures LocalOk(v', tid, Sighted(v, t))
  {
  }

  lemma AbsentHere(v: View, v': View, tid: TaskId, t: Task)
    requires LocalOk(v, tid, t) && t.inSection && t.tracked && Later(v, v', tid, t) && !v'.marked
    requires ForgettableOk(v, t)
    requires v'.log == v.log + [Saw(tid, t.prog.backend, t.prog.hash, None)]
    ensures LocalOk(v', tid, Absent(v, t))
  {
  }

  lemma EraseNextConfirm(v: View, v': View, tid: TaskId, t: Task, p: ErasePoint, c: Choice)
    requires LocalOk(v, tid, t) && t.inSection && t.pc == Erase(p) && (v.live.None? ==> !v.marked)
    requires p.Confirm? || p.Forgetting?
    requires Follows(v, v', tid, t, EraseStep(v, tid, t, p, c))
    ensures NextOk(v, v', tid, t, EraseStep(v, tid, t, p, c).next)
  {
    var o := EraseStep(v, tid, t, p, c);
    if o.next.Continue? {
      HistoryKept(v.log, tid, t, o);
      AbsentHere(v, v', tid, t);
    }
  }

  lemma EraseNextDecide(v: View, v': View, tid: TaskId, t: Task, c: Choice)
    requires LocalOk(v, tid, t) && t.inSection && t.pc == Erase(Decide)
    requires v.stored.Some? ==> v.stored.value.hash == t.prog.hash
    requires Follows(v, v', tid, t, EraseStep(v, tid, t, Decide, c))
    ensures NextOk(v, v', tid, t, EraseStep(v, tid, t, Decide, c).next)
  {
    var o := EraseStep(v, tid, t, Decide, c);
    if o.next.Continue? { HistoryKept(v.log, tid, t, o); }
  }

  lemma EraseNextRemove(v: View, v': View, tid: TaskId, t: Task, p: ErasePoint, c: Choice)
    requires LocalOk(v, tid, t) && t.inSection && t.pc == Erase(p)
    requires p.SaveDeleting? || p.Removal?
    requires Follows(v, v', tid, t, EraseStep(v, tid, t, p, c))
    ensures NextOk(v, v', tid, t, EraseStep(v, tid, t, p, c).next)
  {
    var o := EraseStep(v, tid, t, p, c);
    if o.next.Continue? { HistoryKept(v.log, tid, t, o); }
  }

  // ----- sweeping -----

  lemma PatrolNextInspect(v: View, v': View, tid: TaskId, t: Task, c: Choice)
    requires LocalOk(v, tid, t) && t.inSection && t.pc == Patrol(Inspect) && (v.live.None? ==> !v.marked)
    requires Follows(v, v', tid, t, PatrolStep(v, tid, t, Inspect, c))
    ensures NextOk(v, v', tid, t, PatrolStep(v, tid, t, Inspect, c).next)
  {
    var o := PatrolStep(v, tid, t, Inspect, c);
    if o.next.Continue? {
      HistoryKept(v.log, tid, t, o);
      if o.next.task == Flagged(t) { FlaggedHere(v, v', tid, t); }
      else if v.live.Some? { SightedHere(v, v', tid, t); }
      else { AbsentHere(v, v', tid, t); }
    }
  }

  lemma FlaggedHere(v: View, v': View, tid: TaskId, t: Task)
    requires LocalOk(v, tid, t) && t.inSection && t.pc == Patrol(Inspect) && Later(v, v', tid, t)
    ensures LocalOk(v', tid, Flagged(t))
  {
  }

  lemma PatrolNextAct(v: View, v': View, tid: TaskId, t: Task, p: PatrolPoint, c: Choice)
    requires LocalOk(v, tid, t) && t.inSection && t.pc == Patrol(p) && !p.Inspect?
    requires Follows(v, v', tid, t, PatrolStep(v, tid, t, p, c))
    ensures NextOk(v, v', tid, t, PatrolStep(v, tid, t, p, c).next)
  {
    var o := PatrolStep(v, tid, t, p, c);
    if o.next.Continue? { HistoryKept(v.log, tid, t, o); }
  }

  // ----- the notes are true -----

  // The note a step leaves is true, given what its task relied on.
  ghost predicate NoteOk(v: View, o: Outcome) {
    o.note.Some? ==> !Breaking(o.note.value) && EventOk(v.log + [o.note.value], |v.log|)
  }

  lemma EnteredHere(v: View, tid: TaskId, t: Task, e: Event)
    requires t.inSection && Section(v.log, t.past.enteredAt, |v.log|, tid, t.prog)
    ensures Entered(v.log + [e], |v.log|, t.past.enteredAt, tid, t.prog.hash)
    ensures (v.log + [e])[t.past.enteredAt].prog == t.prog
  {
  }

  lemma ActedOk(v: View, tid: TaskId, t: Task, act: Act)
    requires LocalOk(v, tid, t) && t.inSection && t.tracked && ProofOk(v, tid, t)
    requires act.Remove? ==> !v.playing && JudgedOk(v, tid, t)
    ensures EventOk(v.log + [Acted(tid, t.prog.backend, t.prog.hash, act, StoredOwner(v), t.past.claimed, t.past.undone,
                                   v.playing)], |v.log|)
  {
    var b, h, n := t.prog.backend, t.prog.hash, |v.log|;
    var e := Acted(tid, b, h, act, StoredOwner(v), t.past.claimed, t.past.undone, v.playing);
    var log := v.log + [e];
    EnteredHere(v, tid, t, e);
    assert ProvenBefore(log, n, t.past.enteredAt, t.past.proofAt, tid, b, h, t.past.claimed);
    if act.Remove? { assert JudgedBefore(log, n, t.past.enteredAt, t.past.sawAt, t.past.judgedAt, tid, h); }
  }

  lemma ForgotOk(v: View, tid: TaskId, t: Task)
    requires LocalOk(v, tid, t) && t.inSection && t.pc == Erase(Forgetting)
    ensures EventOk(v.log + [Forgot(tid, t.prog.backend, t.prog.hash, StoredOwner(v), t.past.undone)], |v.log|)
  {
    var e := Forgot(tid, t.prog.backend, t.prog.hash, StoredOwner(v), t.past.undone);
    EnteredHere(v, tid, t, e);
    assert AbsentBefore(v.log + [e], |v.log|, t.past.enteredAt, t.past.sawAt, tid, t.prog.backend, t.prog.hash);
  }

  lemma TaggedOk(v: View, tid: TaskId, t: Task, marker: Marker)
    requires LocalOk(v, tid, t) && t.inSection && t.pc == Verify(AddMark)
    ensures EventOk(v.log + [Tagged(tid, t.prog.backend, t.prog.hash, marker, v.stored)], |v.log|)
  {
    var e := Tagged(tid, t.prog.backend, t.prog.hash, marker, v.stored);
    EnteredHere(v, tid, t, e);
    assert TaggableBefore(v.log + [e], |v.log|, t.past.enteredAt, t.past.sawAt, tid, t.prog.backend, t.prog.hash);
  }

  lemma RegisterEffect(v: View, tid: TaskId, t: Task, p: RegisterPoint, c: Choice)
    requires LocalOk(v, tid, t) && t.inSection && t.pc == Register(p)
    ensures EffectOk(v, t, RegisterStep(v, tid, t, p, c).effect)
    ensures NoteOk(v, RegisterStep(v, tid, t, p, c))
  {
  }

  lemma VerifyEffect(v: View, tid: TaskId, t: Task, p: VerifyPoint, c: Choice)
    requires LocalOk(v, tid, t) && t.inSection && t.pc == Verify(p)
    ensures EffectOk(v, t, VerifyStep(v, tid, t, p, c).effect)
    ensures NoteOk(v, VerifyStep(v, tid, t, p, c))
  {
    if p.AddMark? { TaggedOk(v, tid, t, t.pending.owner.value.marker); }
  }

  lemma ChooseEffect(v: View, tid: TaskId, t: Task, p: ChoosePoint, c: Choice)
    requires LocalOk(v, tid, t) && t.inSection && t.pc == Choose(p)
    ensures EffectOk(v, t, ChooseStep(v, tid, t, p, c).effect)
    ensures NoteOk(v, ChooseStep(v, tid, t, p, c))
  {
    ActedOk(v, tid, t, Run(true));
  }

  lemma ConfigureEffect(v: View, tid: TaskId, t: Task, p: ConfigurePoint, c: Choice)
    requires LocalOk(v, tid, t) && t.inSection && t.pc == Configure(p)
    ensures EffectOk(v, t, ConfigureStep(v, tid, t, p, c).effect)
    ensures NoteOk(v, ConfigureStep(v, tid, t, p, c))
  {
    if p.Tuning? { ActedOk(v, tid, t, Tune); }
    if p.Deselect? { ActedOk(v, tid, t, SelectFiles(false)); }
    if p.SelectWanted? { ActedOk(v, tid, t, SelectFiles(true)); }
  }

  lemma FinishEffect(v: View, tid: TaskId, t: Task, p: FinishPoint, c: Choice)
    requires LocalOk(v, tid, t) && t.inSection && t.pc == Finish(p)
    ensures EffectOk(v, t, FinishStep(v, tid, t, p, c).effect)
    ensures NoteOk(v, FinishStep(v, tid, t, p, c))
  {
    if p.StartAgain? { ActedOk(v, tid, t, Run(true)); }
  }

  lemma EraseEffect(v: View, tid: TaskId, t: Task, p: ErasePoint, c: Choice)
    requires LocalOk(v, tid, t) && t.inSection && t.pc == Erase(p)
    ensures EffectOk(v, t, EraseStep(v, tid, t, p, c).effect)
    ensures NoteOk(v, EraseStep(v, tid, t, p, c))
  {
    if p.Forgetting? { ForgotOk(v, tid, t); }
    if p.Removal? { ActedOk(v, tid, t, Remove); }
  }

  lemma PatrolEffectAct(v: View, tid: TaskId, t: Task, c: Choice)
    requires LocalOk(v, tid, t) && t.inSection && t.pc == Patrol(StartStop)
    ensures EffectOk(v, t, PatrolStep(v, tid, t, StartStop, c).effect)
    ensures NoteOk(v, PatrolStep(v, tid, t, StartStop, c))
  {
    if t.torrent.stopped { ActedOk(v, tid, t, Run(true)); } else { ActedOk(v, tid, t, Run(false)); }
  }

  lemma PatrolEffect(v: View, tid: TaskId, t: Task, p: PatrolPoint, c: Choice)
    requires LocalOk(v, tid, t) && t.inSection && t.pc == Patrol(p) && !p.StartStop?
    ensures EffectOk(v, t, PatrolStep(v, tid, t, p, c).effect)
    ensures NoteOk(v, PatrolStep(v, tid, t, p, c))
  {
    if p.Relimit? { ActedOk(v, tid, t, Tune); }
  }

  // ----- one step inside a section -----

  ghost predicate SectionStepOk(v: View, v': View, tid: TaskId, t: Task, o: Outcome) {
    EffectOk(v, t, o.effect) && NoteOk(v, o) && NextOk(v, v', tid, t, o.next)
  }

  lemma RegisterOkStep(v: View, v': View, tid: TaskId, t: Task, p: RegisterPoint, c: Choice)
    requires LocalOk(v, tid, t) && t.inSection && t.pc == Register(p)
    requires Follows(v, v', tid, t, RegisterStep(v, tid, t, p, c))
    ensures SectionStepOk(v, v', tid, t, RegisterStep(v, tid, t, p, c))
  {
    RegisterEffect(v, tid, t, p, c);
    match p {
      case Count => RegisterNextIntend(v, v', tid, t, p, c);
      case Space => RegisterNextIntend(v, v', tid, t, p, c);
      case Lookup => RegisterNextLookup(v, v', tid, t, p, c);
      case _ => RegisterNext(v, v', tid, t, p, c);
    }
  }

  lemma VerifyOkStep(v: View, v': View, tid: TaskId, t: Task, p: VerifyPoint, c: Choice)
    requires LocalOk(v, tid, t) && t.inSection && t.pc == Verify(p) && v.prepared <= v.known
    requires Follows(v, v', tid, t, VerifyStep(v, tid, t, p, c))
    ensures SectionStepOk(v, v', tid, t, VerifyStep(v, tid, t, p, c))
  {
    VerifyEffect(v, tid, t, p, c);
    match p {
      case Check => VerifyNextCheck(v, v', tid, t, c);
      case Evidence => VerifyNextMark(v, v', tid, t, p, c);
      case AddMark => VerifyNextMark(v, v', tid, t, p, c);
      case ConfirmMark => VerifyNextConfirm(v, v', tid, t, c);
      case _ => VerifyNextSave(v, v', tid, t, p, c);
    }
  }

  lemma ChooseOkStep(v: View, v': View, tid: TaskId, t: Task, p: ChoosePoint, c: Choice)
    requires LocalOk(v, tid, t) && t.inSection && t.pc == Choose(p)
    requires v.stored.Some? ==> v.stored.value.hash == t.prog.hash
    requires Follows(v, v', tid, t, ChooseStep(v, tid, t, p, c))
    ensures SectionStepOk(v, v', tid, t, ChooseStep(v, tid, t, p, c))
  {
    ChooseEffect(v, tid, t, p, c);
    match p {
      case Files =>
        if Unusable(t, c) { ChooseNextNoFile(v, v', tid, t, c); } else { ChooseNextFiles(v, v', tid, t, c); }
      case SlotCheck => ChooseNextSlot(v, v', tid, t, p, c);
      case SaveSlot => ChooseNextSlot(v, v', tid, t, p, c);
      case _ => ChooseNextStart(v, v', tid, t, p, c);
    }
  }

  lemma ConfigureOkStep(v: View, v': View, tid: TaskId, t: Task, p: ConfigurePoint, c: Choice)
    requires LocalOk(v, tid, t) && t.inSection && t.pc == Configure(p)
    requires v.stored.Some? ==> v.stored.value.hash == t.prog.hash
    requires Follows(v, v', tid, t, ConfigureStep(v, tid, t, p, c))
    ensures SectionStepOk(v, v', tid, t, ConfigureStep(v, tid, t, p, c))
  {
    ConfigureEffect(v, tid, t, p, c);
    match p {
      case Merge => ConfigureNextMerge(v, v', tid, t, c);
      case Refresh => ConfigureNextTune(v, v', tid, t, p, c);
      case Tuning => ConfigureNextTune(v, v', tid, t, p, c);
      case _ => ConfigureNextSelect(v, v', tid, t, p, c);
    }
  }

  lemma FinishOkStep(v: View, v': View, tid: TaskId, t: Task, p: FinishPoint, c: Choice)
    requires LocalOk(v, tid, t) && t.inSection && t.pc == Finish(p)
    requires v.stored.Some? ==> v.stored.value.hash == t.prog.hash
    requires Follows(v, v', tid, t, FinishStep(v, tid, t, p, c))
    ensures SectionStepOk(v, v', tid, t, FinishStep(v, tid, t, p, c))
  {
    FinishEffect(v, tid, t, p, c);
    match p {
      case StartAgain => FinishNextStart(v, v', tid, t, c);
      case Manage => FinishNextManage(v, v', tid, t, c);
      case _ => FinishNextSave(v, v', tid, t, p, c);
    }
  }

  lemma EraseOkStep(v: View, v': View, tid: TaskId, t: Task, p: ErasePoint, c: Choice)
    requires LocalOk(v, tid, t) && t.inSection && t.pc == Erase(p) && (v.live.None? ==> !v.marked)
    requires v.stored.Some? ==> v.stored.value.hash == t.prog.hash
    requires Follows(v, v', tid, t, EraseStep(v, tid, t, p, c))
    ensures SectionStepOk(v, v', tid, t, EraseStep(v, tid, t, p, c))
  {
    EraseEffect(v, tid, t, p, c);
    match p {
      case Find => EraseNextFind(v, v', tid, t, c);
      case Decide => EraseNextDecide(v, v', tid, t, c);
      case SaveDeleting => EraseNextRemove(v, v', tid, t, p, c);
      case Removal => EraseNextRemove(v, v', tid, t, p, c);
      case _ => EraseNextConfirm(v, v', tid, t, p, c);
    }
  }

  lemma PatrolOkStep(v: View, v': View, tid: TaskId, t: Task, p: PatrolPoint, c: Choice)
    requires LocalOk(v, tid, t) && t.inSection && t.pc == Patrol(p) && (v.live.None? ==> !v.marked)
    requires Follows(v, v', tid, t, PatrolStep(v, tid, t, p, c))
    ensures SectionStepOk(v, v', tid, t, PatrolStep(v, tid, t, p, c))
  {
    if p.StartStop? { PatrolEffectAct(v, tid, t, c); } else { PatrolEffect(v, tid, t, p, c); }
    if p.Inspect? { PatrolNextInspect(v, v', tid, t, c); } else { PatrolNextAct(v, v', tid, t, p, c); }
  }

  // What a reachable view guarantees beyond the task's own reliance.
  predicate ViewOk(v: View, h: Hash) {
    && v.prepared <= v.known && (v.live.None? ==> !v.marked)
    && (v.stored.Some? ==> v.stored.value.hash == h)
  }

  lemma SectionStep(v: View, v': View, tid: TaskId, t: Task, c: Choice)
    requires LocalOk(v, tid, t) && t.inSection && ViewOk(v, t.prog.hash)
    requires Follows(v, v', tid, t, Advance(v, tid, t, c))
    ensures SectionStepOk(v, v', tid, t, Advance(v, tid, t, c))
  {
    match t.pc {
      case Register(p) => RegisterOkStep(v, v', tid, t, p, c);
      case Verify(p) => VerifyOkStep(v, v', tid, t, p, c);
      case Choose(p) => ChooseOkStep(v, v', tid, t, p, c);
      case Configure(p) => ConfigureOkStep(v, v', tid, t, p, c);
      case Finish(p) => FinishOkStep(v, v', tid, t, p, c);
      case Erase(p) => EraseOkStep(v, v', tid, t, p, c);
      case Patrol(p) => PatrolOkStep(v, v', tid, t, p, c);
    }
  }

  lemma ActorStep(v: View, v': View, tid: TaskId, t: Task, c: Choice)
    requires LocalOk(v, tid, t) && LogOk(v.log) && ViewOk(v, t.prog.hash)
    requires Follows(v, v', tid, t, Advance(v, tid, t, c))
    ensures ActorOk(v, v', tid, t, Advance(v, tid, t, c))
  {
    if !t.inSection {
      WaitOk(v, v', tid, t, c);
    } else {
      SectionStep(v, v', tid, t, c);
      LocateLog(v.log, tid, t, Advance(v, tid, t, c));
    }
  }
}
