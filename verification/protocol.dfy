/**
 The managed-download protocol: what `ensureTransfer`, `deleteManaged`, one hash of `sweepOnce` and the
 pause and resume calls do to the durable records and to the download backends.

 Every `await` of the program is a point where any other task may run, so a task is a program counter
 with its local variables, and one step runs the effect of one await and the code up to the next one.
 `Advance` is the program: what one task does next, given only what it can see. `Next` is the system:
 any task may move, tasks may start, the process may crash, and the environment may change torrents.
 */
module ManagedDownloads {
  import opened Wrappers

  type Hash = string
  type BackendId = string
  type Marker = nat  // a random 128-bit tag; only equality matters
  type TaskId = nat

  datatype Origin = Search | Store
  datatype Lifecycle = Unset | Registering | Managed | Failed | Deleting | Conflict | Queued
  datatype Owner = Owner(backend: BackendId, scope: string, marker: Marker)
  datatype FileRef = FileRef(index: nat, path: string, bytes: nat)

  datatype Record = Record(
    origin: Origin, hash: Hash, file: FileRef, selected: seq<FileRef>,
    addedAt: int, expiresAt: int, kept: bool, lifecycle: Lifecycle, owner: Option<Owner>)

  datatype Torrent = Torrent(
    hash: Hash, scope: string, markers: set<Marker>, stopped: bool, complete: bool, ratio: real)

  const DAY_MS := 86_400_000
  const SCOPE := "debridarr"

  // ----- programs -----------------------------------------------------------------------------

  datatype Selection =
    | Pick                                               // no selection in the request
    | RequireExisting(file: FileRef, marker: Marker)     // cached copy, never re-added
    | AllowSelect(file: FileRef, marker: Marker)         // a store file link

  // The `eligible` callback a deletion is called with.
  datatype Rule =
    | Always
    | Expired(targetRatio: real, graceDays: int)
    | SizeCap(listedExpiry: int)

  datatype Program =
    | Prepare(hash: Hash, backend: BackendId, origin: Origin, selection: Selection,
              bytes: nat, retentionDays: nat, existingOnly: bool, queueIfBusy: bool, playback: bool)
    | Delete(hash: Hash, backend: BackendId, rule: Rule)
    | Sweep(hash: Hash, backend: BackendId, targetRatio: real)
    | Toggle(hash: Hash, backend: BackendId, running: bool)  // TransferService.setRunning: takes no lock

  // Program points, one family per piece of code.
  datatype Pc =
    | Wait(w: WaitPoint) | Register(r: RegisterPoint) | Verify(v: VerifyPoint) | Choose(c: ChoosePoint)
    | Configure(g: ConfigurePoint) | Finish(f: FinishPoint) | Erase(d: ErasePoint) | Patrol(s: PatrolPoint)

  datatype WaitPoint = StartPrepare | QueuePrepare | QueueDelete | QueueSweep | Ask | Prove | Press
  datatype RegisterPoint =
    | Lookup | QueueRegistration | Count | Space | SaveQueued | SaveIntent | Submission | Poll
  datatype VerifyPoint = Check | Evidence | AddMark | ConfirmMark | SaveAdopted | SaveConflict
  datatype ChoosePoint = Begin | StartIt | Files | QueueSlot | SlotCheck | SaveSlot
  datatype ConfigurePoint = Refresh | Tuning | Merge | SaveMerged | Deselect | SelectWanted
  datatype FinishPoint = StartAgain | Manage | SaveManaged | Ready | Failure(noFile: bool) | SaveFailure
  datatype ErasePoint = Find | Forgetting | Decide | SaveDeleting | Removal | Confirm
  datatype PatrolPoint = Inspect | SaveMark | Relimit | StartStop

  datatype Task = Task(
    prog: Program, pc: Pc,
    inSection: bool,              // runs inside coordinated(store, hash, ...)
    inReg: bool,                  // runs inside coordinated(store, '$registration', ...)
    tracked: bool, record: Record,  // the local `record`, when there is one
    torrent: Torrent,             // the local `torrent`
    pending: Record,              // the record being written by the current await
    file: FileRef, fileComplete: bool, started: bool,
    past: Past)

  // History variables: where in the log this section began, looked, proved and judged; the owner that was
  // proved; the record a late keep put back over the section's last write; whether one undid its adoption.
  datatype Past = Past(
    enteredAt: nat, sawAt: nat, proof: Torrent, proofAt: nat, claimed: Owner, judgedAt: nat,
    over: Option<Record>, undone: bool)

  // How the outside world settles one await, and which of the free choices the code makes.
  datatype Choice = Choice(
    fail: bool,        // the awaited call rejects
    landed: bool,      // a backend call took effect (whether or not it reported success)
    again: bool,       // keep polling / one more optional call
    busy: bool,        // the admission count reached the cap
    marker: Marker,    // the value ownershipTag() draws
    matches: bool,     // the backend's file list supports the answer the code is looking for
    file: Option<FileRef>, fileComplete: bool, chosen: seq<FileRef>,
    complete: bool,    // overall completeness after a file-selection call
    now: int)

  // ----- what happened ------------------------------------------------------------------------

  datatype Act = Remove | Run(running: bool) | SelectFiles(selected: bool) | Tune

  datatype Ending = Returned(value: bool) | Threw

  datatype Event =
    | Locked(task: TaskId, prog: Program)
    | Unlocked(task: TaskId, hash: Hash, ending: Ending)
    | Crashed
    | Saw(task: TaskId, backend: BackendId, hash: Hash, live: Option<Torrent>)
    | Judged(
        task: TaskId, hash: Hash, stored: Option<Record>, torrent: Torrent, rule: Rule, now: int, playing: bool)
    | Acted(
        task: TaskId, backend: BackendId, hash: Hash, act: Act,
        owner: Option<Owner>, claimed: Owner, undone: bool, playing: bool)
    | Tagged(task: TaskId, backend: BackendId, hash: Hash, marker: Marker, stored: Option<Record>)
    | Submitted(task: TaskId, backend: BackendId, hash: Hash, marker: Marker, stored: Option<Record>)
    | Forgot(task: TaskId, backend: BackendId, hash: Hash, owner: Option<Owner>, undone: bool)
    | Picked(task: TaskId, hash: Hash, file: FileRef, complete: bool)
    | Prepared(
        task: TaskId, hash: Hash, file: FileRef, stored: Option<Record>, over: Option<Record>,
        seen: Torrent, complete: bool, playback: bool)
    | Asked(task: TaskId, hash: Hash, stored: Option<Record>)
    | Toggled(task: TaskId, backend: BackendId, hash: Hash, running: bool, claimed: Owner)

  // ----- decisions ----------------------------------------------------------------------------

  predicate IsOwned(record: Record, torrent: Torrent, backend: BackendId) {
    && record.owner.Some?
    && record.owner.value.backend == backend
    && torrent.hash == record.hash
    && torrent.scope == record.owner.value.scope
    && record.owner.value.marker in torrent.markers
  }

  predicate IsExpired(record: Record, torrent: Torrent, targetRatio: real, graceDays: int, now: int) {
    if record.lifecycle == Deleting then true
    else if record.kept then false
    else if record.lifecycle == Failed then true
    else
      && now >= record.expiresAt
      && (torrent.ratio >= targetRatio || (graceDays > 0 && now >= record.expiresAt + graceDays * DAY_MS))
  }

  predicate Eligible(rule: Rule, record: Record, torrent: Torrent, now: int) {
    match rule
    case Always => true
    case Expired(targetRatio, graceDays) => IsExpired(record, torrent, targetRatio, graceDays, now)
    case SizeCap(listedExpiry) => !record.kept && record.expiresAt == listedExpiry
  }

  // ----- one task -----------------------------------------------------------------------------

  // What a task can see: its own hash in the store and in its backend, and the locks it may ask for.
  datatype View = View(
    stored: Option<Record>, live: Option<Torrent>, marked: bool, playing: bool,
    lockFree: bool, regFree: bool, known: set<Marker>, prepared: set<Marker>, log: seq<Event>)

  datatype Effect =
    | Nothing
    | Upsert(record: Record)
    | Forget
    | Mint(marker: Marker, prepared: bool)
    | Submit(owner: Owner, landed: bool)
    | AddMarker(marker: Marker, landed: bool)
    | Change(act: Act, landed: bool, complete: bool)
    | MarkPlaying

  datatype Flow = Halt(ending: Ending) | Continue(task: Task)
  datatype Outcome = Outcome(effect: Effect, note: Option<Event>, next: Flow)

  function Goto(t: Task): Outcome { Outcome(Nothing, None, Continue(t)) }

  function Return(value: bool): Outcome { Outcome(Nothing, None, Halt(Returned(value))) }

  const Throw := Outcome(Nothing, None, Halt(Threw))

  // A look at the backend: note what it showed and go on.
  function Look(v: View, tid: TaskId, t: Task, next: Flow): Outcome {
    Outcome(Nothing, Some(Saw(tid, t.prog.backend, t.prog.hash, v.live)), next)
  }

  // A record write through the store's queue: it lands or it leaves the old record.
  function Write(t: Task, c: Choice, done: Flow, failed: Flow): Outcome {
    if c.fail then Outcome(Nothing, None, failed)
    else Outcome(Upsert(t.pending), None, if done.Continue? then Continue(Plain(done.task)) else done)
  }

  // Nothing has been put back over what was written or read last.
  function Plain(t: Task): Task { t.(past := t.past.(over := None)) }

  function StoredOwner(v: View): Option<Owner> { if v.stored.Some? then v.stored.value.owner else None }

  // A call that changes the torrent. A rejected call may still have taken effect.
  function Call(v: View, tid: TaskId, t: Task, c: Choice, act: Act, done: Flow, failed: Flow): Outcome {
    Outcome(Change(act, c.landed, c.complete),
            Some(Acted(tid, t.prog.backend, t.prog.hash, act,
                       StoredOwner(v), t.past.claimed, t.past.undone, v.playing)),
            if c.fail then failed else done)
  }

  function Advance(v: View, tid: TaskId, t: Task, c: Choice): Outcome {
    match t.pc
    case Wait(w) => WaitStep(v, tid, t, w, c)
    case Register(r) => RegisterStep(v, tid, t, r, c)
    case Verify(p) => VerifyStep(v, tid, t, p, c)
    case Choose(p) => ChooseStep(v, tid, t, p, c)
    case Configure(p) => ConfigureStep(v, tid, t, p, c)
    case Finish(p) => FinishStep(v, tid, t, p, c)
    case Erase(p) => EraseStep(v, tid, t, p, c)
    case Patrol(p) => PatrolStep(v, tid, t, p, c)
  }

  // ----- entering a section -----

  function WaitStep(v: View, tid: TaskId, t: Task, w: WaitPoint, c: Choice): Outcome {
    match w
    case StartPrepare =>
      if v.stored.Some? && v.stored.value.lifecycle == Deleting then Throw else Goto(t.(pc := Wait(QueuePrepare)))
    case Ask => AskStep(v, tid, t)
    case Prove => ProveStep(v, tid, t, c)
    case Press => PressStep(tid, t, c)
    case _ =>
      if !v.lockFree then Goto(t)
      else if Refused(v, t, w, c) then RefusalOf(v, t, w)
      else Outcome(Nothing, Some(Locked(tid, t.prog)), Continue(Inside(v, t, w)))
  }

  // ----- TransferService.setRunning -----

  // A store record with an owner that is managed; any other makes the call fail.
  predicate Askable(r: Record) { r.origin == Store && r.owner.Some? && r.lifecycle == Managed }

  function AskStep(v: View, tid: TaskId, t: Task): Outcome {
    if v.stored.None? || !Askable(v.stored.value) then Throw
    else Outcome(Nothing, Some(Asked(tid, t.prog.hash, v.stored)),
           Continue(t.(pc := Wait(Prove), record := v.stored.value,
                       past := t.past.(claimed := v.stored.value.owner.value, judgedAt := |v.log|))))
  }

  function ProveStep(v: View, tid: TaskId, t: Task, c: Choice): Outcome {
    if c.fail then Throw
    else if v.live.None? || !IsOwned(t.record, v.live.value, t.prog.backend) then Look(v, tid, t, Halt(Threw))
    else Look(v, tid, t, Continue(t.(pc := Wait(Press), past := t.past.(proof := v.live.value, proofAt := |v.log|))))
  }

  function PressStep(tid: TaskId, t: Task, c: Choice): Outcome {
    if !t.prog.Toggle? then Throw else
    Outcome(Change(Run(t.prog.running), c.landed, false),
            Some(Toggled(tid, t.prog.backend, t.prog.hash, t.prog.running, t.past.claimed)),
            Halt(if c.fail then Threw else Returned(true)))
  }

  // ----- the sections -----

  // The synchronous checks at the top of each section.
  predicate Refused(v: View, t: Task, w: WaitPoint, c: Choice) {
    match w
    case QueuePrepare =>
      || c.fail  // signal already aborted
      || (t.prog.Prepare? && t.prog.origin == Store && v.stored.Some? && v.stored.value.origin == Search)
      || (v.stored.Some? && v.stored.value.lifecycle == Deleting)
    case QueueDelete =>
      || v.stored.None?
      || v.playing
      || (v.stored.value.owner.Some? && v.stored.value.owner.value.backend != t.prog.backend)
    case _ => v.stored.None?
  }

  // No record: there is nothing to delete or to sweep. Otherwise an error.
  function RefusalOf(v: View, t: Task, w: WaitPoint): Outcome {
    if w.QueuePrepare? || v.stored.Some? then Throw else Return(false)
  }

  function Inside(v: View, t: Task, w: WaitPoint): Task {
    t.(pc := match w case QueueDelete => Erase(Find) case QueueSweep => Patrol(Inspect) case _ => Register(Lookup),
       inSection := true, tracked := v.stored.Some?,
       record := if v.stored.Some? then v.stored.value else t.record,
       past := t.past.(enteredAt := |v.log|))
  }

  // ----- prepareDownload: look, admit, register, submit -----

  // The checks between the first backend lookup and the first change (manager.ts:129-140).
  predicate PrepareRefuses(p: Program, record: Option<Record>, live: Option<Torrent>)
    requires p.Prepare?
  {
    || (p.selection.RequireExisting?
        && (live.None? || record.None? || record.value.lifecycle != Managed
            || record.value.owner.None? || record.value.owner.value.marker != p.selection.marker
            || p.selection.file !in record.value.selected))
    || ((p.selection.AllowSelect? || p.existingOnly) && (live.None? || record.None?))
    || (p.selection.AllowSelect?
        && (record.value.origin != Store || record.value.owner.None?
            || record.value.owner.value.marker != p.selection.marker || record.value.lifecycle != Managed))
    || (live.Some? && record.None?)
    || (live.None? && record.Some? && (record.value.owner.None? || record.value.owner.value.backend != p.backend))
  }

  // The record written before the first submit; an earlier record keeps its identity fields.
  function Intent(t: Task, owner: Owner, lifecycle: Lifecycle, now: int): Record
    requires t.prog.Prepare?
  {
    if t.tracked then
      t.record.(file := t.record.file.(bytes := t.prog.bytes), lifecycle := lifecycle, owner := Some(owner))
    else Record(t.prog.origin, t.prog.hash, FileRef(0, "", t.prog.bytes), [],
                now, now + t.prog.retentionDays * DAY_MS, false, lifecycle, Some(owner))
  }

  // Draw an ownership marker unless the record already carries one, then go and write the intent.
  function Intend(v: View, t: Task, c: Choice, save: RegisterPoint, lifecycle: Lifecycle): Outcome
    requires t.prog.Prepare?
  {
    if t.tracked && t.record.owner.Some? then
      Goto(t.(pc := Register(save), pending := Intent(t, t.record.owner.value, lifecycle, c.now)))
    else if c.marker in v.known then Goto(t)
    else Outcome(Mint(c.marker, true), None, Continue(t.(pc := Register(save),
           pending := Intent(t, Owner(t.prog.backend, SCOPE, c.marker), lifecycle, c.now))))
  }

  function RegisterStep(v: View, tid: TaskId, t: Task, r: RegisterPoint, c: Choice): Outcome {
    if !t.prog.Prepare? then Throw else
    match r
    case Lookup =>
      if c.fail then Throw
      else if PrepareRefuses(t.prog, if t.tracked then Some(t.record) else None, v.live)
        then Look(v, tid, t, Halt(Threw))
      else if v.live.None? then Look(v, tid, t, Continue(t.(pc := Register(QueueRegistration))))
      else Look(v, tid, t, Continue(Sighted(v, t)))
    case QueueRegistration => if v.regFree then Goto(t.(pc := Register(Count), inReg := true)) else Goto(t)
    case Count =>
      if c.fail then Throw
      else if !c.busy then Goto(t.(pc := Register(Space)))
      else if t.prog.queueIfBusy && (if t.tracked then t.record.origin else t.prog.origin) == Store
        then Intend(v, t, c, SaveQueued, Queued)
      else Throw
    case SaveQueued => Write(t, c, Halt(Threw), Halt(Threw))
    case Space => if c.fail then Throw else Intend(v, t, c, SaveIntent, Registering)
    case SaveIntent =>
      Write(t, c, Continue(t.(pc := Register(Submission), tracked := true, record := t.pending)), Halt(Threw))
    case Submission =>
      if t.record.owner.None? then Throw else
      Outcome(Submit(t.record.owner.value, c.landed),
              Some(Submitted(tid, t.prog.backend, t.prog.hash, t.record.owner.value.marker, v.stored)),
              if c.fail then Halt(Threw) else Continue(t.(pc := Register(Poll))))
    case Poll =>
      if c.fail then Throw
      else if v.live.Some? then Look(v, tid, t, Continue(Sighted(v, t).(inReg := false)))
      else Look(v, tid, t, if c.again then Continue(t) else Halt(Threw))
  }

  // Keep the torrent just seen and go on to prove it is ours.
  function Sighted(v: View, t: Task): Task
    requires v.live.Some?
  {
    t.(pc := Verify(Check), torrent := v.live.value, past := t.past.(sawAt := |v.log|))
  }

  // ----- verifyOwnership -----

  function VerifyStep(v: View, tid: TaskId, t: Task, p: VerifyPoint, c: Choice): Outcome {
    match p
    case Check =>
      if t.record.owner.None? && t.torrent.scope in {"debridarr", "debridgerr"} && t.record.file.path != ""
        then Goto(t.(pc := Verify(Evidence)))
      else if IsOwned(t.record, t.torrent, t.prog.backend)
        then Goto(Proven(t, t.torrent, t.past.sawAt))
      else Goto(Rejected(t))
    case Evidence =>
      if c.fail then Throw
      else if !c.matches then Goto(Rejected(t))
      else if c.marker in v.known then Goto(t)
      else Outcome(Mint(c.marker, false), None, Continue(t.(pc := Verify(AddMark),
             pending := t.record.(owner := Some(Owner(t.prog.backend, t.torrent.scope, c.marker)),
                                  lifecycle := Managed, selected := [t.record.file]))))
    case AddMark =>
      if t.pending.owner.None? then Throw else
      var marker := t.pending.owner.value.marker;
      Outcome(AddMarker(marker, c.landed), Some(Tagged(tid, t.prog.backend, t.prog.hash, marker, v.stored)),
              if c.fail then Halt(Threw) else Continue(t.(pc := Verify(ConfirmMark))))
    case ConfirmMark =>
      if c.fail then Throw
      else if v.live.Some? && IsOwned(t.pending, v.live.value, t.prog.backend)
        then Look(v, tid, t, Continue(Confirmed(v, t)))
      else Look(v, tid, t, Continue(Rejected(t)))
    case SaveAdopted =>
      Write(t, c, Continue(Proven(t.(record := t.pending), t.past.proof, t.past.proofAt)), Halt(Threw))
    case SaveConflict => Write(t, c, Halt(Threw), Halt(Threw))
  }

  function Confirmed(v: View, t: Task): Task
    requires v.live.Some?
  {
    t.(pc := Verify(SaveAdopted), past := t.past.(proof := v.live.value, proofAt := |v.log|))
  }

  function Rejected(t: Task): Task { t.(pc := Verify(SaveConflict), pending := t.record.(lifecycle := Conflict)) }

  // Ownership is proved: continue where verifyOwnership was called.
  function Proven(t: Task, proof: Torrent, at: nat): Task {
    t.(pc := if t.prog.Prepare? then Choose(Begin) else if t.prog.Delete? then Erase(Decide) else Patrol(Relimit),
       past := t.past.(proof := proof, proofAt := at,
                       claimed := if t.record.owner.Some? then t.record.owner.value else t.past.claimed))
  }

  // ----- prepareDownload: choose a file, configure, hand over -----

  predicate Covers(selected: seq<FileRef>, index: nat) { exists g <- selected :: g.index == index }

  // Add the chosen files to the selection, keeping every earlier entry (selection.dfy has the full merge).
  function Union(selected: seq<FileRef>, chosen: seq<FileRef>): (u: seq<FileRef>)
    ensures selected <= u
    ensures forall i | Covers(chosen, i) :: Covers(u, i)
    decreases |chosen|
  {
    if chosen == [] then selected
    else
      assert forall i | Covers(chosen, i) :: i == chosen[0].index || Covers(chosen[1..], i);
      var next := if Covers(selected, chosen[0].index) then selected else selected + [chosen[0]];
      assert Covers(next, chosen[0].index) by { assert next == selected || next[|selected|] == chosen[0]; }
      Union(next, chosen[1..])
  }

  // Which file this request may end up with (manager.ts:202-207).
  predicate FileAllowed(p: Program, record: Record, f: FileRef)
    requires p.Prepare?
  {
    if !p.selection.Pick? then f == p.selection.file
    else if p.existingOnly && record.selected != [] then f == record.file
    else true
  }

  // A file that was not selected before and still has to download needs a download slot.
  predicate Reserves(p: Program, r: Record, f: FileRef, fileComplete: bool)
    requires p.Prepare?
  {
    p.selection.AllowSelect? && !fileComplete && forall g <- r.selected :: g.index != f.index
  }

  function Fail(t: Task, noFile: bool): Flow { Continue(t.(pc := Finish(Failure(noFile)), inReg := false)) }

  // Run the torrent, list its files, settle on one, and reserve a slot for a newly selected file.
  function ChooseStep(v: View, tid: TaskId, t: Task, p: ChoosePoint, c: Choice): Outcome {
    if !t.prog.Prepare? || v.stored.None? then Throw else
    match p
    case Begin => Goto(t.(pc := Choose(if t.torrent.stopped && !t.torrent.complete then StartIt else Files)))
    case StartIt => Call(v, tid, t, c, Run(true), Continue(t.(pc := Choose(Files), started := true)), Fail(t, false))
    case Files =>
      if c.fail then Outcome(Nothing, None, Fail(t, false))
      else if c.file.None? || !FileAllowed(t.prog, t.record, c.file.value)
        then Outcome(Nothing, None, Fail(t, c.matches))
      else
        var reserves := Reserves(t.prog, t.record, c.file.value, c.fileComplete);
        Outcome(Nothing, Some(Picked(tid, t.prog.hash, c.file.value, c.fileComplete)),
                Continue(t.(pc := if reserves then Choose(QueueSlot) else Configure(Refresh),
                            file := c.file.value, fileComplete := c.fileComplete)))
    case QueueSlot => if v.regFree then Goto(t.(pc := Choose(SlotCheck), inReg := true)) else Goto(t)
    case SlotCheck =>
      if c.busy then Throw
      else if c.fail then Outcome(Nothing, None, Fail(t, false))
      else Goto(t.(pc := Choose(SaveSlot), pending := v.stored.value.(
          lifecycle := Registering, file := t.file, selected := t.record.selected + [t.file])))
    case SaveSlot =>
      Write(t, c, Continue(t.(pc := Configure(Refresh), record := t.pending, inReg := false)), Fail(t, false))
  }

  // Tune the torrent, persist the union of selections, then set file priorities.
  function ConfigureStep(v: View, tid: TaskId, t: Task, p: ConfigurePoint, c: Choice): Outcome {
    if v.stored.None? then Throw else
    match p
    case Refresh =>
      if c.fail then Outcome(Nothing, None, Fail(t, false)) else Look(v, tid, t, Continue(t.(pc := Configure(Tuning))))
    case Tuning =>
      if c.again then Call(v, tid, t, c, Tune, Continue(t), Continue(t)) else Goto(t.(pc := Configure(Merge)))
    case Merge =>
      Goto(t.(pc := Configure(SaveMerged), pending := v.stored.value.(
          file := t.file, selected := Union(Union(t.record.selected, [t.file]), c.chosen))))
    case SaveMerged => Write(t, c, Continue(t.(pc := Configure(Deselect), record := t.pending)), Fail(t, false))
    case Deselect => Call(v, tid, t, c, SelectFiles(false), Continue(t.(pc := Configure(SelectWanted))), Fail(t, false))
    case SelectWanted => Call(v, tid, t, c, SelectFiles(true), Continue(t.(pc := Finish(StartAgain))), Fail(t, false))
  }

  // Start a stopped torrent whose new file is incomplete, mark the record managed, and hand over.
  function FinishStep(v: View, tid: TaskId, t: Task, p: FinishPoint, c: Choice): Outcome {
    if !t.prog.Prepare? || v.stored.None? then Throw else
    match p
    case StartAgain =>
      if !t.started && t.torrent.stopped && !t.fileComplete
        then Call(v, tid, t, c, Run(true), Continue(t.(pc := Finish(Manage))), Fail(t, false))
      else Goto(t.(pc := Finish(Manage)))
    case Manage =>
      if t.record.lifecycle == Managed then Goto(t.(pc := Finish(Ready)))
      else Goto(t.(pc := Finish(SaveManaged), pending := t.record.(lifecycle := Managed)))
    case SaveManaged => Write(t, c, Continue(t.(pc := Finish(Ready), record := t.pending)), Fail(t, false))
    case Ready =>
      Outcome(if t.prog.playback then MarkPlaying else Nothing,
              Some(Prepared(tid, t.prog.hash, t.file, v.stored, t.past.over,
                            t.torrent, t.fileComplete, t.prog.playback)),
              Halt(Returned(true)))
    case Failure(noFile) =>
      Goto(t.(pc := Finish(SaveFailure),
              pending := v.stored.value.(lifecycle := FailedLifecycle(noFile, v.stored.value))))
    case SaveFailure => Write(t, c, Halt(Threw), Halt(Threw))
  }

  function FailedLifecycle(noFile: bool, current: Record): Lifecycle {
    if noFile && current.selected == [] then Failed
    else if current.lifecycle == Unset then Registering
    else current.lifecycle
  }

  // ----- deleteManaged -----

  function EraseStep(v: View, tid: TaskId, t: Task, p: ErasePoint, c: Choice): Outcome {
    if v.stored.None? then Throw else
    match p
    case Find =>
      if c.fail then Throw
      else if v.live.Some? then Look(v, tid, t, Continue(Sighted(v, t)))
      else Look(v, tid, t, if t.record.owner.None? then Halt(Threw) else Continue(Absent(v, t)))
    case Forgetting =>
      if c.fail then Throw else
      Outcome(Forget, Some(Forgot(tid, t.prog.backend, t.prog.hash, StoredOwner(v), t.past.undone)),
              Halt(Returned(true)))
    case Decide =>
      if !t.prog.Delete? || v.playing || !Eligible(t.prog.rule, v.stored.value, t.torrent, c.now) then Return(false)
      else Outcome(Nothing, Some(Judged(tid, t.prog.hash, v.stored, t.torrent, t.prog.rule, c.now, v.playing)),
             Continue(Judging(v, t)))
    case SaveDeleting => Write(t, c, Continue(t.(pc := Erase(Removal), record := t.pending)), Halt(Threw))
    case Removal => Call(v, tid, t, c, Remove, Continue(t.(pc := Erase(Confirm))), Halt(Threw))
    case Confirm =>
      if c.fail then Throw else Look(v, tid, t, if v.live.Some? then Halt(Threw) else Continue(Absent(v, t)))
  }

  // The record is read again after every await that could admit an update.
  function Judging(v: View, t: Task): Task
    requires v.stored.Some?
  {
    Plain(t.(pc := Erase(SaveDeleting), record := v.stored.value, past := t.past.(judgedAt := |v.log|),
             pending := v.stored.value.(lifecycle := Deleting)))
  }

  function Absent(v: View, t: Task): Task { t.(pc := Erase(Forgetting), past := t.past.(sawAt := |v.log|)) }

  // ----- one hash of sweepOnce -----

  function PatrolStep(v: View, tid: TaskId, t: Task, p: PatrolPoint, c: Choice): Outcome {
    if !t.prog.Sweep? || v.stored.None? then Throw else
    match p
    case Inspect =>
      if c.fail then Throw
      else if t.record.owner.Some? && t.record.owner.value.backend != t.prog.backend
        then Look(v, tid, t, Continue(Flagged(t)))
      else if v.live.Some? then Look(v, tid, t, Continue(Sighted(v, t)))
      else if t.record.owner.None? then Look(v, tid, t, Continue(Flagged(t)))
      else if t.record.lifecycle != Registering && !v.playing then Look(v, tid, t, Continue(Absent(v, t)))
      else Look(v, tid, t, Halt(Returned(true)))
    case SaveMark => Write(t, c, Halt(Returned(true)), Halt(Threw))
    case Relimit =>
      if t.record.lifecycle == Deleting then Return(true)
      else Call(v, tid, t, c, Tune, Continue(t.(pc := Patrol(StartStop))), Halt(Threw))
    case StartStop =>
      if !t.torrent.complete then Return(true)
      else if t.torrent.ratio >= t.prog.targetRatio && !t.torrent.stopped
        then Call(v, tid, t, c, Run(false), Halt(Returned(true)), Halt(Threw))
      else if t.torrent.ratio < t.prog.targetRatio && t.torrent.stopped
        then Call(v, tid, t, c, Run(true), Halt(Returned(true)), Halt(Threw))
      else Return(true)
  }

  function Flagged(t: Task): Task { t.(pc := Patrol(SaveMark), pending := t.record.(lifecycle := Conflict)) }

  // ----- the system ---------------------------------------------------------------------------

  datatype State = State(
    records: map<Hash, Record>,                        // durable
    backends: map<BackendId, map<Hash, Torrent>>,      // external
    tasks: map<TaskId, Task>, nextTask: TaskId,        // lost in a crash
    playing: multiset<Hash>,                           // lost in a crash
    prepared: set<Marker>,                             // every marker prepareDownload has drawn
    known: set<Marker>,                                // every marker seen anywhere
    log: seq<Event>)

  function Live(s: State, b: BackendId, h: Hash): Option<Torrent> {
    if b in s.backends && h in s.backends[b] then Some(s.backends[b][h]) else None
  }

  function Stored(s: State, h: Hash): Option<Record> { if h in s.records then Some(s.records[h]) else None }

  predicate Marked(s: State, b: BackendId, h: Hash) {
    Live(s, b, h).Some? && !(Live(s, b, h).value.markers !! s.prepared)
  }

  function ViewOf(s: State, p: Program): View {
    View(Stored(s, p.hash), Live(s, p.backend, p.hash), Marked(s, p.backend, p.hash), s.playing[p.hash] > 0,
         forall u <- s.tasks :: !(s.tasks[u].inSection && s.tasks[u].prog.hash == p.hash),
         forall u <- s.tasks :: !s.tasks[u].inReg,
         s.known, s.prepared, s.log)
  }

  function SetLive(s: State, b: BackendId, h: Hash, t: Option<Torrent>): State {
    var was := if b in s.backends then s.backends[b] else map[];
    s.(backends := s.backends[b := if t.Some? then was[h := t.value] else was - {h}])
  }

  function KnownAfter(known: set<Marker>, e: Effect): set<Marker> {
    match e
    case Mint(m, _) => known + {m}
    case Submit(owner, _) => known + {owner.marker}
    case _ => known
  }

  // What a backend call leaves at this hash.
  function LiveAfter(h: Hash, live: Option<Torrent>, e: Effect): Option<Torrent> {
    match e
    case Submit(owner, true) =>
      if live.Some? then Some(live.value.(markers := live.value.markers + {owner.marker}))
      else Some(Torrent(h, owner.scope, {owner.marker}, true, false, 0.0))
    case AddMarker(m, true) =>
      if live.Some? then Some(live.value.(markers := live.value.markers + {m})) else None
    case Change(Remove, true, _) => None
    case Change(Run(running), true, _) => if live.Some? then Some(live.value.(stopped := !running)) else None
    case Change(SelectFiles(_), true, complete) => if live.Some? then Some(live.value.(complete := complete)) else None
    case _ => live
  }

  function Affect(s: State, b: BackendId, h: Hash, e: Effect): State {
    var live := Live(s, b, h);
    var records := match e case Upsert(r) => s.records[h := r] case Forget => s.records - {h} case _ => s.records;
    var playing := if e.MarkPlaying? then s.playing + multiset{h} else s.playing;
    var prepared := if e.Mint? && e.prepared then s.prepared + {e.marker} else s.prepared;
    SetLive(s, b, h, LiveAfter(h, live, e)).(
      records := records, playing := playing, prepared := prepared, known := KnownAfter(s.known, e))
  }

  // The step's own note, then the release of the lock when its task ends.
  function LogAfter(log: seq<Event>, tid: TaskId, t: Task, o: Outcome): seq<Event> {
    var noted := if o.note.Some? then log + [o.note.value] else log;
    if o.next.Halt? && t.inSection then noted + [Unlocked(tid, t.prog.hash, o.next.ending)] else noted
  }

  function Apply(s: State, tid: TaskId, t: Task, o: Outcome): State {
    var s' := Affect(s, t.prog.backend, t.prog.hash, o.effect);
    s'.(tasks := if o.next.Continue? then s.tasks[tid := o.next.task] else s.tasks - {tid},
        log := LogAfter(s.log, tid, t, o))
  }

  datatype Action =
    | Spawn(prog: Program)
    | Step(task: TaskId, choice: Choice)
    | SetKept(hash: Hash, kept: bool)           // admin keep: another lock table, so it races every task
    | LateKeep(task: TaskId, choice: Choice, kept: bool)  // SQLite driver: a keep queued behind a task's write
    | Renew(hash: Hash, expiresAt: int)         // lease renewal on playback: takes no lock
    | StopPlaying(hash: Hash)
    | Outside(backend: BackendId, hash: Hash, torrent: Option<Torrent>)  // the client's user, downloads, seeding
    | Crash

  const BlankFile := FileRef(0, "", 0)
  const BlankRecord := Record(Search, "", BlankFile, [], 0, 0, false, Unset, None)
  const BlankTorrent := Torrent("", "", {}, false, false, 0.0)

  function InitialTask(p: Program): Task {
    var w := match p case Prepare(_, _, _, _, _, _, _, _, _) => StartPrepare case Delete(_, _, _) => QueueDelete
                     case Sweep(_, _, _) => QueueSweep case Toggle(_, _, _) => Ask;
    Task(p, Wait(w), false, false, false, BlankRecord, BlankTorrent, BlankRecord, BlankFile, false, false,
         Past(0, 0, BlankTorrent, 0, Owner("", "", 0), 0, None, false))
  }

  // A user of the download client cannot guess a random marker, so it cannot appear from outside.
  predicate OutsideAllowed(s: State, b: BackendId, h: Hash, t: Option<Torrent>) {
    t.Some? ==> t.value.markers * s.prepared <= (if Live(s, b, h).Some? then Live(s, b, h).value.markers else {})
  }

  function TaskStep(s: State, tid: TaskId, c: Choice): State
    requires tid in s.tasks
  {
    Apply(s, tid, s.tasks[tid], Advance(ViewOf(s, s.tasks[tid].prog), tid, s.tasks[tid], c))
  }

  // ----- setKept of the SQLite driver -----

  // The points that wait for a record write.
  predicate Writing(pc: Pc) {
    match pc
    case Register(p) => p.SaveQueued? || p.SaveIntent?
    case Verify(p) => p.SaveAdopted? || p.SaveConflict?
    case Choose(p) => p.SaveSlot?
    case Configure(p) => p.SaveMerged?
    case Finish(p) => p.SaveManaged? || p.SaveFailure?
    case Erase(p) => p.SaveDeleting? || p.Forgetting?
    case Patrol(p) => p.SaveMark?
    case Wait(_) => false
  }

  // The driver reads the whole record when its lock is granted and queues the whole record behind the writes
  // already queued: at most one of the section of this hash. It refuses a record that is being deleted.
  predicate KeepsBehind(s: State, tid: TaskId) {
    && tid in s.tasks && s.tasks[tid].inSection && Writing(s.tasks[tid].pc)
    && s.tasks[tid].prog.hash in s.records && s.records[s.tasks[tid].prog.hash].lifecycle != Deleting
  }

  // The write in front happens, and then the record read before it is put back with its new flag.
  function PutBack(s: State, tid: TaskId, c: Choice, kept: bool): State
    requires KeepsBehind(s, tid)
  {
    var t := s.tasks[tid];
    Overlay(TaskStep(s, tid, c), tid, t.prog.hash, s.records[t.prog.hash].(kept := kept), t.pending, c.fail)
  }

  function Overlay(s: State, tid: TaskId, h: Hash, back: Record, written: Record, failed: bool): State {
    s.(records := s.records[h := back],
       tasks := if tid in s.tasks && !failed then s.tasks[tid := Overlaid(s.tasks[tid], back, written)] else s.tasks)
  }

  function Overlaid(t: Task, back: Record, written: Record): Task {
    t.(past := t.past.(over := Some(back), undone := t.past.undone || (back.owner.None? && written.owner.Some?)))
  }

  function Next(s: State, a: Action): State {
    match a
    case Spawn(p) => s.(tasks := s.tasks[s.nextTask := InitialTask(p)], nextTask := s.nextTask + 1)
    case Step(tid, c) => if tid in s.tasks then TaskStep(s, tid, c) else s
    case LateKeep(tid, c, kept) => if KeepsBehind(s, tid) then PutBack(s, tid, c, kept) else s
    case SetKept(h, kept) =>
      if h in s.records then s.(records := s.records[h := s.records[h].(kept := kept)]) else s
    case Renew(h, expiresAt) =>
      if h in s.records then s.(records := s.records[h := s.records[h].(expiresAt := expiresAt)]) else s
    case StopPlaying(h) => s.(playing := s.playing - multiset{h})
    case Outside(b, h, t) =>
      if OutsideAllowed(s, b, h, t)
        then SetLive(s, b, h, t).(known := s.known + if t.Some? then t.value.markers else {})
      else s
    case Crash => s.(tasks := map[], playing := multiset{}, log := s.log + [Crashed])
  }

  function Execute(s: State, actions: seq<Action>): State
    decreases |actions|
  {
    if actions == [] then s else Execute(Next(s, actions[0]), actions[1..])
  }
}
