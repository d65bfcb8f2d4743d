/**
 What a preparation does for its request: it starts exactly the torrents that need it, submits only what it has
 seen to be absent, and hands over what was asked for.
 */
module ManagedPreparations {
  import opened Wrappers
  import opened ManagedDownloads
  import opened ManagedSteps
  import opened ManagedSafety
  import opened ManagedNotes

  // ----- what the log tells of a task ---------------------------------------------------------

  predicate OwnSight(e: Event, tid: TaskId) { e.Saw? && e.task == tid && e.live.Some? }

  predicate OwnStart(e: Event, tid: TaskId) { e.Acted? && e.task == tid && e.act == Run(true) }

  // Between the two, the task has not seen a torrent; has not started one.
  predicate NoSight(log: seq<Event>, from: nat, to: nat, tid: TaskId) {
    forall x | from < x < to <= |log| :: !OwnSight(log[x], tid)
  }

  predicate NoStart(log: seq<Event>, from: nat, to: nat, tid: TaskId) {
    forall x | from < x < to <= |log| :: !OwnStart(log[x], tid)
  }

  predicate AtMostOneStart(log: seq<Event>, from: nat, to: nat, tid: TaskId) {
    forall x, y | from < x < y < to <= |log| :: !(OwnStart(log[x], tid) && OwnStart(log[y], tid))
  }

  // The first torrent it has seen since.
  predicate FirstSight(log: seq<Event>, from: nat, at: nat, tid: TaskId, b: BackendId, h: Hash, seen: Torrent) {
    from < at < |log| && log[at] == Saw(tid, b, h, Some(seen)) && NoSight(log, from, at, tid)
  }

  ghost predicate PickedSince(log: seq<Event>, from: nat, tid: TaskId, h: Hash, file: FileRef, complete: bool) {
    exists m :: from < m < |log| && log[m] == Picked(tid, h, file, complete)
  }

  // The lookups of the section so far have not shown a torrent; this torrent is the first they showed; it has been
  // started since, and once at most; the file has been picked since; the first of them showed that there is none.
  datatype Told = Told(unsighted: bool, first: bool, began: bool, once: bool, picked: bool, missed: bool)

  ghost predicate Missed(log: seq<Event>, from: nat, tid: TaskId, p: Program) {
    exists m :: from < m < |log| && log[m] == Saw(tid, p.backend, p.hash, None)
  }

  ghost function ToldBy(log: seq<Event>, tid: TaskId, t: Task): Told {
    Told(NoSight(log, t.past.enteredAt, |log|, tid),
         FirstSight(log, t.past.enteredAt, t.past.sawAt, tid, t.prog.backend, t.prog.hash, t.torrent),
         !NoStart(log, t.past.sawAt, |log|, tid),
         AtMostOneStart(log, t.past.sawAt, |log|, tid),
         PickedSince(log, t.past.sawAt, tid, t.prog.hash, t.file, t.fileComplete),
         Missed(log, t.past.enteredAt, tid, t.prog))
  }

  // ----- what each program point of a preparation has done ------------------------------------

  // A stopped torrent is started if it, or else the file that was picked, is incomplete.
  predicate NeedsStart(seen: Torrent, fileComplete: bool) { seen.stopped && (!seen.complete || !fileComplete) }

  // A request for nothing in particular, which may add a torrent.
  predicate Adds(p: Program) { p.Prepare? && p.selection.Pick? && !p.existingOnly }

  predicate StartTold(t: Task, d: Told) {
    d.once && t.started == d.began && t.started == (t.torrent.stopped && !t.torrent.complete)
  }

  predicate PickedAsAsked(t: Task) {
    t.prog.Prepare? && (!t.prog.selection.Pick? ==> t.file == t.prog.selection.file)
  }

  predicate PreparationOk(t: Task, d: Told) {
    t.prog.Prepare? ==>
      match t.pc
      case Wait(w) => !t.started && (w.StartPrepare? || w.QueuePrepare?)
      case Register(p) => !t.started && d.unsighted && (p.Lookup? || (Adds(t.prog) && d.missed))
      case Verify(_) => !t.started && d.first && !d.began && d.once
      case Choose(p) => d.first && ChoiceOk(t, d, p)
      case Configure(_) => d.first && d.picked && StartTold(t, d) && PickedAsAsked(t)
      case Finish(p) => p.Failure? || p.SaveFailure? || (d.first && d.picked && PickedAsAsked(t) && EndOk(t, d, p))
      case _ => false
  }

  predicate ChoiceOk(t: Task, d: Told, p: ChoosePoint) {
    match p
    case Begin => !t.started && !d.began && d.once
    case StartIt => !t.started && !d.began && d.once && t.torrent.stopped && !t.torrent.complete
    case Files => StartTold(t, d)
    case _ => StartTold(t, d) && d.picked && PickedAsAsked(t)
  }

  predicate EndOk(t: Task, d: Told, p: FinishPoint) {
    if p.StartAgain? then StartTold(t, d) else d.once && d.began == NeedsStart(t.torrent, t.fileComplete)
  }

  // ----- one step of the task -----------------------------------------------------------------

  function Sight(tid: TaskId, p: Program, seen: Torrent): Event { Saw(tid, p.backend, p.hash, Some(seen)) }

  // What is told after a step, by the step's note, if it goes on to t'.
  predicate Extends(v: View, tid: TaskId, t: Task, note: Option<Event>, t': Task, d: Told, d': Told) {
    var sameSight := t'.past.sawAt == t.past.sawAt && t'.torrent == t.torrent;
    && (t'.past.enteredAt == t.past.enteredAt < |v.log| ==>
          && d'.unsighted == (d.unsighted && !(note.Some? && OwnSight(note.value, tid)))
          && (d.missed || note == Some(Saw(tid, t.prog.backend, t.prog.hash, None)) ==> d'.missed)
          && (sameSight && d.first ==> d'.first)
          && (d.unsighted && t'.past.sawAt == |v.log| && note == Some(Sight(tid, t.prog, t'.torrent)) ==> d'.first))
    && (t'.past.enteredAt == |v.log| ==> d'.unsighted)
    && (t'.past.sawAt == t.past.sawAt < |v.log| ==>
          && d'.began == (d.began || (note.Some? && OwnStart(note.value, tid)))
          && (d.once && !(d.began && note.Some? && OwnStart(note.value, tid)) ==> d'.once)
          && (d.picked && t'.file == t.file && t'.fileComplete == t.fileComplete ==> d'.picked)
          && (note == Some(Picked(tid, t.prog.hash, t'.file, t'.fileComplete)) ==> d'.picked))
    && (t'.past.sawAt == |v.log| ==> !d'.began && d'.once)
  }

  predicate Placed(v: View, t: Task, d: Told) {
    (t.pc.Wait? || t.past.enteredAt < |v.log|) && (d.first ==> t.past.sawAt < |v.log|)
  }

  ghost predicate NextPreparationOk(v: View, tid: TaskId, t: Task, d: Told, o: Outcome) {
    PreparationOk(t, d) && Placed(v, t, d) && o.next.Continue? ==>
      forall d' | Extends(v, tid, t, o.note, o.next.task, d, d') :: PreparationOk(o.next.task, d')
  }

  lemma WaitPrepares(v: View, tid: TaskId, t: Task, p: WaitPoint, c: Choice, d: Told)
    requires t.pc == Wait(p) && t.prog.Prepare?
    ensures NextPreparationOk(v, tid, t, d, WaitStep(v, tid, t, p, c))
  {
  }

  lemma RegisterPrepares(v: View, tid: TaskId, t: Task, p: RegisterPoint, c: Choice, d: Told)
    requires t.pc == Register(p) && t.prog.Prepare?
    ensures NextPreparationOk(v, tid, t, d, RegisterStep(v, tid, t, p, c))
  {
  }

  lemma VerifyPrepares(v: View, tid: TaskId, t: Task, p: VerifyPoint, c: Choice, d: Told)
    requires t.pc == Verify(p) && t.prog.Prepare?
    ensures NextPreparationOk(v, tid, t, d, VerifyStep(v, tid, t, p, c))
  {
    if p.Check? || p.Evidence? { CheckPrepares(v, tid, t, p, c, d); } else { AdoptionPrepares(v, tid, t, p, c, d); }
  }

  lemma CheckPrepares(v: View, tid: TaskId, t: Task, p: VerifyPoint, c: Choice, d: Told)
    requires t.pc == Verify(p) && t.prog.Prepare? && (p.Check? || p.Evidence?)
    ensures NextPreparationOk(v, tid, t, d, VerifyStep(v, tid, t, p, c))
  {
  }

  lemma AdoptionPrepares(v: View, tid: TaskId, t: Task, p: VerifyPoint, c: Choice, d: Told)
    requires t.pc == Verify(p) && t.prog.Prepare? && !p.Check? && !p.Evidence?
    ensures NextPreparationOk(v, tid, t, d, VerifyStep(v, tid, t, p, c))
  {
  }

  lemma ChoosePrepares(v: View, tid: TaskId, t: Task, p: ChoosePoint, c: Choice, d: Told)
    requires t.pc == Choose(p) && t.prog.Prepare?
    ensures NextPreparationOk(v, tid, t, d, ChooseStep(v, tid, t, p, c))
  {
    if p.Begin? || p.StartIt? {
      BeginPrepares(v, tid, t, p, c, d);
    } else if p.Files? {
      FilesPrepare(v, tid, t, p, c, d);
    } else {
      SlotPrepares(v, tid, t, p, c, d);
    }
  }

  lemma BeginPrepares(v: View, tid: TaskId, t: Task, p: ChoosePoint, c: Choice, d: Told)
    requires t.pc == Choose(p) && t.prog.Prepare? && (p.Begin? || p.StartIt?)
    ensures NextPreparationOk(v, tid, t, d, ChooseStep(v, tid, t, p, c))
  {
  }

  lemma FilesPrepare(v: View, tid: TaskId, t: Task, p: ChoosePoint, c: Choice, d: Told)
    requires t.pc == Choose(p) && t.prog.Prepare? && p.Files?
    ensures NextPreparationOk(v, tid, t, d, ChooseStep(v, tid, t, p, c))
  {
    if !c.fail && c.file.Some? && FileAllowed(t.prog, t.record, c.file.value) {
      FilePrepares(v, tid, t, p, c, d);
    } else {
      NoFilePrepares(v, tid, t, p, c, d);
    }
  }

  lemma FilePrepares(v: View, tid: TaskId, t: Task, p: ChoosePoint, c: Choice, d: Told)
    requires t.pc == Choose(p) && t.prog.Prepare? && p.Files?
    requires !c.fail && c.file.Some? && FileAllowed(t.prog, t.record, c.file.value)
    ensures NextPreparationOk(v, tid, t, d, ChooseStep(v, tid, t, p, c))
  {
    if Reserves(t.prog, t.record, c.file.value, c.fileComplete) {} else {}
  }

  lemma NoFilePrepares(v: View, tid: TaskId, t: Task, p: ChoosePoint, c: Choice, d: Told)
    requires t.pc == Choose(p) && t.prog.Prepare? && p.Files?
    requires c.fail || c.file.None? || !FileAllowed(t.prog, t.record, c.file.value)
    ensures NextPreparationOk(v, tid, t, d, ChooseStep(v, tid, t, p, c))
  {
  }

  lemma SlotPrepares(v: View, tid: TaskId, t: Task, p: ChoosePoint, c: Choice, d: Told)
    requires t.pc == Choose(p) && t.prog.Prepare? && (p.QueueSlot? || p.SlotCheck? || p.SaveSlot?)
    ensures NextPreparationOk(v, tid, t, d, ChooseStep(v, tid, t, p, c))
  {
  }

  lemma ConfigurePrepares(v: View, tid: TaskId, t: Task, p: ConfigurePoint, c: Choice, d: Told)
    requires t.pc == Configure(p) && t.prog.Prepare?
    ensures NextPreparationOk(v, tid, t, d, ConfigureStep(v, tid, t, p, c))
  {
  }

  lemma FinishPrepares(v: View, tid: TaskId, t: Task, p: FinishPoint, c: Choice, d: Told)
    requires t.pc == Finish(p) && t.prog.Prepare?
    ensures NextPreparationOk(v, tid, t, d, FinishStep(v, tid, t, p, c))
  {
    if p.StartAgain? { StartAgainPrepares(v, tid, t, p, c, d); } else { EndPrepares(v, tid, t, p, c, d); }
  }

  lemma StartAgainPrepares(v: View, tid: TaskId, t: Task, p: FinishPoint, c: Choice, d: Told)
    requires t.pc == Finish(p) && t.prog.Prepare? && p.StartAgain?
    ensures NextPreparationOk(v, tid, t, d, FinishStep(v, tid, t, p, c))
  {
  }

  lemma EndPrepares(v: View, tid: TaskId, t: Task, p: FinishPoint, c: Choice, d: Told)
    requires t.pc == Finish(p) && t.prog.Prepare? && !p.StartAgain?
    ensures NextPreparationOk(v, tid, t, d, FinishStep(v, tid, t, p, c))
  {
    if p.SaveManaged? || p.SaveFailure? {
      SavePrepares(v, tid, t, p, c, d);
    } else {
      ReadyPrepares(v, tid, t, p, c, d);
    }
  }

  lemma SavePrepares(v: View, tid: TaskId, t: Task, p: FinishPoint, c: Choice, d: Told)
    requires t.pc == Finish(p) && t.prog.Prepare? && (p.SaveManaged? || p.SaveFailure?)
    ensures NextPreparationOk(v, tid, t, d, FinishStep(v, tid, t, p, c))
  {
  }

  lemma ReadyPrepares(v: View, tid: TaskId, t: Task, p: FinishPoint, c: Choice, d: Told)
    requires t.pc == Finish(p) && t.prog.Prepare? && (p.Manage? || p.Ready? || p.Failure?)
    ensures NextPreparationOk(v, tid, t, d, FinishStep(v, tid, t, p, c))
  {
  }

  lemma StepPrepares(v: View, tid: TaskId, t: Task, c: Choice, d: Told)
    requires t.prog.Prepare?
    ensures NextPreparationOk(v, tid, t, d, Advance(v, tid, t, c))
  {
    match t.pc {
      case Wait(p) => WaitPrepares(v, tid, t, p, c, d);
      case Register(p) => RegisterPrepares(v, tid, t, p, c, d);
      case Verify(p) => VerifyPrepares(v, tid, t, p, c, d);
      case Choose(p) => ChoosePrepares(v, tid, t, p, c, d);
      case Configure(p) => ConfigurePrepares(v, tid, t, p, c, d);
      case Finish(p) => FinishPrepares(v, tid, t, p, c, d);
      case Erase(_) =>
      case Patrol(_) =>
    }
  }

  // ----- the log grows ------------------------------------------------------------------------

  lemma ToldExtends(v: View, tid: TaskId, t: Task, note: Option<Event>, t': Task)
    requires t'.prog == t.prog
    ensures var log' := if note.Some? then v.log + [note.value] else v.log;
      Extends(v, tid, t, note, t', ToldBy(v.log, tid, t), ToldBy(log', tid, t'))
  {
    var log' := if note.Some? then v.log + [note.value] else v.log;
    assert forall x | 0 <= x < |v.log| :: log'[x] == v.log[x];
    if t.past.enteredAt < |v.log| { SightsExtend(v.log, note, t.past.enteredAt, tid); }
    if t.past.sawAt < |v.log| {
      StartsExtend(v.log, note, t.past.sawAt, tid);
      OneStartExtends(v.log, note, t.past.sawAt, tid);
    }
    if note.Some? { assert log'[|v.log|] == note.value; }
  }

  lemma SightsExtend(log: seq<Event>, note: Option<Event>, from: nat, tid: TaskId)
    requires from < |log|
    ensures var log' := if note.Some? then log + [note.value] else log;
      NoSight(log', from, |log'|, tid) == (NoSight(log, from, |log|, tid) && !(note.Some? && OwnSight(note.value, tid)))
  {
    var log' := if note.Some? then log + [note.value] else log;
    assert forall x | 0 <= x < |log| :: log'[x] == log[x];
    if note.Some? { assert log'[|log|] == note.value; }
  }

  lemma StartsExtend(log: seq<Event>, note: Option<Event>, from: nat, tid: TaskId)
    requires from < |log|
    ensures var log' := if note.Some? then log + [note.value] else log;
      NoStart(log', from, |log'|, tid) == (NoStart(log, from, |log|, tid) && !(note.Some? && OwnStart(note.value, tid)))
  {
    var log' := if note.Some? then log + [note.value] else log;
    assert forall x | 0 <= x < |log| :: log'[x] == log[x];
    if note.Some? { assert log'[|log|] == note.value; }
  }

  lemma OneStartExtends(log: seq<Event>, note: Option<Event>, from: nat, tid: TaskId)
    requires from < |log|
    ensures var log' := if note.Some? then log + [note.value] else log;
      AtMostOneStart(log, from, |log|, tid)
      && (NoStart(log, from, |log|, tid) || !(note.Some? && OwnStart(note.value, tid))) ==>
        AtMostOneStart(log', from, |log'|, tid)
  {
    var log' := if note.Some? then log + [note.value] else log;
    assert forall x | 0 <= x < |log| :: log'[x] == log[x];
    if note.Some? { assert log'[|log|] == note.value; }
  }

  // What other tasks do tells nothing of this one.
  lemma ToldKept(log: seq<Event>, log': seq<Event>, tid: TaskId, t: Task)
    requires log <= log' && forall x | |log| <= x < |log'| :: Foreign(log'[x], tid)
    ensures ToldBy(log', tid, t) == ToldBy(log, tid, t)
  {
    assert forall x | 0 <= x < |log| :: log'[x] == log[x];
    assert PickedSince(log, t.past.sawAt, tid, t.prog.hash, t.file, t.fileComplete) ==
      PickedSince(log', t.past.sawAt, tid, t.prog.hash, t.file, t.fileComplete);
    assert Missed(log, t.past.enteredAt, tid, t.prog) == Missed(log', t.past.enteredAt, tid, t.prog);
  }

  predicate Foreign(e: Event, tid: TaskId) {
    match e
    case Saw(u, _, _, _) => u != tid
    case Acted(u, _, _, _, _, _, _, _) => u != tid
    case Picked(u, _, _, _) => u != tid
    case _ => true
  }

  // ----- what the log promises ----------------------------------------------------------------

  // Event i is the hand-over of a file that was picked, by event m, for the request of event k; event j was the
  // first sight of the torrent, and since then it was started exactly if it needed it.
  ghost predicate Delivers(log: seq<Event>, i: nat, k: nat, j: nat, m: nat)
    requires i < |log| && log[i].Prepared?
  {
    var e := log[i];
    && Entered(log, i, k, e.task, e.hash) && log[k].prog.Prepare? && e.playback == log[k].prog.playback
    && FirstSight(log, k, j, e.task, log[k].prog.backend, e.hash, e.seen)
    && j < m < i && log[m] == Picked(e.task, e.hash, e.file, e.complete)
    && (!log[k].prog.selection.Pick? ==> e.file == log[k].prog.selection.file)
    && (NoStart(log, j, i, e.task) <==> !NeedsStart(e.seen, e.complete)) && AtMostOneStart(log, j, i, e.task)
  }

  // Event i submits for a request that may add a torrent, after event j has shown that there is none and nothing
  // in the section has shown one.
  ghost predicate SubmitsAbsent(log: seq<Event>, i: nat, k: nat, j: nat)
    requires i < |log| && log[i].Submitted?
  {
    var e := log[i];
    && Entered(log, i, k, e.task, e.hash) && Adds(log[k].prog) && NoSight(log, k, i, e.task)
    && k < j < i && log[j] == Saw(e.task, log[k].prog.backend, e.hash, None)
  }

  ghost predicate ToldOk(log: seq<Event>, i: nat)
    requires i < |log|
  {
    && (log[i].Prepared? ==> exists k, j, m :: Delivers(log, i, k, j, m))
    && (log[i].Submitted? ==> exists k, j :: SubmitsAbsent(log, i, k, j))
  }

  ghost predicate LogTold(log: seq<Event>) { forall i | 0 <= i < |log| :: ToldOk(log, i) }

  lemma ToldOkGrows(log: seq<Event>, more: seq<Event>, i: nat)
    requires i < |log| && ToldOk(log, i)
    ensures ToldOk(log + more, i)
  {
    var log' := log + more;
    assert forall x | 0 <= x < |log| :: log'[x] == log[x];
    if log[i].Prepared? {
      var k, j, m :| Delivers(log, i, k, j, m);
      EnteredGrows(log, more, i, k, log[i].task, log[i].hash);
      assert Delivers(log', i, k, j, m);
    }
    if log[i].Submitted? {
      var k, j :| SubmitsAbsent(log, i, k, j);
      EnteredGrows(log, more, i, k, log[i].task, log[i].hash);
      assert SubmitsAbsent(log', i, k, j);
    }
  }

  lemma LogToldGrows(log: seq<Event>, more: seq<Event>)
    requires LogTold(log)
    requires forall x | |log| <= x < |log + more| :: ToldOk(log + more, x)
    ensures LogTold(log + more)
  {
    forall i | 0 <= i < |log + more| ensures ToldOk(log + more, i) { if i < |log| { ToldOkGrows(log, more, i); } }
  }

  // A hand-over and a submission are as promised.
  lemma NoteIsOk(v: View, tid: TaskId, t: Task, c: Choice, more: seq<Event>)
    requires LocalOk(v, tid, t) && PreparationOk(t, ToldBy(v.log, tid, t)) && more != []
    requires Truthful(v, tid, t, c, more[0])
    ensures ToldOk(v.log + more, |v.log|)
  {
    var log, i := v.log + more, |v.log|;
    assert forall x | 0 <= x < |v.log| :: log[x] == v.log[x];
    if log[i].Prepared? {
      DeliveryIsOk(v, tid, t, c, more);
    } else if log[i].Submitted? {
      SubmissionIsOk(v, tid, t, c, more);
    }
  }

  lemma DeliveryIsOk(v: View, tid: TaskId, t: Task, c: Choice, more: seq<Event>)
    requires LocalOk(v, tid, t) && PreparationOk(t, ToldBy(v.log, tid, t)) && more != []
    requires Truthful(v, tid, t, c, more[0]) && more[0].Prepared?
    ensures exists k, j, m :: Delivers(v.log + more, |v.log|, k, j, m)
  {
    var log := v.log + more;
    assert forall x | 0 <= x < |v.log| :: log[x] == v.log[x];
    var m :| t.past.sawAt < m < |v.log| && v.log[m] == Picked(tid, t.prog.hash, t.file, t.fileComplete);
    assert Delivers(log, |v.log|, t.past.enteredAt, t.past.sawAt, m);
  }

  lemma SubmissionIsOk(v: View, tid: TaskId, t: Task, c: Choice, more: seq<Event>)
    requires LocalOk(v, tid, t) && PreparationOk(t, ToldBy(v.log, tid, t)) && more != []
    requires Truthful(v, tid, t, c, more[0]) && more[0].Submitted?
    ensures exists k, j :: SubmitsAbsent(v.log + more, |v.log|, k, j)
  {
    var log := v.log + more;
    assert forall x | 0 <= x < |v.log| :: log[x] == v.log[x];
    var j :| t.past.enteredAt < j < |v.log| && v.log[j] == Saw(tid, t.prog.backend, t.prog.hash, None);
    assert SubmitsAbsent(log, |v.log|, t.past.enteredAt, j);
  }

  // ----- every run ----------------------------------------------------------------------------

  ghost predicate PreparationsOk(s: State) {
    LogTold(s.log) && forall tid <- s.tasks :: PreparationOk(s.tasks[tid], ToldBy(s.log, tid, s.tasks[tid]))
  }

  // The events of a step.
  function NewEvents(tid: TaskId, t: Task, o: Outcome): seq<Event> {
    (if o.note.Some? then [o.note.value] else [])
      + if o.next.Halt? && t.inSection then [Unlocked(tid, t.prog.hash, o.next.ending)] else []
  }

  lemma LogGrowsBy(log: seq<Event>, tid: TaskId, t: Task, o: Outcome)
    ensures LogAfter(log, tid, t, o) == log + NewEvents(tid, t, o)
  {
  }

  lemma StepKeepsLogTold(v: View, tid: TaskId, t: Task, c: Choice)
    requires LocalOk(v, tid, t) && LogTold(v.log) && PreparationOk(t, ToldBy(v.log, tid, t))
    ensures LogTold(LogAfter(v.log, tid, t, Advance(v, tid, t, c)))
  {
    StepTells(v, tid, t, c);
    OutcomeKeepsLogTold(v, tid, t, c, Advance(v, tid, t, c));
  }

  lemma OutcomeKeepsLogTold(v: View, tid: TaskId, t: Task, c: Choice, o: Outcome)
    requires LocalOk(v, tid, t) && LogTold(v.log) && PreparationOk(t, ToldBy(v.log, tid, t))
    requires NoteTruthful(v, tid, t, c, o)
    ensures LogTold(LogAfter(v.log, tid, t, o))
  {
    var more := NewEvents(tid, t, o);
    LogGrowsBy(v.log, tid, t, o);
    forall x | |v.log| <= x < |v.log + more| ensures ToldOk(v.log + more, x) {
      if x == |v.log| && o.note.Some? {
        NoteIsOk(v, tid, t, c, more);
      } else {
        assert (v.log + more)[x].Unlocked?;
      }
    }
    LogToldGrows(v.log, more);
  }

  lemma ActorPrepares(v: View, tid: TaskId, t: Task, c: Choice)
    requires LocalOk(v, tid, t) && PreparationOk(t, ToldBy(v.log, tid, t))
    ensures var o := Advance(v, tid, t, c); o.next.Continue? && o.next.task.prog == t.prog ==>
      PreparationOk(o.next.task, ToldBy(LogAfter(v.log, tid, t, o), tid, o.next.task))
  {
    if t.prog.Prepare? {
      StepPrepares(v, tid, t, c, ToldBy(v.log, tid, t));
      OutcomePrepares(v, tid, t, Advance(v, tid, t, c));
    }
  }

  lemma OutcomePrepares(v: View, tid: TaskId, t: Task, o: Outcome)
    requires LocalOk(v, tid, t) && PreparationOk(t, ToldBy(v.log, tid, t))
    requires NextPreparationOk(v, tid, t, ToldBy(v.log, tid, t), o)
    ensures o.next.Continue? && o.next.task.prog == t.prog ==>
      PreparationOk(o.next.task, ToldBy(LogAfter(v.log, tid, t, o), tid, o.next.task))
  {
    if o.next.Continue? && o.next.task.prog == t.prog {
      ToldExtends(v, tid, t, o.note, o.next.task);
    }
  }

  lemma BystanderPrepares(log: seq<Event>, tid: TaskId, t: Task, o: Outcome, u: TaskId, w: Task)
    requires u != tid && (o.note.Some? ==> Foreign(o.note.value, u)) && PreparationOk(w, ToldBy(log, u, w))
    ensures PreparationOk(w, ToldBy(LogAfter(log, tid, t, o), u, w))
  {
    ToldKept(log, LogAfter(log, tid, t, o), u, w);
  }

  lemma StepKeepsPreparations(s: State, tid: TaskId, c: Choice)
    requires Inv(s) && PreparationsOk(s) && tid in s.tasks
    ensures PreparationsOk(TaskStep(s, tid, c))
  {
    var t := s.tasks[tid];
    var v := ViewOf(s, t.prog);
    StepActor(s, tid, c);
    StepTells(v, tid, t, c);
    StepKeepsLogTold(v, tid, t, c);
    ActorPrepares(v, tid, t, c);
    ApplyKeepsPreparations(s, tid, t, c, Advance(v, tid, t, c));
  }

  lemma ApplyKeepsPreparations(s: State, tid: TaskId, t: Task, c: Choice, o: Outcome)
    requires PreparationsOk(s) && tid in s.tasks && s.tasks[tid] == t && LogTold(LogAfter(s.log, tid, t, o))
    requires NoteTruthful(ViewOf(s, t.prog), tid, t, c, o)
    requires o.next.Continue? ==>
      PreparationOk(o.next.task, ToldBy(LogAfter(s.log, tid, t, o), tid, o.next.task))
    ensures PreparationsOk(Apply(s, tid, t, o))
  {
    var s' := Apply(s, tid, t, o);
    forall u <- s'.tasks ensures PreparationOk(s'.tasks[u], ToldBy(s'.log, u, s'.tasks[u])) {
      if u != tid { BystanderPrepares(s.log, tid, t, o, u, s.tasks[u]); }
    }
  }

  lemma OverlaidPrepares(t: Task, back: Record, written: Record, log: seq<Event>, tid: TaskId)
    requires PreparationOk(t, ToldBy(log, tid, t))
    ensures PreparationOk(Overlaid(t, back, written), ToldBy(log, tid, Overlaid(t, back, written)))
  {
  }

  lemma OverlayKeepsPreparations(s: State, tid: TaskId, h: Hash, back: Record, written: Record, failed: bool)
    requires PreparationsOk(s)
    ensures PreparationsOk(Overlay(s, tid, h, back, written, failed))
  {
    var s' := Overlay(s, tid, h, back, written, failed);
    forall u <- s'.tasks ensures PreparationOk(s'.tasks[u], ToldBy(s'.log, u, s'.tasks[u])) {
      if u == tid { OverlaidPrepares(s.tasks[u], back, written, s.log, u); }
    }
  }

  lemma NextKeepsPreparations(s: State, a: Action)
    requires Inv(s) && PreparationsOk(s)
    ensures PreparationsOk(Next(s, a))
  {
    match a {
      case Step(tid, c) => if tid in s.tasks { StepKeepsPreparations(s, tid, c); }
      case LateKeep(tid, c, kept) =>
        if KeepsBehind(s, tid) {
          var t := s.tasks[tid];
          StepKeepsPreparations(s, tid, c);
          OverlayKeepsPreparations(
            TaskStep(s, tid, c), tid, t.prog.hash, s.records[t.prog.hash].(kept := kept), t.pending, c.fail);
        }
      case Crash => LogToldGrows(s.log, [Crashed]);
      case _ =>
    }
  }

  lemma {:induction false} RunKeepsPreparations(s: State, actions: seq<Action>)
    requires Inv(s) && PreparationsOk(s)
    ensures Inv(Execute(s, actions)) && PreparationsOk(Execute(s, actions))
    decreases |actions|
  {
    if actions == [] {
    } else {
      NextKeepsInv(s, actions[0]);
      NextKeepsPreparations(s, actions[0]);
      RunKeepsPreparations(Next(s, actions[0]), actions[1..]);
    }
  }

  // ----- the theorems -------------------------------------------------------------------------

  // Every hand-over of every run is of the file picked from the torrent's list, which is the requested one if one
  // was requested. Between the section's first sight of the torrent and the hand-over the preparation starts it, once,
  // if it was stopped and it, or the picked file, was incomplete; and in no other case.
  lemma PreparedTorrentsAreStarted(s: State, actions: seq<Action>, i: nat)
    requires Init(s) && i < |Execute(s, actions).log| && Execute(s, actions).log[i].Prepared?
    ensures var log := Execute(s, actions).log; var e := log[i];
      exists k: nat, j: nat, m: nat ::
        && Entered(log, i, k, e.task, e.hash) && log[k].prog.Prepare? && e.playback == log[k].prog.playback
        && FirstSight(log, k, j, e.task, log[k].prog.backend, e.hash, e.seen)
        && j < m < i && log[m] == Picked(e.task, e.hash, e.file, e.complete)
        && (!log[k].prog.selection.Pick? ==> e.file == log[k].prog.selection.file)
        && ((exists x :: j < x < i && log[x].Acted? && log[x].task == e.task && log[x].act == Run(true)) <==>
              e.seen.stopped && (!e.seen.complete || !e.complete))
        && forall x: nat, y: nat | j < x < y < i && log[x].Acted? && log[y].Acted? ::
             log[x].task == log[y].task == e.task ==> !(log[x].act == log[y].act == Run(true))
  {
    RunKeepsPreparations(s, actions);
    var log := Execute(s, actions).log;
    assert ToldOk(log, i);
    var k, j, m :| Delivers(log, i, k, j, m);
    StartsAreSeen(log, j, i, log[i].task);
    OneStartIsSeen(log, j, i, log[i].task);
  }

  lemma OneStartIsSeen(log: seq<Event>, from: nat, to: nat, tid: TaskId)
    requires to <= |log| && AtMostOneStart(log, from, to, tid)
    ensures forall x: nat, y: nat | from < x < y < to && log[x].Acted? && log[y].Acted? ::
      log[x].task == log[y].task == tid ==> !(log[x].act == log[y].act == Run(true))
  {
    forall x: nat, y: nat | from < x < y < to && log[x].Acted? && log[y].Acted?
      ensures log[x].task == log[y].task == tid ==> !(log[x].act == log[y].act == Run(true))
    {
      assert !(OwnStart(log[x], tid) && OwnStart(log[y], tid));
    }
  }

  lemma StartsAreSeen(log: seq<Event>, from: nat, to: nat, tid: TaskId)
    requires to <= |log|
    ensures !NoStart(log, from, to, tid) <==>
      exists x :: from < x < to && log[x].Acted? && log[x].task == tid && log[x].act == Run(true)
  {
    if !NoStart(log, from, to, tid) {
      var x :| from < x < to && OwnStart(log[x], tid);
      assert log[x].Acted?;
    }
  }

  // A torrent is submitted only for a request that asks for no particular file and may add one, and only where the
  // lookups of its section have shown that there is none. A cached copy or a store link never adds anything.
  lemma OnlyAbsentTorrentsAreSubmitted(s: State, actions: seq<Action>, i: nat)
    requires Init(s) && i < |Execute(s, actions).log| && Execute(s, actions).log[i].Submitted?
    ensures var log := Execute(s, actions).log; exists k, j :: SubmitsAbsent(log, i, k, j)
  {
    RunKeepsPreparations(s, actions);
    assert ToldOk(Execute(s, actions).log, i);
  }
}
