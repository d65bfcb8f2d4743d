/** What a task does in any state at all when a call of its fails, and while it waits. */
module ManagedFailures {
  import opened Wrappers
  import opened ManagedDownloads

  // The steps that wait for a call whose failure is not ignored, as that of the optional tuning is.
  predicate Calling(t: Task) {
    match t.pc
    case Wait(w) => w.Prove? || w.Press?
    case Register(r) => !r.QueueRegistration?
    case Verify(w) => !w.Check?
    case Choose(w) => w.StartIt? || w.Files? || w.SlotCheck? || w.SaveSlot?
    case Configure(w) => t.prog.Prepare? && !w.Tuning? && !w.Merge?
    case Finish(w) => w.SaveManaged? || w.SaveFailure? || (w.StartAgain? && Restarts(t))
    case Erase(w) => !w.Decide?
    case Patrol(w) => t.prog.Sweep? && (w.Inspect? || w.SaveMark? || (w.Relimit? && t.record.lifecycle != Deleting))
  }

  predicate Restarts(t: Task) { !t.started && t.torrent.stopped && !t.fileComplete }

  // From the choice of a file on a preparation records that it failed, unless there was no room for the download.
  predicate Records(t: Task, stored: Option<Record>, c: Choice) {
    && t.prog.Prepare? && stored.Some?
    && (t.pc == Choose(SlotCheck) ==> !c.busy)
    && (t.pc.Choose? || t.pc.Configure? || t.pc == Finish(StartAgain) || t.pc == Finish(SaveManaged))
  }

  // No failed call changes a record or is passed over: the task ends, or goes on to record its failure.
  lemma FailedCallsStop(s: State, tid: TaskId, c: Choice)
    requires tid in s.tasks && c.fail && Calling(s.tasks[tid])
    ensures var t := s.tasks[tid]; var s' := Next(s, Step(tid, c));
      && s'.records == s.records
      && (tid in s'.tasks <==> Records(t, Stored(s, t.prog.hash), c))
      && (tid in s'.tasks ==>
            s'.tasks[tid].prog == t.prog && s'.tasks[tid].pc == Finish(Failure(false)) && !s'.tasks[tid].inReg)
  {
    var t := s.tasks[tid];
    StepStops(ViewOf(s, t.prog), tid, t, c);
  }

  predicate Stops(t: Task, o: Outcome, v: View, c: Choice) {
    && !o.effect.Upsert? && !o.effect.Forget?
    && (o.next.Continue? <==> Records(t, v.stored, c))
    && (o.next.Continue? ==>
          o.next.task.prog == t.prog && o.next.task.pc == Finish(Failure(false)) && !o.next.task.inReg)
  }

  lemma StepStops(v: View, tid: TaskId, t: Task, c: Choice)
    requires c.fail && Calling(t)
    ensures Stops(t, Advance(v, tid, t, c), v, c)
  {
    match t.pc {
      case Wait(p) => assert Stops(t, WaitStep(v, tid, t, p, c), v, c);
      case Register(p) => assert Stops(t, RegisterStep(v, tid, t, p, c), v, c);
      case Verify(p) => assert Stops(t, VerifyStep(v, tid, t, p, c), v, c);
      case Choose(p) => assert Stops(t, ChooseStep(v, tid, t, p, c), v, c);
      case Configure(p) => assert Stops(t, ConfigureStep(v, tid, t, p, c), v, c);
      case Finish(p) => assert Stops(t, FinishStep(v, tid, t, p, c), v, c);
      case Erase(p) => assert Stops(t, EraseStep(v, tid, t, p, c), v, c);
      case Patrol(p) => assert Stops(t, PatrolStep(v, tid, t, p, c), v, c);
    }
  }

  function Fallen(r: Record, noFile: bool): Record {
    r.(lifecycle := if r.selected == [] && noFile then Failed
                    else if r.lifecycle == Unset then Registering else r.lifecycle)
  }

  // What a failed preparation leaves: its record, which has failed for good only if there is no file in it that was
  // ever selected and the wanted one is not there.
  lemma FailuresAreRecorded(s: State, tid: TaskId, c: Choice, c': Choice)
    requires tid in s.tasks && s.tasks[tid].prog.Prepare? && s.tasks[tid].prog.hash in s.records && !c'.fail
    requires s.tasks[tid].pc.Finish? && s.tasks[tid].pc.f.Failure?
    ensures var t := s.tasks[tid]; var s' := Next(Next(s, Step(tid, c)), Step(tid, c'));
      && tid !in s'.tasks && Live(s', t.prog.backend, t.prog.hash) == Live(s, t.prog.backend, t.prog.hash)
      && Stored(s', t.prog.hash) == Some(Fallen(s.records[t.prog.hash], t.pc.f.noFile))
  {
    FailureIsNoted(s, tid, c);
    FailureIsSaved(Next(s, Step(tid, c)), tid, c');
  }

  lemma FailureIsNoted(s: State, tid: TaskId, c: Choice)
    requires tid in s.tasks && s.tasks[tid].prog.Prepare? && s.tasks[tid].prog.hash in s.records
    requires s.tasks[tid].pc.Finish? && s.tasks[tid].pc.f.Failure?
    ensures var t := s.tasks[tid]; var s' := Next(s, Step(tid, c));
      && tid in s'.tasks && s'.tasks[tid].prog == t.prog && s'.tasks[tid].pc == Finish(SaveFailure)
      && s'.tasks[tid].pending == Fallen(s.records[t.prog.hash], t.pc.f.noFile)
      && s'.records == s.records && Live(s', t.prog.backend, t.prog.hash) == Live(s, t.prog.backend, t.prog.hash)
  {
  }

  lemma FailureIsSaved(s: State, tid: TaskId, c: Choice)
    requires tid in s.tasks && s.tasks[tid].prog.Prepare? && s.tasks[tid].prog.hash in s.records
    requires s.tasks[tid].pc == Finish(SaveFailure) && !c.fail
    ensures var t := s.tasks[tid]; var s' := Next(s, Step(tid, c));
      && tid !in s'.tasks && Live(s', t.prog.backend, t.prog.hash) == Live(s, t.prog.backend, t.prog.hash)
      && Stored(s', t.prog.hash) == Some(t.pending)
  {
  }

  // While another task is in the section of its hash, or registers, a task that asks for that lock does not move.
  lemma LocksAreWaitedFor(s: State, tid: TaskId, c: Choice, u: TaskId)
    requires tid in s.tasks && u in s.tasks
    requires var t := s.tasks[tid];
      || (t.pc.Wait? && (t.pc.w.QueuePrepare? || t.pc.w.QueueDelete? || t.pc.w.QueueSweep?)
          && s.tasks[u].inSection && s.tasks[u].prog.hash == t.prog.hash)
      || ((t.pc == Register(QueueRegistration) || t.pc == Choose(QueueSlot))
          && t.prog.Prepare? && t.prog.hash in s.records && s.tasks[u].inReg)
    ensures var s' := Next(s, Step(tid, c));
      && s'.tasks == s.tasks && s'.records == s.records && s'.log == s.log
      && forall b, h :: Live(s', b, h) == Live(s, b, h)
  {
    var t := s.tasks[tid];
    var v := ViewOf(s, t.prog);
    assert t.pc.Wait? ==> !v.lockFree;
    assert !t.pc.Wait? ==> !v.regFree;
    assert Advance(v, tid, t, c) == Goto(t);
  }

  // A removal that the client has not confirmed leaves the record, to be deleted later.
  lemma UnconfirmedRemovalsAreKept(s: State, tid: TaskId, c: Choice)
    requires tid in s.tasks && s.tasks[tid].pc == Erase(Confirm) && s.tasks[tid].prog.hash in s.records
    requires Live(s, s.tasks[tid].prog.backend, s.tasks[tid].prog.hash).Some?
    ensures var s' := Next(s, Step(tid, c)); tid !in s'.tasks && s'.records == s.records
  {
  }

  // A preparation of a title that is being deleted is refused before it waits for the lock, and one whose request has
  // been aborted meanwhile does not take it.
  lemma RefusedAtTheDoor(s: State, tid: TaskId, c: Choice)
    requires tid in s.tasks && s.tasks[tid].prog.Prepare?
    requires s.tasks[tid].pc == Wait(StartPrepare) || (s.tasks[tid].pc == Wait(QueuePrepare) && c.fail)
    ensures var t := s.tasks[tid]; var s' := Next(s, Step(tid, c));
      && s'.records == s.records
      && (t.pc.w.StartPrepare? ==>
            (tid in s'.tasks <==> t.prog.hash !in s.records || s.records[t.prog.hash].lifecycle != Deleting))
      && (t.pc.w.QueuePrepare? ==> tid in s'.tasks ==> s'.tasks == s.tasks)
  {
  }

  // A submitted torrent is waited for until it shows or the waiting is over, and then its intent stays stored.
  lemma MissingTorrentsAreWaitedFor(s: State, tid: TaskId, c: Choice)
    requires tid in s.tasks && s.tasks[tid].prog.Prepare? && s.tasks[tid].pc == Register(Poll) && !c.fail
    requires Live(s, s.tasks[tid].prog.backend, s.tasks[tid].prog.hash).None?
    ensures var s' := Next(s, Step(tid, c));
      s'.records == s.records && s'.tasks == if c.again then s.tasks else s.tasks - {tid}
  {
  }

  // A tuning call is made as often as the client has something to tune, and its failure is of no consequence.
  lemma TuningIsOptional(s: State, tid: TaskId, c: Choice)
    requires tid in s.tasks && s.tasks[tid].pc == Configure(Tuning) && s.tasks[tid].prog.hash in s.records
    ensures var t := s.tasks[tid]; var s' := Next(s, Step(tid, c));
      && s'.records == s.records && Live(s', t.prog.backend, t.prog.hash) == Live(s, t.prog.backend, t.prog.hash)
      && s'.tasks == (if c.again then s.tasks else s.tasks[tid := t.(pc := Configure(Merge))])
      && |s'.log| == |s.log| + if c.again then 1 else 0
  {
  }

  // The stored selection is applied by leaving out what is not wanted, and then taking in what is.
  lemma SelectionsAreApplied(s: State, tid: TaskId, c: Choice, c': Choice)
    requires tid in s.tasks && s.tasks[tid].pc == Configure(Deselect) && s.tasks[tid].prog.hash in s.records
    requires !c.fail && !c'.fail
    ensures var s1 := Next(s, Step(tid, c)); var s2 := Next(s1, Step(tid, c'));
      && tid in s2.tasks && s2.tasks[tid] == s.tasks[tid].(pc := Finish(StartAgain)) && s2.records == s.records
      && |s2.log| == |s.log| + 2 && s.log <= s2.log
      && s2.log[|s.log|].Acted? && s2.log[|s.log|].act == SelectFiles(false)
      && s2.log[|s.log| + 1].Acted? && s2.log[|s.log| + 1].act == SelectFiles(true)
  {
    SelectionStep(s, tid, c);
    SelectionStep(Next(s, Step(tid, c)), tid, c');
  }

  lemma SelectionStep(s: State, tid: TaskId, c: Choice)
    requires tid in s.tasks && s.tasks[tid].prog.hash in s.records && !c.fail
    requires s.tasks[tid].pc == Configure(Deselect) || s.tasks[tid].pc == Configure(SelectWanted)
    ensures var t := s.tasks[tid]; var s' := Next(s, Step(tid, c)); var off := t.pc == Configure(Deselect);
      && s'.tasks == s.tasks[tid := t.(pc := if off then Configure(SelectWanted) else Finish(StartAgain))]
      && s'.records == s.records && |s'.log| == |s.log| + 1 && s.log <= s'.log
      && s'.log[|s.log|].Acted? && s'.log[|s.log|].act == SelectFiles(!off)
  {
  }
}
