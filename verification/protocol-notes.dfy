/** The history log tells the truth: each event is what the state was like, and no torrent changes without one. */
module ManagedNotes {
  import opened Wrappers
  import opened ManagedDownloads
  import opened ManagedSteps
  import opened ManagedSafety

  // ----- each event is what its task saw ------------------------------------------------------

  predicate Truthful(v: View, tid: TaskId, t: Task, c: Choice, e: Event) {
    var b, h := t.prog.backend, t.prog.hash;
    match e
    case Locked(u, p) => u == tid && p == t.prog && v.lockFree
    case Unlocked(u, h', _) => u == tid && h' == h && t.inSection
    case Crashed => false
    case Saw(u, b', h', live) => u == tid && b' == b && h' == h && live == v.live
    case Judged(u, h', stored, torrent, rule, now, playing) =>
      && u == tid && h' == h && stored == v.stored && playing == v.playing
      && t.prog.Delete? && rule == t.prog.rule && torrent == t.torrent && now == c.now
    case Acted(u, b', h', act, owner, claimed, undone, playing) =>
      && u == tid && b' == b && h' == h && owner == StoredOwner(v) && playing == v.playing
      && claimed == t.past.claimed && undone == t.past.undone
    case Tagged(u, b', h', marker, stored) => u == tid && b' == b && h' == h && stored == v.stored
    case Submitted(u, b', h', marker, stored) =>
      u == tid && b' == b && h' == h && stored == v.stored && t.pc == Register(Submission) && t.prog.Prepare?
    case Forgot(u, b', h', owner, undone) => u == tid && b' == b && h' == h && owner == StoredOwner(v)
    case Picked(u, h', file, complete) => u == tid && h' == h && c.file == Some(file) && complete == c.fileComplete
    case Prepared(u, h', file, stored, over, seen, complete, playback) =>
      && u == tid && h' == h && file == t.file && stored == v.stored && over == t.past.over
      && seen == t.torrent && complete == t.fileComplete && t.prog.Prepare? && playback == t.prog.playback
      && t.pc == Finish(FinishPoint.Ready)
    case Asked(u, h', stored) => u == tid && h' == h && stored == v.stored
    case Toggled(u, b', h', running, claimed) =>
      u == tid && b' == b && h' == h && t.prog.Toggle? && running == t.prog.running
  }

  predicate NoteTruthful(v: View, tid: TaskId, t: Task, c: Choice, o: Outcome) {
    o.note.Some? ==> Truthful(v, tid, t, c, o.note.value)
  }

  // The event that goes with an effect on a torrent.
  predicate Accounts(b: BackendId, h: Hash, tid: TaskId, e: Effect, note: Option<Event>) {
    match e
    case Submit(owner, _) =>
      note.Some? && note.value.Submitted? && note.value.marker == owner.marker && At(note.value, tid, b, h)
    case AddMarker(m, _) => note.Some? && note.value.Tagged? && note.value.marker == m && At(note.value, tid, b, h)
    case Change(act, _, _) =>
      && note.Some? && (note.value.Acted? || note.value.Toggled?) && At(note.value, tid, b, h)
      && (note.value.Acted? ==> note.value.act == act)
      && (note.value.Toggled? ==> act == Run(note.value.running))
    case _ => true
  }

  predicate At(e: Event, tid: TaskId, b: BackendId, h: Hash)
    requires e.Submitted? || e.Tagged? || e.Acted? || e.Toggled?
  {
    e.task == tid && e.backend == b && e.hash == h
  }

  // A playback is reserved exactly by the hand-over of a preparation that asked for one.
  predicate HandsOver(e: Effect, note: Option<Event>) {
    e.MarkPlaying? <==> note.Some? && note.value.Prepared? && note.value.playback
  }

  // Only preparations and adoptions draw markers, and only a submit uses one.
  predicate Draws(t: Task, o: Outcome, c: Choice) {
    && (o.effect.Submit? ==> t.pc == Register(Submission))
    && (o.effect.Mint? ==>
          && o.effect.marker == c.marker && o.effect.prepared == t.pc.Register? && t.pc != Register(Submission)
          && o.next.Continue?
          && o.next.task.pending.owner.Some? && o.next.task.pending.owner.value.marker == c.marker)
  }

  predicate Tells(v: View, tid: TaskId, t: Task, c: Choice, o: Outcome) {
    && NoteTruthful(v, tid, t, c, o)
    && Accounts(t.prog.backend, t.prog.hash, tid, o.effect, o.note)
    && HandsOver(o.effect, o.note)
    && Draws(t, o, c)
  }

  lemma WaitTells(v: View, tid: TaskId, t: Task, p: WaitPoint, c: Choice)
    ensures Tells(v, tid, t, c, WaitStep(v, tid, t, p, c))
  {
  }

  lemma RegisterTells(v: View, tid: TaskId, t: Task, p: RegisterPoint, c: Choice)
    requires t.pc == Register(p)
    ensures Tells(v, tid, t, c, RegisterStep(v, tid, t, p, c))
  {
  }

  lemma VerifyTells(v: View, tid: TaskId, t: Task, p: VerifyPoint, c: Choice)
    requires t.pc == Verify(p)
    ensures Tells(v, tid, t, c, VerifyStep(v, tid, t, p, c))
  {
  }

  lemma ChooseTells(v: View, tid: TaskId, t: Task, p: ChoosePoint, c: Choice)
    ensures Tells(v, tid, t, c, ChooseStep(v, tid, t, p, c))
  {
  }

  lemma ConfigureTells(v: View, tid: TaskId, t: Task, p: ConfigurePoint, c: Choice)
    ensures Tells(v, tid, t, c, ConfigureStep(v, tid, t, p, c))
  {
  }

  lemma FinishTells(v: View, tid: TaskId, t: Task, p: FinishPoint, c: Choice)
    requires t.pc == Finish(p)
    ensures Tells(v, tid, t, c, FinishStep(v, tid, t, p, c))
  {
  }

  lemma EraseTells(v: View, tid: TaskId, t: Task, p: ErasePoint, c: Choice)
    ensures Tells(v, tid, t, c, EraseStep(v, tid, t, p, c))
  {
  }

  lemma PatrolTells(v: View, tid: TaskId, t: Task, p: PatrolPoint, c: Choice)
    ensures Tells(v, tid, t, c, PatrolStep(v, tid, t, p, c))
  {
    if p.Inspect? { InspectTells(v, tid, t, c); } else { TouchTells(v, tid, t, p, c); }
  }

  lemma InspectTells(v: View, tid: TaskId, t: Task, c: Choice)
    ensures Tells(v, tid, t, c, PatrolStep(v, tid, t, Inspect, c))
  {
  }

  lemma TouchTells(v: View, tid: TaskId, t: Task, p: PatrolPoint, c: Choice)
    requires !p.Inspect?
    ensures Tells(v, tid, t, c, PatrolStep(v, tid, t, p, c))
  {
    if p.Relimit? {
      CallTells(v, tid, t, c, Tune, Continue(t.(pc := Patrol(StartStop))), Halt(Threw));
    } else if p.StartStop? {
      CallTells(v, tid, t, c, Run(false), Halt(Returned(true)), Halt(Threw));
      CallTells(v, tid, t, c, Run(true), Halt(Returned(true)), Halt(Threw));
    }
  }

  lemma CallTells(v: View, tid: TaskId, t: Task, c: Choice, act: Act, done: Flow, failed: Flow)
    ensures Tells(v, tid, t, c, Call(v, tid, t, c, act, done, failed))
  {
  }

  lemma StepTells(v: View, tid: TaskId, t: Task, c: Choice)
    ensures Tells(v, tid, t, c, Advance(v, tid, t, c))
  {
    match t.pc {
      case Wait(p) => WaitTells(v, tid, t, p, c);
      case Register(p) => RegisterTells(v, tid, t, p, c);
      case Verify(p) => VerifyTells(v, tid, t, p, c);
      case Choose(p) => ChooseTells(v, tid, t, p, c);
      case Configure(p) => ConfigureTells(v, tid, t, p, c);
      case Finish(p) => FinishTells(v, tid, t, p, c);
      case Erase(p) => EraseTells(v, tid, t, p, c);
      case Patrol(p) => PatrolTells(v, tid, t, p, c);
    }
  }

  // Whatever a step adds to the log was true of the state it was taken in.
  lemma EventsAreTrue(s: State, tid: TaskId, c: Choice, i: nat)
    requires tid in s.tasks && |s.log| <= i < |TaskStep(s, tid, c).log|
    ensures var t := s.tasks[tid]; Truthful(ViewOf(s, t.prog), tid, t, c, TaskStep(s, tid, c).log[i])
  {
    StepTells(ViewOf(s, s.tasks[tid].prog), tid, s.tasks[tid], c);
  }

  // A title counts as being played from the step on that hands it over for playback: nothing else a task does changes
  // what is being played.
  lemma PlaybackIsReserved(s: State, tid: TaskId, c: Choice)
    requires tid in s.tasks
    ensures var s', h := TaskStep(s, tid, c), s.tasks[tid].prog.hash;
      var hands := |s'.log| > |s.log| && s'.log[|s.log|].Prepared? && s'.log[|s.log|].playback;
      s'.playing == if hands then s.playing + multiset{h} else s.playing
  {
    StepTells(ViewOf(s, s.tasks[tid].prog), tid, s.tasks[tid], c);
  }

  // The markers a preparation draws are remembered as such with the draw; an adoption's are only known.
  lemma MarkersAreRemembered(s: State, tid: TaskId, c: Choice)
    requires tid in s.tasks && c.marker !in s.known
    ensures var s' := TaskStep(s, tid, c);
      var drawn := s'.known != s.known && s.tasks[tid].pc != Register(Submission);
      && (s'.prepared == if drawn && s.tasks[tid].pc.Register? then s.prepared + {c.marker} else s.prepared)
      && (drawn ==>
            && s'.known == s.known + {c.marker} && tid in s'.tasks
            && s'.tasks[tid].pending.owner.Some? && s'.tasks[tid].pending.owner.value.marker == c.marker)
  {
    var t := s.tasks[tid];
    StepTells(ViewOf(s, t.prog), tid, t, c);
  }

  // A step changes at most the torrent of its own hash in its own backend, and then it logs what it did to it.
  lemma EveryChangeIsNoted(s: State, tid: TaskId, c: Choice, b: BackendId, h: Hash)
    requires tid in s.tasks && Live(TaskStep(s, tid, c), b, h) != Live(s, b, h)
    ensures var log := TaskStep(s, tid, c).log;
      && |log| > |s.log|
      && (log[|s.log|].Submitted? || log[|s.log|].Tagged? || log[|s.log|].Acted? || log[|s.log|].Toggled?)
      && At(log[|s.log|], tid, b, h)
  {
    var t := s.tasks[tid];
    var o := Advance(ViewOf(s, t.prog), tid, t, c);
    StepTells(ViewOf(s, t.prog), tid, t, c);
    if b != t.prog.backend || h != t.prog.hash {
      LiveElsewhere(s, tid, t, o, b, h);
    } else {
      OnlyByEffect(s, tid, t, o);
    }
  }

  lemma OnlyByEffect(s: State, tid: TaskId, t: Task, o: Outcome)
    requires Live(Apply(s, tid, t, o), t.prog.backend, t.prog.hash) != Live(s, t.prog.backend, t.prog.hash)
    ensures o.effect.Submit? || o.effect.AddMarker? || o.effect.Change?
  {
  }
}
