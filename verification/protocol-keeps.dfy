/**
 What becomes of an admin's keep. `setKept` takes its lock on another object than the sections do, so a keep
 lands between any two steps of a section; and the SQLite driver's keep writes back a whole earlier record.
 */
module ManagedKeeps {
  import opened Wrappers
  import opened ManagedDownloads
  import opened ManagedSteps
  import opened ManagedSafety

  // ----- when a keep survives the next write --------------------------------------------------

  // The record writes of a section.
  predicate WritesRecord(pc: Pc) { Writing(pc) && pc != Erase(Forgetting) }

  // Those whose record is read again when they are queued. The others write the record as it was when the
  // section was entered, or for SaveManaged as the section itself wrote it last.
  predicate ReadsAgain(pc: Pc) {
    match pc
    case Choose(p) => p.SaveSlot?
    case Configure(p) => p.SaveMerged?
    case Finish(p) => p.SaveFailure?
    case Erase(p) => p.SaveDeleting?
    case _ => false
  }

  // At `at` the section has already read the record it will write at `write`.
  predicate TooLate(at: Pc, write: Pc) { if ReadsAgain(write) then at == write else true }

  // What it has read.
  function Copy(t: Task, write: Pc): Record { if ReadsAgain(write) then t.pending else t.record }

  // Where the pending record is still the copy the section has had all along.
  predicate StalePending(pc: Pc) {
    match pc
    case Register(p) => p.SaveQueued? || p.SaveIntent?
    case Verify(p) => p.AddMark? || p.ConfirmMark? || p.SaveAdopted? || p.SaveConflict?
    case Finish(p) => p.SaveManaged?
    case Patrol(p) => p.SaveMark?
    case _ => false
  }

  predicate CopiesAgree(t: Task) { StalePending(t.pc) && t.tracked ==> t.pending.kept == t.record.kept }

  predicate AllCopiesAgree(s: State) { forall tid <- s.tasks :: CopiesAgree(s.tasks[tid]) }

  predicate NextCopies(t: Task, o: Outcome) { CopiesAgree(t) && o.next.Continue? ==> CopiesAgree(o.next.task) }

  lemma WaitCopies(v: View, tid: TaskId, t: Task, p: WaitPoint, c: Choice)
    requires t.pc == Wait(p)
    ensures NextCopies(t, WaitStep(v, tid, t, p, c))
  {
  }

  lemma RegisterCopies(v: View, tid: TaskId, t: Task, p: RegisterPoint, c: Choice)
    requires t.pc == Register(p)
    ensures NextCopies(t, RegisterStep(v, tid, t, p, c))
  {
  }

  lemma VerifyCopies(v: View, tid: TaskId, t: Task, p: VerifyPoint, c: Choice)
    requires t.pc == Verify(p)
    ensures NextCopies(t, VerifyStep(v, tid, t, p, c))
  {
  }

  lemma ChooseCopies(v: View, tid: TaskId, t: Task, p: ChoosePoint, c: Choice)
    requires t.pc == Choose(p)
    ensures NextCopies(t, ChooseStep(v, tid, t, p, c))
  {
  }

  lemma ConfigureCopies(v: View, tid: TaskId, t: Task, p: ConfigurePoint, c: Choice)
    requires t.pc == Configure(p)
    ensures NextCopies(t, ConfigureStep(v, tid, t, p, c))
  {
  }

  lemma FinishCopies(v: View, tid: TaskId, t: Task, p: FinishPoint, c: Choice)
    requires t.pc == Finish(p)
    ensures NextCopies(t, FinishStep(v, tid, t, p, c))
  {
  }

  lemma EraseCopies(v: View, tid: TaskId, t: Task, p: ErasePoint, c: Choice)
    requires t.pc == Erase(p)
    ensures NextCopies(t, EraseStep(v, tid, t, p, c))
  {
  }

  lemma PatrolCopies(v: View, tid: TaskId, t: Task, p: PatrolPoint, c: Choice)
    requires t.pc == Patrol(p)
    ensures NextCopies(t, PatrolStep(v, tid, t, p, c))
  {
  }

  lemma StepCopies(v: View, tid: TaskId, t: Task, c: Choice)
    ensures NextCopies(t, Advance(v, tid, t, c))
  {
    match t.pc {
      case Wait(p) => WaitCopies(v, tid, t, p, c);
      case Register(p) => RegisterCopies(v, tid, t, p, c);
      case Verify(p) => VerifyCopies(v, tid, t, p, c);
      case Choose(p) => ChooseCopies(v, tid, t, p, c);
      case Configure(p) => ConfigureCopies(v, tid, t, p, c);
      case Finish(p) => FinishCopies(v, tid, t, p, c);
      case Erase(p) => EraseCopies(v, tid, t, p, c);
      case Patrol(p) => PatrolCopies(v, tid, t, p, c);
    }
  }

  lemma NextKeepsCopies(s: State, a: Action)
    requires AllCopiesAgree(s)
    ensures AllCopiesAgree(Next(s, a))
  {
    match a {
      case Step(tid, c) =>
        if tid in s.tasks { StepCopies(ViewOf(s, s.tasks[tid].prog), tid, s.tasks[tid], c); }
      case LateKeep(tid, c, kept) =>
        if tid in s.tasks { StepCopies(ViewOf(s, s.tasks[tid].prog), tid, s.tasks[tid], c); }
      case _ =>
    }
  }

  // Every state of every run.
  ghost predicate Reachable(s: State) { Inv(s) && AllCopiesAgree(s) }

  lemma {:induction false} RunsAreReachable(s: State, actions: seq<Action>)
    requires Reachable(s)
    ensures Reachable(Execute(s, actions))
    decreases |actions|
  {
    if actions == [] {
    } else {
      NextKeepsInv(s, actions[0]);
      NextKeepsCopies(s, actions[0]);
      RunsAreReachable(Next(s, actions[0]), actions[1..]);
    }
  }

  lemma StartsAreReachable(s: State)
    requires Init(s)
    ensures Reachable(s)
  {
  }

  // ----- from the landing to the write --------------------------------------------------------

  // The section still has the flag it had read: in its record, and in a pending record built on that.
  predicate Holds(copy: bool, t: Task) {
    && t.tracked && !t.pc.Wait?
    && (Reread(t.pc) || t.record.kept == copy)
    && (StalePending(t.pc) ==> t.pending.kept == copy)
  }

  // A deletion has read the record again.
  predicate Reread(pc: Pc) { pc.Erase? && !pc.d.Find? && !pc.d.Decide? }

  predicate NextHolds(copy: bool, t: Task, o: Outcome) {
    Holds(copy, t) && !o.effect.Upsert? && o.next.Continue? ==> Holds(copy, o.next.task)
  }

  lemma RegisterHolds(v: View, tid: TaskId, t: Task, p: RegisterPoint, c: Choice, copy: bool)
    requires t.pc == Register(p)
    ensures NextHolds(copy, t, RegisterStep(v, tid, t, p, c))
  {
    if p.Lookup? || p.Poll? { LookHolds(v, tid, t, p, c, copy); } else { AdmissionHolds(v, tid, t, p, c, copy); }
  }

  lemma LookHolds(v: View, tid: TaskId, t: Task, p: RegisterPoint, c: Choice, copy: bool)
    requires t.pc == Register(p) && (p.Lookup? || p.Poll?)
    ensures NextHolds(copy, t, RegisterStep(v, tid, t, p, c))
  {
  }

  lemma AdmissionHolds(v: View, tid: TaskId, t: Task, p: RegisterPoint, c: Choice, copy: bool)
    requires t.pc == Register(p) && !p.Lookup? && !p.Poll?
    ensures NextHolds(copy, t, RegisterStep(v, tid, t, p, c))
  {
  }

  lemma VerifyHolds(v: View, tid: TaskId, t: Task, p: VerifyPoint, c: Choice, copy: bool)
    requires t.pc == Verify(p)
    ensures NextHolds(copy, t, VerifyStep(v, tid, t, p, c))
  {
    if p.Check? || p.Evidence? { CheckHolds(v, tid, t, p, c, copy); } else { AdoptionHolds(v, tid, t, p, c, copy); }
  }

  lemma CheckHolds(v: View, tid: TaskId, t: Task, p: VerifyPoint, c: Choice, copy: bool)
    requires t.pc == Verify(p) && (p.Check? || p.Evidence?)
    ensures NextHolds(copy, t, VerifyStep(v, tid, t, p, c))
  {
  }

  lemma AdoptionHolds(v: View, tid: TaskId, t: Task, p: VerifyPoint, c: Choice, copy: bool)
    requires t.pc == Verify(p) && !p.Check? && !p.Evidence?
    ensures NextHolds(copy, t, VerifyStep(v, tid, t, p, c))
  {
  }

  lemma ChooseHolds(v: View, tid: TaskId, t: Task, p: ChoosePoint, c: Choice, copy: bool)
    requires t.pc == Choose(p)
    ensures NextHolds(copy, t, ChooseStep(v, tid, t, p, c))
  {
  }

  lemma ConfigureHolds(v: View, tid: TaskId, t: Task, p: ConfigurePoint, c: Choice, copy: bool)
    requires t.pc == Configure(p)
    ensures NextHolds(copy, t, ConfigureStep(v, tid, t, p, c))
  {
  }

  lemma FinishHolds(v: View, tid: TaskId, t: Task, p: FinishPoint, c: Choice, copy: bool)
    requires t.pc == Finish(p)
    ensures NextHolds(copy, t, FinishStep(v, tid, t, p, c))
  {
  }

  lemma EraseHolds(v: View, tid: TaskId, t: Task, p: ErasePoint, c: Choice, copy: bool)
    requires t.pc == Erase(p)
    ensures NextHolds(copy, t, EraseStep(v, tid, t, p, c))
  {
  }

  lemma PatrolHolds(v: View, tid: TaskId, t: Task, p: PatrolPoint, c: Choice, copy: bool)
    requires t.pc == Patrol(p)
    ensures NextHolds(copy, t, PatrolStep(v, tid, t, p, c))
  {
    if p.Inspect? { InspectHolds(v, tid, t, c, copy); } else { TouchHolds(v, tid, t, p, c, copy); }
  }

  lemma InspectHolds(v: View, tid: TaskId, t: Task, c: Choice, copy: bool)
    requires t.pc == Patrol(Inspect)
    ensures NextHolds(copy, t, PatrolStep(v, tid, t, Inspect, c))
  {
  }

  lemma TouchHolds(v: View, tid: TaskId, t: Task, p: PatrolPoint, c: Choice, copy: bool)
    requires t.pc == Patrol(p) && !p.Inspect?
    ensures NextHolds(copy, t, PatrolStep(v, tid, t, p, c))
  {
  }

  // A record read again just now has the flag that is stored.
  predicate Fresh(kept: bool, t: Task) { ReadsAgain(t.pc) ==> t.pending.kept == kept }

  predicate NextFresh(v: View, t: Task, o: Outcome) {
    v.stored.Some? && o.next.Continue? ==> Fresh(v.stored.value.kept, o.next.task)
  }

  lemma RegisterFresh(v: View, tid: TaskId, t: Task, p: RegisterPoint, c: Choice)
    requires t.pc == Register(p)
    ensures NextFresh(v, t, RegisterStep(v, tid, t, p, c))
  {
  }

  lemma VerifyFresh(v: View, tid: TaskId, t: Task, p: VerifyPoint, c: Choice)
    requires t.pc == Verify(p)
    ensures NextFresh(v, t, VerifyStep(v, tid, t, p, c))
  {
  }

  lemma ChooseFresh(v: View, tid: TaskId, t: Task, p: ChoosePoint, c: Choice)
    requires t.pc == Choose(p)
    ensures NextFresh(v, t, ChooseStep(v, tid, t, p, c))
  {
  }

  lemma ConfigureFresh(v: View, tid: TaskId, t: Task, p: ConfigurePoint, c: Choice)
    requires t.pc == Configure(p)
    ensures NextFresh(v, t, ConfigureStep(v, tid, t, p, c))
  {
  }

  lemma FinishFresh(v: View, tid: TaskId, t: Task, p: FinishPoint, c: Choice)
    requires t.pc == Finish(p)
    ensures NextFresh(v, t, FinishStep(v, tid, t, p, c))
  {
  }

  lemma EraseFresh(v: View, tid: TaskId, t: Task, p: ErasePoint, c: Choice)
    requires t.pc == Erase(p)
    ensures NextFresh(v, t, EraseStep(v, tid, t, p, c))
  {
  }

  lemma PatrolFresh(v: View, tid: TaskId, t: Task, p: PatrolPoint, c: Choice)
    requires t.pc == Patrol(p)
    ensures NextFresh(v, t, PatrolStep(v, tid, t, p, c))
  {
  }

  // A section that has failed to write what it read goes on to record the failure.
  predicate Failing(pc: Pc) { pc.Finish? && (pc.f.Failure? || pc.f.SaveFailure?) }

  predicate NextFails(t: Task, o: Outcome) {
    ReadsAgain(t.pc) || Failing(t.pc) ==>
      o.next.Continue? && !o.effect.Upsert? ==>
        Failing(o.next.task.pc) && t.pc != Finish(SaveFailure) && t.pc != Erase(SaveDeleting)
  }

  lemma ChooseFails(v: View, tid: TaskId, t: Task, p: ChoosePoint, c: Choice)
    requires t.pc == Choose(p)
    ensures NextFails(t, ChooseStep(v, tid, t, p, c))
  {
  }

  lemma ConfigureFails(v: View, tid: TaskId, t: Task, p: ConfigurePoint, c: Choice)
    requires t.pc == Configure(p)
    ensures NextFails(t, ConfigureStep(v, tid, t, p, c))
  {
  }

  lemma FinishFails(v: View, tid: TaskId, t: Task, p: FinishPoint, c: Choice)
    requires t.pc == Finish(p)
    ensures NextFails(t, FinishStep(v, tid, t, p, c))
  {
  }

  lemma EraseFails(v: View, tid: TaskId, t: Task, p: ErasePoint, c: Choice)
    requires t.pc == Erase(p)
    ensures NextFails(t, EraseStep(v, tid, t, p, c))
  {
  }

  // What a record write puts down.
  predicate Puts(t: Task, o: Outcome) { o.effect.Upsert? ==> WritesRecord(t.pc) && o.effect.record == t.pending }

  lemma RegisterPuts(v: View, tid: TaskId, t: Task, p: RegisterPoint, c: Choice)
    requires t.pc == Register(p)
    ensures Puts(t, RegisterStep(v, tid, t, p, c))
  {
  }

  lemma VerifyPuts(v: View, tid: TaskId, t: Task, p: VerifyPoint, c: Choice)
    requires t.pc == Verify(p)
    ensures Puts(t, VerifyStep(v, tid, t, p, c))
  {
  }

  lemma ChoosePuts(v: View, tid: TaskId, t: Task, p: ChoosePoint, c: Choice)
    requires t.pc == Choose(p)
    ensures Puts(t, ChooseStep(v, tid, t, p, c))
  {
  }

  lemma ConfigurePuts(v: View, tid: TaskId, t: Task, p: ConfigurePoint, c: Choice)
    requires t.pc == Configure(p)
    ensures Puts(t, ConfigureStep(v, tid, t, p, c))
  {
  }

  lemma FinishPuts(v: View, tid: TaskId, t: Task, p: FinishPoint, c: Choice)
    requires t.pc == Finish(p)
    ensures Puts(t, FinishStep(v, tid, t, p, c))
  {
  }

  lemma ErasePuts(v: View, tid: TaskId, t: Task, p: ErasePoint, c: Choice)
    requires t.pc == Erase(p)
    ensures Puts(t, EraseStep(v, tid, t, p, c))
  {
  }

  lemma PatrolPuts(v: View, tid: TaskId, t: Task, p: PatrolPoint, c: Choice)
    requires t.pc == Patrol(p)
    ensures Puts(t, PatrolStep(v, tid, t, p, c))
  {
  }

  lemma StepFromLanding(v: View, tid: TaskId, t: Task, c: Choice, copy: bool)
    requires !t.pc.Wait?
    ensures var o := Advance(v, tid, t, c); NextHolds(copy, t, o) && NextFresh(v, t, o) && NextFails(t, o) && Puts(t, o)
  {
    match t.pc {
      case Register(p) =>
        RegisterHolds(v, tid, t, p, c, copy);
        RegisterFresh(v, tid, t, p, c);
        RegisterPuts(v, tid, t, p, c);
      case Verify(p) =>
        VerifyHolds(v, tid, t, p, c, copy);
        VerifyFresh(v, tid, t, p, c);
        VerifyPuts(v, tid, t, p, c);
      case Choose(p) =>
        ChooseHolds(v, tid, t, p, c, copy);
        ChooseFresh(v, tid, t, p, c);
        ChoosePuts(v, tid, t, p, c);
        ChooseFails(v, tid, t, p, c);
      case Configure(p) =>
        ConfigureHolds(v, tid, t, p, c, copy);
        ConfigureFresh(v, tid, t, p, c);
        ConfigurePuts(v, tid, t, p, c);
        ConfigureFails(v, tid, t, p, c);
      case Finish(p) =>
        FinishHolds(v, tid, t, p, c, copy);
        FinishFresh(v, tid, t, p, c);
        FinishPuts(v, tid, t, p, c);
        FinishFails(v, tid, t, p, c);
      case Erase(p) =>
        EraseHolds(v, tid, t, p, c, copy);
        EraseFresh(v, tid, t, p, c);
        ErasePuts(v, tid, t, p, c);
        EraseFails(v, tid, t, p, c);
      case Patrol(p) =>
        PatrolHolds(v, tid, t, p, c, copy);
        PatrolFresh(v, tid, t, p, c);
        PatrolPuts(v, tid, t, p, c);
    }
  }

  // ----- the steps of everyone else -----------------------------------------------------------

  // While a section is open no other step touches its record.
  lemma OthersLeaveTheRecord(s: State, tid: TaskId, u: TaskId, c: Choice)
    requires Inv(s) && tid in s.tasks && s.tasks[tid].inSection && u in s.tasks && u != tid
    ensures var h := s.tasks[tid].prog.hash; Stored(TaskStep(s, u, c), h) == Stored(s, h)
  {
    var t := s.tasks[u];
    StepActor(s, u, c);
    UpsertsTheirOwn(s, u, t, Advance(ViewOf(s, t.prog), u, t, c), s.tasks[tid].prog.hash);
  }

  lemma UpsertsTheirOwn(s: State, u: TaskId, t: Task, o: Outcome, h: Hash)
    requires EffectOk(ViewOf(s, t.prog), t, o.effect) && (t.inSection ==> h != t.prog.hash)
    ensures Stored(Apply(s, u, t, o), h) == Stored(s, h)
  {
  }

  // What may happen between the landing and the section's next write: anything but another keep of this
  // record, a crash, and that write.
  predicate Between(s: State, a: Action, tid: TaskId, h: Hash) {
    match a
    case Step(u, c) =>
      u == tid && tid in s.tasks ==> !Advance(ViewOf(s, s.tasks[tid].prog), tid, s.tasks[tid], c).effect.Upsert?
    case SetKept(h', _) => h' != h
    case LateKeep(u, _, _) => u in s.tasks ==> s.tasks[u].prog.hash != h
    case Crash => false
    case _ => true
  }

  predicate AllBetween(s: State, actions: seq<Action>, tid: TaskId, h: Hash)
    decreases |actions|
  {
    actions == [] || (Between(s, actions[0], tid, h) && AllBetween(Next(s, actions[0]), actions[1..], tid, h))
  }

  predicate KeptAs(s: State, h: Hash, kept: bool) { h in s.records && s.records[h].kept == kept }

  // How far the section that was at t0 when the keep landed has come.
  predicate Carried(s: State, tid: TaskId, t0: Task, kept: bool) {
    && tid < s.nextTask
    && (tid in s.tasks ==>
          var t, h := s.tasks[tid], t0.prog.hash;
          && t.inSection && t.prog == t0.prog
          && KeptAs(s, h, kept)
          && Holds(t0.record.kept, t)
          && (t == t0 || (Fresh(kept, t) && (ReadsAgain(t0.pc) || Failing(t0.pc) ==> Failing(t.pc) && Missed(t0.pc)))))
  }

  // Points whose write can fail and be followed by another one.
  predicate Missed(pc: Pc) { pc != Finish(SaveFailure) && pc != Erase(SaveDeleting) }

  lemma OwnStepCarries(s: State, tid: TaskId, t0: Task, kept: bool, c: Choice)
    requires Inv(s) && tid in s.tasks && Carried(s, tid, t0, kept) && Between(s, Step(tid, c), tid, t0.prog.hash)
    ensures Carried(Next(s, Step(tid, c)), tid, t0, kept)
  {
    var t := s.tasks[tid];
    var v := ViewOf(s, t.prog);
    var o := Advance(v, tid, t, c);
    StepActor(s, tid, c);
    StepFromLanding(v, tid, t, c, t0.record.kept);
    KeepsItsRecord(s, tid, t, o);
  }

  lemma KeepsItsRecord(s: State, tid: TaskId, t: Task, o: Outcome)
    requires !o.effect.Upsert? && (o.effect.Forget? ==> o.next.Halt?)
    ensures var s' := Apply(s, tid, t, o); tid in s'.tasks ==> o.next.Continue? && s'.tasks[tid] == o.next.task
    ensures var s' := Apply(s, tid, t, o); o.next.Continue? ==> s'.records == s.records
    ensures Apply(s, tid, t, o).nextTask == s.nextTask
  {
  }

  lemma OtherStepCarries(s: State, tid: TaskId, t0: Task, kept: bool, u: TaskId, c: Choice)
    requires Inv(s) && Carried(s, tid, t0, kept) && u in s.tasks && u != tid
    ensures Carried(TaskStep(s, u, c), tid, t0, kept)
    ensures tid in TaskStep(s, u, c).tasks <==> tid in s.tasks
  {
    if tid in s.tasks { OthersLeaveTheRecord(s, tid, u, c); }
    var t := s.tasks[u];
    var o := Advance(ViewOf(s, t.prog), u, t, c);
    OthersStay(s, tid, u, t, o);
    StaysCarried(s, Apply(s, u, t, o), tid, t0, kept);
  }

  lemma OthersStay(s: State, tid: TaskId, u: TaskId, t: Task, o: Outcome)
    requires u in s.tasks && u != tid
    ensures var s' := Apply(s, u, t, o);
      (tid in s'.tasks <==> tid in s.tasks) && (tid in s.tasks ==> s'.tasks[tid] == s.tasks[tid])
      && s'.nextTask == s.nextTask
  {
  }

  lemma StaysCarried(s: State, s': State, tid: TaskId, t0: Task, kept: bool)
    requires Carried(s, tid, t0, kept) && s.nextTask <= s'.nextTask
    requires (tid in s'.tasks <==> tid in s.tasks) && (tid in s.tasks ==> s'.tasks[tid] == s.tasks[tid])
    requires tid in s.tasks ==> KeptAs(s', t0.prog.hash, kept)
    ensures Carried(s', tid, t0, kept)
  {
  }

  lemma LateKeepCarries(s: State, tid: TaskId, t0: Task, kept: bool, u: TaskId, c: Choice, flag: bool)
    requires Inv(s) && Carried(s, tid, t0, kept) && KeepsBehind(s, u) && s.tasks[u].prog.hash != t0.prog.hash
    ensures Carried(PutBack(s, u, c, flag), tid, t0, kept)
  {
    if u != tid { ElsewhereCarries(s, tid, t0, kept, u, c, flag); } else { assert false; }
  }

  lemma ElsewhereCarries(s: State, tid: TaskId, t0: Task, kept: bool, u: TaskId, c: Choice, flag: bool)
    requires Inv(s) && Carried(s, tid, t0, kept) && KeepsBehind(s, u) && s.tasks[u].prog.hash != t0.prog.hash
    requires u != tid
    ensures Carried(PutBack(s, u, c, flag), tid, t0, kept)
  {
    var t := s.tasks[u];
    OtherStepCarries(s, tid, t0, kept, u, c);
    OverlayCarries(TaskStep(s, u, c), tid, t0, kept, u, t.prog.hash, s.records[t.prog.hash].(kept := flag), t.pending,
                   c.fail);
  }

  lemma OverlayCarries(s: State, tid: TaskId, t0: Task, kept: bool, u: TaskId, h: Hash, back: Record,
      written: Record, failed: bool)
    requires Carried(s, tid, t0, kept) && u != tid && h != t0.prog.hash
    ensures Carried(Overlay(s, u, h, back, written, failed), tid, t0, kept)
  {
  }

  lemma PutBackElsewhere(s: State, tid: TaskId, u: TaskId, c: Choice, flag: bool)
    requires KeepsBehind(s, u) && u != tid
    ensures var s1, s2 := TaskStep(s, u, c), PutBack(s, u, c, flag);
      && (tid in s2.tasks <==> tid in s1.tasks) && (tid in s2.tasks ==> s2.tasks[tid] == s1.tasks[tid])
      && s2.nextTask == s1.nextTask && forall h | h != s.tasks[u].prog.hash :: Stored(s2, h) == Stored(s1, h)
  {
  }

  lemma NextCarries(s: State, a: Action, tid: TaskId, t0: Task, kept: bool)
    requires Inv(s) && Carried(s, tid, t0, kept) && Between(s, a, tid, t0.prog.hash)
    ensures Carried(Next(s, a), tid, t0, kept)
  {
    match a {
      case Step(u, c) =>
        if u in s.tasks {
          if u == tid { OwnStepCarries(s, tid, t0, kept, c); } else { OtherStepCarries(s, tid, t0, kept, u, c); }
        }
      case LateKeep(u, c, flag) => if KeepsBehind(s, u) { LateKeepCarries(s, tid, t0, kept, u, c, flag); }
      case _ => QuietCarries(s, a, tid, t0, kept);
    }
  }

  lemma QuietCarries(s: State, a: Action, tid: TaskId, t0: Task, kept: bool)
    requires Carried(s, tid, t0, kept) && Between(s, a, tid, t0.prog.hash) && !a.Step? && !a.LateKeep?
    ensures Carried(Next(s, a), tid, t0, kept)
  {
  }

  lemma {:induction false} RunCarries(s: State, actions: seq<Action>, tid: TaskId, t0: Task, kept: bool)
    requires Inv(s) && Carried(s, tid, t0, kept) && AllBetween(s, actions, tid, t0.prog.hash)
    ensures Inv(Execute(s, actions)) && Carried(Execute(s, actions), tid, t0, kept)
    decreases |actions|
  {
    if actions == [] {
    } else {
      NextKeepsInv(s, actions[0]);
      NextCarries(s, actions[0], tid, t0, kept);
      RunCarries(Next(s, actions[0]), actions[1..], tid, t0, kept);
    }
  }

  lemma LandingCarries(s: State, tid: TaskId, kept: bool)
    requires Reachable(s) && tid in s.tasks && s.tasks[tid].inSection && s.tasks[tid].prog.hash in s.records
    ensures var s1 := Next(s, SetKept(s.tasks[tid].prog.hash, kept)); Inv(s1) && Carried(s1, tid, s.tasks[tid], kept)
  {
    var t := s.tasks[tid];
    NextKeepsInv(s, SetKept(t.prog.hash, kept));
    assert LocalOk(ViewOf(s, t.prog), tid, t) && CopiesAgree(t);
  }

  // The record write that comes next, and what it puts down.
  lemma WriteLands(s: State, tid: TaskId, t0: Task, kept: bool, c: Choice)
    requires Inv(s) && Carried(s, tid, t0, kept) && tid in s.tasks
    requires Advance(ViewOf(s, s.tasks[tid].prog), tid, s.tasks[tid], c).effect.Upsert?
    ensures var t, s' := s.tasks[tid], Next(s, Step(tid, c));
      WritesRecord(t.pc) && t0.prog.hash in s'.records && s'.records[t0.prog.hash] == t.pending
  {
    StepFromLanding(ViewOf(s, s.tasks[tid].prog), tid, s.tasks[tid], c, true);
  }

  // A keep that lands while a section of its record is open is still stored after the section's next record
  // write exactly when it did not come too late for that write, or the section had read the same flag.
  lemma KeepSurvivesTheNextWrite(s: State, tid: TaskId, kept: bool, between: seq<Action>, c: Choice)
    requires Reachable(s) && tid in s.tasks && s.tasks[tid].inSection && s.tasks[tid].prog.hash in s.records
    requires var h := s.tasks[tid].prog.hash; AllBetween(Next(s, SetKept(h, kept)), between, tid, h)
    requires var s2 := Execute(Next(s, SetKept(s.tasks[tid].prog.hash, kept)), between);
      tid in s2.tasks && Advance(ViewOf(s2, s2.tasks[tid].prog), tid, s2.tasks[tid], c).effect.Upsert?
    ensures var t, h := s.tasks[tid], s.tasks[tid].prog.hash;
      var s2 := Execute(Next(s, SetKept(h, kept)), between);
      var write, s3 := s2.tasks[tid].pc, Next(s2, Step(tid, c));
      && WritesRecord(write) && h in s3.records
      && (s3.records[h].kept == kept <==> !TooLate(t.pc, write) || Copy(t, write).kept == kept)
  {
    var t := s.tasks[tid];
    LandingCarries(s, tid, kept);
    var s1 := Next(s, SetKept(t.prog.hash, kept));
    RunCarries(s1, between, tid, t, kept);
    WriteLands(Execute(s1, between), tid, t, kept, c);
    ComesOut(t, Execute(s1, between).tasks[tid], kept);
  }

  // What the section puts down, by how far it has come.
  lemma ComesOut(t0: Task, t: Task, kept: bool)
    requires CopiesAgree(t0) && t0.tracked && Holds(t0.record.kept, t) && WritesRecord(t.pc)
    requires t == t0 || (Fresh(kept, t) && (ReadsAgain(t0.pc) || Failing(t0.pc) ==> Failing(t.pc) && Missed(t0.pc)))
    ensures t.pending.kept == kept <==> !TooLate(t0.pc, t.pc) || Copy(t0, t.pc).kept == kept
  {
  }
}
