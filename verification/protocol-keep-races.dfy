/** Keeps that race evictions and preparations, and keeps of the SQLite driver that undo a write. */
module ManagedKeepRaces {
  import opened Wrappers
  import opened ManagedDownloads
  import opened ManagedSteps
  import opened ManagedSafety
  import opened ManagedKeeps

  // A step in which every call succeeds.
  const Quiet := Choice(false, true, false, false, 0, false, None, false, [], false, 0)

  // ----- a keep in time for an eviction -------------------------------------------------------

  // An eviction that has not judged the record yet, of a record that already has an owner.
  predicate InTime(t: Task) {
    && t.inSection && t.prog.Delete? && t.prog.rule.SizeCap? && t.record.owner.Some?
    && (t.pc == Erase(Find) || t.pc == Erase(Decide) || t.pc.Verify?)
  }

  // Anything but another keep of the record.
  predicate NoKeep(s: State, a: Action, h: Hash) {
    match a
    case SetKept(h', _) => h' != h
    case LateKeep(u, _, _) => u in s.tasks ==> s.tasks[u].prog.hash != h
    case _ => true
  }

  predicate NoKeeps(s: State, actions: seq<Action>, h: Hash)
    decreases |actions|
  {
    actions == [] || (NoKeep(s, actions[0], h) && NoKeeps(Next(s, actions[0]), actions[1..], h))
  }

  // The eviction is still undecided, or has found the torrent absent, and the record is kept.
  predicate Spared(s: State, tid: TaskId, h: Hash) {
    && tid < s.nextTask
    && (tid in s.tasks ==>
          && s.tasks[tid].prog.hash == h && h in s.records && s.records[h].kept
          && (InTime(s.tasks[tid]) || (s.tasks[tid].inSection && s.tasks[tid].pc == Erase(Forgetting))))
  }

  lemma OwnStepSpares(v: View, tid: TaskId, t: Task, c: Choice)
    requires LocalOk(v, tid, t) && v.stored.Some? && v.stored.value.kept
    requires InTime(t) || (t.inSection && t.pc == Erase(Forgetting))
    ensures var o := Advance(v, tid, t, c); o.next.Continue? ==>
      && !o.effect.Upsert? && !o.effect.Forget? && o.next.task.prog == t.prog
      && (InTime(o.next.task) || (o.next.task.inSection && o.next.task.pc == Erase(Forgetting)))
  {
  }

  lemma StepSpares(s: State, tid: TaskId, h: Hash, u: TaskId, c: Choice)
    requires Inv(s) && Spared(s, tid, h) && u in s.tasks
    ensures Spared(TaskStep(s, u, c), tid, h)
  {
    if u != tid { OthersSpare(s, tid, h, u, c); } else { OwnRunSpares(s, tid, h, c); }
  }

  lemma OthersSpare(s: State, tid: TaskId, h: Hash, u: TaskId, c: Choice)
    requires Inv(s) && Spared(s, tid, h) && u in s.tasks && u != tid
    ensures Spared(TaskStep(s, u, c), tid, h)
  {
    if tid in s.tasks { OthersLeaveTheRecord(s, tid, u, c); }
    var t := s.tasks[u];
    OthersStay(s, tid, u, t, Advance(ViewOf(s, t.prog), u, t, c));
  }

  lemma OwnRunSpares(s: State, tid: TaskId, h: Hash, c: Choice)
    requires Inv(s) && Spared(s, tid, h) && tid in s.tasks
    ensures Spared(TaskStep(s, tid, c), tid, h)
  {
    var t := s.tasks[tid];
    OwnStepSpares(ViewOf(s, t.prog), tid, t, c);
    SparesHere(s, tid, t, Advance(ViewOf(s, t.prog), tid, t, c), h);
  }

  lemma SparesHere(s: State, tid: TaskId, t: Task, o: Outcome, h: Hash)
    requires Spared(s, tid, h) && tid in s.tasks && s.tasks[tid] == t
    requires o.next.Continue? ==>
      && !o.effect.Upsert? && !o.effect.Forget? && o.next.task.prog == t.prog
      && (InTime(o.next.task) || (o.next.task.inSection && o.next.task.pc == Erase(Forgetting)))
    ensures Spared(Apply(s, tid, t, o), tid, h)
  {
  }

  lemma LateKeepSpares(s: State, tid: TaskId, h: Hash, u: TaskId, c: Choice, kept: bool)
    requires Inv(s) && Spared(s, tid, h) && KeepsBehind(s, u) && s.tasks[u].prog.hash != h
    ensures Spared(PutBack(s, u, c, kept), tid, h)
  {
    StepSpares(s, tid, h, u, c);
    if u != tid { PutBackElsewhere(s, tid, u, c, kept); }
  }

  // The deletion has judged the record and goes on to remove the torrent.
  predicate Removes(s: State, tid: TaskId) { tid in s.tasks && Removing(s.tasks[tid].pc) }

  predicate Removing(pc: Pc) { pc.Erase? && (pc.d.SaveDeleting? || pc.d.Removal? || pc.d.Confirm?) }

  lemma {:induction false} RunSpares(s: State, actions: seq<Action>, tid: TaskId, h: Hash)
    requires Inv(s) && Spared(s, tid, h) && NoKeeps(s, actions, h)
    ensures !Removes(Execute(s, actions), tid)
    decreases |actions|
  {
    if actions != [] {
      NextKeepsInv(s, actions[0]);
      NextSpares(s, actions[0], tid, h);
      RunSpares(Next(s, actions[0]), actions[1..], tid, h);
    }
  }

  lemma NextSpares(s: State, a: Action, tid: TaskId, h: Hash)
    requires Inv(s) && Spared(s, tid, h) && NoKeep(s, a, h)
    ensures Spared(Next(s, a), tid, h)
  {
    match a {
      case Step(u, c) => if u in s.tasks { StepSpares(s, tid, h, u, c); }
      case LateKeep(u, c, kept) => if KeepsBehind(s, u) { LateKeepSpares(s, tid, h, u, c, kept); }
      case _ => QuietSpares(s, a, tid, h);
    }
  }

  lemma QuietSpares(s: State, a: Action, tid: TaskId, h: Hash)
    requires Spared(s, tid, h) && NoKeep(s, a, h) && !a.Step? && !a.LateKeep?
    ensures Spared(Next(s, a), tid, h)
  {
  }

  lemma LandingSpares(s: State, tid: TaskId, h: Hash, landed: State)
    requires Inv(s) && tid in s.tasks && InTime(s.tasks[tid]) && s.tasks[tid].prog.hash == h && h in s.records
    requires landed == Next(s, SetKept(h, true))
    ensures Inv(landed) && Spared(landed, tid, h)
  {
    RaceKeepsInv(s, landed);
  }

  // A keep that lands before the record is judged stops the eviction for good, whatever happens next, as long
  // as the record already has an owner and nobody changes the flag again: it never comes to a removal.
  lemma KeepBeforeTheCheckIsHonoured(s: State, tid: TaskId, landed: State, actions: seq<Action>)
    requires Inv(s) && tid in s.tasks && InTime(s.tasks[tid]) && s.tasks[tid].prog.hash in s.records
    requires landed == Next(s, SetKept(s.tasks[tid].prog.hash, true))
    requires NoKeeps(landed, actions, s.tasks[tid].prog.hash)
    ensures !Removes(Execute(landed, actions), tid)
  {
    var h := s.tasks[tid].prog.hash;
    LandingSpares(s, tid, h, landed);
    RunSpares(landed, actions, tid, h);
  }

  // ----- a keep too late for an eviction ------------------------------------------------------

  lemma DeletionSaves(s: State, tid: TaskId)
    requires tid in s.tasks && s.tasks[tid].pc == Erase(SaveDeleting) && s.tasks[tid].prog.hash in s.records
    ensures var t := s.tasks[tid]; var s' := Next(s, Step(tid, Quiet));
      && tid in s'.tasks && s'.tasks[tid].pc == Erase(Removal) && s'.tasks[tid].prog == t.prog
      && t.prog.hash in s'.records && s'.records[t.prog.hash] == t.pending
  {
  }

  lemma DeletionRemoves(s: State, tid: TaskId)
    requires tid in s.tasks && s.tasks[tid].pc == Erase(Removal) && s.tasks[tid].prog.hash in s.records
    ensures var t := s.tasks[tid]; var s' := Next(s, Step(tid, Quiet));
      s'.records == s.records && Live(s', t.prog.backend, t.prog.hash).None?
  {
  }

  // A keep that lands once the record is judged, and before the deleting write, is overwritten by that write
  // with the record as it was judged, and the torrent goes.
  lemma KeepAfterTheCheckIsLost(s: State, tid: TaskId, kept: bool)
    requires Inv(s) && tid in s.tasks && s.tasks[tid].pc == Erase(SaveDeleting) && s.tasks[tid].prog.hash in s.records
    ensures var t := s.tasks[tid]; var h := t.prog.hash;
      var done := Next(Next(Next(s, SetKept(h, kept)), Step(tid, Quiet)), Step(tid, Quiet));
      h in done.records && done.records[h] == t.pending && Live(done, t.prog.backend, h).None?
  {
    var s1 := Next(s, SetKept(s.tasks[tid].prog.hash, kept));
    DeletionSaves(s1, tid);
    DeletionRemoves(Next(s1, Step(tid, Quiet)), tid);
  }

  // One that lands after that write stays stored until the record is forgotten, and the torrent still goes.
  lemma KeepBeforeTheRemovalIsTooLate(s: State, tid: TaskId, kept: bool)
    requires Inv(s) && tid in s.tasks && s.tasks[tid].pc == Erase(Removal) && s.tasks[tid].prog.hash in s.records
    ensures var t := s.tasks[tid]; var h := t.prog.hash; var done := Next(Next(s, SetKept(h, kept)), Step(tid, Quiet));
      h in done.records && done.records[h].kept == kept && Live(done, t.prog.backend, h).None?
  {
    DeletionRemoves(Next(s, SetKept(s.tasks[tid].prog.hash, kept)), tid);
  }

  // ----- a keep across an adoption ------------------------------------------------------------

  lemma AdoptionSaves(s: State, tid: TaskId)
    requires Inv(s) && tid in s.tasks && s.tasks[tid].pc == Verify(SaveAdopted) && s.tasks[tid].prog.Delete?
    requires s.tasks[tid].prog.hash in s.records
    ensures var t, h := s.tasks[tid], s.tasks[tid].prog.hash; var s' := Next(s, Step(tid, Quiet));
      && tid in s'.tasks && s'.tasks[tid].pc == Erase(Decide) && s'.tasks[tid].prog == t.prog
      && h in s'.records && s'.records[h] == t.pending && s'.playing == s.playing
  {
    assert LocalOk(ViewOf(s, s.tasks[tid].prog), tid, s.tasks[tid]);
  }

  lemma EvictionDecides(s: State, tid: TaskId)
    requires tid in s.tasks && s.tasks[tid].pc == Erase(Decide) && s.tasks[tid].prog.Delete?
    requires s.tasks[tid].prog.rule.SizeCap? && s.tasks[tid].prog.hash in s.records
    requires s.playing[s.tasks[tid].prog.hash] == 0
    requires var r := s.records[s.tasks[tid].prog.hash]; !r.kept && r.expiresAt == s.tasks[tid].prog.rule.listedExpiry
    ensures var t := s.tasks[tid]; var s' := Next(s, Step(tid, Quiet));
      && tid in s'.tasks && s'.tasks[tid].pc == Erase(SaveDeleting) && s'.tasks[tid].prog == t.prog
      && s'.records == s.records
  {
  }

  // A legacy record is adopted on the way. A keep that lands before the adoption is written is overwritten by
  // it, the judgement accepts the old flag, and the torrent goes.
  lemma KeepAcrossAnAdoptionIsLost(s: State, tid: TaskId, kept: bool)
    requires Inv(s) && tid in s.tasks && s.tasks[tid].pc == Verify(SaveAdopted) && s.tasks[tid].prog.Delete?
    requires s.tasks[tid].prog.rule.SizeCap? && s.tasks[tid].prog.hash in s.records
    requires s.playing[s.tasks[tid].prog.hash] == 0
    requires var r := s.tasks[tid].pending; !r.kept && r.expiresAt == s.tasks[tid].prog.rule.listedExpiry
    ensures var t := s.tasks[tid]; var landed := Next(s, SetKept(t.prog.hash, kept));
      Live(FourSteps(landed, tid), t.prog.backend, t.prog.hash).None?
  {
    var s1 := Next(s, SetKept(s.tasks[tid].prog.hash, kept));
    NextKeepsInv(s, SetKept(s.tasks[tid].prog.hash, kept));
    AdoptionSaves(s1, tid);
    var s2 := Next(s1, Step(tid, Quiet));
    EvictionDecides(s2, tid);
    var s3 := Next(s2, Step(tid, Quiet));
    DeletionSaves(s3, tid);
    DeletionRemoves(Next(s3, Step(tid, Quiet)), tid);
  }

  function FourSteps(s: State, tid: TaskId): State {
    Next(Next(Next(Next(s, Step(tid, Quiet)), Step(tid, Quiet)), Step(tid, Quiet)), Step(tid, Quiet))
  }

  // ----- both are reached -----------------------------------------------------------------------

  const RacedRecord := Record(Store, "h", BlankFile, [], 0, 5, false, Managed, Some(Owner("b", SCOPE, 1)))
  const RacedTorrent := Torrent("h", SCOPE, {1}, false, true, 1.0)
  const LegacyRecord := Record(Search, "h", FileRef(0, "f", 1), [], 0, 5, false, Unset, None)
  const LegacyTorrent := Torrent("h", SCOPE, {}, false, true, 1.0)
  const Evict := Delete("h", "b", SizeCap(5))

  // Every call succeeds, the file list supports an adoption, and the marker drawn is fresh.
  const Found := Quiet.(matches := true, marker := 7)

  // A fresh start with one transfer.
  function OneTransfer(r: Record, t: Torrent): State {
    State(map["h" := r], map["b" := map["h" := t]], map[], 0, multiset{}, {}, t.markers, [])
  }

  // Its eviction after n steps.
  function Evicted(start: State, n: nat): State {
    if n == 0 then Next(start, Spawn(Evict)) else OneMore(Evicted(start, n - 1))
  }

  function OneMore(s: State): State { Next(s, Step(0, Found)) }

  // The eviction is the only task and stands here.
  predicate Evicting(s: State, r: Record, pc: Pc) {
    && s.records == map["h" := r] && s.playing == multiset{} && s.tasks.Keys == {0}
    && s.tasks[0].prog == Evict && s.tasks[0].inSection && s.tasks[0].tracked && s.tasks[0].record == r
    && s.tasks[0].pc == pc
  }

  // Nothing has changed yet, and this torrent has been looked up.
  predicate Looking(s: State, r: Record, t: Torrent, pc: Pc) {
    Evicting(s, r, pc) && Live(s, "b", "h") == Some(t) && s.tasks[0].torrent == t && s.known == t.markers
  }

  lemma EvictionEnters(r: Record, t: Torrent, s: State)
    requires r.hash == "h" && (r.owner.Some? ==> r.owner.value.backend == "b")
    requires s == Next(OneTransfer(r, t), Spawn(Evict))
    ensures var s' := OneMore(s); Evicting(s', r, Erase(Find)) && Live(s', "b", "h") == Some(t) && s'.known == t.markers
  {
    assert s.tasks == map[0 := InitialTask(Evict)];
    assert ViewOf(s, Evict).lockFree;
  }

  lemma EvictionFinds(r: Record, t: Torrent, s: State)
    requires Evicting(s, r, Erase(Find)) && Live(s, "b", "h") == Some(t) && s.known == t.markers
    ensures Looking(OneMore(s), r, t, Verify(Check))
  {
  }

  lemma EvictionChecks(r: Record, t: Torrent, start: State, n: nat)
    requires r.hash == "h" && (r.owner.Some? ==> r.owner.value.backend == "b") && n == 2 && start == OneTransfer(r, t)
    ensures Looking(Evicted(start, n), r, t, Verify(Check))
  {
    EvictionEnters(r, t, Evicted(start, n - 2));
    EvictionFinds(r, t, Evicted(start, n - 1));
  }

  lemma EvictionProves(s: State)
    requires Looking(s, RacedRecord, RacedTorrent, Verify(Check))
    ensures Looking(OneMore(s), RacedRecord, RacedTorrent, Erase(Decide))
  {
  }

  lemma EvictionJudges(s: State)
    requires Looking(s, RacedRecord, RacedTorrent, Erase(Decide))
    ensures Evicting(OneMore(s), RacedRecord, Erase(SaveDeleting))
    ensures OneMore(s).tasks[0].pending == RacedRecord.(lifecycle := Deleting)
  {
  }

  // An ordinary eviction of a managed record comes to the point where a keep is overwritten.
  lemma KeepRacesEviction(start: State, n: nat)
    requires start == OneTransfer(RacedRecord, RacedTorrent) && n == 2
    ensures var s := Evicted(start, n + 2);
      Evicting(s, RacedRecord, Erase(SaveDeleting)) && s.tasks[0].pending == RacedRecord.(lifecycle := Deleting)
  {
    EvictionChecks(RacedRecord, RacedTorrent, start, n);
    EvictionProves(Evicted(start, n));
    EvictionJudges(OneMore(Evicted(start, n)));
    TwoMore(start, n);
  }

  lemma RacesStart()
    ensures Init(OneTransfer(RacedRecord, RacedTorrent)) && Init(OneTransfer(LegacyRecord, LegacyTorrent))
  {
  }

  lemma TwoMore(start: State, k: nat)
    ensures Evicted(start, k + 2) == OneMore(OneMore(Evicted(start, k)))
  {
    assert Evicted(start, k + 2) == OneMore(Evicted(start, k + 1));
  }

  // The record an adoption is about to write.
  const Adopted :=
    LegacyRecord.(owner := Some(Owner("b", SCOPE, 7)), lifecycle := Managed, selected := [LegacyRecord.file])

  lemma LegacyIsChecked(s: State)
    requires Looking(s, LegacyRecord, LegacyTorrent, Verify(Check))
    ensures Looking(OneMore(s), LegacyRecord, LegacyTorrent, Verify(Evidence))
  {
  }

  lemma LegacyHasEvidence(s: State)
    requires Looking(s, LegacyRecord, LegacyTorrent, Verify(Evidence))
    ensures Evicting(OneMore(s), LegacyRecord, Verify(AddMark)) && Live(OneMore(s), "b", "h") == Some(LegacyTorrent)
    ensures OneMore(s).tasks[0].pending == Adopted
  {
  }

  lemma LegacyIsMarked(s: State)
    requires Evicting(s, LegacyRecord, Verify(AddMark)) && Live(s, "b", "h") == Some(LegacyTorrent)
    requires s.tasks[0].pending == Adopted
    ensures Evicting(OneMore(s), LegacyRecord, Verify(ConfirmMark)) && OneMore(s).tasks[0].pending == Adopted
    ensures Live(OneMore(s), "b", "h") == Some(LegacyTorrent.(markers := {7}))
  {
    assert LegacyTorrent.markers + {7} == {7};
  }

  lemma LegacyIsConfirmed(s: State)
    requires Evicting(s, LegacyRecord, Verify(ConfirmMark)) && s.tasks[0].pending == Adopted
    requires Live(s, "b", "h") == Some(LegacyTorrent.(markers := {7}))
    ensures Evicting(OneMore(s), LegacyRecord, Verify(SaveAdopted)) && OneMore(s).tasks[0].pending == Adopted
  {
  }

  lemma LegacyIsTagged(s: State)
    requires Looking(s, LegacyRecord, LegacyTorrent, Verify(Check))
    ensures Evicting(OneMore(OneMore(OneMore(OneMore(s)))), LegacyRecord, Verify(SaveAdopted))
    ensures OneMore(OneMore(OneMore(OneMore(s)))).tasks[0].pending == Adopted
  {
    LegacyIsChecked(s);
    LegacyHasEvidence(OneMore(s));
    LegacyIsMarked(OneMore(OneMore(s)));
    LegacyIsConfirmed(OneMore(OneMore(OneMore(s))));
  }

  // An eviction of a legacy record comes to the point where a keep is overwritten by the adoption.
  lemma KeepRacesAdoption(start: State, n: nat)
    requires start == OneTransfer(LegacyRecord, LegacyTorrent) && n == 2
    ensures var s := Evicted(start, n + 2 + 2);
      Evicting(s, LegacyRecord, Verify(SaveAdopted)) && s.tasks[0].pending == Adopted
  {
    EvictionChecks(LegacyRecord, LegacyTorrent, start, n);
    LegacyIsTagged(Evicted(start, n));
    TwoMore(start, n);
    TwoMore(start, n + 2);
  }

  // ----- keeps queued behind a write (SQLite) -------------------------------------------------

  // Behind the adoption: the stored record has no owner again, although the torrent carries its marker.
  lemma LateKeepUndoesAnAdoption(s: State, tid: TaskId, kept: bool)
    requires Inv(s) && KeepsBehind(s, tid) && s.tasks[tid].pc == Verify(SaveAdopted)
    ensures var h, s' := s.tasks[tid].prog.hash, PutBack(s, tid, Quiet, kept);
      && Stored(s', h) == Some(s.records[h].(kept := kept)) && s.records[h].owner == None
      && tid in s'.tasks && s'.tasks[tid].past.undone
  {
    var t := s.tasks[tid];
    NotAdoptedYet(ViewOf(s, t.prog), tid, t);
    BackOverAdopted(s, tid, kept);
  }

  lemma NotAdoptedYet(v: View, tid: TaskId, t: Task)
    requires LocalOk(v, tid, t) && t.inSection && t.pc == Verify(SaveAdopted) && v.stored.Some?
    ensures v.stored.value.owner.None? && t.pending.owner.Some?
  {
  }

  lemma BackOverAdopted(s: State, tid: TaskId, kept: bool)
    requires KeepsBehind(s, tid) && s.tasks[tid].pc == Verify(SaveAdopted)
    requires s.records[s.tasks[tid].prog.hash].owner.None? && s.tasks[tid].pending.owner.Some?
    ensures var h, s' := s.tasks[tid].prog.hash, PutBack(s, tid, Quiet, kept);
      && Stored(s', h) == Some(s.records[h].(kept := kept))
      && tid in s'.tasks && s'.tasks[tid].past.undone
  {
  }

  // Behind the last write of a preparation: it hands the file over, but the stored record is not managed.
  lemma LateKeepUndoesAPreparation(s: State, tid: TaskId, kept: bool)
    requires Inv(s) && KeepsBehind(s, tid) && s.tasks[tid].pc == Finish(SaveManaged) && s.tasks[tid].prog.Prepare?
    requires s.records[s.tasks[tid].prog.hash].lifecycle != Managed
    ensures var t := s.tasks[tid]; var s' := Next(Next(s, LateKeep(tid, Quiet, kept)), Step(tid, Quiet));
      && Stored(s', t.prog.hash) == Some(s.records[t.prog.hash].(kept := kept))
      && exists e :: e in s'.log && e.Prepared? && e.task == tid && e.stored == Stored(s', t.prog.hash)
  {
    var s1 := Next(s, LateKeep(tid, Quiet, kept));
    BackOverManaged(s, tid, kept);
    HandsOverAnyway(s1, tid);
    assert Next(s1, Step(tid, Quiet)).log[|s1.log|].Prepared?;
  }

  lemma BackOverManaged(s: State, tid: TaskId, kept: bool)
    requires KeepsBehind(s, tid) && s.tasks[tid].pc == Finish(SaveManaged) && s.tasks[tid].prog.Prepare?
    ensures var t := s.tasks[tid]; var s' := Next(s, LateKeep(tid, Quiet, kept));
      && tid in s'.tasks && s'.tasks[tid].pc == Finish(FinishPoint.Ready) && s'.tasks[tid].prog == t.prog
      && Stored(s', t.prog.hash) == Some(s.records[t.prog.hash].(kept := kept))
  {
  }

  lemma HandsOverAnyway(s: State, tid: TaskId)
    requires tid in s.tasks && s.tasks[tid].pc == Finish(FinishPoint.Ready) && s.tasks[tid].prog.Prepare?
    requires s.tasks[tid].prog.hash in s.records
    ensures var t := s.tasks[tid]; var s' := Next(s, Step(tid, Quiet));
      && s'.records == s.records && |s'.log| > |s.log|
      && s'.log[|s.log|].Prepared? && s'.log[|s.log|].task == tid && s'.log[|s.log|].stored == Stored(s', t.prog.hash)
  {
  }

  // ----- the JSON driver ----------------------------------------------------------------------

  // No keep ever puts an earlier record back.
  predicate Plainly(s: State) {
    && (forall tid <- s.tasks :: Untouched(s.tasks[tid]))
    && (forall i | 0 <= i < |s.log| :: PlainEvent(s.log[i]))
  }

  predicate PlainEvent(e: Event) {
    (e.Acted? || e.Forgot? ==> !e.undone) && (e.Prepared? ==> e.over.None?)
  }

  predicate PlainOutcome(t: Task, o: Outcome) {
    Untouched(t) ==>
      (o.next.Continue? ==> Untouched(o.next.task)) && (o.note.Some? ==> PlainEvent(o.note.value))
  }

  lemma WaitIsPlain(v: View, tid: TaskId, t: Task, p: WaitPoint, c: Choice)
    ensures PlainOutcome(t, WaitStep(v, tid, t, p, c))
  {
  }

  lemma RegisterIsPlain(v: View, tid: TaskId, t: Task, p: RegisterPoint, c: Choice)
    ensures PlainOutcome(t, RegisterStep(v, tid, t, p, c))
  {
  }

  lemma VerifyIsPlain(v: View, tid: TaskId, t: Task, p: VerifyPoint, c: Choice)
    ensures PlainOutcome(t, VerifyStep(v, tid, t, p, c))
  {
  }

  lemma ChooseIsPlain(v: View, tid: TaskId, t: Task, p: ChoosePoint, c: Choice)
    ensures PlainOutcome(t, ChooseStep(v, tid, t, p, c))
  {
  }

  lemma ConfigureIsPlain(v: View, tid: TaskId, t: Task, p: ConfigurePoint, c: Choice)
    ensures PlainOutcome(t, ConfigureStep(v, tid, t, p, c))
  {
    match p {
      case Tuning => CallIsPlain(v, tid, t, c, Tune, Continue(t), Continue(t));
      case Deselect =>
        CallIsPlain(v, tid, t, c, SelectFiles(false), Continue(t.(pc := Configure(SelectWanted))), Fail(t, false));
      case SelectWanted =>
        CallIsPlain(v, tid, t, c, SelectFiles(true), Continue(t.(pc := Finish(StartAgain))), Fail(t, false));
      case _ => ConfigureRestIsPlain(v, tid, t, p, c);
    }
  }

  lemma ConfigureRestIsPlain(v: View, tid: TaskId, t: Task, p: ConfigurePoint, c: Choice)
    requires p.Refresh? || p.Merge? || p.SaveMerged?
    ensures PlainOutcome(t, ConfigureStep(v, tid, t, p, c))
  {
  }

  lemma CallIsPlain(v: View, tid: TaskId, t: Task, c: Choice, act: Act, done: Flow, failed: Flow)
    requires (done.Continue? ==> done.task.past == t.past) && (failed.Continue? ==> failed.task.past == t.past)
    ensures PlainOutcome(t, Call(v, tid, t, c, act, done, failed))
  {
  }

  lemma FinishIsPlain(v: View, tid: TaskId, t: Task, p: FinishPoint, c: Choice)
    ensures PlainOutcome(t, FinishStep(v, tid, t, p, c))
  {
  }

  lemma EraseIsPlain(v: View, tid: TaskId, t: Task, p: ErasePoint, c: Choice)
    ensures PlainOutcome(t, EraseStep(v, tid, t, p, c))
  {
  }

  lemma PatrolIsPlain(v: View, tid: TaskId, t: Task, p: PatrolPoint, c: Choice)
    ensures PlainOutcome(t, PatrolStep(v, tid, t, p, c))
  {
  }

  lemma StepIsPlain(v: View, tid: TaskId, t: Task, c: Choice)
    ensures PlainOutcome(t, Advance(v, tid, t, c))
  {
    match t.pc {
      case Wait(p) => WaitIsPlain(v, tid, t, p, c);
      case Register(p) => RegisterIsPlain(v, tid, t, p, c);
      case Verify(p) => VerifyIsPlain(v, tid, t, p, c);
      case Choose(p) => ChooseIsPlain(v, tid, t, p, c);
      case Configure(p) => ConfigureIsPlain(v, tid, t, p, c);
      case Finish(p) => FinishIsPlain(v, tid, t, p, c);
      case Erase(p) => EraseIsPlain(v, tid, t, p, c);
      case Patrol(p) => PatrolIsPlain(v, tid, t, p, c);
    }
  }

  lemma NextIsPlain(s: State, a: Action)
    requires Plainly(s) && !a.LateKeep?
    ensures Plainly(Next(s, a))
  {
    match a {
      case Step(tid, c) => if tid in s.tasks { StepIsPlain(ViewOf(s, s.tasks[tid].prog), tid, s.tasks[tid], c); }
      case _ =>
    }
  }

  lemma {:induction false} JsonRunIsPlain(s: State, actions: seq<Action>)
    requires Plainly(s) && forall a <- actions :: !a.LateKeep?
    ensures Plainly(Execute(s, actions))
    decreases |actions|
  {
    if actions != [] {
      NextIsPlain(s, actions[0]);
      JsonRunIsPlain(Next(s, actions[0]), actions[1..]);
    }
  }

  // With the JSON driver, whose keep changes the record in its turn, the promises that a late keep can break
  // hold without exception: each change is of a torrent proven to be that of the stored owner, each record is
  // forgotten by its own backend's answer, and each preparation leaves a managed record with its file.
  lemma JsonRunsKeepEveryPromise(s: State, actions: seq<Action>, i: nat)
    requires Init(s) && (forall a <- actions :: !a.LateKeep?) && i < |Execute(s, actions).log|
    ensures var e := Execute(s, actions).log[i];
      && (e.Acted? ==> e.owner == Some(e.claimed))
      && (e.Forgot? ==> e.owner.Some? && e.owner.value.backend == e.backend)
      && (e.Prepared? ==> e.stored.Some? && Usable(e.stored.value, e.file))
  {
    RunKeepsInv(s, actions);
    JsonRunIsPlain(s, actions);
    assert EventOk(Execute(s, actions).log, i);
  }
}
