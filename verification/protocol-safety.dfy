/**
 Safety of the managed-download protocol over every run: any number of preparations, deletions, sweeps and
 toggles, interleaved at every await, with crashes, racing keep and renew writes and an arbitrary client user.
 */
module ManagedSafety {
  import opened Wrappers
  import opened ManagedDownloads
  import opened ManagedSteps

  // ----- the other tasks ----------------------------------------------------------------------

  // What a task's view may go through while others move.
  ghost predicate Undisturbed(v: View, v': View, h: Hash) {
    && v.stored.Some? == v'.stored.Some?
    && (v.stored.Some? ==> Agree(v.stored.value, v'.stored.value))
    && (v'.playing ==> v.playing)
    && (v'.marked ==> v.marked)
    && v.known <= v'.known
    && v.known * v'.prepared <= v.prepared
    && v.log <= v'.log
    && forall x | |v.log| <= x < |v'.log| :: !Breaks(v'.log[x], h)
  }

  lemma OtherOk(v: View, v': View, tid: TaskId, t: Task)
    requires LocalOk(v, tid, t) && t.inSection && Undisturbed(v, v', t.prog.hash)
    ensures LocalOk(v', tid, t)
  {
    SectionGrows(v.log, v'.log, t.past.enteredAt, tid, t.prog);
    if t.pc.Register? || t.pc.Verify? { EarlyRelianceKept(v, v', tid, t); } else { LateRelianceKept(v, v', tid, t); }
  }

  lemma SectionGrows(log: seq<Event>, log': seq<Event>, from: nat, tid: TaskId, p: Program)
    requires Section(log, from, |log|, tid, p) && log <= log'
    requires forall x | |log| <= x < |log'| :: !Breaks(log'[x], p.hash)
    ensures Section(log', from, |log'|, tid, p)
  {
  }

  lemma EarlyRelianceKept(v: View, v': View, tid: TaskId, t: Task)
    requires Agrees(t, v.stored) && PcOk(v, tid, t) && Undisturbed(v, v', t.prog.hash)
    requires t.pc.Register? || t.pc.Verify?
    ensures Agrees(t, v'.stored) && PcOk(v', tid, t)
  {
  }

  lemma LateRelianceKept(v: View, v': View, tid: TaskId, t: Task)
    requires Agrees(t, v.stored) && PcOk(v, tid, t) && Undisturbed(v, v', t.prog.hash)
    requires !t.pc.Register? && !t.pc.Verify?
    ensures Agrees(t, v'.stored) && PcOk(v', tid, t)
  {
  }

  // Outside a section a task relies on the log alone.
  lemma OutsiderOk(v: View, v': View, tid: TaskId, t: Task)
    requires LocalOk(v, tid, t) && !t.inSection && v.log <= v'.log
    ensures LocalOk(v', tid, t)
  {
  }

  // ----- the whole system ---------------------------------------------------------------------

  // The markers an effect can leave on a torrent.
  lemma LiveAfterMarkers(v: View, t: Task, e: Effect, m: Marker)
    requires EffectOk(v, t, e)
    requires var live := LiveAfter(t.prog.hash, v.live, e); live.Some? && m in live.value.markers
    ensures (v.live.Some? && m in v.live.value.markers)
      || (e.Submit? && m == e.owner.marker) || (e.AddMarker? && m == e.marker)
  {
  }

  lemma AffectTracks(s: State, t: Task, e: Effect, b': BackendId, h': Hash, m: Marker)
    requires NoOrphans(s) && MarkersKnown(s) && EffectOk(ViewOf(s, t.prog), t, e)
    requires var live := Live(Affect(s, t.prog.backend, t.prog.hash, e), b', h'); live.Some? && m in live.value.markers
    ensures var s' := Affect(s, t.prog.backend, t.prog.hash, e);
      m in s'.known && (m in s'.prepared ==> Tracked(s', b', h', m))
  {
    var b, h := t.prog.backend, t.prog.hash;
    if b' == b && h' == h { LiveAfterMarkers(ViewOf(s, t.prog), t, e, m); }
    if Live(s, b', h').Some? && m in Live(s, b', h').value.markers {
      if m in s.prepared { assert Tracked(s, b', h', m); }
    }
  }

  lemma AffectKeepsOrphansOut(s: State, t: Task, e: Effect)
    requires NoOrphans(s) && MarkersKnown(s) && EffectOk(ViewOf(s, t.prog), t, e)
    ensures NoOrphans(Affect(s, t.prog.backend, t.prog.hash, e))
    ensures MarkersKnown(Affect(s, t.prog.backend, t.prog.hash, e))
  {
    var s' := Affect(s, t.prog.backend, t.prog.hash, e);
    forall b, h, m | b in s'.backends && h in s'.backends[b] && m in s'.backends[b][h].markers
      ensures m in s'.known && (m in s'.prepared ==> Tracked(s', b, h, m))
    {
      AffectTracks(s, t, e, b, h, m);
    }
  }

  // A task's own view of the state its step leads to.
  lemma ApplyFollows(s: State, tid: TaskId, t: Task, o: Outcome)
    requires EffectOk(ViewOf(s, t.prog), t, o.effect)
    ensures Follows(ViewOf(s, t.prog), ViewOf(Apply(s, tid, t, o), t.prog), tid, t, o)
  {
  }

  // Any other task inside a section works on another hash, which this step leaves alone.
  lemma ApplyUndisturbed(s: State, tid: TaskId, t: Task, o: Outcome, p: Program)
    requires MarkersKnown(s) && EffectOk(ViewOf(s, t.prog), t, o.effect)
    requires o.note.Some? && Breaking(o.note.value) ==> o.note.value == Locked(tid, t.prog)
    requires p.hash != t.prog.hash
    ensures Undisturbed(ViewOf(s, p), ViewOf(Apply(s, tid, t, o), p), p.hash)
  {
    var s' := Apply(s, tid, t, o);
    LiveElsewhere(s, tid, t, o, p.backend, p.hash);
    OthersUnaffected(s, tid, t, o, p.hash);
    LogElsewhere(s.log, tid, t, o, p.hash);
  }

  lemma OthersUnaffected(s: State, tid: TaskId, t: Task, o: Outcome, h: Hash)
    requires MarkersKnown(s) && EffectOk(ViewOf(s, t.prog), t, o.effect) && h != t.prog.hash
    ensures var s' := Apply(s, tid, t, o);
      && Stored(s', h) == Stored(s, h) && (s'.playing[h] > 0 ==> s.playing[h] > 0)
      && s.known <= s'.known && s.known * s'.prepared <= s.prepared
  {
  }

  lemma LogElsewhere(log: seq<Event>, tid: TaskId, t: Task, o: Outcome, h: Hash)
    requires o.note.Some? && Breaking(o.note.value) ==> o.note.value == Locked(tid, t.prog)
    requires h != t.prog.hash
    ensures var log' := LogAfter(log, tid, t, o); log <= log' && forall x | |log| <= x < |log'| :: !Breaks(log'[x], h)
  {
  }

  lemma LiveElsewhere(s: State, tid: TaskId, t: Task, o: Outcome, b: BackendId, h: Hash)
    requires b != t.prog.backend || h != t.prog.hash
    ensures Live(Apply(s, tid, t, o), b, h) == Live(s, b, h)
  {
  }

  // A task outside the section at most starts or stops the torrent.
  lemma HarmlessUndisturbed(s: State, tid: TaskId, t: Task, o: Outcome, p: Program)
    requires Harmless(o) && !t.inSection
    ensures Undisturbed(ViewOf(s, p), ViewOf(Apply(s, tid, t, o), p), p.hash)
  {
    var s' := Apply(s, tid, t, o);
    if p.backend != t.prog.backend || p.hash != t.prog.hash {
      LiveElsewhere(s, tid, t, o, p.backend, p.hash);
    } else {
      MarkersStay(s, tid, t, o);
    }
  }

  lemma MarkersStay(s: State, tid: TaskId, t: Task, o: Outcome)
    requires Harmless(o)
    ensures var b, h, s' := t.prog.backend, t.prog.hash, Apply(s, tid, t, o);
      Live(s', b, h).Some? == Live(s, b, h).Some?
      && (Live(s, b, h).Some? ==> Live(s', b, h).value.markers == Live(s, b, h).value.markers)
  {
  }

  lemma BystanderKept(s: State, tid: TaskId, c: Choice, u: TaskId)
    requires Inv(s) && tid in s.tasks && u in s.tasks && u != tid
    ensures LocalOk(ViewOf(TaskStep(s, tid, c), s.tasks[u].prog), u, s.tasks[u])
  {
    var t, w := s.tasks[tid], s.tasks[u];
    var v := ViewOf(s, t.prog);
    var o := Advance(v, tid, t, c);
    StepActor(s, tid, c);
    BystanderOk(s, tid, t, o, u, w);
  }

  lemma BystanderOk(s: State, tid: TaskId, t: Task, o: Outcome, u: TaskId, w: Task)
    requires MarkersKnown(s) && tid in s.tasks && u in s.tasks && u != tid && s.tasks[tid] == t && s.tasks[u] == w
    requires LocalOk(ViewOf(s, w.prog), u, w) && Exclusive(s) && EffectOk(ViewOf(s, t.prog), t, o.effect)
    requires o.note.Some? && Breaking(o.note.value) ==> o.note.value == Locked(tid, t.prog) && !t.inSection
    requires !t.inSection && !ViewOf(s, t.prog).lockFree ==> Harmless(o)
    ensures LocalOk(ViewOf(Apply(s, tid, t, o), w.prog), u, w)
  {
    var v, v' := ViewOf(s, w.prog), ViewOf(Apply(s, tid, t, o), w.prog);
    if !w.inSection {
      OutsiderOk(v, v', u, w);
    } else {
      if w.prog.hash == t.prog.hash {
        assert !t.inSection && !ViewOf(s, t.prog).lockFree;
        HarmlessUndisturbed(s, tid, t, o, w.prog);
      } else {
        ApplyUndisturbed(s, tid, t, o, w.prog);
      }
      OtherOk(v, v', u, w);
    }
  }

  lemma StepKeepsExclusive(s: State, tid: TaskId, c: Choice)
    requires Inv(s) && tid in s.tasks
    ensures Exclusive(TaskStep(s, tid, c))
  {
    var t := s.tasks[tid];
    StepActor(s, tid, c);
    EntersOnlyFree(s, tid, t, Advance(ViewOf(s, t.prog), tid, t, c));
  }

  lemma EntersOnlyFree(s: State, tid: TaskId, t: Task, o: Outcome)
    requires Exclusive(s) && tid in s.tasks && s.tasks[tid] == t
    requires o.next.Continue? ==>
      && o.next.task.prog == t.prog
      && (o.next.task.inSection ==> t.inSection || ViewOf(s, t.prog).lockFree)
      && (o.next.task.inReg ==> t.inReg || ViewOf(s, t.prog).regFree)
    ensures Exclusive(Apply(s, tid, t, o))
  {
  }

  lemma ActorKept(s: State, tid: TaskId, c: Choice)
    requires Inv(s) && tid in s.tasks
    ensures var s' := TaskStep(s, tid, c);
      tid in s'.tasks ==> LocalOk(ViewOf(s', s'.tasks[tid].prog), tid, s'.tasks[tid])
  {
    StepActor(s, tid, c);
  }

  lemma StepKeepsTasks(s: State, tid: TaskId, c: Choice)
    requires Inv(s) && tid in s.tasks
    ensures TasksOk(TaskStep(s, tid, c))
  {
    var s' := TaskStep(s, tid, c);
    forall u <- s'.tasks ensures u < s'.nextTask && LocalOk(ViewOf(s', s'.tasks[u].prog), u, s'.tasks[u]) {
      if u == tid { ActorKept(s, tid, c); } else { BystanderKept(s, tid, c, u); }
    }
  }

  lemma ViewIsOk(s: State, p: Program)
    requires MarkersKnown(s) && Keyed(s)
    ensures ViewOk(ViewOf(s, p), p.hash)
  {
  }

  lemma StepActor(s: State, tid: TaskId, c: Choice)
    requires Inv(s) && tid in s.tasks
    ensures var t := s.tasks[tid]; var v := ViewOf(s, t.prog); var v' := ViewOf(TaskStep(s, tid, c), t.prog);
      var o := Advance(v, tid, t, c); ActorOk(v, v', tid, t, o) && Follows(v, v', tid, t, o)
  {
    var t := s.tasks[tid];
    var v := ViewOf(s, t.prog);
    ActorEffect(v, tid, t, c);
    ApplyFollows(s, tid, t, Advance(v, tid, t, c));
    ViewIsOk(s, t.prog);
    ActorStep(v, ViewOf(TaskStep(s, tid, c), t.prog), tid, t, c);
  }

  lemma ActorEffect(v: View, tid: TaskId, t: Task, c: Choice)
    requires LocalOk(v, tid, t)
    ensures EffectOk(v, t, Advance(v, tid, t, c).effect)
  {
    match t.pc {
      case Wait(_) =>
      case Register(p) => RegisterEffect(v, tid, t, p, c);
      case Verify(p) => VerifyEffect(v, tid, t, p, c);
      case Choose(p) => ChooseEffect(v, tid, t, p, c);
      case Configure(p) => ConfigureEffect(v, tid, t, p, c);
      case Finish(p) => FinishEffect(v, tid, t, p, c);
      case Erase(p) => EraseEffect(v, tid, t, p, c);
      case Patrol(p) => if p.StartStop? { PatrolEffectAct(v, tid, t, c); } else { PatrolEffect(v, tid, t, p, c); }
    }
  }

  // Moving a task on and noting what happened changes neither records nor torrents.
  lemma ApplyKeepsOrphansOut(s: State, tid: TaskId, t: Task, o: Outcome)
    requires var s1 := Affect(s, t.prog.backend, t.prog.hash, o.effect); NoOrphans(s1) && MarkersKnown(s1)
    ensures NoOrphans(Apply(s, tid, t, o)) && MarkersKnown(Apply(s, tid, t, o))
  {
    var s1, s2 := Affect(s, t.prog.backend, t.prog.hash, o.effect), Apply(s, tid, t, o);
    SameMarkersTracked(s1, s2);
  }

  // States with the same records and torrents have the same orphans: none.
  lemma SameMarkersTracked(s: State, s': State)
    requires NoOrphans(s) && s'.backends == s.backends && s'.prepared == s.prepared && s'.records == s.records
    ensures NoOrphans(s')
  {
    forall b, h, m | b in s'.backends && h in s'.backends[b] && m in s'.backends[b][h].markers && m in s'.prepared
      ensures Tracked(s', b, h, m)
    {
      assert Tracked(s, b, h, m);
    }
  }

  lemma StepKeepsMarkers(s: State, tid: TaskId, c: Choice)
    requires Inv(s) && tid in s.tasks
    ensures NoOrphans(TaskStep(s, tid, c)) && MarkersKnown(TaskStep(s, tid, c))
  {
    var t := s.tasks[tid];
    var v := ViewOf(s, t.prog);
    ActorEffect(v, tid, t, c);
    AffectKeepsOrphansOut(s, t, Advance(v, tid, t, c).effect);
    ApplyKeepsOrphansOut(s, tid, t, Advance(v, tid, t, c));
  }

  lemma StepKeepsKeys(s: State, tid: TaskId, c: Choice)
    requires Inv(s) && tid in s.tasks
    ensures Keyed(TaskStep(s, tid, c)) && LogOk(TaskStep(s, tid, c).log)
  {
    var t := s.tasks[tid];
    StepActor(s, tid, c);
    ApplyKeepsKeys(s, tid, t, Advance(ViewOf(s, t.prog), tid, t, c));
  }

  lemma ApplyKeepsKeys(s: State, tid: TaskId, t: Task, o: Outcome)
    requires Keyed(s) && EffectOk(ViewOf(s, t.prog), t, o.effect)
    ensures Keyed(Apply(s, tid, t, o))
  {
  }

  lemma StepKeepsInv(s: State, tid: TaskId, c: Choice)
    requires Inv(s) && tid in s.tasks
    ensures Inv(TaskStep(s, tid, c))
  {
    StepKeepsTasks(s, tid, c);
    StepKeepsExclusive(s, tid, c);
    StepKeepsMarkers(s, tid, c);
    StepKeepsKeys(s, tid, c);
  }

  // ----- a late keep --------------------------------------------------------------------------

  // A write puts down a record whose owner is the stored one, unless it is an adoption.
  lemma WritesStoredOwner(v: View, tid: TaskId, t: Task)
    requires LocalOk(v, tid, t) && t.inSection && Writing(t.pc) && t.pc != Erase(Forgetting) && v.stored.Some?
    ensures t.pending.owner == v.stored.value.owner
      || (t.pc == Verify(SaveAdopted) && v.stored.value.owner.None? && !t.past.undone)
  {
  }

  // What a successful write leaves of its section.
  ghost predicate WritesPending(t: Task, o: Outcome) {
    o.next.Continue? ==>
      && t.pc != Erase(Forgetting) && o.effect == Upsert(t.pending)
      && o.next.task.record == t.pending && o.next.task.past.over.None? && o.next.task.past.undone == t.past.undone
      && o.next.task.inSection && o.next.task.prog == t.prog && After(t.pc, o.next.task.pc)
  }

  // Where a section goes on after a successful write.
  predicate After(pc: Pc, next: Pc) {
    match pc
    case Register(p) => p.SaveIntent? && next == Register(Submission)
    case Verify(p) => p.SaveAdopted? && next in {Choose(Begin), Erase(Decide), Patrol(Relimit)}
    case Choose(p) => next == Configure(Refresh)
    case Configure(p) => next == Configure(Deselect)
    case Finish(p) => p.SaveManaged? && next == Finish(FinishPoint.Ready)
    case Erase(p) => p.SaveDeleting? && next == Erase(Removal)
    case _ => false
  }

  lemma EarlyWrites(v: View, tid: TaskId, t: Task, c: Choice)
    requires Writing(t.pc) && v.stored.Some? && !c.fail && t.inSection
    requires t.pc.Register? || t.pc.Verify? || t.pc.Patrol?
    ensures WritesPending(t, Advance(v, tid, t, c))
  {
  }

  lemma LateWrites(v: View, tid: TaskId, t: Task, c: Choice)
    requires Writing(t.pc) && v.stored.Some? && !c.fail && t.inSection
    requires t.pc.Choose? || t.pc.Configure? || t.pc.Finish? || t.pc.Erase?
    ensures WritesPending(t, Advance(v, tid, t, c))
  {
  }

  // A keep has put the record before the write back: the views before, between and behind.
  ghost predicate Overlays(v: View, v1: View, v2: View, tid: TaskId, t: Task, t1: Task, back: Record) {
    && LocalOk(v, tid, t) && t.inSection && Writing(t.pc) && v.stored.Some? && Agree(v.stored.value, back)
    && LocalOk(v1, tid, t1) && t1.inSection && v1.stored == Some(t.pending) && t1.prog == t.prog
    && t1.record == t.pending && t1.past.undone == t.past.undone && After(t.pc, t1.pc)
    && v2.stored == Some(back) && v2.log == v1.log && v2.known == v1.known && v2.prepared == v1.prepared
    && v2.playing == v1.playing && v2.marked == v1.marked
  }

  // What the section goes on relying on.
  lemma OverlaidOk(v: View, v1: View, v2: View, tid: TaskId, t: Task, t1: Task, back: Record)
    requires Overlays(v, v1, v2, tid, t, t1, back)
    ensures LocalOk(v2, tid, Overlaid(t1, back, t.pending))
  {
    WritesStoredOwner(v, tid, t);
    OverlaidAgrees(v, v1, v2, tid, t, t1, back);
    match t.pc {
      case Register(_) => OverlaidEarly(v, v1, v2, tid, t, t1, back);
      case Verify(_) => OverlaidAdoption(v, v1, v2, tid, t, t1, back);
      case _ => OverlaidLate(v, v1, v2, tid, t, t1, back);
    }
  }

  lemma OverlaidAgrees(v: View, v1: View, v2: View, tid: TaskId, t: Task, t1: Task, back: Record)
    requires Overlays(v, v1, v2, tid, t, t1, back)
    ensures Agrees(Overlaid(t1, back, t.pending), v2.stored)
  {
    WritesStoredOwner(v, tid, t);
  }

  lemma OverlaidEarly(v: View, v1: View, v2: View, tid: TaskId, t: Task, t1: Task, back: Record)
    requires Overlays(v, v1, v2, tid, t, t1, back) && t.pc.Register?
    ensures PcOk(v2, tid, Overlaid(t1, back, t.pending))
  {
    WritesStoredOwner(v, tid, t);
  }

  lemma OverlaidAdoption(v: View, v1: View, v2: View, tid: TaskId, t: Task, t1: Task, back: Record)
    requires Overlays(v, v1, v2, tid, t, t1, back) && t.pc.Verify?
    ensures PcOk(v2, tid, Overlaid(t1, back, t.pending))
  {
    WritesStoredOwner(v, tid, t);
  }

  lemma OverlaidLate(v: View, v1: View, v2: View, tid: TaskId, t: Task, t1: Task, back: Record)
    requires Overlays(v, v1, v2, tid, t, t1, back) && !t.pc.Register? && !t.pc.Verify?
    ensures PcOk(v2, tid, Overlaid(t1, back, t.pending))
  {
    WritesStoredOwner(v, tid, t);
  }

  // Neither a record write nor a forgetting touches torrents or markers.
  lemma WritesOnlyRecords(v: View, tid: TaskId, t: Task, c: Choice)
    requires Writing(t.pc)
    ensures var e := Advance(v, tid, t, c).effect; e.Nothing? || e.Upsert? || e.Forget?
    ensures c.fail ==> Advance(v, tid, t, c).effect.Nothing?
  {
  }

  lemma PutBackKeepsOrphansOut(s: State, tid: TaskId, c: Choice, kept: bool)
    requires Inv(s) && KeepsBehind(s, tid)
    ensures var s' := PutBack(s, tid, c, kept); NoOrphans(s') && MarkersKnown(s') && Keyed(s')
  {
    var t := s.tasks[tid];
    var o := Advance(ViewOf(s, t.prog), tid, t, c);
    WritesOnlyRecords(ViewOf(s, t.prog), tid, t, c);
    OverlayKeepsOrphansOut(s, TaskStep(s, tid, c), PutBack(s, tid, c, kept), t, o);
  }

  predicate SameIdentity(a: Record, b: Record) { a.owner == b.owner && a.hash == b.hash }

  lemma OverlayKeepsOrphansOut(s: State, s1: State, s2: State, t: Task, o: Outcome)
    requires NoOrphans(s) && MarkersKnown(s) && Keyed(s) && t.prog.hash in s.records
    requires o.effect.Nothing? || o.effect.Upsert? || o.effect.Forget?
    requires s1.backends == Affect(s, t.prog.backend, t.prog.hash, o.effect).backends
    requires s2.backends == s1.backends && s2.prepared == s.prepared && s2.known == s.known
    requires s2.records.Keys == s.records.Keys
    requires forall h <- s.records :: SameIdentity(s.records[h], s2.records[h])
    ensures NoOrphans(s2) && MarkersKnown(s2) && Keyed(s2)
  {
    forall b, h ensures Live(s2, b, h) == Live(s, b, h) {}
    forall b, h, m | b in s2.backends && h in s2.backends[b] && m in s2.backends[b][h].markers
      ensures m in s2.known && (m in s2.prepared ==> Tracked(s2, b, h, m))
    {
      assert Live(s, b, h) == Some(s2.backends[b][h]);
      if m in s2.prepared { assert Tracked(s, b, h, m); }
    }
  }

  lemma PutBackKeepsExclusive(s: State, tid: TaskId, c: Choice, kept: bool)
    requires Inv(s) && KeepsBehind(s, tid)
    ensures var s' := PutBack(s, tid, c, kept); Exclusive(s') && LogOk(s'.log)
  {
    var t := s.tasks[tid];
    StepKeepsExclusive(s, tid, c);
    StepKeepsKeys(s, tid, c);
    OverlayKeepsPlaces(
      TaskStep(s, tid, c), tid, t.prog.hash, s.records[t.prog.hash].(kept := kept), t.pending, c.fail);
  }

  lemma OverlayKeepsPlaces(s: State, tid: TaskId, h: Hash, back: Record, written: Record, failed: bool)
    requires Exclusive(s) && LogOk(s.log)
    ensures var s' := Overlay(s, tid, h, back, written, failed); Exclusive(s') && LogOk(s'.log)
  {
    SamePlaces(s, Overlay(s, tid, h, back, written, failed));
  }

  // Exclusion is about where tasks are.
  predicate SamePlace(t: Task, t': Task) { t'.inSection == t.inSection && t'.inReg == t.inReg && t'.prog == t.prog }

  lemma SamePlaces(s: State, s': State)
    requires Exclusive(s) && s'.tasks.Keys == s.tasks.Keys
    requires forall u <- s.tasks :: SamePlace(s.tasks[u], s'.tasks[u])
    ensures Exclusive(s')
  {
  }

  lemma PutBackViews(s: State, tid: TaskId, c: Choice, kept: bool, p: Program)
    requires KeepsBehind(s, tid)
    ensures var v1, v2 := ViewOf(TaskStep(s, tid, c), p), ViewOf(PutBack(s, tid, c, kept), p);
      && v2.log == v1.log && v2.known == v1.known && v2.prepared == v1.prepared
      && v2.playing == v1.playing && v2.marked == v1.marked
      && (p.hash != s.tasks[tid].prog.hash ==> v2.stored == v1.stored)
      && (p.hash == s.tasks[tid].prog.hash ==> v2.stored == Some(s.records[p.hash].(kept := kept)))
  {
  }

  lemma PutBackBystander(s: State, tid: TaskId, c: Choice, kept: bool, u: TaskId)
    requires Inv(s) && KeepsBehind(s, tid) && u in s.tasks && u != tid
    ensures LocalOk(ViewOf(PutBack(s, tid, c, kept), s.tasks[u].prog), u, s.tasks[u])
  {
    var w := s.tasks[u];
    BystanderKept(s, tid, c, u);
    PutBackViews(s, tid, c, kept, w.prog);
    if w.inSection { assert w.prog.hash != s.tasks[tid].prog.hash; }
    SameViewOk(ViewOf(TaskStep(s, tid, c), w.prog), ViewOf(PutBack(s, tid, c, kept), w.prog), u, w);
  }

  lemma SameViewOk(v1: View, v2: View, u: TaskId, w: Task)
    requires LocalOk(v1, u, w) && (w.inSection ==> v2.stored == v1.stored)
    requires v2.log == v1.log && v2.known == v1.known && v2.prepared == v1.prepared
    requires v2.playing == v1.playing && v2.marked == v1.marked
    ensures LocalOk(v2, u, w)
  {
    if w.inSection { OtherOk(v1, v2, u, w); } else { OutsiderOk(v1, v2, u, w); }
  }

  // Behind a write that failed, the keep changes the record as it is.
  lemma PutBackAfterFailure(s: State, tid: TaskId, c: Choice, kept: bool)
    requires Inv(s) && KeepsBehind(s, tid) && c.fail
    ensures var s' := PutBack(s, tid, c, kept);
      tid in s'.tasks ==> LocalOk(ViewOf(s', s'.tasks[tid].prog), tid, s'.tasks[tid])
  {
    var t, s1 := s.tasks[tid], TaskStep(s, tid, c);
    if tid in s1.tasks {
      ActorKept(s, tid, c);
      PutBackViews(s, tid, c, kept, t.prog);
      WritesOnlyRecords(ViewOf(s, t.prog), tid, t, c);
      FailedWrites(ViewOf(s, t.prog), tid, t, c);
      assert ViewOf(s1, t.prog).stored == Some(s.records[t.prog.hash]);
      OtherOk(ViewOf(s1, t.prog), ViewOf(PutBack(s, tid, c, kept), t.prog), tid, s1.tasks[tid]);
    }
  }

  lemma FailedWrites(v: View, tid: TaskId, t: Task, c: Choice)
    requires Writing(t.pc) && c.fail && t.inSection
    ensures var next := Advance(v, tid, t, c).next; next.Continue? ==> next.task.prog == t.prog && next.task.inSection
  {
  }

  lemma Writes(v: View, tid: TaskId, t: Task, c: Choice)
    requires Writing(t.pc) && v.stored.Some? && !c.fail && t.inSection
    ensures WritesPending(t, Advance(v, tid, t, c))
  {
    if t.pc.Register? || t.pc.Verify? || t.pc.Patrol? { EarlyWrites(v, tid, t, c); } else { LateWrites(v, tid, t, c); }
  }

  lemma PutBackAfterWrite(s: State, tid: TaskId, c: Choice, kept: bool)
    requires Inv(s) && KeepsBehind(s, tid) && !c.fail
    ensures var s' := PutBack(s, tid, c, kept);
      tid in s'.tasks ==> LocalOk(ViewOf(s', s'.tasks[tid].prog), tid, s'.tasks[tid])
  {
    var t, s1 := s.tasks[tid], TaskStep(s, tid, c);
    var v := ViewOf(s, t.prog);
    if tid in s1.tasks {
      ActorKept(s, tid, c);
      Writes(v, tid, t, c);
      PutBackViews(s, tid, c, kept, t.prog);
      var v1, v2 := ViewOf(s1, t.prog), ViewOf(PutBack(s, tid, c, kept), t.prog);
      assert v1.stored == Some(t.pending) && s1.tasks[tid].prog == t.prog;
      OverlaidOk(v, v1, v2, tid, t, s1.tasks[tid], s.records[t.prog.hash].(kept := kept));
    }
  }

  lemma PutBackActor(s: State, tid: TaskId, c: Choice, kept: bool)
    requires Inv(s) && KeepsBehind(s, tid)
    ensures var s' := PutBack(s, tid, c, kept);
      tid in s'.tasks ==> LocalOk(ViewOf(s', s'.tasks[tid].prog), tid, s'.tasks[tid])
  {
    if c.fail { PutBackAfterFailure(s, tid, c, kept); } else { PutBackAfterWrite(s, tid, c, kept); }
  }

  lemma PutBackKeepsTasks(s: State, tid: TaskId, c: Choice, kept: bool)
    requires Inv(s) && KeepsBehind(s, tid)
    ensures TasksOk(PutBack(s, tid, c, kept))
  {
    var s' := PutBack(s, tid, c, kept);
    forall u <- s'.tasks ensures u < s'.nextTask && LocalOk(ViewOf(s', s'.tasks[u].prog), u, s'.tasks[u]) {
      if u == tid { PutBackActor(s, tid, c, kept); } else { PutBackBystander(s, tid, c, kept, u); }
    }
  }

  lemma PutBackKeepsInv(s: State, tid: TaskId, c: Choice, kept: bool)
    requires Inv(s) && KeepsBehind(s, tid)
    ensures Inv(PutBack(s, tid, c, kept))
  {
    PutBackKeepsOrphansOut(s, tid, c, kept);
    PutBackKeepsExclusive(s, tid, c, kept);
    PutBackKeepsTasks(s, tid, c, kept);
  }

  // ----- the other actions --------------------------------------------------------------------

  // A racing write to kept or expiresAt, a foreign change, or the end of a playback.
  lemma QuietKeepsTasks(s: State, s': State)
    requires Inv(s) && s'.tasks == s.tasks && s'.nextTask == s.nextTask && s'.log == s.log
    requires s'.prepared == s.prepared && s.known <= s'.known && s'.playing <= s.playing
    requires s'.records.Keys == s.records.Keys && forall h <- s.records :: Agree(s.records[h], s'.records[h])
    requires forall b, h :: Marked(s', b, h) ==> Marked(s, b, h)
    ensures TasksOk(s') && Exclusive(s') && Keyed(s')
  {
    forall u <- s'.tasks ensures u < s'.nextTask && LocalOk(ViewOf(s', s'.tasks[u].prog), u, s'.tasks[u]) {
      QuietKeepsTask(s, s', u, s.tasks[u]);
    }
  }

  lemma QuietKeepsTask(s: State, s': State, u: TaskId, w: Task)
    requires LocalOk(ViewOf(s, w.prog), u, w) && s'.log == s.log
    requires s'.prepared == s.prepared && s.known <= s'.known && s'.playing <= s.playing
    requires s'.records.Keys == s.records.Keys && forall h <- s.records :: Agree(s.records[h], s'.records[h])
    requires Marked(s', w.prog.backend, w.prog.hash) ==> Marked(s, w.prog.backend, w.prog.hash)
    ensures LocalOk(ViewOf(s', w.prog), u, w)
  {
    var v, v' := ViewOf(s, w.prog), ViewOf(s', w.prog);
    if w.inSection {
      assert Undisturbed(v, v', w.prog.hash);
      OtherOk(v, v', u, w);
    } else {
      OutsiderOk(v, v', u, w);
    }
  }

  lemma RaceKeepsInv(s: State, s': State)
    requires Inv(s)
    requires s' == s.(records := s'.records, playing := s'.playing) && s'.playing <= s.playing
    requires s'.records.Keys == s.records.Keys && forall h <- s.records :: Agree(s.records[h], s'.records[h])
    ensures Inv(s')
  {
    forall b, h, m | b in s'.backends && h in s'.backends[b] && m in s'.backends[b][h].markers && m in s'.prepared
      ensures Tracked(s', b, h, m)
    {
      assert Tracked(s, b, h, m);
    }
    forall b, h ensures Marked(s', b, h) ==> Marked(s, b, h) {}
    QuietKeepsTasks(s, s');
  }

  lemma KeepKeepsInv(s: State, h: Hash, kept: bool)
    requires Inv(s)
    ensures Inv(Next(s, SetKept(h, kept)))
  {
    RaceKeepsInv(s, Next(s, SetKept(h, kept)));
  }

  lemma RenewalKeepsInv(s: State, h: Hash, expiresAt: int)
    requires Inv(s)
    ensures Inv(Next(s, Renew(h, expiresAt)))
  {
    RaceKeepsInv(s, Next(s, Renew(h, expiresAt)));
  }

  lemma SpawnKeepsInv(s: State, p: Program)
    requires Inv(s)
    ensures Inv(Next(s, Spawn(p)))
  {
    var s' := Next(s, Spawn(p));
    SameMarkersTracked(s, s');
    SpawnKeepsExclusive(s, p);
    forall u <- s'.tasks ensures u < s'.nextTask && LocalOk(ViewOf(s', s'.tasks[u].prog), u, s'.tasks[u]) {
      if u in s.tasks { SpawnUndisturbed(s, p, u); }
    }
  }

  lemma SpawnKeepsExclusive(s: State, p: Program)
    requires Inv(s)
    ensures Exclusive(Next(s, Spawn(p)))
  {
  }

  lemma SpawnUndisturbed(s: State, p: Program, u: TaskId)
    requires Inv(s) && u in s.tasks
    ensures var s' := Next(s, Spawn(p)); u < s.nextTask && LocalOk(ViewOf(s', s.tasks[u].prog), u, s.tasks[u])
  {
    QuietKeepsTask(s, Next(s, Spawn(p)), u, s.tasks[u]);
  }

  lemma CrashKeepsInv(s: State)
    requires Inv(s)
    ensures Inv(Next(s, Crash))
  {
    LogOkGrows(s.log, Crashed);
    SameMarkersTracked(s, Next(s, Crash));
  }

  // A prepared marker on a torrent was there before the client's user changed anything.
  lemma OutsideMarkers(s: State, b: BackendId, h: Hash, t: Option<Torrent>, b': BackendId, h': Hash, m: Marker)
    requires OutsideAllowed(s, b, h, t) && m in s.prepared
    requires var live := Live(SetLive(s, b, h, t), b', h'); live.Some? && m in live.value.markers
    ensures Live(s, b', h').Some? && m in Live(s, b', h').value.markers
  {
    if b' == b && h' == h {
      assert m in t.value.markers * s.prepared;
    } else {
      assert Live(SetLive(s, b, h, t), b', h') == Live(s, b', h');
    }
  }

  lemma OutsideKeepsInv(s: State, b: BackendId, h: Hash, t: Option<Torrent>)
    requires Inv(s) && OutsideAllowed(s, b, h, t)
    ensures Inv(Next(s, Outside(b, h, t)))
  {
    var s' := Next(s, Outside(b, h, t));
    forall b', h', m | b' in s'.backends && h' in s'.backends[b'] && m in s'.backends[b'][h'].markers
                       && m in s'.prepared
      ensures Tracked(s', b', h', m)
    {
      OutsideMarkers(s, b, h, t, b', h', m);
      assert Tracked(s, b', h', m);
    }
    forall b', h' ensures Marked(s', b', h') ==> Marked(s, b', h') {
      if Marked(s', b', h') {
        var m :| m in Live(s', b', h').value.markers && m in s'.prepared;
        OutsideMarkers(s, b, h, t, b', h', m);
      }
    }
    OutsideMarkersKnown(s, b, h, t);
    QuietKeepsTasks(s, s');
  }

  lemma OutsideMarkersKnown(s: State, b: BackendId, h: Hash, t: Option<Torrent>)
    requires MarkersKnown(s) && OutsideAllowed(s, b, h, t)
    ensures MarkersKnown(Next(s, Outside(b, h, t)))
  {
  }

  lemma NextKeepsInv(s: State, a: Action)
    requires Inv(s)
    ensures Inv(Next(s, a))
  {
    match a {
      case Spawn(p) => SpawnKeepsInv(s, p);
      case Step(tid, c) => if tid in s.tasks { StepKeepsInv(s, tid, c); }
      case LateKeep(tid, c, kept) => if KeepsBehind(s, tid) { PutBackKeepsInv(s, tid, c, kept); }
      case SetKept(h, kept) => KeepKeepsInv(s, h, kept);
      case Renew(h, expiresAt) => RenewalKeepsInv(s, h, expiresAt);
      case StopPlaying(h) => RaceKeepsInv(s, Next(s, StopPlaying(h)));
      case Outside(b, h, t) => if OutsideAllowed(s, b, h, t) { OutsideKeepsInv(s, b, h, t); }
      case Crash => CrashKeepsInv(s);
    }
  }

  lemma {:induction false} RunKeepsInv(s: State, actions: seq<Action>)
    requires Inv(s)
    ensures Inv(Execute(s, actions))
    decreases |actions|
  {
    if actions == [] {
    } else {
      NextKeepsInv(s, actions[0]);
      RunKeepsInv(Next(s, actions[0]), actions[1..]);
    }
  }

  // ----- the theorems -------------------------------------------------------------------------

  // Whatever the interleaving and wherever the process crashes, no torrent this program marked is
  // ever without its durable record.
  lemma NoOrphanedTorrents(s: State, actions: seq<Action>)
    requires Init(s)
    ensures NoOrphans(Execute(s, actions))
  {
    RunKeepsInv(s, actions);
  }

  // Every change a preparation, deletion or sweep makes to a torrent was preceded, inside the same exclusive
  // section of its hash, by a lookup showing the scope and marker of the owner it claims. That is the owner
  // of the record stored when the change is made, unless a late keep undid this section's adoption: then, and
  // only then, the stored record has no owner.
  lemma OnlyProvenTorrentsChange(s: State, actions: seq<Action>, i: nat)
    requires Init(s) && i < |Execute(s, actions).log| && Execute(s, actions).log[i].Acted?
    ensures var log := Execute(s, actions).log; var e := log[i];
      && (exists k, j :: ProvenBefore(log, i, k, j, e.task, e.backend, e.hash, e.claimed))
      && (e.owner == Some(e.claimed) <==> !e.undone)
      && (e.owner == None <==> e.undone)
  {
    RunKeepsInv(s, actions);
    assert EventOk(Execute(s, actions).log, i);
  }

  // A pause or resume takes no lock: the torrent it starts or stops was proved by its own lookup, of an owner
  // it had read from a managed store record before that.
  lemma TogglesAreProven(s: State, actions: seq<Action>, i: nat)
    requires Init(s) && i < |Execute(s, actions).log| && Execute(s, actions).log[i].Toggled?
    ensures var log := Execute(s, actions).log; var e := log[i];
      exists k, j :: AskedBefore(log, i, k, j, e.task, e.backend, e.hash, e.claimed)
  {
    RunKeepsInv(s, actions);
    assert EventOk(Execute(s, actions).log, i);
  }

  // A legacy torrent is marked only for a stored record without an owner that names a file, after a lookup
  // in the same section that shows it in a scope of the program.
  lemma OnlyLegacyTorrentsAreTagged(s: State, actions: seq<Action>, i: nat)
    requires Init(s) && i < |Execute(s, actions).log| && Execute(s, actions).log[i].Tagged?
    ensures var log := Execute(s, actions).log; var e := log[i];
      && e.stored.Some? && e.stored.value.owner.None? && e.stored.value.file.path != ""
      && exists k, j :: TaggableBefore(log, i, k, j, e.task, e.backend, e.hash)
  {
    RunKeepsInv(s, actions);
    assert EventOk(Execute(s, actions).log, i);
  }

  // No torrent is removed while it plays, and before every removal, in the same section, the rule its
  // deletion was called with accepted the record stored at that moment, for a torrent just looked up and
  // while nobody played it.
  lemma RemovalsAreIdleAndEligible(s: State, actions: seq<Action>, i: nat)
    requires Init(s) && i < |Execute(s, actions).log|
    requires Execute(s, actions).log[i].Acted? && Execute(s, actions).log[i].act.Remove?
    ensures var log := Execute(s, actions).log; var e := log[i];
      !e.playing && exists k, m, j :: JudgedBefore(log, i, k, m, j, e.task, e.hash)
  {
    RunKeepsInv(s, actions);
    assert EventOk(Execute(s, actions).log, i);
  }

  // A record is forgotten only after the section's backend answered, inside the section, that the torrent
  // does not exist; that backend is the stored owner's, unless a late keep undid this section's adoption.
  lemma ForgottenOnlyWhenAbsent(s: State, actions: seq<Action>, i: nat)
    requires Init(s) && i < |Execute(s, actions).log| && Execute(s, actions).log[i].Forgot?
    ensures var log := Execute(s, actions).log; var e := log[i];
      && (exists k, j :: AbsentBefore(log, i, k, j, e.task, e.backend, e.hash))
      && (e.owner.Some? <==> !e.undone) && (e.owner.Some? ==> e.owner.value.backend == e.backend)
  {
    RunKeepsInv(s, actions);
    assert EventOk(Execute(s, actions).log, i);
  }

  // When a submit reaches the backend, the record with the submitted marker is already durable.
  lemma IntentIsDurableBeforeSubmit(s: State, actions: seq<Action>, i: nat)
    requires Init(s) && i < |Execute(s, actions).log| && Execute(s, actions).log[i].Submitted?
    ensures var e := Execute(s, actions).log[i];
      e.stored.Some? && OwnedBy(e.stored.value, e.backend) && e.stored.value.owner.value.marker == e.marker
  {
    RunKeepsInv(s, actions);
    assert EventOk(Execute(s, actions).log, i);
  }

  // A preparation that succeeds leaves a managed record whose file is the one it hands over, among the
  // selected ones, unless a late keep has put an earlier record back over its last write that is not so.
  lemma PreparedRecordsAreManaged(s: State, actions: seq<Action>, i: nat)
    requires Init(s) && i < |Execute(s, actions).log| && Execute(s, actions).log[i].Prepared?
    ensures var e := Execute(s, actions).log[i];
      e.stored.Some? && (Usable(e.stored.value, e.file) <==> e.over.None? || Usable(e.over.value, e.file))
  {
    RunKeepsInv(s, actions);
    assert EventOk(Execute(s, actions).log, i);
  }
}
