/**
 The size cap's deletions as runs of the protocol: how each of them ends is the reply the eviction loop acts
 on, and none removes a torrent whose record was kept, renewed or played.
 */
module Evictions {
  import opened Wrappers
  import opened ManagedDownloads
  import opened ManagedSteps
  import opened ManagedSafety
  import Retention

  predicate IsEviction(p: Program) { p.Delete? && p.rule.SizeCap? }

  // ----- where an eviction can stand ----------------------------------------------------------

  // Its points, and what it has judged once it has: a record that was unkept and had the listed expiry.
  predicate EvictionOk(t: Task) {
    IsEviction(t.prog) ==>
      match t.pc
      case Wait(w) => w.QueueDelete? && t.past.judgedAt == 0
      case Verify(_) => t.past.judgedAt == 0
      case Erase(p) =>
        if p.Find? || p.Decide? then t.past.judgedAt == 0
        else (p.Forgetting? && t.past.judgedAt == 0) || JudgedUnkept(t, p)
      case _ => false
  }

  predicate JudgedUnkept(t: Task, p: ErasePoint)
    requires IsEviction(t.prog)
  {
    && t.past.judgedAt > 0
    && !t.record.kept && t.record.expiresAt == t.prog.rule.listedExpiry
    && (p.SaveDeleting? ==> !t.pending.kept && t.pending.expiresAt == t.prog.rule.listedExpiry)
  }

  predicate NextEvictionOk(t: Task, o: Outcome) {
    EvictionOk(t) && o.next.Continue? && o.next.task.prog == t.prog ==> EvictionOk(o.next.task)
  }

  lemma WaitEvicts(v: View, tid: TaskId, t: Task, p: WaitPoint, c: Choice)
    requires t.pc == Wait(p)
    ensures NextEvictionOk(t, WaitStep(v, tid, t, p, c))
  {
  }

  lemma VerifyEvicts(v: View, tid: TaskId, t: Task, p: VerifyPoint, c: Choice)
    requires t.pc == Verify(p)
    ensures NextEvictionOk(t, VerifyStep(v, tid, t, p, c))
  {
    if p.Check? {
      CheckEvicts(v, tid, t, p, c);
    } else if p.Evidence? {
      EvidenceEvicts(v, tid, t, p, c);
    } else {
      AdoptionEvicts(v, tid, t, p, c);
    }
  }

  lemma EvidenceEvicts(v: View, tid: TaskId, t: Task, p: VerifyPoint, c: Choice)
    requires t.pc == Verify(p) && p.Evidence?
    ensures NextEvictionOk(t, VerifyStep(v, tid, t, p, c))
  {
  }

  lemma CheckEvicts(v: View, tid: TaskId, t: Task, p: VerifyPoint, c: Choice)
    requires t.pc == Verify(p) && p.Check?
    ensures NextEvictionOk(t, VerifyStep(v, tid, t, p, c))
  {
  }

  lemma AdoptionEvicts(v: View, tid: TaskId, t: Task, p: VerifyPoint, c: Choice)
    requires t.pc == Verify(p) && !p.Check? && !p.Evidence?
    ensures NextEvictionOk(t, VerifyStep(v, tid, t, p, c))
  {
  }

  lemma EraseEvicts(v: View, tid: TaskId, t: Task, p: ErasePoint, c: Choice)
    requires t.pc == Erase(p) && |v.log| > 0
    ensures NextEvictionOk(t, EraseStep(v, tid, t, p, c))
  {
  }

  lemma StepEvicts(v: View, tid: TaskId, t: Task, c: Choice)
    requires IsEviction(t.prog) && EvictionOk(t) && LocalOk(v, tid, t)
    ensures NextEvictionOk(t, Advance(v, tid, t, c))
  {
    match t.pc {
      case Wait(p) => WaitEvicts(v, tid, t, p, c);
      case Verify(p) => VerifyEvicts(v, tid, t, p, c);
      case Erase(p) => EraseEvicts(v, tid, t, p, c);
    }
  }

  predicate AllEvictionsOk(s: State) { forall tid <- s.tasks :: EvictionOk(s.tasks[tid]) }

  lemma StepKeepsEvictions(s: State, tid: TaskId, c: Choice)
    requires Inv(s) && AllEvictionsOk(s) && tid in s.tasks
    ensures AllEvictionsOk(TaskStep(s, tid, c))
  {
    var t := s.tasks[tid];
    StepActor(s, tid, c);
    if IsEviction(t.prog) { StepEvicts(ViewOf(s, t.prog), tid, t, c); }
  }

  lemma PutBackKeepsEvictions(s: State, tid: TaskId, c: Choice, kept: bool)
    requires KeepsBehind(s, tid) && AllEvictionsOk(TaskStep(s, tid, c))
    ensures AllEvictionsOk(PutBack(s, tid, c, kept))
  {
  }

  lemma NextKeepsEvictions(s: State, a: Action)
    requires Inv(s) && AllEvictionsOk(s)
    ensures AllEvictionsOk(Next(s, a))
  {
    match a {
      case Step(tid, c) => if tid in s.tasks { StepKeepsEvictions(s, tid, c); }
      case LateKeep(tid, c, kept) =>
        if KeepsBehind(s, tid) {
          StepKeepsEvictions(s, tid, c);
          PutBackKeepsEvictions(s, tid, c, kept);
        }
      case _ =>
    }
  }

  lemma {:induction false} RunKeepsEvictions(s: State, actions: seq<Action>)
    requires Inv(s) && AllEvictionsOk(s)
    ensures Inv(Execute(s, actions)) && AllEvictionsOk(Execute(s, actions))
    decreases |actions|
  {
    if actions == [] {
    } else {
      NextKeepsInv(s, actions[0]);
      NextKeepsEvictions(s, actions[0]);
      RunKeepsEvictions(Next(s, actions[0]), actions[1..]);
    }
  }

  // ----- how it ends --------------------------------------------------------------------------

  function ReplyOf(e: Ending): Retention.Reply {
    match e
    case Returned(true) => Retention.Removed
    case Returned(false) => Retention.Spared
    case Threw => Retention.Threw
  }

  function LeaseOf(r: Record): Retention.Lease { Retention.Lease(r.kept, r.expiresAt) }

  // Whether this step meets an error: a call that fails, an owner that does not match, a torrent that cannot
  // be proved, or one that is still there after its removal.
  predicate Broken(v: View, t: Task, c: Choice) {
    match t.pc
    case Wait(_) => v.stored.Some? && v.stored.value.owner.Some? && v.stored.value.owner.value.backend != t.prog.backend
    case Verify(p) => c.fail || p.SaveConflict?
    case Erase(p) =>
      if p.Find? then c.fail || (v.live.None? && t.record.owner.None?)
      else if p.Confirm? then c.fail || v.live.Some?
      else !p.Decide? && c.fail
    case _ => c.fail
  }

  // What an eviction has seen by the time it ends: the record it judged, or else the one that is stored;
  // whether the torrent was there; whether the title was being played at its start or at its judgement.
  function Observed(v: View, t: Task, c: Choice): Retention.Standing {
    var judged := t.past.judgedAt > 0;
    var record := if judged then Some(t.record) else v.stored;
    var lease := if record.Some? then Some(LeaseOf(record.value)) else None;
    var present := judged || t.pc.Verify? || t.pc == Erase(Decide);
    Retention.Standing(lease, present, t.pc.Wait? && v.playing, t.pc == Erase(Decide) && v.playing, Broken(v, t, c))
  }

  predicate EndsAs(v: View, t: Task, c: Choice, o: Outcome)
    requires IsEviction(t.prog)
  {
    o.next.Halt? ==> ReplyOf(o.next.ending) == Retention.Evict(t.prog.rule.listedExpiry, Observed(v, t, c))
  }

  lemma WaitEnds(v: View, tid: TaskId, t: Task, p: WaitPoint, c: Choice)
    requires IsEviction(t.prog) && EvictionOk(t) && t.pc == Wait(p)
    ensures EndsAs(v, t, c, WaitStep(v, tid, t, p, c))
  {
  }

  lemma VerifyEnds(v: View, tid: TaskId, t: Task, p: VerifyPoint, c: Choice)
    requires IsEviction(t.prog) && EvictionOk(t) && t.pc == Verify(p) && v.stored.Some?
    requires p.AddMark? ==> t.pending.owner.Some?
    ensures EndsAs(v, t, c, VerifyStep(v, tid, t, p, c))
  {
  }

  lemma EraseEnds(v: View, tid: TaskId, t: Task, p: ErasePoint, c: Choice)
    requires IsEviction(t.prog) && EvictionOk(t) && t.pc == Erase(p) && v.stored.Some?
    ensures EndsAs(v, t, c, EraseStep(v, tid, t, p, c))
  {
  }

  lemma StepEnds(v: View, tid: TaskId, t: Task, c: Choice)
    requires IsEviction(t.prog) && EvictionOk(t) && LocalOk(v, tid, t)
    ensures EndsAs(v, t, c, Advance(v, tid, t, c))
  {
    match t.pc {
      case Wait(p) => WaitEnds(v, tid, t, p, c);
      case Verify(p) => VerifyEnds(v, tid, t, p, c);
      case Erase(p) => EraseEnds(v, tid, t, p, c);
    }
  }

  // In every run, the size cap's deletion of a hash ends with the reply that `Evict` gives for what it has
  // seen: so what the eviction loop is told is a fact about the protocol.
  lemma EvictionsEndAsTold(s: State, actions: seq<Action>, tid: TaskId, c: Choice)
    requires Init(s) && tid in Execute(s, actions).tasks && IsEviction(Execute(s, actions).tasks[tid].prog)
    ensures var s' := Execute(s, actions);
      EndsAsTold(s', tid, c)
  {
    RunKeepsEvictions(s, actions);
    EndsHere(Execute(s, actions), tid, c);
  }

  predicate EndsAsTold(s: State, tid: TaskId, c: Choice)
    requires tid in s.tasks && IsEviction(s.tasks[tid].prog)
  {
    var v := ViewOf(s, s.tasks[tid].prog); EndsAs(v, s.tasks[tid], c, Advance(v, tid, s.tasks[tid], c))
  }

  lemma EndsHere(s: State, tid: TaskId, c: Choice)
    requires Inv(s) && AllEvictionsOk(s) && tid in s.tasks && IsEviction(s.tasks[tid].prog)
    ensures EndsAsTold(s, tid, c)
  {
    StepEnds(ViewOf(s, s.tasks[tid].prog), tid, s.tasks[tid], c);
  }

  // ----- what is never evicted ----------------------------------------------------------------

  // The record stored at event j was unkept and still had the expiry of the listing, and nobody played it.
  predicate FreeToGo(e: Event, listedExpiry: int) {
    e.Judged? && e.stored.Some? && !e.stored.value.kept && e.stored.value.expiresAt == listedExpiry && !e.playing
  }

  ghost predicate FreeBefore(log: seq<Event>, i: nat, k: nat, m: nat, j: nat, tid: TaskId, h: Hash) {
    && JudgedBefore(log, i, k, m, j, tid, h)
    && (log[k].prog.rule.SizeCap? ==> FreeToGo(log[j], log[k].prog.rule.listedExpiry))
  }

  // In every run, a present torrent that is kept, renewed since the listing, or being played is not removed
  // by the size cap: before the removal call, in the same section, the record stored then was unkept, had the
  // listed expiry, and nobody was playing; and nobody is playing when the call is made.
  lemma PresentTorrentsAreSpared(s: State, actions: seq<Action>, i: nat)
    requires Init(s) && i < |Execute(s, actions).log|
    requires Execute(s, actions).log[i].Acted? && Execute(s, actions).log[i].act.Remove?
    ensures var log := Execute(s, actions).log; var e := log[i];
      !e.playing && exists k, m, j :: FreeBefore(log, i, k, m, j, e.task, e.hash)
  {
    RemovalsAreIdleAndEligible(s, actions, i);
    var log := Execute(s, actions).log;
    var k, m, j :| JudgedBefore(log, i, k, m, j, log[i].task, log[i].hash);
    assert FreeBefore(log, i, k, m, j, log[i].task, log[i].hash);
  }
}
