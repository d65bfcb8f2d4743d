/** What one hash of a sweep does from its start to its end when nothing fails, and what a toggle may do. */
module ManagedSweeps {
  import opened Wrappers
  import opened ManagedDownloads
  import opened ManagedSteps
  import opened ManagedSafety

  // A step in which every call succeeds.
  const Quiet := Choice(false, true, false, false, 0, false, None, false, [], false, 0)

  // A sweep of one hash after n steps.
  function Swept(s: State, p: Program, n: nat): State {
    if n == 0 then Next(s, Spawn(p)) else OneMore(Swept(s, p, n - 1), s.nextTask)
  }

  function OneMore(s: State, tid: TaskId): State { Next(s, Step(tid, Quiet)) }

  predicate SectionFree(s: State, h: Hash) {
    forall u <- s.tasks :: !(s.tasks[u].inSection && s.tasks[u].prog.hash == h)
  }

  // The sweep stands here, and nothing has changed: neither the record nor the torrent.
  predicate Sweeping(s: State, tid: TaskId, p: Program, pc: Pc, r: Record, live: Option<Torrent>) {
    && Stored(s, p.hash) == Some(r) && Live(s, p.backend, p.hash) == live
    && tid in s.tasks && s.tasks[tid].pc == pc && s.tasks[tid].prog == p && s.tasks[tid].record == r
    && (live.Some? && pc != Patrol(Inspect) ==> s.tasks[tid].torrent == live.value)
  }

  lemma SweepEnters(s: State, p: Program, n: nat, r: Record, live: Option<Torrent>)
    requires p.Sweep? && Stored(s, p.hash) == Some(r) && Live(s, p.backend, p.hash) == live && SectionFree(s, p.hash)
    requires s.nextTask !in s.tasks && n == 1
    ensures Sweeping(Swept(s, p, n), s.nextTask, p, Patrol(Inspect), r, live) && Swept(s, p, n).playing == s.playing
  {
    var s1 := Next(s, Spawn(p));
    assert s1.tasks[s.nextTask] == InitialTask(p);
    assert ViewOf(s1, p).lockFree;
    EntersSection(s1, s.nextTask, p, r, live);
    assert Swept(s, p, n - 1) == s1;
  }

  lemma NextTaskIsNew(s: State)
    requires TasksOk(s)
    ensures s.nextTask !in s.tasks
  {
  }

  lemma EntersSection(s: State, tid: TaskId, p: Program, r: Record, live: Option<Torrent>)
    requires p.Sweep? && tid in s.tasks && s.tasks[tid] == InitialTask(p) && ViewOf(s, p).lockFree
    requires Stored(s, p.hash) == Some(r) && Live(s, p.backend, p.hash) == live
    ensures Sweeping(OneMore(s, tid), tid, p, Patrol(Inspect), r, live) && OneMore(s, tid).playing == s.playing
  {
  }

  // ----- an absent torrent --------------------------------------------------------------------

  lemma Inspects(s: State, tid: TaskId, p: Program, r: Record)
    requires p.Sweep? && Sweeping(s, tid, p, Patrol(Inspect), r, None) && OwnedBy(r, p.backend)
    ensures var s' := OneMore(s, tid);
      && s'.records == s.records
      && (if r.lifecycle == Registering || s.playing[p.hash] > 0 then tid !in s'.tasks
          else tid in s'.tasks && s'.tasks[tid].prog == p && s'.tasks[tid].pc == Erase(Forgetting))
  {
  }

  lemma Forgets(s: State, tid: TaskId)
    requires tid in s.tasks && s.tasks[tid].pc == Erase(Forgetting) && s.tasks[tid].prog.hash in s.records
    ensures OneMore(s, tid).records == s.records - {s.tasks[tid].prog.hash}
  {
  }

  lemma AfterLooking(s: State, tid: TaskId, p: Program, r: Record)
    requires p.Sweep? && Sweeping(s, tid, p, Patrol(Inspect), r, None) && OwnedBy(r, p.backend)
    ensures p.hash in OneMore(OneMore(s, tid), tid).records <==> r.lifecycle == Registering || s.playing[p.hash] > 0
  {
    Inspects(s, tid, p, r);
    if tid in OneMore(s, tid).tasks { Forgets(OneMore(s, tid), tid); }
  }

  lemma TwoMore(s: State, p: Program, n: nat)
    ensures Swept(s, p, n + 2) == OneMore(OneMore(Swept(s, p, n), s.nextTask), s.nextTask)
  {
    assert Swept(s, p, n + 2) == OneMore(Swept(s, p, n + 1), s.nextTask);
  }

  // The stale branch keeps a record only while it is registering or playing. In particular a queued
  // record, which never had a torrent, is dropped by the next sweep.
  lemma SweepOfAbsentTorrent(s: State, p: Program, n: nat)
    requires Inv(s) && p.Sweep? && p.hash in s.records && OwnedBy(s.records[p.hash], p.backend)
    requires Live(s, p.backend, p.hash).None? && SectionFree(s, p.hash) && n == 1
    ensures p.hash in Swept(s, p, n + 2).records <==>
      s.records[p.hash].lifecycle == Registering || s.playing[p.hash] > 0
  {
    NextTaskIsNew(s);
    SweepEnters(s, p, n, s.records[p.hash], None);
    AfterLooking(Swept(s, p, n), s.nextTask, p, s.records[p.hash]);
    TwoMore(s, p, n);
  }

  // ----- a present torrent --------------------------------------------------------------------

  lemma Looks(s: State, tid: TaskId, p: Program, r: Record, t: Torrent)
    requires p.Sweep? && Sweeping(s, tid, p, Patrol(Inspect), r, Some(t)) && OwnedBy(r, p.backend)
    ensures Sweeping(OneMore(s, tid), tid, p, Verify(Check), r, Some(t))
  {
  }

  lemma Proves(s: State, tid: TaskId, p: Program, r: Record, t: Torrent)
    requires p.Sweep? && Sweeping(s, tid, p, Verify(Check), r, Some(t)) && IsOwned(r, t, p.backend)
    ensures Sweeping(OneMore(s, tid), tid, p, Patrol(Relimit), r, Some(t))
  {
  }

  lemma Relimits(s: State, tid: TaskId, p: Program, r: Record, t: Torrent)
    requires p.Sweep? && Sweeping(s, tid, p, Patrol(Relimit), r, Some(t))
    ensures if r.lifecycle == Deleting then OneMore(OneMore(s, tid), tid) == OneMore(s, tid)
            else Sweeping(OneMore(s, tid), tid, p, Patrol(StartStop), r, Some(t))
    ensures Live(OneMore(s, tid), p.backend, p.hash) == Some(t)
  {
  }

  lemma StartsOrStops(s: State, tid: TaskId, p: Program, r: Record, t: Torrent)
    requires p.Sweep? && Sweeping(s, tid, p, Patrol(StartStop), r, Some(t))
    ensures Live(OneMore(s, tid), p.backend, p.hash) == Some(Settled(p, t))
  {
  }

  // A complete torrent seeds exactly until it has reached the ratio.
  function Settled(p: Program, t: Torrent): Torrent
    requires p.Sweep?
  {
    if t.complete then t.(stopped := t.ratio >= p.targetRatio) else t
  }

  // From its start to its end, a sweep that finds the torrent of its record leaves it running exactly while
  // its ratio is below the target if it is complete, and as it was if it is not, or is being deleted.
  lemma SweepSettlesSeeding(s: State, p: Program, t: Torrent, n: nat)
    requires Inv(s) && p.Sweep? && p.hash in s.records && IsOwned(s.records[p.hash], t, p.backend)
    requires Live(s, p.backend, p.hash) == Some(t) && SectionFree(s, p.hash) && n == 1
    ensures Live(Swept(s, p, n + 2 + 2), p.backend, p.hash) ==
      Some(if s.records[p.hash].lifecycle == Deleting then t else Settled(p, t))
  {
    var tid, r := s.nextTask, s.records[p.hash];
    NextTaskIsNew(s);
    SweepEnters(s, p, n, r, Some(t));
    Looks(Swept(s, p, n), tid, p, r, t);
    Proves(OneMore(Swept(s, p, n), tid), tid, p, r, t);
    TwoMore(s, p, n);
    Settles(Swept(s, p, n + 2), tid, p, r, t);
    TwoMore(s, p, n + 2);
  }

  lemma Settles(s: State, tid: TaskId, p: Program, r: Record, t: Torrent)
    requires p.Sweep? && Sweeping(s, tid, p, Patrol(Relimit), r, Some(t))
    ensures Live(OneMore(OneMore(s, tid), tid), p.backend, p.hash) ==
      Some(if r.lifecycle == Deleting then t else Settled(p, t))
  {
    Relimits(s, tid, p, r, t);
    if r.lifecycle != Deleting { StartsOrStops(OneMore(s, tid), tid, p, r, t); }
  }

  // ----- a toggle takes no lock ---------------------------------------------------------------

  // A pause or resume that has proved a torrent starts or stops whatever is there when its call arrives: here
  // the client's user has put another one in its place, without the marker that was proved.
  lemma ToggleTouchesAForeignTorrent(s: State, tid: TaskId, t: Torrent)
    requires tid in s.tasks && s.tasks[tid].pc == Wait(Press) && s.tasks[tid].prog.Toggle? && t.markers == {}
    ensures var p := s.tasks[tid].prog;
      Live(Next(Next(s, Outside(p.backend, p.hash, Some(t))), Step(tid, Quiet)), p.backend, p.hash)
        == Some(t.(stopped := !p.running))
  {
    var p := s.tasks[tid].prog;
    var s1 := Next(s, Outside(p.backend, p.hash, Some(t)));
    assert Live(s1, p.backend, p.hash) == Some(t);
    Presses(s1, tid, p, t);
  }

  lemma Presses(s: State, tid: TaskId, p: Program, t: Torrent)
    requires p.Toggle? && tid in s.tasks && s.tasks[tid].pc == Wait(Press) && s.tasks[tid].prog == p
    requires Live(s, p.backend, p.hash) == Some(t)
    ensures Live(Next(s, Step(tid, Quiet)), p.backend, p.hash) == Some(t.(stopped := !p.running))
  {
  }
}
