/** Durable jobs: an abstract table with leases, the runner's use of it, and what a lease guarantees. */
module Jobs {
  import opened Wrappers

  type JobId = string

  datatype Job = Job(
    id: JobId, kind: string, payload: Option<string>, attempts: nat, nextRunAt: int,
    leaseUntil: Option<int>, leaseId: Option<string>, lastError: Option<string>)

  type Table = map<JobId, Job>

  predicate Keyed(t: Table) { forall id <- t :: t[id].id == id }

  // Due, and not leased at this moment.
  predicate Due(job: Job, now: int) { job.nextRunAt <= now && (job.leaseUntil.None? || job.leaseUntil.value < now) }

  // What a claim may take: any of the earliest due jobs, or nothing when none is due.
  predicate ClaimOk(t: Table, now: int, choice: Option<JobId>) {
    match choice
    case None => forall id <- t :: !Due(t[id], now)
    case Some(id) => id in t && Due(t[id], now) && forall k <- t | Due(t[k], now) :: t[id].nextRunAt <= t[k].nextRunAt
  }

  function Leased(job: Job, now: int, leaseMs: nat, leaseId: string): Job {
    job.(leaseUntil := Some(now + leaseMs), leaseId := Some(leaseId))
  }

  datatype Action =
    | Ensure(id: JobId, kind: string, nextRunAt: int, payload: Option<string>)
    | Claim(now: int, leaseMs: nat, leaseId: string, choice: Option<JobId>)
    | Reschedule(id: JobId, nextRunAt: int, attempts: nat, lastError: Option<string>)
    | Remove(id: JobId)

  predicate Allowed(t: Table, a: Action) { a.Claim? ==> ClaimOk(t, a.now, a.choice) }

  function Next(t: Table, a: Action): Table {
    match a
    case Ensure(id, kind, nextRunAt, payload) =>
      if id in t then t else t[id := Job(id, kind, payload, 0, nextRunAt, None, None, None)]
    case Claim(now, leaseMs, leaseId, choice) =>
      if choice.Some? && choice.value in t then t[choice.value := Leased(t[choice.value], now, leaseMs, leaseId)] else t
    case Reschedule(id, nextRunAt, attempts, lastError) =>
      if id in t
      then t[id := t[id].(nextRunAt := nextRunAt, attempts := attempts, leaseUntil := None, leaseId := None,
        lastError := lastError)]
      else t
    case Remove(id) => t - {id}
  }

  function Execute(t: Table, actions: seq<Action>): Table
    decreases |actions|
  {
    if actions == [] then t else Execute(Next(t, actions[0]), actions[1..])
  }

  predicate AllAllowed(t: Table, actions: seq<Action>)
    decreases |actions|
  {
    actions != [] ==> Allowed(t, actions[0]) && AllAllowed(Next(t, actions[0]), actions[1..])
  }

  // ----- leases ---------------------------------------------------------------------------------------

  predicate Releases(a: Action, id: JobId) { (a.Reschedule? || a.Remove?) && a.id == id }

  // While nobody reschedules or removes a leased job, its lease only moves forward.
  lemma {:induction false} LeaseHolds(t: Table, actions: seq<Action>, id: JobId)
    requires AllAllowed(t, actions) && forall a <- actions :: !Releases(a, id)
    requires id in t && t[id].leaseUntil.Some?
    ensures var t' := Execute(t, actions);
      id in t' && t'[id].leaseUntil.Some? && t'[id].leaseUntil.value >= t[id].leaseUntil.value
        && t'[id].nextRunAt == t[id].nextRunAt
    decreases |actions|
  {
    if actions != [] {
      var a := actions[0];
      assert !Releases(a, id);
      LeaseHolds(Next(t, a), actions[1..], id);
    }
  }

  // Two claims of one job with no reschedule or removal between them are more than a lease apart, whatever
  // happens between them and whatever the clocks of the claimers say.
  lemma ClaimsAreApart(t: Table, first: Action, between: seq<Action>, second: Action, id: JobId)
    requires first.Claim? && second.Claim? && first.choice == second.choice == Some(id)
    requires AllAllowed(t, [first]) && AllAllowed(Next(t, first), between)
      && Allowed(Execute(Next(t, first), between), second)
    requires forall a <- between :: !Releases(a, id)
    ensures second.now > first.now + first.leaseMs
  {
    LeaseHolds(Next(t, first), between, id);
  }

  // A job stays, with the kind and payload it was created with, until it is explicitly removed; creating it
  // again changes nothing.
  lemma {:induction false} JobsSurvive(t: Table, actions: seq<Action>, id: JobId)
    requires id in t && forall a <- actions :: !(a.Remove? && a.id == id)
    ensures var t' := Execute(t, actions); id in t' && t'[id].kind == t[id].kind && t'[id].payload == t[id].payload
    decreases |actions|
  {
    if actions != [] {
      assert !(actions[0].Remove? && actions[0].id == id);
      JobsSurvive(Next(t, actions[0]), actions[1..], id);
    }
  }

  // ----- claiming everything that is due ---------------------------------------------------------------

  function DueIds(t: Table, now: int): set<JobId> { set id | id in t && Due(t[id], now) }

  // Successive claims at one moment, and what they took.
  predicate ClaimRun(t: Table, now: int, leaseMs: nat, leaseId: string, choices: seq<JobId>)
    decreases |choices|
  {
    choices != [] ==>
      && ClaimOk(t, now, Some(choices[0]))
      && ClaimRun(Next(t, Claim(now, leaseMs, leaseId, Some(choices[0]))), now, leaseMs, leaseId, choices[1..])
  }

  function AfterClaims(t: Table, now: int, leaseMs: nat, leaseId: string, choices: seq<JobId>): Table
    decreases |choices|
  {
    if choices == [] then t
      else AfterClaims(Next(t, Claim(now, leaseMs, leaseId, Some(choices[0]))), now, leaseMs, leaseId, choices[1..])
  }

  lemma ClaimTakesOne(t: Table, now: int, leaseMs: nat, leaseId: string, id: JobId)
    requires ClaimOk(t, now, Some(id))
    ensures var t' := Next(t, Claim(now, leaseMs, leaseId, Some(id)));
      DueIds(t', now) == DueIds(t, now) - {id} && forall k | k in DueIds(t', now) ::
        t'[k] == t[k] && t[id].nextRunAt <= t[k].nextRunAt
  {
  }

  // Each claim takes a due job that no earlier one took, and they run out after as many as there are.
  lemma {:induction false} ClaimsDrain(t: Table, now: int, leaseMs: nat, leaseId: string, choices: seq<JobId>)
    requires ClaimRun(t, now, leaseMs, leaseId, choices)
    ensures var left := DueIds(AfterClaims(t, now, leaseMs, leaseId, choices), now);
      && (forall k | k in choices :: k in DueIds(t, now) && k !in left)
      && (forall k | k in DueIds(t, now) :: k in left || k in choices)
      && |left| + |choices| == |DueIds(t, now)|
    decreases |choices|
  {
    if choices != [] {
      var id, rest := choices[0], choices[1..];
      var t' := Next(t, Claim(now, leaseMs, leaseId, Some(id)));
      ClaimTakesOne(t, now, leaseMs, leaseId, id);
      ClaimsDrain(t', now, leaseMs, leaseId, rest);
      LeftStaysIn(t', now, leaseMs, leaseId, rest, id);
      assert id in DueIds(t, now);
      assert forall k <- choices :: k == id || k in rest;
    }
  }

  // What is not due now is not due after more claims.
  lemma {:induction false} LeftStaysIn(t: Table, now: int, leaseMs: nat, leaseId: string, choices: seq<JobId>,
      id: JobId)
    requires ClaimRun(t, now, leaseMs, leaseId, choices) && id !in DueIds(t, now)
    ensures id !in DueIds(AfterClaims(t, now, leaseMs, leaseId, choices), now)
    decreases |choices|
  {
    if choices != [] {
      ClaimTakesOne(t, now, leaseMs, leaseId, choices[0]);
      LeftStaysIn(Next(t, Claim(now, leaseMs, leaseId, Some(choices[0]))), now, leaseMs, leaseId, choices[1..], id);
    }
  }

  // No job is claimed twice, and they are claimed in the order they fell due.
  lemma {:induction false} ClaimsInOrder(t: Table, now: int, leaseMs: nat, leaseId: string, choices: seq<JobId>,
      i: nat, j: nat)
    requires ClaimRun(t, now, leaseMs, leaseId, choices) && i < j < |choices|
    ensures choices[i] != choices[j] && choices[i] in t && choices[j] in t
      && t[choices[i]].nextRunAt <= t[choices[j]].nextRunAt
    decreases |choices|
  {
    var id, rest := choices[0], choices[1..];
    var t' := Next(t, Claim(now, leaseMs, leaseId, Some(id)));
    ClaimTakesOne(t, now, leaseMs, leaseId, id);
    ClaimsDrain(t', now, leaseMs, leaseId, rest);
    assert rest[j - 1] in rest;
    if i > 0 { ClaimsInOrder(t', now, leaseMs, leaseId, rest, i - 1, j - 1); }
  }

  // When claiming at a moment comes back empty, every job that was due has been taken: in particular one
  // whose claimer died and whose lease has run out.
  lemma NothingDueIsLeft(t: Table, now: int, leaseMs: nat, leaseId: string, choices: seq<JobId>, id: JobId)
    requires ClaimRun(t, now, leaseMs, leaseId, choices)
      && ClaimOk(AfterClaims(t, now, leaseMs, leaseId, choices), now, None)
    requires id in t && t[id].nextRunAt <= now && (t[id].leaseUntil.Some? ==> t[id].leaseUntil.value < now)
    ensures id in choices
  {
    ClaimsDrain(t, now, leaseMs, leaseId, choices);
    assert id in DueIds(t, now);
    assert DueIds(AfterClaims(t, now, leaseMs, leaseId, choices), now) == {};
  }

  // ----- the runner -------------------------------------------------------------------------------------

  const SWEEP_INTERVAL_MS := 3600000
  const RECOVERY_INTERVAL_MS := 15000
  const RSS_INTERVAL_MS := 900000
  const LEASE_MS := 30000
  const MIN_RETRY_DELAY_MS := 15000
  const MAX_RETRY_DELAY_MS := 300000

  function Power2(n: nat): nat { if n == 0 then 1 else 2 * Power2(n - 1) }

  function Backoff(attempts: nat): nat {
    if MAX_RETRY_DELAY_MS < MIN_RETRY_DELAY_MS * Power2(attempts) then MAX_RETRY_DELAY_MS
      else MIN_RETRY_DELAY_MS * Power2(attempts)
  }

  // The delays: they double from a quarter of a minute on, up to five minutes.
  lemma BackoffIs(attempts: nat)
    ensures Backoff(attempts) ==
      match attempts
      case 0 => 15 * 1000
      case 1 => 30 * 1000
      case 2 => 60 * 1000
      case 3 => 120 * 1000
      case 4 => 240 * 1000
      case _ => 300 * 1000
  {
    if attempts >= 5 { PowersGrow(5, attempts); }
    assert Power2(5) == 2 * Power2(4) && Power2(4) == 2 * Power2(3) && Power2(3) == 2 * Power2(2);
  }

  lemma {:induction false} BackoffGrows(a: nat, b: nat)
    requires a <= b
    ensures MIN_RETRY_DELAY_MS <= Backoff(a) <= Backoff(b) <= MAX_RETRY_DELAY_MS
    ensures b >= 5 ==> Backoff(b) == MAX_RETRY_DELAY_MS
  {
    PowersGrow(0, a);
    PowersGrow(a, b);
    if b >= 5 {
      PowersGrow(5, b);
      assert Power2(5) == 2 * Power2(4) && Power2(4) == 2 * Power2(3);
    }
  }

  lemma {:induction false} PowersGrow(a: nat, b: nat)
    requires a <= b
    ensures 1 <= Power2(a) <= Power2(b)
    decreases b
  {
    if a < b { PowersGrow(a, b - 1); }
    if a == b && a > 0 { PowersGrow(a - 1, b - 1); }
  }

  // What a handler comes back with.
  datatype Handled = Fine | Again(retry: bool) | Failed(message: string)

  // What a run does to the table once its handler has come back; an unknown kind does nothing.
  function Verdict(job: Job, handled: Handled, now: int): Option<Action> {
    if job.kind == "delete-retry" && job.payload.None? then Some(Remove(job.id))
    else if job.kind !in {"sweep", "recovery", "rss", "delete-retry"} then None
    else if handled.Failed?
      then Some(Reschedule(job.id, now + Backoff(job.attempts), job.attempts + 1, Some(handled.message)))
    else if job.kind == "sweep" then Some(Reschedule(job.id, now + SWEEP_INTERVAL_MS, 0, None))
    else if job.kind == "recovery" then Some(Reschedule(job.id, now + RECOVERY_INTERVAL_MS, 0, None))
    else if job.kind == "rss" then Some(Reschedule(job.id, now + RSS_INTERVAL_MS, 0, None))
    else if handled == Again(true) then Some(Reschedule(job.id, now + Backoff(job.attempts), job.attempts + 1, None))
    else Some(Remove(job.id))
  }

  // What the running program does: seed or add jobs, claim, finish a claimed run, or die and start again.
  datatype Event =
    | Seed(id: JobId, kind: string, at: int, payload: Option<string>)
    | Take(now: int, leaseId: string, choice: Option<JobId>)
    | Finish(run: nat, handled: Handled, now: int)
    | Restart

  // The table and the runs under way, each with the job as it was claimed.
  datatype System = System(table: Table, running: seq<Job>)

  function React(s: System, e: Event): System {
    match e
    case Seed(id, kind, at, payload) => s.(table := Next(s.table, Ensure(id, kind, at, payload)))
    case Take(now, leaseId, choice) =>
      if !ClaimOk(s.table, now, choice) || choice.None? then s else
      var table := Next(s.table, Claim(now, LEASE_MS, leaseId, choice));
      System(table, s.running + [table[choice.value]])
    case Finish(run, handled, now) =>
      if run >= |s.running| then s else
      var verdict := Verdict(s.running[run], handled, now);
      System(if verdict.Some? then Next(s.table, verdict.value) else s.table, s.running[..run] + s.running[run + 1..])
    case Restart => s.(running := [])
  }

  function Run(s: System, events: seq<Event>): System
    decreases |events|
  {
    if events == [] then s else Run(React(s, events[0]), events[1..])
  }

  // How long after a recurring job's run its next one is due.
  predicate Every(kind: string, ms: int) {
    (kind == "sweep" && ms == 60 * 60 * 1000) || (kind == "recovery" && ms == 15 * 1000)
    || (kind == "rss" && ms == 15 * 60 * 1000)
  }

  // A run that comes back frees its job. A recurring one is due again after its interval with no attempts counted; a
  // deletion that has to be tried again after a growing delay, and so is any run that failed, with its error; a
  // deletion that is done, or that names no torrent, is removed.
  lemma FinishedRunsAreRescheduled(s: System, run: nat, handled: Handled, now: int, ms: int)
    requires run < |s.running| && s.running[run].id in s.table
    ensures var r := s.running[run]; var job := s.table[r.id]; var table := React(s, Finish(run, handled, now)).table;
      var free := job.(leaseUntil := None, leaseId := None);
      && (Every(r.kind, ms) && !handled.Failed? ==>
            table == s.table[r.id := free.(nextRunAt := now + ms, attempts := 0, lastError := None)])
      && (r.kind == "delete-retry" && r.payload.Some? && handled == Again(true) ==>
            table == s.table[r.id := free.(nextRunAt := now + Backoff(r.attempts), attempts := r.attempts + 1,
                                           lastError := None)])
      && ((Every(r.kind, ms) || (r.kind == "delete-retry" && r.payload.Some?)) && handled.Failed? ==>
            table == s.table[r.id := free.(nextRunAt := now + Backoff(r.attempts), attempts := r.attempts + 1,
                                           lastError := Some(handled.message))])
      && (r.kind == "delete-retry" && (r.payload.None? || handled == Fine || handled == Again(false)) ==>
            table == s.table - {r.id})
  {
  }

  // A job may be taken exactly when it has fallen due, is free of any lease, and none that fell due earlier is
  // free; then it is leased for half a minute.
  lemma TakenJobsAreDue(s: System, now: int, leaseId: string, id: JobId)
    ensures var s' := React(s, Take(now, leaseId, Some(id)));
      var may := id in s.table && s.table[id].nextRunAt <= now
        && (s.table[id].leaseUntil.Some? ==> s.table[id].leaseUntil.value < now)
        && (forall k <- s.table | s.table[k].nextRunAt < s.table[id].nextRunAt ::
              s.table[k].leaseUntil.Some? && now <= s.table[k].leaseUntil.value);
      && (!may ==> s' == s)
      && (may ==>
            && s'.table == s.table[id := s.table[id].(leaseUntil := Some(now + 30 * 1000), leaseId := Some(leaseId))]
            && s'.running == s.running + [s'.table[id]])
  {
  }

  // Of a recurring job every run under way says the same kind.
  predicate Recurs(s: System, id: JobId, kind: string) {
    && kind in {"sweep", "recovery", "rss"} && Keyed(s.table)
    && id in s.table && s.table[id].kind == kind && forall r <- s.running | r.id == id :: r.kind == kind
  }

  lemma StaysRecurring(s: System, e: Event, id: JobId, kind: string)
    requires Recurs(s, id, kind)
    ensures Recurs(React(s, e), id, kind)
  {
    match e {
      case Finish(run, handled, now) =>
        if run < |s.running| {
          var r := s.running[run];
          assert r in s.running;
          var running := s.running[..run] + s.running[run + 1..];
          forall x <- running ensures x in s.running {}
        }
      case _ =>
    }
  }

  // A recurring job is never lost: through overlapping runs, failing handlers, expired leases and restarts
  // it stays in the table.
  lemma {:induction false} RecurringJobsStay(s: System, events: seq<Event>, id: JobId, kind: string)
    requires Recurs(s, id, kind)
    ensures Recurs(Run(s, events), id, kind)
    decreases |events|
  {
    if events != [] {
      StaysRecurring(s, events[0], id, kind);
      RecurringJobsStay(React(s, events[0]), events[1..], id, kind);
    }
  }

  // A deletion retry leaves the table only when its handler asked for no further try, or it never had a
  // torrent to retry.
  lemma RetriesStayUntilDone(s: System, e: Event, id: JobId)
    requires Keyed(s.table) && id in s.table && id !in React(s, e).table
    ensures e.Finish? && e.run < |s.running| && s.running[e.run].id == id && s.running[e.run].kind == "delete-retry"
      && (s.running[e.run].payload.None? || e.handled == Fine || e.handled == Again(false))
  {
  }
}
