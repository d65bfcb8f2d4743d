# Debridarr: a Dafny model of its managed downloads

Debridarr keeps durable records of torrents and usenet jobs that live in an external download client. It
adds, plays, evicts and deletes them from concurrent asynchronous tasks. This project models the parts of
that program whose correctness depends on more than one function, and proves what they promise.

`dafny verify dfyconfig.toml` checks everything.

| files | what they model |
|---|---|
| `protocol.dfy`, `protocol-steps.dfy`, `protocol-safety.dfy`, `protocol-notes.dfy` | the managed-download protocol: preparation, deletion, sweep and toggle as interleaved steps over records, backends and locks; what each step keeps; safety over every run; that the log tells everything |
| `protocol-sequential.dfy`, `protocol-runs.dfy`, `protocol-preparations.dfy`, `protocol-failures.dfy` | the same calls without their awaits, and that a call left alone does just that; which torrents preparations submit and start in every run; what a failed call leaves |
| `protocol-keeps.dfy`, `protocol-keep-races.dfy`, `protocol-sweeps.dfy`, `evictions.dfy` | what becomes of an admin's keep; whole sweeps; the size cap's deletions as runs of the protocol |
| `admission.dfy` | the cap on active downloads, counted and reserved under `$registration` |
| `coordinator.dfy` | the per-key promise lock |
| `pieces.dfy`, `byte-range.dfy`, `serve.dfy` | partial playback: which pieces a span needs, Range headers, the gated read loop |
| `zip-format.dfy`, `zip-archive.dfy`, `zip-writer.dfy` | the streaming ZIP64 writer and a reader that undoes it |
| `bencode.dfy`, `base32.dfy` | the torrent-file walk and magnet links |
| `snapshot.dfy` | the shared cache of backend listings |
| `idempotency.dfy`, `idempotency-stores.dfy` | idempotent creation, and its two stores |
| `jobs.dfy`, `job-stores.dfy` | job leases, what the runner does to them, and the two job stores |
| `pagination.dfy`, `dav.dfy`, `dav-slugs.dfy`, `selection.dfy`, `retention.dfy`, `download-stores.dfy` | cursor pages, the virtual folder tree and its folder names, file selection, the size cap, and the two record stores |
| `wrappers.dfy`, `sets.dfy`, `hashes.dfy`, `texts.dfy`, `arithmetic.dfy`, `bytes.dfy`, `decimals.dfy`, `ordered-map.dfy` | shared vocabulary |

## How to read the model

**Runs.** Code that awaits is a state machine: a task is a program point with its local variables, one step is
the effect of one await and the code up to the next one, and `Execute` runs any list of steps. What the world
decides (whether a call fails, whether a failed call took effect all the same, what a file list holds, the
clock, which task moves next, when the process crashes) is in the step, so a statement about every list of
steps is a statement about every interleaving. Objects that update their fields are classes whose methods are
proved equal to those steps.

**The protocol.** `ManagedDownloads.Advance` is the program: what one task does next, given only its own
hash in the store and the backend and the two locks it may ask for. `Next` lets any task move, starts
tasks, crashes the process, lets the client's user change torrents, and lets a keep or a lease renewal write a
record at any moment. Keeps race because `setKept` locks on the inner store while every other caller locks on
the webhook wrapper (`src/state/json/downloads.ts:78`, `src/webhooks/dispatch.ts:37-42`); renewals take no lock at
all. Both drivers are covered: `SetKept` is the JSON driver's keep, which changes the record when its write has its
turn, and `LateKeep` is that of the default SQLite driver when a section's write is queued in front of it, which puts
a whole earlier record back. A keep is refused while the stored record is being deleted; one accepted before may
still land behind the deleting write. Markers are fresh values that a client's user cannot guess. The history log
records what was seen, judged and done, so that "inside one exclusive section, after a lookup that proves it" can be
said of every change; `ManagedNotes` proves that the log is true and leaves no change out.

What the program does when nothing interferes is written a second time in `ManagedSequential`, as functions from the
record and the torrent found to those left, without program points, locals or awaits.
`ManagedRuns.UndisturbedCallsAreSequential` says that each call, from its start to its end and whatever it finds, comes
to just that.

**Where the code does not keep a promise.** The code was kept, the exact condition proved, and a concrete
run given:

- A keep can be overwritten by a section that has already read the record. `KeepSurvivesTheNextWrite` says, for
  every state of every run and every program point, when it is: the writes of an intent, an adoption, a conflict,
  a managed record and a sweep's mark write what was read when the section was entered or written by it last, so a
  keep that lands anywhere before them is lost; the writes of a reserved slot, a merged selection, a failure and a
  deletion read the record again when they are queued, so only a keep that lands between that and the write is lost.
  For an eviction this means: a keep that lands before the judgement is honoured if the record has an owner
  (`KeepBeforeTheCheckIsHonoured`, for everything that may happen afterwards), and otherwise lost when the record is
  adopted on the way (`KeepAcrossAnAdoptionIsLost`); one that lands after it is overwritten (`KeepAfterTheCheckIsLost`)
  or stored for nothing (`KeepBeforeTheRemovalIsTooLate`). `KeepRacesEviction` and `KeepRacesAdoption` are runs.
- The SQLite driver's keep can undo the write it was queued behind. `NoOrphanedTorrents`, `RemovalsAreIdleAndEligible`,
  `IntentIsDurableBeforeSubmit` and the exclusion in `RunKeepsInv` hold all the same. A change or a forgetting is not
  by the stored owner exactly when a keep undid the section's adoption (`undone` in `OnlyProvenTorrentsChange` and
  `ForgottenOnlyWhenAbsent`), and a preparation's record is not as promised exactly when the record put back behind
  its last write is not (`over` in `PreparedRecordsAreManaged`). `LateKeepUndoesAnAdoption` and
  `LateKeepUndoesAPreparation` are the witnesses; `JsonRunsKeepEveryPromise` says that with the other driver nothing
  is excepted.
- Pausing and resuming take no lock: the torrent is proved to be ours when it is looked up (`TogglesAreProven`), not
  when it is started or stopped (`ToggleTouchesAForeignTorrent`).
- The sweep drops a queued record as soon as it finds no torrent for it, although `docs/api-v1.md:57-60` says a
  later slot admits it (`SweepOfAbsentTorrent`, an if-and-only-if).
- The download cap can be exceeded: a replay without a selection picks another file and asks for no slot
  (`PickExceedsCap`), and an admission that counts with a list fetched earlier overlooks a torrent that a selection
  has reopened meanwhile (`StaleListExceedsCap`). `ExceededExactly` says for every step from every state within the
  cap when it happens; `AdmissionCap` bounds the excess in every run by the number of steps that slip past a count;
  `RegistrationsKeepTheCap` says that registrations alone never exceed it.
- A call that joined a computation is answered although the response may never be stored; the next call then
  computes again (`AnsweredThenComputedAgain`); `StoredIsRemembered` says exactly when it does not.
- Two files of one path: a folder lists the last, the path opens the first (`TwinsDisagree`).
- Folder names promised unique need not be: the full-id fallback can itself be taken (`LastResortCanBeTaken`). With
  infohashes for ids that happens exactly when an earlier transfer's title is the later one's full-id name and its
  short-id name is taken as well (`SlugsAreUniqueUnlessBorrowed`).
- The SQLite driver's `setKept` undoes a renewal or a removal queued in front of it; the JSON driver's does not
  (`KeepsAgree`, `LateKeepUndoes`).
- The two priority calls leave exactly the wanted files selected only if no flag changed behind the listing
  (`PrioritiesAreExact`).

## Model

| member | source | states |
|---|---|---|
| `ManagedSafety.NoOrphanedTorrents` | src/downloads/manager.ts:169-188 | in every state of every run, crashes and keeps of either driver included, each torrent carrying a marker drawn by a preparation has a stored record for its hash and backend with that same marker |
| `ManagedSafety.OnlyProvenTorrentsChange` | src/downloads/ownership.ts:7-33 | every remove, start, stop, file selection or tuning call of a preparation, deletion or sweep follows, within one exclusive section of its hash, a lookup that shows the scope and marker of the owner it claims; that is the owner of the record stored at the time of the call, unless, and only if, a late keep undid the adoption of this section |
| `ManagedSafety.TogglesAreProven` | src/application/transfers.ts:259-275 | every start or stop by a pause or resume follows its own lookup that shows the scope and marker of an owner it had read before from a managed store record |
| `ManagedSafety.OnlyLegacyTorrentsAreTagged` | src/downloads/ownership.ts:13-23 | a marker is added to a torrent only for a stored record without an owner that names a file, after a lookup in the same section that shows it in a scope of the program |
| `ManagedNotes.EventsAreTrue` | src/downloads/manager.ts:123-286 | whatever a step adds to the log (who saw, judged, claimed or was stored what) was true of the state it was taken in |
| `ManagedNotes.EveryChangeIsNoted` | src/downloads/manager.ts:123-286 | a step changes at most the torrent of its own hash in its own backend, and then the log holds its call: so the statements about calls are about every change |
| `ManagedNotes.PlaybackIsReserved` | src/downloads/manager.ts:274-276 | a title counts as played from the very step that hands it over for playback, and no other step of a task changes what is played |
| `ManagedNotes.MarkersAreRemembered` | src/downloads/ownership.ts:6 | the markers `NoOrphanedTorrents` speaks of are exactly those preparations draw: no other step of a task adds to them, and the one drawn is in the record about to be written |
| `ManagedSafety.RemovalsAreIdleAndEligible` | src/downloads/deletion.ts:23-27 | every removal call is made while nobody plays the title, after the rule its deletion was called with accepted the record stored at that moment of the same section, for a torrent looked up in it and while nobody played it; the rules are written out in `OnlyWhatMayGoIsRemoved` |
| `ManagedSafety.ForgottenOnlyWhenAbsent` | src/downloads/deletion.ts:15-30 | a record disappears only after a backend answered, in the same section, that the torrent is absent; it is the backend of the stored owner, unless, and only if, a late keep undid the adoption of this section |
| `ManagedSafety.IntentIsDurableBeforeSubmit` | src/downloads/manager.ts:170-184 | when a submit is made the stored record already names that backend and that marker |
| `ManagedSafety.PreparedRecordsAreManaged` | src/downloads/manager.ts:264-276 | a preparation that succeeds hands over a file that its stored, managed record names and has among its selected files, if and only if no late keep has put a record back over its last write that is not so; that its torrent has been started is in `PreparedTorrentsAreStarted` |
| `ManagedSafety.RunKeepsInv` | src/downloads/coordinator.ts:7-20 | the protocol's invariant, with one task per hash section and one in `$registration`, survives every run |
| `ManagedRuns.UndisturbedCallsAreSequential` | src/downloads/manager.ts:123-286 | a preparation, deletion, sweep of one hash, pause or resume that is left alone and whose calls go through ends, from whatever record, torrent, file list and client it finds, with exactly the record, the torrent, the reply and the playback that the same call has without its awaits (`ManagedSequential.Leaving`); it takes the lock exactly when that call may enter, and nothing changes at any other hash or client |
| `ManagedRuns.AdditionsEndRunning` | src/downloads/manager.ts:123-277 | an addition with a slot and a file ends with a running torrent that carries the stored owner's marker and a managed record that names the picked file and covers every chosen one; a new record expires after its retention, an earlier one stays as old, as long, as kept and whose it was, and loses nothing it had selected |
| `ManagedRuns.UnionAddsOnce` | src/downloads/manager.ts:247-263 | a file joins the protocol's selection behind what was selected before, unless its index was; `Selection` has the whole merge |
| `ManagedRuns.BusyAdditionsAreQueuedExactly` | src/downloads/manager.ts:153-167 | an addition without a slot leaves no torrent, and a queued record with an owner if and only if it asked for that and is the store's; otherwise it leaves everything as it was |
| `ManagedRuns.DeletionsAreExact` | src/downloads/deletion.ts:7-32 | a deletion of an owned torrent that nobody plays leaves neither record nor torrent if the title may go by its rule, and both as they were if it may not |
| `ManagedRuns.OnlyWhatMayGoIsRemoved` | src/retention/sweeper.ts:28-34 | in every run, before every removal and in the same section, the judged stored record was being deleted already, or was not kept and had failed, or had expired with its ratio reached or a positive grace used up; of the size cap it was not kept and of the listed expiry |
| `ManagedRuns.JudgesExactly` | src/downloads/deletion.ts:23-26 | in every state a deletion that judges goes on to write just that record as being deleted if nobody plays the title and it may go so, and otherwise ends and changes no record |
| `ManagedRuns.LegacyTitlesAreAdoptedExactly` | src/downloads/ownership.ts:13-33 | a sweep gives a record without an owner one, with a new marker at the torrent, if and only if the torrent is in one of the two scopes, the record names a file that it holds, and the marker shows at that hash; any other such record becomes a conflict |
| `ManagedRuns.TogglesAreExact` | src/application/transfers.ts:259-275 | a pause or resume stops or starts exactly the torrent of a managed store record that owns it, and changes no record |
| `ManagedPreparations.PreparedTorrentsAreStarted` | src/downloads/manager.ts:190-276 | in every run, every hand-over is of the file picked in its section, the requested one if one was; between the section's first sight of the torrent, which is the one the code goes by, and the hand-over the preparation starts it, once, if it was stopped and it or the picked file was incomplete, and otherwise not at all |
| `ManagedPreparations.OnlyAbsentTorrentsAreSubmitted` | src/downloads/manager.ts:128-186 | in every run a torrent is submitted only for a request for nothing in particular that may add one, after a lookup in the same section has shown that there is none and none has shown one |
| `ManagedFailures.FailedCallsStop` | src/downloads/manager.ts:277-285 | in every state, a call that fails changes no record and ends its task, unless it is one of a preparation from the choice of the file on, which goes on to record its failure; lack of room for a new selection is not recorded |
| `ManagedFailures.FailuresAreRecorded` | src/downloads/manager.ts:282-284 | what is recorded: failed for good if nothing was ever selected and the wanted file is not there, and otherwise as it was |
| `ManagedFailures.LocksAreWaitedFor` | src/downloads/coordinator.ts:16 | while another task is in the section of its hash or registers, a task that asks for that lock changes nothing |
| `ManagedFailures.UnconfirmedRemovalsAreKept` | src/downloads/deletion.ts:27-28 | a removal after which the client still shows the torrent leaves the record |
| `ManagedFailures.RefusedAtTheDoor` | src/downloads/manager.ts:122-124 | a preparation of a title that is being deleted is refused before it waits for the lock, and an aborted one does not take it |
| `ManagedFailures.MissingTorrentsAreWaitedFor` | src/downloads/manager.ts:185-186 | a submitted torrent is waited for until it shows or the waiting is over, and then the stored intent stays |
| `ManagedFailures.TuningIsOptional` | src/downloads/manager.ts:229-240 | tuning calls change neither record nor path, whether they fail or not |
| `ManagedFailures.SelectionsAreApplied` | src/downloads/manager.ts:267-269 | what is not wanted is left out first, and then what is wanted is taken in |
| `ManagedSweeps.SweepSettlesSeeding` | src/retention/sweeper.ts:83-93 | from its start to its end, with every call going through, a sweep leaves a complete torrent of its record running exactly while its ratio is below the target, and one that is incomplete or being deleted alone |
| `ManagedSweeps.SweepOfAbsentTorrent` | src/retention/sweeper.ts:77-82 | a sweep that finds no torrent keeps the record if and only if it is registering or being played, so queued records are dropped |
| `ManagedSweeps.ToggleTouchesAForeignTorrent` | src/application/transfers.ts:269-274 | a concrete interleaving: what a resume starts is a torrent the client's user has put in the place of the one that was proved |
| `ManagedKeeps.KeepSurvivesTheNextWrite` | src/state/json/downloads.ts:76-86 | for every state of every run, every open section and everything that may happen up to its next record write: the keep is still stored behind that write if and only if the section had not yet read what it writes there, or had read the same flag |
| `ManagedKeepRaces.KeepBeforeTheCheckIsHonoured` | src/downloads/deletion.ts:22-25 | a keep that lands before the judgement of a record with an owner stops the eviction for good: in every continuation without another keep of that record it never comes to a removal |
| `ManagedKeepRaces.KeepAfterTheCheckIsLost` | src/downloads/deletion.ts:25-27 | for every such state: a keep between the judgement and the deleting write is overwritten by the record as judged, and the torrent is gone |
| `ManagedKeepRaces.KeepBeforeTheRemovalIsTooLate` | src/downloads/deletion.ts:26-27 | for every such state: a keep between the deleting write and the removal stays stored, and the torrent is gone |
| `ManagedKeepRaces.KeepAcrossAnAdoptionIsLost` | src/downloads/ownership.ts:20-25 | for every such state: a keep in front of the write of an adoption is overwritten by it, the judgement accepts the old flag, and the torrent is gone |
| `ManagedKeepRaces.KeepRacesEviction` | src/downloads/deletion.ts:22-27 | from an ordinary start, an eviction of a record that is not kept reaches the point where a keep is lost |
| `ManagedKeepRaces.KeepRacesAdoption` | src/downloads/ownership.ts:13-25 | from a start with a legacy record, an eviction reaches the point where the adoption overwrites a keep |
| `ManagedKeepRaces.LateKeepUndoesAnAdoption` | src/state/sqlite/downloads.ts:56-64 | for every such state: a keep queued behind the write of an adoption leaves the stored record without an owner again |
| `ManagedKeepRaces.LateKeepUndoesAPreparation` | src/state/sqlite/downloads.ts:56-64 | for every such state: behind the last write of a preparation it leaves a record that is not managed, while the file is handed over |
| `ManagedKeepRaces.JsonRunsKeepEveryPromise` | src/state/json/downloads.ts:76-86 | in every run without such keeps each change is of the stored owner's torrent, each record is forgotten by its own backend's answer, and each preparation leaves a managed record with its file |
| `SlotAdmission.AdmissionCap` | src/downloads/manager.ts:141-177 | in every run from a state within the caps, whatever the tasks and the schedule, the records of an origin that are registering, missing or incomplete exceed its cap by no more than the number of steps that slipped past a count, and without the records that slipped they never do |
| `SlotAdmission.RegistrationsKeepTheCap` | src/downloads/manager.ts:141-188 | however registrations of any number of hashes interleave, neither cap is ever exceeded |
| `SlotAdmission.ExceededExactly` | src/downloads/manager.ts:210-222 | from any state within the cap of an origin, a step exceeds it if and only if the cap is reached and the step makes a counted record active outside `$registration`, or saves a record that was not active |
| `SlotAdmission.NextKeepsInv` | src/downloads/manager.ts:143-177 | every step keeps, but for the records that slipped, the caps, the mutual exclusion and the room that a counting task has established |
| `SlotAdmission.AdmittedExactly` | src/downloads/manager.ts:143-167 | in every state a request that counts goes on to save if and only if fewer hashes than the cap, its own aside, have a record of this client and origin that is not queued and is registering, unlisted or listed incomplete, the cap being the store's setting or ten; otherwise it is queued exactly for a store registration that asked for it, and refused in every other case |
| `SlotAdmission.FreeSlotIsUsed` | src/downloads/manager.ts:139-188 | left alone with a free slot, and with every call going through, a registration ends with its torrent added and its record settled |
| `SlotAdmission.EntersExactly` | src/downloads/manager.ts:126-140 | a request enters exactly if what it asks for is there: no torrent and no foreign record for a registration, a settled store record with its torrent for a new file of a store link, a record with its torrent otherwise |
| `SlotAdmission.FailuresEnd` | src/downloads/manager.ts:141-187 | a call that fails ends the request and writes no record |
| `SlotAdmission.WaitingIsRecorded` | src/downloads/manager.ts:153-165 | a request that has to wait leaves exactly a queued record of its origin and client |
| `SlotAdmission.PickExceedsCap` | src/downloads/manager.ts:207-211 | a concrete run: a replay without a selection exceeds a cap of one |
| `SlotAdmission.StaleListExceedsCap` | src/downloads/manager.ts:144-153 | a concrete run: a count made with a list that has gone stale exceeds a cap of one |
| `Coordination.ExclusiveFifo` | src/downloads/coordinator.ts:9-19 | in every run at most one work per key is running, works of a key begin in call order and once each, and when one begins all earlier ones are over, although lock entries are deleted and recreated |
| `Coordination.PendingIsBounded` | src/downloads/coordinator.ts:12-15 | a key never has more than 32 pending calls, refuses exactly at 32, and has a lock entry exactly while it has pending calls |
| `Coordination.NoDeadlock` | src/downloads/manager.ts:123-187 | with hash sections that wait for nested `$registration` calls, while any call is pending some work can begin, finish or be counted out |
| `Coordination.EveryCallRuns` | src/downloads/coordinator.ts:16-19 | after the last arrival every interleaving is over within a computed number of steps, and when nothing can move every accepted call has run and every lock is gone |
| `Coordination.DrainingIsShort` | src/downloads/coordinator.ts:18-19 | each step of a draining run uses up some of the work that is left |
| `Coordination.EntersExactly` | src/downloads/coordinator.ts:12-17 | in every run a call is accepted if and only if fewer than 32 are pending on its key, and is queued last; a refused one changes nothing |
| `Coordination.NestsExactly` | src/downloads/manager.ts:141 | the same of a running work's own call of `$registration`, which it then waits for; refused, the work goes on with one call less |
| `Coordination.StartsExactly` | src/downloads/coordinator.ts:16-17 | in every run a queued work can begin if and only if all earlier works of its key are over |
| `Coordination.SettlesAndLeaves` | src/downloads/coordinator.ts:18-19 | a running work that waits for no call of its own can settle |
| `Coordination.Coordinator.Enter` | src/downloads/coordinator.ts:9-17 | the synchronous part refuses a busy key and changes nothing, or chains and counts the call |
| `Coordination.Coordinator.Begin` | src/downloads/coordinator.ts:16 | a work begins once the promise it is chained to has settled |
| `Coordination.Coordinator.Release` | src/downloads/coordinator.ts:19 | the finally block counts the call out and deletes the entry with the last one |
| `PieceLayout.AcceptedIffConsistent` | src/playback/pieces.ts:60-63 | the span check accepts a layout if and only if some offset of the file in its first piece explains it |
| `PieceLayout.OffsetsAreConsistent` | src/playback/pieces.ts:48-50 | the offsets that explain a layout are exactly those between the two computed bounds |
| `PieceLayout.RequiredPiecesCover` | src/playback/pieces.ts:45-52 | for every such offset the piece of every requested byte is among the required pieces |
| `PieceLayout.RequiredPiecesAreExact` | src/playback/pieces.ts:45-52 | the required pieces lie inside the file's range and both ends are attained by some offset |
| `PartialPlayback.OpenGate` | src/playback/pieces.ts:54-65 | a gate is opened exactly when the reported pieces can hold the file |
| `PartialPlayback.Gate.Refresh` | src/playback/pieces.ts:73-85 | a probe replaces the cached states, empties them on a retryable failure or a short list, or ends the playback |
| `PartialPlayback.Gate.Await` | src/playback/pieces.ts:67-93 | turn by turn, as a relation with the code's own numbers: an abort is noticed first, the client is asked only with an empty cache or half a second after its last answer, the gate opens exactly on a turn whose cache shows every piece the span may lie in, and times out exactly on one that does not at the deadline; and then all those pieces have been verified |
| `PartialPlayback.FlawlessTurn` | src/playback/pieces.ts:67-93 | where the client reports every piece the first turn opens the gate |
| `PartialPlayback.ReadChunk` | src/playback/serve.ts:92-103 | however short the reads, a chunk that is completed equals the finished file's bytes; each read continues where the one before it ended, after its pieces were verified, while nothing was aborted and the deadline had not passed; every other outcome has the cause the code gives it |
| `PartialPlayback.SendChunk` | src/playback/serve.ts:87-106 | a chunk that is handed over is exactly its part of the finished file; an abort is noticed before the gate is asked |
| `PartialPlayback.SendGated` | src/playback/serve.ts:86-107 | what has been written is always a prefix of the requested bytes and whole chunks of 65536 of them, all of them on a normal end, and not all of them when a gate ended it; no chunk is written before the connection has taken the one before it, which is waited for two minutes and no longer; every thrown error has its cause |
| `PartialPlayback.AwaitFlush` | src/playback/serve.ts:105-112 | the wait ends at the first moment at which the connection has taken what was written, or is gone, or the time limit, if there is one, has passed |
| `PartialPlayback.ServeFile` | src/playback/serve.ts:57-113 | the head is 200 with the whole size, 416 without content, or 206 with the length and the bounds of the range; a normal response has exactly Content-Length bytes of the selected range and its connection has taken all of them, one whose data went missing fewer, one cut off by its connection a prefix of them; no byte was read before every piece it could lie in was verified; and with nothing in the way no response is cut off |
| `ByteRanges.MatchIsExact` | src/playback/serve.ts:24-27 | the expression's groups are found exactly when the header has that form |
| `ByteRanges.MatchIsUnique` | src/playback/serve.ts:24-26 | the two groups are determined by the header |
| `ByteRanges.SelectIsTheSelection` | src/playback/serve.ts:27-40 | the answer is the interval of exactly the bytes the range selects under section 14.1.2 of RFC 9110, and a refusal when it selects none |
| `ByteRanges.ParseRangeMeaning` | src/playback/serve.ts:22-41 | for every header: none means the whole file; white space, `bytes=`, digits, `-`, digits and white space mean exactly the bytes that range selects, or a refusal when it selects none; anything else is refused |
| `Texts.TrimStrips` | src/playback/serve.ts:24 | white space around a text that neither begins nor ends with any goes, and nothing else |
| `Texts.TrimParts` | src/downloads/torrentFile.ts:108 | every text is what trimming leaves of it between two stretches of white space |
| `Texts.BlankIsWhiteSpace` | src/playback/serve.ts:24 | white space is what `String.prototype.trim` of ECMA-262 strips, character by character |
| `Checksum.ChunksCompose` | src/archive/zip.ts:90-100 | checksumming a stream chunk by chunk gives the checksum of the whole |
| `Checksum.ChecksumOfA` | src/archive/zip.ts:90-100 | the polynomial, shifts and complements are those of section 4.4.7 of the PKWARE APPNOTE, as the published checksum of one byte shows |
| `ZipRecords.NumberOfLittleEndian` | src/archive/zip.ts:66-83 | a number that fits its width reads back from its little-endian bytes |
| `ZipRecords.DecodeEncoded` | src/archive/zip.ts:72-83 | a reader that knows only the widths recovers every field of a record |
| `ZipArchive.ListingUndoesWriter` | src/archive/zip.ts:118-184 | a reader that takes signatures, versions, flags and methods from the APPNOTE and finds its way by end record, locator, ZIP64 record and directory recovers exactly the names, sizes, checksums, offsets, times and dates, in order, each member stored and with a descriptor |
| `ZipArchive.DataUndoesWriter` | src/archive/zip.ts:59-113 | at each recorded offset such a reader, which gives the bytes as they stand only for method 0, finds a local header that agrees with the directory in name, method, flags, version, time and date, exactly that file's data, and a descriptor that matches both |
| `ZipArchive.MemberReads` | src/archive/zip.ts:85-110 | wherever a written member stands, its data reads back |
| `ZipArchive.CentralReads` | src/archive/zip.ts:121-149 | wherever a central record stands, its entry reads back through the ZIP64 extra field, with the position of the next |
| `ZipWriting.Store` | src/archive/zip.ts:66-83 | writing a number at an offset of a buffer leaves what is in front of it alone |
| `ZipWriting.MakeLocalHeader` | src/archive/zip.ts:72-83 | the writes at literal offsets fill the buffer with exactly the record of section 4.3.7 of the PKWARE APPNOTE that the reader of `DataUndoesWriter` reads |
| `ZipWriting.MakeLocalExtra` | src/archive/zip.ts:66-70 | the same for the ZIP64 extra field of section 4.5.3 |
| `ZipWriting.MakeDescriptor` | src/archive/zip.ts:105-109 | the same for the data descriptor of section 4.3.9 |
| `ZipWriting.MakeCentralHeader` | src/archive/zip.ts:128-145 | the same for the central header of section 4.3.12, as read in `ListingUndoesWriter` |
| `ZipWriting.MakeCentralExtra` | src/archive/zip.ts:121-126 | the same for its ZIP64 extra field |
| `ZipWriting.MakeZip64End` | src/archive/zip.ts:154-164 | the same for the ZIP64 end record of section 4.3.14 |
| `ZipWriting.MakeLocator` | src/archive/zip.ts:167-171 | the same for the locator of section 4.3.15 |
| `ZipWriting.MakeEnd` | src/archive/zip.ts:174-182 | the same for the end record of section 4.3.16 |
| `ZipWriting.ZipWriter.Stream` | src/archive/zip.ts:90-101 | the chunks are sent in order, with their total checksum and length |
| `ZipWriting.ZipWriter.AddFile` | src/archive/zip.ts:59-113 | a file is added exactly when its name and size fit, it is not empty and its stream has the announced size, whatever it yields; otherwise entries are unchanged |
| `ZipWriting.ZipWriter.PushDirectory` | src/archive/zip.ts:119-150 | the directory sent is the records of all entries, in order |
| `ZipWriting.ZipWriter.PushEnd` | src/archive/zip.ts:151-183 | the three end records carry the count, size and positions of the directory |
| `ZipWriting.ZipWriter.Finish` | src/archive/zip.ts:118-184 | everything sent, from the first file on, is the archive that the reader above undoes |
| `Bencode.SkipUndoesEncode` | src/downloads/torrentFile.ts:29-58 | at the encoding of any value, in any surroundings, skipping ends exactly behind it if it is nested at most 64 deep, and fails otherwise |
| `Bencode.SkipsExactlyEncodings` | src/downloads/torrentFile.ts:29-58 | on any bytes at all the walk succeeds if and only if a value nested at most 64 deep stands there, encoded as BEP 3 has it but for how a length may be spelled, and ends exactly behind it |
| `Bencode.DigestIsExact` | src/downloads/torrentFile.ts:67-87 | any file at all has a digest if and only if it begins as a dictionary whose pairs the walk can pass lead to an `info` key with a value behind it, and then the digest is taken over exactly that value's encoding |
| `Bencode.NameIsExact` | src/downloads/torrentFile.ts:92-116 | any file at all has a name if and only if behind that key begins a dictionary whose pairs lead in the same way to a `name` key with a string behind it, and then it is that string |
| `Bencode.InfoHashIsOverTheInfoValue` | src/downloads/torrentFile.ts:67-87 | the digest is taken over exactly the encoding of the value of the first `info` key, whatever follows the dictionary |
| `Bencode.NameIsOfTheInfoDictionary` | src/downloads/torrentFile.ts:92-116 | the bytes the name is made of are the text under the first `name` key of the first `info` dictionary, and absent in every other case |
| `Bencode.SkipAppended` | src/downloads/torrentFile.ts:29-58 | for any bytes at all, where a value ends does not depend on what comes after it |
| `Bencode.Skip` | src/downloads/torrentFile.ts:29-58 | for any bytes at all, a successful skip moves strictly forward and not past the end |
| `Bencode.NumeralsSpell` | src/downloads/torrentFile.ts:10-13 | every length has a spelling that the length test accepts |
| `Bencode.Cursor.ReadLength` | src/downloads/torrentFile.ts:7-16 | the shared cursor reads a length and stands behind the colon, or fails as the specification does |
| `Bencode.Cursor.ReadStringSpan` | src/downloads/torrentFile.ts:18-25 | the cursor passes one string, or fails as the specification does |
| `Bencode.Cursor.SkipValue` | src/downloads/torrentFile.ts:29-58 | the recursive walk with the shared cursor succeeds and ends exactly where the specification does, for any bytes |
| `Bencode.Cursor.SkipToEnd` | src/downloads/torrentFile.ts:33-47 | so do the loops over a dictionary's pairs and a list's items |
| `Bencode.SeekKey` | src/downloads/torrentFile.ts:72-83 | the loop stands behind the first wanted key, or there is none it can reach |
| `Bencode.ParseInfoHash` | src/downloads/torrentFile.ts:67-87 | the bytes digested are those of the specification, for any bytes |
| `Bencode.ParseTorrentName` | src/downloads/torrentFile.ts:92-116 | for any bytes there is a name if and only if those bytes, decoded, are more than white space, and then it is what stands within white space there |
| `Base32.Decode` | src/downloads/magnet.ts:3-18 | the loop whose 32-bit accumulator wraps around gives the bytes of the exact base32 number, for every string |
| `Base32.ReachesMore` | src/downloads/magnet.ts:7-16 | one more digit keeps the wrapped accumulator congruent to the exact number and the bytes equal to its whole bytes |
| `Base32.DecodeUndoesEncode` | src/downloads/magnet.ts:3-18 | every 20-byte hash is what its spelling under section 6 of RFC 4648 decodes to |
| `Base32.Base32Decodes` | src/downloads/magnet.ts:30 | 32 digits always decode, so returning at the first base32 spelling loses no later hash |
| `Base32.MagnetInfoHash` | src/downloads/magnet.ts:25-32 | the loop returns the hash of the first parameter that has one |
| `Base32.HashesAreCanonical` | src/downloads/magnet.ts:21-33 | whatever the link, a hash that is found is 40 lower-case hexadecimal digits |
| `Base32.SpellingsAgree` | src/downloads/magnet.ts:26-30 | the hexadecimal and the base32 spelling of a hash give the same record key |
| `Base32.HashesAreFoundExactly` | src/downloads/magnet.ts:26-30 | a parameter named `urn:btih:` in any case gives a hash if and only if its value is 40 hexadecimal digits, which it then is in lower case, or 32 base32 digits |
| `Base32.NothingElseIsFound` | src/downloads/magnet.ts:26 | no other parameter gives one |
| `Base32.FirstHashIsFirst` | src/downloads/magnet.ts:25-32 | of several parameters the first that gives a hash decides |
| `SnapshotCache.ReadersAreFresh` | src/backends/snapshot.ts:14-30 | in every run a reader returns only a list of its own client that was requested after the last invalidation before the reader began |
| `SnapshotCache.FlightsAreShared` | src/backends/snapshot.ts:18-27 | while the cache keeps hold of them at most one list per client is in flight, and whoever reads meanwhile waits for it and requests none |
| `SnapshotCache.OnlyThenDropped` | src/backends/snapshot.ts:26-37 | a list in flight is let go of only by an invalidation, by clearing, or by a full cache |
| `SnapshotCache.FoundListsAreRecent` | src/backends/snapshot.ts:19-21 | in every run a reader that did not send the request itself returns its list within five seconds of its arrival |
| `SnapshotCache.ResumesExactly` | src/backends/snapshot.ts:20-29 | in every state a reader whose list has arrived returns it if and only if it sent the request itself or the list is no older than five seconds; otherwise it joins the list that has taken its place, or sends the one request there is to send |
| `SnapshotCache.FailuresAreDropped` | src/backends/snapshot.ts:28-29 | a reader whose list failed fails, and drops it exactly if it had sent the request and the list is still the shared one |
| `SnapshotCache.OneListServesBoth` | src/backends/snapshot.ts:17-30 | two readers of a client of which nothing is cached send one request, and within five seconds of its arrival both return its list |
| `SnapshotCache.CacheIsBounded` | src/backends/snapshot.ts:26-27 | the cache never holds more than 32 lists |
| `SnapshotCache.RunKeepsInv` | src/backends/snapshot.ts:17-38 | the cache's invariant survives every run |
| `SnapshotCache.Snapshots.Request` | src/backends/snapshot.ts:24-27 | the code from the list request to the await makes room, caches the promise and waits for it |
| `SnapshotCache.Snapshots.Read` | src/backends/snapshot.ts:17-20 | the code up to the first await is a step of the machine above |
| `SnapshotCache.Snapshots.Resume` | src/backends/snapshot.ts:20-29 | the code behind the await is one too: return, read again, request again, or drop the failed promise |
| `SnapshotCache.Snapshots.Invalidate` | src/backends/snapshot.ts:32-34 | and so is an invalidation |
| `Idempotency.OneComputationAtATime` | src/api/v1/idempotency.ts:27-42 | in every run, across crashes, two calls of one key never compute at once, and a call that comes meanwhile joins and computes nothing |
| `Idempotency.ReplayedUntilForgotten` | src/api/v1/idempotency.ts:25-38 | once a response is stored, until it is a day old or evicted no computation of its key begins and every call replays it, whatever else happens |
| `Idempotency.StoredIsRemembered` | src/api/v1/idempotency.ts:35-41 | after the put the key is remembered, with the computed response, if and only if the put succeeded within a day |
| `Idempotency.AnsweredThenComputedAgain` | src/api/v1/idempotency.ts:29-41 | a concrete run: one caller is answered, the put fails, and the next caller computes again |
| `Idempotency.StoreIsBounded` | src/state/json/idempotency.ts:60-66 | in every run the store holds at most 500 responses |
| `Idempotency.PutIsBounded` | src/state/sqlite/idempotency.ts:25-35 | a put into a store of at most 500 leaves at most 500 |
| `Idempotency.FoundForADay` | src/state/sqlite/idempotency.ts:18-23 | a stored response is found if and only if it is no older than a day |
| `Idempotency.PutKeepsTheRest` | src/state/json/idempotency.ts:60-78 | a put leaves every other live response as it is, but for at most one, and that only if the store holds 500 of them |
| `Idempotency.KeptForADay` | src/api/v1/idempotency.ts:34-41 | a computed response whose put goes through is found until a day after and not a moment longer, and its key is no longer in flight |
| `Idempotency.FailuresAreNotStored` | src/api/v1/idempotency.ts:34-41 | a computation that fails stores nothing: its call and those that joined it throw, and the next call computes |
| `Idempotency.FollowersShareTheResult` | src/api/v1/idempotency.ts:27-31 | a call that joined waits for the computation and comes back with exactly what that did |
| `IdempotencyStores.LiveIsPruned` | src/state/json/idempotency.ts:62 | the pruning loop leaves exactly the rows that are not a day old |
| `IdempotencyStores.JsonStore.Get` | src/state/json/idempotency.ts:53-58 | a lookup finds exactly the live row, and deletes an expired one |
| `IdempotencyStores.JsonStore.Put` | src/state/json/idempotency.ts:60-78 | a put prunes, gives up the key set first when full and the key is new, and leaves the old rows if the document is not written |
| `IdempotencyStores.SqliteStore.Get` | src/state/sqlite/idempotency.ts:18-23 | the same lookup over the table |
| `IdempotencyStores.SqliteStore.Put` | src/state/sqlite/idempotency.ts:25-35 | the same abstract put, giving up an oldest row |
| `Jobs.ClaimsAreApart` | src/state/json/jobs.ts:58-70 | two claims of one job without a reschedule or removal between them are more than the lease apart, whatever happens between and whatever the claimers' clocks say |
| `Jobs.LeaseHolds` | src/state/sqlite/jobs.ts:37-44 | meanwhile the lease only moves forward and the job stays |
| `Jobs.JobsSurvive` | src/state/sqlite/jobs.ts:16-35 | a job stays, with its kind and payload, until it is removed by name; ensuring it again changes nothing |
| `Jobs.ClaimsDrain` | src/jobs/runner.ts:94-103 | repeated claims take each due job at most once and use them up |
| `Jobs.ClaimsInOrder` | src/state/json/jobs.ts:61-63 | in the order they fell due |
| `Jobs.NothingDueIsLeft` | src/state/sqlite/jobs.ts:16-19 | when claiming comes back empty every due job has been taken, abandoned claims whose lease ran out included |
| `Jobs.BackoffGrows` | src/jobs/runner.ts:24 | the delay never shrinks with more attempts, lies between 15 s and 5 min, and is at its limit from the fifth retry on |
| `Jobs.BackoffIs` | src/jobs/runner.ts:24 | the delays are 15, 30, 60, 120 and 240 seconds and then five minutes |
| `Jobs.FinishedRunsAreRescheduled` | src/jobs/runner.ts:105-128 | a run that comes back frees its job: a recurring one is due after its interval with no attempts counted, one that failed or has to be tried again after the delay of its attempts with one more counted, and a deletion that is done or names no torrent is removed |
| `Jobs.TakenJobsAreDue` | src/state/sqlite/jobs.ts:37-44 | a job may be taken if and only if it has fallen due, no lease on it runs, and none that fell due earlier is free; then it is leased for 30 seconds |
| `Jobs.RecurringJobsStay` | src/jobs/runner.ts:107-128 | through overlapping runs, failing handlers, lapsed leases and restarts a recurring job is never lost |
| `Jobs.RetriesStayUntilDone` | src/jobs/runner.ts:118-127 | a deletion retry leaves the table only when its handler wanted no further try, or it names no torrent |
| `JobStores.FirstDueIsAClaim` | src/state/json/jobs.ts:61-63 | the head of the stably sorted due rows is an earliest due job |
| `JobStores.JsonStore.Ensure` | src/state/json/jobs.ts:52-56 | a step of the abstract table, or nothing if the document is not written |
| `JobStores.JsonStore.ClaimDue` | src/state/json/jobs.ts:58-70 | an allowed claim of the abstract table, of several that fell due together the first in the document; a failed write claims nothing |
| `JobStores.JsonStore.Reschedule` | src/state/json/jobs.ts:72-77 | a step of the abstract table, or nothing |
| `JobStores.JsonStore.Remove` | src/state/json/jobs.ts:79-81 | a step of the abstract table, or nothing |
| `JobStores.SqliteStore.Ensure` | src/state/sqlite/jobs.ts:31-35 | the same step over the table |
| `JobStores.SqliteStore.ClaimDue` | src/state/sqlite/jobs.ts:37-44 | an allowed claim, found by the query and leased by the update |
| `JobStores.SqliteStore.Reschedule` | src/state/sqlite/jobs.ts:46-49 | the same step over the table |
| `JobStores.SqliteStore.Remove` | src/state/sqlite/jobs.ts:51-53 | the same step over the table |
| `Pagination.WholeLibraryOnce` | src/api/v1/routes.ts:214-224 | following `next_cursor` over a library that does not change ends, reads every transfer exactly once, newest first, in no more pages than are needed |
| `Pagination.ReadOnce` | src/api/v1/routes.ts:214-224 | with transfers added and removed between pages, nothing is read twice and what was there throughout is read exactly once |
| `Pagination.ReadBehind` | src/api/v1/routes.ts:219-222 | everything read from a cursor on lies behind it |
| `Pagination.FollowsToTheEnd` | src/api/v1/routes.ts:223-224 | from any point the remaining pages are exactly the rest of the sorted library |
| `Pagination.PageMeaning` | src/api/v1/routes.ts:217-224 | a page holds what is behind its cursor and not behind its last item, each once, and its cursor is that last item exactly when more follows |
| `Pagination.List` | src/api/v1/routes.ts:214-224 | the listing branch computes that page |
| `Pagination.SortSorts` | src/api/v1/routes.ts:215-217 | sorting loses and invents nothing, and puts every transfer strictly before the next, newest first and then by infohash |
| `Pagination.DecodeUndoesEncode` | src/api/v1/routes.ts:85-92 | a cursor's text decodes to the item it was made from |
| `DavTree.ListingAgreesWithResolution` | src/dav/tree.ts:44-83 | for any files, a name is listed in a folder exactly when the extended path resolves, and as the same kind; it is the same file if and only if the first and the last file of that path are the same |
| `DavTree.DistinctPathsAgree` | src/dav/tree.ts:44-83 | with distinct paths that holds everywhere, and neither listing nor resolution depends on the order of the files |
| `DavTree.TwinsDisagree` | src/dav/tree.ts:50-68 | two files of one path: the folder lists the last, the path opens the first |
| `DavTree.ChildrenAreListed` | src/dav/tree.ts:44-54 | what stands under a name is the last file of exactly that path, or else a folder if some file lies below |
| `DavTree.ChildrenAt` | src/dav/tree.ts:44-54 | the loop over the files builds that listing |
| `DavTree.WalkVisitsTheReachable` | src/dav/tree.ts:44-83 | a recursive walk from the root visits a file once if no file stands on its path and it is the last of its path, and otherwise never |
| `DavTree.WalkVisitsEveryFileOnce` | src/dav/tree.ts:44-83 | for prefix-free paths the walk visits every file exactly once |
| `DavTree.SegmentsSpell` | src/dav/tree.ts:36-38 | a path's segments are what stands between its slashes, empty ones left out |
| `DavSlugs.TransferSlugs` | src/dav/tree.ts:14-26 | the loop with its counts and taken names gives each transfer, cleaned title included, the name specified |
| `DavSlugs.BaseSlugIsASegment` | src/dav/tree.ts:5-8 | a cleaned title is never empty and never more than one path segment |
| `DavSlugs.BaseSlugSpells` | src/dav/tree.ts:5-8 | it is the title without the white space around it, each separator replaced and every other character kept; a title of nothing but white space becomes `transfer` |
| `DavSlugs.SlugsAreNamed` | src/dav/tree.ts:14-26 | each transfer gets its own title unless another has the same or an earlier one has that name, then the title with the first eight characters of its id unless an earlier one has that name, and then with the whole id |
| `DavSlugs.SlugsAreUniqueUnlessBlocked` | src/dav/tree.ts:19-25 | for any ids and titles, the names are pairwise different if and only if no transfer has a shared title and its short-id and full-id names claimed by earlier ones, where who claims what is said of titles and ids alone |
| `DavSlugs.SlugsAreUniqueUnlessBorrowed` | src/dav/tree.ts:10-26 | for different infohashes, the names are pairwise different if and only if no transfer has an earlier, single title equal to its full-id name together with an earlier twin of the same title and short id or, when its own title is shared, an earlier single title equal to its short-id name |
| `DavSlugs.SlugsAreUnique` | src/dav/tree.ts:10-26 | with different infohashes and no transfer titled like a later one's full-id name, they are pairwise different |
| `DavSlugs.LastResortCanBeTaken` | src/dav/tree.ts:21-23 | for any infohashes there are four titles two of which get the same folder |
| `Selection.PickMeaning` | src/downloads/pick.ts:27-42 | of a movie, or with no episode asked for, the largest playable file; of an episode the largest playable file that carries it, and if none does the only playable file there is; nothing in exactly the remaining cases |
| `Selection.LargestIsFirst` | src/downloads/pick.ts:30 | of several largest files the first is taken |
| `Selection.PackIsTheSeason` | src/downloads/pick.ts:49-57 | choosing an episode of a pack chooses exactly the files of that season, each once, the picked one among them; any other choice is of the picked file alone |
| `Selection.MergedEntriesAreExact` | src/downloads/manager.ts:247-263 | every entry of the merged selection is given: earlier ones of files not chosen and explicit ones of siblings stay, each chosen file has its own name and size, only siblings are automatic, and each carries the request's media, its own episode of it, or what it had |
| `Selection.MergeKeeps` | src/downloads/manager.ts:247-263 | for any earlier selection with unique indexes: all of them stay in place, indexes stay unique, exactly the chosen files join, and no explicit entry becomes an automatic one |
| `Selection.PlayedIsExplicit` | src/downloads/manager.ts:248-263 | the played file ends up explicit, with its name and size |
| `Selection.MergeSelection` | src/downloads/manager.ts:247-263 | the loop computes that merge |
| `Selection.PrioritiesAreExact` | src/downloads/manager.ts:267-269 | after the two calls exactly the wanted files are selected, if and only if no file that was right in the listing had changed since |
| `Retention.EvictOverCap` | src/retention/sweeper.ts:103-118 | the total is always the bytes alive and not evicted; candidates are the listed records by earliest expiry; no eviction happens once under the cap; it ends under the cap or with every live candidate tried; evicted and failed are exactly those tried whose deletion went through or threw |
| `Evictions.PresentTorrentsAreSpared` | src/retention/sweeper.ts:110-111 | in every run of the protocol, before a removal call by the size cap, in the same section, the stored record was unkept with the expiry of the listing while nobody played it, and nobody plays it when the call is made |
| `Evictions.EvictionsEndAsTold` | src/downloads/deletion.ts:7-32 | in every run the size cap's deletion ends with the reply `Retention.Evict` gives for what it has seen, which is what the eviction loop acts on |
| `Retention.FirstPass` | src/retention/sweeper.ts:65-101 | alive is exactly what was proven and not removed, even when its upkeep failed; deleted, stale and failed list exactly those |
| `Retention.Sum` | src/retention/sweeper.ts:104 | the total starts as the bytes of everything alive |
| `DownloadStores.ReadersSeeDurableRecords` | src/state/json/downloads.ts:96-109 | in every run the disk is the result of the writes that reached it, in order; readers see that or all but its last write, a crash loses none of them, and a failed write leaves the old records |
| `DownloadStores.JsonStore.PersistHead` | src/state/json/downloads.ts:97-104 | the head of the queue is applied to a copy and written, or dropped |
| `DownloadStores.JsonStore.SwapIn` | src/state/json/downloads.ts:105-107 | the copy becomes visible and the next write may begin |
| `DownloadStores.SqliteStore.Load` | src/state/sqlite/downloads.ts:18-27 | what is in memory afterwards is the table |
| `DownloadStores.SqliteStore.Get` | src/state/sqlite/downloads.ts:37-40 | a read from memory is a read of the table |
| `DownloadStores.SqliteStore.List` | src/state/sqlite/downloads.ts:29-35 | the cached list always holds each stored record once, newest first |
| `DownloadStores.SqliteStore.Put` | src/state/sqlite/downloads.ts:78-87 | table, map and list stay in step, and a failed statement changes none |
| `DownloadStores.SqliteStore.Delete` | src/state/sqlite/downloads.ts:47-54 | the same for a removal |
| `DownloadStores.SqliteStore.RenewLease` | src/state/sqlite/downloads.ts:67-72 | the same for a renewal, which reads the record in its turn |
| `DownloadStores.KeepsAgree` | src/state/sqlite/downloads.ts:56-64 | the two drivers' keeps have the same outcome if and only if the keep is refused, or the writes queued in front left the record alone but for its kept flag |
| `DownloadStores.LateKeepUndoes` | src/state/sqlite/downloads.ts:56-71 | a renewal or a removal queued in front is undone by the SQLite driver's keep if and only if it was not refused because the record was being deleted, and never by the JSON driver's |

## Left out

- NoOrphanedTorrents: submit and remove are atomic at the backend, effective or not when their call settles; a submit that lands after its call has timed out is not modelled.
- NoOrphanedTorrents: preview probes (`src/application/transfers.ts:297-358`) add marked torrents without a record on purpose, and are not part of the model.
- OnlyProvenTorrentsChange: for the same reason it leaves out that a probe removes its torrent without proof when the lookup before that fails (`src/application/transfers.ts:354-355`), and it is about calls under the hash lock; pause and resume are in `TogglesAreProven`.
- KeepSurvivesTheNextWrite: it is about a keep that changes the record when it lands. A keep that puts a whole record back is always stored behind the write it was queued behind; what it undoes is in `LateKeepUndoesAnAdoption` and `LateKeepUndoesAPreparation`.
- LateKeepUndoesAnAdoption: the record is put back right behind the write, before the section's code runs on; the promise chain of the driver's queue is not modelled more finely than that.
- AdmissionCap: free-space checks only appear as calls that may fail, and the environment completes torrents but adds and removes none.
- PickMeaning: reading a release title and the name tests for playable videos are arbitrary functions, so every parser is covered.
- InfoHashIsOverTheInfoValue: SHA-1 is not modelled; the statement is about the bytes it is applied to.
- DecodeUndoesEncode: of a cursor, base64url and UTF-8 and the spellings of a number other than decimal digits are not modelled; foreign codings of text, with no branch of their own.
- ParseTorrentName: decoding UTF-8 is an arbitrary function, so every decoder is covered.
- UndisturbedCallsAreSequential: one step's answers (the file list, the clock, the marker drawn) are the same throughout the run, and what a season pack adds to a selection is a list of files; `Selection` has the whole merge.
- ListingUndoesWriter: an archive whose stream is aborted or whose output buffer is full is not modelled, nor are offsets that no longer are safe integers; the clock's date and time are parameters.
- ServeFile: the copy path for complete files is a foreign call; an empty file is never gated. The retry loop that waits for a gate to become available (`src/playback/pieces.ts:20-39`) is not modelled.
- RequiredPiecesAreExact: numbers are integers; rounding of quotients beyond 53 bits is not modelled.
- ClaimsAreApart: it is about claims. A handler may outlast its lease, and two overlapping ticks may both pass the test of `src/jobs/runner.ts:94`.
- EvictOverCap: what each deletion finds is one value per hash, fixed while the loop runs; that its reply is the deletion's is `Evictions.EvictionsEndAsTold`.
- FirstPass: what each hash's visit comes to is a parameter; the visits are sweeps and deletions of the protocol.
- Admission of the oldest queued record (`src/downloads/queue.ts`) is a preparation like any other and a one-line choice.
- Wall-clock timeouts and sleeps are nondeterministic waits with a clock that does not go back.
- Source validation and fetching, usenet identities, HTTP routing, settings, logging, metrics, the web interface and the clients' and indexers' own protocols.
