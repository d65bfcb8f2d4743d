/**
 The managed-download program without its awaits: what each call leaves in the store and in the client when every
 step of it goes through and nobody else is at its hash. Undisturbed, the interleaved program does just that.
 */
module ManagedSequential {
  import opened Wrappers
  import opened ManagedDownloads

  // ----- what a call leaves -------------------------------------------------------------------

  // The record and the torrent of its hash, whether the title was handed over for playback, and how the call ended.
  datatype Left = Left(stored: Option<Record>, live: Option<Torrent>, playing: bool, ending: Ending)

  function Fails(stored: Option<Record>, live: Option<Torrent>): Left { Left(stored, live, false, Threw) }

  function Ends(stored: Option<Record>, live: Option<Torrent>, value: bool): Left {
    Left(stored, live, false, Returned(value))
  }

  // A step in which every call goes through and no optional call is made.
  predicate Works(c: Choice) { !c.fail && c.landed && !c.again }

  // The record names this client and a marker the torrent carries, in the record's own scope.
  predicate Owns(r: Record, t: Torrent, b: BackendId) {
    && r.owner.Some? && r.owner.value == Owner(b, t.scope, r.owner.value.marker)
    && r.owner.value.marker in t.markers && t.hash == r.hash
  }

  // What becomes of a record and a torrent when it is to be proved that they belong together.
  datatype Verdict = Verdict(ours: bool, record: Record, torrent: Torrent)

  // A record without an owner is given one when the torrent is in a scope of ours and holds the recorded file: the
  // torrent gets a new marker. A torrent that cannot be proved leaves a conflict.
  function Judgement(r: Record, t: Torrent, b: BackendId, c: Choice): Verdict {
    if r.owner.None? && (t.scope == "debridarr" || t.scope == "debridgerr") && r.file.path != "" && c.matches then
      var marked := t.(markers := t.markers + {c.marker});
      if t.hash == r.hash then Verdict(true, Adopted(r, t, b, c), marked)
      else Verdict(false, r.(lifecycle := Conflict), marked)
    else if Owns(r, t, b) then Verdict(true, r, t)
    else Verdict(false, r.(lifecycle := Conflict), t)
  }

  function Adopted(r: Record, t: Torrent, b: BackendId, c: Choice): Record {
    r.(owner := Some(Owner(b, t.scope, c.marker)), lifecycle := Managed, selected := [r.file])
  }

  // What follows the proof in each call; `seen` is the torrent as it was looked at.
  function Onward(p: Program, v: Verdict, seen: Torrent, playing: bool, c: Choice): Left {
    if !v.ours then Fails(Some(v.record), Some(v.torrent)) else
    match p
    case Prepare(_, _, _, _, _, _, _, _, _) => Preparing(p, v.record, seen, v.torrent, c)
    case Delete(_, _, rule) => Erased(rule, v.record, seen, v.torrent, playing, c)
    case _ => Settled(p, v.record, seen, v.torrent)
  }

  // ----- a pause or resume ----------------------------------------------------------------------

  function Switched(p: Program, stored: Option<Record>, live: Option<Torrent>): Left
    requires p.Toggle?
  {
    if stored.Some? && stored.value.origin == Store && stored.value.lifecycle == Managed
       && live.Some? && Owns(stored.value, live.value, p.backend)
    then Ends(stored, Some(live.value.(stopped := !p.running)), true)
    else Fails(stored, live)
  }

  // ----- a deletion -----------------------------------------------------------------------------

  // When a title may go, rule by rule.
  predicate MayGo(rule: Rule, r: Record, seen: Torrent, now: int) {
    match rule
    case Always => true
    case SizeCap(listedExpiry) => !r.kept && r.expiresAt == listedExpiry
    case Expired(target, graceDays) =>
      || r.lifecycle == Deleting
      || (!r.kept && r.lifecycle == Failed)
      || (!r.kept && r.expiresAt <= now && target <= seen.ratio)
      || (!r.kept && graceDays >= 1 && r.expiresAt + graceDays * 24 * 60 * 60 * 1000 <= now)
  }

  function Erased(rule: Rule, r: Record, seen: Torrent, t: Torrent, playing: bool, c: Choice): Left {
    if playing || !MayGo(rule, r, seen, c.now) then Ends(Some(r), Some(t), false) else Ends(None, None, true)
  }

  // A title that is played or belongs to another client stays. Of one whose torrent is gone the record is dropped,
  // if it has an owner.
  function Deleted(p: Program, stored: Option<Record>, live: Option<Torrent>, playing: bool, c: Choice): Left
    requires p.Delete?
  {
    if stored.None? then Ends(None, live, false)
    else if playing then Fails(stored, live)
    else if stored.value.owner.Some? && stored.value.owner.value.backend != p.backend then Fails(stored, live)
    else Found(p, stored.value, live, playing, c)
  }

  function Found(p: Program, r: Record, live: Option<Torrent>, playing: bool, c: Choice): Left {
    if live.Some? then Onward(p, Judgement(r, live.value, p.backend, c), live.value, playing, c)
    else if r.owner.Some? then Ends(None, None, true)
    else Fails(Some(r), None)
  }

  // ----- one hash of a sweep ----------------------------------------------------------------------

  // A complete torrent seeds exactly until it has reached its ratio.
  function Settled(p: Program, r: Record, seen: Torrent, t: Torrent): Left {
    if p.Sweep? && r.lifecycle != Deleting && seen.complete && seen.stopped != (p.targetRatio <= seen.ratio)
    then Ends(Some(r), Some(t.(stopped := p.targetRatio <= seen.ratio)), true)
    else Ends(Some(r), Some(t), true)
  }

  // A record of another client, or of no client and without a torrent, is a conflict. One whose torrent is gone is
  // dropped unless it is registering or played.
  function Swept(p: Program, stored: Option<Record>, live: Option<Torrent>, playing: bool, c: Choice): Left
    requires p.Sweep?
  {
    if stored.None? then Ends(None, live, false) else
    var r := stored.value;
    if r.owner.Some? && r.owner.value.backend != p.backend then Ends(Some(r.(lifecycle := Conflict)), live, true)
    else if live.Some? then Onward(p, Judgement(r, live.value, p.backend, c), live.value, playing, c)
    else if r.owner.None? then Ends(Some(r.(lifecycle := Conflict)), None, true)
    else if r.lifecycle == Registering || playing then Ends(stored, None, true)
    else Ends(None, None, true)
  }

  // ----- a preparation ------------------------------------------------------------------------------

  // Deleted and foreign titles are refused, and so is whatever needs an earlier copy that is not there: a cached copy
  // needs its managed record with that very file, a store file its managed store record.
  predicate Servable(p: Program, stored: Option<Record>, live: Option<Torrent>)
    requires p.Prepare?
  {
    && (stored.Some? ==> stored.value.lifecycle != Deleting && !(p.origin == Store && stored.value.origin == Search))
    && (live.Some? ==> stored.Some?)
    && (live.None? && stored.Some? ==> stored.value.owner.Some? && stored.value.owner.value.backend == p.backend)
    && (p.existingOnly ==> live.Some?)
    && match p.selection
       case Pick => true
       case RequireExisting(f, marker) => live.Some? && Carries(stored.value, marker) && f in stored.value.selected
       case AllowSelect(_, marker) => live.Some? && Carries(stored.value, marker) && stored.value.origin == Store
  }

  predicate Carries(r: Record, marker: Marker) {
    r.lifecycle == Managed && r.owner.Some? && r.owner.value.marker == marker
  }

  function Obtained(p: Program, stored: Option<Record>, live: Option<Torrent>, c: Choice): Left
    requires p.Prepare?
  {
    if !Servable(p, stored, live) then Fails(stored, live)
    else if live.Some? then
      Onward(p, Judgement(stored.value, live.value, p.backend, c), live.value, false, c)
    else if !c.busy then Registered(p, Intended(p, stored, Registering, c), c)
    else if p.queueIfBusy && (if stored.Some? then stored.value.origin else p.origin) == Store then
      Fails(Some(Intended(p, stored, Queued, c)), None)
    else Fails(stored, None)
  }

  // An earlier record stays as old, as long, as kept and whose it was.
  function Intended(p: Program, prior: Option<Record>, lifecycle: Lifecycle, c: Choice): (r: Record)
    requires p.Prepare? && (prior.Some? ==> prior.value.owner.Some?)
    ensures r.owner.Some?
  {
    if prior.Some? then prior.value.(file := prior.value.file.(bytes := p.bytes), lifecycle := lifecycle)
    else Record(p.origin, p.hash, FileRef(0, "", p.bytes), [],
                c.now, c.now + p.retentionDays * 24 * 60 * 60 * 1000, false, lifecycle,
                Some(Owner(p.backend, "debridarr", c.marker)))
  }

  // The torrent is added stopped, under the record's marker.
  function NewTorrent(p: Program, r: Record): Torrent
    requires r.owner.Some?
  {
    Torrent(p.hash, r.owner.value.scope, {r.owner.value.marker}, true, false, 0.0)
  }

  function Registered(p: Program, r: Record, c: Choice): Left
    requires p.Prepare? && r.owner.Some?
  {
    Preparing(p, r, NewTorrent(p, r), NewTorrent(p, r), c)
  }

  // A stopped torrent that is not complete is started first.
  function Preparing(p: Program, r: Record, seen: Torrent, t: Torrent, c: Choice): Left
    requires p.Prepare?
  {
    if seen.stopped && !seen.complete then Filed(p, r, seen, t.(stopped := false), true, c)
    else Filed(p, r, seen, t, false, c)
  }

  // The file the request asks for: a given one, the recorded one of an existing title, or the picked one.
  predicate Wanted(p: Program, r: Record, f: Option<FileRef>)
    requires p.Prepare?
  {
    && f.Some?
    && match p.selection
       case Pick => p.existingOnly && r.selected != [] ==> f.value == r.file
       case RequireExisting(file, _) => f.value == file
       case AllowSelect(file, _) => f.value == file
  }

  // A store file that was not selected and is not there yet needs a slot, which it may not get.
  function Filed(p: Program, r: Record, seen: Torrent, t: Torrent, started: bool, c: Choice): Left
    requires p.Prepare?
  {
    if !Wanted(p, r, c.file) then Fails(Some(Fallen(r, c.matches)), Some(t))
    else if p.selection.AllowSelect? && !c.fileComplete && !Covers(r.selected, c.file.value.index) then
      if c.busy then Fails(Some(r), Some(t)) else Configured(p, Slotted(r, c.file.value), seen, t, started, c)
    else Configured(p, r, seen, t, started, c)
  }

  function Slotted(r: Record, f: FileRef): Record {
    r.(lifecycle := Registering, file := f, selected := r.selected + [f])
  }

  // Only a title without any selected file fails for good when its wanted file is not there.
  function Fallen(r: Record, noFile: bool): Record {
    r.(lifecycle := if noFile && r.selected == [] then Failed else if r.lifecycle == Unset then Registering
                    else r.lifecycle)
  }

  function Merged(r: Record, f: FileRef, chosen: seq<FileRef>): Record {
    r.(file := f, selected := Union(Union(r.selected, [f]), chosen))
  }

  function Configured(p: Program, r: Record, seen: Torrent, t: Torrent, started: bool, c: Choice): Left
    requires p.Prepare? && c.file.Some?
  {
    Finished(p, Merged(r, c.file.value, c.chosen), seen, t.(complete := c.complete), started, c.fileComplete)
  }

  // A stopped torrent whose file is not complete runs at the end, and the record is managed.
  function Finished(p: Program, r: Record, seen: Torrent, t: Torrent, started: bool, fileComplete: bool): Left
    requires p.Prepare?
  {
    Left(Some(r.(lifecycle := Managed)),
         Some(if !started && seen.stopped && !fileComplete then t.(stopped := false) else t),
         p.playback, Returned(true))
  }

  // ----- a whole call ----------------------------------------------------------------------------

  // Who may enter the section of the hash at all.
  predicate Enters(p: Program, stored: Option<Record>, playing: bool) {
    match p
    case Prepare(_, _, origin, _, _, _, _, _, _) =>
      stored.Some? ==> stored.value.lifecycle != Deleting && (origin == Store ==> stored.value.origin == Store)
    case Delete(_, b, _) =>
      stored.Some? && !playing && (stored.value.owner.Some? ==> stored.value.owner.value.backend == b)
    case Sweep(_, _, _) => stored.Some?
    case Toggle(_, _, _) => false
  }

  function Leaving(p: Program, stored: Option<Record>, live: Option<Torrent>, playing: bool, c: Choice): Left {
    match p
    case Prepare(_, _, _, _, _, _, _, _, _) => Obtained(p, stored, live, c)
    case Delete(_, _, _) => Deleted(p, stored, live, playing, c)
    case Sweep(_, _, _) => Swept(p, stored, live, playing, c)
    case Toggle(_, _, _) => Switched(p, stored, live)
  }
}
