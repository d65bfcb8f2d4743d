/** Which files of a torrent are wanted: picking one, completing a season, merging with what was chosen before. */
module Selection {
  import opened Wrappers

  datatype File = File(id: nat, path: string, bytes: nat)

  // What a release title says; how it is read from a path is not part of this model, nor is the test for
  // video files that are no samples or extras.
  datatype Title = Title(season: Option<int>, episode: Option<int>)
  datatype Reading = Reading(title: string -> Title, playable: File -> bool)

  datatype Target = Target(series: bool, season: Option<int>, episode: Option<int>)
  datatype Media = Media(imdbId: string, series: bool, season: Option<int>, episode: Option<int>)

  // One selected file of a record; `auto` marks a sibling selected along with a played one.
  datatype Chosen = Chosen(index: nat, name: string, bytes: nat, auto: bool, media: Option<Media>)

  // ----- picking a file --------------------------------------------------------------------------------

  function Filter(files: seq<File>, keep: File -> bool): (kept: seq<File>)
    ensures forall f :: f in kept <==> f in files && keep(f)
    ensures |kept| <= |files|
  {
    if files == [] then []
    else
      assert files == [files[0]] + files[1..];
      if keep(files[0]) then [files[0]] + Filter(files[1..], keep) else Filter(files[1..], keep)
  }

  // Every file in front of it is smaller.
  predicate IsFirstOf(files: seq<File>, best: File) {
    exists i :: 0 <= i < |files| && files[i] == best && forall j | 0 <= j < i :: files[j].bytes < best.bytes
  }

  // reduce((best, file) => file.bytes > best.bytes ? file : best)
  function Largest(files: seq<File>): (best: File)
    requires files != []
    ensures best in files && forall f <- files :: f.bytes <= best.bytes
  {
    if |files| == 1 then files[0]
    else
      var front, last := files[..|files| - 1], files[|files| - 1];
      assert files == front + [last];
      var best := Largest(front);
      if last.bytes > best.bytes then last else best
  }

  lemma {:induction false} LargestIsFirst(files: seq<File>)
    requires files != []
    ensures IsFirstOf(files, Largest(files))
  {
    var front, last := files[..|files| - 1], files[|files| - 1];
    if front == [] {
      assert files[0] == Largest(files);
    } else {
      LargestIsFirst(front);
      var best := Largest(front);
      var i :| 0 <= i < |front| && front[i] == best && forall j | 0 <= j < i :: front[j].bytes < best.bytes;
      if last.bytes > best.bytes {
        assert files[|front|] == last && forall j | 0 <= j < |front| :: files[j] == front[j] && front[j] in front;
      } else {
        assert files[i] == best && forall j | 0 <= j < i :: files[j] == front[j];
      }
    }
  }

  predicate Wants(target: Target) { target.series && target.season.Some? && target.episode.Some? }

  predicate IsEpisode(r: Reading, f: File, target: Target) {
    r.title(f.path).season == target.season && r.title(f.path).episode == target.episode
  }

  function PickFile(r: Reading, files: seq<File>, target: Target): Option<File> {
    var videos := Filter(files, r.playable);
    if videos == [] then None
    else if !Wants(target) then Some(Largest(videos))
    else
      var matches := Filter(videos, f => IsEpisode(r, f, target));
      if matches != [] then Some(Largest(matches))
      else if |videos| == 1 then Some(videos[0])
      else None
  }

  // The file's name carries the wanted season and episode.
  predicate Carries(r: Reading, f: File, target: Target) {
    r.title(f.path) == Title(target.season, target.episode)
  }

  // The file is playable, carries the episode if that is asked for, and no other such file is larger.
  predicate LargestOf(r: Reading, files: seq<File>, pick: File, target: Target, episode: bool) {
    && pick in files && r.playable(pick) && (episode ==> Carries(r, pick, target))
    && forall f <- files :: r.playable(f) && (episode ==> Carries(r, f, target)) ==> f.bytes <= pick.bytes
  }

  predicate SomeEpisode(r: Reading, files: seq<File>, target: Target) {
    exists f <- files :: r.playable(f) && Carries(r, f, target)
  }

  // At most one position holds a playable file.
  predicate AtMostOneVideo(r: Reading, files: seq<File>) {
    forall i, j | 0 <= i < j < |files| :: !(r.playable(files[i]) && r.playable(files[j]))
  }

  lemma {:induction false} FilterCounts(files: seq<File>, keep: File -> bool)
    ensures |Filter(files, keep)| <= 1 <==> forall i, j | 0 <= i < j < |files| :: !(keep(files[i]) && keep(files[j]))
  {
    if files != [] {
      var rest := files[1..];
      FilterCounts(rest, keep);
      assert forall i | 0 <= i < |rest| :: rest[i] == files[i + 1] && files[i + 1] in rest;
      if keep(files[0]) && |Filter(rest, keep)| > 0 {
        assert Filter(rest, keep)[0] in rest;
        var j :| 0 <= j < |rest| && rest[j] == Filter(rest, keep)[0];
        assert keep(files[0]) && keep(files[j + 1]);
      }
      forall i, j | 0 <= i < j < |files| && keep(files[i]) && keep(files[j]) ensures |Filter(files, keep)| > 1 {
        assert rest[j - 1] in Filter(rest, keep);
        if i > 0 { assert keep(rest[i - 1]) && keep(rest[j - 1]); }
      }
    }
  }

  // Of a movie, or when no episode is asked for, the largest playable file is picked, if there is one. Of a wanted
  // episode the largest playable file that carries it; and if none does, the only playable file there is.
  lemma PickMeaning(r: Reading, files: seq<File>, target: Target)
    ensures var pick := PickFile(r, files, target);
      var wants := target.series && target.season.Some? && target.episode.Some?;
      && (pick.None? <==>
            (forall f <- files :: !r.playable(f))
            || (wants && !SomeEpisode(r, files, target) && !AtMostOneVideo(r, files)))
      && (pick.Some? && wants && SomeEpisode(r, files, target) ==> LargestOf(r, files, pick.value, target, true))
      && (pick.Some? && !(wants && SomeEpisode(r, files, target)) ==> LargestOf(r, files, pick.value, target, false))
  {
    var videos := Filter(files, r.playable);
    var matches := Filter(videos, f => IsEpisode(r, f, target));
    FilterCounts(files, r.playable);
    forall f ensures f in matches <==> f in files && r.playable(f) && Carries(r, f, target) {}
    if f :| f in files && r.playable(f) { assert f in videos; }
    if videos != [] { assert videos[0] in videos; }
    if matches != [] { assert matches[0] in matches; }
    if |videos| == 1 { assert forall f <- videos :: f == videos[0]; }
  }

  function SeasonPackFiles(r: Reading, files: seq<File>, picked: File, target: Target): seq<File> {
    if !target.series || target.season.None? then [picked]
    else
      var episodes := Filter(files, f => r.playable(f) && r.title(f.path).episode.Some?
        && (if r.title(f.path).season.Some? then r.title(f.path).season else target.season) == target.season);
      if |episodes| > 1 && exists f <- episodes :: f.id == picked.id then episodes else [picked]
  }

  predicate DistinctIds(files: seq<File>) { forall i, j | 0 <= i < j < |files| :: files[i].id != files[j].id }

  // The file is an episode of the wanted season, by what its name says; a name without a season counts.
  predicate OfSeason(r: Reading, f: File, season: int) {
    && r.playable(f) && r.title(f.path).episode.Some?
    && (r.title(f.path).season == Some(season) || r.title(f.path).season.None?)
  }

  // Two of the torrent's files are such episodes, and the picked one is among them.
  predicate IsPack(r: Reading, files: seq<File>, picked: File, target: Target) {
    && target.series && target.season.Some?
    && (exists i, j | 0 <= i < j < |files| ::
          OfSeason(r, files[i], target.season.value) && OfSeason(r, files[j], target.season.value))
    && OfSeason(r, picked, target.season.value)
  }

  // Choosing an episode of a pack chooses exactly the season's episodes, each once; any other choice is of the picked
  // file alone.
  lemma PackIsTheSeason(r: Reading, files: seq<File>, picked: File, target: Target)
    requires DistinctIds(files) && picked in files
    ensures var pack := SeasonPackFiles(r, files, picked, target);
      && picked in pack && DistinctIds(pack)
      && (IsPack(r, files, picked, target) ==>
            forall f :: f in pack <==> f in files && OfSeason(r, f, target.season.value))
      && (!IsPack(r, files, picked, target) ==> pack == [picked])
  {
    if target.series && target.season.Some? {
      var keep := f => r.playable(f) && r.title(f.path).episode.Some?
        && (if r.title(f.path).season.Some? then r.title(f.path).season else target.season) == target.season;
      assert forall f :: keep(f) <==> OfSeason(r, f, target.season.value);
      FilterCounts(files, keep);
      FilterDistinct(files, keep);
      var j :| 0 <= j < |files| && files[j] == picked;
      forall f <- Filter(files, keep) | f.id == picked.id ensures f == picked {
        var i :| 0 <= i < |files| && files[i] == f;
      }
    }
  }

  lemma {:induction false} FilterDistinct(files: seq<File>, keep: File -> bool)
    requires DistinctIds(files)
    ensures DistinctIds(Filter(files, keep))
  {
    if files != [] {
      var rest := files[1..];
      assert forall i | 0 <= i < |rest| :: rest[i] == files[i + 1];
      FilterDistinct(rest, keep);
      forall f <- Filter(rest, keep) ensures f.id != files[0].id {
        var i :| 0 <= i < |rest| && rest[i] == f;
        assert files[i + 1] == f;
      }
    }
  }

  // ----- merging ------------------------------------------------------------------------------------------

  function IndexOf(selected: seq<Chosen>, id: nat): (at: int)
    ensures -1 <= at < |selected|
    ensures at >= 0 ==> selected[at].index == id && forall i | 0 <= i < at :: selected[i].index != id
    ensures at < 0 ==> forall c <- selected :: c.index != id
  {
    if selected == [] then -1
    else
      assert selected == [selected[0]] + selected[1..];
      if selected[0].index == id then 0
      else var at := IndexOf(selected[1..], id); if at < 0 then -1 else at + 1
  }

  // The media an entry is stored with: the request's for the played file, the sibling's own episode else.
  function MediaFor(r: Reading, media: Option<Media>, chosen: File, primary: bool,
      prior: Option<Media>): Option<Media> {
    var title := r.title(chosen.path);
    var own :=
      if primary then media
      else if media.Some? && media.value.season.Some? && title.episode.Some?
        then Some(Media(media.value.imdbId, media.value.series, media.value.season, title.episode))
      else None;
    if own.Some? then own else prior
  }

  function EntryFor(r: Reading, media: Option<Media>, chosen: File, primary: bool, prior: Option<Media>): Chosen {
    Chosen(chosen.id, chosen.path, chosen.bytes, !primary, MediaFor(r, media, chosen, primary, prior))
  }

  // One turn of the loop.
  function MergeOne(r: Reading, media: Option<Media>, file: File, selected: seq<Chosen>, chosen: File): seq<Chosen> {
    var at := IndexOf(selected, chosen.id);
    var primary := chosen.id == file.id;
    if at >= 0 && !primary && !selected[at].auto then selected
    else if at < 0 then selected + [EntryFor(r, media, chosen, primary, None)]
    else selected[at := EntryFor(r, media, chosen, primary, selected[at].media)]
  }

  function Merge(r: Reading, media: Option<Media>, file: File, selected: seq<Chosen>,
      episodes: seq<File>): seq<Chosen> {
    if episodes == [] then selected
    else MergeOne(r, media, file, Merge(r, media, file, selected, episodes[..|episodes| - 1]), episodes[|episodes| - 1])
  }

  method MergeSelection(r: Reading, media: Option<Media>, file: File, prior: seq<Chosen>, episodes: seq<File>)
      returns (selected: seq<Chosen>)
    ensures selected == Merge(r, media, file, prior, episodes)
  {
    selected := prior;
    for i := 0 to |episodes|
      invariant selected == Merge(r, media, file, prior, episodes[..i])
    {
      assert episodes[..i + 1][..i] == episodes[..i];
      var chosen := episodes[i];
      var at := IndexOf(selected, chosen.id);
      var primary := chosen.id == file.id;
      if !(at >= 0 && !primary && !selected[at].auto) {
        var entry := EntryFor(r, media, chosen, primary, if at >= 0 then selected[at].media else None);
        if at < 0 {
          selected := selected + [entry];
        } else {
          selected := selected[at := entry];
        }
      }
    }
    assert episodes[..|episodes|] == episodes;
  }

  predicate UniqueIndexes(selected: seq<Chosen>) {
    forall i, j | 0 <= i < j < |selected| :: selected[i].index != selected[j].index
  }

  predicate Covers(selected: seq<Chosen>, id: nat) { exists c <- selected :: c.index == id }

  // A merge keeps every earlier entry in its place, and never turns an explicit one into a sibling.
  predicate Extends(prior: seq<Chosen>, merged: seq<Chosen>, file: File) {
    |prior| <= |merged| && forall i | 0 <= i < |prior| ::
      && merged[i].index == prior[i].index
      && (!prior[i].auto ==> !merged[i].auto && (prior[i].index != file.id ==> merged[i] == prior[i]))
  }

  lemma OneExtends(r: Reading, media: Option<Media>, file: File, selected: seq<Chosen>, chosen: File)
    ensures Extends(selected, MergeOne(r, media, file, selected, chosen), file)
  {
  }

  lemma OneStaysUnique(r: Reading, media: Option<Media>, file: File, selected: seq<Chosen>, chosen: File)
    requires UniqueIndexes(selected)
    ensures UniqueIndexes(MergeOne(r, media, file, selected, chosen))
  {
    var merged := MergeOne(r, media, file, selected, chosen);
    forall i | 0 <= i < |selected| ensures merged[i].index == selected[i].index {}
    if IndexOf(selected, chosen.id) < 0 {
      assert forall i | 0 <= i < |selected| :: selected[i] in selected;
    }
  }

  lemma OneCovers(r: Reading, media: Option<Media>, file: File, selected: seq<Chosen>, chosen: File, id: nat)
    ensures Covers(MergeOne(r, media, file, selected, chosen), id) <==> Covers(selected, id) || id == chosen.id
  {
    var merged := MergeOne(r, media, file, selected, chosen);
    var at := IndexOf(selected, chosen.id);
    assert forall i | 0 <= i < |selected| :: merged[i].index == selected[i].index && merged[i] in merged;
    if c :| c in selected && c.index == id {
      var i :| 0 <= i < |selected| && selected[i] == c;
      assert merged[i].index == id;
    }
    assert merged[if at < 0 then |selected| else at].index == chosen.id;
  }

  lemma OneKeeps(r: Reading, media: Option<Media>, file: File, selected: seq<Chosen>, chosen: File)
    requires UniqueIndexes(selected)
    ensures var merged := MergeOne(r, media, file, selected, chosen);
      UniqueIndexes(merged) && Extends(selected, merged, file)
      && forall id :: Covers(merged, id) <==> Covers(selected, id) || id == chosen.id
  {
    OneExtends(r, media, file, selected, chosen);
    OneStaysUnique(r, media, file, selected, chosen);
    forall id: nat
      ensures Covers(MergeOne(r, media, file, selected, chosen), id) <==> Covers(selected, id) || id == chosen.id
    {
      OneCovers(r, media, file, selected, chosen, id);
    }
  }

  // Every earlier index stays, indexes stay unique, exactly the chosen files join, explicit entries stay
  // explicit, and other explicit entries stay as they were.
  lemma {:induction false} MergeKeeps(r: Reading, media: Option<Media>, file: File, prior: seq<Chosen>,
      episodes: seq<File>)
    requires UniqueIndexes(prior)
    ensures var merged := Merge(r, media, file, prior, episodes);
      UniqueIndexes(merged) && Extends(prior, merged, file)
      && forall id :: Covers(merged, id) <==> Covers(prior, id) || exists f <- episodes :: f.id == id
  {
    if episodes != [] {
      var front, last := episodes[..|episodes| - 1], episodes[|episodes| - 1];
      assert episodes == front + [last];
      MergeKeeps(r, media, file, prior, front);
      OneKeeps(r, media, file, Merge(r, media, file, prior, front), last);
    }
  }

  // The played file is in it once, explicitly, as it was found in the torrent.
  lemma {:induction false} PlayedIsExplicit(r: Reading, media: Option<Media>, file: File, prior: seq<Chosen>,
      episodes: seq<File>)
    requires UniqueIndexes(prior) && file in episodes && forall f <- episodes :: f.id == file.id ==> f == file
    ensures var merged := Merge(r, media, file, prior, episodes);
      exists c <- merged :: c.index == file.id && c.name == file.path && c.bytes == file.bytes && !c.auto
  {
    var front, last := episodes[..|episodes| - 1], episodes[|episodes| - 1];
    var before := Merge(r, media, file, prior, front);
    assert episodes == front + [last];
    MergeKeeps(r, media, file, prior, front);
    if last == file {
      var at := IndexOf(before, file.id);
      var merged := MergeOne(r, media, file, before, file);
      assert merged[if at < 0 then |before| else at] in merged;
    } else {
      PlayedIsExplicit(r, media, file, prior, front);
      var c :| c in before && c.index == file.id && c.name == file.path && c.bytes == file.bytes && !c.auto;
      var i :| 0 <= i < |before| && before[i] == c;
      var merged := MergeOne(r, media, file, before, last);
      assert last.id != file.id;
      assert merged[i] == c && merged[i] in merged;
    }
  }

  // ----- what the entries say -------------------------------------------------------------------------------

  // What a sibling's own name says of it, when the request is for a series with a season.
  function SiblingMedia(r: Reading, media: Option<Media>, f: File): Option<Media> {
    match media
    case None => None
    case Some(m) =>
      if m.season.None? || r.title(f.path).episode.None? then None
      else Some(m.(episode := r.title(f.path).episode))
  }

  function Else<T>(a: Option<T>, b: Option<T>): Option<T> { if a.None? then b else a }

  // A chosen file that was not selected before: the played one is explicit and has the request's media, a sibling is
  // automatic and has its own.
  function Joined(r: Reading, media: Option<Media>, file: File, f: File): Chosen {
    if f.id == file.id then Chosen(f.id, f.path, f.bytes, false, media)
    else Chosen(f.id, f.path, f.bytes, true, SiblingMedia(r, media, f))
  }

  // One that was: the played one becomes explicit, an automatic sibling is brought up to date, an explicit one stays
  // as it is. Media that are not known now stay as they were.
  function Refreshed(r: Reading, media: Option<Media>, file: File, p: Chosen, f: File): Chosen {
    if f.id == file.id then Chosen(f.id, f.path, f.bytes, false, Else(media, p.media))
    else if !p.auto then p
    else Chosen(f.id, f.path, f.bytes, true, Else(SiblingMedia(r, media, f), p.media))
  }

  function IdsOf(episodes: seq<File>): set<nat> { set f | f in episodes :: f.id }

  // The selection is the earlier entries, each refreshed by the chosen file of its index if there is one, followed by
  // an entry for each other chosen file.
  ghost predicate MergedAs(r: Reading, media: Option<Media>, file: File, prior: seq<Chosen>, episodes: seq<File>,
      merged: seq<Chosen>) {
    && |prior| <= |merged|
    && (forall i | 0 <= i < |prior| && prior[i].index !in IdsOf(episodes) :: merged[i] == prior[i])
    && (forall i, f | 0 <= i < |prior| && f in episodes && f.id == prior[i].index ::
          merged[i] == Refreshed(r, media, file, prior[i], f))
    && (forall i | |prior| <= i < |merged| :: exists f <- episodes :: merged[i] == Joined(r, media, file, f))
    && (forall f <- episodes | !Covers(prior, f.id) :: Joined(r, media, file, f) in merged[|prior|..])
  }

  lemma {:induction false} MergedEntriesAreExact(
      r: Reading, media: Option<Media>, file: File, prior: seq<Chosen>, episodes: seq<File>)
    requires UniqueIndexes(prior) && DistinctIds(episodes)
    ensures MergedAs(r, media, file, prior, episodes, Merge(r, media, file, prior, episodes))
  {
    if episodes != [] {
      var front, last := episodes[..|episodes| - 1], episodes[|episodes| - 1];
      var before := Merge(r, media, file, prior, front);
      assert episodes == front + [last];
      forall f <- front ensures f.id != last.id {
        var i :| 0 <= i < |front| && front[i] == f;
        assert episodes[i] == f && episodes[|front|] == last;
      }
      MergedEntriesAreExact(r, media, file, prior, front);
      MergeKeeps(r, media, file, prior, front);
      OneMoreEntry(r, media, file, prior, front, last, before);
    }
  }

  lemma EntriesAgree(r: Reading, media: Option<Media>, file: File, f: File, p: Chosen)
    ensures EntryFor(r, media, f, f.id == file.id, None) == Joined(r, media, file, f)
    ensures (f.id == file.id || p.auto) && p.index == f.id ==>
      EntryFor(r, media, f, f.id == file.id, p.media) == Refreshed(r, media, file, p, f)
  {
  }

  ghost predicate OneMore(r: Reading, media: Option<Media>, file: File, prior: seq<Chosen>, front: seq<File>,
      last: File, before: seq<Chosen>) {
    && UniqueIndexes(prior) && UniqueIndexes(before) && Extends(prior, before, file)
    && last.id !in IdsOf(front) && MergedAs(r, media, file, prior, front, before)
    && forall id :: Covers(before, id) <==> Covers(prior, id) || exists f <- front :: f.id == id
  }

  lemma OneMoreEntry(r: Reading, media: Option<Media>, file: File, prior: seq<Chosen>, front: seq<File>, last: File,
      before: seq<Chosen>)
    requires OneMore(r, media, file, prior, front, last, before)
    ensures MergedAs(r, media, file, prior, front + [last], MergeOne(r, media, file, before, last))
  {
    assert IdsOf(front + [last]) == IdsOf(front) + {last.id};
    if IndexOf(before, last.id) >= 0 {
      OneRefreshed(r, media, file, prior, front, last, before);
    } else {
      OneJoined(r, media, file, prior, front, last, before);
    }
  }

  lemma OneRefreshed(r: Reading, media: Option<Media>, file: File, prior: seq<Chosen>, front: seq<File>, last: File,
      before: seq<Chosen>)
    requires OneMore(r, media, file, prior, front, last, before) && IndexOf(before, last.id) >= 0
    requires IdsOf(front + [last]) == IdsOf(front) + {last.id}
    ensures MergedAs(r, media, file, prior, front + [last], MergeOne(r, media, file, before, last))
  {
    var merged, at := MergeOne(r, media, file, before, last), IndexOf(before, last.id);
    assert Covers(before, last.id) && Covers(prior, last.id);
    var k :| 0 <= k < |prior| && prior[k].index == last.id;
    assert before[k].index == last.id && at == k && before[k] == prior[k];
    EntriesAgree(r, media, file, last, prior[k]);
    assert merged == before[k := Refreshed(r, media, file, prior[k], last)];
    assert merged[|prior|..] == before[|prior|..];
  }

  lemma OneJoined(r: Reading, media: Option<Media>, file: File, prior: seq<Chosen>, front: seq<File>, last: File,
      before: seq<Chosen>)
    requires OneMore(r, media, file, prior, front, last, before) && IndexOf(before, last.id) < 0
    requires IdsOf(front + [last]) == IdsOf(front) + {last.id}
    ensures MergedAs(r, media, file, prior, front + [last], MergeOne(r, media, file, before, last))
  {
    var merged, one := MergeOne(r, media, file, before, last), Joined(r, media, file, last);
    assert !Covers(before, last.id) && !Covers(prior, last.id);
    EntriesAgree(r, media, file, last, one);
    assert merged == before + [one];
    assert merged[|prior|..] == before[|prior|..] + [one];
    forall i | 0 <= i < |prior| ensures prior[i].index != last.id { assert prior[i] in prior; }
  }

  // ----- the two priority calls -----------------------------------------------------------------------------

  // The client's selection flags; the calls change them for a list of files.
  type Flags = map<nat, bool>

  function SetSelected(flags: Flags, ids: set<nat>, value: bool): Flags {
    map id | id in flags :: if id in ids then value else flags[id]
  }

  // What prepareDownload does: `seen` are the flags of the listing it read, `flags` those at the first call.
  function Prioritise(seen: Flags, flags: Flags, wanted: set<nat>): Flags {
    var off := set id | id in seen && id !in wanted && seen[id];
    var on := set id | id in seen && id in wanted && !seen[id];
    SetSelected(SetSelected(flags, off, false), on, true)
  }

  // Afterwards exactly the wanted files are selected if and only if no file had changed, since the listing,
  // to a flag it should not have and was not listed with.
  lemma PrioritiesAreExact(seen: Flags, flags: Flags, wanted: set<nat>)
    requires flags.Keys == seen.Keys
    ensures (forall id <- flags :: Prioritise(seen, flags, wanted)[id] <==> id in wanted)
      <==> (forall id <- flags :: seen[id] == (id in wanted) ==> flags[id] == seen[id])
  {
    var after := Prioritise(seen, flags, wanted);
    forall id <- flags
      ensures (after[id] <==> id in wanted) <==> (seen[id] == (id in wanted) ==> flags[id] == seen[id])
    {
    }
  }
}
