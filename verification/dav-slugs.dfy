/** The folders of the root: each transfer's own name, made unique with its id when it has to be. */
module DavSlugs {
  import opened Hashes
  import opened Texts

  // A transfer with the folder name derived from its own name.
  datatype Titled = Titled(id: string, base: string)

  // ----- the names ---------------------------------------------------------------------------------

  // name.replace(/[\\/]/g, '_')
  function Cleaned(name: string): (s: string)
    ensures |s| == |name|
  {
    seq(|name|, i requires 0 <= i < |name| => if name[i] == '/' || name[i] == '\\' then '_' else name[i])
  }

  function BaseSlug(name: string): string { if Trim(Cleaned(name)) == "" then "transfer" else Trim(Cleaned(name)) }

  // The title without the white space around it, each separator replaced; white space alone is "transfer".
  lemma BaseSlugSpells(a: string, m: string, b: string)
    requires AllBlank(a) && Bare(m) && AllBlank(b)
    ensures var slug := BaseSlug(a + m + b);
      && (m == "" ==> slug == "transfer")
      && (m != "" ==>
        |slug| == |m|
        && forall i | 0 <= i < |m| :: slug[i] == if m[i] == '/' || m[i] == '\\' then '_' else m[i])
  {
    var middle := Cleaned(m);
    assert Cleaned(a + m + b) == a + middle + b;
    TrimStrips(a, middle, b);
  }

  // A folder name is never empty and never a path of several segments.
  lemma BaseSlugIsASegment(name: string)
    ensures BaseSlug(name) != "" && '/' !in BaseSlug(name) && '\\' !in BaseSlug(name)
  {
    var cleaned := Cleaned(name);
    var a, b := TrimParts(cleaned);
    forall c <- Trim(cleaned) ensures c in cleaned {}
  }

  // String.slice(0, 8)
  function Short(id: string): string { if |id| < 8 then id else id[..8] }

  function ShortName(t: Titled): (s: string)
    ensures |s| > |t.base|
  {
    t.base + "-" + Short(t.id)
  }

  function FullName(t: Titled): (s: string)
    ensures |s| >= |ShortName(t)|
  {
    t.base + "-" + t.id
  }

  function Count(titles: seq<Titled>, base: string): nat {
    if titles == [] then 0 else Count(titles[1..], base) + if titles[0].base == base then 1 else 0
  }

  predicate Shared(all: seq<Titled>, t: Titled, used: set<string>) { Count(all, t.base) > 1 || t.base in used }

  // The name one transfer gets when these are taken: its own, or with a short id, or with the full id.
  function SlugFor(all: seq<Titled>, t: Titled, used: set<string>): string {
    var slug := if Shared(all, t, used) then ShortName(t) else t.base;
    if slug in used then FullName(t) else slug
  }

  function SlugsFrom(all: seq<Titled>, n: nat): (slugs: seq<string>)
    requires n <= |all|
    ensures |slugs| == n
  {
    if n == 0 then [] else
    var before := SlugsFrom(all, n - 1);
    before + [SlugFor(all, all[n - 1], set s | s in before)]
  }

  // The names taken before transfer n.
  function Taken(all: seq<Titled>, n: nat): set<string>
    requires n <= |all|
  {
    set s | s in SlugsFrom(all, n)
  }

  function Titles(transfers: seq<(string, string)>): (all: seq<Titled>)
    ensures |all| == |transfers|
  {
    seq(|transfers|, i requires 0 <= i < |transfers| => Titled(transfers[i].0, BaseSlug(transfers[i].1)))
  }

  // Each transfer is an id and a name.
  method TransferSlugs(transfers: seq<(string, string)>) returns (slugs: seq<string>)
    ensures slugs == SlugsFrom(Titles(transfers), |transfers|)
  {
    var all := Titles(transfers);
    var used: set<string> := {};
    slugs := [];
    for i := 0 to |all|
      invariant slugs == SlugsFrom(all, i) && used == Taken(all, i)
    {
      var t := all[i];
      var slug := t.base;
      if Count(all, t.base) > 1 || slug in used { slug := ShortName(t); }
      if slug in used { slug := FullName(t); }
      OneMoreTaken(all, i);
      used := used + {slug};
      slugs := slugs + [slug];
    }
  }

  lemma OneMoreTaken(all: seq<Titled>, n: nat)
    requires n < |all|
    ensures SlugsFrom(all, n + 1) == SlugsFrom(all, n) + [SlugFor(all, all[n], Taken(all, n))]
    ensures Taken(all, n + 1) == Taken(all, n) + {SlugFor(all, all[n], Taken(all, n))}
  {
  }

  // ----- which names are taken ---------------------------------------------------------------------

  // Transfer i claims a name, said of the ids and titles alone: its own name, which nobody else has; the name
  // with its short id, if it is crowded; or the one with its full id, if an earlier transfer claims the short.
  ghost predicate Claims(all: seq<Titled>, i: nat, name: string)
    requires i < |all|
    decreases |name|, i, 1
  {
    || (all[i].base == name && Count(all, name) == 1)
    || (name == ShortName(all[i]) && (Count(all, all[i].base) > 1 || Claimed(all, i, all[i].base)))
    || (name == FullName(all[i]) && (Count(all, all[i].base) > 1 || Claimed(all, i, all[i].base))
        && Claimed(all, i, ShortName(all[i])))
  }

  ghost predicate Claimed(all: seq<Titled>, n: nat, name: string)
    requires n <= |all|
    decreases |name|, n, 0
  {
    exists i :: 0 <= i < n && Claims(all, i, name)
  }

  // Its name is not only its own.
  ghost predicate Crowded(all: seq<Titled>, i: nat)
    requires i < |all|
  {
    Count(all, all[i].base) > 1 || Claimed(all, i, all[i].base)
  }

  lemma {:induction false} CountsItself(titles: seq<Titled>, i: nat)
    requires i < |titles|
    ensures Count(titles, titles[i].base) >= 1
  {
    if i > 0 { CountsItself(titles[1..], i - 1); }
  }

  lemma {:induction false} TakenIsClaimed(all: seq<Titled>, n: nat, name: string)
    requires n <= |all|
    ensures name in Taken(all, n) <==> Claimed(all, n, name)
    decreases |name|, n, 1
  {
    if n == 0 {
    } else {
      TakenIsClaimed(all, n - 1, name);
      ClaimIsTaken(all, n - 1, name);
      OneMoreTaken(all, n - 1);
      OneMoreClaim(all, n - 1, name);
    }
  }

  lemma OneMoreClaim(all: seq<Titled>, n: nat, name: string)
    requires n < |all|
    ensures Claimed(all, n + 1, name) <==> Claimed(all, n, name) || Claims(all, n, name)
  {
  }

  lemma {:induction false} ClaimIsTaken(all: seq<Titled>, i: nat, name: string)
    requires i < |all|
    ensures var slug := SlugFor(all, all[i], Taken(all, i));
      && (slug == name ==> Claims(all, i, name))
      && (Claims(all, i, name) ==> name == slug || name in Taken(all, i))
    decreases |name|, i, 2
  {
    var t := all[i];
    CountsItself(all, i);
    if |t.base| < |name| { TakenIsClaimed(all, i, t.base); }
    if |ShortName(t)| <= |name| { TakenIsClaimed(all, i, ShortName(t)); }
  }

  // Each transfer gets its own title, unless another one has the same title or an earlier one has that name; then the
  // title with the first eight characters of its id, unless an earlier one has that name; then with the whole id.
  lemma SlugsAreNamed(all: seq<Titled>, n: nat, i: nat)
    requires i < n <= |all| && |all[i].id| >= 8
    ensures var slugs, t := SlugsFrom(all, n), all[i];
      var shared := (exists j :: 0 <= j < |all| && j != i && all[j].base == t.base) || t.base in slugs[..i];
      var short := t.base + "-" + t.id[..8];
      slugs[i] == (if !shared then t.base else if short !in slugs[..i] then short else t.base + "-" + t.id)
    decreases n
  {
    if i < n - 1 {
      SlugsAreNamed(all, n - 1, i);
      assert SlugsFrom(all, n)[..i] == SlugsFrom(all, n - 1)[..i];
    } else {
      CountsTwins(all, i);
      assert SlugsFrom(all, n)[..i] == SlugsFrom(all, n - 1);
      assert forall s :: s in Taken(all, n - 1) <==> s in SlugsFrom(all, n)[..i];
    }
  }

  lemma {:induction false} CountsTwins(titles: seq<Titled>, i: nat)
    requires i < |titles|
    ensures Count(titles, titles[i].base) > 1 <==>
      exists j :: 0 <= j < |titles| && j != i && titles[j].base == titles[i].base
  {
    var rest, base := titles[1..], titles[i].base;
    assert forall j | 0 <= j < |rest| :: rest[j] == titles[j + 1];
    if i > 0 {
      CountsTwins(rest, i - 1);
      CountsItself(rest, i - 1);
      if titles[0].base == base { assert titles[0].base == titles[i].base; }
      if j :| 0 <= j < |rest| && j != i - 1 && rest[j].base == base { assert titles[j + 1].base == base && j + 1 != i; }
    } else {
      CountsSome(rest, base);
      if j :| 0 <= j < |rest| && rest[j].base == base { assert titles[j + 1].base == base; }
    }
  }

  lemma {:induction false} CountsSome(titles: seq<Titled>, base: string)
    ensures Count(titles, base) > 0 <==> exists j :: 0 <= j < |titles| && titles[j].base == base
  {
    if titles != [] {
      var rest := titles[1..];
      assert forall j | 0 <= j < |rest| :: rest[j] == titles[j + 1];
      CountsSome(rest, base);
      if titles[0].base == base { assert titles[0].base == base; }
      if j :| 0 <= j < |rest| && rest[j].base == base { assert titles[j + 1].base == base; }
    }
  }

  // ----- when the names are unique -----------------------------------------------------------------

  predicate AllDifferent(slugs: seq<string>) { forall i, j | 0 <= i < j < |slugs| :: slugs[i] != slugs[j] }

  // The last resort fails: its own name is shared, and its short and its full name are claimed before it.
  ghost predicate Blocked(all: seq<Titled>, n: nat)
    requires n < |all|
  {
    Crowded(all, n) && Claimed(all, n, ShortName(all[n])) && Claimed(all, n, FullName(all[n]))
  }

  lemma BlockedExactly(all: seq<Titled>, n: nat)
    requires n < |all|
    ensures SlugFor(all, all[n], Taken(all, n)) in Taken(all, n) <==> Blocked(all, n)
  {
    TakenIsClaimed(all, n, all[n].base);
    TakenIsClaimed(all, n, ShortName(all[n]));
    TakenIsClaimed(all, n, FullName(all[n]));
  }

  // For any ids and titles: the folder names are unique exactly when no transfer is blocked.
  lemma {:induction false} SlugsAreUniqueUnlessBlocked(all: seq<Titled>, n: nat)
    requires n <= |all|
    ensures AllDifferent(SlugsFrom(all, n)) <==> forall i | 0 <= i < n :: !Blocked(all, i)
  {
    if n > 0 {
      SlugsAreUniqueUnlessBlocked(all, n - 1);
      BlockedExactly(all, n - 1);
      OneMoreTaken(all, n - 1);
      OneMoreDifferent(SlugsFrom(all, n - 1), SlugFor(all, all[n - 1], Taken(all, n - 1)));
    }
  }

  lemma OneMoreDifferent(slugs: seq<string>, slug: string)
    ensures AllDifferent(slugs + [slug]) <==> AllDifferent(slugs) && slug !in slugs
  {
    var all := slugs + [slug];
    assert forall i | 0 <= i < |slugs| :: all[i] == slugs[i];
    if AllDifferent(all) {
      forall i, j | 0 <= i < j < |slugs| ensures slugs[i] != slugs[j] { assert all[i] != all[j]; }
      forall i | 0 <= i < |slugs| ensures slugs[i] != slug { assert all[i] != all[|slugs|]; }
    }
    if AllDifferent(slugs) && slug !in slugs {
      forall i, j | 0 <= i < j < |all| ensures all[i] != all[j] { assert slugs[i] == all[i]; }
    }
  }

  // ----- with infohashes ---------------------------------------------------------------------------

  // What the service guarantees of ids.
  predicate Hashed(all: seq<Titled>) {
    && (forall i | 0 <= i < |all| :: IsHex40(all[i].id))
    && (forall i, j | 0 <= i < j < |all| :: all[i].id != all[j].id)
  }

  // Transfer i has this name, and nobody else has.
  predicate Alone(all: seq<Titled>, i: nat, name: string)
    requires i < |all|
  {
    all[i].base == name && Count(all, name) == 1
  }

  predicate Twins(a: Titled, b: Titled) { a.base == b.base && Short(a.id) == Short(b.id) }

  // An earlier transfer's title is this one's full name; and either an earlier one has the same name and the
  // same short id, or one is titled like its short name while its own name is shared.
  ghost predicate Borrowed(all: seq<Titled>, n: nat)
    requires n < |all|
  {
    && (exists j :: 0 <= j < n && Alone(all, j, FullName(all[n])))
    && ((exists i :: 0 <= i < n && Twins(all[i], all[n]))
        || (Crowded(all, n) && exists i :: 0 <= i < n && Alone(all, i, ShortName(all[n]))))
  }

  lemma {:induction false} CountsBoth(titles: seq<Titled>, i: nat, j: nat)
    requires i < j < |titles| && titles[i].base == titles[j].base
    ensures Count(titles, titles[i].base) >= 2
  {
    if i > 0 { CountsBoth(titles[1..], i - 1, j - 1); } else { CountsItself(titles[1..], j - 1); }
  }

  lemma ShortIsNotFull(a: Titled, b: Titled)
    requires IsHex40(a.id) && IsHex40(b.id)
    ensures ShortName(a) != FullName(b)
  {
    var x, y := ShortName(a), FullName(b);
    if |x| == |y| {
      assert x[|a.base|] == '-';
      assert y[|a.base|] == b.id[31] && b.id[31] in b.id;
    }
  }

  lemma FullNamesDiffer(a: Titled, b: Titled)
    requires IsHex40(a.id) && IsHex40(b.id) && FullName(a) == FullName(b)
    ensures a.id == b.id
  {
    var x := FullName(a);
    assert a.id == x[|x| - 40..] && b.id == x[|x| - 40..];
  }

  lemma ShortNamesOfTwins(a: Titled, b: Titled)
    requires IsHex40(a.id) && IsHex40(b.id)
    ensures ShortName(a) == ShortName(b) <==> Twins(a, b)
  {
    var x, y := ShortName(a), ShortName(b);
    if x == y {
      assert a.base == x[..|x| - 9] && b.base == y[..|y| - 9];
      assert Short(a.id) == x[|x| - 8..] && Short(b.id) == y[|y| - 8..];
    }
  }

  // Only a title can be another transfer's full name.
  lemma ClaimsFull(all: seq<Titled>, j: nat, n: nat)
    requires Hashed(all) && j < n < |all|
    ensures Claims(all, j, FullName(all[n])) <==> Alone(all, j, FullName(all[n]))
  {
    ShortIsNotFull(all[j], all[n]);
    if FullName(all[j]) == FullName(all[n]) { FullNamesDiffer(all[j], all[n]); }
  }

  // A short name is claimed by a title or by a twin.
  lemma ClaimsShort(all: seq<Titled>, i: nat, n: nat)
    requires Hashed(all) && i < n < |all|
    ensures Claims(all, i, ShortName(all[n])) <==> Alone(all, i, ShortName(all[n])) || Twins(all[i], all[n])
  {
    ShortIsNotFull(all[n], all[i]);
    ShortNamesOfTwins(all[i], all[n]);
    if all[i].base == all[n].base { CountsBoth(all, i, n); }
  }

  lemma BlockedIsBorrowed(all: seq<Titled>, n: nat)
    requires Hashed(all) && n < |all|
    ensures Blocked(all, n) <==> Borrowed(all, n)
  {
    FullIsClaimed(all, n);
    ShortIsClaimed(all, n);
    forall i | 0 <= i < n && Twins(all[i], all[n]) ensures Crowded(all, n) { CountsBoth(all, i, n); }
  }

  lemma FullIsClaimed(all: seq<Titled>, n: nat)
    requires Hashed(all) && n < |all|
    ensures Claimed(all, n, FullName(all[n])) <==> exists j :: 0 <= j < n && Alone(all, j, FullName(all[n]))
  {
    forall j | 0 <= j < n ensures Claims(all, j, FullName(all[n])) <==> Alone(all, j, FullName(all[n])) {
      ClaimsFull(all, j, n);
    }
  }

  lemma ShortIsClaimed(all: seq<Titled>, n: nat)
    requires Hashed(all) && n < |all|
    ensures Claimed(all, n, ShortName(all[n])) <==>
      (exists i :: 0 <= i < n && Twins(all[i], all[n])) || exists i :: 0 <= i < n && Alone(all, i, ShortName(all[n]))
  {
    forall i | 0 <= i < n
      ensures Claims(all, i, ShortName(all[n])) <==> Alone(all, i, ShortName(all[n])) || Twins(all[i], all[n])
    {
      ClaimsShort(all, i, n);
    }
  }

  // With different infohashes the folder names are unique exactly when no transfer's full name is an earlier
  // transfer's title while its short name is taken as well.
  lemma SlugsAreUniqueUnlessBorrowed(all: seq<Titled>)
    requires Hashed(all)
    ensures AllDifferent(SlugsFrom(all, |all|)) <==> forall n | 0 <= n < |all| :: !Borrowed(all, n)
  {
    forall n | 0 <= n < |all| ensures Blocked(all, n) <==> Borrowed(all, n) { BlockedIsBorrowed(all, n); }
    SlugsAreUniqueUnlessBlocked(all, |all|);
  }

  // In particular when no title ends like a full name.
  lemma SlugsAreUnique(all: seq<Titled>)
    requires Hashed(all) && forall i, j | 0 <= i < j < |all| :: all[i].base != FullName(all[j])
    ensures AllDifferent(SlugsFrom(all, |all|))
  {
    SlugsAreUniqueUnlessBorrowed(all);
  }

  // Otherwise they need not be: of these four transfers two get the same folder, whatever their infohashes.
  function Unlucky(ids: seq<string>): seq<Titled>
    requires |ids| == 4
  {
    [Titled(ids[0], "a-" + ids[3]), Titled(ids[1], "a-" + Short(ids[3])), Titled(ids[2], "a"), Titled(ids[3], "a")]
  }

  lemma LastResortCanBeTaken(ids: seq<string>)
    requires |ids| == 4 && forall id <- ids :: IsHex40(id)
    ensures var slugs := SlugsFrom(Unlucky(ids), 4); slugs[0] == slugs[3] == "a-" + ids[3]
  {
    var all := Unlucky(ids);
    var full, short := "a-" + ids[3], "a-" + Short(ids[3]);
    assert ids[3] in ids;
    assert |full| == 42 && |short| == 10;
    CountsOnce(all);
    var one, two, three := SlugsFrom(all, 1), SlugsFrom(all, 2), SlugsFrom(all, 3);
    assert SlugsFrom(all, 0) == [];
    assert one == [full];
    assert two == [full, short];
    assert three[0] == full && three[1] == short;
    assert full in Taken(all, 3) && short in Taken(all, 3);
    assert "a" + "-" == "a-";
    assert SlugFor(all, all[3], Taken(all, 3)) == full;
  }

  lemma CountsOnce(all: seq<Titled>)
    requires |all| == 4 && |all[0].base| == 42 && |all[1].base| == 10 && all[2].base == all[3].base == "a"
    ensures Count(all, all[0].base) == 1 && Count(all, all[1].base) == 1 && Count(all, "a") == 2
  {
    var a1, a2, a3 := all[1..], all[1..][1..], all[1..][1..][1..];
    assert a3[1..] == [];
    forall base ensures Count(a3, base) == if all[3].base == base then 1 else 0 {}
    forall base ensures Count(a2, base) == Count(a3, base) + if all[2].base == base then 1 else 0 {}
    forall base ensures Count(a1, base) == Count(a2, base) + if all[1].base == base then 1 else 0 {}
  }
}
