/** The virtual folder tree of a transfer's files: listing a folder, resolving a path, walking it all. */
module DavTree {
  import opened Hashes
  import opened OrderedMaps
  import opened Wrappers

  datatype File = File(id: string, path: string, bytes: nat)

  // path.split('/').filter(Boolean)
  function Split(path: string): (parts: seq<string>)
    ensures |parts| >= 1
  {
    if path == "" then [""]
    else
      var rest := Split(path[1..]);
      if path[0] == '/' then [""] + rest else [[path[0]] + rest[0]] + rest[1..]
  }

  function NonEmpty(parts: seq<string>): seq<string> {
    if parts == [] then [] else if parts[0] == "" then NonEmpty(parts[1..]) else [parts[0]] + NonEmpty(parts[1..])
  }

  function Parts(f: File): seq<string> { Segments(f.path) }

  function Segments(path: string): seq<string> { NonEmpty(Split(path)) }

  lemma {:induction false} SplitAtSlash(a: string, b: string)
    ensures Split(a + "/" + b) == Split(a) + Split(b)
  {
    var path := a + "/" + b;
    if a == "" {
      assert path == "/" + b && path[1..] == b;
    } else {
      SplitAtSlash(a[1..], b);
      assert path[1..] == a[1..] + "/" + b && path[0] == a[0];
      FirstJoins(a, Split(a[1..]), Split(b), Split(path[1..]));
    }
  }

  // What the first character does to the parts of the rest, it does to the first of them.
  lemma FirstJoins(a: string, front: seq<string>, back: seq<string>, rest: seq<string>)
    requires a != "" && front != [] && rest == front + back
    ensures [""] + rest == ([""] + front) + back
    ensures [[a[0]] + rest[0]] + rest[1..] == ([[a[0]] + front[0]] + front[1..]) + back
  {
    assert rest[0] == front[0] && rest[1..] == front[1..] + back;
  }

  lemma {:induction false} NonEmptyAdds(a: seq<string>, b: seq<string>)
    ensures NonEmpty(a + b) == NonEmpty(a) + NonEmpty(b)
  {
    if a == [] {
      assert a + b == b;
    } else {
      NonEmptyAdds(a[1..], b);
      assert (a + b)[1..] == a[1..] + b && (a + b)[0] == a[0];
      assert [a[0]] + (NonEmpty(a[1..]) + NonEmpty(b)) == ([a[0]] + NonEmpty(a[1..])) + NonEmpty(b);
    }
  }

  lemma {:induction false} SplitOfOne(segment: string)
    requires '/' !in segment
    ensures Split(segment) == [segment]
  {
    if segment != "" {
      assert segment[0] in segment;
      SplitOfOne(segment[1..]);
      assert segment == [segment[0]] + segment[1..];
    }
  }

  // The segments of a path: a slash separates those in front of it from those behind it, a text without one is a
  // segment, and the empty text is none.
  lemma SegmentsSpell(a: string, b: string, segment: string)
    requires '/' !in segment
    ensures Segments(a + "/" + b) == Segments(a) + Segments(b)
    ensures Segments(segment) == if segment == "" then [] else [segment]
  {
    SplitAtSlash(a, b);
    NonEmptyAdds(Split(a), Split(b));
    SplitOfOne(segment);
    assert NonEmpty([segment]) == if segment == "" then [] else [segment] + NonEmpty([]);
  }

  predicate Under(prefix: seq<string>, parts: seq<string>) { |parts| > |prefix| && parts[..|prefix|] == prefix }

  datatype Child = Folder | Entry(file: File)
  type Children = OrderedMap<string, Child>

  // One turn of childrenAt's loop: a file takes its name over, a folder only a free one.
  function Add(children: Children, prefix: seq<string>, f: File): Children {
    var parts := Parts(f);
    if !Under(prefix, parts) then children
    else if |parts| == |prefix| + 1 then Set(children, parts[|prefix|], Entry(f))
    else if Named(children, parts[|prefix|]).None? then Set(children, parts[|prefix|], Folder)
    else children
  }

  function Named(children: Children, name: string): Option<Child> { Get(children, name) }

  function ChildrenOf(files: seq<File>, prefix: seq<string>): Children {
    if files == [] then [] else Add(ChildrenOf(files[..|files| - 1], prefix), prefix, files[|files| - 1])
  }

  method ChildrenAt(files: seq<File>, prefix: seq<string>) returns (children: Children)
    ensures children == ChildrenOf(files, prefix)
  {
    children := [];
    for i := 0 to |files|
      invariant children == ChildrenOf(files[..i], prefix)
    {
      assert files[..i + 1][..i] == files[..i];
      var parts := Parts(files[i]);
      if Under(prefix, parts) {
        var name := parts[|prefix|];
        if |parts| == |prefix| + 1 {
          children := Set(children, name, Entry(files[i]));
        } else if Named(children, name).None? {
          children := Set(children, name, Folder);
        }
      }
    }
    assert files[..|files|] == files;
  }

  predicate IsKnownFolder(files: seq<File>, prefix: seq<string>) {
    prefix == [] || exists f <- files :: Under(prefix, Parts(f))
  }

  // files.find(...): the first file with exactly these segments.
  function FileAt(files: seq<File>, segments: seq<string>): Option<File> {
    if segments == [] || files == [] then None
    else if Parts(files[0]) == segments then Some(files[0])
    else FileAt(files[1..], segments)
  }

  datatype Resource = Collection(children: Children) | Document(file: File)

  function Resolve(files: seq<File>, segments: seq<string>): Option<Resource> {
    var file := FileAt(files, segments);
    if file.Some? then Some(Document(file.value))
    else if IsKnownFolder(files, segments) then Some(Collection(ChildrenOf(files, segments)))
    else None
  }

  // ----- what is listed -------------------------------------------------------------------------------

  // The last file with exactly these segments.
  function LastAt(files: seq<File>, segments: seq<string>): Option<File> {
    if files == [] then None
    else if Parts(files[|files| - 1]) == segments then Some(files[|files| - 1])
    else LastAt(files[..|files| - 1], segments)
  }

  // What should stand under a name: the last file of exactly that path, or else a folder if some file lies
  // further below.
  function Listed(files: seq<File>, path: seq<string>): Option<Child> {
    if LastAt(files, path).Some? then Some(Entry(LastAt(files, path).value))
    else if exists f <- files :: Under(path, Parts(f)) then Some(Folder)
    else None
  }

  lemma UnderOne(prefix: seq<string>, name: string, parts: seq<string>)
    ensures Under(prefix, parts) && parts[|prefix|] == name <==>
      parts == prefix + [name] || Under(prefix + [name], parts)
  {
    if Under(prefix, parts) && parts[|prefix|] == name {
      assert parts[..|prefix| + 1] == prefix + [name];
      if |parts| == |prefix| + 1 { assert parts == parts[..|prefix| + 1]; }
    }
    if Under(prefix + [name], parts) {
      assert parts[..|prefix|] == parts[..|prefix| + 1][..|prefix|];
      assert parts[|prefix|] == parts[..|prefix| + 1][|prefix|];
    }
  }

  lemma {:induction false} ChildrenAreListed(files: seq<File>, prefix: seq<string>, name: string)
    ensures Named(ChildrenOf(files, prefix), name) == Listed(files, prefix + [name])
  {
    if files != [] {
      var front, f := files[..|files| - 1], files[|files| - 1];
      assert files == front + [f];
      ChildrenAreListed(front, prefix, name);
      AddOne(ChildrenOf(front, prefix), prefix, f, name);
      UnderOne(prefix, name, Parts(f));
    }
  }

  lemma AddOne(children: Children, prefix: seq<string>, f: File, name: string)
    ensures var parts := Parts(f); var before := Named(children, name);
      Named(Add(children, prefix, f), name) ==
        if parts == prefix + [name] then Some(Entry(f))
        else if Under(prefix + [name], parts) && before.None? then Some(Folder)
        else before
  {
    var parts := Parts(f);
    UnderOne(prefix, name, parts);
    if Under(prefix, parts) {
      SetThenGet(children, parts[|prefix|], Entry(f), name);
      SetThenGet(children, parts[|prefix|], Folder, name);
    }
  }

  lemma {:induction false} FirstAndLast(files: seq<File>, path: seq<string>)
    requires path != []
    ensures FileAt(files, path).Some? <==> exists f <- files :: Parts(f) == path
    ensures LastAt(files, path).Some? <==> exists f <- files :: Parts(f) == path
    ensures FileAt(files, path).Some? ==> FileAt(files, path).value in files && Parts(FileAt(files, path).value) == path
    ensures LastAt(files, path).Some? ==> LastAt(files, path).value in files && Parts(LastAt(files, path).value) == path
  {
    FirstFound(files, path);
    LastFound(files, path);
  }

  lemma {:induction false} FirstFound(files: seq<File>, path: seq<string>)
    requires path != []
    ensures FileAt(files, path).Some? <==> exists f <- files :: Parts(f) == path
    ensures FileAt(files, path).Some? ==> FileAt(files, path).value in files && Parts(FileAt(files, path).value) == path
  {
    if files != [] {
      FirstFound(files[1..], path);
      assert files == [files[0]] + files[1..];
    }
  }

  lemma {:induction false} LastFound(files: seq<File>, path: seq<string>)
    ensures LastAt(files, path).Some? <==> exists f <- files :: Parts(f) == path
    ensures LastAt(files, path).Some? ==> LastAt(files, path).value in files && Parts(LastAt(files, path).value) == path
  {
    if files != [] {
      LastFound(files[..|files| - 1], path);
      assert files == files[..|files| - 1] + [files[|files| - 1]];
    }
  }

  // ----- listing and resolving agree ---------------------------------------------------------------------

  // For any files at all, a name is listed in a folder exactly when the extended path resolves, and as the
  // same kind; and it is the same file exactly when the first and the last file of that path are.
  lemma ListingAgreesWithResolution(files: seq<File>, prefix: seq<string>, name: string)
    ensures var child := Named(ChildrenOf(files, prefix), name); var found := Resolve(files, prefix + [name]);
      && (child.Some? <==> found.Some?)
      && (child.Some? ==> (child.value.Folder? <==> found.value.Collection?))
      && (child.Some? && child.value.Entry? ==>
            (child.value.file == found.value.file <==>
              FileAt(files, prefix + [name]) == LastAt(files, prefix + [name])))
  {
    ChildrenAreListed(files, prefix, name);
    FirstAndLast(files, prefix + [name]);
  }

  predicate DistinctPaths(files: seq<File>) { forall i, j | 0 <= i < j < |files| :: Parts(files[i]) != Parts(files[j]) }

  // With distinct paths they are, and the order the files come in does not matter.
  lemma DistinctPathsAgree(files: seq<File>, other: seq<File>, path: seq<string>)
    requires DistinctPaths(files) && multiset(files) == multiset(other) && path != []
    ensures FileAt(files, path) == LastAt(files, path) == FileAt(other, path) == LastAt(other, path)
    ensures Listed(files, path) == Listed(other, path)
  {
    FirstAndLast(files, path);
    FirstAndLast(other, path);
    assert forall f :: f in files <==> f in multiset(files);
    assert forall f :: f in other <==> f in multiset(other);
    forall f, g | f in files && g in files && Parts(f) == Parts(g) ensures f == g {
      var i :| 0 <= i < |files| && files[i] == f;
      var j :| 0 <= j < |files| && files[j] == g;
    }
  }

  // Two files of one path: the folder lists the last, the path opens the first.
  lemma TwinsDisagree(a: File, b: File, prefix: seq<string>, name: string)
    requires Parts(a) == Parts(b) == prefix + [name] && a != b
    ensures Named(ChildrenOf([a, b], prefix), name) == Some(Entry(b))
      && Resolve([a, b], prefix + [name]) == Some(Document(a))
  {
    ChildrenAreListed([a, b], prefix, name);
    assert [a, b][..1] == [a];
  }

  // ----- walking the whole tree ---------------------------------------------------------------------------

  function MaxDepth(files: seq<File>): (n: nat)
    ensures forall f <- files :: |Parts(f)| <= n
  {
    if files == [] then 0
    else
      assert files == [files[0]] + files[1..];
      var n := MaxDepth(files[1..]);
      if |Parts(files[0])| < n then n else |Parts(files[0])|
  }

  // List a folder, take its files, and go into its folders.
  function Walk(files: seq<File>, prefix: seq<string>): seq<File>
    requires |prefix| <= MaxDepth(files)
    decreases MaxDepth(files) - |prefix|, 1, 0
  {
    WalkInto(files, prefix, ChildrenOf(files, prefix))
  }

  function WalkInto(files: seq<File>, prefix: seq<string>, children: Children): seq<File>
    requires |prefix| <= MaxDepth(files)
    decreases MaxDepth(files) - |prefix|, 0, |children|
  {
    if children == [] then []
      else Visit(files, prefix, children[0].0, children[0].1) + WalkInto(files, prefix, children[1..])
  }

  // A folder has a file below it, so it is never at the greatest depth.
  function Visit(files: seq<File>, prefix: seq<string>, name: string, child: Child): seq<File>
    requires |prefix| <= MaxDepth(files)
    decreases MaxDepth(files) - |prefix|, 0, 0
  {
    match child
    case Entry(f) => [f]
    case Folder => if |prefix| == MaxDepth(files) then [] else Walk(files, prefix + [name])
  }

  // No file sits where a folder on the way from the prefix to this path would have to be.
  ghost predicate Clear(files: seq<File>, prefix: seq<string>, parts: seq<string>) {
    forall k | |prefix| < k < |parts| :: LastAt(files, parts[..k]).None?
  }

  ghost predicate Reached(files: seq<File>, prefix: seq<string>, f: File) {
    Under(prefix, Parts(f)) && Clear(files, prefix, Parts(f)) && LastAt(files, Parts(f)) == Some(f)
  }

  function Times(b: bool): nat { if b then 1 else 0 }

  lemma {:induction false} ChildrenDistinct(files: seq<File>, prefix: seq<string>)
    ensures Distinct(ChildrenOf(files, prefix))
  {
    if files != [] {
      var front, f := files[..|files| - 1], files[|files| - 1];
      ChildrenDistinct(front, prefix);
      if Under(prefix, Parts(f)) {
        SetKeepsDistinct(ChildrenOf(front, prefix), Parts(f)[|prefix|], Entry(f));
        SetKeepsDistinct(ChildrenOf(front, prefix), Parts(f)[|prefix|], Folder);
      }
    }
  }

  // Children as a folder lists them, or the rest of them.
  predicate Truthful(files: seq<File>, prefix: seq<string>, children: Children) {
    Distinct(children) && forall i | 0 <= i < |children| ::
      Listed(files, prefix + [children[i].0]) == Some(children[i].1)
  }

  lemma ChildrenAreTruthful(files: seq<File>, prefix: seq<string>)
    ensures Truthful(files, prefix, ChildrenOf(files, prefix))
  {
    var children := ChildrenOf(files, prefix);
    ChildrenDistinct(files, prefix);
    forall i | 0 <= i < |children| ensures Listed(files, prefix + [children[i].0]) == Some(children[i].1) {
      EachGets(children, i);
      ChildrenAreListed(files, prefix, children[i].0);
    }
  }

  // A walk below a folder visits a file once if it reaches it, and otherwise not at all.
  lemma {:induction false} WalkCounts(files: seq<File>, prefix: seq<string>, f: File)
    requires |prefix| <= MaxDepth(files)
    ensures multiset(Walk(files, prefix))[f] == Times(Reached(files, prefix, f))
    decreases MaxDepth(files) - |prefix|, 1, 0
  {
    var children := ChildrenOf(files, prefix);
    ChildrenAreTruthful(files, prefix);
    WalkIntoCounts(files, prefix, children, f);
    if Reached(files, prefix, f) {
      ChildrenAreListed(files, prefix, Parts(f)[|prefix|]);
      ReachedIsListed(files, prefix, f);
    }
  }

  lemma ReachedIsListed(files: seq<File>, prefix: seq<string>, f: File)
    requires Reached(files, prefix, f)
    ensures Listed(files, prefix + [Parts(f)[|prefix|]]).Some?
  {
    UnderOne(prefix, Parts(f)[|prefix|], Parts(f));
    LastFound(files, Parts(f));
  }

  lemma {:induction false} WalkIntoCounts(files: seq<File>, prefix: seq<string>, children: Children, f: File)
    requires |prefix| <= MaxDepth(files) && Truthful(files, prefix, children)
    ensures multiset(WalkInto(files, prefix, children))[f] ==
      Times(Reached(files, prefix, f) && Named(children, Parts(f)[|prefix|]).Some?)
    decreases MaxDepth(files) - |prefix|, 0, |children|
  {
    if children != [] {
      var name, child, rest := children[0].0, children[0].1, children[1..];
      assert Truthful(files, prefix, rest) by {
        forall i | 0 <= i < |rest|
          ensures Listed(files, prefix + [rest[i].0]) == Some(rest[i].1)
        {
          assert rest[i] == children[i + 1];
        }
      }
      VisitCounts(files, prefix, name, child, f);
      WalkIntoCounts(files, prefix, rest, f);
    }
  }

  lemma {:induction false} VisitCounts(files: seq<File>, prefix: seq<string>, name: string, child: Child, f: File)
    requires |prefix| <= MaxDepth(files) && Listed(files, prefix + [name]) == Some(child)
    ensures multiset(Visit(files, prefix, name, child))[f] ==
      Times(Reached(files, prefix, f) && Parts(f)[|prefix|] == name)
    decreases MaxDepth(files) - |prefix|, 0, 0
  {
    UnderOne(prefix, name, Parts(f));
    LastFound(files, prefix + [name]);
    if child.Entry? {
      BelowAFile(files, prefix, name, f);
    } else {
      var g :| g in files && Under(prefix + [name], Parts(g));
      WalkCounts(files, prefix + [name], f);
      BelowAFolder(files, prefix, name, f);
    }
  }

  // At a file, the walk reaches that file and nothing below it.
  lemma BelowAFile(files: seq<File>, prefix: seq<string>, name: string, f: File)
    requires LastAt(files, prefix + [name]).Some?
    ensures Reached(files, prefix, f) && Parts(f)[|prefix|] == name <==> LastAt(files, prefix + [name]) == Some(f)
  {
    var parts := Parts(f);
    UnderOne(prefix, name, parts);
    LastFound(files, prefix + [name]);
    if Under(prefix + [name], parts) { assert parts[..|prefix| + 1] == prefix + [name]; }
  }

  // At a folder, what is reached is reached from there.
  lemma BelowAFolder(files: seq<File>, prefix: seq<string>, name: string, f: File)
    requires LastAt(files, prefix + [name]).None?
    ensures Reached(files, prefix, f) && Parts(f)[|prefix|] == name <==> Reached(files, prefix + [name], f)
  {
    var parts := Parts(f);
    UnderOne(prefix, name, parts);
    if Under(prefix + [name], parts) {
      assert parts[..|prefix| + 1] == prefix + [name];
      assert Clear(files, prefix, parts) <==> Clear(files, prefix + [name], parts);
    }
  }

  // A recursive walk from the root visits a file exactly once if no file stands in its way and it is the
  // last of its path, and never otherwise.
  lemma WalkVisitsTheReachable(files: seq<File>, f: File)
    ensures multiset(Walk(files, []))[f] ==
      Times(Parts(f) != [] && Clear(files, [], Parts(f)) && LastAt(files, Parts(f)) == Some(f))
  {
    WalkCounts(files, [], f);
    assert Parts(f)[..0] == [];
  }

  predicate PrefixFree(files: seq<File>) {
    && DistinctPaths(files)
    && forall f, g | f in files && g in files :: Parts(f) != [] && !Under(Parts(f), Parts(g))
  }

  // When no path leads through another, the walk visits every file exactly once.
  lemma WalkVisitsEveryFileOnce(files: seq<File>)
    requires PrefixFree(files)
    ensures multiset(Walk(files, [])) == multiset(files)
  {
    forall f: File ensures multiset(Walk(files, []))[f] == multiset(files)[f] {
      WalkVisitsTheReachable(files, f);
      OnceEach(files, f);
      LastFound(files, Parts(f));
      if f in files {
        forall k | 0 < k < |Parts(f)| ensures LastAt(files, Parts(f)[..k]).None? {
          LastFound(files, Parts(f)[..k]);
          forall g <- files ensures Parts(g) != Parts(f)[..k] { assert !Under(Parts(g), Parts(f)); }
        }
        DistinctPathsAgree(files, files, Parts(f));
        LastIsTheOne(files, f);
      }
    }
  }

  lemma LastIsTheOne(files: seq<File>, f: File)
    requires DistinctPaths(files) && f in files
    ensures LastAt(files, Parts(f)) == Some(f)
  {
    LastFound(files, Parts(f));
    var g := LastAt(files, Parts(f)).value;
    var i :| 0 <= i < |files| && files[i] == f;
    var j :| 0 <= j < |files| && files[j] == g;
  }

  lemma {:induction false} OnceEach(files: seq<File>, f: File)
    requires DistinctPaths(files)
    ensures multiset(files)[f] == Times(f in files)
  {
    if files != [] {
      assert files == [files[0]] + files[1..];
      OnceEach(files[1..], f);
      assert forall k | 0 <= k < |files[1..]| :: files[1..][k] == files[k + 1];
      assert files[0] !in files[1..];
    }
  }
}
