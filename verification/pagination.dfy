/** The paged listing of transfers: newest first, resumed behind a cursor that names the last item seen. */
module Pagination {
  import opened Decimals
  import opened Hashes
  import opened Wrappers

  datatype Item = Item(addedAt: nat, id: string)

  // String comparison as the sort and the cursor filter use it.
  predicate Less(a: string, b: string) {
    b != "" && (a == "" || a[0] < b[0] || (a[0] == b[0] && Less(a[1..], b[1..])))
  }

  // Newest first, then by infohash.
  predicate Before(a: Item, b: Item) { a.addedAt > b.addedAt || (a.addedAt == b.addedAt && Less(a.id, b.id)) }

  lemma {:induction false} LessIsStrict(a: string, b: string)
    ensures !(Less(a, b) && Less(b, a)) && (a == b ==> !Less(a, b)) && (a != b ==> Less(a, b) || Less(b, a))
  {
    if a != "" && b != "" && a[0] == b[0] {
      LessIsStrict(a[1..], b[1..]);
      assert a == [a[0]] + a[1..] && b == [b[0]] + b[1..];
    }
  }

  lemma {:induction false} LessIsTransitive(a: string, b: string, c: string)
    requires Less(a, b) && Less(b, c)
    ensures Less(a, c)
  {
    if a != "" && a[0] == b[0] && b[0] == c[0] {
      LessIsTransitive(a[1..], b[1..], c[1..]);
    }
  }

  lemma BeforeIsTotal(a: Item, b: Item)
    ensures !(Before(a, b) && Before(b, a)) && (a == b ==> !Before(a, b)) && (a != b ==> Before(a, b) || Before(b, a))
  {
    LessIsStrict(a.id, b.id);
  }

  lemma BeforeIsTransitive(a: Item, b: Item, c: Item)
    requires Before(a, b) && Before(b, c)
    ensures Before(a, c)
  {
    if a.addedAt == b.addedAt == c.addedAt { LessIsTransitive(a.id, b.id, c.id); }
  }

  // ----- sorting -------------------------------------------------------------------------------------

  predicate Sorted(items: seq<Item>) { forall i, j | 0 <= i < j < |items| :: Before(items[i], items[j]) }

  predicate Distinct(items: seq<Item>) { forall i, j | 0 <= i < j < |items| :: items[i] != items[j] }

  function Insert(item: Item, sorted: seq<Item>): seq<Item> {
    if sorted == [] || Before(item, sorted[0]) then [item] + sorted else [sorted[0]] + Insert(item, sorted[1..])
  }

  function Sort(items: seq<Item>): seq<Item> { if items == [] then [] else Insert(items[0], Sort(items[1..])) }

  lemma {:induction false} InsertKeepsItems(item: Item, sorted: seq<Item>)
    ensures multiset(Insert(item, sorted)) == multiset(sorted) + multiset{item}
  {
    if sorted != [] {
      assert sorted == [sorted[0]] + sorted[1..];
      if !Before(item, sorted[0]) { InsertKeepsItems(item, sorted[1..]); }
    }
  }

  lemma {:induction false} InsertSorts(item: Item, sorted: seq<Item>)
    requires Sorted(sorted) && item !in sorted
    ensures Sorted(Insert(item, sorted))
  {
    if sorted == [] {
    } else if Before(item, sorted[0]) {
      forall j | 0 < j < |sorted| ensures Before(item, sorted[j]) { BeforeIsTransitive(item, sorted[0], sorted[j]); }
    } else {
      var rest := Insert(item, sorted[1..]);
      InsertSorts(item, sorted[1..]);
      InsertKeepsItems(item, sorted[1..]);
      BeforeIsTotal(item, sorted[0]);
      forall j | 0 <= j < |rest| ensures Before(sorted[0], rest[j]) {
        assert rest[j] in multiset(rest);
        assert rest[j] == item || rest[j] in sorted[1..];
      }
    }
  }

  lemma {:induction false} SortSorts(items: seq<Item>)
    requires Distinct(items)
    ensures Sorted(Sort(items)) && multiset(Sort(items)) == multiset(items)
  {
    if items != [] {
      SortSorts(items[1..]);
      assert items == [items[0]] + items[1..];
      assert items[0] !in items[1..];
      assert items[0] !in multiset(Sort(items[1..]));
      InsertSorts(items[0], Sort(items[1..]));
      InsertKeepsItems(items[0], Sort(items[1..]));
    }
  }

  // ----- one page ------------------------------------------------------------------------------------

  predicate Behind(item: Item, cursor: Option<Item>) { cursor.Some? ==> Before(cursor.value, item) }

  function Filter(items: seq<Item>, cursor: Option<Item>): seq<Item> {
    if items == [] then []
    else if Behind(items[0], cursor) then [items[0]] + Filter(items[1..], cursor)
    else Filter(items[1..], cursor)
  }

  datatype Page = Page(items: seq<Item>, next: Option<Item>)

  function Cut(rest: seq<Item>, limit: nat): Page
    requires limit > 0
  {
    var page := if |rest| < limit then rest else rest[..limit];
    Page(page, if |page| == limit && |rest| > limit then Some(page[|page| - 1]) else None)
  }

  function PageOf(library: seq<Item>, cursor: Option<Item>, limit: nat): Page
    requires limit > 0
  {
    Cut(Filter(Sort(library), cursor), limit)
  }

  // The listing branch: sort, drop what the cursor has passed, take a page.
  method List(library: seq<Item>, cursor: Option<Item>, limit: nat) returns (page: Page)
    requires limit > 0
    ensures page == PageOf(library, cursor, limit)
  {
    var items := Sort(library);
    var kept: seq<Item> := [];
    for i := 0 to |items|
      invariant kept + Filter(items[i..], cursor) == Filter(items, cursor)
    {
      assert items[i..][1..] == items[i + 1..];
      if Behind(items[i], cursor) { kept := kept + [items[i]]; }
    }
    assert items[|items|..] == [] && kept == Filter(items, cursor);
    var taken := if |kept| < limit then kept else kept[..limit];
    page := Page(taken, if |taken| == limit && |kept| > limit then Some(taken[|taken| - 1]) else None);
  }

  lemma {:induction false} FilterKeeps(items: seq<Item>, cursor: Option<Item>, x: Item)
    ensures x in Filter(items, cursor) <==> x in items && Behind(x, cursor)
  {
    if items != [] {
      assert items == [items[0]] + items[1..];
      FilterKeeps(items[1..], cursor, x);
    }
  }

  lemma {:induction false} FilterSorts(items: seq<Item>, cursor: Option<Item>)
    requires Sorted(items)
    ensures Sorted(Filter(items, cursor))
  {
    if items != [] {
      var rest := Filter(items[1..], cursor);
      FilterSorts(items[1..], cursor);
      forall j | 0 <= j < |rest| ensures Before(items[0], rest[j]) {
        FilterKeeps(items[1..], cursor, rest[j]);
        var k :| 0 <= k < |items[1..]| && items[1..][k] == rest[j];
        assert items[k + 1] == rest[j];
      }
    }
  }

  lemma {:induction false} SortedHasEachOnce(items: seq<Item>, x: Item)
    requires Sorted(items)
    ensures multiset(items)[x] <= 1
  {
    if items != [] {
      assert items == [items[0]] + items[1..];
      SortedHasEachOnce(items[1..], x);
      if x == items[0] && x in items[1..] {
        var k :| 0 <= k < |items[1..]| && items[1..][k] == x;
        BeforeIsTotal(items[0], items[k + 1]);
      }
    }
  }

  lemma SortedIn(library: seq<Item>, x: Item)
    requires Distinct(library)
    ensures x in Sort(library) <==> x in library
  {
    SortSorts(library);
    assert x in multiset(Sort(library)) <==> x in multiset(library);
  }

  // What a page says about one item: it holds it at most once, and only if the library has it behind the
  // cursor; an item behind the cursor that it does not hold lies behind its last one.
  lemma PageMeaning(library: seq<Item>, cursor: Option<Item>, limit: nat, x: Item)
    requires limit > 0 && Distinct(library)
    ensures var page := PageOf(library, cursor, limit);
      && multiset(page.items)[x] <= 1
      && (x in page.items ==> x in library && Behind(x, cursor) && (page.next.Some? ==> !Before(page.next.value, x)))
      && (x in library && Behind(x, cursor) && x !in page.items ==> page.next.Some? && Before(page.next.value, x))
      && (page.next.Some? ==> Behind(page.next.value, cursor) && page.next.value in page.items)
  {
    var rest := Filter(Sort(library), cursor);
    SortSorts(library);
    FilterSorts(Sort(library), cursor);
    FilterKeeps(Sort(library), cursor, x);
    SortedIn(library, x);
    CutMeaning(rest, limit, x);
    var page := Cut(rest, limit);
    if page.next.Some? {
      FilterKeeps(Sort(library), cursor, page.next.value);
      assert page.next.value in rest;
    }
  }

  lemma CutMeaning(rest: seq<Item>, limit: nat, x: Item)
    requires limit > 0 && Sorted(rest)
    ensures var page := Cut(rest, limit);
      && multiset(page.items)[x] <= 1
      && (x in page.items ==> x in rest && (page.next.Some? ==> !Before(page.next.value, x)))
      && (x in rest && x !in page.items ==> page.next.Some? && Before(page.next.value, x))
      && (page.next.Some? ==> page.next.value in page.items)
  {
    var page := Cut(rest, limit);
    SortedHasEachOnce(page.items, x);
    if x in rest {
      var k :| 0 <= k < |rest| && rest[k] == x;
      if k < |page.items| { assert page.items[k] == x; }
    }
    if x in page.items && page.next.Some? {
      var k :| 0 <= k < |page.items| && page.items[k] == x;
      assert rest[k] == x && page.next.value == rest[|page.items| - 1];
      BeforeIsTotal(page.next.value, x);
    }
  }

  // ----- following the cursor --------------------------------------------------------------------------

  // The pages read one after the other while the library goes through these states, and whether the last
  // of them had no next_cursor.
  datatype Tour = Tour(pages: seq<Page>, done: bool)

  function Follow(libraries: seq<seq<Item>>, cursor: Option<Item>, limit: nat): Tour
    requires limit > 0
    decreases |libraries|
  {
    if libraries == [] then Tour([], false) else
    var page := PageOf(libraries[0], cursor, limit);
    if page.next.None? then Tour([page], true) else
    var rest := Follow(libraries[1..], page.next, limit);
    Tour([page] + rest.pages, rest.done)
  }

  function AllItems(pages: seq<Page>): seq<Item> { if pages == [] then [] else pages[0].items + AllItems(pages[1..]) }

  // Everything read behind a cursor lies behind it.
  lemma {:induction false} ReadBehind(libraries: seq<seq<Item>>, cursor: Option<Item>, limit: nat, x: Item)
    requires limit > 0 && forall l <- libraries :: Distinct(l)
    ensures x in AllItems(Follow(libraries, cursor, limit).pages) ==> Behind(x, cursor)
    decreases |libraries|
  {
    if libraries != [] {
      var page := PageOf(libraries[0], cursor, limit);
      PageMeaning(libraries[0], cursor, limit, x);
      assert libraries[0] in libraries;
      if page.next.Some? {
        ReadBehind(libraries[1..], page.next, limit, x);
        OnePageMore(page, Follow(libraries[1..], page.next, limit).pages);
        if cursor.Some? && Before(page.next.value, x) { BeforeIsTransitive(cursor.value, page.next.value, x); }
      } else {
        OnePageMore(page, []);
        assert [page] + [] == [page];
      }
    }
  }

  // However transfers come and go between the pages, no item is read twice, and one that was there all the
  // time is read exactly once by the time there is no next_cursor.
  lemma {:induction false} ReadOnce(libraries: seq<seq<Item>>, cursor: Option<Item>, limit: nat, x: Item)
    requires limit > 0 && (forall l <- libraries :: Distinct(l))
    ensures multiset(AllItems(Follow(libraries, cursor, limit).pages))[x] <= 1
    ensures Behind(x, cursor) && (forall l <- libraries :: x in l) && Follow(libraries, cursor, limit).done
      ==> multiset(AllItems(Follow(libraries, cursor, limit).pages))[x] == 1
    decreases |libraries|
  {
    if libraries != [] {
      var page := PageOf(libraries[0], cursor, limit);
      assert libraries[0] in libraries;
      PageMeaning(libraries[0], cursor, limit, x);
      if page.next.Some? {
        ReadOnce(libraries[1..], page.next, limit, x);
        ReadBehind(libraries[1..], page.next, limit, x);
        AddsUp(page, Follow(libraries[1..], page.next, limit).pages, x);
      } else {
        AddsUp(page, [], x);
      }
    }
  }

  lemma AddsUp(page: Page, rest: seq<Page>, x: Item)
    ensures multiset(AllItems([page] + rest))[x] == multiset(page.items)[x] + multiset(AllItems(rest))[x]
  {
    assert ([page] + rest)[1..] == rest;
  }

  // ----- a fixed library -----------------------------------------------------------------------------

  lemma {:induction false} FilterKeepsAll(items: seq<Item>, cursor: Option<Item>)
    requires forall i | 0 <= i < |items| :: Behind(items[i], cursor)
    ensures Filter(items, cursor) == items
  {
    if items != [] {
      assert items == [items[0]] + items[1..];
      FilterKeepsAll(items[1..], cursor);
    }
  }

  // Filtering a sorted list behind one of its items leaves exactly what follows it.
  lemma {:induction false} FilterIsSuffix(items: seq<Item>, k: nat)
    requires Sorted(items) && k < |items|
    ensures Filter(items, Some(items[k])) == items[k + 1..]
  {
    var cursor := Some(items[k]);
    BeforeIsTotal(items[0], items[k]);
    if k == 0 {
      FilterKeepsAll(items[1..], cursor);
    } else {
      FilterIsSuffix(items[1..], k - 1);
      assert items[1..][k..] == items[k + 1..];
    }
  }

  // The cursor after the first k items of the sorted library.
  function CursorAt(sorted: seq<Item>, k: nat): Option<Item>
    requires k <= |sorted|
  {
    if k == 0 then None else Some(sorted[k - 1])
  }

  // From any point, following next_cursor yields exactly the rest of the sorted library.
  lemma {:induction false} FollowsToTheEnd(library: seq<Item>, k: nat, limit: nat, tries: nat)
    requires Distinct(library) && limit > 0 && k <= |Sort(library)| && Enough(tries, limit, |Sort(library)| - k)
    ensures var tour := Follow(seq(tries, i => library), CursorAt(Sort(library), k), limit);
      tour.done && AllItems(tour.pages) == Sort(library)[k..] && Fills(|tour.pages|, limit, |Sort(library)| - k)
    decreases tries
  {
    var sorted := Sort(library);
    var n := |sorted| - k;
    RestBehind(library, k);
    CutAt(sorted, k, limit);
    if n > limit {
      OnePageCounts(tries, limit, n);
      FollowsToTheEnd(library, k + limit, limit, tries - 1);
      FollowsOn(library, k, limit, tries);
    } else {
      FollowsNoFurther(library, k, limit, tries);
    }
  }

  lemma FollowsOn(library: seq<Item>, k: nat, limit: nat, tries: nat)
    requires limit > 0 && tries > 0 && k + limit <= |Sort(library)|
    requires PageOf(library, CursorAt(Sort(library), k), limit) ==
      Page(Sort(library)[k..k + limit], CursorAt(Sort(library), k + limit))
    requires var rest := Follow(seq(tries - 1, i => library), CursorAt(Sort(library), k + limit), limit);
      rest.done && AllItems(rest.pages) == Sort(library)[k + limit..]
        && Fills(|rest.pages|, limit, |Sort(library)| - k - limit)
    requires |Sort(library)| - k > limit
    ensures var tour := Follow(seq(tries, i => library), CursorAt(Sort(library), k), limit);
      tour.done && AllItems(tour.pages) == Sort(library)[k..] && Fills(|tour.pages|, limit, |Sort(library)| - k)
  {
    var sorted, libraries := Sort(library), seq(tries, i => library);
    var page := PageOf(library, CursorAt(sorted, k), limit);
    assert libraries[1..] == seq(tries - 1, i => library);
    var rest := Follow(libraries[1..], page.next, limit);
    FollowOnce(libraries, CursorAt(sorted, k), limit, page, rest);
    PageBefore(sorted, k, limit, page, rest.pages);
  }

  lemma FollowOnce(libraries: seq<seq<Item>>, cursor: Option<Item>, limit: nat, page: Page, rest: Tour)
    requires limit > 0 && libraries != [] && page == PageOf(libraries[0], cursor, limit) && page.next.Some?
    requires rest == Follow(libraries[1..], page.next, limit)
    ensures Follow(libraries, cursor, limit) == Tour([page] + rest.pages, rest.done)
  {
  }

  lemma PageBefore(sorted: seq<Item>, k: nat, limit: nat, page: Page, rest: seq<Page>)
    requires limit > 0 && k + limit < |sorted| && page.items == sorted[k..k + limit]
    requires AllItems(rest) == sorted[k + limit..] && Fills(|rest|, limit, |sorted| - k - limit)
    ensures AllItems([page] + rest) == sorted[k..] && Fills(|[page] + rest|, limit, |sorted| - k)
  {
    OnePageMore(page, rest);
    assert sorted[k..k + limit] + sorted[k + limit..] == sorted[k..];
    FillsOneMore(|rest|, limit, |sorted| - k);
  }

  lemma FollowsNoFurther(library: seq<Item>, k: nat, limit: nat, tries: nat)
    requires limit > 0 && tries > 0 && k <= |Sort(library)| && |Sort(library)| - k <= limit
    requires PageOf(library, CursorAt(Sort(library), k), limit) == Page(Sort(library)[k..], None)
    ensures var tour := Follow(seq(tries, i => library), CursorAt(Sort(library), k), limit);
      tour.done && AllItems(tour.pages) == Sort(library)[k..] && Fills(|tour.pages|, limit, |Sort(library)| - k)
  {
    var page := PageOf(library, CursorAt(Sort(library), k), limit);
    OnePageMore(page, []);
    assert [page] + [] == [page];
  }

  // Enough pages of this size for n items; and no more than are needed, but always one.
  predicate Enough(pages: nat, limit: nat, n: nat) { pages > 0 && pages * limit >= n }
  predicate Fills(pages: nat, limit: nat, n: nat) { Enough(pages, limit, n) && (pages > 1 ==> (pages - 1) * limit < n) }

  lemma OnePageCounts(tries: nat, limit: nat, n: nat)
    requires Enough(tries, limit, n) && n > limit > 0
    ensures tries > 1 && Enough(tries - 1, limit, n - limit)
  {
    assert (tries - 1) * limit == tries * limit - limit;
  }

  lemma FillsOneMore(rest: nat, limit: nat, n: nat)
    requires n > limit > 0 && Fills(rest, limit, n - limit)
    ensures Fills(rest + 1, limit, n)
  {
    assert (rest + 1) * limit == rest * limit + limit;
    assert (rest - 1) * limit == rest * limit - limit;
  }

  lemma SortKeepsSize(library: seq<Item>)
    requires Distinct(library)
    ensures |Sort(library)| == |library|
  {
    SortSorts(library);
    assert |multiset(Sort(library))| == |Sort(library)| && |multiset(library)| == |library|;
  }

  lemma RestBehind(library: seq<Item>, k: nat)
    requires Distinct(library) && k <= |Sort(library)|
    ensures Filter(Sort(library), CursorAt(Sort(library), k)) == Sort(library)[k..]
  {
    SortSorts(library);
    var sorted := Sort(library);
    if k == 0 {
      FilterKeepsAll(sorted, None);
      assert sorted[0..] == sorted;
    } else {
      FilterIsSuffix(sorted, k - 1);
    }
  }

  lemma CutAt(sorted: seq<Item>, k: nat, limit: nat)
    requires k <= |sorted| && limit > 0
    ensures Cut(sorted[k..], limit) ==
      if |sorted| - k > limit then Page(sorted[k..k + limit], CursorAt(sorted, k + limit)) else Page(sorted[k..], None)
  {
    if |sorted| - k >= limit { assert sorted[k..][..limit] == sorted[k..k + limit]; }
    if |sorted| - k == limit { assert sorted[k..k + limit] == sorted[k..]; }
  }

  lemma OnePageMore(page: Page, rest: seq<Page>)
    ensures AllItems([page] + rest) == page.items + AllItems(rest)
  {
    assert ([page] + rest)[1..] == rest;
  }

  // Paging through a library that does not change reads every transfer exactly once, newest first.
  lemma WholeLibraryOnce(library: seq<Item>, limit: nat, tries: nat)
    requires Distinct(library) && limit > 0 && Enough(tries, limit, |library|)
    ensures var tour := Follow(seq(tries, i => library), None, limit);
      tour.done && Sorted(AllItems(tour.pages)) && multiset(AllItems(tour.pages)) == multiset(library)
      && Fills(|tour.pages|, limit, |library|)
  {
    SortKeepsSize(library);
    FollowsToTheEnd(library, 0, limit, tries);
    SortSorts(library);
    assert Sort(library)[0..] == Sort(library);
  }

  // ----- the cursor text -------------------------------------------------------------------------------

  function EncodeCursor(item: Item): string { Decimal(item.addedAt) + ":" + item.id }

  function ColonAt(text: string): (k: nat)
    ensures k <= |text| && (k < |text| ==> text[k] == ':')
  {
    if text == "" || text[0] == ':' then 0 else 1 + ColonAt(text[1..])
  }

  // The text before the first colon is the time, everything behind it the id.
  function DecodeCursor(text: string): Option<Item> {
    var k := ColonAt(text);
    var head := text[..k];
    var id := if k < |text| then text[k + 1..] else "";
    if head == "" || !Digits(head) || !IsHex40(id) then None else Some(Item(Number(head), id))
  }

  lemma {:induction false} ColonBehindDigits(head: string, tail: string)
    requires Digits(head)
    ensures ColonAt(head + ":" + tail) == |head|
  {
    var text := head + ":" + tail;
    if head == "" {
      assert text[0] == ':';
    } else {
      assert text[0] == head[0] && text[1..] == head[1..] + ":" + tail;
      ColonBehindDigits(head[1..], tail);
    }
  }

  lemma DecodeUndoesEncode(item: Item)
    requires IsHex40(item.id)
    ensures DecodeCursor(EncodeCursor(item)) == Some(item)
  {
    var head := Decimal(item.addedAt);
    var text := EncodeCursor(item);
    ColonBehindDigits(head, item.id);
    assert text[..|head|] == head && text[|head| + 1..] == item.id;
    NumberOfDecimal(item.addedAt);
  }
}
