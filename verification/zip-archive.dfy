/** What an archive of stored files is, and a reader that finds everything in it again. */
module ZipArchive {
  import opened Bytes
  import opened Checksum
  import opened Wrappers
  import opened ZipRecords

  datatype File = File(name: seq<Byte>, data: seq<Byte>, time: nat, date: nat)

  function Crc(f: File): nat { Unsigned(Crc32(f.data, 0)) }

  function Member(f: File): seq<Byte> {
    Encode(LocalHeader(|f.name|, f.time, f.date))
      + (f.name + (Encode(LocalExtra(|f.data|)) + (f.data + Encode(Descriptor(Crc(f), |f.data|)))))
  }

  function CentralRecord(e: Entry): seq<Byte> {
    Encode(CentralHeader(e)) + (e.name + Encode(CentralExtra(e)))
  }

  function Concat(parts: seq<seq<Byte>>): seq<Byte> {
    if parts == [] then [] else Concat(parts[..|parts| - 1]) + parts[|parts| - 1]
  }

  function Members(files: seq<File>): seq<seq<Byte>> { seq(|files|, k requires 0 <= k < |files| => Member(files[k])) }

  function Body(files: seq<File>): seq<Byte> { Concat(Members(files)) }

  function EntryOf(f: File, offset: nat): Entry { Entry(f.name, |f.data|, Crc(f), offset, f.time, f.date) }

  // Each member remembered with where it begins.
  function Entries(files: seq<File>): (entries: seq<Entry>)
    ensures |entries| == |files|
  {
    seq(|files|, k requires 0 <= k < |files| => EntryOf(files[k], |Body(files[..k])|))
  }

  function Records(entries: seq<Entry>): seq<seq<Byte>> {
    seq(|entries|, k requires 0 <= k < |entries| => CentralRecord(entries[k]))
  }

  function Directory(entries: seq<Entry>): seq<Byte> {
    Concat(Records(entries))
  }

  function Trailer(count: nat, size: nat, start: nat): seq<Byte> {
    Encode(Zip64End(count, size, start)) + (Encode(Locator(start + size)) + Encode(End()))
  }

  function Archive(files: seq<File>): seq<Byte> {
    var directory := Directory(Entries(files));
    (Body(files) + directory) + Trailer(|files|, |directory|, |Body(files)|)
  }

  // ----- the reader ---------------------------------------------------------------------------

  const LOCAL_WIDTHS: seq<nat> := [4, 2, 2, 2, 2, 2, 4, 4, 4, 2, 2]
  const DESCRIPTOR_WIDTHS: seq<nat> := [4, 4, 8, 8]
  const CENTRAL_WIDTHS: seq<nat> := [4, 2, 2, 2, 2, 2, 2, 4, 4, 4, 2, 2, 2, 2, 2, 4, 4]
  const END_WIDTHS: seq<nat> := [4, 2, 2, 2, 2, 4, 4, 2]
  const LOCATOR_WIDTHS: seq<nat> := [4, 4, 8, 4]
  const ZIP64_END_WIDTHS: seq<nat> := [4, 8, 2, 2, 4, 4, 8, 8, 8, 8]

  function Record(bytes: seq<Byte>, at: nat, size: nat, widths: seq<nat>): Option<seq<nat>> {
    if at + size > |bytes| then None else Some(Decode(bytes[at..at + size], widths))
  }

  // The `want` eight-byte values of the ZIP64 extra field, wherever it stands among the extra fields.
  function Zip64Values(extra: seq<Byte>, want: nat): Option<seq<nat>>
    decreases |extra|
  {
    if |extra| < 4 then None else
    var id := Number(extra[..2]);
    var size := Number(extra[2..4]);
    if 4 + size > |extra| then None
    else if id != 0x0001 then Zip64Values(extra[4 + size..], want)
    else if size < 8 * want then None
    else Some(Decode(extra[4..4 + size], seq(want, i => 8)))
  }

  // A member as the directory lists it; `coding` is its compression method.
  datatype Listed = Listed(
    name: seq<Byte>, size: nat, crc: nat, offset: nat, time: nat, date: nat,
    coding: nat, flags: nat, madeBy: nat, attributes: (nat, nat))

  function One(b: bool): nat { if b then 1 else 0 }

  // One central directory record, and where the next one starts. The reader implements version 4.5 of the format,
  // which ZIP64 needs and beyond which it knows nothing, and it has one disk.
  function ReadCentral(bytes: seq<Byte>, at: nat): Option<(Listed, nat)> {
    var fixed := Record(bytes, at, 46, CENTRAL_WIDTHS);
    if fixed.None? || fixed.value[0] != 0x0201_4b50 || fixed.value[2] != 45 || fixed.value[13] != 0 then None
    else ReadVariable(bytes, at + 46, fixed.value)
  }

  // The sizes and the offset. One that does not fit the fixed part is in the ZIP64 extra field, in the order
  // original size, compressed size, offset.
  function Extents(v: seq<nat>, extra: seq<Byte>): Option<(nat, nat, nat)>
    requires |v| == 17
  {
    var wideSize, widePacked, wideOffset := v[9] == 0xffff_ffff, v[8] == 0xffff_ffff, v[16] == 0xffff_ffff;
    var want := One(wideSize) + One(widePacked) + One(wideOffset);
    var wide := if want == 0 then Some([]) else Zip64Values(extra, want);
    if wide.None? || |wide.value| != want then None
    else Some((if wideSize then wide.value[0] else v[9],
               if widePacked then wide.value[One(wideSize)] else v[8],
               if wideOffset then wide.value[want - 1] else v[16]))
  }

  // The name and the extra fields behind the fixed part. A stored member is as long as its data.
  function ReadVariable(bytes: seq<Byte>, nameAt: nat, v: seq<nat>): Option<(Listed, nat)>
    requires |v| == 17
  {
    var extraAt, commentAt := nameAt + v[10], nameAt + v[10] + v[11];
    var next := commentAt + v[12];
    if next > |bytes| then None else
    var extents := Extents(v, bytes[extraAt..commentAt]);
    if extents.None? || (v[4] == 0 && extents.value.0 != extents.value.1) then None
    else Some((ListedFrom(bytes[nameAt..extraAt], v, extents.value.0, extents.value.2), next))
  }

  function ListedFrom(name: seq<Byte>, v: seq<nat>, size: nat, offset: nat): Listed
    requires |v| == 17
  {
    Listed(name, size, v[7], offset, v[5], v[6], v[4], v[3], v[1], (v[14], v[15]))
  }

  function ReadMany<T>(readOne: nat -> Option<(T, nat)>, at: nat, count: nat): Option<seq<T>>
    decreases count
  {
    if count == 0 then Some([]) else
    var one := readOne(at);
    if one.None? then None else
    var rest := ReadMany(readOne, one.value.1, count - 1);
    if rest.None? then None else Some([one.value.0] + rest.value)
  }

  function CentralReader(bytes: seq<Byte>): nat -> Option<(Listed, nat)> { from => ReadCentral(bytes, from) }

  function ReadDirectory(bytes: seq<Byte>, at: nat, count: nat): Option<seq<Listed>> {
    ReadMany(CentralReader(bytes), at, count)
  }

  // From the end record, every value of which refers to the ZIP64 end record, by way of the locator to that one,
  // and from there to the directory, which ends where that record begins.
  function ReadListing(bytes: seq<Byte>): Option<seq<Listed>> {
    if |bytes| < 42 then None else
    var end := Record(bytes, |bytes| - 22, 22, END_WIDTHS);
    var locator := Record(bytes, |bytes| - 42, 20, LOCATOR_WIDTHS);
    if end.None? || !Refers(end.value) then None
    else if locator.None? || locator.value[0] != 0x0706_4b50 || locator.value[1] != 0 || locator.value[3] != 1 then None
    else
      var zip64 := Record(bytes, locator.value[2], 56, ZIP64_END_WIDTHS);
      if zip64.None? || !EndsDirectory(zip64.value, locator.value[2]) then None
      else ReadDirectory(bytes, zip64.value[9], zip64.value[7])
  }

  // An end record that says nothing but: see the ZIP64 one.
  predicate Refers(v: seq<nat>)
    requires |v| == 8
  {
    && v[0] == 0x0605_4b50 && v[1] == v[2] == v[7] == 0
    && v[3] == v[4] == 0xffff && v[5] == v[6] == 0xffff_ffff
  }

  // A ZIP64 end record at `at`: 44 bytes follow its size, version 4.5, one disk with all of the directory on it.
  predicate EndsDirectory(v: seq<nat>, at: nat)
    requires |v| == 10
  {
    && v[0] == 0x0606_4b50 && v[1] == 44 && v[2] == v[3] == 45 && v[4] == v[5] == 0
    && v[6] == v[7] && v[9] + v[8] == at
  }

  // The data of a listed member: a local header at the offset that agrees with the directory, then the data.
  // Only stored members can be read.
  function ReadData(bytes: seq<Byte>, l: Listed): Option<seq<Byte>> {
    var fixed := Record(bytes, l.offset, 30, LOCAL_WIDTHS);
    if fixed.None? || !Agrees(fixed.value, l) || l.coding != 0 then None
    else ReadStored(bytes, l, fixed.value)
  }

  // Signature, version, flags, method, time and date.
  predicate Agrees(v: seq<nat>, l: Listed)
    requires |v| == 11
  {
    v[0] == 0x0403_4b50 && v[1] == 45 && v[2] == l.flags && v[3] == l.coding && v[4] == l.time && v[5] == l.date
  }

  // The name must be the listed one. Both sizes are in the ZIP64 extra field behind it.
  function ReadStored(bytes: seq<Byte>, l: Listed, v: seq<nat>): Option<seq<Byte>>
    requires |v| == 11
  {
    var extraAt, dataAt := l.offset + 30 + v[9], l.offset + 30 + v[9] + v[10];
    if dataAt > |bytes| || bytes[l.offset + 30..extraAt] != l.name || v[7] != 0xffff_ffff || v[8] != 0xffff_ffff
      || Zip64Values(bytes[extraAt..dataAt], 2) != Some([l.size, l.size]) then None
    else ReadContents(bytes, l, v[6], dataAt)
  }

  // With bit 3 of the flags the checksum is not in the header but in a descriptor behind the data.
  predicate Deferred(flags: nat) { flags / 8 % 2 == 1 }

  function ReadContents(bytes: seq<Byte>, l: Listed, headerCrc: nat, at: nat): Option<seq<Byte>> {
    if at + l.size > |bytes| then None else
    var data := bytes[at..at + l.size];
    var descriptor := Record(bytes, at + l.size, 24, DESCRIPTOR_WIDTHS);
    if headerCrc != (if Deferred(l.flags) then 0 else l.crc) then None
    else if Deferred(l.flags) && descriptor != Some([0x0807_4b50, l.crc, l.size, l.size]) then None
    else if Unsigned(Crc32(data, 0)) != l.crc then None
    else Some(data)
  }

  // What a reader should make of an entry: stored, with a descriptor and a UTF-8 name, by version 4.5.
  function ListedAs(e: Entry): Listed {
    Listed(e.name, e.size, e.crc, e.offset, e.time, e.date, 0, 0x0808, 45, (0, 0))
  }

  function Listing(entries: seq<Entry>): (listing: seq<Listed>)
    ensures |listing| == |entries|
  {
    seq(|entries|, k requires 0 <= k < |entries| => ListedAs(entries[k]))
  }

  // ----- records in place ---------------------------------------------------------------------

  lemma RecordHeld(bytes: seq<Byte>, at: nat, fields: seq<Field>, widths: seq<nat>)
    requires Holds(bytes, at, Encode(fields)) && Fits(fields) && Widths(fields) == widths
    ensures Record(bytes, at, |Encode(fields)|, widths) == Some(Values(fields))
  {
    DecodeEncoded(fields);
  }

  // ----- the sizes of the records ---------------------------------------------------------------

  lemma LocalShape(nameLength: nat, time: nat, date: nat)
    ensures var header := LocalHeader(nameLength, time, date); Widths(header) == LOCAL_WIDTHS && |Encode(header)| == 30
  {
    var w := LOCAL_WIDTHS;
    assert Widths(LocalHeader(nameLength, time, date)) == w;
    assert Offset(w, 2) == 6 && Offset(w, 4) == 10 && Offset(w, 6) == 14 && Offset(w, 8) == 22 && Offset(w, 10) == 28;
  }

  lemma LocalExtraShape(size: nat)
    ensures |Encode(LocalExtra(size))| == 20
  {
    var w: seq<nat> := [2, 2, 8, 8];
    assert Widths(LocalExtra(size)) == w;
    assert Offset(w, 2) == 4;
  }

  lemma DescriptorShape(crc: nat, size: nat)
    ensures Widths(Descriptor(crc, size)) == DESCRIPTOR_WIDTHS && |Encode(Descriptor(crc, size))| == 24
  {
    assert Widths(Descriptor(crc, size)) == DESCRIPTOR_WIDTHS;
    assert Offset(DESCRIPTOR_WIDTHS, 2) == 8;
  }

  lemma CentralShape(e: Entry)
    ensures Widths(CentralHeader(e)) == CENTRAL_WIDTHS && |Encode(CentralHeader(e))| == 46
  {
    var w := CENTRAL_WIDTHS;
    assert Widths(CentralHeader(e)) == w;
    assert Offset(w, 2) == 6 && Offset(w, 4) == 10 && Offset(w, 6) == 14 && Offset(w, 8) == 20;
    assert Offset(w, 10) == 28 && Offset(w, 12) == 32 && Offset(w, 14) == 36 && Offset(w, 16) == 42;
  }

  lemma EndShape()
    ensures Widths(End()) == END_WIDTHS && |Encode(End())| == 22
  {
    var w := END_WIDTHS;
    assert Widths(End()) == w;
    assert Offset(w, 2) == 6 && Offset(w, 4) == 10 && Offset(w, 6) == 16;
  }

  lemma LocatorShape(at: nat)
    ensures Widths(Locator(at)) == LOCATOR_WIDTHS && |Encode(Locator(at))| == 20
  {
    assert Widths(Locator(at)) == LOCATOR_WIDTHS;
    assert Offset(LOCATOR_WIDTHS, 2) == 8;
  }

  lemma Zip64EndShape(count: nat, size: nat, start: nat)
    ensures Widths(Zip64End(count, size, start)) == ZIP64_END_WIDTHS && |Encode(Zip64End(count, size, start))| == 56
  {
    var w := ZIP64_END_WIDTHS;
    assert Widths(Zip64End(count, size, start)) == w;
    assert Offset(w, 2) == 12 && Offset(w, 4) == 16 && Offset(w, 6) == 24 && Offset(w, 8) == 40;
  }

  // ----- the directory --------------------------------------------------------------------------

  lemma CentralExtraShape(e: Entry)
    ensures |Encode(CentralExtra(e))| == 28
  {
    var w: seq<nat> := [2, 2, 8, 8, 8];
    assert Widths(CentralExtra(e)) == w;
    assert Offset(w, 2) == 4 && Offset(w, 4) == 20;
  }

  lemma CentralExtraReads(e: Entry)
    requires Storable(e)
    ensures Zip64Values(Encode(CentralExtra(e)), 3) == Some([e.size, e.size, e.offset])
      && |Encode(CentralExtra(e))| == 28
  {
    var extra := Encode(CentralExtra(e));
    var w: seq<nat> := [2, 2, 8, 8, 8];
    assert Widths(CentralExtra(e)) == w;
    assert Offset(w, 1) == 2 && Offset(w, 2) == 4 && Offset(w, 3) == 12 && Offset(w, 4) == 20 && Offset(w, 5) == 28;
    CentralExtraFits(e);
    DecodeEncoded(CentralExtra(e));
    var v, d := Values(CentralExtra(e)), Decode(extra, w);
    assert d[0] == ReadField(extra, w, 0) == v[0] == ZIP64_EXTRA;
    assert d[1] == ReadField(extra, w, 1) == v[1] == 24;
    assert d[2] == ReadField(extra, w, 2) == v[2] == e.size;
    assert d[3] == ReadField(extra, w, 3) == v[3] == e.size;
    assert d[4] == ReadField(extra, w, 4) == v[4] == e.offset;
    assert extra[0..2] == extra[..2];
    WideFields(extra, e);
  }

  lemma WideFields(extra: seq<Byte>, e: Entry)
    requires |extra| == 28
    requires Number(extra[4..12]) == e.size && Number(extra[12..20]) == e.size && Number(extra[20..28]) == e.offset
    ensures Decode(extra[4..28], seq(3, i => 8)) == [e.size, e.size, e.offset]
  {
    var w: seq<nat> := seq(3, i => 8);
    assert Offset(w, 1) == 8 && Offset(w, 2) == 16;
    var wide := extra[4..28];
    assert wide[0..8] == extra[4..12] && wide[8..16] == extra[12..20] && wide[16..24] == extra[20..28];
  }

  // The fixed part of a central record, as its reader sees it.
  predicate CentralFields(v: seq<nat>, e: Entry) {
    v == [0x0201_4b50, 45, 45, 0x0808, 0, e.time, e.date, e.crc, 0xffff_ffff, 0xffff_ffff, |e.name|, 28, 0, 0, 0, 0,
          0xffff_ffff]
  }

  lemma CentralHeaderReads(bytes: seq<Byte>, at: nat, e: Entry) returns (v: seq<nat>)
    requires Storable(e) && Holds(bytes, at, Encode(CentralHeader(e)))
    ensures Record(bytes, at, 46, CENTRAL_WIDTHS) == Some(v) && CentralFields(v, e)
  {
    CentralShape(e);
    CentralHeaderFits(e);
    RecordHeld(bytes, at, CentralHeader(e), CENTRAL_WIDTHS);
    v := Values(CentralHeader(e));
  }

  lemma CentralParts(bytes: seq<Byte>, at: nat, e: Entry)
    requires Holds(bytes, at, CentralRecord(e))
    ensures Holds(bytes, at, Encode(CentralHeader(e))) && Holds(bytes, at + 46, e.name)
    ensures Holds(bytes, at + 46 + |e.name|, Encode(CentralExtra(e)))
    ensures |CentralRecord(e)| == 46 + |e.name| + 28
  {
    CentralShape(e);
    CentralExtraShape(e);
    HoldsThree(bytes, at, Encode(CentralHeader(e)), e.name, Encode(CentralExtra(e)));
  }

  lemma AllWide(v: seq<nat>, extra: seq<Byte>, size: nat, offset: nat)
    requires |v| == 17 && v[8] == v[9] == v[16] == 0xffff_ffff && Zip64Values(extra, 3) == Some([size, size, offset])
    ensures Extents(v, extra) == Some((size, size, offset))
  {
  }

  lemma VariableReads(bytes: seq<Byte>, at: nat, v: seq<nat>, name: seq<Byte>, extra: seq<Byte>, size: nat, offset: nat)
    requires |v| == 17 && v[10] == |name| && v[11] == |extra| && v[12] == 0
    requires Holds(bytes, at, name) && Holds(bytes, at + |name|, extra)
    requires Extents(v, extra) == Some((size, size, offset))
    ensures ReadVariable(bytes, at, v) == Some((ListedFrom(name, v, size, offset), at + |name| + |extra|))
  {
    assert bytes[at..at + v[10]] == name;
    assert bytes[at + v[10]..at + v[10] + v[11]] == extra;
  }

  lemma CentralVariable(bytes: seq<Byte>, at: nat, e: Entry, v: seq<nat>)
    requires Storable(e) && CentralFields(v, e)
    requires Holds(bytes, at, e.name) && Holds(bytes, at + |e.name|, Encode(CentralExtra(e)))
    ensures ReadVariable(bytes, at, v) == Some((ListedAs(e), at + |e.name| + 28))
  {
    CentralExtraReads(e);
    AllWide(v, Encode(CentralExtra(e)), e.size, e.offset);
    VariableReads(bytes, at, v, e.name, Encode(CentralExtra(e)), e.size, e.offset);
  }

  lemma CentralStep(bytes: seq<Byte>, at: nat, v: seq<nat>, r: (Listed, nat))
    requires Record(bytes, at, 46, CENTRAL_WIDTHS) == Some(v) && |v| == 17
    requires v[0] == 0x0201_4b50 && v[2] == 45 && v[13] == 0 && ReadVariable(bytes, at + 46, v) == Some(r)
    ensures ReadCentral(bytes, at) == Some(r)
  {
  }

  // The reader's two steps at a record.
  lemma CentralSteps(bytes: seq<Byte>, at: nat, e: Entry) returns (v: seq<nat>)
    requires Storable(e) && Holds(bytes, at, CentralRecord(e))
    ensures Record(bytes, at, 46, CENTRAL_WIDTHS) == Some(v) && CentralFields(v, e)
    ensures ReadVariable(bytes, at + 46, v) == Some((ListedAs(e), at + |CentralRecord(e)|))
  {
    CentralParts(bytes, at, e);
    v := CentralHeaderReads(bytes, at, e);
    CentralVariable(bytes, at + 46, e, v);
  }

  lemma CentralReads(bytes: seq<Byte>, at: nat, e: Entry)
    requires Storable(e) && Holds(bytes, at, CentralRecord(e))
    ensures ReadCentral(bytes, at) == Some((ListedAs(e), at + |CentralRecord(e)|))
  {
    var v := CentralSteps(bytes, at, e);
    CentralStep(bytes, at, v, (ListedAs(e), at + |CentralRecord(e)|));
  }

  // Part k of a concatenation stands where the parts before it end.
  lemma {:induction false} PartInPlace(parts: seq<seq<Byte>>, k: nat)
    requires k < |parts|
    ensures Holds(Concat(parts), |Concat(parts[..k])|, parts[k])
    ensures Concat(parts[..k + 1]) == Concat(parts[..k]) + parts[k]
  {
    var n := |parts| - 1;
    assert parts[..k + 1][..k] == parts[..k];
    if k < n {
      PartInPlace(parts[..n], k);
      assert parts[..n][..k] == parts[..k];
      HoldsAppended(Concat(parts[..n]), parts[n], |Concat(parts[..k])|, parts[k]);
    }
  }

  ghost predicate ReadsBack<T>(readOne: nat -> Option<(T, nat)>, bytes: seq<Byte>, part: seq<Byte>, shown: T) {
    forall at: nat | Holds(bytes, at, part) :: readOne(at) == Some((shown, at + |part|))
  }

  // Records that are each read back, standing one behind the other, are all read back.
  lemma {:induction false} PartsRead<T>(bytes: seq<Byte>, offsets: seq<nat>, parts: seq<seq<Byte>>,
      readOne: nat -> Option<(T, nat)>, shown: seq<T>, k: nat)
    requires |offsets| == |parts| + 1 == |shown| + 1 && k <= |parts|
    requires forall i | 0 <= i < |parts| ::
      offsets[i + 1] == offsets[i] + |parts[i]| && Holds(bytes, offsets[i], parts[i])
    requires forall i | 0 <= i < |parts| :: ReadsBack(readOne, bytes, parts[i], shown[i])
    ensures ReadMany(readOne, offsets[k], |parts| - k) == Some(shown[k..])
    decreases |parts| - k
  {
    if k < |parts| {
      PartsRead(bytes, offsets, parts, readOne, shown, k + 1);
      assert Holds(bytes, offsets[k], parts[k]) && ReadsBack(readOne, bytes, parts[k], shown[k]);
      ReadsOneMore(readOne, offsets[k], |parts| - k, shown[k], offsets[k + 1], shown[k + 1..]);
      assert shown[k..] == [shown[k]] + shown[k + 1..];
    } else {
      assert shown[k..] == [];
    }
  }

  lemma PartHeld(bytes: seq<Byte>, start: nat, parts: seq<seq<Byte>>, k: nat)
    requires k < |parts| && Holds(bytes, start, Concat(parts))
    ensures Holds(bytes, start + |Concat(parts[..k])|, parts[k])
    ensures |Concat(parts[..k + 1])| == |Concat(parts[..k])| + |parts[k]|
  {
    PartInPlace(parts, k);
    HoldsInside(bytes, start, Concat(parts), |Concat(parts[..k])|, parts[k]);
  }

  lemma ReadsOneMore<T>(readOne: nat -> Option<(T, nat)>, at: nat, count: nat, first: T, next: nat, rest: seq<T>)
    requires count > 0 && readOne(at) == Some((first, next)) && ReadMany(readOne, next, count - 1) == Some(rest)
    ensures ReadMany(readOne, at, count) == Some([first] + rest)
  {
  }

  lemma CentralReadsBack(bytes: seq<Byte>, e: Entry)
    requires Storable(e)
    ensures ReadsBack(CentralReader(bytes), bytes, CentralRecord(e), ListedAs(e))
  {
    forall at: nat | Holds(bytes, at, CentralRecord(e))
      ensures CentralReader(bytes)(at) == Some((ListedAs(e), at + |CentralRecord(e)|))
    {
      CentralReads(bytes, at, e);
    }
  }

  lemma OffsetsOf(bytes: seq<Byte>, start: nat, parts: seq<seq<Byte>>) returns (offsets: seq<nat>)
    requires Holds(bytes, start, Concat(parts))
    ensures |offsets| == |parts| + 1 && offsets[0] == start
    ensures forall i | 0 <= i < |parts| ::
      offsets[i + 1] == offsets[i] + |parts[i]| && Holds(bytes, offsets[i], parts[i])
  {
    offsets := seq(|parts| + 1, i requires 0 <= i <= |parts| => start + |Concat(parts[..i])|);
    forall i | 0 <= i < |parts|
      ensures offsets[i + 1] == offsets[i] + |parts[i]| && Holds(bytes, offsets[i], parts[i])
    {
      PartHeld(bytes, start, parts, i);
    }
  }

  lemma DirectoryReads(bytes: seq<Byte>, start: nat, entries: seq<Entry>)
    requires Holds(bytes, start, Directory(entries)) && forall e <- entries :: Storable(e)
    ensures ReadDirectory(bytes, start, |entries|) == Some(Listing(entries))
  {
    var parts := Records(entries);
    forall i | 0 <= i < |parts| ensures ReadsBack(CentralReader(bytes), bytes, parts[i], Listing(entries)[i]) {
      assert entries[i] in entries;
      CentralReadsBack(bytes, entries[i]);
    }
    var offsets := OffsetsOf(bytes, start, parts);
    PartsRead(bytes, offsets, parts, CentralReader(bytes), Listing(entries), 0);
    assert Listing(entries)[0..] == Listing(entries);
  }

  // ----- the members ------------------------------------------------------------------------------

  lemma BodyPart(files: seq<File>, k: nat)
    requires k < |files|
    ensures Holds(Body(files), |Body(files[..k])|, Member(files[k]))
    ensures Body(files[..k + 1]) == Body(files[..k]) + Member(files[k])
  {
    PartInPlace(Members(files), k);
    MembersPrefix(files, k);
    MembersPrefix(files, k + 1);
  }

  lemma MembersPrefix(files: seq<File>, k: nat)
    requires k <= |files|
    ensures Members(files)[..k] == Members(files[..k])
  {
  }

  predicate FileOk(f: File) {
    0 < |f.data| < 0x1_0000_0000_0000_0000 && |f.name| < 0x1_0000 && f.time < 0x1_0000 && f.date < 0x1_0000
  }

  // Where the parts of a member stand.
  lemma MemberParts(bytes: seq<Byte>, at: nat, f: File)
    requires Holds(bytes, at, Member(f))
    ensures Holds(bytes, at, Encode(LocalHeader(|f.name|, f.time, f.date))) && Holds(bytes, at + 30, f.name)
    ensures Holds(bytes, at + 30 + |f.name|, Encode(LocalExtra(|f.data|)))
    ensures Holds(bytes, at + 50 + |f.name|, f.data)
    ensures Holds(bytes, at + 50 + |f.name| + |f.data|, Encode(Descriptor(Crc(f), |f.data|)))
  {
    var header, extra := Encode(LocalHeader(|f.name|, f.time, f.date)), Encode(LocalExtra(|f.data|));
    var descriptor := Encode(Descriptor(Crc(f), |f.data|));
    LocalShape(|f.name|, f.time, f.date);
    LocalExtraShape(|f.data|);
    HoldsThree(bytes, at, header, f.name, extra + (f.data + descriptor));
    HoldsThree(bytes, at + 30 + |f.name|, extra, f.data, descriptor);
  }

  // The fixed part of a local header, as its reader sees it.
  predicate LocalFields(v: seq<nat>, f: File) {
    v == [0x0403_4b50, 45, 0x0808, 0, f.time, f.date, 0, 0xffff_ffff, 0xffff_ffff, |f.name|, 20]
  }

  lemma LocalHeaderReads(bytes: seq<Byte>, at: nat, f: File) returns (v: seq<nat>)
    requires FileOk(f) && Holds(bytes, at, Encode(LocalHeader(|f.name|, f.time, f.date)))
    ensures Record(bytes, at, 30, LOCAL_WIDTHS) == Some(v) && LocalFields(v, f)
  {
    LocalShape(|f.name|, f.time, f.date);
    LocalFits(|f.name|, f.time, f.date, |f.data|, Crc(f));
    RecordHeld(bytes, at, LocalHeader(|f.name|, f.time, f.date), LOCAL_WIDTHS);
    v := Values(LocalHeader(|f.name|, f.time, f.date));
  }

  lemma LocalExtraReads(size: nat)
    requires size < 0x1_0000_0000_0000_0000
    ensures Zip64Values(Encode(LocalExtra(size)), 2) == Some([size, size])
  {
    var extra := Encode(LocalExtra(size));
    var w: seq<nat> := [2, 2, 8, 8];
    assert Widths(LocalExtra(size)) == w;
    assert Offset(w, 1) == 2 && Offset(w, 2) == 4 && Offset(w, 3) == 12 && Offset(w, 4) == 20;
    LocalFits(0, 0, 0, size, 0);
    DecodeEncoded(LocalExtra(size));
    var v, d := Values(LocalExtra(size)), Decode(extra, w);
    assert d[0] == ReadField(extra, w, 0) == v[0] == 0x0001;
    assert d[1] == ReadField(extra, w, 1) == v[1] == 16;
    assert d[2] == ReadField(extra, w, 2) == v[2] == size;
    assert d[3] == ReadField(extra, w, 3) == v[3] == size;
    assert extra[0..2] == extra[..2];
    TwoWideFields(extra, size);
  }

  lemma TwoWideFields(extra: seq<Byte>, size: nat)
    requires |extra| == 20 && Number(extra[4..12]) == size && Number(extra[12..20]) == size
    ensures Decode(extra[4..20], seq(2, i => 8)) == [size, size]
  {
    var w: seq<nat> := seq(2, i => 8);
    assert Offset(w, 1) == 8;
    var wide := extra[4..20];
    assert wide[0..8] == extra[4..12] && wide[8..16] == extra[12..20];
  }

  lemma DescriptorReads(bytes: seq<Byte>, at: nat, crc: nat, size: nat)
    requires crc < 0x1_0000_0000 && size < 0x1_0000_0000_0000_0000 && Holds(bytes, at, Encode(Descriptor(crc, size)))
    ensures Record(bytes, at, 24, DESCRIPTOR_WIDTHS) == Some([0x0807_4b50, crc, size, size])
  {
    DescriptorShape(crc, size);
    LocalFits(0, 0, 0, size, crc);
    RecordHeld(bytes, at, Descriptor(crc, size), DESCRIPTOR_WIDTHS);
    assert Values(Descriptor(crc, size)) == [0x0807_4b50, crc, size, size];
  }

  lemma StoredFound(bytes: seq<Byte>, at: nat, f: File, v: seq<nat>, extra: seq<Byte>)
    requires LocalFields(v, f) && |extra| == 20 && Zip64Values(extra, 2) == Some([|f.data|, |f.data|])
    requires Holds(bytes, at + 30, f.name) && Holds(bytes, at + 30 + |f.name|, extra)
    requires ReadContents(bytes, ListedAs(EntryOf(f, at)), 0, at + 50 + |f.name|) == Some(f.data)
    ensures ReadStored(bytes, ListedAs(EntryOf(f, at)), v) == Some(f.data)
  {
    assert bytes[at + 30..at + 30 + v[9]] == f.name;
    assert bytes[at + 30 + v[9]..at + 30 + v[9] + v[10]] == extra;
  }

  lemma StoredReads(bytes: seq<Byte>, at: nat, f: File, v: seq<nat>)
    requires FileOk(f) && LocalFields(v, f) && Holds(bytes, at + 30, f.name)
    requires Holds(bytes, at + 30 + |f.name|, Encode(LocalExtra(|f.data|)))
    requires ReadContents(bytes, ListedAs(EntryOf(f, at)), 0, at + 50 + |f.name|) == Some(f.data)
    ensures ReadStored(bytes, ListedAs(EntryOf(f, at)), v) == Some(f.data)
  {
    LocalExtraShape(|f.data|);
    LocalExtraReads(|f.data|);
    StoredFound(bytes, at, f, v, Encode(LocalExtra(|f.data|)));
  }

  lemma DataFound(bytes: seq<Byte>, at: nat, f: File, v: seq<nat>)
    requires Record(bytes, at, 30, LOCAL_WIDTHS) == Some(v) && LocalFields(v, f)
    requires ReadStored(bytes, ListedAs(EntryOf(f, at)), v) == Some(f.data)
    ensures ReadData(bytes, ListedAs(EntryOf(f, at))) == Some(f.data)
  {
  }

  lemma ContentsFound(bytes: seq<Byte>, at: nat, l: Listed, data: seq<Byte>)
    requires Holds(bytes, at, data) && l.size == |data| && l.crc == Unsigned(Crc32(data, 0)) && l.flags == 0x0808
    requires Record(bytes, at + |data|, 24, DESCRIPTOR_WIDTHS) == Some([0x0807_4b50, l.crc, l.size, l.size])
    ensures ReadContents(bytes, l, 0, at) == Some(data)
  {
    assert bytes[at..at + |data|] == data;
  }

  lemma ContentsRead(bytes: seq<Byte>, at: nat, f: File, offset: nat)
    requires FileOk(f) && Holds(bytes, at, f.data) && Holds(bytes, at + |f.data|, Encode(Descriptor(Crc(f), |f.data|)))
    ensures ReadContents(bytes, ListedAs(EntryOf(f, offset)), 0, at) == Some(f.data)
  {
    DescriptorReads(bytes, at + |f.data|, Crc(f), |f.data|);
    ContentsFound(bytes, at, ListedAs(EntryOf(f, offset)), f.data);
  }

  lemma MemberReads(bytes: seq<Byte>, at: nat, f: File)
    requires FileOk(f) && Holds(bytes, at, Member(f))
    ensures ReadData(bytes, ListedAs(EntryOf(f, at))) == Some(f.data)
  {
    MemberParts(bytes, at, f);
    ContentsRead(bytes, at + 50 + |f.name|, f, at);
    var v := LocalHeaderReads(bytes, at, f);
    StoredReads(bytes, at, f, v);
    DataFound(bytes, at, f, v);
  }

  // ----- the whole archive --------------------------------------------------------------------------

  predicate Archivable(files: seq<File>) {
    |Body(files)| + |Directory(Entries(files))| < 0x1_0000_0000_0000_0000 && forall f <- files :: FileOk(f)
  }

  lemma MemberIsNotEmpty(f: File)
    ensures |Member(f)| > 0
  {
    LocalShape(|f.name|, f.time, f.date);
  }

  lemma {:induction false} BodyGrows(files: seq<File>, k: nat)
    requires k <= |files|
    ensures |Body(files[..k])| + (|files| - k) <= |Body(files)|
    decreases |files| - k
  {
    if k == |files| {
      assert files[..k] == files;
    } else {
      BodyPart(files, k);
      MemberIsNotEmpty(files[k]);
      BodyGrows(files, k + 1);
    }
  }

  lemma EntriesStorable(files: seq<File>)
    requires Archivable(files)
    ensures forall e <- Entries(files) :: Storable(e)
  {
    forall k | 0 <= k < |files| ensures Storable(Entries(files)[k]) {
      assert files[k] in files;
      BodyGrows(files, k);
    }
  }

  // Where the three end records stand.
  lemma TrailerParts(bytes: seq<Byte>, at: nat, count: nat, size: nat, start: nat)
    requires Holds(bytes, at, Trailer(count, size, start))
    ensures Holds(bytes, at, Encode(Zip64End(count, size, start)))
      && Holds(bytes, at + 56, Encode(Locator(start + size)))
    ensures Holds(bytes, at + 76, Encode(End())) && |Trailer(count, size, start)| == 98
  {
    Zip64EndShape(count, size, start);
    LocatorShape(start + size);
    EndShape();
    HoldsThree(bytes, at, Encode(Zip64End(count, size, start)), Encode(Locator(start + size)), Encode(End()));
  }

  lemma EndReads(bytes: seq<Byte>, at: nat)
    requires Holds(bytes, at, Encode(End()))
    ensures var v := Record(bytes, at, 22, END_WIDTHS); v.Some? && |v.value| == 8 && Refers(v.value)
  {
    EndShape();
    EndFits(0, 0, 0, 0);
    RecordHeld(bytes, at, End(), END_WIDTHS);
    assert Refers(Values(End()));
  }

  lemma LocatorReads(bytes: seq<Byte>, at: nat, zip64End: nat)
    requires Holds(bytes, at, Encode(Locator(zip64End))) && zip64End < 0x1_0000_0000_0000_0000
    ensures Record(bytes, at, 20, LOCATOR_WIDTHS) == Some([0x0706_4b50, 0, zip64End, 1])
  {
    LocatorShape(zip64End);
    EndFits(0, 0, 0, zip64End);
    RecordHeld(bytes, at, Locator(zip64End), LOCATOR_WIDTHS);
    assert Values(Locator(zip64End)) == [0x0706_4b50, 0, zip64End, 1];
  }

  lemma Zip64EndReads(bytes: seq<Byte>, at: nat, count: nat, size: nat, start: nat) returns (v: seq<nat>)
    requires Holds(bytes, at, Encode(Zip64End(count, size, start)))
    requires count < 0x1_0000_0000_0000_0000 && start + size < 0x1_0000_0000_0000_0000
    ensures Record(bytes, at, 56, ZIP64_END_WIDTHS) == Some(v) && |v| == 10
    ensures EndsDirectory(v, start + size) && v[7] == count && v[9] == start
  {
    var f := Zip64End(count, size, start);
    Zip64EndShape(count, size, start);
    EndFits(count, size, start, 0);
    RecordHeld(bytes, at, f, ZIP64_END_WIDTHS);
    v := Values(f);
    assert v == [0x0606_4b50, 44, 45, 45, 0, 0, count, count, size, start];
  }

  lemma TrailerReads(bytes: seq<Byte>, count: nat, size: nat, start: nat)
    requires count < 0x1_0000_0000_0000_0000 && start + size < 0x1_0000_0000_0000_0000
    requires start + size + |Trailer(count, size, start)| == |bytes|
      && Holds(bytes, start + size, Trailer(count, size, start))
    ensures ReadListing(bytes) == ReadDirectory(bytes, start, count)
  {
    var at := start + size;
    TrailerParts(bytes, at, count, size, start);
    EndReads(bytes, at + 76);
    LocatorReads(bytes, at + 56, at);
    var v := Zip64EndReads(bytes, at, count, size, start);
    ListingStep(bytes, at, v);
  }

  lemma ListingStep(bytes: seq<Byte>, at: nat, v: seq<nat>)
    requires |bytes| == at + 98
    requires var end := Record(bytes, at + 76, 22, END_WIDTHS); end.Some? && |end.value| == 8 && Refers(end.value)
    requires Record(bytes, at + 56, 20, LOCATOR_WIDTHS) == Some([0x0706_4b50, 0, at, 1])
    requires Record(bytes, at, 56, ZIP64_END_WIDTHS) == Some(v) && |v| == 10 && EndsDirectory(v, at)
    ensures ReadListing(bytes) == ReadDirectory(bytes, v[9], v[7])
  {
  }

  lemma DirectoryInArchive(files: seq<File>)
    ensures Holds(Archive(files), |Body(files)|, Directory(Entries(files)))
  {
    var body, directory := Body(files), Directory(Entries(files));
    HoldsMiddle(body, directory, Trailer(|files|, |directory|, |body|));
  }

  lemma TrailerIsRead(files: seq<File>)
    requires Archivable(files)
    ensures ReadListing(Archive(files)) == ReadDirectory(Archive(files), |Body(files)|, |files|)
  {
    BodyGrows(files, 0);
    var body, directory := Body(files), Directory(Entries(files));
    TrailerEnds(body + directory, |files|, |directory|, |body|);
  }

  lemma TrailerEnds(front: seq<Byte>, count: nat, size: nat, start: nat)
    requires count < 0x1_0000_0000_0000_0000 && start + size == |front| < 0x1_0000_0000_0000_0000
    ensures ReadListing(front + Trailer(count, size, start)) ==
      ReadDirectory(front + Trailer(count, size, start), start, count)
  {
    HoldsEnd(front, Trailer(count, size, start));
    TrailerReads(front + Trailer(count, size, start), count, size, start);
  }

  // A reader recovers exactly the names, sizes, checksums, offsets, times and dates, in order, each member stored,
  // with a descriptor and a UTF-8 name.
  lemma ListingUndoesWriter(files: seq<File>)
    requires Archivable(files)
    ensures ReadListing(Archive(files)) == Some(Listing(Entries(files)))
  {
    EntriesStorable(files);
    DirectoryInArchive(files);
    TrailerIsRead(files);
    DirectoryReads(Archive(files), |Body(files)|, Entries(files));
  }

  lemma MemberInArchive(files: seq<File>, k: nat)
    requires k < |files|
    ensures Holds(Archive(files), |Body(files[..k])|, Member(files[k]))
  {
    BodyPart(files, k);
    var directory := Directory(Entries(files));
    HoldsAppended(Body(files), directory, |Body(files[..k])|, Member(files[k]));
    HoldsAppended(Body(files) + directory, Trailer(|files|, |directory|, |Body(files)|), |Body(files[..k])|,
      Member(files[k]));
  }

  // At each recorded offset it finds the file's data, stored, between a local header that agrees with the directory
  // and a descriptor that matches both.
  lemma DataUndoesWriter(files: seq<File>, k: nat)
    requires Archivable(files) && k < |files|
    ensures ReadData(Archive(files), Listing(Entries(files))[k]) == Some(files[k].data)
  {
    MemberInArchive(files, k);
    assert files[k] in files;
    MemberReads(Archive(files), |Body(files[..k])|, files[k]);
  }
}
