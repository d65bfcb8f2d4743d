/** The streaming writer: fixed buffers filled field by field, and the offset counted along. */
module ZipWriting {
  import opened Bytes
  import opened Checksum
  import opened ZipRecords
  import opened ZipArchive

  datatype Failure = NameTooLong | SizeTooLarge | Empty | SizeChanged

  datatype Outcome = Written | Failed(failure: Failure)

  // writeUInt16LE, writeUInt32LE and writeBigUInt64LE: store a value at an offset of a buffer. They throw
  // when the value does not fit.
  method Store(buffer: array<Byte>, value: nat, width: nat, at: nat)
    requires at + width <= buffer.Length && value < Limit(width)
    modifies buffer
    ensures buffer[..at] == old(buffer[..at])
    ensures buffer[at..at + width] == LittleEndian(value, width)
  {
    var rest := value;
    for i := 0 to width
      invariant buffer[..at] == old(buffer[..at])
      invariant buffer[at..at + i] + LittleEndian(rest, width - i) == LittleEndian(value, width)
    {
      buffer[at + i] := rest % 256;
      rest := rest / 256;
    }
  }

  // The next field of a record: it belongs where the fields before it end.
  method Put(buffer: array<Byte>, ghost fields: seq<Field>, ghost k: nat, value: nat, width: nat, at: nat)
    requires k < |fields| && fields[k] == Field(value, width) && Fits(fields)
    requires at + width <= buffer.Length && buffer[..at] == EncodeTo(fields, k)
    modifies buffer
    ensures buffer[..at + width] == EncodeTo(fields, k + 1)
  {
    Store(buffer, value, width, at);
    assert buffer[..at + width] == buffer[..at] + buffer[at..at + width];
  }

  method MakeLocalHeader(nameLength: nat, time: nat, date: nat) returns (header: array<Byte>)
    requires nameLength < 0x1_0000 && time < 0x1_0000 && date < 0x1_0000
    ensures fresh(header) && header[..] == Encode(LocalHeader(nameLength, time, date))
  {
    header := new Byte[30](i => 0);
    ghost var f := LocalHeader(nameLength, time, date);
    LocalFits(nameLength, time, date, 0, 0);
    Put(header, f, 0, 0x04034b50, 4, 0);
    Put(header, f, 1, 45, 2, 4);
    Put(header, f, 2, 0x0808, 2, 6);
    Put(header, f, 3, 0, 2, 8);
    Put(header, f, 4, time, 2, 10);
    Put(header, f, 5, date, 2, 12);
    Put(header, f, 6, 0, 4, 14);
    Put(header, f, 7, 0xffffffff, 4, 18);
    Put(header, f, 8, 0xffffffff, 4, 22);
    Put(header, f, 9, nameLength, 2, 26);
    Put(header, f, 10, 20, 2, 28);
    assert header[..30] == header[..];
  }

  method MakeLocalExtra(size: nat) returns (extra: array<Byte>)
    requires size < 0x1_0000_0000_0000_0000
    ensures fresh(extra) && extra[..] == Encode(LocalExtra(size))
  {
    extra := new Byte[20](i => 0);
    ghost var f := LocalExtra(size);
    LocalFits(0, 0, 0, size, 0);
    Put(extra, f, 0, 0x0001, 2, 0);
    Put(extra, f, 1, 16, 2, 2);
    Put(extra, f, 2, size, 8, 4);
    Put(extra, f, 3, size, 8, 12);
    assert extra[..20] == extra[..];
  }

  method MakeDescriptor(crc: nat, size: nat) returns (descriptor: array<Byte>)
    requires crc < 0x1_0000_0000 && size < 0x1_0000_0000_0000_0000
    ensures fresh(descriptor) && descriptor[..] == Encode(Descriptor(crc, size))
  {
    descriptor := new Byte[24](i => 0);
    ghost var f := Descriptor(crc, size);
    LocalFits(0, 0, 0, size, crc);
    Put(descriptor, f, 0, 0x08074b50, 4, 0);
    Put(descriptor, f, 1, crc, 4, 4);
    Put(descriptor, f, 2, size, 8, 8);
    Put(descriptor, f, 3, size, 8, 16);
    assert descriptor[..24] == descriptor[..];
  }

  method MakeCentralHeader(e: Entry) returns (header: array<Byte>)
    requires Storable(e)
    ensures fresh(header) && header[..] == Encode(CentralHeader(e))
  {
    header := new Byte[46](i => 0);
    ghost var f := CentralHeader(e);
    CentralHeaderFits(e);
    Put(header, f, 0, 0x02014b50, 4, 0);
    Put(header, f, 1, 45, 2, 4);
    Put(header, f, 2, 45, 2, 6);
    Put(header, f, 3, 0x0808, 2, 8);
    Put(header, f, 4, 0, 2, 10);
    Put(header, f, 5, e.time, 2, 12);
    MakeCentralSizes(header, e);
    MakeCentralTail(header, e);
    assert header[..46] == header[..];
  }

  // The middle of the same buffer: date, checksum, sizes and name length.
  method MakeCentralSizes(header: array<Byte>, e: Entry)
    requires Storable(e) && header.Length == 46 && header[..14] == EncodeTo(CentralHeader(e), 6)
    modifies header
    ensures header[..30] == EncodeTo(CentralHeader(e), 11)
  {
    ghost var f := CentralHeader(e);
    CentralHeaderFits(e);
    Put(header, f, 6, e.date, 2, 14);
    Put(header, f, 7, e.crc, 4, 16);
    Put(header, f, 8, 0xffffffff, 4, 20);
    Put(header, f, 9, 0xffffffff, 4, 24);
    Put(header, f, 10, |e.name|, 2, 28);
  }

  // The rest of it.
  method MakeCentralTail(header: array<Byte>, e: Entry)
    requires Storable(e) && header.Length == 46 && header[..30] == EncodeTo(CentralHeader(e), 11)
    modifies header
    ensures header[..46] == EncodeTo(CentralHeader(e), 17)
  {
    ghost var f := CentralHeader(e);
    CentralHeaderFits(e);
    Put(header, f, 11, 28, 2, 30);
    Put(header, f, 12, 0, 2, 32);
    Put(header, f, 13, 0, 2, 34);
    Put(header, f, 14, 0, 2, 36);
    Put(header, f, 15, 0, 4, 38);
    Put(header, f, 16, 0xffffffff, 4, 42);
  }

  method MakeCentralExtra(e: Entry) returns (extra: array<Byte>)
    requires Storable(e)
    ensures fresh(extra) && extra[..] == Encode(CentralExtra(e))
  {
    extra := new Byte[28](i => 0);
    ghost var f := CentralExtra(e);
    CentralExtraFits(e);
    Put(extra, f, 0, 0x0001, 2, 0);
    Put(extra, f, 1, 24, 2, 2);
    Put(extra, f, 2, e.size, 8, 4);
    Put(extra, f, 3, e.size, 8, 12);
    Put(extra, f, 4, e.offset, 8, 20);
    assert extra[..28] == extra[..];
  }

  method MakeZip64End(count: nat, size: nat, start: nat) returns (record: array<Byte>)
    requires count < 0x1_0000_0000_0000_0000 && start + size < 0x1_0000_0000_0000_0000
    ensures fresh(record) && record[..] == Encode(Zip64End(count, size, start))
  {
    record := new Byte[56](i => 0);
    ghost var f := Zip64End(count, size, start);
    EndFits(count, size, start, 0);
    Put(record, f, 0, 0x06064b50, 4, 0);
    Put(record, f, 1, 44, 8, 4);
    Put(record, f, 2, 45, 2, 12);
    Put(record, f, 3, 45, 2, 14);
    Put(record, f, 4, 0, 4, 16);
    Put(record, f, 5, 0, 4, 20);
    Put(record, f, 6, count, 8, 24);
    Put(record, f, 7, count, 8, 32);
    Put(record, f, 8, size, 8, 40);
    Put(record, f, 9, start, 8, 48);
    assert record[..56] == record[..];
  }

  method MakeLocator(at: nat) returns (record: array<Byte>)
    requires at < 0x1_0000_0000_0000_0000
    ensures fresh(record) && record[..] == Encode(Locator(at))
  {
    record := new Byte[20](i => 0);
    ghost var f := Locator(at);
    EndFits(0, 0, 0, at);
    Put(record, f, 0, 0x07064b50, 4, 0);
    Put(record, f, 1, 0, 4, 4);
    Put(record, f, 2, at, 8, 8);
    Put(record, f, 3, 1, 4, 16);
    assert record[..20] == record[..];
  }

  method MakeEnd() returns (record: array<Byte>)
    ensures fresh(record) && record[..] == Encode(End())
  {
    record := new Byte[22](i => 0);
    ghost var f := End();
    EndFits(0, 0, 0, 0);
    Put(record, f, 0, 0x06054b50, 4, 0);
    Put(record, f, 1, 0, 2, 4);
    Put(record, f, 2, 0, 2, 6);
    Put(record, f, 3, 0xffff, 2, 8);
    Put(record, f, 4, 0xffff, 2, 10);
    Put(record, f, 5, 0xffffffff, 4, 12);
    Put(record, f, 6, 0xffffffff, 4, 16);
    Put(record, f, 7, 0, 2, 20);
    assert record[..22] == record[..];
  }

  function Heading(name: seq<Byte>, size: nat, time: nat, date: nat): seq<Byte> {
    Encode(LocalHeader(|name|, time, date)) + name + Encode(LocalExtra(size))
  }

  /** One archive being written: the bytes sent so far, their number, and the finished members. */
  class ZipWriter {
    var out: seq<Byte>
    var offset: nat
    var entries: seq<Entry>
    ghost var files: seq<File>

    ghost predicate Valid()
      reads this
    {
      offset == |out| && out == Body(files) && entries == Entries(files)
    }

    constructor ()
      ensures Valid() && files == []
    {
      out, offset, entries, files := [], 0, [], [];
    }

    method Push(bytes: seq<Byte>)
      modifies this`out, this`offset
      ensures out == old(out) + bytes && offset == old(offset) + |bytes|
    {
      out := out + bytes;
      offset := offset + |bytes|;
    }

    // Everything of a member before its data.
    method PushHeader(name: seq<Byte>, size: nat, time: nat, date: nat)
      requires |name| < 0x1_0000 && time < 0x1_0000 && date < 0x1_0000 && size < 0x1_0000_0000_0000_0000
      modifies this`out, this`offset
      ensures out == old(out) + Heading(name, size, time, date)
      ensures offset - |out| == old(offset - |out|)
    {
      var localExtra := MakeLocalExtra(size);
      var header := MakeLocalHeader(|name|, time, date);
      Push(header[..]);
      Push(name);
      Push(localExtra[..]);
    }

    // Send the data as it is read, summing it along the way.
    method Stream(chunks: seq<seq<Byte>>) returns (crc: bv32, streamed: nat)
      modifies this`out, this`offset
      ensures out == old(out) + Concat(chunks) && offset - |out| == old(offset - |out|)
      ensures crc == Crc32(Concat(chunks), 0) && streamed == |Concat(chunks)|
    {
      crc, streamed := 0, 0;
      EmptyCrc();
      for i := 0 to |chunks|
        invariant out == old(out) + Concat(chunks[..i]) && offset - |out| == old(offset - |out|)
        invariant crc == Crc32(Concat(chunks[..i]), 0) && streamed == |Concat(chunks[..i])|
      {
        ConcatOneMore(chunks, i);
        ChunksCompose(Concat(chunks[..i]), chunks[i], 0);
        crc := Crc32(chunks[i], crc);
        streamed := streamed + |chunks[i]|;
        Push(chunks[i]);
      }
      assert chunks[..|chunks|] == chunks;
    }

    // Add one file whose read stream yields these chunks.
    method AddFile(name: seq<Byte>, size: nat, time: nat, date: nat, chunks: seq<seq<Byte>>) returns (outcome: Outcome)
      requires Valid() && time < 0x1_0000 && date < 0x1_0000
      modifies this
      ensures outcome.Written? <==> |name| < 0x1_0000 && 0 < size < 0x1_0000_0000_0000_0000 && |Concat(chunks)| == size
      ensures outcome.Written? ==> Valid() && files == old(files) + [File(name, Concat(chunks), time, date)]
      ensures outcome.Failed? ==> old(out) <= out && entries == old(entries) && files == old(files)
    {
      if size >= 0x1_0000_0000_0000_0000 { return Failed(SizeTooLarge); }
      if |name| >= 0x1_0000 { return Failed(NameTooLong); }
      var localOffset := offset;
      PushHeader(name, size, time, date);
      if size == 0 { return Failed(Empty); }
      var crc, streamed := Stream(chunks);
      if streamed != size { return Failed(SizeChanged); }
      Remember(File(name, Concat(chunks), time, date), Unsigned(crc), localOffset);
      outcome := Written;
    }

    // The descriptor behind the data, and the entry for the directory.
    method Remember(f: File, crc: nat, localOffset: nat)
      requires crc == Crc(f) && |f.data| < 0x1_0000_0000_0000_0000
      requires localOffset == |Body(files)| && offset == |out| && entries == Entries(files)
      requires out == Body(files) + Heading(f.name, |f.data|, f.time, f.date) + f.data
      modifies this
      ensures Valid() && files == old(files) + [f]
    {
      var descriptor := MakeDescriptor(crc, |f.data|);
      Regroup(Body(files), Encode(LocalHeader(|f.name|, f.time, f.date)), f.name, Encode(LocalExtra(|f.data|)), f.data,
              descriptor[..]);
      Push(descriptor[..]);
      entries := entries + [Entry(f.name, |f.data|, crc, localOffset, f.time, f.date)];
      AddsMember(files, f);
      files := files + [f];
    }

    method PushCentral(e: Entry)
      requires Storable(e)
      modifies this`out, this`offset
      ensures out == old(out) + CentralRecord(e) && offset - |out| == old(offset - |out|)
    {
      var extra := MakeCentralExtra(e);
      var header := MakeCentralHeader(e);
      Push(header[..]);
      Push(e.name);
      Push(extra[..]);
    }

    method PushDirectory()
      requires offset == |out| && forall e <- entries :: Storable(e)
      modifies this`out, this`offset
      ensures out == old(out) + Directory(entries) && offset == |out|
    {
      ghost var parts, before := Records(entries), out;
      for i := 0 to |entries|
        invariant out == before + Concat(parts[..i]) && offset == |out|
      {
        assert entries[i] in entries;
        ConcatOneMore(parts, i);
        Associates(before, Concat(parts[..i]), parts[i]);
        PushCentral(entries[i]);
      }
      assert parts[..|entries|] == parts;
    }

    method PushEnd(cdStart: nat)
      requires cdStart <= offset == |out| < 0x1_0000_0000_0000_0000 && |entries| < 0x1_0000_0000_0000_0000
      modifies this`out, this`offset
      ensures out == old(out) + Trailer(|entries|, old(offset) - cdStart, cdStart)
    {
      var cdSize := offset - cdStart;
      var zip64EocdOffset := offset;
      var zip64Eocd := MakeZip64End(|entries|, cdSize, cdStart);
      Push(zip64Eocd[..]);
      var locator := MakeLocator(zip64EocdOffset);
      Push(locator[..]);
      var eocd := MakeEnd();
      ghost var before := old(out);
      RegroupThree(before, zip64Eocd[..], locator[..], eocd[..]);
      Push(eocd[..]);
    }

    // The directory and the three end records.
    method Finish()
      requires Valid() && Archivable(files)
      modifies this`out, this`offset
      ensures out == Archive(files)
    {
      EntriesStorable(files);
      EntryCount(files);
      var cdStart := offset;
      PushDirectory();
      PushEnd(cdStart);
    }
  }

  lemma EntryCount(files: seq<File>)
    requires Archivable(files)
    ensures |Entries(files)| == |files| < 0x1_0000_0000_0000_0000
  {
    BodyGrows(files, 0);
  }

  lemma Associates<T>(a: seq<T>, b: seq<T>, c: seq<T>)
    ensures a + b + c == a + (b + c)
  {
  }

  lemma RegroupThree<T>(a: seq<T>, b: seq<T>, c: seq<T>, d: seq<T>)
    ensures a + b + c + d == a + (b + (c + d))
  {
  }

  lemma ConcatOneMore(parts: seq<seq<Byte>>, k: nat)
    requires k < |parts|
    ensures Concat(parts[..k + 1]) == Concat(parts[..k]) + parts[k]
  {
    assert parts[..k + 1][..k] == parts[..k];
  }

  lemma Regroup<T>(a: seq<T>, b: seq<T>, c: seq<T>, d: seq<T>, e: seq<T>, f: seq<T>)
    ensures a + (b + c + d) + e + f == a + (b + (c + (d + (e + f))))
  {
  }

  lemma EmptyCrc()
    ensures Crc32([], 0) == 0
  {
    ComplementTwice();
    assert Complement(Complement(0)) == 0;
  }

  lemma AddsMember(files: seq<File>, f: File)
    ensures Body(files + [f]) == Body(files) + Member(f)
    ensures Entries(files + [f]) == Entries(files) + [EntryOf(f, |Body(files)|)]
  {
    var all := files + [f];
    assert Members(all)[..|files|] == Members(files);
    forall k | 0 <= k < |files| ensures all[..k] == files[..k] {}
    assert all[..|files|] == files;
  }
}
