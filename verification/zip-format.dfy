/** CRC-32 as zlib computes it: a fold over the bytes that can be resumed from an earlier result. */
module Checksum {
  import opened Bytes

  const POLYNOMIAL: bv32 := 0xEDB8_8320

  function Shift(crc: bv32, times: nat): bv32
    decreases times
  {
    if times == 0 then crc
    else Shift(if crc & 1 == 1 then (crc >> 1) ^ POLYNOMIAL else crc >> 1, times - 1)
  }

  function Step(crc: bv32, byte: Byte): bv32 { Shift(crc ^ (byte as bv32), 8) }

  function Fold<R>(step: (R, Byte) -> R, start: R, bytes: seq<Byte>): R {
    if bytes == [] then start else step(Fold(step, start, bytes[..|bytes| - 1]), bytes[|bytes| - 1])
  }

  function Complement(crc: bv32): bv32 { !crc }

  // A fold whose register is kept complemented between calls.
  function Resume<R>(step: (R, Byte) -> R, flip: R -> R, start: R, bytes: seq<Byte>): R {
    flip(Fold(step, flip(start), bytes))
  }

  // crc32(bytes, crc)
  function Crc32(bytes: seq<Byte>, crc: bv32): bv32 { Resume(Step, Complement, crc, bytes) }

  lemma {:induction false} FoldAppends<R>(step: (R, Byte) -> R, start: R, a: seq<Byte>, b: seq<Byte>)
    ensures Fold(step, start, a + b) == Fold(step, Fold(step, start, a), b)
  {
    if b == [] {
      assert a + b == a;
    } else {
      FoldAppends(step, start, a, b[..|b| - 1]);
      assert (a + b)[..|a + b| - 1] == a + b[..|b| - 1];
    }
  }

  lemma ResumeComposes<R(!new)>(step: (R, Byte) -> R, flip: R -> R, start: R, a: seq<Byte>, b: seq<Byte>)
    requires forall x :: flip(flip(x)) == x
    ensures Resume(step, flip, start, a + b) == Resume(step, flip, Resume(step, flip, start, a), b)
  {
    FoldAppends(step, flip(start), a, b);
  }

  lemma ComplementTwice()
    ensures forall x :: Complement(Complement(x)) == x
  {
  }

  // Checksumming chunk by chunk is checksumming the whole.
  lemma ChunksCompose(a: seq<Byte>, b: seq<Byte>, crc: bv32)
    ensures Crc32(a + b, crc) == Crc32(b, Crc32(a, crc))
  {
    ComplementTwice();
    ResumeComposes(Step, Complement, crc, a, b);
  }

  // The polynomial, the number of shifts and the complements are those of section 4.4.7 of the APPNOTE: the checksum
  // of the one byte 'a' is the published one.
  lemma ChecksumOfA()
    ensures Crc32([0x61], 0) == 0xE8B7_BE43
  {
    var a: seq<Byte> := [0x61];
    assert a[..|a| - 1] == [];
    assert Complement(0) == 0xFFFF_FFFF && Step(0xFFFF_FFFF, 0x61) == Shift(0xFFFF_FF9E, 8);
    assert Shift(0xFFFF_FF9E, 8) == Shift(0x7FFF_FFCF, 7);
    assert Shift(0x7FFF_FFCF, 7) == Shift(0xD247_7CC7, 6);
    assert Shift(0xD247_7CC7, 6) == Shift(0x849B_3D43, 5);
    assert Shift(0x849B_3D43, 5) == Shift(0xAFF5_1D81, 4);
    assert Shift(0xAFF5_1D81, 4) == Shift(0xBA42_0DE0, 3);
    assert Shift(0xBA42_0DE0, 3) == Shift(0x5D21_06F0, 2);
    assert Shift(0x5D21_06F0, 2) == Shift(0x2E90_8378, 1);
    assert Shift(0x2E90_8378, 1) == Shift(0x1748_41BC, 0);
    assert Complement(0x1748_41BC) == 0xE8B7_BE43;
  }

  function Unsigned(crc: bv32): (n: nat)
    ensures n < 0x1_0000_0000
  {
    crc as int
  }
}

/** Little-endian fields, and the records of the format as sequences of them. */
module ZipRecords {
  import opened Bytes
  import opened Checksum

  // A value stored in `width` bytes.
  datatype Field = Field(value: nat, width: nat)

  function Limit(width: nat): nat { if width == 0 then 1 else 256 * Limit(width - 1) }

  lemma Limits()
    ensures Limit(2) == 0x1_0000 && Limit(4) == 0x1_0000_0000 && Limit(8) == 0x1_0000_0000_0000_0000
  {
    assert Limit(4) == 256 * Limit(3) && Limit(3) == 256 * Limit(2);
    assert Limit(8) == 256 * Limit(7) && Limit(7) == 256 * Limit(6) && Limit(6) == 256 * Limit(5)
      && Limit(5) == 256 * Limit(4);
  }

  function LittleEndian(value: nat, width: nat): (bytes: seq<Byte>)
    ensures |bytes| == width
  {
    if width == 0 then [] else [value % 256] + LittleEndian(value / 256, width - 1)
  }

  function Number(bytes: seq<Byte>): nat { if bytes == [] then 0 else bytes[0] + 256 * Number(bytes[1..]) }

  lemma {:induction false} NumberOfLittleEndian(value: nat, width: nat)
    requires value < Limit(width)
    ensures Number(LittleEndian(value, width)) == value
  {
    if width > 0 {
      NumberOfLittleEndian(value / 256, width - 1);
      assert LittleEndian(value, width)[1..] == LittleEndian(value / 256, width - 1);
    }
  }

  // Where field k begins.
  function Offset(widths: seq<nat>, k: nat): nat
    requires k <= |widths|
  {
    if k == 0 then 0 else Offset(widths, k - 1) + widths[k - 1]
  }

  lemma {:induction false} OffsetsGrow(widths: seq<nat>, j: nat, k: nat)
    requires j <= k <= |widths|
    ensures Offset(widths, j) <= Offset(widths, k)
  {
    if j < k { OffsetsGrow(widths, j, k - 1); }
  }

  function Widths(fields: seq<Field>): seq<nat> { seq(|fields|, i requires 0 <= i < |fields| => fields[i].width) }
  function Values(fields: seq<Field>): seq<nat> { seq(|fields|, i requires 0 <= i < |fields| => fields[i].value) }

  // The first k fields, one after the other.
  function EncodeTo(fields: seq<Field>, k: nat): (bytes: seq<Byte>)
    requires k <= |fields|
    ensures |bytes| == Offset(Widths(fields), k)
  {
    if k == 0 then [] else EncodeTo(fields, k - 1) + LittleEndian(fields[k - 1].value, fields[k - 1].width)
  }

  function Encode(fields: seq<Field>): seq<Byte> { EncodeTo(fields, |fields|) }

  predicate Fits(fields: seq<Field>) { forall i | 0 <= i < |fields| :: fields[i].value < Limit(fields[i].width) }

  // A reader that only knows the widths.
  function ReadField(bytes: seq<Byte>, widths: seq<nat>, k: nat): nat
    requires k < |widths|
  {
    var from := Offset(widths, k);
    if from + widths[k] <= |bytes| then Number(bytes[from..from + widths[k]]) else 0
  }

  function Decode(bytes: seq<Byte>, widths: seq<nat>): seq<nat> {
    seq(|widths|, k requires 0 <= k < |widths| => ReadField(bytes, widths, k))
  }

  lemma {:induction false} FieldInPlace(fields: seq<Field>, n: nat, k: nat)
    requires k < n <= |fields|
    ensures Offset(Widths(fields), k + 1) <= Offset(Widths(fields), n)
    ensures EncodeTo(fields, n)[Offset(Widths(fields), k)..Offset(Widths(fields), k + 1)] ==
      LittleEndian(fields[k].value, fields[k].width)
  {
    OffsetsGrow(Widths(fields), k + 1, n);
    if k + 1 < n {
      FieldInPlace(fields, n - 1, k);
      OffsetsGrow(Widths(fields), k + 1, n - 1);
      SliceOfPrefix(EncodeTo(fields, n - 1), LittleEndian(fields[n - 1].value, fields[n - 1].width),
                    Offset(Widths(fields), k), Offset(Widths(fields), k + 1));
    }
  }

  lemma DecodeEncoded(fields: seq<Field>)
    requires Fits(fields)
    ensures Decode(Encode(fields), Widths(fields)) == Values(fields)
  {
    forall k | 0 <= k < |fields| ensures ReadField(Encode(fields), Widths(fields), k) == fields[k].value {
      FieldInPlace(fields, |fields|, k);
      NumberOfLittleEndian(fields[k].value, fields[k].width);
    }
  }

  // ----- the records, field by field (PKWARE APPNOTE 4.3.7, 4.3.9, 4.3.12, 4.3.14-4.3.16, 4.5.3) --

  const LOCAL_SIGNATURE := 0x0403_4b50
  const DESCRIPTOR_SIGNATURE := 0x0807_4b50
  const CENTRAL_SIGNATURE := 0x0201_4b50
  const ZIP64_END_SIGNATURE := 0x0606_4b50
  const LOCATOR_SIGNATURE := 0x0706_4b50
  const END_SIGNATURE := 0x0605_4b50
  const ZIP64_EXTRA := 1
  const VERSION := 45
  const FLAGS := 0x0808
  const MAX16 := 0xffff
  const MAX32 := 0xffff_ffff

  // One finished member as the writer remembers it.
  datatype Entry = Entry(name: seq<Byte>, size: nat, crc: nat, offset: nat, time: nat, date: nat)

  function LocalHeader(nameLength: nat, time: nat, date: nat): seq<Field> {
    [Field(LOCAL_SIGNATURE, 4), Field(VERSION, 2), Field(FLAGS, 2), Field(0, 2), Field(time, 2), Field(date, 2),
     Field(0, 4), Field(MAX32, 4), Field(MAX32, 4), Field(nameLength, 2), Field(20, 2)]
  }

  function LocalExtra(size: nat): seq<Field> {
    [Field(ZIP64_EXTRA, 2), Field(16, 2), Field(size, 8), Field(size, 8)]
  }

  function Descriptor(crc: nat, size: nat): seq<Field> {
    [Field(DESCRIPTOR_SIGNATURE, 4), Field(crc, 4), Field(size, 8), Field(size, 8)]
  }

  function CentralHeader(e: Entry): seq<Field> {
    [Field(CENTRAL_SIGNATURE, 4), Field(VERSION, 2), Field(VERSION, 2), Field(FLAGS, 2), Field(0, 2), Field(e.time, 2),
     Field(e.date, 2), Field(e.crc, 4), Field(MAX32, 4), Field(MAX32, 4), Field(|e.name|, 2), Field(28, 2),
     Field(0, 2), Field(0, 2), Field(0, 2), Field(0, 4), Field(MAX32, 4)]
  }

  function CentralExtra(e: Entry): seq<Field> {
    [Field(ZIP64_EXTRA, 2), Field(24, 2), Field(e.size, 8), Field(e.size, 8), Field(e.offset, 8)]
  }

  function Zip64End(count: nat, size: nat, start: nat): seq<Field> {
    [Field(ZIP64_END_SIGNATURE, 4), Field(44, 8), Field(VERSION, 2), Field(VERSION, 2), Field(0, 4), Field(0, 4),
     Field(count, 8), Field(count, 8), Field(size, 8), Field(start, 8)]
  }

  function Locator(zip64End: nat): seq<Field> {
    [Field(LOCATOR_SIGNATURE, 4), Field(0, 4), Field(zip64End, 8), Field(1, 4)]
  }

  function End(): seq<Field> {
    [Field(END_SIGNATURE, 4), Field(0, 2), Field(0, 2), Field(MAX16, 2), Field(MAX16, 2), Field(MAX32, 4),
      Field(MAX32, 4), Field(0, 2)]
  }

  predicate Storable(e: Entry) {
    |e.name| < 0x1_0000 && e.size < 0x1_0000_0000_0000_0000 && e.offset < 0x1_0000_0000_0000_0000
    && e.crc < 0x1_0000_0000 && e.time < 0x1_0000 && e.date < 0x1_0000
  }

  lemma LocalFits(nameLength: nat, time: nat, date: nat, size: nat, crc: nat)
    requires nameLength < 0x1_0000 && time < 0x1_0000 && date < 0x1_0000
    requires size < 0x1_0000_0000_0000_0000 && crc < 0x1_0000_0000
    ensures Fits(LocalHeader(nameLength, time, date)) && Fits(LocalExtra(size)) && Fits(Descriptor(crc, size))
  {
    Limits();
  }

  lemma CentralHeaderFits(e: Entry)
    requires Storable(e)
    ensures Fits(CentralHeader(e))
  {
    Limits();
  }

  lemma CentralExtraFits(e: Entry)
    requires Storable(e)
    ensures Fits(CentralExtra(e))
  {
    Limits();
  }

  lemma EndFits(count: nat, size: nat, start: nat, zip64End: nat)
    requires count < 0x1_0000_0000_0000_0000 && size < 0x1_0000_0000_0000_0000 && start < 0x1_0000_0000_0000_0000
    requires zip64End < 0x1_0000_0000_0000_0000
    ensures Fits(Zip64End(count, size, start)) && Fits(Locator(zip64End)) && Fits(End())
  {
    Limits();
  }
}
