/** The lenient bencode walk of torrent files: where a value ends, without decoding it. */
module Bencode {
  import opened Bytes
  import opened Texts
  import opened Wrappers

  const MAX_DEPTH := 64
  const MAX_SAFE_INTEGER := 0x1F_FFFF_FFFF_FFFF

  const COLON: Byte := 0x3a
  const DICT: Byte := 0x64
  const END: Byte := 0x65
  const INT: Byte := 0x69
  const LIST: Byte := 0x6c

  // ----- where things end -------------------------------------------------------------------------

  // buffer.indexOf(byte, from)
  function IndexOf(b: seq<Byte>, byte: Byte, from: nat): (r: Option<nat>)
    ensures r.Some? ==> from <= r.value < |b| && b[r.value] == byte
    decreases |b| - from
  {
    if from >= |b| then None else if b[from] == byte then Some(from) else IndexOf(b, byte, from + 1)
  }

  // A string length: the bytes are read as ASCII, which drops their high bit, and must be one or more
  // decimal digits.
  function LengthOf(b: seq<Byte>): Option<nat> {
    if b == [] then None else
    var code: int := b[|b| - 1];
    var digit := code % 128 - 0x30;
    if !(0 <= digit <= 9) then None
    else if |b| == 1 then Some(digit)
    else
      var front := LengthOf(b[..|b| - 1]);
      if front.None? then None else Some(10 * front.value + digit)
  }

  // The end of a string whose length begins at `at`, with where its contents begin.
  function StringSpan(b: seq<Byte>, at: nat): (r: Option<(nat, nat)>)
    ensures r.Some? ==> at < r.value.0 <= r.value.1 <= |b|
  {
    var colon := IndexOf(b, COLON, at);
    if colon.None? then None else
    var length := LengthOf(b[at..colon.value]);
    if length.None? || length.value > MAX_SAFE_INTEGER then None else
    var end := colon.value + 1 + length.value;
    if end > |b| then None else Some((colon.value + 1, end))
  }

  // The end of the value that begins at `at`, or None for every malformed input.
  function Skip(b: seq<Byte>, at: nat, depth: nat): (r: Option<nat>)
    ensures r.Some? ==> at < r.value <= |b|
    decreases |b| - at, 0
  {
    if depth > MAX_DEPTH || at >= |b| then None
    else if b[at] == DICT then SkipPairs(b, at + 1, depth + 1)
    else if b[at] == LIST then SkipItems(b, at + 1, depth + 1)
    else if b[at] == INT then
      var end := IndexOf(b, END, at + 1);
      if end.None? then None else Some(end.value + 1)
    else if 0x30 <= b[at] <= 0x39 then
      var span := StringSpan(b, at);
      if span.None? then None else Some(span.value.1)
    else None
  }

  function SkipItems(b: seq<Byte>, at: nat, depth: nat): (r: Option<nat>)
    ensures r.Some? ==> at < r.value <= |b|
    decreases |b| - at, 1
  {
    if at >= |b| then None
    else if b[at] == END then Some(at + 1)
    else
      var item := Skip(b, at, depth);
      if item.None? then None else SkipItems(b, item.value, depth)
  }

  function SkipPairs(b: seq<Byte>, at: nat, depth: nat): (r: Option<nat>)
    ensures r.Some? ==> at < r.value <= |b|
    decreases |b| - at, 1
  {
    if at >= |b| then None
    else if b[at] == END then Some(at + 1)
    else
      var key := StringSpan(b, at);
      if key.None? then None else
      var value := Skip(b, key.value.1, depth);
      if value.None? then None else SkipPairs(b, value.value, depth)
  }

  // ----- the cursor -------------------------------------------------------------------------------

  /** The position shared by the walk's functions. A false result is the thrown BencodeError. */
  class Cursor {
    var i: nat

    constructor ()
      ensures i == 0
    {
      i := 0;
    }

    method ReadLength(b: seq<Byte>) returns (length: Option<nat>)
      modifies this
      ensures var colon := IndexOf(b, COLON, old(i));
        if colon.None? then length == None else
        var read := LengthOf(b[old(i)..colon.value]);
        if read.None? || read.value > MAX_SAFE_INTEGER then length == None else length == read && i == colon.value + 1
    {
      var colon := IndexOf(b, COLON, i);
      if colon.None? { return None; }
      length := LengthOf(b[i..colon.value]);
      if length.None? || length.value > MAX_SAFE_INTEGER { return None; }
      i := colon.value + 1;
    }

    method ReadStringSpan(b: seq<Byte>) returns (span: Option<(nat, nat)>)
      modifies this
      ensures span == StringSpan(b, old(i)) && (span.Some? ==> i == span.value.1)
    {
      var length := ReadLength(b);
      if length.None? { return None; }
      var start := i;
      var end := start + length.value;
      if end > |b| { return None; }
      i := end;
      span := Some((start, end));
    }

    method SkipValue(b: seq<Byte>, depth: nat) returns (ok: bool)
      modifies this
      ensures Skip(b, old(i), depth) == if ok then Some(i) else None
      decreases |b| - i, 0
    {
      if depth > MAX_DEPTH || i >= |b| { return false; }
      var marker := b[i];
      if marker == DICT {
        i := i + 1;
        ok := SkipToEnd(b, depth + 1, true);
      } else if marker == LIST {
        i := i + 1;
        ok := SkipToEnd(b, depth + 1, false);
      } else if marker == INT {
        i := i + 1;
        var end := IndexOf(b, END, i);
        if end.None? { return false; }
        i := end.value + 1;
        ok := true;
      } else if 0x30 <= marker <= 0x39 {
        var span := ReadStringSpan(b);
        ok := span.Some?;
      } else {
        ok := false;
      }
    }

    // The loop of a dictionary, whose values have keys before them, and of a list.
    method SkipToEnd(b: seq<Byte>, depth: nat, keyed: bool) returns (ok: bool)
      modifies this
      ensures (if keyed then SkipPairs(b, old(i), depth) else SkipItems(b, old(i), depth)) ==
        if ok then Some(i) else None
      decreases |b| - i, 1
    {
      while true
        invariant old(i) <= i
        invariant keyed ==> SkipPairs(b, i, depth) == SkipPairs(b, old(i), depth)
        invariant !keyed ==> SkipItems(b, i, depth) == SkipItems(b, old(i), depth)
        decreases |b| - i
      {
        if i >= |b| { return false; }
        if b[i] == END {
          i := i + 1;
          return true;
        }
        if keyed {
          var key := ReadStringSpan(b);
          if key.None? { return false; }
        }
        var value := SkipValue(b, depth);
        if !value { return false; }
      }
    }
  }

  // ----- the info dictionary ------------------------------------------------------------------------

  const INFO: seq<Byte> := [0x69, 0x6e, 0x66, 0x6f]
  const NAME: seq<Byte> := [0x6e, 0x61, 0x6d, 0x65]

  // The span of the value of the first `wanted` key among the pairs from `at` on.
  function FindKey(b: seq<Byte>, at: nat, wanted: seq<Byte>): (r: Option<nat>)
    ensures r.Some? ==> at < r.value <= |b|
    decreases |b| - at
  {
    if at >= |b| || b[at] == END then None else
    var key := StringSpan(b, at);
    if key.None? then None
    else if b[key.value.0..key.value.1] == wanted then Some(key.value.1)
    else
      var value := Skip(b, key.value.1, 0);
      if value.None? then None else FindKey(b, value.value, wanted)
  }

  // Behind the first `wanted` key of the dictionary at `at`.
  function Behind(b: seq<Byte>, at: nat, wanted: seq<Byte>): Option<nat> {
    if at >= |b| || b[at] != DICT then None else FindKey(b, at + 1, wanted)
  }

  // What parseInfoHash digests: the original bytes of the info value.
  function InfoBytes(b: seq<Byte>): Option<seq<Byte>> { Slice(b, Behind(b, 0, INFO)) }

  function Slice(b: seq<Byte>, start: Option<nat>): Option<seq<Byte>> {
    if start.None? then None else
    var end := Skip(b, start.value, 0);
    if end.None? then None else Some(b[start.value..end.value])
  }

  // The raw bytes parseTorrentName decodes.
  function NameBytes(b: seq<Byte>): Option<seq<Byte>> { NameFrom(b, Behind(b, 0, INFO)) }

  // The name as looked for from where the info value begins.
  function NameFrom(b: seq<Byte>, info: Option<nat>): Option<seq<Byte>> {
    if info.None? then None else TextAt(b, Behind(b, info.value, NAME))
  }

  function TextAt(b: seq<Byte>, at: Option<nat>): Option<seq<Byte>> {
    if at.None? then None else
    var span := StringSpan(b, at.value);
    if span.None? then None else Some(b[span.value.0..span.value.1])
  }

  // Move the cursor behind the first `wanted` key.
  method SeekKey(b: seq<Byte>, pos: Cursor, wanted: seq<Byte>) returns (found: bool)
    modifies pos
    ensures FindKey(b, old(pos.i), wanted) == if found then Some(pos.i) else None
  {
    while true
      invariant old(pos.i) <= pos.i && FindKey(b, pos.i, wanted) == FindKey(b, old(pos.i), wanted)
      decreases |b| - pos.i
    {
      if pos.i >= |b| || b[pos.i] == END { return false; }
      var key := pos.ReadStringSpan(b);
      if key.None? { return false; }
      if b[key.value.0..key.value.1] == wanted { return true; }
      var skipped := pos.SkipValue(b, 0);
      if !skipped { return false; }
    }
  }

  method ParseInfoHash(b: seq<Byte>) returns (digested: Option<seq<Byte>>)
    ensures digested == InfoBytes(b)
  {
    var pos := new Cursor();
    if b == [] || b[0] != DICT { return None; }
    pos.i := 1;
    var found := SeekKey(b, pos, INFO);
    if !found { return None; }
    var start := pos.i;
    var skipped := pos.SkipValue(b, 0);
    if !skipped { return None; }
    digested := Some(b[start..pos.i]);
  }

  // A name is shown when the raw bytes, given how they decode, are more than white space: what is within it.
  method ParseTorrentName(b: seq<Byte>, decode: seq<Byte> -> string) returns (name: Option<string>)
    ensures name.Some? <==> NameBytes(b).Some? && !AllBlank(decode(NameBytes(b).value))
    ensures name.Some? ==> exists pre, post :: Within(decode(NameBytes(b).value), pre, name.value, post)
  {
    var raw := FindName(b);
    if raw.None? { return None; }
    var text := Trim(decode(raw.value));
    NothingButBlank(decode(raw.value));
    if text == "" { return None; }
    ghost var pre, post := TrimParts(decode(raw.value));
    name := Some(text);
  }

  method FindName(b: seq<Byte>) returns (raw: Option<seq<Byte>>)
    ensures raw == NameBytes(b)
  {
    var pos := new Cursor();
    if b == [] || b[0] != DICT { return None; }
    pos.i := 1;
    var found := SeekKey(b, pos, INFO);
    if !found || pos.i >= |b| || b[pos.i] != DICT { return None; }
    pos.i := pos.i + 1;
    found := SeekKey(b, pos, NAME);
    if !found { return None; }
    var span := pos.ReadStringSpan(b);
    if span.None? { return None; }
    raw := Some(b[span.value.0..span.value.1]);
  }

  // ----- values and their encoding (BEP 3) ------------------------------------------------------------

  // A string with its length as it is spelled. An integer is kept as the text between its markers, which is
  // never looked at.
  datatype Spelled = Spelled(length: seq<Byte>, bytes: seq<Byte>)
  datatype Value = Integer(text: seq<Byte>) | Text(s: Spelled) | List(items: Items) | Dictionary(pairs: Pairs)
  datatype Items = Done | Item(head: Value, tail: Items)
  datatype Pairs = Last | Pair(key: Spelled, value: Value, rest: Pairs)

  predicate DigitBytes(b: seq<Byte>) { forall i | 0 <= i < |b| :: 0x30 <= b[i] <= 0x39 }
  predicate Lacks(text: seq<Byte>, byte: Byte) { forall i | 0 <= i < |text| :: text[i] != byte }

  // The walk is lenient about how a length is spelled: leading zeros and high bits do not matter, except that
  // a value is only taken for a string when it begins with a plain digit.
  predicate SpelledOk(s: Spelled) { LengthOf(s.length) == Some(|s.bytes|) }

  predicate WellFormed(v: Value) {
    match v
    case Integer(text) => Lacks(text, 0x65)
    case Text(s) => SpelledOk(s) && s.length != [] && s.length[0] <= 0x39
    case List(items) => ItemsWellFormed(items)
    case Dictionary(pairs) => PairsWellFormed(pairs)
  }

  predicate ItemsWellFormed(items: Items) { items.Item? ==> WellFormed(items.head) && ItemsWellFormed(items.tail) }

  predicate PairsWellFormed(pairs: Pairs) {
    pairs.Pair? ==> SpelledOk(pairs.key) && WellFormed(pairs.value) && PairsWellFormed(pairs.rest)
  }

  // The canonical spelling: a decimal numeral.
  function Numeral(n: nat): (b: seq<Byte>)
    ensures b != []
  {
    (if n < 10 then [] else Numeral(n / 10)) + [0x30 + n % 10]
  }

  // Every string has a well-formed spelling, and every integer's numeral is one.
  lemma {:induction false} NumeralsSpell(n: nat)
    ensures LengthOf(Numeral(n)) == Some(n) && DigitBytes(Numeral(n)) && Lacks(Numeral(n), 0x65)
  {
    if n >= 10 {
      NumeralsSpell(n / 10);
      assert Numeral(n)[..|Numeral(n)| - 1] == Numeral(n / 10);
    }
  }

  // The length, ':' and the bytes.
  function EncodeText(s: Spelled): seq<Byte> { s.length + ([0x3a] + s.bytes) }

  // 'i', 'l' and 'd' open an integer, a list and a dictionary, 'e' ends them.
  function Encode(v: Value): seq<Byte> {
    match v
    case Integer(text) => [0x69] + (text + [0x65])
    case Text(s) => EncodeText(s)
    case List(items) => [0x6c] + EncodeItems(items)
    case Dictionary(pairs) => [0x64] + EncodePairs(pairs)
  }

  // The members of a container and its end marker.
  function EncodeItems(items: Items): seq<Byte> {
    match items
    case Done => [0x65]
    case Item(head, tail) => Encode(head) + EncodeItems(tail)
  }

  function EncodePairs(pairs: Pairs): seq<Byte> {
    match pairs
    case Last => [0x65]
    case Pair(key, value, rest) => EncodeText(key) + (Encode(value) + EncodePairs(rest))
  }

  // How many containers stand around the most deeply nested value.
  function Depth(v: Value): nat {
    match v
    case Integer(_) => 0
    case Text(_) => 0
    case List(items) => if items.Done? then 0 else 1 + ItemsDepth(items)
    case Dictionary(pairs) => if pairs.Last? then 0 else 1 + PairsDepth(pairs)
  }

  function Larger(a: nat, b: nat): nat { if a < b then b else a }
  function ItemsDepth(items: Items): nat {
    if items.Done? then 0 else Larger(Depth(items.head), ItemsDepth(items.tail))
  }
  function PairsDepth(pairs: Pairs): nat {
    if pairs.Last? then 0 else Larger(Depth(pairs.value), PairsDepth(pairs.rest))
  }

  // ----- skipping undoes encoding ---------------------------------------------------------------------

  // A length is made of digits, each possibly with a high bit.
  lemma {:induction false} LengthIsDigits(b: seq<Byte>)
    ensures LengthOf(b).Some? ==> b != [] && Lacks(b, 0x3a) && 0x30 <= b[0] % 128 <= 0x39
    decreases |b|
  {
    if |b| > 1 && LengthOf(b).Some? {
      var front := b[..|b| - 1];
      LengthIsDigits(front);
      forall i | 0 <= i < |b| ensures b[i] != 0x3a {
        if i < |front| { assert front[i] == b[i]; }
      }
    }
  }

  // The first occurrence behind a text that has none.
  lemma {:induction false} FindsBehind(b: seq<Byte>, at: nat, text: seq<Byte>, byte: Byte)
    requires Holds(b, at, text) && at + |text| < |b| && b[at + |text|] == byte && Lacks(text, byte)
    ensures IndexOf(b, byte, at) == Some(at + |text|)
    decreases |text|
  {
    if text != [] {
      HoldsRest(b, at, text);
      FindsBehind(b, at + 1, text[1..], byte);
    }
  }

  lemma HoldsRest(b: seq<Byte>, at: nat, text: seq<Byte>)
    requires Holds(b, at, text) && text != []
    ensures b[at] == text[0] && Holds(b, at + 1, text[1..])
  {
    assert text == [text[0]] + text[1..];
    HoldsSplit(b, at, [text[0]], text[1..]);
    HoldsOne(b, at, text, 0);
  }

  lemma TextSpan(b: seq<Byte>, at: nat, s: Spelled)
    requires Holds(b, at, EncodeText(s)) && SpelledOk(s) && |b| <= MAX_SAFE_INTEGER
    ensures var end := at + |EncodeText(s)|;
      |s.bytes| <= end && StringSpan(b, at) == Some((end - |s.bytes|, end)) && Holds(b, end - |s.bytes|, s.bytes)
    ensures 0x30 <= b[at] % 128 <= 0x39 && s.length != [] && b[at] == s.length[0]
  {
    TextParts(b, at, s.length, s.bytes);
    LengthFound(b, at, s.length);
    SpanOf(b, at, at + |s.length|, |s.bytes|);
  }

  lemma TextParts(b: seq<Byte>, at: nat, digits: seq<Byte>, s: seq<Byte>)
    requires Holds(b, at, digits + ([COLON] + s))
    ensures Holds(b, at, digits) && b[at + |digits|] == COLON && Holds(b, at + |digits| + 1, s)
  {
    HoldsSplit(b, at, digits, [COLON] + s);
    Opens(b, at + |digits|, COLON, s);
  }

  lemma LengthFound(b: seq<Byte>, at: nat, digits: seq<Byte>)
    requires LengthOf(digits).Some?
    requires Holds(b, at, digits) && at + |digits| < |b| && b[at + |digits|] == COLON
    ensures IndexOf(b, COLON, at) == Some(at + |digits|)
    ensures digits != [] && b[at] == digits[0] && 0x30 <= b[at] % 128 <= 0x39
  {
    LengthIsDigits(digits);
    HoldsOne(b, at, digits, 0);
    FindsBehind(b, at, digits, COLON);
  }

  lemma SpanOf(b: seq<Byte>, at: nat, colon: nat, length: nat)
    requires at < colon < |b| && IndexOf(b, COLON, at) == Some(colon)
    requires LengthOf(b[at..colon]) == Some(length) && length <= MAX_SAFE_INTEGER && colon + 1 + length <= |b|
    ensures StringSpan(b, at) == Some((colon + 1, colon + 1 + length))
  {
  }

  lemma MarkedText(b: seq<Byte>, at: nat, mark: Byte, text: seq<Byte>, last: Byte)
    requires Holds(b, at, [mark] + (text + [last])) && Lacks(text, last)
    ensures b[at] == mark && IndexOf(b, last, at + 1) == Some(at + 1 + |text|)
  {
    Opens(b, at, mark, text + [last]);
    EndsText(b, at + 1, text, last);
  }

  lemma EndsText(b: seq<Byte>, at: nat, text: seq<Byte>, last: Byte)
    requires Holds(b, at, text + [last]) && Lacks(text, last)
    ensures IndexOf(b, last, at) == Some(at + |text|)
  {
    HoldsSplit(b, at, text, [last]);
    LastFollows(b, at + |text|, last);
    FindsBehind(b, at, text, last);
  }

  lemma LastFollows(b: seq<Byte>, at: nat, last: Byte)
    requires Holds(b, at, [last])
    ensures at < |b| && b[at] == last
  {
    HoldsOne(b, at, [last], 0);
  }

  lemma Opens(b: seq<Byte>, at: nat, mark: Byte, body: seq<Byte>)
    requires Holds(b, at, [mark] + body)
    ensures b[at] == mark && Holds(b, at + 1, body)
  {
    HoldsSplit(b, at, [mark], body);
    HoldsOne(b, at, [mark], 0);
  }

  // Where a value of this shape that begins at `at` ends, whatever its depth.
  function EndOf(b: seq<Byte>, at: nat, v: Value): (r: Option<nat>)
    decreases v
  {
    if at >= |b| then None else
    match v
    case Integer(_) => if b[at] == INT then IntegerEnd(b, at) else None
    case Text(_) => TextEnd(b, at)
    case List(items) => if b[at] == LIST then EndOfItems(b, at + 1, items) else None
    case Dictionary(pairs) => if b[at] == DICT then EndOfPairs(b, at + 1, pairs) else None
  }

  function IntegerEnd(b: seq<Byte>, at: nat): Option<nat> {
    var end := IndexOf(b, END, at + 1);
    if end.None? then None else Some(end.value + 1)
  }

  function TextEnd(b: seq<Byte>, at: nat): Option<nat> {
    if at >= |b| || b[at] > 0x39 then None else KeyEnd(b, at)
  }

  function KeyEnd(b: seq<Byte>, at: nat): Option<nat> {
    var span := StringSpan(b, at);
    if at >= |b| || !(0x30 <= b[at] % 128 <= 0x39) || span.None? then None else Some(span.value.1)
  }

  function EndOfItems(b: seq<Byte>, at: nat, items: Items): Option<nat>
    decreases items
  {
    match items
    case Done => if at < |b| && b[at] == END then Some(at + 1) else None
    case Item(head, tail) =>
      var next := EndOf(b, at, head);
      if next.None? then None else EndOfItems(b, next.value, tail)
  }

  function EndOfPairs(b: seq<Byte>, at: nat, pairs: Pairs): Option<nat>
    decreases pairs
  {
    match pairs
    case Last => if at < |b| && b[at] == END then Some(at + 1) else None
    case Pair(_, value, rest) =>
      var valueAt := KeyEnd(b, at);
      if valueAt.None? then None else
      var next := EndOf(b, valueAt.value, value);
      if next.None? then None else EndOfPairs(b, next.value, rest)
  }

  // The parts of a dictionary from one of its keys on.
  lemma PairHeld(b: seq<Byte>, at: nat, pairs: Pairs) returns (valueAt: nat, restAt: nat)
    requires pairs.Pair? && Holds(b, at, EncodePairs(pairs)) && PairsWellFormed(pairs) && |b| <= MAX_SAFE_INTEGER
    ensures at < |b| && b[at] != END && |pairs.key.bytes| <= valueAt
      && StringSpan(b, at) == Some((valueAt - |pairs.key.bytes|, valueAt))
    ensures b[valueAt - |pairs.key.bytes|..valueAt] == pairs.key.bytes
    ensures Holds(b, valueAt, Encode(pairs.value)) && restAt == valueAt + |Encode(pairs.value)|
    ensures Holds(b, restAt, EncodePairs(pairs.rest)) && at + |EncodePairs(pairs)| == restAt + |EncodePairs(pairs.rest)|
    ensures KeyEnd(b, at) == Some(valueAt)
  {
    var text := EncodeText(pairs.key);
    HoldsSplit(b, at, text, Encode(pairs.value) + EncodePairs(pairs.rest));
    HoldsSplit(b, at + |text|, Encode(pairs.value), EncodePairs(pairs.rest));
    TextSpan(b, at, pairs.key);
    valueAt, restAt := at + |text|, at + |text| + |Encode(pairs.value)|;
  }

  lemma {:induction false} EncodedEnds(b: seq<Byte>, at: nat, v: Value)
    requires Holds(b, at, Encode(v)) && WellFormed(v) && |b| <= MAX_SAFE_INTEGER
    ensures EndOf(b, at, v) == Some(at + |Encode(v)|)
    decreases v, 0
  {
    match v {
      case Integer(text) => EncodedIntegerEnds(b, at, text);
      case Text(s) => EncodedTextEnds(b, at, s);
      case List(items) => EncodedListEnds(b, at, items);
      case Dictionary(pairs) => EncodedDictionaryEnds(b, at, pairs);
    }
  }

  lemma EncodedIntegerEnds(b: seq<Byte>, at: nat, text: seq<Byte>)
    requires Holds(b, at, [INT] + (text + [END])) && Lacks(text, END)
    ensures EndOf(b, at, Integer(text)) == Some(at + |text| + 2)
  {
    MarkedText(b, at, INT, text, END);
  }

  lemma EncodedTextEnds(b: seq<Byte>, at: nat, s: Spelled)
    requires Holds(b, at, EncodeText(s)) && WellFormed(Text(s)) && |b| <= MAX_SAFE_INTEGER
    ensures EndOf(b, at, Text(s)) == Some(at + |EncodeText(s)|)
  {
    TextSpan(b, at, s);
  }

  lemma {:induction false} EncodedListEnds(b: seq<Byte>, at: nat, items: Items)
    requires Holds(b, at, [LIST] + EncodeItems(items)) && ItemsWellFormed(items) && |b| <= MAX_SAFE_INTEGER
    ensures EndOf(b, at, List(items)) == Some(at + 1 + |EncodeItems(items)|)
    decreases items, 1
  {
    Opens(b, at, LIST, EncodeItems(items));
    EncodedItemsEnd(b, at + 1, items);
    ListEnds(b, at, items, at + 1 + |EncodeItems(items)|);
  }

  lemma {:induction false} EncodedDictionaryEnds(b: seq<Byte>, at: nat, pairs: Pairs)
    requires Holds(b, at, [DICT] + EncodePairs(pairs)) && PairsWellFormed(pairs) && |b| <= MAX_SAFE_INTEGER
    ensures EndOf(b, at, Dictionary(pairs)) == Some(at + 1 + |EncodePairs(pairs)|)
    decreases pairs, 4
  {
    Opens(b, at, DICT, EncodePairs(pairs));
    var body := at + 1;
    var end := EncodedBodyEnds(b, body, pairs);
    DictionaryEnds(b, at, pairs, end);
  }

  lemma {:induction false} EncodedBodyEnds(b: seq<Byte>, at: nat, pairs: Pairs) returns (end: nat)
    requires Holds(b, at, EncodePairs(pairs)) && PairsWellFormed(pairs) && |b| <= MAX_SAFE_INTEGER
    ensures end == at + |EncodePairs(pairs)| && EndOfPairs(b, at, pairs) == Some(end)
    decreases pairs, 3
  {
    EncodedPairsEnd(b, at, pairs);
    end := at + |EncodePairs(pairs)|;
  }

  lemma ListEnds(b: seq<Byte>, at: nat, items: Items, end: nat)
    requires at < |b| && b[at] == LIST && EndOfItems(b, at + 1, items) == Some(end)
    ensures EndOf(b, at, List(items)) == Some(end)
  {
  }

  lemma DictionaryEnds(b: seq<Byte>, at: nat, pairs: Pairs, end: nat)
    requires at < |b| && b[at] == DICT && EndOfPairs(b, at + 1, pairs) == Some(end)
    ensures EndOf(b, at, Dictionary(pairs)) == Some(end)
  {
  }

  lemma {:induction false} EncodedItemsEnd(b: seq<Byte>, at: nat, items: Items)
    requires Holds(b, at, EncodeItems(items)) && ItemsWellFormed(items) && |b| <= MAX_SAFE_INTEGER
    ensures EndOfItems(b, at, items) == Some(at + |EncodeItems(items)|)
    decreases items, 0
  {
    if items.Done? {
      HoldsOne(b, at, [END], 0);
    } else {
      var next := ItemHeld(b, at, items.head, items.tail);
      EncodedEnds(b, at, items.head);
      EncodedItemsEnd(b, next, items.tail);
      ItemEnds(b, at, items, next, next + |EncodeItems(items.tail)|);
    }
  }

  lemma ItemHeld(b: seq<Byte>, at: nat, head: Value, tail: Items) returns (next: nat)
    requires Holds(b, at, EncodeItems(Item(head, tail)))
    ensures Holds(b, at, Encode(head)) && next == at + |Encode(head)| && Holds(b, next, EncodeItems(tail))
    ensures at + |EncodeItems(Item(head, tail))| == next + |EncodeItems(tail)|
  {
    next := at + |Encode(head)|;
    HoldsSplit(b, at, Encode(head), EncodeItems(tail));
  }

  lemma ItemEnds(b: seq<Byte>, at: nat, items: Items, next: nat, end: nat)
    requires items.Item? && EndOf(b, at, items.head) == Some(next) && EndOfItems(b, next, items.tail) == Some(end)
    ensures EndOfItems(b, at, items) == Some(end)
  {
  }

  lemma {:induction false} EncodedPairsEnd(b: seq<Byte>, at: nat, pairs: Pairs)
    requires Holds(b, at, EncodePairs(pairs)) && PairsWellFormed(pairs) && |b| <= MAX_SAFE_INTEGER
    ensures EndOfPairs(b, at, pairs) == Some(at + |EncodePairs(pairs)|)
    decreases pairs, 2
  {
    if pairs.Last? { HoldsOne(b, at, [END], 0); } else { EncodedPairEnds(b, at, pairs); }
  }

  lemma {:induction false} EncodedPairEnds(b: seq<Byte>, at: nat, pairs: Pairs)
    requires pairs.Pair? && Holds(b, at, EncodePairs(pairs)) && PairsWellFormed(pairs) && |b| <= MAX_SAFE_INTEGER
    ensures EndOfPairs(b, at, pairs) == Some(at + |EncodePairs(pairs)|)
    decreases pairs, 1
  {
    var valueAt, restAt := PairHeld(b, at, pairs);
    EncodedRestEnds(b, at, pairs, valueAt, restAt);
  }

  lemma {:induction false} EncodedRestEnds(b: seq<Byte>, at: nat, pairs: Pairs, valueAt: nat, restAt: nat)
    requires pairs.Pair? && PairsWellFormed(pairs) && KeyEnd(b, at) == Some(valueAt) && |b| <= MAX_SAFE_INTEGER
    requires Holds(b, valueAt, Encode(pairs.value)) && restAt == valueAt + |Encode(pairs.value)|
    requires Holds(b, restAt, EncodePairs(pairs.rest))
    ensures EndOfPairs(b, at, pairs) == Some(restAt + |EncodePairs(pairs.rest)|)
    decreases pairs, 0
  {
    EncodedEnds(b, valueAt, pairs.value);
    assert EndOf(b, valueAt, pairs.value) == Some(restAt);
    var end := EncodedBodyEnds(b, restAt, pairs.rest);
    PairEnds(b, at, pairs, valueAt, restAt, end);
  }

  lemma PairEnds(b: seq<Byte>, at: nat, pairs: Pairs, valueAt: nat, restAt: nat, end: nat)
    requires pairs.Pair? && KeyEnd(b, at) == Some(valueAt)
    requires EndOf(b, valueAt, pairs.value) == Some(restAt) && EndOfPairs(b, restAt, pairs.rest) == Some(end)
    ensures EndOfPairs(b, at, pairs) == Some(end)
  {
  }

  // No value begins with the end marker.
  lemma OpensSomehow(b: seq<Byte>, at: nat, v: Value)
    requires EndOf(b, at, v).Some?
    ensures at < |b| && b[at] != END
    ensures !v.Dictionary? ==> b[at] != DICT
    ensures !v.Text? ==> b[at] in {INT, LIST, DICT}
  {
  }

  lemma {:induction false} SkipStops(b: seq<Byte>, at: nat, v: Value, depth: nat)
    requires EndOf(b, at, v).Some?
    ensures Skip(b, at, depth) == if depth + Depth(v) <= 64 then EndOf(b, at, v) else None
    decreases v
  {
    match v {
      case Integer(_) => LeafStops(b, at, v, depth);
      case Text(_) => LeafStops(b, at, v, depth);
      case List(items) =>
        if depth <= 64 { ItemsStop(b, at + 1, items, depth + 1); }
        ListStops(b, at, items, depth);
      case Dictionary(pairs) =>
        if depth <= 64 { PairsStop(b, at + 1, pairs, depth + 1); }
        DictionaryStops(b, at, pairs, depth);
    }
  }

  lemma LeafStops(b: seq<Byte>, at: nat, v: Value, depth: nat)
    requires EndOf(b, at, v).Some? && (v.Integer? || v.Text?)
    ensures Skip(b, at, depth) == if depth <= 64 then EndOf(b, at, v) else None
  {
  }

  lemma ListStops(b: seq<Byte>, at: nat, items: Items, depth: nat)
    requires EndOf(b, at, List(items)).Some?
    ensures Skip(b, at, depth) == if depth <= 64 then SkipItems(b, at + 1, depth + 1) else None
    ensures EndOf(b, at, List(items)) == EndOfItems(b, at + 1, items)
  {
  }

  lemma DictionaryStops(b: seq<Byte>, at: nat, pairs: Pairs, depth: nat)
    requires EndOf(b, at, Dictionary(pairs)).Some?
    ensures Skip(b, at, depth) == if depth <= 64 then SkipPairs(b, at + 1, depth + 1) else None
    ensures EndOf(b, at, Dictionary(pairs)) == EndOfPairs(b, at + 1, pairs)
  {
  }

  lemma {:induction false} ItemsStop(b: seq<Byte>, at: nat, items: Items, depth: nat)
    requires EndOfItems(b, at, items).Some?
    ensures SkipItems(b, at, depth) ==
      if items.Done? || depth + ItemsDepth(items) <= 64 then EndOfItems(b, at, items) else None
    decreases items
  {
    if items.Item? {
      OpensSomehow(b, at, items.head);
      SkipStops(b, at, items.head, depth);
      ItemsStop(b, EndOf(b, at, items.head).value, items.tail, depth);
    }
  }

  lemma {:induction false} PairsStop(b: seq<Byte>, at: nat, pairs: Pairs, depth: nat)
    requires EndOfPairs(b, at, pairs).Some?
    ensures SkipPairs(b, at, depth) ==
      if pairs.Last? || depth + PairsDepth(pairs) <= 64 then EndOfPairs(b, at, pairs) else None
    decreases pairs
  {
    if pairs.Pair? {
      var valueAt := KeyEnd(b, at).value;
      SkipStops(b, valueAt, pairs.value, depth);
      PairsStop(b, EndOf(b, valueAt, pairs.value).value, pairs.rest, depth);
    }
  }

  // Standing at the encoding of a value, skipping ends exactly behind it, whatever follows, unless it is
  // nested too deeply: then, and only then, the walk fails.
  lemma SkipUndoesEncode(b: seq<Byte>, at: nat, v: Value, depth: nat)
    requires Holds(b, at, Encode(v)) && WellFormed(v) && |b| <= MAX_SAFE_INTEGER
    ensures Skip(b, at, depth) == if depth + Depth(v) <= 64 then Some(at + |Encode(v)|) else None
  {
    EncodedEnds(b, at, v);
    SkipStops(b, at, v, depth);
  }

  // ----- only encodings are passed over ---------------------------------------------------------------

  lemma {:induction false} NothingBefore(b: seq<Byte>, byte: Byte, from: nat)
    requires IndexOf(b, byte, from).Some?
    ensures Lacks(b[from..IndexOf(b, byte, from).value], byte)
    decreases |b| - from
  {
    if b[from] != byte { NothingBefore(b, byte, from + 1); }
  }

  lemma SpanIsText(b: seq<Byte>, at: nat) returns (s: Spelled)
    requires StringSpan(b, at).Some?
    ensures var (start, end) := StringSpan(b, at).value;
      SpelledOk(s) && s.bytes == b[start..end] && Holds(b, at, EncodeText(s)) && end == at + |EncodeText(s)|
    ensures s.length != [] && at < |b| && s.length[0] == b[at]
  {
    var (start, end) := StringSpan(b, at).value;
    s := Spelled(b[at..start - 1], b[start..end]);
    LengthIsDigits(s.length);
    HoldsJoined(b, start - 1, [0x3a], s.bytes);
    HoldsJoined(b, at, s.length, [0x3a] + s.bytes);
  }

  lemma IntegerFound(b: seq<Byte>, at: nat) returns (v: Value)
    requires IndexOf(b, 0x65, at + 1).Some? && b[at] == 0x69
    ensures v.Integer? && WellFormed(v) && Holds(b, at, Encode(v))
    ensures at + |Encode(v)| == IndexOf(b, 0x65, at + 1).value + 1
  {
    var end := IndexOf(b, 0x65, at + 1).value;
    NothingBefore(b, 0x65, at + 1);
    v := Integer(b[at + 1..end]);
    HoldsJoined(b, at + 1, v.text, [0x65]);
    HoldsJoined(b, at, [0x69], v.text + [0x65]);
  }

  lemma DictionaryJoined(b: seq<Byte>, at: nat, pairs: Pairs) returns (v: Value)
    requires at < |b| && b[at] == 0x64 && Holds(b, at + 1, EncodePairs(pairs)) && PairsWellFormed(pairs)
    ensures v == Dictionary(pairs) && WellFormed(v) && Holds(b, at, Encode(v))
    ensures |Encode(v)| == |EncodePairs(pairs)| + 1
  {
    v := Dictionary(pairs);
    HoldsJoined(b, at, [0x64], EncodePairs(pairs));
  }

  lemma ListJoined(b: seq<Byte>, at: nat, items: Items) returns (v: Value)
    requires at < |b| && b[at] == 0x6c && Holds(b, at + 1, EncodeItems(items)) && ItemsWellFormed(items)
    ensures v == List(items) && WellFormed(v) && Holds(b, at, Encode(v)) && |Encode(v)| == |EncodeItems(items)| + 1
  {
    v := List(items);
    HoldsJoined(b, at, [0x6c], EncodeItems(items));
  }

  // Whatever is skipped is the encoding of a value, nested no deeper than allowed.
  lemma {:induction false} SkippedIsEncoded(b: seq<Byte>, at: nat, depth: nat, end: nat) returns (v: Value)
    requires Skip(b, at, depth) == Some(end)
    ensures WellFormed(v) && Holds(b, at, Encode(v)) && end == at + |Encode(v)|
    ensures depth + Depth(v) <= 64
    decreases |b| - at, 1
  {
    if b[at] == DICT {
      v := SkippedDictionary(b, at, depth, end);
    } else if b[at] == LIST {
      v := SkippedList(b, at, depth, end);
    } else if b[at] == INT {
      v := IntegerFound(b, at);
    } else {
      var s := SpanIsText(b, at);
      v := Text(s);
    }
  }

  lemma {:induction false} SkippedDictionary(b: seq<Byte>, at: nat, depth: nat, end: nat) returns (v: Value)
    requires depth <= 64 && at < |b| && b[at] == DICT && SkipPairs(b, at + 1, depth + 1) == Some(end)
    ensures WellFormed(v) && Holds(b, at, Encode(v)) && end == at + |Encode(v)|
    ensures depth + Depth(v) <= 64
    decreases |b| - at, 0
  {
    var pairs := SkippedPairs(b, at + 1, depth + 1, end);
    v := DictionaryJoined(b, at, pairs);
  }

  lemma {:induction false} SkippedList(b: seq<Byte>, at: nat, depth: nat, end: nat) returns (v: Value)
    requires depth <= 64 && at < |b| && b[at] == LIST && SkipItems(b, at + 1, depth + 1) == Some(end)
    ensures WellFormed(v) && Holds(b, at, Encode(v)) && end == at + |Encode(v)|
    ensures depth + Depth(v) <= 64
    decreases |b| - at, 0
  {
    var items := SkippedItems(b, at + 1, depth + 1, end);
    v := ListJoined(b, at, items);
  }

  lemma {:induction false} SkippedItems(b: seq<Byte>, at: nat, depth: nat, end: nat) returns (items: Items)
    requires SkipItems(b, at, depth) == Some(end)
    ensures ItemsWellFormed(items) && Holds(b, at, EncodeItems(items))
    ensures end == at + |EncodeItems(items)|
    ensures items.Done? || depth + ItemsDepth(items) <= 64
    decreases |b| - at, 2
  {
    if b[at] == END {
      items := Done;
    } else {
      var next := OneItemSkipped(b, at, depth, end);
      var head := SkippedIsEncoded(b, at, depth, next);
      var tail := SkippedItems(b, next, depth, end);
      items := ItemJoined(b, at, next, head, tail, depth);
    }
  }

  lemma OneItemSkipped(b: seq<Byte>, at: nat, depth: nat, end: nat) returns (next: nat)
    requires SkipItems(b, at, depth) == Some(end) && b[at] != END
    ensures at < next <= |b| && Skip(b, at, depth) == Some(next) && SkipItems(b, next, depth) == Some(end)
  {
    next := Skip(b, at, depth).value;
  }

  lemma ItemJoined(b: seq<Byte>, at: nat, next: nat, head: Value, tail: Items, depth: nat) returns (items: Items)
    requires Holds(b, at, Encode(head)) && next == at + |Encode(head)| && Holds(b, next, EncodeItems(tail))
    requires WellFormed(head) && ItemsWellFormed(tail)
    requires depth + Depth(head) <= 64 && (tail.Done? || depth + ItemsDepth(tail) <= 64)
    ensures ItemsWellFormed(items) && depth + ItemsDepth(items) <= 64 && Holds(b, at, EncodeItems(items))
    ensures at + |EncodeItems(items)| == next + |EncodeItems(tail)|
  {
    items := Item(head, tail);
    HoldsJoined(b, at, Encode(head), EncodeItems(tail));
  }

  lemma {:induction false} SkippedPairs(b: seq<Byte>, at: nat, depth: nat, end: nat) returns (pairs: Pairs)
    requires SkipPairs(b, at, depth) == Some(end)
    ensures PairsWellFormed(pairs) && Holds(b, at, EncodePairs(pairs))
    ensures end == at + |EncodePairs(pairs)|
    ensures pairs.Last? || depth + PairsDepth(pairs) <= 64
    decreases |b| - at, 2
  {
    if b[at] == END {
      pairs := Last;
    } else {
      var key, valueAt, next := OnePairSkipped(b, at, depth, end);
      var value := SkippedIsEncoded(b, valueAt, depth, next);
      var rest := SkippedPairs(b, next, depth, end);
      pairs := PairJoined(b, at, valueAt, next, key, value, rest, depth);
    }
  }

  lemma OnePairSkipped(b: seq<Byte>, at: nat, depth: nat, end: nat)
    returns (key: Spelled, valueAt: nat, next: nat)
    requires SkipPairs(b, at, depth) == Some(end) && b[at] != END
    ensures SpelledOk(key) && Holds(b, at, EncodeText(key)) && valueAt == at + |EncodeText(key)|
    ensures at < valueAt < next <= |b| && Skip(b, valueAt, depth) == Some(next)
    ensures SkipPairs(b, next, depth) == Some(end)
  {
    key := SpanIsText(b, at);
    valueAt := StringSpan(b, at).value.1;
    next := Skip(b, valueAt, depth).value;
  }

  lemma PairJoined(b: seq<Byte>, at: nat, valueAt: nat, next: nat, key: Spelled, value: Value, rest: Pairs, depth: nat)
    returns (pairs: Pairs)
    requires Holds(b, at, EncodeText(key)) && valueAt == at + |EncodeText(key)|
    requires Holds(b, valueAt, Encode(value)) && next == valueAt + |Encode(value)| && Holds(b, next, EncodePairs(rest))
    requires SpelledOk(key) && WellFormed(value) && PairsWellFormed(rest)
    requires depth + Depth(value) <= 64 && (rest.Last? || depth + PairsDepth(rest) <= 64)
    ensures PairsWellFormed(pairs) && depth + PairsDepth(pairs) <= 64 && Holds(b, at, EncodePairs(pairs))
    ensures at + |EncodePairs(pairs)| == next + |EncodePairs(rest)|
  {
    pairs := Pair(key, value, rest);
    HoldsJoined(b, valueAt, Encode(value), EncodePairs(rest));
    HoldsJoined(b, at, EncodeText(key), Encode(value) + EncodePairs(rest));
  }

  // On any bytes at all the walk succeeds exactly where the encoding of a value stands, and ends behind it.
  lemma SkipsExactlyEncodings(b: seq<Byte>, at: nat, depth: nat, end: nat)
    requires |b| <= MAX_SAFE_INTEGER
    ensures Skip(b, at, depth) == Some(end) <==>
      exists v :: WellFormed(v) && depth + Depth(v) <= 64 && Holds(b, at, Encode(v)) && end == at + |Encode(v)|
  {
    if Skip(b, at, depth) == Some(end) {
      var v := SkippedIsEncoded(b, at, depth, end);
    }
    forall v | WellFormed(v) && depth + Depth(v) <= 64 && Holds(b, at, Encode(v)) && end == at + |Encode(v)|
      ensures Skip(b, at, depth) == Some(end)
    {
      SkipUndoesEncode(b, at, v, depth);
    }
  }

  // ----- the info value ---------------------------------------------------------------------------------

  // What the walk should find among the pairs of the top-level dictionary: it gives up on a value nested
  // too deeply in front of the wanted key.
  function ValueOf(pairs: Pairs, wanted: seq<Byte>): Option<Value> {
    match pairs
    case Last => None
    case Pair(key, value, rest) =>
      if key.bytes == wanted then Some(value) else if Depth(value) <= 64 then ValueOf(rest, wanted) else None
  }

  // Where the wanted value stands, if the walk reaches it.
  ghost predicate FoundAt(b: seq<Byte>, found: Option<nat>, value: Option<Value>) {
    if value.None? then found == None
    else found.Some? && WellFormed(value.value) && Holds(b, found.value, Encode(value.value))
  }

  lemma {:induction false} FindKeyFinds(b: seq<Byte>, at: nat, pairs: Pairs, wanted: seq<Byte>)
    requires Holds(b, at, EncodePairs(pairs)) && PairsWellFormed(pairs) && |b| <= MAX_SAFE_INTEGER
    ensures FoundAt(b, FindKey(b, at, wanted), ValueOf(pairs, wanted))
    decreases pairs
  {
    match pairs {
      case Last => HoldsOne(b, at, [END], 0);
      case Pair(key, value, rest) =>
        var restAt := FindOne(b, at, pairs, wanted);
        if key.bytes != wanted && Depth(value) <= 64 { FindKeyFinds(b, restAt, rest, wanted); }
    }
  }

  // The search at one pair: it ends there or goes on behind the value.
  lemma FindOne(b: seq<Byte>, at: nat, pairs: Pairs, wanted: seq<Byte>) returns (restAt: nat)
    requires pairs.Pair? && Holds(b, at, EncodePairs(pairs)) && PairsWellFormed(pairs) && |b| <= MAX_SAFE_INTEGER
    ensures Holds(b, restAt, EncodePairs(pairs.rest))
    ensures pairs.key.bytes == wanted ==> FoundAt(b, FindKey(b, at, wanted), Some(pairs.value))
    ensures pairs.key.bytes != wanted ==>
      FindKey(b, at, wanted) == if Depth(pairs.value) <= 64 then FindKey(b, restAt, wanted) else None
  {
    var valueAt;
    valueAt, restAt := PairHeld(b, at, pairs);
    SkipUndoesEncode(b, valueAt, pairs.value, 0);
    FoundOrOn(b, at, pairs.key.bytes, valueAt, restAt, Depth(pairs.value) <= 64, wanted);
  }

  lemma FoundOrOn(b: seq<Byte>, at: nat, key: seq<Byte>, valueAt: nat, restAt: nat, passable: bool, wanted: seq<Byte>)
    requires at < |b| && b[at] != END && |key| <= valueAt && StringSpan(b, at) == Some((valueAt - |key|, valueAt))
    requires b[valueAt - |key|..valueAt] == key && Skip(b, valueAt, 0) == if passable then Some(restAt) else None
    ensures FindKey(b, at, wanted) ==
      if key == wanted then Some(valueAt) else if passable then FindKey(b, restAt, wanted) else None
  {
    FindStep(b, at, (valueAt - |key|, valueAt), wanted);
  }

  lemma FindStep(b: seq<Byte>, at: nat, key: (nat, nat), wanted: seq<Byte>)
    requires at < |b| && b[at] != END && StringSpan(b, at) == Some(key)
    ensures FindKey(b, at, wanted) ==
      if b[key.0..key.1] == wanted then Some(key.1) else
      var value := Skip(b, key.1, 0); if value.None? then None else FindKey(b, value.value, wanted)
  {
  }

  lemma TopLevelFinds(b: seq<Byte>, at: nat, pairs: Pairs, wanted: seq<Byte>)
    requires Holds(b, at, [DICT] + EncodePairs(pairs)) && PairsWellFormed(pairs) && |b| <= MAX_SAFE_INTEGER
    ensures FoundAt(b, Behind(b, at, wanted), ValueOf(pairs, wanted))
  {
    Opens(b, at, DICT, EncodePairs(pairs));
    FindKeyFinds(b, at + 1, pairs, wanted);
  }

  // What skipping a value at the top level passes over is its encoding.
  lemma ValueSlice(b: seq<Byte>, found: Option<nat>, value: Option<Value>)
    requires FoundAt(b, found, value) && |b| <= MAX_SAFE_INTEGER
    ensures Slice(b, found) ==
      if value.Some? && Depth(value.value) <= 64 then Some(Encode(value.value)) else None
  {
    if value.Some? { SkipUndoesEncode(b, found.value, value.value, 0); }
  }

  // A torrent file's digest is taken over exactly the encoding of the value of its first `info` key,
  // whatever bytes follow the file's dictionary.
  lemma InfoHashIsOverTheInfoValue(b: seq<Byte>, pairs: Pairs)
    requires Holds(b, 0, Encode(Dictionary(pairs))) && PairsWellFormed(pairs) && |b| <= MAX_SAFE_INTEGER
    ensures var info := ValueOf(pairs, [0x69, 0x6e, 0x66, 0x6f]);
      InfoBytes(b) == if info.Some? && Depth(info.value) <= 64 then Some(Encode(info.value)) else None
  {
    TopLevelFinds(b, 0, pairs, INFO);
    ValueSlice(b, Behind(b, 0, INFO), ValueOf(pairs, INFO));
  }

  // Only a string can be read as a string: every other encoding fails the length test.
  lemma OnlyTextIsText(b: seq<Byte>, at: nat, v: Value)
    requires Holds(b, at, Encode(v)) && WellFormed(v) && !v.Text? && |b| <= MAX_SAFE_INTEGER
    ensures StringSpan(b, at) == None
  {
    EncodedEnds(b, at, v);
    OpensSomehow(b, at, v);
    var colon := IndexOf(b, COLON, at);
    if colon.Some? { LengthIsDigits(b[at..colon.value]); }
  }

  function TextOf(value: Option<Value>): Option<seq<Byte>> {
    if value.Some? && value.value.Text? then Some(value.value.s.bytes) else None
  }

  function NameIn(info: Option<Value>): Option<seq<Byte>> {
    if info.Some? && info.value.Dictionary? then TextOf(ValueOf(info.value.pairs, [0x6e, 0x61, 0x6d, 0x65])) else None
  }

  lemma TextFound(b: seq<Byte>, found: Option<nat>, value: Option<Value>)
    requires FoundAt(b, found, value) && |b| <= MAX_SAFE_INTEGER
    ensures TextAt(b, found) == TextOf(value)
  {
    if value.Some? {
      if value.value.Text? {
        TextSpan(b, found.value, value.value.s);
      } else {
        OnlyTextIsText(b, found.value, value.value);
      }
    }
  }

  lemma InfoNameFound(b: seq<Byte>, found: Option<nat>, info: Option<Value>)
    requires FoundAt(b, found, info) && |b| <= MAX_SAFE_INTEGER
    ensures NameFrom(b, found) == NameIn(info)
  {
    if info.Some? {
      if info.value.Dictionary? {
        TopLevelFinds(b, found.value, info.value.pairs, NAME);
        TextFound(b, Behind(b, found.value, NAME), ValueOf(info.value.pairs, NAME));
      } else {
        EncodedEnds(b, found.value, info.value);
        OpensSomehow(b, found.value, info.value);
      }
    }
  }

  // The display name is made of the text under the first `name` key of the value of the first `info` key.
  lemma NameIsOfTheInfoDictionary(b: seq<Byte>, pairs: Pairs)
    requires Holds(b, 0, Encode(Dictionary(pairs))) && PairsWellFormed(pairs) && |b| <= MAX_SAFE_INTEGER
    ensures NameBytes(b) == NameIn(ValueOf(pairs, [0x69, 0x6e, 0x66, 0x6f]))
  {
    TopLevelFinds(b, 0, pairs, INFO);
    InfoNameFound(b, Behind(b, 0, INFO), ValueOf(pairs, INFO));
  }

  // Pairs without the end marker, none of them in the way of a search.
  function Front(pairs: Pairs): seq<Byte> {
    match pairs
    case Last => []
    case Pair(key, value, rest) => EncodeText(key) + (Encode(value) + Front(rest))
  }

  predicate Passable(pairs: Pairs, wanted: seq<Byte>) {
    pairs.Pair? ==>
      && SpelledOk(pairs.key) && pairs.key.bytes != wanted
      && WellFormed(pairs.value) && Depth(pairs.value) <= 64 && Passable(pairs.rest, wanted)
  }

  // From `at` to `end` stand passable pairs and then the wanted key.
  ghost predicate KeyStands(b: seq<Byte>, at: nat, wanted: seq<Byte>, end: nat) {
    exists front, key :: KeyBehind(b, at, front, key, wanted, end)
  }

  predicate KeyBehind(b: seq<Byte>, at: nat, front: Pairs, key: Spelled, wanted: seq<Byte>, end: nat) {
    && Passable(front, wanted) && SpelledOk(key) && key.bytes == wanted
    && Holds(b, at, Front(front)) && Holds(b, at + |Front(front)|, EncodeText(key))
    && end == at + |Front(front)| + |EncodeText(key)|
  }

  lemma {:induction false} FindsTheKey(b: seq<Byte>, at: nat, front: Pairs, key: Spelled, wanted: seq<Byte>, end: nat)
    requires KeyBehind(b, at, front, key, wanted, end) && |b| <= MAX_SAFE_INTEGER
    ensures FindKey(b, at, wanted) == Some(end)
    decreases front
  {
    if front.Last? {
      FoundAtOnce(b, at, front, key, wanted, end);
    } else {
      var next := PastOne(b, at, front, key, wanted, end);
      FindsTheKey(b, next, front.rest, key, wanted, end);
    }
  }

  lemma FoundAtOnce(b: seq<Byte>, at: nat, front: Pairs, key: Spelled, wanted: seq<Byte>, end: nat)
    requires KeyBehind(b, at, front, key, wanted, end) && front.Last? && |b| <= MAX_SAFE_INTEGER
    ensures FindKey(b, at, wanted) == Some(end)
  {
    TextSpan(b, at, key);
    FindStep(b, at, (end - |key.bytes|, end), wanted);
  }

  lemma PastOne(b: seq<Byte>, at: nat, front: Pairs, key: Spelled, wanted: seq<Byte>, end: nat) returns (next: nat)
    requires KeyBehind(b, at, front, key, wanted, end) && front.Pair? && |b| <= MAX_SAFE_INTEGER
    ensures FindKey(b, at, wanted) == FindKey(b, next, wanted)
    ensures KeyBehind(b, next, front.rest, key, wanted, end)
  {
    var valueAt;
    valueAt, next := FrontParts(b, at, front, key, wanted, end);
    PastPair(b, at, valueAt, next, front.key, front.value, wanted);
  }

  lemma FrontParts(b: seq<Byte>, at: nat, front: Pairs, key: Spelled, wanted: seq<Byte>, end: nat)
    returns (valueAt: nat, next: nat)
    requires KeyBehind(b, at, front, key, wanted, end) && front.Pair?
    ensures Holds(b, at, EncodeText(front.key)) && valueAt == at + |EncodeText(front.key)|
    ensures Holds(b, valueAt, Encode(front.value)) && next == valueAt + |Encode(front.value)|
    ensures KeyBehind(b, next, front.rest, key, wanted, end)
  {
    valueAt := at + |EncodeText(front.key)|;
    next := valueAt + |Encode(front.value)|;
    HoldsThree(b, at, EncodeText(front.key), Encode(front.value), Front(front.rest));
  }

  lemma PastPair(b: seq<Byte>, at: nat, valueAt: nat, next: nat, key: Spelled, value: Value, wanted: seq<Byte>)
    requires Holds(b, at, EncodeText(key)) && valueAt == at + |EncodeText(key)| && SpelledOk(key)
    requires Holds(b, valueAt, Encode(value)) && next == valueAt + |Encode(value)| && |b| <= MAX_SAFE_INTEGER
    requires WellFormed(value) && Depth(value) <= 64 && key.bytes != wanted
    ensures FindKey(b, at, wanted) == FindKey(b, next, wanted)
  {
    KeyHeld(b, at, valueAt, key);
    ValueSkipped(b, valueAt, next, value);
    FoundOrOn(b, at, key.bytes, valueAt, next, true, wanted);
  }

  lemma KeyHeld(b: seq<Byte>, at: nat, valueAt: nat, key: Spelled)
    requires Holds(b, at, EncodeText(key)) && valueAt == at + |EncodeText(key)|
    requires SpelledOk(key) && |b| <= MAX_SAFE_INTEGER
    ensures |key.bytes| <= valueAt <= |b| && at < |b| && b[at] != END
    ensures StringSpan(b, at) == Some((valueAt - |key.bytes|, valueAt))
    ensures b[valueAt - |key.bytes|..valueAt] == key.bytes
  {
    TextSpan(b, at, key);
  }

  lemma ValueSkipped(b: seq<Byte>, at: nat, next: nat, value: Value)
    requires Holds(b, at, Encode(value)) && next == at + |Encode(value)|
    requires WellFormed(value) && Depth(value) <= 64 && |b| <= MAX_SAFE_INTEGER
    ensures Skip(b, at, 0) == Some(next)
  {
    SkipUndoesEncode(b, at, value, 0);
  }

  lemma NothingInFront(b: seq<Byte>, at: nat, key: Spelled)
    requires Holds(b, at, EncodeText(key)) && SpelledOk(key)
    ensures KeyBehind(b, at, Last, key, key.bytes, at + |EncodeText(key)|)
  {
  }

  lemma OneMoreInFront(b: seq<Byte>, at: nat, valueAt: nat, next: nat, first: Spelled, value: Value, rest: Pairs,
                       key: Spelled, wanted: seq<Byte>, end: nat)
    requires Holds(b, at, EncodeText(first)) && valueAt == at + |EncodeText(first)|
    requires Holds(b, valueAt, Encode(value)) && next == valueAt + |Encode(value)|
    requires SpelledOk(first) && first.bytes != wanted && WellFormed(value) && Depth(value) <= 64
    requires KeyBehind(b, next, rest, key, wanted, end)
    ensures KeyBehind(b, at, Pair(first, value, rest), key, wanted, end)
  {
    FrontJoined(b, at, valueAt, next, first, value, rest);
  }

  lemma FrontJoined(b: seq<Byte>, at: nat, valueAt: nat, next: nat, first: Spelled, value: Value, rest: Pairs)
    requires Holds(b, at, EncodeText(first)) && valueAt == at + |EncodeText(first)|
    requires Holds(b, valueAt, Encode(value)) && next == valueAt + |Encode(value)| && Holds(b, next, Front(rest))
    ensures var front := Front(Pair(first, value, rest));
      Holds(b, at, front) && at + |front| == next + |Front(rest)|
  {
    HoldsJoined(b, valueAt, Encode(value), Front(rest));
    HoldsJoined(b, at, EncodeText(first), Encode(value) + Front(rest));
  }

  lemma SearchStep(b: seq<Byte>, at: nat, wanted: seq<Byte>, end: nat)
    returns (first: Spelled, valueAt: nat, next: nat)
    requires FindKey(b, at, wanted) == Some(end)
    ensures SpelledOk(first) && Holds(b, at, EncodeText(first)) && valueAt == at + |EncodeText(first)|
    ensures first.bytes == wanted ==> end == valueAt
    ensures first.bytes != wanted ==> at < valueAt < next <= |b| && Skip(b, valueAt, 0) == Some(next)
    ensures first.bytes != wanted ==> FindKey(b, next, wanted) == Some(end)
  {
    first := SpanIsText(b, at);
    valueAt, next := StringSpan(b, at).value.1, end;
    if first.bytes != wanted { next := Skip(b, valueAt, 0).value; }
  }

  lemma {:induction false} KeyFound(b: seq<Byte>, at: nat, wanted: seq<Byte>, end: nat)
    returns (front: Pairs, key: Spelled)
    requires FindKey(b, at, wanted) == Some(end)
    ensures KeyBehind(b, at, front, key, wanted, end)
    decreases |b| - at
  {
    var first, valueAt, next := SearchStep(b, at, wanted, end);
    if first.bytes == wanted {
      NothingInFront(b, at, first);
      front, key := Last, first;
    } else {
      var value := SkippedIsEncoded(b, valueAt, 0, next);
      front, key := KeyFound(b, next, wanted, end);
      OneMoreInFront(b, at, valueAt, next, first, value, front, key, wanted, end);
      front := Pair(first, value, front);
    }
  }

  lemma FindsExactly(b: seq<Byte>, at: nat, wanted: seq<Byte>, end: nat)
    requires |b| <= MAX_SAFE_INTEGER
    ensures FindKey(b, at, wanted) == Some(end) <==> KeyStands(b, at, wanted, end)
  {
    if FindKey(b, at, wanted) == Some(end) {
      var front, key := KeyFound(b, at, wanted, end);
    }
    forall front, key | KeyBehind(b, at, front, key, wanted, end) ensures FindKey(b, at, wanted) == Some(end) {
      FindsTheKey(b, at, front, key, wanted, end);
    }
  }

  // Any file at all has a digest exactly when it begins as a dictionary whose passable pairs lead to an `info`
  // key with a value behind it, and then the digest is taken over that value's encoding.
  lemma DigestIsExact(b: seq<Byte>, digested: seq<Byte>)
    requires |b| <= MAX_SAFE_INTEGER
    ensures InfoBytes(b) == Some(digested) <==>
      && b != [] && b[0] == 0x64
      && exists at :: KeyStands(b, 1, [0x69, 0x6e, 0x66, 0x6f], at) && Holds(b, at, digested)
           && exists v :: WellFormed(v) && Depth(v) <= 64 && Encode(v) == digested
  {
    if InfoBytes(b) == Some(digested) {
      var at := InfoFound(b, digested);
    }
    forall at: nat, v | b != [] && b[0] == 0x64 && KeyStands(b, 1, INFO, at) && Holds(b, at, digested)
      && WellFormed(v) && Depth(v) <= 64 && Encode(v) == digested
      ensures InfoBytes(b) == Some(digested)
    {
      InfoDigested(b, at, v);
    }
  }

  lemma InfoDigested(b: seq<Byte>, at: nat, v: Value)
    requires b != [] && b[0] == 0x64 && |b| <= MAX_SAFE_INTEGER && KeyStands(b, 1, INFO, at)
    requires Holds(b, at, Encode(v)) && WellFormed(v) && Depth(v) <= 64
    ensures InfoBytes(b) == Some(Encode(v))
  {
    BehindStands(b, 0, INFO, at);
    ValueSkipped(b, at, at + |Encode(v)|, v);
  }

  lemma InfoFound(b: seq<Byte>, digested: seq<Byte>) returns (at: nat)
    requires InfoBytes(b) == Some(digested) && |b| <= MAX_SAFE_INTEGER
    ensures b != [] && b[0] == 0x64 && KeyStands(b, 1, INFO, at) && Holds(b, at, digested)
    ensures exists v :: WellFormed(v) && Depth(v) <= 64 && Encode(v) == digested
  {
    at := Behind(b, 0, INFO).value;
    FindsExactly(b, 1, INFO, at);
    var v := SkippedIsEncoded(b, at, 0, Skip(b, at, 0).value);
  }

  // In the same way any file has a name exactly when behind its `info` key stands the beginning of a dictionary
  // whose passable pairs lead to a `name` key with a string behind it.
  lemma NameIsExact(b: seq<Byte>, name: seq<Byte>)
    requires |b| <= MAX_SAFE_INTEGER
    ensures NameBytes(b) == Some(name) <==>
      && b != [] && b[0] == 0x64
      && exists info, at :: KeyStands(b, 1, [0x69, 0x6e, 0x66, 0x6f], info) && NameStands(b, info, at, name)
  {
    if NameBytes(b) == Some(name) {
      var info := Behind(b, 0, INFO).value;
      FindsExactly(b, 1, INFO, info);
      NameStandsExactly(b, info, name);
    }
    forall info: nat, at: nat | b != [] && b[0] == 0x64 && KeyStands(b, 1, INFO, info) && NameStands(b, info, at, name)
      ensures NameBytes(b) == Some(name)
    {
      FindsExactly(b, 1, INFO, info);
      NameStandsExactly(b, info, name);
    }
  }

  lemma NameStandsExactly(b: seq<Byte>, info: nat, name: seq<Byte>)
    requires |b| <= MAX_SAFE_INTEGER
    ensures NameFrom(b, Some(info)) == Some(name) <==> exists at :: NameStands(b, info, at, name)
  {
    if NameFrom(b, Some(info)) == Some(name) {
      var at := NameFound(b, info, name);
    }
    forall at: nat | NameStands(b, info, at, name) ensures NameFrom(b, Some(info)) == Some(name) {
      FindsTheName(b, info, at, name);
    }
  }

  lemma NameFound(b: seq<Byte>, info: nat, name: seq<Byte>) returns (at: nat)
    requires NameFrom(b, Some(info)) == Some(name) && |b| <= MAX_SAFE_INTEGER
    ensures NameStands(b, info, at, name)
  {
    at := Behind(b, info, NAME).value;
    FindsExactly(b, info + 1, NAME, at);
    var s := SpanIsText(b, at);
  }

  lemma BehindStands(b: seq<Byte>, info: nat, wanted: seq<Byte>, at: nat)
    requires info < |b| <= MAX_SAFE_INTEGER && b[info] == 0x64 && KeyStands(b, info + 1, wanted, at)
    ensures Behind(b, info, wanted) == Some(at)
  {
    FindsExactly(b, info + 1, wanted, at);
  }

  lemma SpelledText(b: seq<Byte>, at: nat, s: Spelled)
    requires Holds(b, at, EncodeText(s)) && SpelledOk(s) && |b| <= MAX_SAFE_INTEGER
    ensures TextAt(b, Some(at)) == Some(s.bytes)
  {
    TextSpan(b, at, s);
  }

  lemma FindsTheName(b: seq<Byte>, info: nat, at: nat, name: seq<Byte>)
    requires NameStands(b, info, at, name) && |b| <= MAX_SAFE_INTEGER
    ensures NameFrom(b, Some(info)) == Some(name)
  {
    BehindStands(b, info, NAME, at);
    var s :| SpelledOk(s) && s.bytes == name && Holds(b, at, EncodeText(s));
    SpelledText(b, at, s);
  }

  ghost predicate NameStands(b: seq<Byte>, info: nat, at: nat, name: seq<Byte>) {
    && info < |b| && b[info] == 0x64 && KeyStands(b, info + 1, [0x6e, 0x61, 0x6d, 0x65], at)
    && exists s :: SpelledOk(s) && s.bytes == name && Holds(b, at, EncodeText(s))
  }

  // ----- arbitrary bytes ---------------------------------------------------------------------------------

  lemma {:induction false} IndexOfAppended(b: seq<Byte>, more: seq<Byte>, byte: Byte, from: nat)
    requires IndexOf(b, byte, from).Some?
    ensures IndexOf(b + more, byte, from) == IndexOf(b, byte, from)
    decreases |b| - from
  {
    if b[from] != byte { IndexOfAppended(b, more, byte, from + 1); }
  }

  lemma SpanAppended(b: seq<Byte>, more: seq<Byte>, at: nat)
    requires StringSpan(b, at).Some?
    ensures StringSpan(b + more, at) == StringSpan(b, at)
  {
    IndexOfAppended(b, more, COLON, at);
    SliceOfPrefix(b, more, at, IndexOf(b, COLON, at).value);
  }

  // Where a value ends does not depend on what comes after it, for any bytes at all.
  lemma {:induction false} SkipAppended(b: seq<Byte>, more: seq<Byte>, at: nat, depth: nat)
    requires Skip(b, at, depth).Some?
    ensures Skip(b + more, at, depth) == Skip(b, at, depth)
    decreases |b| - at, 0
  {
    if b[at] == DICT {
      PairsAppended(b, more, at + 1, depth + 1);
    } else if b[at] == LIST {
      ItemsAppended(b, more, at + 1, depth + 1);
    } else if b[at] == INT {
      IndexOfAppended(b, more, END, at + 1);
    } else {
      SpanAppended(b, more, at);
    }
  }

  lemma {:induction false} ItemsAppended(b: seq<Byte>, more: seq<Byte>, at: nat, depth: nat)
    requires SkipItems(b, at, depth).Some?
    ensures SkipItems(b + more, at, depth) == SkipItems(b, at, depth)
    decreases |b| - at, 1
  {
    if b[at] != END {
      SkipAppended(b, more, at, depth);
      ItemsAppended(b, more, Skip(b, at, depth).value, depth);
    }
  }

  lemma {:induction false} PairsAppended(b: seq<Byte>, more: seq<Byte>, at: nat, depth: nat)
    requires SkipPairs(b, at, depth).Some?
    ensures SkipPairs(b + more, at, depth) == SkipPairs(b, at, depth)
    decreases |b| - at, 1
  {
    if b[at] != END {
      SpanAppended(b, more, at);
      var valueAt := StringSpan(b, at).value.1;
      SkipAppended(b, more, valueAt, depth);
      PairsAppended(b, more, Skip(b, valueAt, depth).value, depth);
    }
  }
}
