/** `parseRange`: one `bytes=` range of a request, against a file of known size. */
module ByteRanges {
  import opened Arithmetic
  import opened Decimals
  import opened Texts
  import opened Wrappers

  datatype Parsed = Absent | Unsatisfiable | Bytes(start: nat, end: nat)

  const PREFIX := "bytes="

  // /^bytes=(\d*)-(\d*)$/
  predicate Matches(header: string, first: string, last: string) {
    header == PREFIX + first + "-" + last && Digits(first) && Digits(last)
  }

  function DigitCount(s: string): (n: nat)
    ensures n <= |s| && Digits(s[..n]) && (n < |s| ==> !IsDigit(s[n]))
  {
    if s != "" && IsDigit(s[0]) then
      var n := DigitCount(s[1..]);
      assert s[..1 + n] == [s[0]] + s[1..][..n];
      1 + n
    else 0
  }

  // The two captured groups, or None when the expression does not match.
  function Match(header: string): Option<(string, string)> {
    if |header| < |PREFIX| || header[..|PREFIX|] != PREFIX then None else
    var rest := header[|PREFIX|..];
    var n := DigitCount(rest);
    if n == |rest| || rest[n] != '-' || !Digits(rest[n + 1..]) then None
    else Some((rest[..n], rest[n + 1..]))
  }

  lemma {:induction false} CountsDigits(first: string, tail: string)
    requires Digits(first) && (tail == "" || !IsDigit(tail[0]))
    ensures DigitCount(first + tail) == |first|
  {
    if first == "" {
      assert first + tail == tail;
    } else {
      CountsDigits(first[1..], tail);
      assert (first + tail)[1..] == first[1..] + tail;
    }
  }

  lemma MatchFinds(header: string, first: string, last: string)
    requires Matches(header, first, last)
    ensures Match(header) == Some((first, last))
  {
    var rest := header[|PREFIX|..];
    assert header[..|PREFIX|] == PREFIX && rest == first + "-" + last;
    var n := DigitCount(rest);
    assert rest == first + ("-" + last);
    CountsDigits(first, "-" + last);
    assert rest[..n] == first && rest[n + 1..] == last;
  }

  lemma MatchIsExact(header: string)
    ensures var m := Match(header);
      if m.Some? then Matches(header, m.value.0, m.value.1) else forall first, last :: !Matches(header, first, last)
  {
    if Match(header).Some? {
      var rest := header[|PREFIX|..];
      var n := DigitCount(rest);
      assert rest == rest[..n] + "-" + rest[n + 1..];
      assert header == PREFIX + rest;
    } else {
      forall first, last ensures !Matches(header, first, last) {
        if Matches(header, first, last) { MatchFinds(header, first, last); }
      }
    }
  }

  function Select(first: string, last: string, size: nat): Parsed
    requires Digits(first) && Digits(last)
  {
    if first == "" && last == "" then Unsatisfiable
    else if first == "" && Number(last) == 0 then Unsatisfiable
    else
      var start := if first == "" then (if size < Number(last) then 0 else size - Number(last)) else Number(first);
      var end := if first == "" || last == "" then size - 1 else Min(Number(last), size - 1);
      if start > MAX_SAFE_INTEGER || end > MAX_SAFE_INTEGER || start > end || start >= size then Unsatisfiable
      else Bytes(start, end)
  }

  function ParseRange(header: Option<string>, size: nat): Parsed {
    if header.None? then Absent else
    match Match(Trim(header.value))
    case None => Unsatisfiable
    case Some((first, last)) => MatchIsExact(Trim(header.value)); Select(first, last, size)
  }

  // ----- what a range means -------------------------------------------------------------------

  // Section 14.1.2 of RFC 9110: a suffix selects that many last bytes, any other range the bytes from
  // its first position up to its last position or the end of the file.
  predicate Selects(first: string, last: string, size: nat, i: int)
    requires Digits(first) && Digits(last)
  {
    && 0 <= i < size && (first != "" || last != "")
    && (if first == "" then i >= size - Number(last) else Number(first) <= i && (last == "" || i <= Number(last)))
  }

  // The answer is the selected bytes, or a refusal when there are none.
  ghost predicate Means(r: Parsed, first: string, last: string, size: nat)
    requires Digits(first) && Digits(last)
  {
    match r
    case Absent => false
    case Unsatisfiable => forall i :: !Selects(first, last, size, i)
    case Bytes(start, end) => start <= end < size && forall i :: Selects(first, last, size, i) <==> start <= i <= end
  }

  lemma SelectIsTheSelection(first: string, last: string, size: nat)
    requires Digits(first) && Digits(last) && size <= MAX_SAFE_INTEGER
    ensures Means(Select(first, last, size), first, last, size)
  {
    var r := Select(first, last, size);
    if r.Unsatisfiable? && first == "" && last != "" && Number(last) > 0 {
      forall i ensures !Selects(first, last, size, i) {}
    }
  }

  // The header is this byte range with white space around it.
  predicate Spells(header: string, a: string, first: string, last: string, b: string) {
    AllBlank(a) && AllBlank(b) && Digits(first) && Digits(last) && header == a + ("bytes=" + first + "-" + last) + b
  }

  // A header that is a byte range, white space around it aside, is answered with exactly the bytes it selects,
  // and refused when it selects none; any other header is refused, and no header means the whole file.
  lemma ParseRangeMeaning(header: Option<string>, size: nat)
    requires size <= MAX_SAFE_INTEGER
    ensures var r := ParseRange(header, size);
      && (r.Absent? <==> header.None?)
      && (header.Some? ==>
        && (forall a, first, last, b | Spells(header.value, a, first, last, b) :: Means(r, first, last, size))
        && ((forall a, first, last, b :: !Spells(header.value, a, first, last, b)) ==> r.Unsatisfiable?))
  {
    if header.Some? {
      forall a, first, last, b | Spells(header.value, a, first, last, b)
        ensures Means(ParseRange(header, size), first, last, size)
      {
        SpelledRangeMeans(a, first, last, b, size);
      }
      var text := Trim(header.value);
      MatchIsExact(text);
      if Match(text).Some? {
        var a, b := TrimParts(header.value);
        assert Spells(header.value, a, Match(text).value.0, Match(text).value.1, b);
      }
    }
  }

  lemma SpelledRangeMeans(a: string, first: string, last: string, b: string, size: nat)
    requires AllBlank(a) && AllBlank(b) && Digits(first) && Digits(last) && size <= MAX_SAFE_INTEGER
    ensures Means(ParseRange(Some(a + ("bytes=" + first + "-" + last) + b), size), first, last, size)
  {
    var text := "bytes=" + first + "-" + last;
    assert text[|text| - 1] == '-' || IsDigit(text[|text| - 1]);
    TrimStrips(a, text, b);
    MatchFinds(text, first, last);
    SelectIsTheSelection(first, last, size);
  }

  // The two groups are determined by the header, so the meaning above is the only one.
  lemma MatchIsUnique(header: string, first: string, last: string, first': string, last': string)
    requires Matches(header, first, last) && Matches(header, first', last')
    ensures first == first' && last == last'
  {
    MatchFinds(header, first, last);
    MatchFinds(header, first', last');
  }
}
