/** White space as String.prototype.trim knows it. */
module Texts {
  predicate Blank(c: char) {
    var n := c as int;
    || 0x09 <= n <= 0x0d || n == 0x20 || n == 0xa0 || n == 0x1680 || 0x2000 <= n <= 0x200a
    || n == 0x2028 || n == 0x2029 || n == 0x202f || n == 0x205f || n == 0x3000 || n == 0xfeff
  }

  // The white space and the line terminators of ECMAScript.
  lemma BlankIsWhiteSpace(c: char)
    ensures Blank(c) <==> c in {
      '\t', '\n', '\U{000B}', '\U{000C}', '\r', ' ', '\U{00A0}', '\U{1680}', '\U{2000}', '\U{2001}', '\U{2002}',
      '\U{2003}', '\U{2004}', '\U{2005}', '\U{2006}', '\U{2007}', '\U{2008}', '\U{2009}', '\U{200A}', '\U{2028}',
      '\U{2029}', '\U{202F}', '\U{205F}', '\U{3000}', '\U{FEFF}'}
  {
    if Blank(c) && 0x2000 <= c as int <= 0x200a { assert c == (c as int) as char; }
  }

  function TrimStart(s: string): string { if s != "" && Blank(s[0]) then TrimStart(s[1..]) else s }

  function TrimEnd(s: string): string { if s != "" && Blank(s[|s| - 1]) then TrimEnd(s[..|s| - 1]) else s }

  function Trim(s: string): string { TrimEnd(TrimStart(s)) }

  // ----- what trimming gives ------------------------------------------------------------------

  predicate AllBlank(s: string) { forall i | 0 <= i < |s| :: Blank(s[i]) }

  // Neither begins nor ends with white space.
  predicate Bare(s: string) { s == "" || (!Blank(s[0]) && !Blank(s[|s| - 1])) }

  // m is what is left of s without the white space around it.
  predicate Within(s: string, a: string, m: string, b: string) {
    AllBlank(a) && Bare(m) && AllBlank(b) && s == a + m + b
  }

  lemma {:induction false} StartStrips(a: string, m: string)
    requires AllBlank(a) && (m == "" || !Blank(m[0]))
    ensures TrimStart(a + m) == m
  {
    if a == "" {
      assert a + m == m;
    } else {
      StartStrips(a[1..], m);
      assert (a + m)[1..] == a[1..] + m;
    }
  }

  lemma {:induction false} EndStrips(m: string, b: string)
    requires AllBlank(b) && (m == "" || !Blank(m[|m| - 1]))
    ensures TrimEnd(m + b) == m
    decreases |b|
  {
    if b == "" {
      assert m + b == m;
    } else {
      EndStrips(m, b[..|b| - 1]);
      assert (m + b)[..|m + b| - 1] == m + b[..|b| - 1];
    }
  }

  // White space around a text goes, and nothing else.
  lemma TrimStrips(a: string, m: string, b: string)
    requires AllBlank(a) && Bare(m) && AllBlank(b)
    ensures Trim(a + m + b) == m
  {
    if m == "" {
      StartStrips(a + m + b, "");
      assert a + m + b + "" == a + m + b;
    } else {
      StartStrips(a, m + b);
      assert a + (m + b) == a + m + b;
      EndStrips(m, b);
    }
  }

  lemma Regroup(a: string, b: string, c: string)
    ensures a + b + c == a + (b + c)
  {
  }

  lemma {:induction false} StartKeeps(s: string) returns (a: string)
    ensures AllBlank(a) && s == a + TrimStart(s) && (TrimStart(s) == "" || !Blank(TrimStart(s)[0]))
  {
    if s != "" && Blank(s[0]) {
      var rest := StartKeeps(s[1..]);
      a := [s[0]] + rest;
      Regroup([s[0]], rest, TrimStart(s[1..]));
      assert s == [s[0]] + s[1..];
    } else {
      a := "";
    }
  }

  lemma {:induction false} EndKeeps(s: string) returns (b: string)
    ensures AllBlank(b) && s == TrimEnd(s) + b && (TrimEnd(s) == "" || !Blank(TrimEnd(s)[|TrimEnd(s)| - 1]))
    decreases |s|
  {
    if s != "" && Blank(s[|s| - 1]) {
      var rest := EndKeeps(s[..|s| - 1]);
      b := rest + [s[|s| - 1]];
      Regroup(TrimEnd(s[..|s| - 1]), rest, [s[|s| - 1]]);
      assert s == s[..|s| - 1] + [s[|s| - 1]];
    } else {
      b := "";
    }
  }

  // Every text is what trimming gives with white space around it.
  lemma TrimParts(s: string) returns (a: string, b: string)
    ensures Within(s, a, Trim(s), b)
  {
    a := StartKeeps(s);
    b := EndKeeps(TrimStart(s));
    if Trim(s) != "" { assert Trim(s)[0] == TrimStart(s)[0]; }
    assert a + (Trim(s) + b) == a + Trim(s) + b;
  }

  lemma NothingButBlank(s: string)
    ensures Trim(s) == "" <==> AllBlank(s)
  {
    if AllBlank(s) { TrimStrips(s, "", ""); assert s + "" + "" == s; }
    if Trim(s) == "" {
      var a, b := TrimParts(s);
      assert s == a + b;
    }
  }
}
