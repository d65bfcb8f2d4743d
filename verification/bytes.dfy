/** Bytes, and where one sequence stands inside another. */
module Bytes {
  type Byte = x: int | 0 <= x < 256

  lemma SliceOfPrefix(a: seq<Byte>, b: seq<Byte>, i: nat, j: nat)
    requires i <= j <= |a|
    ensures (a + b)[i..j] == a[i..j]
  {
  }

  predicate Holds(bytes: seq<Byte>, at: nat, part: seq<Byte>) {
    at + |part| <= |bytes| && bytes[at..at + |part|] == part
  }

  lemma HoldsSplit(bytes: seq<Byte>, at: nat, a: seq<Byte>, b: seq<Byte>)
    requires Holds(bytes, at, a + b)
    ensures Holds(bytes, at, a) && Holds(bytes, at + |a|, b)
  {
    assert bytes[at..at + |a|] == (a + b)[..|a|];
    assert bytes[at + |a|..at + |a| + |b|] == (a + b)[|a|..];
  }

  lemma HoldsJoined(bytes: seq<Byte>, at: nat, a: seq<Byte>, b: seq<Byte>)
    requires Holds(bytes, at, a) && Holds(bytes, at + |a|, b)
    ensures Holds(bytes, at, a + b)
  {
    assert bytes[at..at + |a + b|] == bytes[at..at + |a|] + bytes[at + |a|..at + |a| + |b|];
  }

  lemma HoldsThree(bytes: seq<Byte>, at: nat, a: seq<Byte>, b: seq<Byte>, c: seq<Byte>)
    requires Holds(bytes, at, a + (b + c))
    ensures Holds(bytes, at, a) && Holds(bytes, at + |a|, b) && Holds(bytes, at + |a| + |b|, c)
  {
    HoldsSplit(bytes, at, a, b + c);
    HoldsSplit(bytes, at + |a|, b, c);
  }

  lemma HoldsAppended(bytes: seq<Byte>, more: seq<Byte>, at: nat, part: seq<Byte>)
    requires Holds(bytes, at, part)
    ensures Holds(bytes + more, at, part)
  {
    SliceOfPrefix(bytes, more, at, at + |part|);
  }

  lemma SliceOfSlice(s: seq<Byte>, i: nat, j: nat, from: nat, to: nat)
    requires i <= j <= |s| && from <= to <= j - i
    ensures s[i..j][from..to] == s[i + from..i + to]
  {
    var m := s[i..j];
    forall k | 0 <= k < to - from ensures m[from..to][k] == s[i + from..i + to][k] {
      assert m[from + k] == s[i + from + k];
    }
  }

  lemma HoldsInside(bytes: seq<Byte>, at: nat, whole: seq<Byte>, from: nat, part: seq<Byte>)
    requires Holds(bytes, at, whole) && Holds(whole, from, part)
    ensures Holds(bytes, at + from, part)
  {
    SliceOfSlice(bytes, at, at + |whole|, from, from + |part|);
  }

  lemma HoldsEnd(a: seq<Byte>, b: seq<Byte>)
    ensures Holds(a + b, |a|, b)
  {
  }

  lemma HoldsMiddle(a: seq<Byte>, b: seq<Byte>, c: seq<Byte>)
    ensures Holds(a + b + c, |a|, b)
  {
    assert (a + b)[|a|..] == b;
    HoldsAppended(a + b, c, |a|, b);
  }

  lemma HoldsOne(bytes: seq<Byte>, at: nat, part: seq<Byte>, k: nat)
    requires Holds(bytes, at, part) && k < |part|
    ensures bytes[at + k] == part[k]
  {
    assert bytes[at..at + |part|][k] == bytes[at + k];
  }
}
