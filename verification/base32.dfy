/** Base32 info hashes of magnet links (section 6 of RFC 4648), decoded in a 32-bit accumulator. */
module Base32 {
  import opened Bytes
  import opened Hashes
  import opened Wrappers

  const ALPHABET := "ABCDEFGHIJKLMNOPQRSTUVWXYZ234567"
  const HASH_BYTES := 20

  function Upper(c: char): char { if 'a' <= c <= 'z' then (c as int - 32) as char else c }
  function Lower(c: char): char { if 'A' <= c <= 'Z' then (c as int + 32) as char else c }

  // BASE32.indexOf(char), or -1.
  function IndexOf(c: char): (i: int)
    ensures -1 <= i < 32
    ensures i >= 0 ==> ALPHABET[i] == c
  {
    if 'A' <= c <= 'Z' then c as int - 'A' as int
    else if '2' <= c <= '7' then 26 + (c as int - '2' as int)
    else -1
  }

  // The result of a 32-bit integer operation.
  function ToInt32(x: int): int { (x + 0x8000_0000) % 0x1_0000_0000 - 0x8000_0000 }

  function Pow2(n: nat): (p: nat)
    ensures p > 0
  {
    if n == 0 then 1 else 2 * Pow2(n - 1)
  }

  lemma Pow2Adds(m: nat, n: nat)
    ensures Pow2(m + n) == Pow2(m) * Pow2(n)
  {
    if m > 0 {
      Pow2Adds(m - 1, n);
      assert 2 * Pow2(m - 1) * Pow2(n) == 2 * (Pow2(m - 1) * Pow2(n));
    }
  }

  lemma Pow2Values()
    ensures Pow2(8) == 256 && Pow2(32) == 0x1_0000_0000
  {
    assert Pow2(2) == 4;
    assert Pow2(4) == 16;
    Pow2Adds(4, 4);
    Pow2Adds(8, 8);
    Pow2Adds(16, 16);
  }

  // x >> bits, rounding towards minus infinity.
  function ShiftRight(x: int, bits: nat): (r: int)
    ensures x >= 0 ==> r >= 0
    decreases bits
  {
    if bits == 0 then x else ShiftRight(x / 2, bits - 1)
  }

  // ----- exact decoding -----------------------------------------------------------------------------

  predicate InAlphabet(s: string) { forall c <- s :: IndexOf(Upper(c)) >= 0 }

  // The number a string of base32 digits stands for, most significant digit first.
  function Value32(s: string): nat
    requires InAlphabet(s)
  {
    if s == "" then 0 else
    assert s[|s| - 1] in s;
    32 * Value32(s[..|s| - 1]) + IndexOf(Upper(s[|s| - 1]))
  }

  function Value256(b: seq<Byte>): nat { if b == [] then 0 else 256 * Value256(b[..|b| - 1]) + b[|b| - 1] }

  // The low k bytes of a number, most significant first.
  function BigEndian(n: nat, k: nat): (b: seq<Byte>)
    ensures |b| == k
  {
    if k == 0 then [] else BigEndian(n / 256, k - 1) + [n % 256]
  }

  // What base32ToHex should return for a string: the bytes of its number, when it has 20 whole bytes.
  function Decoded(s: string): Option<seq<Byte>> {
    if !InAlphabet(s) || 5 * |s| / 8 != HASH_BYTES then None
    else Some(BigEndian(ShiftRight(Value32(s), 5 * |s| % 8), HASH_BYTES))
  }

  // What the loop has after a prefix: the accumulator wraps around, and the bytes are the whole bytes of
  // the number read so far.
  ghost predicate Reached(s: string, bits: nat, acc: int, bytes: seq<Byte>)
    requires InAlphabet(s)
  {
    && bits == 5 * |s| % 8 && |bytes| == 5 * |s| / 8
    && acc == ToInt32(Value32(s)) && bytes == BigEndian(ShiftRight(Value32(s), bits), |bytes|)
  }

  function Shift(acc: int, index: nat): int { ToInt32(acc * 32) + index }

  function ByteAt(acc: int, bits: nat): Byte { ShiftRight(acc, bits) % 256 }

  lemma ReachesMore(s: string, c: char, bits: nat, acc: int, bytes: seq<Byte>)
    requires InAlphabet(s) && IndexOf(Upper(c)) >= 0 && Reached(s, bits, acc, bytes)
    ensures InAlphabet(s + [c])
    ensures var acc' := Shift(acc, IndexOf(Upper(c)));
      if bits + 5 < 8 then Reached(s + [c], bits + 5, acc', bytes)
      else Reached(s + [c], bits - 3, acc', bytes + [ByteAt(acc', bits - 3)])
  {
    OneMoreDigit(s, c);
    BitCounts(|s|);
    if bits + 5 < 8 {
      NothingWhole(Value32(s), IndexOf(Upper(c)), bits, acc);
    } else {
      OneWhole(Value32(s), IndexOf(Upper(c)), bits, acc, |bytes|);
    }
  }

  lemma BitCounts(n: nat)
    ensures var bits := 5 * n % 8;
      if bits + 5 < 8 then 5 * (n + 1) % 8 == bits + 5 && 5 * (n + 1) / 8 == 5 * n / 8
      else 5 * (n + 1) % 8 == bits - 3 && 5 * (n + 1) / 8 == 5 * n / 8 + 1
  {
  }

  lemma NothingWhole(n: nat, index: nat, bits: nat, acc: int)
    requires index < 32 && acc == ToInt32(n)
    ensures Shift(acc, index) == ToInt32(32 * n + index) && ShiftRight(32 * n + index, bits + 5) == ShiftRight(n, bits)
  {
    Wraps(n, index);
    ShiftsAll(n, index, bits);
  }

  lemma OneWhole(n: nat, index: nat, bits: nat, acc: int, k: nat)
    requires index < 32 && 3 <= bits <= 7 && acc == ToInt32(n)
    ensures Shift(acc, index) == ToInt32(32 * n + index)
    ensures BigEndian(ShiftRight(32 * n + index, bits - 3), k + 1) == BigEndian(ShiftRight(n, bits), k)
      + [ByteAt(Shift(acc, index), bits - 3)]
  {
    Wraps(n, index);
    ShiftsPast(n, index, bits);
    LowByte(32 * n + index, bits - 3);
    OneMoreByte(ShiftRight(32 * n + index, bits - 3), k);
  }

  lemma OneMoreDigit(s: string, c: char)
    requires InAlphabet(s) && IndexOf(Upper(c)) >= 0
    ensures InAlphabet(s + [c]) && Value32(s + [c]) == 32 * Value32(s) + IndexOf(Upper(c))
  {
    assert (s + [c])[..|s|] == s;
  }

  lemma OneMoreByte(n: nat, k: nat)
    ensures BigEndian(n, k + 1) == BigEndian(n / 256, k) + [n % 256]
  {
  }

  lemma ReachesNext(s: string, i: nat, bits: nat, acc: int, bytes: seq<Byte>)
    requires i < |s| && InAlphabet(s[..i]) && IndexOf(Upper(s[i])) >= 0 && Reached(s[..i], bits, acc, bytes)
    ensures InAlphabet(s[..i + 1])
    ensures var acc' := Shift(acc, IndexOf(Upper(s[i])));
      if bits + 5 < 8 then Reached(s[..i + 1], bits + 5, acc', bytes)
      else Reached(s[..i + 1], bits - 3, acc', bytes + [ByteAt(acc', bits - 3)])
  {
    ReachesMore(s[..i], s[i], bits, acc, bytes);
    assert s[..i + 1] == s[..i] + [s[i]];
  }

  lemma ReachesTheEnd(s: string, bits: nat, acc: int, bytes: seq<Byte>)
    requires InAlphabet(s) && Reached(s, bits, acc, bytes)
    ensures Decoded(s) == if |bytes| == HASH_BYTES then Some(bytes) else None
  {
  }

  // The loop of base32ToHex.
  method Decode(s: string) returns (r: Option<seq<Byte>>)
    ensures r == Decoded(s)
  {
    var bits, acc := 0, 0;
    var bytes: seq<Byte> := [];
    for i := 0 to |s|
      invariant InAlphabet(s[..i]) && Reached(s[..i], bits, acc, bytes)
    {
      var index := IndexOf(Upper(s[i]));
      if index < 0 {
        assert s[i] in s;
        return None;
      }
      ReachesNext(s, i, bits, acc, bytes);
      acc := Shift(acc, index);
      bits := bits + 5;
      if bits >= 8 {
        bits := bits - 8;
        bytes := bytes + [ByteAt(acc, bits)];
      }
    }
    assert s[..|s|] == s;
    ReachesTheEnd(s, bits, acc, bytes);
    r := if |bytes| == HASH_BYTES then Some(bytes) else None;
  }

  lemma Wraps(n: nat, digit: nat)
    requires digit < 32
    ensures ToInt32(ToInt32(n) * 32) + digit == ToInt32(32 * n + digit)
  {
  }

  // t * 2^n, one doubling at a time.
  function Doubled(t: int, n: nat): int { if n == 0 then t else 2 * Doubled(t, n - 1) }

  lemma {:induction false} DoubledTwice(t: int, m: nat, n: nat)
    ensures Doubled(Doubled(t, m), n) == Doubled(t, m + n)
  {
    if n > 0 { DoubledTwice(t, m, n - 1); }
  }

  lemma DoubledByEight(t: int)
    ensures Doubled(t, 8) == 256 * t
  {
    assert Doubled(t, 1) == 2 * t;
    assert Doubled(t, 2) == 4 * t;
    assert Doubled(t, 3) == 8 * t;
    assert Doubled(t, 4) == 16 * t;
    assert Doubled(t, 5) == 32 * t;
    assert Doubled(t, 6) == 64 * t;
    assert Doubled(t, 7) == 128 * t;
  }

  // The low byte above `bits` does not notice a multiple of a higher power of two.
  lemma {:induction false} LowByteOf(x: int, t: int, bits: nat)
    ensures ShiftRight(x - Doubled(256 * t, bits), bits) % 256 == ShiftRight(x, bits) % 256
    decreases bits
  {
    if bits > 0 {
      assert (x - Doubled(256 * t, bits)) / 2 == x / 2 - Doubled(256 * t, bits - 1);
      LowByteOf(x / 2, t, bits - 1);
    }
  }

  lemma LowByte(n: nat, bits: nat)
    requires bits <= 7
    ensures ShiftRight(ToInt32(n), bits) % 256 == ShiftRight(n, bits) % 256
  {
    var q := (n + 0x8000_0000) / 0x1_0000_0000;
    var t := Doubled(q, 24 - bits);
    DoubledByEight(t);
    DoubledTwice(q, 24 - bits, 8);
    DoubledTwice(q, 32 - bits, bits);
    DoubledBy32(q);
    LowByteOf(n, t, bits);
  }

  lemma DoubledBy32(q: int)
    ensures Doubled(q, 32) == 0x1_0000_0000 * q
  {
    DoubledByEight(q);
    DoubledTwice(q, 8, 8);
    DoubledByEight(256 * q);
    DoubledTwice(q, 16, 8);
    DoubledByEight(0x1_0000 * q);
    DoubledTwice(q, 24, 8);
    DoubledByEight(0x100_0000 * q);
  }

  lemma {:induction false} ShiftTwice(x: int, a: nat, b: nat)
    ensures ShiftRight(ShiftRight(x, a), b) == ShiftRight(x, a + b)
    decreases a
  {
    if a > 0 { ShiftTwice(x / 2, a - 1, b); }
  }

  lemma SmallShifts(x: int)
    ensures ShiftRight(x, 5) == x / 32 && ShiftRight(x, 8) == x / 256
  {
    assert ShiftRight(x, 2) == x / 4;
    ShiftTwice(x, 2, 2);
    assert ShiftRight(x / 4, 2) == x / 16;
    ShiftTwice(x, 4, 1);
    ShiftTwice(x, 4, 4);
    assert ShiftRight(x / 16, 2) == x / 64;
    ShiftTwice(x / 16, 2, 2);
    assert ShiftRight(x / 64, 2) == x / 256;
  }

  lemma ShiftsAll(n: nat, digit: nat, bits: nat)
    requires digit < 32
    ensures ShiftRight(32 * n + digit, bits + 5) == ShiftRight(n, bits)
  {
    var m := 32 * n + digit;
    SmallShifts(m);
    ShiftTwice(m, 5, bits);
  }

  lemma ShiftsPast(n: nat, digit: nat, bits: nat)
    requires digit < 32 && bits >= 3
    ensures ShiftRight(32 * n + digit, bits - 3) / 256 == ShiftRight(n, bits)
  {
    var m := 32 * n + digit;
    ShiftsAll(n, digit, bits);
    ShiftTwice(m, bits - 3, 8);
    SmallShifts(ShiftRight(m, bits - 3));
  }

  // ----- encoding -------------------------------------------------------------------------------------

  function Encode32(n: nat, k: nat): (s: string)
    ensures |s| == k
  {
    if k == 0 then "" else Encode32(n / 32, k - 1) + [ALPHABET[n % 32]]
  }

  // The 32 digits of a 20-byte hash: 160 bits in groups of five, no padding.
  function Encode(hash: seq<Byte>): string { Encode32(Value256(hash), 32) }

  lemma DigitsRoundTrip(d: nat)
    requires d < 32
    ensures IndexOf(Upper(ALPHABET[d])) == d
  {
  }

  lemma {:induction false} Encode32Value(n: nat, k: nat)
    requires n < Pow2(5 * k)
    ensures InAlphabet(Encode32(n, k)) && Value32(Encode32(n, k)) == n
  {
    if k > 0 {
      SplitPower(5 * (k - 1));
      Encode32Value(n / 32, k - 1);
      DigitsRoundTrip(n % 32);
      OneMoreDigit(Encode32(n / 32, k - 1), ALPHABET[n % 32]);
    }
  }

  lemma SplitPower(n: nat)
    ensures Pow2(n + 5) == 32 * Pow2(n) && Pow2(n + 8) == 256 * Pow2(n)
  {
    Pow2Values();
    assert Pow2(2) == 4 && Pow2(4) == 16 && Pow2(5) == 32;
    Pow2Adds(5, n);
    Pow2Adds(8, n);
  }

  lemma {:induction false} Value256Bounded(b: seq<Byte>)
    ensures Value256(b) < Pow2(8 * |b|)
  {
    if b != [] {
      Value256Bounded(b[..|b| - 1]);
      SplitPower(8 * (|b| - 1));
    }
  }

  lemma {:induction false} BigEndianOfValue(b: seq<Byte>)
    ensures BigEndian(Value256(b), |b|) == b
  {
    if b != [] {
      BigEndianOfValue(b[..|b| - 1]);
      assert b == b[..|b| - 1] + [b[|b| - 1]];
    }
  }

  // Every 20-byte hash is what its base32 spelling decodes to.
  lemma DecodeUndoesEncode(hash: seq<Byte>)
    requires |hash| == HASH_BYTES
    ensures |Encode(hash)| == 32 && Decoded(Encode(hash)) == Some(hash)
  {
    Value256Bounded(hash);
    Encode32Value(Value256(hash), 32);
    BigEndianOfValue(hash);
  }

  // ----- the hash of a magnet link ----------------------------------------------------------------------

  function HexDigit(n: nat): char
    requires n < 16
  {
    "0123456789abcdef"[n]
  }

  // Buffer.toString('hex')
  function Hex(b: seq<Byte>): (s: string)
    ensures |s| == 2 * |b|
    ensures forall c <- s :: '0' <= c <= '9' || 'a' <= c <= 'f'
  {
    if b == [] then "" else Hex(b[..|b| - 1]) + [HexDigit(b[|b| - 1] / 16), HexDigit(b[|b| - 1] % 16)]
  }

  predicate AlphaNumeric(c: char) { 'a' <= Lower(c) <= 'z' || '0' <= c <= '9' }
  predicate IsHex(s: string) { |s| == 40 && forall c <- s :: 'a' <= Lower(c) <= 'f' || '0' <= c <= '9' }
  predicate IsBase32(s: string) { |s| == 32 && forall c <- s :: 'a' <= Lower(c) <= 'z' || '2' <= c <= '7' }

  function LowerAll(s: string): (r: string)
    ensures |r| == |s|
  {
    seq(|s|, i requires 0 <= i < |s| => Lower(s[i]))
  }

  const PREFIX := "urn:btih:"

  // /^urn:btih:([a-z0-9]+)$/i
  function Btih(xt: string): Option<string> {
    if |xt| > |PREFIX| && LowerAll(xt[..|PREFIX|]) == PREFIX && forall c <- xt[|PREFIX|..] :: AlphaNumeric(c)
    then Some(xt[|PREFIX|..]) else None
  }

  // What one xt parameter contributes; None goes on to the next.
  function HashOf(xt: string): Option<string> {
    var value := Btih(xt);
    if value.None? then None
    else if IsHex(value.value) then Some(LowerAll(value.value))
    else if IsBase32(value.value) then
      var bytes := Decoded(value.value);
      if bytes.Some? then Some(Hex(bytes.value)) else None
    else None
  }

  function FirstHash(xts: seq<string>): Option<string> {
    if xts == [] then None
    else if HashOf(xts[0]).Some? then HashOf(xts[0])
    else FirstHash(xts[1..])
  }

  // The loop over the link's xt parameters.
  method MagnetInfoHash(xts: seq<string>) returns (r: Option<string>)
    ensures r == FirstHash(xts)
  {
    for k := 0 to |xts|
      invariant FirstHash(xts) == FirstHash(xts[k..])
    {
      var value := Btih(xts[k]);
      if value.Some? {
        if IsHex(value.value) { return Some(LowerAll(value.value)); }
        if IsBase32(value.value) {
          Base32Decodes(value.value);
          var bytes := Decode(value.value);
          return if bytes.Some? then Some(Hex(bytes.value)) else None;
        }
      }
    }
    r := None;
  }

  // 32 digits always make a hash, so returning at the first base32 spelling never loses a later one.
  lemma Base32Decodes(s: string)
    requires IsBase32(s)
    ensures InAlphabet(s) && Decoded(s).Some?
  {
    forall c <- s ensures IndexOf(Upper(c)) >= 0 {
      assert 'a' <= Lower(c) <= 'z' || '2' <= c <= '7';
    }
  }

  // Whatever the link says, a hash that is found is 40 lower-case hex digits.
  lemma HashesAreCanonical(xts: seq<string>)
    ensures FirstHash(xts).Some? ==> IsHex40(FirstHash(xts).value)
  {
    if xts != [] {
      if HashOf(xts[0]).Some? { OneIsCanonical(xts[0]); } else { HashesAreCanonical(xts[1..]); }
    }
  }

  lemma OneIsCanonical(xt: string)
    requires HashOf(xt).Some?
    ensures IsHex40(HashOf(xt).value)
  {
    var value := Btih(xt).value;
    if IsHex(value) {
      forall i | 0 <= i < 40
        ensures '0' <= LowerAll(value)[i] <= '9' || 'a' <= LowerAll(value)[i] <= 'f'
      {
        assert value[i] in value;
      }
    }
  }

  // A parameter of the form urn:btih:<value>, in upper or lower case.
  predicate Names(xt: string, p: string, value: string) { xt == p + value && LowerAll(p) == "urn:btih:" }

  predicate HexDigits(s: string) {
    |s| == 40 && forall c <- s :: '0' <= c <= '9' || 'a' <= c <= 'f' || 'A' <= c <= 'F'
  }

  predicate Base32Digits(s: string) {
    |s| == 32 && forall c <- s :: '2' <= c <= '7' || 'a' <= c <= 'z' || 'A' <= c <= 'Z'
  }

  // A parameter gives a hash exactly if its value is 40 hexadecimal digits, which it then is in lower case, or 32
  // base32 digits.
  lemma HashesAreFoundExactly(xt: string, p: string, value: string)
    requires Names(xt, p, value)
    ensures HashOf(xt).Some? <==> HexDigits(value) || Base32Digits(value)
    ensures HexDigits(value) ==> HashOf(xt) == Some(LowerAll(value))
  {
    assert |p| == 9 && xt[..9] == p && xt[9..] == value;
    if HexDigits(value) { forall c <- value ensures AlphaNumeric(c) {} }
    if Base32Digits(value) {
      forall c <- value ensures AlphaNumeric(c) {}
      assert IsBase32(value);
      Base32Decodes(value);
    }
  }

  lemma NothingElseIsFound(xt: string)
    requires HashOf(xt).Some?
    ensures |xt| >= 9 && Names(xt, xt[..9], xt[9..])
  {
    assert xt == xt[..9] + xt[9..];
  }

  // Of several parameters the first that gives a hash decides.
  lemma {:induction false} FirstHashIsFirst(xts: seq<string>, k: nat)
    requires k < |xts| && HashOf(xts[k]).Some? && forall i | 0 <= i < k :: HashOf(xts[i]).None?
    ensures FirstHash(xts) == HashOf(xts[k])
  {
    if k > 0 {
      assert HashOf(xts[0]).None?;
      FirstHashIsFirst(xts[1..], k - 1);
    }
  }

  // The hexadecimal and the base32 spelling of a hash lead to the same record key.
  lemma SpellingsAgree(hash: seq<Byte>)
    requires |hash| == HASH_BYTES
    ensures HashOf("urn:btih:" + Hex(hash)) == HashOf("urn:btih:" + Encode(hash)) == Some(Hex(hash))
  {
    DecodeUndoesEncode(hash);
    SpellsHex(hash);
    SpellsBase32(hash);
  }

  lemma SpellsHex(hash: seq<Byte>)
    requires |hash| == HASH_BYTES
    ensures HashOf(PREFIX + Hex(hash)) == Some(Hex(hash))
  {
    CanonicalIsHex(Hex(hash));
    BtihFinds(Hex(hash));
    HashOfHex(PREFIX + Hex(hash), Hex(hash));
  }

  lemma HashOfHex(xt: string, s: string)
    requires Btih(xt) == Some(s) && IsHex(s) && LowerAll(s) == s
    ensures HashOf(xt) == Some(s)
  {
  }

  lemma CanonicalIsHex(s: string)
    requires IsHex40(s)
    ensures IsHex(s) && LowerAll(s) == s && forall c <- s :: AlphaNumeric(c)
  {
    forall c <- s ensures 'a' <= Lower(c) <= 'f' || '0' <= c <= '9' {}
    forall i | 0 <= i < |s| ensures Lower(s[i]) == s[i] { assert s[i] in s; }
  }

  lemma BtihFinds(s: string)
    requires s != "" && forall c <- s :: AlphaNumeric(c)
    ensures Btih(PREFIX + s) == Some(s)
  {
    assert (PREFIX + s)[..|PREFIX|] == PREFIX && (PREFIX + s)[|PREFIX|..] == s;
    assert LowerAll(PREFIX) == PREFIX;
  }

  lemma {:induction false} Encode32Letters(n: nat, k: nat)
    ensures forall c <- Encode32(n, k) :: 'A' <= c <= 'Z' || '2' <= c <= '7'
  {
    if k > 0 {
      Encode32Letters(n / 32, k - 1);
      assert forall d | 0 <= d < 32 :: 'A' <= ALPHABET[d] <= 'Z' || '2' <= ALPHABET[d] <= '7';
    }
  }

  lemma SpellsBase32(hash: seq<Byte>)
    requires |hash| == HASH_BYTES && Decoded(Encode(hash)) == Some(hash) && |Encode(hash)| == 32
    ensures HashOf(PREFIX + Encode(hash)) == Some(Hex(hash))
  {
    Encode32Letters(Value256(hash), 32);
    BtihFinds(Encode(hash));
  }
}
