/**
 Which pieces a byte range of a file may lie in, when the client only reports the first and the last
 piece of the file and not where in its first piece the file begins.
 */
module PieceLayout {
  import opened Arithmetic

  // The file occupies pieces first..last of `size` bytes each and is `bytes` long.
  datatype Layout = Layout(first: nat, last: nat, size: int, bytes: int)

  predicate Sized(l: Layout) { l.size > 0 && l.bytes > 0 }

  // The piece byte i lies in when the file begins `offset` bytes into its first piece.
  function PieceOf(l: Layout, offset: nat, i: nat): nat
    requires l.size > 0
  {
    l.first + (offset + i) / l.size
  }

  // The file begins inside its first piece and its last byte is inside its last piece.
  predicate Consistent(l: Layout, offset: nat)
    requires Sized(l)
  {
    offset < l.size && PieceOf(l, offset, l.bytes - 1) == l.last
  }

  // Quotients of safe integers round up exactly in double precision.
  function Ceil(a: int, b: int): int
    requires b > 0
  {
    -((-a) / b)
  }

  // The check made once per playback, before any range is gated.
  predicate Accepts(l: Layout)
    requires l.size > 0
  {
    var span := l.last - l.first + 1;
    span >= Ceil(l.bytes, l.size) && span <= Ceil(l.bytes - 1, l.size) + 1
  }

  function OffsetMin(l: Layout): int { Max(0, (l.last - l.first) * l.size - l.bytes + 1) }
  function OffsetMax(l: Layout): int { Min(l.size - 1, (l.last - l.first) * l.size + l.size - l.bytes) }

  function RequiredPieces(l: Layout, start: nat, end: nat): (r: (int, int))
    requires l.size > 0
  {
    (l.first + (OffsetMin(l) + start) / l.size, l.first + (OffsetMax(l) + end) / l.size)
  }

  // ----- quotients --------------------------------------------------------------------------

  lemma CeilSteps(a: int, size: int, n: int)
    requires size > 0
    ensures Ceil(a, size) <= n <==> a <= n * size
  {
    var c := (-a) / size;
    Quotient(-a, size, c);
    if -c <= n { assert -n * size <= c * size; } else { assert (c + 1) * size <= -n * size; }
    assert -n * size == -(n * size);
  }

  // ----- the offsets --------------------------------------------------------------------------

  // The bounds computed are exactly the consistent offsets.
  lemma OffsetsAreConsistent(l: Layout, offset: nat)
    requires Sized(l)
    ensures Consistent(l, offset) <==> OffsetMin(l) <= offset <= OffsetMax(l)
  {
    var n := l.last - l.first;
    Quotient(offset + l.bytes - 1, l.size, n);
  }

  // A layout is accepted exactly when some offset explains it.
  lemma AcceptedIffConsistent(l: Layout)
    requires Sized(l)
    ensures Accepts(l) <==> exists offset: nat :: Consistent(l, offset)
  {
    if Accepts(l) {
      AcceptedHasOffset(l);
    } else if offset: nat :| Consistent(l, offset) {
      ConsistentIsAccepted(l, offset);
    }
  }

  lemma AcceptedHasOffset(l: Layout)
    requires Sized(l) && Accepts(l)
    ensures OffsetMin(l) <= OffsetMax(l) && Consistent(l, OffsetMin(l)) && Consistent(l, OffsetMax(l))
  {
    var n := l.last - l.first;
    CeilSteps(l.bytes, l.size, n + 1);
    CeilSteps(l.bytes - 1, l.size, n - 1);
    assert (n + 1) * l.size == n * l.size + l.size && (n - 1) * l.size == n * l.size - l.size;
    OffsetsAreConsistent(l, OffsetMin(l));
    OffsetsAreConsistent(l, OffsetMax(l));
  }

  lemma ConsistentIsAccepted(l: Layout, offset: nat)
    requires Sized(l) && Consistent(l, offset)
    ensures Accepts(l)
  {
    var n := l.last - l.first;
    CeilSteps(l.bytes, l.size, n + 1);
    CeilSteps(l.bytes - 1, l.size, n - 1);
    assert (n + 1) * l.size == n * l.size + l.size && (n - 1) * l.size == n * l.size - l.size;
    OffsetsAreConsistent(l, offset);
  }

  // ----- the required pieces --------------------------------------------------------------------

  // Whatever the offset really is, the piece of every requested byte is among those required.
  lemma RequiredPiecesCover(l: Layout, start: nat, end: nat, offset: nat, i: nat)
    requires Sized(l) && start <= i <= end < l.bytes && Consistent(l, offset)
    ensures RequiredPieces(l, start, end).0 <= PieceOf(l, offset, i) <= RequiredPieces(l, start, end).1
  {
    OffsetsAreConsistent(l, offset);
    Monotone(OffsetMin(l) + start, offset + i, l.size);
    Monotone(offset + i, OffsetMax(l) + end, l.size);
  }

  // Neither end can be tightened, and no piece outside the file is ever waited for.
  lemma RequiredPiecesAreExact(l: Layout, start: nat, end: nat)
    requires Sized(l) && start <= end < l.bytes && Accepts(l)
    ensures var (low, high) := RequiredPieces(l, start, end);
      && l.first <= low <= high <= l.last
      && (exists offset: nat :: Consistent(l, offset) && PieceOf(l, offset, start) == low)
      && (exists offset: nat :: Consistent(l, offset) && PieceOf(l, offset, end) == high)
  {
    AcceptedHasOffset(l);
    assert PieceOf(l, OffsetMin(l), start) == RequiredPieces(l, start, end).0;
    assert PieceOf(l, OffsetMax(l), end) == RequiredPieces(l, start, end).1;
    Monotone(0, OffsetMin(l) + start, l.size);
    Monotone(OffsetMin(l) + start, OffsetMax(l) + end, l.size);
    Monotone(OffsetMax(l) + end, OffsetMax(l) + l.bytes - 1, l.size);
  }
}
