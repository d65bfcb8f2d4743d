/** Smaller and larger, and facts about Euclidean division by positive numbers. */
module Arithmetic {
  function Max(a: int, b: int): int { if a < b then b else a }
  function Min(a: int, b: int): int { if a < b then a else b }

  lemma Quotient(x: int, size: int, q: int)
    requires size > 0
    ensures x / size == q <==> q * size <= x < q * size + size
  {
    var r := x / size;
    assert x == r * size + x % size;
    if q < r { assert (q + 1) * size <= r * size; }
    if q > r { assert (r + 1) * size <= q * size; }
  }

  lemma TimesMonotone(x: int, y: int, size: int)
    requires size > 0
    ensures x <= y ==> x * size <= y * size
  {
  }

  lemma Monotone(a: int, b: int, size: int)
    requires size > 0 && a <= b
    ensures a / size <= b / size
  {
    Quotient(a, size, a / size);
    Quotient(b, size, b / size);
    TimesMonotone(b / size + 1, a / size, size);
  }
}
