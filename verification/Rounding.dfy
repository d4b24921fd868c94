/** Directed integer division, characterised by the two bounds every later proof uses. */
module Rounding {

  /** `div_round_up` of a non-negative quotient. */
  function CeilDiv(a: int, d: int): (q: int)
    requires d > 0
    ensures (q - 1) * d < a <= q * d
  {
    if a % d == 0 then a / d else a / d + 1
  }

  lemma FloorBounds(a: int, d: int)
    requires d > 0
    ensures (a / d) * d <= a < (a / d + 1) * d
  {
  }

  lemma MulMono(p: int, q: int, d: int)
    requires d >= 0 && p <= q
    ensures p * d <= q * d
  {
  }

  lemma SubMul(x: int, y: int, d: int)
    ensures (x - y) * d == x * d - y * d
  {
  }

  /** Floor division is the greatest lower quotient. */
  lemma FloorGalois(a: int, d: int, q: int)
    requires d > 0
    ensures q <= a / d <==> q * d <= a
  {
    FloorBounds(a, d);
    if q <= a / d {
      MulMono(q, a / d, d);
    } else {
      MulMono(a / d + 1, q, d);
    }
  }

  /** Ceiling division is the least upper quotient. */
  lemma CeilGalois(a: int, d: int, q: int)
    requires d > 0
    ensures CeilDiv(a, d) <= q <==> a <= q * d
  {
    if CeilDiv(a, d) <= q {
      MulMono(CeilDiv(a, d), q, d);
    } else {
      MulMono(q, CeilDiv(a, d) - 1, d);
    }
  }

  lemma FloorMono(a: int, b: int, d: int)
    requires d > 0 && a <= b
    ensures a / d <= b / d
  {
    FloorBounds(a, d);
    FloorGalois(b, d, a / d);
  }

  lemma CeilMono(a: int, b: int, d: int)
    requires d > 0 && a <= b
    ensures CeilDiv(a, d) <= CeilDiv(b, d)
  {
    CeilGalois(a, d, CeilDiv(b, d));
  }

  lemma CeilNonNegative(a: int, d: int)
    requires d > 0 && a >= 0
    ensures CeilDiv(a, d) >= 0
    ensures a > 0 ==> CeilDiv(a, d) > 0
  {
    CeilGalois(a, d, -1);
    CeilGalois(a, d, 0);
  }

  /** Whole multiples of the denominator pass through both roundings. */
  lemma ShiftByMultiple(a: int, k: int, d: int)
    requires d > 0
    ensures (a + k * d) / d == a / d + k
    ensures CeilDiv(a + k * d, d) == CeilDiv(a, d) + k
  {
    var f, c := a / d, CeilDiv(a, d);
    FloorBounds(a, d);
    assert (f + k) * d == f * d + k * d && (f + k + 1) * d == (f + 1) * d + k * d;
    FloorGalois(a + k * d, d, f + k);
    FloorGalois(a + k * d, d, f + k + 1);
    assert (c + k) * d == c * d + k * d && (c + k - 1) * d == (c - 1) * d + k * d;
    CeilGalois(a + k * d, d, c + k);
    CeilGalois(a + k * d, d, c + k - 1);
  }
}
