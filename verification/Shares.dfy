/** Share conversion: the gcd-reduced multiply-divide and the four directed conversions built on it. */
module Shares {
  import opened Prelude
  import opened Rounding

  // ----- greatest common divisor -----

  function Gcd(a: nat, b: nat): nat
    decreases b
  {
    if b == 0 then a else Gcd(b, a % b)
  }

  /** The Euclidean gcd divides both arguments and is an integer combination of them, which makes it the greatest. */
  lemma {:induction false} GcdDivides(a: nat, b: nat) returns (p: nat, q: nat, u: int, v: int)
    requires a > 0 || b > 0
    ensures Gcd(a, b) > 0
    ensures a == Gcd(a, b) * p && b == Gcd(a, b) * q
    ensures p * u + q * v == 1
    decreases b
  {
    if b == 0 {
      p, q, u, v := 1, 0, 1, 0;
    } else {
      var k, r := DivMod(a, b);
      var p', q', u', v' := GcdDivides(b, r);
      EuclidStep(Gcd(b, r), p', q', k, a, b, r);
      BezoutStep(p', q', u', v', k);
      p, q, u, v := p' * k + q', p', v', u' - k * v';
    }
  }

  lemma DivMod(a: nat, b: nat) returns (k: nat, r: nat)
    requires b > 0
    ensures a == b * k + r && r < b && r == a % b
  {
    k, r := a / b, a % b;
  }

  lemma EuclidStep(g: nat, p: nat, q: nat, k: nat, a: nat, b: nat, r: nat)
    requires b == g * p && r == g * q && a == b * k + r
    ensures a == g * (p * k + q) && p * k + q >= 0
  {
    assert (g * p) * k == g * (p * k);
    MulMono(0, p, k);
  }

  lemma BezoutStep(p: int, q: int, u: int, v: int, k: int)
    requires p * u + q * v == 1
    ensures (p * k + q) * v + p * (u - k * v) == 1
  {
    assert (p * k) * v == p * (k * v);
  }

  lemma GcdGreatest(a: nat, b: nat, c: int, m: int, n: int)
    requires a > 0 || b > 0
    requires c > 0 && a == c * m && b == c * n
    ensures c <= Gcd(a, b)
    ensures exists k :: Gcd(a, b) == c * k
  {
    var p, q, u, v := GcdDivides(a, b);
    var g := Gcd(a, b);
    assert g == g * (p * u + q * v) == (g * p) * u + (g * q) * v;
    assert (c * m) * u + (c * n) * v == c * (m * u + n * v);
    assert g == c * (m * u + n * v);
    if m * u + n * v <= 0 {
      MulMono(m * u + n * v, 0, c);
      assert false;
    }
    MulMono(1, m * u + n * v, c);
  }

  /** A common divisor whose quotients are coprime (witnessed by an integer combination) is the gcd. */
  lemma GcdFromCoprime(x: nat, y: nat, g: int, x1: int, y1: int, u: int, v: int)
    requires g > 0 && (x > 0 || y > 0)
    requires x == g * x1 && y == g * y1 && x1 * u + y1 * v == 1
    ensures Gcd(x, y) == g
  {
    GcdGreatest(x, y, g, x1, y1);
    var k :| Gcd(x, y) == g * k;
    var p, q, u', v' := GcdDivides(x, y);
    Regroup(g, k, p); CancelFactor(g, x1, k * p);
    Regroup(g, k, q); CancelFactor(g, y1, k * q);
    Regroup(k, p, u); Regroup(k, q, v);
    assert k * (p * u) + k * (q * v) == k * (p * u + q * v);
    UnitFactor(k, p * u + q * v);
  }

  lemma Regroup(a: int, b: int, c: int)
    ensures (a * b) * c == a * (b * c)
  {
  }

  lemma CancelFactor(g: int, x: int, y: int)
    requires g > 0 && g * x == g * y
    ensures x == y
  {
    if x < y { MulMono(x + 1, y, g); }
    if y < x { MulMono(y + 1, x, g); }
  }

  lemma UnitFactor(k: int, m: int)
    requires k * m == 1
    ensures k == 1 || k == -1
  {
    if k > 1 {
      if m >= 1 { MulMono(1, m, k); } else { MulMono(m, 0, k); }
    } else if k < -1 {
      if m <= -1 { MulMono(1, -m, -k); } else { MulMono(0, m, -k); }
    }
  }

  /** The source's loop: replace the pair by (b, a mod b) until the second is zero. */
  method ComputeGcd(a: i128, b: i128) returns (g: i128)
    requires a >= 0 && b >= 0
    ensures g == Gcd(a, b)
  {
    var x, y := a, b;
    while y != 0
      invariant x >= 0 && y >= 0
      invariant Gcd(x, y) == Gcd(a, b)
      decreases y
    {
      var rem := x % y;
      x := y;
      y := rem;
    }
    g := x;
  }

  // ----- multiply-divide -----

  /** The exact fraction a*b/d in lowest terms, refused when its numerator leaves 128 bits. */
  function ReduceMulDiv(a: int, b: int, d: int): (r: Result<(i128, i128)>)
    ensures r.Ok? ==> r.value.0 >= 0 && r.value.1 > 0 && d > 0
    ensures r.Ok? ==> r.value.0 * d == a * b * r.value.1
  {
    if a < 0 || b < 0 then Err(InvalidAmount)
    else if d == 0 then Err(DivisionByZero)
    else if d < 0 then Err(InvalidAmount)
    else if a == 0 || b == 0 then Ok((0, 1))
    else
      var n: nat := Product(a, b);
      var g := Gcd(n, d);
      ReduceMulDivIsExact(n, d);
      if n / g > I128_MAX || d / g > I128_MAX then Err(MathOverflow) else Ok((n / g, d / g))
  }

  function Product(a: nat, b: nat): (n: nat)
    ensures n == a * b
    ensures a > 0 && b > 0 ==> n > 0
  {
    MulMono(0, b, a);
    if a > 0 && b > 0 then MulMono(1, b, a); a * b else a * b
  }

  lemma ReduceMulDivIsExact(n: nat, d: nat)
    requires n > 0 && d > 0
    ensures Gcd(n, d) > 0
    ensures n == Gcd(n, d) * (n / Gcd(n, d)) && d == Gcd(n, d) * (d / Gcd(n, d))
    ensures n / Gcd(n, d) > 0 && d / Gcd(n, d) > 0
    ensures (n / Gcd(n, d)) * d == n * (d / Gcd(n, d))
  {
    var g, p, q, _, _ := GcdQuotients(n, d);
    Regroup(p, g, q);
  }

  lemma ExactQuotient(g: int, p: int, n: int)
    requires g > 0 && n == g * p
    ensures n / g == p
  {
    FloorGalois(n, g, p);
    FloorGalois(n, g, p + 1);
    assert (p + 1) * g == n + g;
  }

  /** Two positive numbers over their gcd are whole, positive and no larger. */
  lemma GcdQuotients(x: nat, y: nat) returns (g: nat, p: nat, q: nat, u: int, v: int)
    requires x > 0 && y > 0
    ensures g == Gcd(x, y) && g > 0
    ensures x == g * p && y == g * q && p * u + q * v == 1
    ensures p == x / g && q == y / g && 0 < p <= x && 0 < q <= y
  {
    p, q, u, v := GcdDivides(x, y);
    g := Gcd(x, y);
    ExactQuotient(g, p, x);
    ExactQuotient(g, q, y);
    MulMono(1, g, p);
    MulMono(1, g, q);
  }

  /** Dividing out gcd(b, d) and then gcd(a, d1) leaves the fraction in lowest terms. */
  lemma TwoReductionsReachLowestTerms(a: nat, b: nat, d: nat, g1: nat, b1: nat, d1: nat, g2: nat, a2: nat, d2: nat)
    requires a > 0 && b > 0 && d > 0
    requires g1 == Gcd(b, d) && g1 > 0 && b1 == b / g1 && d1 == d / g1 && d1 > 0
    requires g2 == Gcd(a, d1) && g2 > 0 && a2 == a / g2 && d2 == d1 / g2
    requires d <= I128_MAX
    ensures d2 > 0
    ensures ReduceMulDiv(a, b, d) == if InI128(Product(a2, b1)) then Ok((Product(a2, b1), d2)) else Err(MathOverflow)
  {
    var _, _, _, u1, v1 := GcdQuotients(b, d);
    var _, _, _, u2, v2 := GcdQuotients(a, d1);
    var w := CombineWitnesses(a2, u2, b1, u1, d1, v1, d2, v2, g2);
    var g := ScaleOut(a, b, d, g1, b1, d1, g2, a2, d2);
    GcdFromCoprime(Product(a, b), d, g, a2 * b1, d2, u1 * u2, w);
    ExactQuotient(g, a2 * b1, Product(a, b));
    ExactQuotient(g, d2, d);
    MulMono(1, g, d2);
  }

  lemma ScaleOut(a: nat, b: nat, d: nat, g1: nat, b1: nat, d1: nat, g2: nat, a2: nat, d2: nat) returns (g: nat)
    requires g1 > 0 && g2 > 0
    requires b == g1 * b1 && d == g1 * d1 && a == g2 * a2 && d1 == g2 * d2
    ensures g > 0 && a * b == g * (a2 * b1) && d == g * d2
  {
    g := Product(g1, g2);
    Regroup(g1, g2, d2);
    Regroup(g2, a2, g1 * b1);
    Regroup(a2, g1, b1);
    Regroup(g1, a2, b1);
    Regroup(g2, g1, a2 * b1);
  }

  lemma CombineWitnesses(a2: int, u2: int, b1: int, u1: int, d1: int, v1: int, d2: int, v2: int, g2: int)
    returns (w: int)
    requires a2 * u2 + d2 * v2 == 1 && b1 * u1 + d1 * v1 == 1 && d1 == g2 * d2
    ensures (a2 * b1) * (u1 * u2) + d2 * w == 1
  {
    var s, t := d2 * v2, d2 * (g2 * v1);
    assert d1 * v1 == t by { assert (g2 * d2) * v1 == d2 * (g2 * v1); }
    w := v2 + g2 * v1 - v2 * t;
    assert d2 * w == s + t - s * t by { assert d2 * (v2 * t) == (d2 * v2) * t; }
    calc {
      (a2 * b1) * (u1 * u2);
      (a2 * u2) * (b1 * u1);
      (1 - s) * (1 - t);
      1 - s - t + s * t;
    }
  }

  /** The source's in-place reduction; its overflow guard trips exactly when the lowest-terms numerator does not fit. */
  method ReduceMulDivInPlace(a: i128, b: i128, denominator: i128) returns (r: Result<(i128, i128)>)
    ensures r == ReduceMulDiv(a, b, denominator)
  {
    if a < 0 || b < 0 { return Err(InvalidAmount); }
    if denominator == 0 { return Err(DivisionByZero); }
    if denominator < 0 { return Err(InvalidAmount); }
    if a == 0 || b == 0 { return Ok((0, 1)); }

    var left, right, divisor := a, b, denominator;

    var rightGcd := ComputeGcd(right, divisor);
    var g1, b1, d1, _, _ := GcdQuotients(right, divisor);
    right := right / rightGcd;
    divisor := divisor / rightGcd;

    var leftGcd := ComputeGcd(left, divisor);
    var g2, a2, d2, _, _ := GcdQuotients(left, divisor);
    left := left / leftGcd;
    divisor := divisor / leftGcd;

    TwoReductionsReachLowestTerms(a, b, denominator, g1, b1, d1, g2, a2, d2);
    var product := Product(left, right);
    if !InI128(product) { return Err(MathOverflow); }
    r := Ok((product, divisor));
  }

  lemma ScaledOrder(x: int, p: int, y: int, n: int, d: int, q: int)
    requires q > 0 && d > 0 && p * d == n * q && x * d == y * q
    ensures x <= p <==> y <= n
    ensures p <= x <==> n <= y
  {
    if x <= p { MulMono(x, p, d); if y > n { MulMono(n + 1, y, q); } }
    if p <= x { MulMono(p, x, d); if n > y { MulMono(y + 1, n, q); } }
    if x > p { MulMono(p + 1, x, d); if y <= n { MulMono(y, n, q); } }
    if p > x { MulMono(x + 1, p, d); if n <= y { MulMono(n, y, q); } }
  }

  lemma SameQuotient(p: int, q: int, n: int, d: int, k: int)
    requires q > 0 && d > 0 && p * d == n * q
    ensures k <= p / q <==> k <= n / d
    ensures CeilDiv(p, q) <= k <==> CeilDiv(n, d) <= k
  {
    Regroup(k, q, d);
    Regroup(k, d, q);
    ScaledOrder(k * q, p, k * d, n, d, q);
    FloorGalois(p, q, k);
    FloorGalois(n, d, k);
    CeilGalois(p, q, k);
    CeilGalois(n, d, k);
  }

  lemma QuotientOfEqualFractions(p: int, q: int, n: int, d: int)
    requires q > 0 && d > 0 && p * d == n * q
    ensures p / q == n / d
    ensures CeilDiv(p, q) == CeilDiv(n, d)
  {
    SameQuotient(p, q, n, d, p / q);
    SameQuotient(p, q, n, d, n / d);
    SameQuotient(p, q, n, d, CeilDiv(p, q));
    SameQuotient(p, q, n, d, CeilDiv(n, d));
  }

  lemma QuotientFits(p: int, q: int)
    requires 0 <= p <= I128_MAX && q > 0
    ensures 0 <= p / q <= I128_MAX
    ensures 0 <= CeilDiv(p, q) <= I128_MAX
  {
    FloorBounds(p, q);
    FloorGalois(p, q, 0);
    CeilNonNegative(p, q);
    MulMono(1, q, p);
    CeilGalois(p, q, p);
  }

  /** Exactly the floor of the true product over the denominator. */
  function MulDivDown(a: int, b: int, d: int): (r: Result<i128>)
    ensures r.Ok? ==> a >= 0 && b >= 0 && d > 0 && r.value >= 0 && r.value == (a * b) / d
  {
    var (p, q) :- ReduceMulDiv(a, b, d);
    QuotientOfEqualFractions(p, q, a * b, d);
    QuotientFits(p, q);
    Ok(p / q)
  }

  /** Exactly the ceiling of the true product over the denominator. */
  function MulDivUp(a: int, b: int, d: int): (r: Result<i128>)
    ensures r.Ok? ==> a >= 0 && b >= 0 && d > 0 && r.value >= 0 && r.value == CeilDiv(a * b, d)
  {
    var (p, q) :- ReduceMulDiv(a, b, d);
    QuotientOfEqualFractions(p, q, a * b, d);
    QuotientFits(p, q);
    Ok(CeilDiv(p, q))
  }

  /** Both roundings fail on the same inputs with the same error, whichever order the factors come in. */
  lemma MulDivOverflowsExactlyInLowestTerms(a: i128, b: i128, d: i128)
    requires a > 0 && b > 0 && d > 0
    ensures Gcd(Product(a, b), d) > 0
    ensures MulDivDown(a, b, d) == Err(MathOverflow) <==> Product(a, b) / Gcd(Product(a, b), d) > I128_MAX
    ensures MulDivUp(a, b, d) == Err(MathOverflow) <==> Product(a, b) / Gcd(Product(a, b), d) > I128_MAX
    ensures MulDivDown(a, b, d) == MulDivDown(b, a, d) && MulDivUp(a, b, d) == MulDivUp(b, a, d)
  {
    assert Product(a, b) == Product(b, a) == a * b == b * a;
    var _, _, _, _, _ := GcdQuotients(Product(a, b), d);
  }

  // ----- conversions -----

  function ActualSupplyToScaled(amount: int, supplyIndex: int): Result<i128> {
    var _ :- Reject(amount < 0, InvalidAmount);
    var _ :- Reject(supplyIndex <= 0, DivisionByZero);
    MulDivDown(amount, RAY, supplyIndex)
  }

  function ScaledSupplyToActual(scaled: int, supplyIndex: int): Result<i128> {
    var _ :- Reject(scaled < 0, InvalidAmount);
    var _ :- Reject(supplyIndex <= 0, DivisionByZero);
    MulDivDown(scaled, supplyIndex, RAY)
  }

  function ActualDebtToScaled(amount: int, borrowIndex: int): Result<i128> {
    var _ :- Reject(amount < 0, InvalidAmount);
    var _ :- Reject(borrowIndex <= 0, DivisionByZero);
    MulDivUp(amount, RAY, borrowIndex)
  }

  function ScaledDebtToActual(scaled: int, borrowIndex: int): Result<i128> {
    var _ :- Reject(scaled < 0, InvalidAmount);
    var _ :- Reject(borrowIndex <= 0, DivisionByZero);
    MulDivUp(scaled, borrowIndex, RAY)
  }

  /** Supply conversions round towards the pool, debt conversions away from the borrower: a round trip
      never pays out more supply, nor forgives any debt, and loses less than one share's worth. */
  lemma RoundTripFavoursPool(amount: i128, index: i128)
    requires amount >= 0 && index > 0
    ensures var s := ActualSupplyToScaled(amount, index);
            s.Ok? && ScaledSupplyToActual(s.value, index).Ok? ==>
              var back := ScaledSupplyToActual(s.value, index).value;
              back <= amount && (amount - back) * RAY < index + RAY
    ensures var s := ActualDebtToScaled(amount, index);
            s.Ok? && ScaledDebtToActual(s.value, index).Ok? ==>
              var back := ScaledDebtToActual(s.value, index).value;
              back >= amount && (back - amount) * RAY < index + RAY
  {
    var ray: int := RAY;
    var x := amount * ray;
    var s := x / index;
    FloorBounds(x, index);
    FloorBounds(s * index, ray);
    FloorGalois(amount * ray, ray, amount);
    FloorMono(s * index, x, ray);
    var t := CeilDiv(x, index);
    CeilGalois(t * index, ray, amount - 1);
    assert (amount - 1) * ray == x - ray;
    assert (t - 1) * index == t * index - index;
    var back := (s * index) / ray;
    var up := CeilDiv(t * index, ray);
    assert (amount - back) * ray == x - back * ray;
    assert (s + 1) * index == s * index + index;
    assert (back + 1) * ray == back * ray + ray;
    ExactQuotient(ray, amount, x);
    assert (up - 1) * ray == up * ray - ray;
    assert (up - amount) * ray == up * ray - x;
  }
}
