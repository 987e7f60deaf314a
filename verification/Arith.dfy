/** Small facts of integer division and multiplication, each stated for the
    operands at hand so that no proof has to search for them, and the functions
    every module needs. */
module Arith {
  lemma DivBounds(a: nat, b: nat)
    requires b > 0
    ensures a / b * b <= a < a / b * b + b
  {
  }

  lemma MulMono(a: int, b: int, n: nat)
    requires a <= b
    ensures a * n <= b * n
  {
  }

  lemma MulMonoStrict(a: int, b: int, n: nat)
    requires a < b
    ensures a * n + n <= b * n
  {
    MulMono(a + 1, b, n);
  }

  // A quotient is known by the multiples that bracket the dividend.
  lemma QuotientOf(a: nat, b: nat, q: nat)
    requires b > 0 && q * b <= a < q * b + b
    ensures a / b == q
  {
    DivBounds(a, b);
    var p := a / b;
    if p < q {
      MulMonoStrict(p, q, b);
    }
    if q < p {
      MulMonoStrict(q, p, b);
    }
  }

  lemma MultipleOf(q: nat, b: nat)
    requires b > 0
    ensures q * b / b == q && q * b % b == 0
  {
    QuotientOf(q * b, b, q);
  }

  // The multiples of b are their quotient times b, and are ordered as it is.
  lemma MultipleIsQuotient(m: nat, b: nat)
    requires b > 0 && m % b == 0
    ensures m / b * b == m
  {
  }

  lemma LargestMultipleBelow(a: nat, b: nat, m: nat)
    requires b > 0 && m % b == 0 && m <= a
    ensures m <= a / b * b
  {
    MultipleIsQuotient(m, b);
    DivBounds(a, b);
    if m / b > a / b {
      MulMonoStrict(a / b, m / b, b);
    } else {
      MulMono(m / b, a / b, b);
    }
  }

  lemma QuotientsInOrder(a: int, b: int, d: nat, p: int, q: int)
    requires a <= b && p * d <= a && b < q * d + d
    ensures p <= q
  {
    if q < p {
      MulMonoStrict(q, p, d);
    }
  }

  lemma DivMono(a: nat, b: nat, d: nat)
    requires a <= b && d > 0
    ensures 0 <= a / d <= b / d
  {
    DivBounds(a, d);
    DivBounds(b, d);
    QuotientsInOrder(a, b, d, a / d, b / d);
  }

  lemma DivShrinks(b: nat, d: nat)
    requires d > 0
    ensures b / d <= b
  {
    DivBounds(b, d);
    MulMono(1, d, b);
    QuotientsInOrder(b, b, d, b / d, b);
  }

  lemma MulMonoBoth(a: nat, b: nat, x: nat, y: nat)
    requires a <= b && x <= y
    ensures 0 <= a * x <= b * y
  {
    MulMono(a, b, x);
    MulMono(x, y, b);
  }

  function Pow2(n: nat): (p: nat)
    ensures p >= 1
  {
    if n == 0 then 1 else 2 * Pow2(n - 1)
  }

  function Min(a: int, b: int): int { if a < b then a else b }

  function Max(a: int, b: int): int { if a < b then b else a }

  function Abs(a: int): (r: int)
    ensures r >= 0
  {
    if a >= 0 then a else -a
  }

  function Clamp(v: int, lo: int, hi: int): int {
    if v < lo then lo else if v > hi then hi else v
  }

  lemma {:induction false} SubsetSize<T>(a: set<T>, b: set<T>)
    requires a <= b
    ensures |a| <= |b|
  {
    if a != {} {
      var x :| x in a;
      SubsetSize(a - {x}, b - {x});
    }
  }
}
