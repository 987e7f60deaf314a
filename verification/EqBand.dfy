/** The words of one equalizer band: amplitudes from a power series, biquad
    coefficients, and the five quotients the device stores, all in integers
    with 27 fraction bits. */
module EqBand {
  import opened Arith
  import opened Cordic

  // Division of C, for a positive divisor: towards zero.
  function Div(a: int, b: int): int
    requires b > 0
  {
    if a >= 0 then a / b else -(-a / b)
  }

  // (a + (1 << 26)) >> 27: back from 54 fraction bits to 27, to the nearest.
  function Rnd(a: int): int { (a + 0x400_0000) / Q27 }

  // ------------------------------------------------------------- amplitudes

  const LN2 := 0x58B90C0

  // One term of the series of e^x, and the sum of the first n.
  function Term(x: int, k: nat): int {
    if k == 0 then Q27 else Div(Rnd(Term(x, k - 1) * x), k)
  }

  function Series(x: int, n: nat): int {
    if n == 0 then Q27 else Series(x, n - 1) + Term(x, n)
  }

  function Shl(a: int, n: int): int {
    if n >= 0 then a * Pow2(n) else a / Pow2(-n)
  }

  // bf_exp2
  function Exp2(u: int): int {
    Shl(Series(Rnd((u - u / Q27 * Q27) * LN2), 10), u / Q27)
  }

  lemma RndMonotone(a: int, b: int)
    requires a <= b
    ensures Rnd(a) <= Rnd(b)
  {
  }

  lemma DivMonotone(a: int, b: int, d: int)
    requires 0 <= a <= b && d > 0
    ensures 0 <= Div(a, d) <= Div(b, d) <= b
  {
    DivMono(a, b, d);
    DivShrinks(b, d);
  }

  lemma RndOfProducts(a: int, b: int)
    requires 0 <= a <= b
    ensures 0 <= Rnd(a) <= Rnd(b)
  {
    RndMonotone(0, a);
    RndMonotone(a, b);
  }

  lemma {:induction false} TermMonotone(x: int, y: int, k: nat)
    requires 0 <= x <= y
    ensures 0 <= Term(x, k) <= Term(y, k)
  {
    if k > 0 {
      hide Rnd, Div;
      var p, q := Term(x, k - 1), Term(y, k - 1);
      TermMonotone(x, y, k - 1);
      MulMonoBoth(p, q, x, y);
      RndOfProducts(p * x, q * y);
      DivMonotone(Rnd(p * x), Rnd(q * y), k);
    }
  }

  lemma {:induction false} SeriesMonotone(x: int, y: int, n: nat)
    requires 0 <= x <= y
    ensures Q27 <= Series(x, n) <= Series(y, n)
  {
    if n > 0 {
      SeriesMonotone(x, y, n - 1);
      TermMonotone(x, y, n);
    }
  }

  // The sum of a series whose terms are known.
  lemma SeriesOf(x: int, t: seq<int>)
    requires |t| == 11 && t[0] == Q27
    requires forall k :: 1 <= k <= 10 ==> t[k] == Div(Rnd(t[k - 1] * x), k)
    ensures Series(x, 10) == t[0] + t[1] + t[2] + t[3] + t[4] + t[5] + t[6] + t[7] + t[8] + t[9] + t[10]
  {
    hide Div, Rnd, Term;
    TermsOf(x, t, 10);
    assert Series(x, 1) == t[0] + t[1];
    assert Series(x, 2) == Series(x, 1) + t[2];
    assert Series(x, 3) == Series(x, 2) + t[3];
    assert Series(x, 4) == Series(x, 3) + t[4];
    assert Series(x, 5) == Series(x, 4) + t[5];
    assert Series(x, 6) == Series(x, 5) + t[6];
    assert Series(x, 7) == Series(x, 6) + t[7];
    assert Series(x, 8) == Series(x, 7) + t[8];
    assert Series(x, 9) == Series(x, 8) + t[9];
  }

  lemma {:induction false} TermsOf(x: int, t: seq<int>, n: nat)
    requires n < |t| && t[0] == Q27
    requires forall k :: 1 <= k <= n ==> t[k] == Div(Rnd(t[k - 1] * x), k)
    ensures forall k: nat :: k <= n ==> Term(x, k) == t[k]
  {
    hide Div, Rnd;
    if n > 0 {
      TermsOf(x, t, n - 1);
    }
  }

  lemma LargestSeries()
    ensures Series(93_032_639, 10) == 268_435_451
    ensures Rnd((Q27 - 1) * LN2) == 93_032_639
  {
    SeriesOf(93_032_639, [Q27, 93_032_639, 32_242_655, 7_449_635, 1_290_923, 178_960, 20_674, 2047, 177, 13, 0]);
  }

  function Mantissa(u: int): int { Series(Rnd((u - u / Q27 * Q27) * LN2), 10) }

  // The series stays within one octave.
  lemma MantissaInOctave(u: int)
    ensures Q27 <= Mantissa(u) < 2 * Q27
  {
    hide Series;
    var r := u - u / Q27 * Q27;
    RndMonotone(0, r * LN2);
    RndMonotone(r * LN2, (Q27 - 1) * LN2);
    SeriesMonotone(Rnd(r * LN2), 93_032_639, 10) by { LargestSeries(); }
    LargestSeries();
  }

  lemma MantissaMonotone(u: int, v: int)
    requires u <= v && u / Q27 == v / Q27
    ensures Mantissa(u) <= Mantissa(v)
  {
    hide Series;
    var n := u / Q27;
    var r, s := u - n * Q27, v - n * Q27;
    RndMonotone(0, r * LN2);
    RndMonotone(r * LN2, s * LN2);
    SeriesMonotone(Rnd(r * LN2), Rnd(s * LN2), 10);
  }

  // 2^u never falls as u grows, where the series ends and the next octave
  // begins no less than inside one.
  lemma Exp2Monotone(u: int, v: int)
    requires -2 * Q27 <= u <= v <= 2 * Q27
    ensures Exp2(u) <= Exp2(v)
  {
    hide Series, Mantissa;
    MantissaInOctave(u);
    MantissaInOctave(v);
    var m, n := u / Q27, v / Q27;
    assert -2 <= m <= n <= 2;
    if m == n {
      MantissaMonotone(u, v);
    }
    ShlMonotone(Mantissa(u), m, Mantissa(v), n);
    Exp2IsShifted(u);
    Exp2IsShifted(v);
  }

  lemma Exp2IsShifted(u: int)
    ensures Exp2(u) == Shl(Mantissa(u), u / Q27)
  {
  }

  lemma ShlMonotone(a: int, m: int, b: int, n: int)
    requires Q27 <= a < 2 * Q27 && Q27 <= b < 2 * Q27
    requires -2 <= m <= n <= 2 && (m == n ==> a <= b)
    ensures Shl(a, m) <= Shl(b, n)
  {
    ShlValue(a, m);
    ShlValue(b, n);
    hide Shl;
  }

  lemma ShlValue(a: int, m: int)
    requires -2 <= m <= 2
    ensures Shl(a, m) == if m == -2 then a / 4 else if m == -1 then a / 2 else if m == 0 then a
                         else if m == 1 then a * 2 else a * 4
  {
    assert Pow2(0) == 1 && Pow2(1) == 2 && Pow2(2) == 4;
  }

  // The factors of a gain in tenths of a dB: 10^(g/400) and its square root.
  const PER_TENTH := 0x11021E
  const PER_TENTH_ROOT := 0x8810F

  function Amplitude(gain: int): int { Exp2(gain * PER_TENTH) }

  function AmplitudeRoot(gain: int): int { Exp2(gain * PER_TENTH_ROOT) }

  // What +24 dB gives, 3.981 and 1.995; -24 dB is above 1/4 and 1/2.
  const A_MIN := 0x200_0000
  const A_MAX := 534_330_320
  const ROOT_MIN := 0x400_0000
  const ROOT_MAX := 267_799_555

  lemma LoudestSeries()
    ensures Series(92_395_987, 10) == 267_165_160
  {
    SeriesOf(92_395_987, [Q27, 92_395_987, 31_802_872, 7_297_738, 1_255_947, 172_919, 19_839, 1951, 167, 12, 0]);
  }

  lemma LoudestRootSeries()
    ensures Series(92_714_314, 10) == ROOT_MAX
  {
    SeriesOf(92_714_314, [Q27, 92_714_314, 32_022_387, 7_373_426, 1_273_345, 175_919, 20_253, 1998, 172, 13, 0]);
  }

  lemma LoudestAmplitude()
    ensures Amplitude(240) == A_MAX && AmplitudeRoot(240) == ROOT_MAX
  {
    hide Series;
    LoudestSeries();
    LoudestRootSeries();
    assert Mantissa(240 * PER_TENTH) == 267_165_160;
    assert Mantissa(240 * PER_TENTH_ROOT) == ROOT_MAX;
    assert Pow2(1) == 2 && Pow2(0) == 1;
    Exp2IsShifted(240 * PER_TENTH);
    Exp2IsShifted(240 * PER_TENTH_ROOT);
  }

  lemma QuietestAmplitude(u: int)
    requires -2 * Q27 <= u
    ensures u <= 2 * Q27 ==> Exp2(u) >= A_MIN
    ensures -Q27 <= u <= 2 * Q27 ==> Exp2(u) >= ROOT_MIN
  {
    hide Mantissa;
    MantissaInOctave(u);
    if u <= 2 * Q27 {
      ShlMonotone(Q27, if u < -Q27 then -2 else -1, Mantissa(u), u / Q27);
    }
    Exp2IsShifted(u);
    assert Shl(Q27, -2) == A_MIN && Shl(Q27, -1) == ROOT_MIN by {
      assert Pow2(0) == 1 && Pow2(1) == 2 && Pow2(2) == 4;
    }
  }

  lemma AmplitudeRange(gain: int)
    requires -240 <= gain <= 240
    ensures A_MIN <= Amplitude(gain) <= A_MAX
    ensures ROOT_MIN <= AmplitudeRoot(gain) <= ROOT_MAX
  {
    hide Exp2;
    LoudestAmplitude();
    Exp2Monotone(gain * PER_TENTH, 240 * PER_TENTH);
    Exp2Monotone(gain * PER_TENTH_ROOT, 240 * PER_TENTH_ROOT);
    QuietestAmplitude(gain * PER_TENTH);
    QuietestAmplitude(gain * PER_TENTH_ROOT);
  }

  // ------------------------------------------------------------ coefficients

  datatype Coeffs = Coeffs(b0: int, b1: int, b2: int, a0: int, a1: int, a2: int)

  function Bell(c: int, alpha: int, a: int): Coeffs
    requires a > 0
  {
    var ta := Rnd(alpha * a);
    var td := Div(alpha * Q27 + a / 2, a);
    Coeffs(Q27 + ta, -2 * c, Q27 - ta, Q27 + td, -2 * c, Q27 - td)
  }

  // What both shelves are made of: (A-1)c, (A+1)c and 2 sqrt(A) alpha.
  datatype Terms = Terms(cp0: int, cp1: int, ab: int)

  function ShelfTerms(c: int, alpha: int, a: int, sq: int): Terms {
    Terms(Rnd((a - Q27) * c), Rnd((a + Q27) * c), Rnd(2 * sq * alpha))
  }

  function LowShelf(c: int, alpha: int, a: int, sq: int): Coeffs {
    var ap1, am1 := a + Q27, a - Q27;
    var Terms(cp0, cp1, ab) := ShelfTerms(c, alpha, a, sq);
    Coeffs(Rnd(a * (ap1 - cp0 + ab)), Rnd(2 * a * (am1 - cp1)), Rnd(a * (ap1 - cp0 - ab)),
           ap1 + cp0 + ab, -2 * (am1 + cp1), ap1 + cp0 - ab)
  }

  function HighShelf(c: int, alpha: int, a: int, sq: int): Coeffs {
    var ap1, am1 := a + Q27, a - Q27;
    var Terms(cp0, cp1, ab) := ShelfTerms(c, alpha, a, sq);
    Coeffs(Rnd(a * (ap1 + cp0 + ab)), Rnd(-2 * a * (am1 + cp1)), Rnd(a * (ap1 + cp0 - ab)),
           ap1 - cp0 + ab, -2 * (am1 - cp1), ap1 - cp0 - ab)
  }

  predicate Inputs(c: int, alpha: int, a: int, sq: int) {
    && Abs(c) <= LIMIT && SINE_FLOOR <= alpha <= LIMIT
    && A_MIN <= a <= A_MAX && ROOT_MIN <= sq <= ROOT_MAX
  }

  // What makes the words fit: positive divisors, no quotient near 16.
  predicate Sound(k: Coeffs) {
    && k.a0 >= 8_000_000 && k.b0 >= 8_000_000
    && Abs(k.a1) <= 15 * k.a0 && Abs(k.a2) <= 15 * k.a0
    && Abs(k.b1) <= 15 * k.b0 && Abs(k.b2) <= 15 * k.b0
    && k.b0 + 8 <= 16 * k.a0 && k.a0 <= 14 * Q27
  }

  lemma RndBounds(x: int)
    ensures x - 0x400_0000 <= Q27 * Rnd(x) <= x + 0x400_0000
  {
  }

  const AB_MIN := -703_930

  lemma AlphaTerm(sq: int, alpha: int)
    requires ROOT_MIN <= sq <= ROOT_MAX && SINE_FLOOR <= alpha <= LIMIT
    ensures AB_MIN <= Rnd(2 * sq * alpha) <= 4 * Q27
    ensures 2 * ROOT_MAX * SINE_FLOOR <= 2 * sq * alpha <= 2 * ROOT_MAX * LIMIT
  {
    MulMono(SINE_FLOOR, alpha, sq);
    MulMono(alpha, LIMIT, sq);
    MulMono(sq, ROOT_MAX, LIMIT);
    MulMono(sq, ROOT_MAX, -SINE_FLOOR);
    assert 2 * sq * alpha == 2 * (alpha * sq);
    RndMonotone(2 * ROOT_MAX * SINE_FLOOR, 2 * sq * alpha);
    RndMonotone(2 * sq * alpha, 2 * ROOT_MAX * LIMIT);
  }

  // The cosine terms: cp1 - cp0 is exactly 2c, the rest follows |c| <= 1.
  predicate CosineTerms(c: int, a: int, cp0: int, cp1: int) {
    && Abs(cp0) <= Abs(a - Q27) + 385
    && cp1 - cp0 == 2 * c
    && Abs(cp0 + cp1) <= 2 * a + 1026
  }

  lemma CosineTermsHold(c: int, a: int)
    requires Abs(c) <= LIMIT && A_MIN <= a <= A_MAX
    ensures CosineTerms(c, a, Rnd((a - Q27) * c), Rnd((a + Q27) * c))
  {
    hide Rnd;
    var x, y := (a - Q27) * c, (a + Q27) * c;
    Expand(a, c);
    ShiftedRnd(x, 2 * c);
    CosineTermSize(a, c);
    CosineSumSize(a, c);
  }

  lemma Expand(a: int, c: int)
    ensures (a + Q27) * c == (a - Q27) * c + 2 * c * Q27
    ensures (a + Q27) * c + (a - Q27) * c == 2 * (a * c)
  {
  }

  lemma CosineTermSize(a: int, c: int)
    requires Abs(c) <= LIMIT && A_MIN <= a <= A_MAX
    ensures Abs(Rnd((a - Q27) * c)) <= Abs(a - Q27) + 385
  {
    ProductBound(a - Q27, c, Abs(a - Q27), LIMIT);
    RndBounds((a - Q27) * c);
  }

  lemma CosineSumSize(a: int, c: int)
    requires Abs(c) <= LIMIT && A_MIN <= a <= A_MAX
    ensures Abs(Rnd((a - Q27) * c) + Rnd((a + Q27) * c)) <= 2 * a + 1026
  {
    hide Rnd;
    Expand(a, c);
    ProductBound(a, c, a, LIMIT);
    RndBounds((a - Q27) * c);
    RndBounds((a + Q27) * c);
  }

  lemma ShiftedRnd(x: int, n: int)
    ensures Rnd(x + n * Q27) == Rnd(x) + n
  {
  }

  // One side of a shelf: the divisor p, the sum without alpha, and what the
  // other two words of the side divide by it.
  lemma SideOfAShelf(c: int, a: int, cp0: int, cp1: int, ab: int)
    requires CosineTerms(c, a, cp0, cp1) && Abs(c) <= LIMIT && A_MIN <= a <= A_MAX
    requires AB_MIN <= ab <= 4 * Q27
    ensures SideHolds(a, cp0, cp1, ab)
  {
  }

  // The other side: the same with the angle turned around.
  lemma OtherSide(c: int, a: int, cp0: int, cp1: int)
    requires CosineTerms(c, a, cp0, cp1)
    ensures CosineTerms(-c, a, -cp0, -cp1)
  {
  }

  lemma WeightedSide(a: int, p: int, x: int)
    requires A_MIN <= a <= A_MAX && p >= 66_404_549 && Abs(x) <= 3 * (a * p)
    ensures Rnd(a * p) >= 8_000_000 && Abs(Rnd(x)) <= 15 * Rnd(a * p)
  {
    MulMono(A_MIN, a, p);
    RndBounds(x);
    RndBounds(a * p);
  }

  lemma WeightedWords(a: int, p: int, m: int, n: int)
    requires A_MIN <= a <= A_MAX && p >= 66_404_549
    requires Abs(m) <= p + 705_000 && Abs(n) <= 2 * p
    ensures Abs(2 * a * m) <= 3 * (a * p) && Abs(a * n) <= 3 * (a * p)
  {
    ProductBound(a, m, a, p + 705_000);
    ProductBound(a, n, a, 2 * p);
    MulMono(2 * 705_000, p, a);
    assert 2 * a * m == 2 * (a * m);
    assert a * (p + 705_000) == a * p + a * 705_000;
    assert a * (2 * p) == 2 * (a * p);
    MulMono(0, p, a);
  }

  // The numerator of a shelf, up to the sign of its middle word.
  lemma NumeratorIsSound(a: int, bare: int, m: int, ab: int)
    requires A_MIN <= a <= A_MAX && bare + ab >= 66_404_549
    requires Abs(m) <= bare + ab + 705_000 && Abs(bare - ab) <= 2 * (bare + ab)
    ensures var b0 := Rnd(a * (bare + ab));
            && b0 >= 8_000_000
            && Abs(Rnd(2 * a * m)) <= 15 * b0 && Abs(Rnd(-2 * a * m)) <= 15 * b0
            && Abs(Rnd(a * (bare - ab))) <= 15 * b0
  {
    hide Rnd;
    var p := bare + ab;
    WeightedWords(a, p, m, bare - ab);
    WeightedSide(a, p, 2 * a * m);
    MinusTwo(a, m);
    WeightedSide(a, p, -2 * a * m);
    WeightedSide(a, p, a * (bare - ab));
  }

  lemma MinusTwo(a: int, m: int)
    ensures -2 * a * m == -(2 * a * m)
  {
  }

  // At +24 dB the shelf's gain is 15.85: the quotient b0 / a0 stays below 16
  // although the words are rounded and alpha may be a little negative.
  lemma ShelfGain(a: int, bare: int, s: int, ab: int)
    requires A_MIN <= a <= A_MAX && Abs(s) <= Abs(a - Q27) + 385 && bare == a + Q27 - s
    requires AB_MIN <= ab <= 4 * Q27
    ensures Rnd(a * (bare + ab)) + 8 <= 16 * (a + Q27 + s + ab)
  {
    RndBounds(a * (bare + ab));
    ShelfProduct(a, s, ab);
    assert bare + ab == a + Q27 - s + ab;
  }

  lemma ShelfProduct(a: int, s: int, ab: int)
    requires A_MIN <= a <= A_MAX && Abs(s) <= Abs(a - Q27) + 385
    requires AB_MIN <= ab <= 4 * Q27
    ensures a * (a + Q27 - s + ab) <= 16 * Q27 * (a + Q27 + s + ab) - 9 * Q27
  {
    var k := Abs(a - Q27) + 385;
    Positive(16 * Q27 - a, ab - AB_MIN);
    Positive(16 * Q27 + a, s + k);
    var aa, as', ab' := a * a, a * s, a * ab;
    assert a * (a + Q27 - s + ab) == aa + Q27 * a - as' + ab';
    assert (16 * Q27 - a) * (ab - AB_MIN) == 16 * Q27 * ab - ab' - 16 * Q27 * AB_MIN + a * AB_MIN;
    assert (16 * Q27 + a) * (s + k) == 16 * Q27 * s + as' + 16 * Q27 * k + a * k;
    if a >= Q27 {
      MulMono(a, A_MAX, a);
      assert a * k == aa - Q27 * a + 385 * a;
    } else {
      assert a * k == Q27 * a - aa + 385 * a;
    }
  }

  lemma Positive(x: int, y: int)
    requires x >= 0 && y >= 0
    ensures x * y >= 0
  {
  }

  predicate SideHolds(a: int, cp0: int, cp1: int, ab: int) {
    var bare := a + Q27 + cp0;
    var p := bare + ab;
    && 66_404_549 <= p <= 13 * Q27
    && Abs(a - Q27 + cp1) <= p + 705_000
    && Abs(bare - ab) <= 2 * p
    && Abs(cp0) <= Abs(a - Q27) + 385
    && AB_MIN <= ab <= 4 * Q27
  }

  lemma ShelfSides(c: int, alpha: int, a: int, sq: int)
    requires Inputs(c, alpha, a, sq)
    ensures var t := ShelfTerms(c, alpha, a, sq);
            SideHolds(a, t.cp0, t.cp1, t.ab) && SideHolds(a, -t.cp0, -t.cp1, t.ab)
  {
    hide Rnd, CosineTerms, SideHolds;
    var Terms(cp0, cp1, ab) := ShelfTerms(c, alpha, a, sq);
    AlphaTerm(sq, alpha);
    CosineTermsHold(c, a);
    OtherSide(c, a, cp0, cp1);
    SideOfAShelf(c, a, cp0, cp1, ab);
    SideOfAShelf(-c, a, -cp0, -cp1, ab);
  }

  // The words of one side of a shelf that the other divides by, and the
  // numerators on the other side.
  lemma DenominatorIsSound(a: int, cp0: int, cp1: int, ab: int)
    requires A_MIN <= a <= A_MAX && SideHolds(a, cp0, cp1, ab)
    ensures var a0 := a + Q27 + cp0 + ab;
            && 8_000_000 <= a0 <= 14 * Q27
            && Abs(-2 * (a - Q27 + cp1)) <= 15 * a0 && Abs(2 * (a - Q27 + cp1)) <= 15 * a0
            && Abs(a + Q27 + cp0 - ab) <= 15 * a0
  {
  }

  lemma NumeratorOf(a: int, cp0: int, cp1: int, ab: int)
    requires A_MIN <= a <= A_MAX && SideHolds(a, cp0, cp1, ab)
    ensures var b0 := Rnd(a * (a + Q27 + cp0 + ab));
            && b0 >= 8_000_000 && b0 + 8 <= 16 * (a + Q27 - cp0 + ab)
            && Abs(Rnd(2 * a * (a - Q27 + cp1))) <= 15 * b0 && Abs(Rnd(-2 * a * (a - Q27 + cp1))) <= 15 * b0
            && Abs(Rnd(a * (a + Q27 + cp0 - ab))) <= 15 * b0
  {
    hide Rnd;
    NumeratorIsSound(a, a + Q27 + cp0, a - Q27 + cp1, ab);
    ShelfGain(a, a + Q27 + cp0, -cp0, ab);
  }

  lemma LowShelfIsSound(c: int, alpha: int, a: int, sq: int)
    requires Inputs(c, alpha, a, sq)
    ensures Sound(LowShelf(c, alpha, a, sq))
  {
    hide Rnd, ShelfTerms, SideHolds;
    var Terms(cp0, cp1, ab) := ShelfTerms(c, alpha, a, sq);
    ShelfSides(c, alpha, a, sq);
    NumeratorOf(a, -cp0, -cp1, ab);
    DenominatorIsSound(a, cp0, cp1, ab);
  }

  lemma HighShelfIsSound(c: int, alpha: int, a: int, sq: int)
    requires Inputs(c, alpha, a, sq)
    ensures Sound(HighShelf(c, alpha, a, sq))
  {
    hide Rnd, ShelfTerms, SideHolds;
    var Terms(cp0, cp1, ab) := ShelfTerms(c, alpha, a, sq);
    ShelfSides(c, alpha, a, sq);
    NumeratorOf(a, cp0, cp1, ab);
    DenominatorIsSound(a, -cp0, -cp1, ab);
  }

  lemma BellTerms(alpha: int, a: int)
    requires SINE_FLOOR <= alpha <= LIMIT && A_MIN <= a <= A_MAX
    ensures AB_MIN <= Rnd(alpha * a) <= 4 * Q27
    ensures -705_601 <= Div(alpha * Q27 + a / 2, a) <= 5 * Q27
  {
    MulMono(SINE_FLOOR, alpha, a);
    MulMono(alpha, LIMIT, a);
    MulMono(a, A_MAX, LIMIT);
    MulMono(a, A_MAX, -SINE_FLOOR);
    RndMonotone(A_MAX * SINE_FLOOR, alpha * a);
    RndMonotone(alpha * a, A_MAX * LIMIT);
    DivRange(alpha * Q27 + a / 2, a);
  }

  lemma DivRange(n: int, a: int)
    requires A_MIN <= a && SINE_FLOOR * Q27 <= n <= LIMIT * Q27 + 2 * Q27 + a / 2
    ensures -705_601 <= Div(n, a) <= 5 * Q27
  {
    if n >= 0 {
      QuotientBelow(n, a, 5 * Q27);
    } else {
      QuotientBelow(-n, a, 705_601);
    }
  }

  lemma QuotientBelow(n: nat, a: nat, bound: nat)
    requires a >= A_MIN && n <= bound * A_MIN + a / 2
    requires bound >= 1
    ensures n / a <= bound
  {
    DivBounds(n, a);
    MulMono(A_MIN, a, bound);
    if n / a > bound {
      MulMonoStrict(bound, n / a, a);
    }
  }

  lemma BellIsSound(c: int, alpha: int, a: int)
    requires Abs(c) <= LIMIT && SINE_FLOOR <= alpha <= LIMIT && A_MIN <= a <= A_MAX
    ensures Sound(Bell(c, alpha, a))
  {
    hide Rnd, Div;
    BellTerms(alpha, a);
  }

  // ----------------------------------------------------------------- angles

  const TWO_PI := 0x3243F6A9

  // w0 = 2 pi f / fs
  function Omega(freq: int, fs: int): int
    requires fs > 0
  {
    Div(freq * Q27, fs) * TWO_PI / Q27
  }

  // The angle reduced to [0, pi/2]: less a half turn, then mirrored.
  function HalfTurn(w0: int): int { if w0 > PI then w0 - PI else w0 }

  function Reduced(w0: int): int {
    if HalfTurn(w0) > HALF_PI then PI - HalfTurn(w0) else HalfTurn(w0)
  }

  function CosOf(w0: int): int {
    var c := Cos(Reduced(w0));
    var turned := if w0 > PI then -c else c;
    if HalfTurn(w0) > HALF_PI then -turned else turned
  }

  // w0 / 2Q, held to pi/2
  function AlphaAngle(w0: int, q: int): int
    requires q > 0
  {
    var u := Div(w0 * 100 + q, 2 * q);
    if u > HALF_PI then HALF_PI else u
  }

  lemma OmegaRange(freq: int, fs: int)
    requires 0 <= freq <= 20_000 && fs >= 32_000
    ensures 0 <= Div(freq * Q27, fs) <= 83_886_080
    ensures 0 <= Omega(freq, fs) <= PI + HALF_PI
  {
    DivBounds(freq * Q27, fs);
    var x := Div(freq * Q27, fs);
    if x < 0 {
      MulMonoStrict(x, 0, fs);
    }
    MulMono(32_000, fs, x);
  }

  lemma AnglesAreReduced(w0: int, q: int)
    requires 0 <= w0 <= PI + HALF_PI && q > 0
    ensures 0 <= Reduced(w0) <= HALF_PI
    ensures 0 <= AlphaAngle(w0, q) <= HALF_PI
  {
    DivBounds(w0 * 100 + q, 2 * q);
    if (w0 * 100 + q) / (2 * q) < 0 {
      MulMonoStrict((w0 * 100 + q) / (2 * q), 0, 2 * q);
    }
  }

  // ------------------------------------------------------------------ words

  // kind: 0 off, 1 bell, 2 low shelf, otherwise high shelf; q in hundredths,
  // gain in tenths of a dB.
  datatype Band = Band(kind: int, freq: int, q: int, gain: int)
  {
    // What bf_eq_put lets through, and a Q of 0 before one was put.
    predicate Accepted() {
      0 <= kind <= 3 && 0 <= freq <= 20_000 && 0 <= q <= 1000 && -240 <= gain <= 240
    }

    predicate Active() { kind != 0 && gain != 0 && q > 0 }
  }

  datatype Words = Words(w0: int, w1: int, w2: int, w3: int, w4: int)

  const IDENTITY := Words(0, 0, 0, 0, Q27)

  function Biquad(b: Band, fs: int): Coeffs
    requires b.q > 0 && fs > 0 && Amplitude(b.gain) > 0
  {
    var w0 := Omega(b.freq, fs);
    var c, alpha := CosOf(w0), Sin(AlphaAngle(w0, b.q));
    var a, sq := Amplitude(b.gain), AmplitudeRoot(b.gain);
    if b.kind == 1 then Bell(c, alpha, a)
    else if b.kind == 2 then LowShelf(c, alpha, a, sq)
    else HighShelf(c, alpha, a, sq)
  }

  // A quotient in Q27, as stored.
  function Word(n: int, d: int): int
    requires d > 0
  {
    Div(n * Q27 + d / 2, d)
  }

  function WordsOf(k: Coeffs): Words
    requires k.a0 > 0 && k.b0 > 0
  {
    Words(Word(k.a1, k.a0), Word(k.a2, k.a0), Word(k.b1, k.b0), Word(k.b2, k.b0), Word(k.b0, k.a0))
  }

  function BandWords(b: Band, fs: int): Words
    requires b.Accepted() && fs >= 32_000
  {
    if !b.Active() then IDENTITY
    else
      AmplitudeRange(b.gain);
      BiquadIsSound(b, fs);
      WordsOf(Biquad(b, fs))
  }

  predicate S32(w: int) { -0x8000_0000 <= w < 0x8000_0000 }

  // For every setting and rate the equalizer accepts the divisors are
  // positive and no quotient comes near the limit of its word.
  lemma BiquadIsSound(b: Band, fs: int)
    requires b.Accepted() && b.Active() && fs >= 32_000
    ensures Amplitude(b.gain) > 0 && Sound(Biquad(b, fs))
  {
    hide Amplitude, AmplitudeRoot, Omega, Reduced, HalfTurn, AlphaAngle, Sin, Cos, Sound,
      Bell, LowShelf, HighShelf;
    AmplitudeRange(b.gain);
    OmegaRange(b.freq, fs);
    var w0 := Omega(b.freq, fs);
    AnglesAreReduced(w0, b.q);
    SinCosBounded(Reduced(w0));
    SinCosBounded(AlphaAngle(w0, b.q));
    SineFloor(AlphaAngle(w0, b.q));
    var c, alpha := CosOf(w0), Sin(AlphaAngle(w0, b.q));
    BellIsSound(c, alpha, Amplitude(b.gain));
    LowShelfIsSound(c, alpha, Amplitude(b.gain), AmplitudeRoot(b.gain));
    HighShelfIsSound(c, alpha, Amplitude(b.gain), AmplitudeRoot(b.gain));
  }

  lemma WordFits(n: int, d: int)
    requires 0 < d && -15 * d <= n && n * Q27 + d / 2 < 0x8000_0000 * d
    ensures S32(Word(n, d))
  {
    hide Div;
    QuotientFits(n * Q27 + d / 2, d);
  }

  // The stored quotient: the nearest to n / d for a positive one; a negative
  // one is cut off above its rounding: too high by up to a unit and a half.
  lemma WordAccuracy(n: int, d: int)
    requires d > 1
    ensures n >= 0 ==> 2 * Abs(Word(n, d) * d - n * Q27) <= d
    ensures n < 0 ==> 0 < 2 * (Word(n, d) * d - n * Q27) < 3 * d
  {
    hide Word;
    var m := n * Q27 + d / 2;
    WordParts(n, d, m);
    if n < 0 <= m {
      SmallNegative(n, d, m);
    }
    HalfUnit(n, d, m, Word(n, d) * d);
  }

  lemma WordParts(n: int, d: int, m: int)
    requires d > 0 && m == n * Q27 + d / 2
    ensures m >= 0 ==> Word(n, d) * d <= m < Word(n, d) * d + d
    ensures m < 0 ==> m <= Word(n, d) * d < m + d
  {
    DivBounds(Abs(m), d);
    QuotientError(m, d, Abs(m) / d, Word(n, d));
  }

  lemma SmallNegative(n: int, d: int, m: int)
    requires d > 0 && m == n * Q27 + d / 2 && n < 0 <= m
    ensures Word(n, d) == 0
  {
    QuotientOf(m, d, 0);
  }

  lemma HalfUnit(n: int, d: int, m: int, wd: int)
    requires d > 1 && m == n * Q27 + d / 2
    requires m >= 0 ==> wd <= m < wd + d
    requires m < 0 ==> m <= wd < m + d
    requires n >= 0 || m < 0 || wd == 0
    ensures n >= 0 ==> 2 * Abs(wd - n * Q27) <= d
    ensures n < 0 ==> 0 < 2 * (wd - n * Q27) < 3 * d
  {
  }

  // What truncation loses.
  lemma QuotientError(m: int, d: int, q: int, w: int)
    requires d > 0 && q * d <= Abs(m) < q * d + d && w == (if m >= 0 then q else -q)
    ensures m >= 0 ==> w * d <= m < w * d + d
    ensures m < 0 ==> m <= w * d < m + d
  {
    assert -q * d == -(q * d);
  }

  lemma QuotientFits(m: int, d: int)
    requires d > 0 && -0x8000_0000 * d <= m < 0x8000_0000 * d
    ensures S32(Div(m, d))
  {
    DivBounds(Abs(m), d);
    var q := Abs(m) / d;
    if m >= 0 && q >= 0x8000_0000 {
      MulMono(0x8000_0000, q, d);
    }
    if m < 0 && q > 0x8000_0000 {
      MulMonoStrict(0x8000_0000, q, d);
    }
  }

  lemma WordsFit(b: Band, fs: int)
    requires b.Accepted() && fs >= 32_000
    ensures var w := BandWords(b, fs);
            S32(w.w0) && S32(w.w1) && S32(w.w2) && S32(w.w3) && S32(w.w4) && w.w4 > 0
  {
    hide Word, Biquad, Amplitude;
    if b.Active() {
      BiquadIsSound(b, fs);
      var k := Biquad(b, fs);
      WordFits(k.a1, k.a0);
      WordFits(k.a2, k.a0);
      WordFits(k.b1, k.b0);
      WordFits(k.b2, k.b0);
      WordFits(k.b0, k.a0);
      ScaleIsPositive(k.b0, k.a0);
    }
  }

  lemma ScaleIsPositive(n: int, d: int)
    requires n >= 8_000_000 && 0 < d <= 14 * Q27
    ensures Word(n, d) > 0
  {
    var m := n * Q27 + d / 2;
    DivBounds(m, d);
    if m / d < 1 {
      MulMono(m / d, 0, d);
    }
  }

  // ---------------------------------------------------- in 64-bit arithmetic

  predicate InS64(v: int) { -0x8000_0000_0000_0000 <= v < 0x8000_0000_0000_0000 }

  function Mul(a: S64, b: S64): (r: S64)
    requires InS64(a as int * b as int)
    ensures r as int == a as int * b as int
  {
    a * b
  }

  function RndS(a: S64): (r: S64)
    requires InS64(a as int + 0x400_0000)
    ensures r as int == Rnd(a as int)
  {
    ((a + 0x400_0000) as int / Q27) as S64
  }

  function DivS(a: S64, b: S64): (r: S64)
    requires b > 0 && InS64(-(a as int))
    ensures r as int == Div(a as int, b as int)
  {
    QuotientShrinks(a as int, b as int);
    Div(a as int, b as int) as S64
  }

  lemma QuotientShrinks(a: int, b: int)
    requires b > 0
    ensures Abs(Div(a, b)) <= Abs(a)
  {
    DivBounds(Abs(a), b);
    MulMono(1, b, Abs(a) / b);
  }

  lemma {:induction false} TermBelowOne(x: int, k: nat)
    requires 0 <= x <= Q27
    ensures 0 <= Term(x, k) <= Q27
  {
    if k > 0 {
      TermBelowOne(x, k - 1);
      MulMono(Term(x, k - 1), Q27, x);
      MulMono(0, Term(x, k - 1), x);
      RndMonotone(0, Term(x, k - 1) * x);
      RndMonotone(Term(x, k - 1) * x, Q27 * x);
      DivMonotone(Rnd(Term(x, k - 1) * x), x, k);
    }
  }

  // bf_exp2
  method ComputeExp2(u: S64) returns (r: S64)
    requires -2 * Q27 <= u as int <= 2 * Q27
    ensures r as int == Exp2(u as int)
  {
    hide Series, Term, Rnd, Div;
    var n := u as int / Q27;
    var rest: S64 := u - (n * Q27) as S64;
    var rl := RndS(rest * LN2 as S64);
    RestOfOctave(rest as int);
    var e: S64 := Q27 as S64;
    var term: S64 := Q27 as S64;
    var k := 1;
    SeriesStart(rl as int);
    while k <= 10
      invariant 1 <= k <= 11
      invariant term as int == Term(rl as int, k - 1)
      invariant e as int == Series(rl as int, k - 1) && Q27 <= e as int <= k * Q27
      invariant 0 <= rl as int <= Q27
    {
      TermBelowOne(rl as int, k - 1);
      TermBelowOne(rl as int, k);
      ProductBound(term as int, rl as int, Q27, Q27);
      SeriesStep(rl as int, k);
      term := DivS(RndS(Mul(term, rl)), k as S64) by { RndSmall(term as int * rl as int); }
      e := e + term;
      k := k + 1;
    }
    Exp2IsShifted(u as int);
    assert Mantissa(u as int) == e as int;
    assert Pow2(0) == 1 && Pow2(1) == 2 && Pow2(2) == 4;
    r := Shl(e as int, n) as S64;
  }

  lemma RndSmall(x: int)
    requires Abs(x) <= Q27 * Q27
    ensures Abs(Rnd(x)) <= Q27 + 1
  {
  }

  lemma RestOfOctave(r: int)
    requires 0 <= r < Q27
    ensures 0 <= Rnd(r * LN2) <= Q27
  {
  }

  lemma SeriesStart(x: int)
    ensures Term(x, 0) == Q27 && Series(x, 0) == Q27
  {
  }

  lemma SeriesStep(x: int, k: nat)
    requires k > 0
    ensures Term(x, k) == Div(Rnd(Term(x, k - 1) * x), k)
    ensures Series(x, k) == Series(x, k - 1) + Term(x, k)
  {
  }

  newtype Word32 = w: int | -0x8000_0000 <= w < 0x8000_0000

  // The numerator, a0, a1 and a2 of a band as 64-bit values.
  datatype Coeffs64 = Coeffs64(b0: S64, b1: S64, b2: S64, a0: S64, a1: S64, a2: S64)
  {
    function Value(): Coeffs {
      Coeffs(b0 as int, b1 as int, b2 as int, a0 as int, a1 as int, a2 as int)
    }
  }

  predicate Small(k: Coeffs) {
    && Abs(k.b0) <= 120 * Q27 && Abs(k.b1) <= 120 * Q27 && Abs(k.b2) <= 120 * Q27
    && Abs(k.a0) <= 30 * Q27 && Abs(k.a1) <= 30 * Q27 && Abs(k.a2) <= 30 * Q27
  }

  lemma RndOf(x: int, m: nat)
    requires Abs(x) <= m * Q27
    ensures Abs(Rnd(x)) <= m + 1
  {
  }

  lemma RoundedProduct(x: int, y: int, mx: nat)
    requires Abs(x) <= mx * Q27 && Abs(y) <= 12 * Q27 && mx <= 16
    ensures Abs(x * y) <= 12 * mx * Q27 * Q27 && Abs(Rnd(x * y)) <= 12 * mx * Q27 + 1
    ensures InS64(x * y) && InS64(x * y + 0x400_0000)
  {
    ProductBound(x, y, mx * Q27, 12 * Q27);
    assert mx * Q27 * (12 * Q27) == 12 * mx * Q27 * Q27;
    RndOf(x * y, 12 * mx * Q27);
  }

  function MulRnd(x: S64, y: S64): (r: S64)
    requires Abs(x as int) <= 9 * Q27 && Abs(y as int) <= 12 * Q27
    ensures r as int == Rnd(x as int * y as int) && Abs(r as int) <= 108 * Q27 + 1
  {
    RoundedProduct(x as int, y as int, 9);
    RndS(Mul(x, y))
  }

  method ComputeBell(c: S64, alpha: S64, a: S64) returns (k: Coeffs64)
    requires Inputs(c as int, alpha as int, a as int, ROOT_MIN)
    ensures k.Value() == Bell(c as int, alpha as int, a as int) && Small(k.Value())
  {
    hide Rnd, Div;
    BellTerms(alpha as int, a as int);
    var ta := MulRnd(alpha, a);
    var td := DivS(alpha * Q27 as S64 + a / 2, a);
    k := Coeffs64(Q27 as S64 + ta, -2 * c, Q27 as S64 - ta, Q27 as S64 + td, -2 * c, Q27 as S64 - td);
  }

  method ComputeShelfTerms(c: S64, alpha: S64, a: S64, sq: S64) returns (cp0: S64, cp1: S64, ab: S64)
    requires Inputs(c as int, alpha as int, a as int, sq as int)
    ensures Terms(cp0 as int, cp1 as int, ab as int) == ShelfTerms(c as int, alpha as int, a as int, sq as int)
    ensures Abs(cp0 as int) <= 3 * Q27 && Abs(cp1 as int) <= 6 * Q27 && Abs(ab as int) <= 4 * Q27
  {
    hide Rnd;
    CosineTermsHold(c as int, a as int);
    AlphaTerm(sq as int, alpha as int);
    cp0 := MulRnd(a - Q27 as S64, c);
    cp1 := MulRnd(a + Q27 as S64, c);
    ab := MulRnd(2 * sq, alpha);
  }

  method ComputeLowShelf(c: S64, alpha: S64, a: S64, sq: S64) returns (k: Coeffs64)
    requires Inputs(c as int, alpha as int, a as int, sq as int)
    ensures k.Value() == LowShelf(c as int, alpha as int, a as int, sq as int) && Small(k.Value())
  {
    hide Rnd, LowShelf, ShelfTerms;
    var ap1, am1 := a + Q27 as S64, a - Q27 as S64;
    var cp0, cp1, ab := ComputeShelfTerms(c, alpha, a, sq);
    var b0, b1, b2 := ComputeNumerator(a, 2 * a, ap1 - cp0, am1 - cp1, ab);
    k := Coeffs64(b0, b1, b2, ap1 + cp0 + ab, -2 * (am1 + cp1), ap1 + cp0 - ab);
    LowShelfIs(c as int, alpha as int, a as int, sq as int, k.Value());
  }

  method ComputeHighShelf(c: S64, alpha: S64, a: S64, sq: S64) returns (k: Coeffs64)
    requires Inputs(c as int, alpha as int, a as int, sq as int)
    ensures k.Value() == HighShelf(c as int, alpha as int, a as int, sq as int) && Small(k.Value())
  {
    hide Rnd, HighShelf, ShelfTerms;
    var ap1, am1 := a + Q27 as S64, a - Q27 as S64;
    var cp0, cp1, ab := ComputeShelfTerms(c, alpha, a, sq);
    var b0, b1, b2 := ComputeNumerator(a, -2 * a, ap1 + cp0, am1 + cp1, ab);
    k := Coeffs64(b0, b1, b2, ap1 - cp0 + ab, -2 * (am1 - cp1), ap1 - cp0 - ab);
    HighShelfIs(c as int, alpha as int, a as int, sq as int, k.Value());
  }

  method ComputeNumerator(a: S64, twice: S64, bare: S64, m: S64, ab: S64) returns (b0: S64, b1: S64, b2: S64)
    requires A_MIN <= a as int <= A_MAX && Abs(twice as int) <= 8 * Q27
    requires Abs(bare as int) <= 8 * Q27 && Abs(m as int) <= 9 * Q27 && Abs(ab as int) <= 4 * Q27
    ensures b0 as int == Rnd(a as int * (bare as int + ab as int))
    ensures b1 as int == Rnd(twice as int * m as int)
    ensures b2 as int == Rnd(a as int * (bare as int - ab as int))
    ensures Abs(b0 as int) <= 120 * Q27 && Abs(b1 as int) <= 120 * Q27 && Abs(b2 as int) <= 120 * Q27
  {
    hide Rnd;
    b0 := MulRnd(a, bare + ab);
    b1 := MulRnd(twice, m);
    b2 := MulRnd(a, bare - ab);
  }

  lemma LowShelfIs(c: int, alpha: int, a: int, sq: int, k: Coeffs)
    requires var ap1, am1 := a + Q27, a - Q27;
             var Terms(cp0, cp1, ab) := ShelfTerms(c, alpha, a, sq);
             k == Coeffs(Rnd(a * (ap1 - cp0 + ab)), Rnd((2 * a) * (am1 - cp1)), Rnd(a * (ap1 - cp0 - ab)),
                         ap1 + cp0 + ab, -2 * (am1 + cp1), ap1 + cp0 - ab)
    ensures k == LowShelf(c, alpha, a, sq)
  {
  }

  lemma HighShelfIs(c: int, alpha: int, a: int, sq: int, k: Coeffs)
    requires var ap1, am1 := a + Q27, a - Q27;
             var Terms(cp0, cp1, ab) := ShelfTerms(c, alpha, a, sq);
             k == Coeffs(Rnd(a * (ap1 + cp0 + ab)), Rnd((-2 * a) * (am1 + cp1)), Rnd(a * (ap1 + cp0 - ab)),
                         ap1 - cp0 + ab, -2 * (am1 - cp1), ap1 - cp0 - ab)
    ensures k == HighShelf(c, alpha, a, sq)
  {
  }

  // The quotient of two coefficients, cast to 32 bits without loss.
  method ComputeWord(n: S64, d: S64) returns (w: Word32)
    requires d > 0 && Abs(n as int) <= 120 * Q27 && d as int <= 120 * Q27
    requires S32(Word(n as int, d as int))
    ensures w as int == Word(n as int, d as int)
  {
    var q := DivS(n * Q27 as S64 + d / 2, d);
    w := q as Word32;
  }

  // bf_eq_band_words: no step leaves 64 bits, no division is by zero, no cast
  // loses a bit.
  method ComputeBandWords(kind: int, freqHz: S64, q100: S64, gainX10: S64, fs: S64)
    returns (w0: Word32, w1: Word32, w2: Word32, w3: Word32, w4: Word32)
    requires Band(kind, freqHz as int, q100 as int, gainX10 as int).Accepted()
    requires 32_000 <= fs as int <= 0x7FFF_FFFF
    ensures Words(w0 as int, w1 as int, w2 as int, w3 as int, w4 as int) ==
            BandWords(Band(kind, freqHz as int, q100 as int, gainX10 as int), fs as int)
  {
    hide Amplitude, AmplitudeRoot, Sin, Cos, Bell, LowShelf, HighShelf, Div, Exp2, Sound, Word, Small;
    if kind == 0 || gainX10 == 0 || q100 <= 0 {
      return 0, 0, 0, 0, Q27 as Word32;
    }
    ghost var b := Band(kind, freqHz as int, q100 as int, gainX10 as int);
    OmegaRange(freqHz as int, fs as int);
    var w: S64 := DivS(freqHz * Q27 as S64, fs);
    w := ((w * TWO_PI as S64) as int / Q27) as S64;
    assert w as int == Omega(b.freq, fs as int);
    AnglesAreReduced(w as int, q100 as int);
    var c := ComputeCosine(w);
    QuotientShrinks(w as int * 100 + q100 as int, 2 * q100 as int);
    var u := DivS(w * 100 + q100, 2 * q100);
    if u > HALF_PI as S64 {
      u := HALF_PI as S64;
    }
    var alpha, _ := SinCos(u);
    var a := ComputeExp2(gainX10 * PER_TENTH as S64);
    var sq := ComputeExp2(gainX10 * PER_TENTH_ROOT as S64);
    Amplitudes(b.gain, a as int, sq as int);
    var k: Coeffs64;
    if kind == 1 {
      k := ComputeBell(c, alpha, a);
    } else if kind == 2 {
      k := ComputeLowShelf(c, alpha, a, sq);
    } else {
      k := ComputeHighShelf(c, alpha, a, sq);
    }
    w0, w1, w2, w3, w4 := ComputeWords(b, fs as int, k);
  }

  lemma Amplitudes(gain: int, a: int, sq: int)
    requires -240 <= gain <= 240
    requires a == Exp2(gain * PER_TENTH) && sq == Exp2(gain * PER_TENTH_ROOT)
    ensures a == Amplitude(gain) && sq == AmplitudeRoot(gain)
    ensures A_MIN <= a <= A_MAX && ROOT_MIN <= sq <= ROOT_MAX
  {
    hide Exp2;
    AmplitudeRange(gain);
  }

  // The reduction of the angle and the signs of its quadrant.
  method ComputeCosine(w0: S64) returns (c: S64)
    requires 0 <= w0 as int <= PI + HALF_PI
    ensures c as int == CosOf(w0 as int) && Abs(c as int) <= LIMIT
  {
    hide Cos, Sin;
    AnglesAreReduced(w0 as int, 1);
    var t := w0;
    var both, cflip := false, false;
    if t > PI as S64 {
      t := t - PI as S64;
      both := true;
    }
    if t > HALF_PI as S64 {
      t := PI as S64 - t;
      cflip := true;
    }
    var s;
    s, c := SinCos(t);
    if both {
      s, c := -s, -c;
    }
    if cflip {
      c := -c;
    }
  }

  method ComputeWords(ghost b: Band, ghost fs: int, k: Coeffs64)
    returns (w0: Word32, w1: Word32, w2: Word32, w3: Word32, w4: Word32)
    requires b.Accepted() && b.Active() && fs >= 32_000 && Amplitude(b.gain) > 0
    requires k.Value() == Biquad(b, fs) && Small(k.Value())
    ensures Words(w0 as int, w1 as int, w2 as int, w3 as int, w4 as int) == BandWords(b, fs)
  {
    hide Biquad, Amplitude, Word;
    BiquadIsSound(b, fs);
    WordsFit(b, fs);
    w0 := ComputeWord(k.a1, k.a0);
    w1 := ComputeWord(k.a2, k.a0);
    w2 := ComputeWord(k.b1, k.b0);
    w3 := ComputeWord(k.b2, k.b0);
    w4 := ComputeWord(k.b0, k.a0);
  }
}
