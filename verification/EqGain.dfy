/** What the words of an equalizer band do: the gain they give at 0 Hz, at half
    the rate and at the middle of a bell, for each type, to a bound of their
    rounding. */
module EqGain {
  import opened Arith
  import opened Cordic
  import opened EqBand

  // ----------------------------------------------------------------- angles

  // 2 pi f / fs, from below to eight units.
  lemma OmegaIsTheAngle(freq: int, fs: int)
    requires 0 <= freq <= 20_000 && fs >= 32_000
    ensures freq * TWO_PI - 8 * fs < Omega(freq, fs) * fs <= freq * TWO_PI
  {
    var x := Div(freq * Q27, fs);
    OmegaRange(freq, fs);
    DivBounds(freq * Q27, fs);
    DivBounds(x * TWO_PI, Q27);
    OmegaParts(freq, fs, x, Omega(freq, fs));
  }

  lemma OmegaParts(freq: int, fs: nat, x: int, w: int)
    requires x * fs <= freq * Q27 < x * fs + fs && w * Q27 <= x * TWO_PI < w * Q27 + Q27
    ensures freq * TWO_PI - 8 * fs < w * fs <= freq * TWO_PI
  {
    MulMono(w * Q27, x * TWO_PI, fs);
    MulMono(x * TWO_PI, w * Q27 + Q27, fs);
    assert x * TWO_PI * fs == x * fs * TWO_PI;
    assert w * Q27 * fs == w * fs * Q27;
    assert (w * Q27 + Q27) * fs == w * fs * Q27 + Q27 * fs;
  }

  // w0 / 2Q to the nearest, up to a right angle.
  lemma AlphaAngleIsNearest(w0: int, q: int)
    requires 0 <= w0 && q > 0
    ensures var u := AlphaAngle(w0, q);
            && u <= HALF_PI
            && (u < HALF_PI ==> Abs(u * 2 * q - w0 * 100) <= q)
            && (u == HALF_PI ==> u * 2 * q - w0 * 100 <= q)
  {
    var u := Div(w0 * 100 + q, 2 * q);
    DivBounds(w0 * 100 + q, 2 * q);
    assert u * (2 * q) == u * 2 * q;
    if u > HALF_PI {
      MulMono(HALF_PI, u, 2 * q);
    }
  }

  // A thousand times the cosine of j / 8 of a right angle, up to three of them.
  function Cosine(j: nat): int
    requires j <= 24
  {
    if j <= 8 then Sine(8 - j) else if j <= 16 then -Sine(j - 8) else -Sine(24 - j)
  }

  // In every quadrant it is the cosine of the angle, to one in a hundred, ...
  lemma CosineOfTheAngle(w0: int, j: nat)
    requires j < 24 && j * HALF_PI <= 8 * w0 <= (j + 1) * HALF_PI
    ensures (Min(Cosine(j), Cosine(j + 1)) - 10) * Q27 <= 1000 * CosOf(w0)
    ensures 1000 * CosOf(w0) <= (Max(Cosine(j), Cosine(j + 1)) + 10) * Q27
  {
    hide Cos, Sin, Sine;
    if j < 8 {
      SinesRise(7 - j);
      SineOfTheAngle(w0, j);
    } else if w0 == HALF_PI {
      SinesRise(0);
      ZeroAtTheEnds();
    } else if j < 16 {
      SinesRise(j - 8);
      SineOfTheAngle(PI - w0, 15 - j);
    } else {
      SinesRise(23 - j);
      SineOfTheAngle(if w0 > PI then w0 - PI else PI - w0, if w0 > PI then j - 16 else 0);
    }
  }

  lemma SinesRise(j: nat)
    requires j < 8
    ensures Sine(0) == 0 && Sine(j) <= Sine(j + 1)
  {
  }

  // ... and of the right sign: not below zero up to a quarter of the rate, not
  // above it from there to three quarters.
  lemma SignOfTheCosine(freq: int, fs: int)
    requires 0 <= freq <= 20_000 && 32_000 <= fs <= 192_000
    ensures 4 * freq <= fs ==> CosOf(Omega(freq, fs)) >= -180_000
    ensures 4 * freq >= fs ==> CosOf(Omega(freq, fs)) <= 180_000
  {
    hide CosOf, Omega;
    OmegaRange(freq, fs);
    QuarterOfTheRate(freq, fs);
    SignInTheQuadrant(Omega(freq, fs));
  }

  lemma SignInTheQuadrant(w0: int)
    requires 0 <= w0 <= PI + HALF_PI
    ensures w0 <= HALF_PI ==> CosOf(w0) >= -180_000
    ensures w0 >= HALF_PI ==> CosOf(w0) <= 180_000
  {
    hide Cos, Sin;
    SineFloor(if w0 <= HALF_PI then w0 else if w0 <= PI then PI - w0 else w0 - PI);
    ZeroAtTheEnds();
  }

  lemma QuarterOfTheRate(freq: int, fs: int)
    requires 0 <= freq <= 20_000 && 32_000 <= fs <= 192_000
    ensures 4 * freq <= fs ==> Omega(freq, fs) <= HALF_PI
    ensures 4 * freq >= fs ==> Omega(freq, fs) >= HALF_PI
  {
    var x := Div(freq * Q27, fs);
    OmegaRange(freq, fs);
    DivBounds(freq * Q27, fs);
    if 4 * freq <= fs {
      QuotientsInOrder(freq * Q27, 0x200_0000 * fs, fs, x, 0x200_0000);
    }
    if 4 * freq >= fs {
      QuotientsInOrder(0x200_0000 * fs, freq * Q27, fs, 0x200_0000, x);
    }
  }

  // ------------------------------------------------------------- amplitudes

  // Gains in tenths of a dB, and a thousand times 10^(gain / 400).
  function GainAt(j: nat): int {
    match j
    case 0 => -240 case 1 => -60 case 2 => 0 case 3 => 60 case 4 => 120 case _ => 240
  }

  function Factor(j: nat): int {
    match j
    case 0 => 251 case 1 => 708 case 2 => 1000 case 3 => 1413 case 4 => 1995 case _ => 3981
  }

  lemma QuietestSeries()
    ensures Series(636_653, 10) == 134_855_893
  {
    SeriesOf(636_653, [Q27, 636_653, 1510, 2, 0, 0, 0, 0, 0, 0, 0]);
  }

  lemma QuietSeries()
    ensures Series(46_675_483, 10) == 190_037_752
  {
    SeriesOf(46_675_483, [Q27, 46_675_483, 8_115_920, 940_796, 81_792, 5688, 329, 16, 0, 0, 0]);
  }

  lemma LoudSeries()
    ensures Series(46_357_157, 10) == 189_587_571
  {
    SeriesOf(46_357_157, [Q27, 46_357_157, 8_005_596, 921_678, 79_584, 5497, 316, 15, 0, 0, 0]);
  }

  lemma NoSeries()
    ensures Series(0, 10) == Q27
  {
    SeriesOf(0, [Q27, 0, 0, 0, 0, 0, 0, 0, 0, 0, 0]);
  }

  lemma StepDownSeries()
    ensures Series(92_260_021, 10) == 266_894_654
  {
    SeriesOf(92_260_021, [Q27, 92_260_021, 31_709_341, 7_265_569, 1_248_571, 171_651, 19_665, 1931, 165, 12, 0]);
  }

  lemma StepUpSeries()
    ensures Series(772_619, 10) == 134_992_575
  {
    SeriesOf(772_619, [Q27, 772_619, 2224, 4, 0, 0, 0, 0, 0, 0, 0]);
  }

  lemma KnownAmplitudes(j: nat)
    requires j <= 5
    ensures Abs(1000 * Amplitude(GainAt(j)) - Factor(j) * Q27) <= Q27
    ensures Amplitude(0) == Q27 && Amplitude(1) > Q27 && Amplitude(-1) < Q27
  {
    hide Series;
    QuietestSeries();
    QuietSeries();
    LoudSeries();
    NoSeries();
    StepDownSeries();
    StepUpSeries();
    LoudestSeries();
    LoudestRootSeries();
    assert Pow2(0) == 1 && Pow2(1) == 2 && Pow2(2) == 4;
  }

  // The amplitude of a gain is 10^(gain / 400), to a thousandth at the gains
  // above and in order between them; it is 1 for none, and for no other.
  lemma AmplitudeOfTheGain(gain: int, j: nat)
    requires j < 5 && GainAt(j) <= gain <= GainAt(j + 1)
    ensures (Factor(j) - 1) * Q27 <= 1000 * Amplitude(gain) <= (Factor(j + 1) + 1) * Q27
    ensures (Amplitude(gain) > Q27 <==> gain > 0) && (Amplitude(gain) < Q27 <==> gain < 0)
    ensures AmplitudeRoot(2 * gain) == Amplitude(gain)
  {
    hide Exp2;
    KnownAmplitudes(j);
    KnownAmplitudes(j + 1);
    Exp2Monotone(GainAt(j) * PER_TENTH, gain * PER_TENTH);
    Exp2Monotone(gain * PER_TENTH, GainAt(j + 1) * PER_TENTH);
    if gain > 0 {
      Exp2Monotone(PER_TENTH, gain * PER_TENTH);
    } else if gain < 0 {
      Exp2Monotone(gain * PER_TENTH, -PER_TENTH);
    }
  }

  // ------------------------------------------------------- the coefficients

  // The numerator and the denominator at 0 Hz (s == 1) and at half the rate
  // (s == -1).
  function Above(k: Coeffs, s: int): int { k.b0 + s * k.b1 + k.b2 }

  function Below(k: Coeffs, s: int): int { k.a0 + s * k.a1 + k.a2 }

  const HALF := 0x400_0000

  lemma BellGain(c: int, alpha: int, a: int)
    requires a > 0
    ensures var k := Bell(c, alpha, a);
            && Above(k, 1) == Below(k, 1) == 2 * (Q27 - c)
            && Above(k, -1) == Below(k, -1) == 2 * (Q27 + c)
            && (k.b0 + k.b2) * c + k.b1 * Q27 == 0 == (k.a0 + k.a2) * c + k.a1 * Q27
            && Abs(Q27 * Q27 * (k.b0 - k.b2) - a * a * (k.a0 - k.a2)) <= Q27 * Q27 + 4 * (a * a)
  {
    hide Rnd, Div;
    var ta, td := Rnd(alpha * a), Div(alpha * Q27 + a / 2, a);
    RndBounds(alpha * a);
    DivError(alpha * Q27 + a / 2, a);
    CentreParts(alpha, a, ta, td);
  }

  lemma CentreParts(alpha: int, a: int, ta: int, td: int)
    requires a > 0 && Abs(Q27 * ta - alpha * a) <= HALF && Abs(td * a - alpha * Q27) <= 2 * a
    ensures Abs(Q27 * Q27 * (2 * ta) - a * a * (2 * td)) <= Q27 * Q27 + 4 * (a * a)
  {
    var e, f := Q27 * ta - alpha * a, td * a - alpha * Q27;
    ProductBound(a, f, a, 2 * a);
    assert a * a * (2 * td) == 2 * (a * (td * a));
    assert a * (td * a) == a * (alpha * Q27) + a * f;
    assert a * (alpha * Q27) == Q27 * (alpha * a);
    assert a * (2 * a) == 2 * (a * a);
  }

  lemma DivError(n: int, d: int)
    requires d > 0
    ensures Abs(Div(n, d) * d - n) < d
  {
    DivBounds(Abs(n), d);
    var q := Abs(n) / d;
    assert -q * d == -(q * d);
  }

  // The cosine terms of a shelf.
  lemma TermsOfTheCosine(c: int, a: int)
    ensures var cp0, cp1 := Rnd((a - Q27) * c), Rnd((a + Q27) * c);
            cp1 - cp0 == 2 * c && Abs(Q27 * (cp0 + cp1) - 2 * (a * c)) <= Q27
  {
    hide Rnd;
    Expand(a, c);
    ShiftedRnd((a - Q27) * c, 2 * c);
    RndBounds((a - Q27) * c);
    RndBounds((a + Q27) * c);
  }

  // The sum of a rounded numerator: of x + y + z and of x - y + z.
  lemma RoundedSum(x: int, y: int, z: int)
    ensures Abs(Q27 * (Rnd(x) + Rnd(y) + Rnd(z)) - (x + y + z)) <= 3 * HALF
    ensures Abs(Q27 * (Rnd(x) - Rnd(y) + Rnd(z)) - (x - y + z)) <= 3 * HALF
  {
    hide Rnd;
    RndBounds(x);
    RndBounds(y);
    RndBounds(z);
  }

  lemma SumOfProducts(a: int, p: int, q: int, m: int)
    ensures a * (p + q) + 2 * a * m + a * (p - q) == a * (2 * (p + m))
    ensures a * (p + q) - 2 * a * m + a * (p - q) == a * (2 * (p - m))
    ensures a * (p + q) + -2 * a * m + a * (p - q) == a * (2 * (p - m))
    ensures a * (p + q) - -2 * a * m + a * (p - q) == a * (2 * (p + m))
  {
    var ap, aq, am := a * p, a * q, a * m;
    assert a * (p + q) == ap + aq && a * (p - q) == ap - aq;
    assert 2 * a * m == 2 * am && -2 * a * m == -2 * am;
    assert a * (2 * (p + m)) == 2 * ap + 2 * am && a * (2 * (p - m)) == 2 * ap - 2 * am;
  }

  // The four sums of a shelf: two are the same at one end, two are as A^2 to
  // one at the other.
  predicate ShelfSums(c: int, a: int, same: int, same': int, loud: int, plain: int) {
    && plain == 4 * (Q27 - c)
    && Abs(Q27 * same - 4 * (a * (Q27 + c))) <= 3 * HALF
    && Abs(Q27 * same' - 4 * (a * (Q27 + c))) <= 2 * Q27
    && Abs(same - same') <= 3
    && Abs(Q27 * Q27 * loud - a * a * plain) <= Q27 * (2 * a + 3 * HALF)
  }

  lemma ShelfParts(c: int, a: int, s: int, same: int, same': int, loud: int, plain: int)
    requires a > 0 && plain == 4 * (Q27 - c) && Abs(Q27 * s - 2 * (a * c)) <= Q27
    requires same' == 4 * a + 2 * s
    requires Abs(Q27 * same - a * (4 * Q27 + 4 * c)) <= 3 * HALF
    requires Abs(Q27 * loud - a * (4 * a - 2 * s)) <= 3 * HALF
    ensures ShelfSums(c, a, same, same', loud, plain)
  {
    var aa, ac, as' := a * a, a * c, a * s;
    var d := Q27 * s - 2 * ac;
    Distribute(a, c, s);
    ScaledSine(a, c, s, d);
    ProductBound(a, d, a, Q27);
    Times(a, Q27);
    SameInParts(Q27 * a + ac, d, same, same');
    LoudInParts(a, aa, a * ac, as', a * d, Q27 * loud - (4 * aa - 2 * as'), loud);
    SquareTimes(a, c, plain);
  }

  lemma Distribute(a: int, c: int, s: int)
    ensures a * (4 * Q27 + 4 * c) == 4 * (Q27 * a) + 4 * (a * c) && a * (Q27 + c) == Q27 * a + a * c
    ensures a * (4 * a - 2 * s) == 4 * (a * a) - 2 * (a * s)
  {
  }

  lemma ScaledSine(a: int, c: int, s: int, d: int)
    requires Q27 * s == 2 * (a * c) + d
    ensures Q27 * (a * s) == 2 * (a * (a * c)) + a * d
  {
    assert Q27 * (a * s) == a * (Q27 * s);
  }

  lemma SquareTimes(a: int, c: int, plain: int)
    requires plain == 4 * (Q27 - c)
    ensures a * a * plain == 4 * (Q27 * (a * a)) - 4 * (a * (a * c))
  {
    assert a * a * c == a * (a * c);
  }

  lemma SameInParts(x: int, d: int, same: int, same': int)
    requires Abs(Q27 * same - 4 * x) <= 3 * HALF && Q27 * same' == 4 * x + 2 * d && Abs(d) <= Q27
    ensures Abs(Q27 * same' - 4 * x) <= 2 * Q27 && Abs(same - same') <= 3
  {
    assert Abs(Q27 * (same - same')) <= 7 * HALF;
  }

  lemma LoudInParts(a: int, aa: int, aac: int, as': int, ad: int, e: int, loud: int)
    requires Q27 * as' == 2 * aac + ad && Abs(ad) <= Q27 * a
    requires e == Q27 * loud - (4 * aa - 2 * as') && Abs(e) <= 3 * HALF
    ensures Abs(Q27 * Q27 * loud - (4 * (Q27 * aa) - 4 * aac)) <= Q27 * (2 * a + 3 * HALF)
  {
    assert Q27 * Q27 * loud == 4 * (Q27 * aa) - 2 * (Q27 * as') + Q27 * e;
  }

  lemma LowShelfGain(c: int, alpha: int, a: int, sq: int)
    requires a > 0
    ensures var k := LowShelf(c, alpha, a, sq);
            ShelfSums(c, a, Above(k, -1), Below(k, -1), Above(k, 1), Below(k, 1))
  {
    hide Rnd, ShelfSums;
    var k := LowShelf(c, alpha, a, sq);
    var Terms(cp0, cp1, ab) := ShelfTerms(c, alpha, a, sq);
    var p, m := a + Q27 - cp0, a - Q27 - cp1;
    TermsOfTheCosine(c, a);
    RoundedSum(a * (p + ab), 2 * a * m, a * (p - ab));
    SumOfProducts(a, p, ab, m);
    ShelfParts(c, a, cp0 + cp1, Above(k, -1), Below(k, -1), Above(k, 1), Below(k, 1));
  }

  // The cosine turned around exchanges the ends; the denominator has them as the
  // low shelf does.
  lemma HighShelfGain(c: int, alpha: int, a: int, sq: int)
    requires a > 0
    ensures var k := HighShelf(c, alpha, a, sq);
            ShelfSums(-c, a, Above(k, 1), Below(k, -1), Above(k, -1), Below(k, 1))
  {
    hide Rnd, ShelfSums;
    var k := HighShelf(c, alpha, a, sq);
    var Terms(cp0, cp1, ab) := ShelfTerms(c, alpha, a, sq);
    var p, m := a + Q27 + cp0, a - Q27 + cp1;
    TermsOfTheCosine(c, a);
    RoundedSum(a * (p + ab), -2 * a * m, a * (p - ab));
    SumOfProducts(a, p, ab, m);
    assert a * -c == -(a * c);
    ShelfParts(-c, a, -(cp0 + cp1), Above(k, 1), Below(k, -1), Above(k, -1), Below(k, 1));
  }

  // --------------------------------------------------------------- the bands

  // The gain of a band by its type.  A bell has 1 at both ends and A^2 at its
  // frequency, where what is left of both polynomials is imaginary.  A low
  // shelf has A^2 at 0 Hz and 1 at half the rate.  A high shelf has the numerators
  // for 1 at 0 Hz and A^2 at half the rate, and its denominators exchanged.
  predicate GainsOf(kind: int, k: Coeffs, c: int, a: int) {
    if kind == 1 then
      && Above(k, 1) == Below(k, 1) == 2 * (Q27 - c)
      && Above(k, -1) == Below(k, -1) == 2 * (Q27 + c)
      && (k.b0 + k.b2) * c + k.b1 * Q27 == 0 == (k.a0 + k.a2) * c + k.a1 * Q27
      && Abs(Q27 * Q27 * (k.b0 - k.b2) - a * a * (k.a0 - k.a2)) <= Q27 * Q27 + 4 * (a * a)
    else if kind == 2 then ShelfSums(c, a, Above(k, -1), Below(k, -1), Above(k, 1), Below(k, 1))
    else ShelfSums(-c, a, Above(k, 1), Below(k, -1), Above(k, -1), Below(k, 1))
  }

  // Its width: what alpha makes of the ends of the two polynomials.  That of a
  // shelf stands there with 2 sqrt(A) alpha, and A times that above.
  predicate WidthOf(kind: int, k: Coeffs, alpha: int, a: int, sq: int) {
    if kind == 1 then
      && Abs(Q27 * (k.b0 - k.b2) - 2 * (alpha * a)) <= Q27
      && Abs(a * (k.a0 - k.a2) - 2 * (Q27 * alpha)) <= 4 * a
    else
      && Abs(Q27 * (k.b0 - k.b2) - a * (k.a0 - k.a2)) <= Q27
      && Abs(Q27 * (k.a0 - k.a2) - 4 * (sq * alpha)) <= Q27
  }

  lemma BellWidth(c: int, alpha: int, a: int)
    requires a > 0
    ensures var k := Bell(c, alpha, a);
            && Abs(Q27 * (k.b0 - k.b2) - 2 * (alpha * a)) <= Q27
            && Abs(a * (k.a0 - k.a2) - 2 * (Q27 * alpha)) <= 4 * a
  {
    hide Rnd, Div;
    RndBounds(alpha * a);
    DivError(alpha * Q27 + a / 2, a);
    var td := Div(alpha * Q27 + a / 2, a);
    assert a * (2 * td) == 2 * (td * a);
  }

  lemma ShelfWidth(b0: int, b2: int, a0: int, a2: int, a: int, p: int, q: int, ab: int, sq: int, alpha: int)
    requires b0 == Rnd(a * (p + ab)) && b2 == Rnd(a * (p - ab)) && a0 == q + ab && a2 == q - ab
    requires ab == Rnd(2 * sq * alpha)
    ensures Abs(Q27 * (b0 - b2) - a * (a0 - a2)) <= Q27 && Abs(Q27 * (a0 - a2) - 4 * (sq * alpha)) <= Q27
  {
    hide Rnd;
    RndBounds(a * (p + ab));
    RndBounds(a * (p - ab));
    RndBounds(2 * sq * alpha);
    assert a * (p + ab) == a * p + a * ab && a * (p - ab) == a * p - a * ab && a * (2 * ab) == 2 * (a * ab);
    assert 2 * sq * alpha == 2 * (sq * alpha);
  }

  lemma BandWidth(b: Band, fs: int)
    requires b.Accepted() && b.Active() && fs >= 32_000
    ensures Amplitude(b.gain) > 0
    ensures WidthOf(b.kind, Biquad(b, fs), Sin(AlphaAngle(Omega(b.freq, fs), b.q)), Amplitude(b.gain),
                    AmplitudeRoot(b.gain))
  {
    hide Amplitude, AmplitudeRoot, Omega, CosOf, AlphaAngle, Sin, Rnd, Bell;
    AmplitudeRange(b.gain);
    var w0 := Omega(b.freq, fs);
    OmegaRange(b.freq, fs);
    var c, alpha := CosOf(w0), Sin(AlphaAngle(w0, b.q));
    var a, sq, k := Amplitude(b.gain), AmplitudeRoot(b.gain), Biquad(b, fs);
    BellWidth(c, alpha, a);
    var Terms(cp0, cp1, ab) := ShelfTerms(c, alpha, a, sq);
    if b.kind == 2 {
      ShelfWidth(k.b0, k.b2, k.a0, k.a2, a, a + Q27 - cp0, a + Q27 + cp0, ab, sq, alpha);
    } else if b.kind == 3 {
      ShelfWidth(k.b0, k.b2, k.a0, k.a2, a, a + Q27 + cp0, a + Q27 - cp0, ab, sq, alpha);
    }
  }

  lemma BandGains(b: Band, fs: int)
    requires b.Accepted() && b.Active() && fs >= 32_000
    ensures Amplitude(b.gain) > 0
    ensures GainsOf(b.kind, Biquad(b, fs), CosOf(Omega(b.freq, fs)), Amplitude(b.gain))
  {
    hide Amplitude, AmplitudeRoot, Omega, CosOf, AlphaAngle, Sin, Bell, LowShelf, HighShelf, ShelfSums, Above, Below;
    AmplitudeRange(b.gain);
    var w0 := Omega(b.freq, fs);
    OmegaRange(b.freq, fs);
    var c, alpha := CosOf(w0), Sin(AlphaAngle(w0, b.q));
    var a, sq := Amplitude(b.gain), AmplitudeRoot(b.gain);
    BellGain(c, alpha, a);
    LowShelfGain(c, alpha, a, sq);
    HighShelfGain(c, alpha, a, sq);
  }

  // How far a high shelf is from the 0 dB that it should have at 0 Hz: by
  // 4 (A (1 - cos w0) - (1 + cos w0)), up to the rounding.
  function Excess(c: int, a: int): int { a * (Q27 - c) - Q27 * (Q27 + c) }

  lemma HighShelfAtZero(b: Band, fs: int)
    requires b.Accepted() && b.Active() && b.kind == 3 && fs >= 32_000
    ensures Amplitude(b.gain) > 0
    ensures var k, x := Biquad(b, fs), Excess(CosOf(Omega(b.freq, fs)), Amplitude(b.gain));
            Abs(Q27 * (Above(k, 1) - Below(k, 1)) - 4 * x) <= 3 * HALF
  {
    hide Amplitude, Biquad, Omega, CosOf, Above, Below;
    BandGains(b, fs);
  }

  // So it is flat there, to any number of units, if and only if the cosine of
  // its frequency is (A - 1) / (A + 1), to that many units and the rounding.
  lemma HighShelfIsFlatOnlyThere(b: Band, fs: int, n: nat)
    requires b.Accepted() && b.Active() && b.kind == 3 && fs >= 32_000
    ensures Amplitude(b.gain) > 0
    ensures var k, x := Biquad(b, fs), Excess(CosOf(Omega(b.freq, fs)), Amplitude(b.gain));
            && (Abs(Above(k, 1) - Below(k, 1)) <= n ==> 4 * Abs(x) <= (n + 2) * Q27)
            && (4 * Abs(x) <= n * Q27 ==> Abs(Above(k, 1) - Below(k, 1)) <= n + 1)
  {
    hide Amplitude, Biquad, Omega, CosOf, Above, Below, Excess;
    HighShelfAtZero(b, fs);
  }

  // Up to a thirty-second of the rate, 1.5 kHz at 48 kHz, a high shelf of any
  // gain cuts the lowest frequencies by more than 24 dB.
  lemma HighShelfCutsTheBass(b: Band, fs: int)
    requires b.Accepted() && b.Active() && b.kind == 3 && fs >= 32_000 && 32 * b.freq <= fs
    ensures Amplitude(b.gain) > 0
    ensures 16 * Abs(Above(Biquad(b, fs), 1)) < Below(Biquad(b, fs), 1)
  {
    hide Amplitude, Biquad, Omega, CosOf, Sine, Above, Below;
    BandGains(b, fs);
    AmplitudeRange(b.gain);
    OmegaRange(b.freq, fs);
    LowestAngles(b.freq, fs);
    var c, a := CosOf(Omega(b.freq, fs)), Amplitude(b.gain);
    CosineOfTheAngle(Omega(b.freq, fs), 0);
    CosineBounded(Omega(b.freq, fs));
    assert Cosine(0) == 1000 && Cosine(1) == 981 by { FirstCosines(); }
    ProductBound(a, Q27 - c, A_MAX, 29 * Q27 / 1000 + 1);
    assert a * (Q27 + -c) == a * (Q27 - c);
  }

  // +6 dB at 1 kHz and Q 0.71, at a rate of 48 kHz.
  lemma HighShelfForExample()
    ensures var b := Band(3, 1000, 71, 60);
            && b.Accepted() && b.Active() && Amplitude(b.gain) > 0
            && 16 * Abs(Above(Biquad(b, 48_000), 1)) < Below(Biquad(b, 48_000), 1)
  {
    hide Amplitude, Biquad, Above, Below;
    HighShelfCutsTheBass(Band(3, 1000, 71, 60), 48_000);
  }

  lemma FirstCosines()
    ensures Cosine(0) == 1000 && Cosine(1) == 981
  {
  }

  lemma CosineBounded(w0: int)
    ensures Abs(CosOf(w0)) <= LIMIT
  {
    hide Cos, Sin;
    SinCosBounded(Reduced(w0));
  }

  lemma LowestAngles(freq: int, fs: int)
    requires 0 <= freq <= 20_000 && fs >= 32_000 && 32 * freq <= fs
    ensures 0 <= 8 * Omega(freq, fs) <= HALF_PI
  {
    var x := Div(freq * Q27, fs);
    OmegaRange(freq, fs);
    DivBounds(freq * Q27, fs);
    QuotientsInOrder(freq * Q27, 0x40_0000 * fs, fs, x, 0x40_0000);
  }

  // --------------------------------------------------------- the stored words

  // What the device makes of five words, in 54 bits: c4 (1 + c2 / z + c3 / z^2)
  // over 1 + c0 / z + c1 / z^2, where s stands for 1 / z and t for 1 / z^2.
  function WordsAbove(w: Words, s: int, t: int): int { w.w4 * (Q27 + s * w.w2 + t * w.w3) }

  function WordsBelow(w: Words, s: int, t: int): int { Q27 * (Q27 + s * w.w0 + t * w.w1) }

  predicate IsSign(s: int) { -1 <= s <= 1 }

  lemma SignedWord(n: int, d: int, s: int)
    requires IsSign(s) && d > 1 && Abs(n) <= 15 * d
    ensures 2 * Abs(s * Word(n, d) * d - Q27 * (s * n)) <= 3 * d && Abs(s * n) <= 15 * d
  {
    hide Word;
    WordAccuracy(n, d);
    if s == 1 {
    } else if s == 0 {
    } else {
      Negated(Word(n, d), d);
    }
  }

  lemma Negated(w: int, d: int)
    ensures -1 * w * d == -(w * d)
  {
  }

  // The two words of a polynomial are its quotients to three units.
  lemma QuotientSum(n0: int, n1: int, n2: int, s: int, t: int)
    requires IsSign(s) && IsSign(t) && n0 > 1 && Abs(n1) <= 15 * n0 && Abs(n2) <= 15 * n0
    ensures var u := Q27 + s * Word(n1, n0) + t * Word(n2, n0);
            && Abs(u * n0 - Q27 * (n0 + s * n1 + t * n2)) <= 3 * n0
            && Abs(u) <= 31 * Q27 + 3
  {
    hide Word, IsSign;
    SignedWord(n1, n0, s);
    SignedWord(n2, n0, t);
    SumOfWords(n0, s * n1, t * n2, s * Word(n1, n0), t * Word(n2, n0));
  }

  lemma SumOfWords(n0: int, m1: int, m2: int, p: int, q: int)
    requires n0 > 1 && Abs(m1) <= 15 * n0 && Abs(m2) <= 15 * n0
    requires 2 * Abs(p * n0 - Q27 * m1) <= 3 * n0 && 2 * Abs(q * n0 - Q27 * m2) <= 3 * n0
    ensures Abs((Q27 + p + q) * n0 - Q27 * (n0 + m1 + m2)) <= 3 * n0
    ensures Abs(Q27 + p + q) <= 31 * Q27 + 3
  {
    SumTimesThree(Q27, p, q, n0);
    var x, y := p * n0 - Q27 * m1, q * n0 - Q27 * m2;
    assert (Q27 + p + q) * n0 == Q27 * (n0 + m1 + m2) + (x + y);
    SizeOfSum(n0, n0 + m1 + m2, x + y);
    Quotient(Q27 + p + q, n0, 31 * Q27 + 3);
  }

  lemma SizeOfSum(n0: int, k: int, r: int)
    requires Abs(k) <= 31 * n0 && Abs(r) <= 3 * n0
    ensures Abs(Q27 * k + r) <= n0 * (31 * Q27 + 3)
  {
    assert Abs(Q27 * k) <= Q27 * (31 * n0);
  }

  lemma SumTimesThree(o: int, p: int, q: int, n: int)
    ensures (o + p + q) * n == n * (o + p + q) == o * n + p * n + q * n
  {
  }

  lemma Times(n: int, m: int)
    ensures n * m == m * n
  {
  }

  lemma WordsBelowAre(k: Coeffs, s: int, t: int)
    requires Sound(k) && IsSign(s) && IsSign(t)
    ensures Abs(WordsBelow(WordsOf(k), s, t) * k.a0 - Q27 * Q27 * (k.a0 + s * k.a1 + t * k.a2)) <= 3 * (Q27 * k.a0)
  {
    hide Word, IsSign;
    QuotientSum(k.a0, k.a1, k.a2, s, t);
    BelowParts(Q27 + s * Word(k.a1, k.a0) + t * Word(k.a2, k.a0), k.a0, k.a0 + s * k.a1 + t * k.a2);
  }

  lemma BelowParts(u: int, a0: int, d: int)
    requires Abs(u * a0 - Q27 * d) <= 3 * a0
    ensures Abs(Q27 * u * a0 - Q27 * Q27 * d) <= 3 * (Q27 * a0)
  {
    assert Q27 * u * a0 == Q27 * (u * a0);
  }

  lemma WordsAboveAre(k: Coeffs, s: int, t: int)
    requires Sound(k) && IsSign(s) && IsSign(t)
    ensures Abs(WordsAbove(WordsOf(k), s, t) * k.a0 - Q27 * Q27 * (k.b0 + s * k.b1 + t * k.b2)) <= 64 * (Q27 * k.a0)
  {
    hide Word, IsSign;
    QuotientSum(k.b0, k.b1, k.b2, s, t);
    WordAccuracy(k.b0, k.a0);
    var u, v := Q27 + s * Word(k.b1, k.b0) + t * Word(k.b2, k.b0), Word(k.b0, k.a0);
    ScaledWords(u, v, k.a0, k.b0, k.b0 + s * k.b1 + t * k.b2);
  }

  lemma ScaledWords(u: int, v: int, a0: int, b0: int, n: int)
    requires a0 > 0 && 0 < b0 <= 16 * a0 && Abs(u * b0 - Q27 * n) <= 3 * b0 && Abs(u) <= 31 * Q27 + 3
    requires 2 * Abs(v * a0 - b0 * Q27) <= a0
    ensures Abs(v * u * a0 - Q27 * Q27 * n) <= 64 * (Q27 * a0)
  {
    var e := v * a0 - b0 * Q27;
    ProductBound(2 * e, u, a0, 31 * Q27 + 3);
    WordsTimes(u, v, a0, b0, e);
    Times(a0, 31 * Q27 + 3);
  }

  lemma WordsTimes(u: int, v: int, a0: int, b0: int, e: int)
    requires v * a0 == b0 * Q27 + e
    ensures v * u * a0 == Q27 * (u * b0) + e * u && 2 * e * u == 2 * (e * u)
  {
    assert v * u * a0 == (v * a0) * u;
    assert (b0 * Q27 + e) * u == b0 * Q27 * u + e * u;
  }

  // The two are the same, to 118 units of 2^27 where 1 is 2^54, or so is the
  // first A^2 times the second.
  predicate One(above: int, below: int) { Abs(above - below) <= 118 * Q27 }

  predicate Squared(a: int, above: int, below: int) {
    Abs(Q27 * Q27 * above - a * a * below) <= 1210 * (Q27 * Q27 * Q27)
  }

  lemma OneOfWords(n: int, d: int, above: int, below: int, a0: int)
    requires a0 >= 8_000_000 && Abs(n - d) <= 3
    requires Abs(above * a0 - Q27 * Q27 * n) <= 64 * (Q27 * a0) && Abs(below * a0 - Q27 * Q27 * d) <= 3 * (Q27 * a0)
    ensures One(above, below)
  {
    assert a0 * (above - below) == above * a0 - below * a0;
    Quotient(above - below, a0, 118 * Q27);
  }

  lemma SquaredOfWords(a: int, n: int, d: int, above: int, below: int, a0: int)
    requires a0 >= 8_000_000 && 0 < a <= A_MAX && Abs(Q27 * Q27 * n - a * a * d) <= 65 * (Q27 * Q27)
    requires Abs(above * a0 - Q27 * Q27 * n) <= 64 * (Q27 * a0) && Abs(below * a0 - Q27 * Q27 * d) <= 3 * (Q27 * a0)
    ensures Squared(a, above, below)
  {
    var e, f := above * a0 - Q27 * Q27 * n, below * a0 - Q27 * Q27 * d;
    MulMonoBoth(a, 4 * Q27, a, 4 * Q27);
    ProductBound(a * a, f, 16 * (Q27 * Q27), 3 * (Q27 * a0));
    var x := Q27 * Q27 * above - a * a * below;
    SquaredParts(a, n, d, above, below, a0, f);
    Quotient(x, a0, 1210 * (Q27 * Q27 * Q27));
  }

  lemma SquaredParts(a: int, n: int, d: int, above: int, below: int, a0: int, f: int)
    requires below * a0 == Q27 * Q27 * d + f
    ensures a0 * (Q27 * Q27 * above - a * a * below) == Q27 * Q27 * (above * a0) - Q27 * Q27 * (a * a * d) - a * a * f
  {
    var aa := a * a;
    assert a0 * (Q27 * Q27 * above - aa * below) == Q27 * Q27 * (above * a0) - aa * (below * a0);
    assert aa * (Q27 * Q27 * d + f) == Q27 * Q27 * (aa * d) + aa * f;
  }

  // The gain that the words of a band give, by its type: an inactive one none at
  // all, a bell 0 dB at both ends and its gain in the middle, a low shelf its gain
  // at 0 Hz and 0 dB at half the rate.  The numerators of a high shelf are those
  // of 0 dB at 0 Hz and of its gain at half the rate for denominators that
  // belong to the other end.
  lemma WordsGiveTheGain(b: Band, fs: int)
    requires b.Accepted() && fs >= 32_000
    ensures Amplitude(b.gain) > 0
    ensures var w, a := BandWords(b, fs), Amplitude(b.gain);
            if !b.Active() then forall s, t :: WordsAbove(w, s, t) == WordsBelow(w, s, t)
            else if b.kind == 1 then
              && One(WordsAbove(w, 1, 1), WordsBelow(w, 1, 1)) && One(WordsAbove(w, -1, 1), WordsBelow(w, -1, 1))
              && Squared(a, WordsAbove(w, 0, -1), WordsBelow(w, 0, -1))
            else if b.kind == 2 then
              && Squared(a, WordsAbove(w, 1, 1), WordsBelow(w, 1, 1)) && One(WordsAbove(w, -1, 1), WordsBelow(w, -1, 1))
            else
              && One(WordsAbove(w, 1, 1), WordsBelow(w, -1, 1)) && Squared(a, WordsAbove(w, -1, 1), WordsBelow(w, 1, 1))
  {
    hide Amplitude, Biquad, Omega, CosOf, Word, One, Squared, WordsAbove, WordsBelow, WordsOf;
    AmplitudeRange(b.gain);
    if b.Active() {
      BandGains(b, fs);
      BiquadIsSound(b, fs);
      var k, a := Biquad(b, fs), Amplitude(b.gain);
      ActiveWords(k, b.kind, CosOf(Omega(b.freq, fs)), a);
    } else {
      Identity();
    }
  }

  lemma Identity()
    ensures forall s, t :: WordsAbove(IDENTITY, s, t) == WordsBelow(IDENTITY, s, t)
  {
  }

  lemma ActiveWords(k: Coeffs, kind: int, c: int, a: int)
    requires Sound(k) && A_MIN <= a <= A_MAX && GainsOf(kind, k, c, a)
    ensures var w := WordsOf(k);
            if kind == 1 then
              && One(WordsAbove(w, 1, 1), WordsBelow(w, 1, 1)) && One(WordsAbove(w, -1, 1), WordsBelow(w, -1, 1))
              && Squared(a, WordsAbove(w, 0, -1), WordsBelow(w, 0, -1))
            else if kind == 2 then
              && Squared(a, WordsAbove(w, 1, 1), WordsBelow(w, 1, 1)) && One(WordsAbove(w, -1, 1), WordsBelow(w, -1, 1))
            else
              && One(WordsAbove(w, 1, 1), WordsBelow(w, -1, 1)) && Squared(a, WordsAbove(w, -1, 1), WordsBelow(w, 1, 1))
  {
    hide Word, One, Squared, WordsAbove, WordsBelow, WordsOf, Sound, Above, Below, ShelfSums;
    MulMonoBoth(a, A_MAX, a, A_MAX);
    if kind == 1 {
      OneAtEnds(k, 1, 1);
      OneAtEnds(k, -1, -1);
      MiddleOfWords(k, a);
    } else if kind == 2 {
      OneOfShelf(c, k, a, -1, -1, 1, 1);
      SquaredAtEnds(k, a, 1, 1);
      OneAtEnds(k, -1, -1);
    } else {
      OneOfShelf(-c, k, a, 1, -1, -1, 1);
      OneAtEnds(k, 1, -1);
      SquaredAtEnds(k, a, -1, 1);
    }
  }

  lemma OneOfShelf(c: int, k: Coeffs, a: int, r: int, s: int, t: int, u: int)
    requires A_MIN <= a <= A_MAX && ShelfSums(c, a, Above(k, r), Below(k, s), Above(k, t), Below(k, u))
    ensures Abs(Above(k, r) - Below(k, s)) <= 3
    ensures Abs(Q27 * Q27 * Above(k, t) - a * a * Below(k, u)) <= 65 * (Q27 * Q27)
  {
    hide Above, Below;
  }

  lemma OneAtEnds(k: Coeffs, s: int, t: int)
    requires Sound(k) && (s == 1 || s == -1) && (t == 1 || t == -1) && Abs(Above(k, s) - Below(k, t)) <= 3
    ensures One(WordsAbove(WordsOf(k), s, 1), WordsBelow(WordsOf(k), t, 1))
  {
    hide Word, One, WordsAbove, WordsBelow, WordsOf;
    WordsAboveAre(k, s, 1);
    WordsBelowAre(k, t, 1);
    OneOfWords(Above(k, s), Below(k, t), WordsAbove(WordsOf(k), s, 1), WordsBelow(WordsOf(k), t, 1), k.a0);
  }

  lemma SquaredAtEnds(k: Coeffs, a: int, s: int, t: int)
    requires Sound(k) && (s == 1 || s == -1) && (t == 1 || t == -1) && A_MIN <= a <= A_MAX
    requires Abs(Q27 * Q27 * Above(k, s) - a * a * Below(k, t)) <= 65 * (Q27 * Q27)
    ensures Squared(a, WordsAbove(WordsOf(k), s, 1), WordsBelow(WordsOf(k), t, 1))
  {
    hide Word, Squared, WordsAbove, WordsBelow, WordsOf;
    WordsAboveAre(k, s, 1);
    WordsBelowAre(k, t, 1);
    SquaredOfWords(a, Above(k, s), Below(k, t), WordsAbove(WordsOf(k), s, 1), WordsBelow(WordsOf(k), t, 1), k.a0);
  }

  lemma MiddleOfWords(k: Coeffs, a: int)
    requires Sound(k) && A_MIN <= a <= A_MAX
    requires Abs(Q27 * Q27 * (k.b0 - k.b2) - a * a * (k.a0 - k.a2)) <= 65 * (Q27 * Q27)
    ensures Squared(a, WordsAbove(WordsOf(k), 0, -1), WordsBelow(WordsOf(k), 0, -1))
  {
    hide Word, Squared, WordsAbove, WordsBelow, WordsOf;
    WordsAboveAre(k, 0, -1);
    WordsBelowAre(k, 0, -1);
    SquaredOfWords(a, k.b0 - k.b2, k.a0 - k.a2, WordsAbove(WordsOf(k), 0, -1), WordsBelow(WordsOf(k), 0, -1), k.a0);
  }
}
