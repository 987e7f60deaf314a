/** The sine and cosine of the equalizer: 28 steps of CORDIC in fixed point
    with 27 fraction bits. */
module Cordic {
  import opened Arith

  const Q27 := 0x800_0000
  const STEPS := 28

  // bf_atan_tab: atan(2^-i)
  function Atan(i: nat): int {
    match i
    case 0 => 0x6487ED5 case 1 => 0x3B58CE1 case 2 => 0x1F5B760 case 3 => 0xFEADD5
    case 4 => 0x7FD56F case 5 => 0x3FFAAB case 6 => 0x1FFF55 case 7 => 0xFFFEB
    case 8 => 0x7FFFD case 9 => 0x40000 case 10 => 0x20000 case 11 => 0x10000
    case 12 => 0x8000 case 13 => 0x4000 case 14 => 0x2000 case 15 => 0x1000
    case 16 => 0x800 case 17 => 0x400 case 18 => 0x200 case 19 => 0x100
    case 20 => 0x80 case 21 => 0x40 case 22 => 0x20 case 23 => 0x10
    case 24 => 0x8 case 25 => 0x4 case 26 => 0x2
    case _ => 0x1
  }

  const ATAN: seq<int> := seq(STEPS, i requires 0 <= i < STEPS => Atan(i))

  newtype S64 = v: int | -0x8000_0000_0000_0000 <= v < 0x8000_0000_0000_0000

  const PI := 0x1921FB54
  const HALF_PI := 0xC90FDAA

  // 1 / 1.64676, the gain of the rotations
  const GAIN := 0x4DBA76D

  // >> of a signed value: rounds down.
  function Shr(a: int, n: nat): int { a / Pow2(n) }

  function Sign(z: int): int { if z >= 0 then 1 else -1 }

  // ------------------------------------------------------------ convergence

  // The entries from i on.
  function Rest(table: seq<int>, i: nat): int
    requires i <= |table|
    decreases |table| - i
  {
    if i == |table| then 0 else table[i] + Rest(table, i + 1)
  }

  // What is left of the angle z once every entry from i on was added to it or
  // taken away from it.
  function Residual(table: seq<int>, i: nat, z: int): int
    requires i <= |table|
    decreases |table| - i
  {
    if i == |table| then z else Residual(table, i + 1, z - Sign(z) * table[i])
  }

  // No entry is larger than all later ones together plus the last.
  predicate Converges(table: seq<int>, last: int) {
    forall i :: 0 <= i < |table| ==> 0 <= table[i] <= Rest(table, i + 1) + last
  }

  // The loop brings every angle within the sum of the table to at most the
  // last entry.
  lemma {:induction false} CordicConverges(table: seq<int>, last: int, i: nat, z: int)
    requires Converges(table, last) && i <= |table|
    requires Abs(z) <= Rest(table, i) + last
    ensures Abs(Residual(table, i, z)) <= last
    decreases |table| - i
  {
    if i < |table| {
      assert 0 <= table[i] <= Rest(table, i + 1) + last;
      CordicConverges(table, last, i + 1, z - Sign(z) * table[i]);
    }
  }

  // ------------------------------------------------------------- rotations

  datatype Vec = Vec(x: int, y: int, z: int)

  function Step(v: Vec, i: nat): Vec
    requires i < STEPS
  {
    var d := Sign(v.z);
    Vec(v.x - d * Shr(v.y, i), v.y + d * Shr(v.x, i), v.z - d * Atan(i))
  }

  // The steps from i on.
  function Rotate(v: Vec, i: nat): Vec
    requires i <= STEPS
    decreases STEPS - i
  {
    if i == STEPS then v else Rotate(Step(v, i), i + 1)
  }

  const START := Vec(GAIN, 0, 0)

  function Sin(angle: int): int { Rotate(START.(z := angle), 0).y }

  function Cos(angle: int): int { Rotate(START.(z := angle), 0).x }

  // The sums of the driver's table.
  function RestAt(i: nat): int {
    match i
    case 0 => 0xDF24041 case 1 => 0x7A9C16C case 2 => 0x3F4348B case 3 => 0x1FE7D2B
    case 4 => 0xFFCF56 case 5 => 0x7FF9E7 case 6 => 0x3FFF3C case 7 => 0x1FFFE7
    case 8 => 0xFFFFC case 9 => 0x7FFFF case 10 => 0x3FFFF case 11 => 0x1FFFF
    case 12 => 0xFFFF case 13 => 0x7FFF case 14 => 0x3FFF case 15 => 0x1FFF
    case 16 => 0xFFF case 17 => 0x7FF case 18 => 0x3FF case 19 => 0x1FF
    case 20 => 0xFF case 21 => 0x7F case 22 => 0x3F case 23 => 0x1F
    case 24 => 0xF case 25 => 0x7 case 26 => 0x3 case 27 => 0x1
    case _ => 0x0
  }

  lemma RestStep(i: nat)
    requires i < STEPS
    ensures RestAt(i) == Atan(i) + RestAt(i + 1)
    ensures 0 < Atan(i) <= RestAt(i + 1) + 1
  {
  }

  lemma {:induction false} RestOfTable(i: nat)
    requires i <= STEPS
    ensures Rest(ATAN, i) == RestAt(i)
    decreases STEPS - i
  {
    if i < STEPS {
      RestStep(i);
      RestOfTable(i + 1);
    }
  }

  lemma TableConverges()
    ensures Converges(ATAN, Atan(STEPS - 1))
    ensures Rest(ATAN, 0) >= HALF_PI
  {
    hide Atan, RestAt;
    forall i | 0 <= i < STEPS
      ensures 0 <= ATAN[i] <= Rest(ATAN, i + 1) + Atan(STEPS - 1)
    {
      RestStep(i);
      RestOfTable(i + 1);
      assert Atan(27) == 1 by { LastEntry(); }
    }
    RestOfTable(0);
    LastEntry();
  }

  lemma LastEntry()
    ensures Atan(27) == 1 && RestAt(0) >= HALF_PI && RestAt(28) == 0
  {
  }

  // ------------------------------------------------- the length of the vector

  // What |sin| and |cos| stay below.
  const LIMIT := Q27 + 128

  function Norm(v: Vec): int { v.x * v.x + v.y * v.y }

  lemma ProductBound(u: int, v: int, mu: nat, mv: nat)
    requires Abs(u) <= mu && Abs(v) <= mv
    ensures Abs(u * v) <= mu * mv
  {
    MulMono(Abs(u), mu, Abs(v));
    MulMono(Abs(v), mv, mu);
    assert Abs(u * v) == Abs(u) * Abs(v);
  }

  // y shifted right by the bits of p: the multiple pa = p * (y / p), and the
  // rest r that the shift drops.
  lemma ShiftedSquare(y: int, pa: int, r: int, p: nat, m: nat)
    requires y == pa + r && 0 <= r < p && Abs(y) <= m
    ensures y * y - 2 * (m * p) <= pa * pa <= y * y + 2 * (m * p) + p * p
    ensures Abs(pa) <= m + p
  {
    ProductBound(y, r, m, p);
    ProductBound(r, r, p, p);
    MulMono(0, r, r);
    SquareOfDifference(y, r, pa);
    SquareParts(pa * pa, y * y, y * r, r * r, m * p, p * p);
  }

  lemma SquareParts(dd: int, yy: int, yr: int, rr: int, mp: int, pp: int)
    requires dd == yy - 2 * yr + rr && Abs(yr) <= mp && 0 <= rr <= pp
    ensures yy - 2 * mp <= dd <= yy + 2 * mp + pp
  {
  }

  lemma SquareOfDifference(y: int, r: int, d: int)
    requires d == y - r
    ensures d * d == y * y - 2 * (y * r) + r * r
  {
  }

  // The shifted halves of a rotation: x and y with a = y >> and b = x >>.
  datatype Halves = Halves(p: nat, x: int, b: int, pb: int, rb: int, y: int, a: int, pa: int, ra: int)
  {
    predicate Shifts() {
      && p >= 1 && pa == p * a && pb == p * b
      && y == pa + ra && x == pb + rb
      && 0 <= ra < p && 0 <= rb < p
    }
  }

  lemma CrossTerm(h: Halves, m: nat)
    requires h.Shifts() && Abs(h.x) <= m && Abs(h.y) <= m
    ensures Abs(h.y * h.b - h.x * h.a) <= 2 * (m + h.p)
  {
    CrossIdentity(h);
    ShiftedSquare(h.x, h.pb, h.rb, h.p, m);
    ShiftedSquare(h.y, h.pa, h.ra, h.p, m);
    CrossBound(h.ra, h.rb, h.pa, h.pb, h.p, m + h.p);
    Quotient(h.y * h.b - h.x * h.a, h.p, 2 * (m + h.p));
  }

  lemma CrossBound(ra: int, rb: int, pa: int, pb: int, p: nat, k: nat)
    requires 0 <= ra < p && 0 <= rb < p && Abs(pa) <= k && Abs(pb) <= k
    ensures Abs(ra * pb - rb * pa) <= p * (2 * k)
  {
    ProductBound(ra, pb, p, k);
    ProductBound(rb, pa, p, k);
    Difference(ra * pb, rb * pa, p * k);
    Twice(p, k);
  }

  lemma Difference(s: int, t: int, bound: nat)
    requires Abs(s) <= bound && Abs(t) <= bound
    ensures Abs(s - t) <= 2 * bound
  {
  }

  lemma Twice(p: nat, k: nat)
    ensures p * (2 * k) == 2 * (p * k)
  {
  }

  lemma SumTimes(u: int, v: int, b: int)
    ensures (u + v) * b == u * b + v * b
  {
  }

  lemma TimesDifference(p: int, u: int, v: int)
    ensures p * (u - v) == p * u - p * v
  {
  }

  lemma Exchanged(p: int, r: int, b: int)
    ensures p * (r * b) == r * (p * b) && (p * r) * b == (p * b) * r
  {
  }

  lemma CrossDifference(h: Halves)
    requires h.Shifts()
    ensures h.y * h.b - h.x * h.a == h.ra * h.b - h.rb * h.a
  {
    SumTimes(h.pa, h.ra, h.b);
    SumTimes(h.pb, h.rb, h.a);
    Exchanged(h.p, h.a, h.b);
  }

  lemma CrossTimes(p: int, ra: int, rb: int, a: int, b: int)
    ensures p * (ra * b - rb * a) == ra * (p * b) - rb * (p * a)
  {
    TimesDifference(p, ra * b, rb * a);
    Exchanged(p, ra, b);
    Exchanged(p, rb, a);
  }

  lemma CrossIdentity(h: Halves)
    requires h.Shifts()
    ensures h.p * (h.y * h.b - h.x * h.a) == h.ra * h.pb - h.rb * h.pa
  {
    CrossDifference(h);
    CrossTimes(h.p, h.ra, h.rb, h.a, h.b);
  }

  lemma Quotient(c: int, p: nat, bound: nat)
    requires p >= 1 && Abs(p * c) <= p * bound
    ensures Abs(c) <= bound
  {
    if c > bound {
      MulMonoStrict(bound, c, p);
    } else if -c > bound {
      MulMonoStrict(bound, -c, p);
      assert p * c == -(p * -c);
    }
  }

  // One rotation: the squares grow by 1 + 1/p^2 and by what the shifts drop.
  lemma RotatedNorm(h: Halves, d: int, m: nat)
    requires h.Shifts() && Abs(h.x) <= m && Abs(h.y) <= m
    requires d == 1 || d == -1
    ensures var p, x', y' := h.p, h.x - d * h.a, h.y + d * h.b;
            && p * p * (x' * x' + y' * y') <=
                 (p * p + 1) * (h.x * h.x + h.y * h.y) + p * p * (4 * (m + p)) + 4 * (m * p) + 2 * (p * p)
            && (p * p + 1) * (h.x * h.x + h.y * h.y) <=
                 p * p * (x' * x' + y' * y') + p * p * (4 * (m + p)) + 4 * (m * p)
  {
    ShiftedSquare(h.x, h.pb, h.rb, h.p, m);
    ShiftedSquare(h.y, h.pa, h.ra, h.p, m);
    CrossTerm(h, m);
    RotatedSquares(h.x, h.y, h.a, h.b, d);
    var cross := h.y * h.b - h.x * h.a;
    Signed(d, cross, 2 * (m + h.p));
    var x', y' := h.x - d * h.a, h.y + d * h.b;
    Scale(h.p, h, h.x * h.x + h.y * h.y, x' * x' + y' * y', 2 * d * cross, m);
  }

  lemma Signed(d: int, c: int, bound: nat)
    requires (d == 1 || d == -1) && Abs(c) <= bound
    ensures Abs(2 * d * c) <= 2 * bound
  {
  }

  lemma RotatedSquares(x: int, y: int, a: int, b: int, d: int)
    requires d == 1 || d == -1
    ensures (x - d * a) * (x - d * a) + (y + d * b) * (y + d * b) ==
            x * x + y * y + (a * a + b * b) + 2 * d * (y * b - x * a)
  {
    if d == 1 {
      assert (x - a) * (x - a) == x * x - 2 * (x * a) + a * a;
      assert (y + b) * (y + b) == y * y + 2 * (y * b) + b * b;
    } else {
      assert (x + a) * (x + a) == x * x + 2 * (x * a) + a * a;
      assert (y - b) * (y - b) == y * y - 2 * (y * b) + b * b;
    }
  }

  lemma Scale(p: nat, h: Halves, n: int, n': int, c: int, m: nat)
    requires h.Shifts() && h.p == p
    requires n' == n + (h.a * h.a + h.b * h.b) + c && Abs(c) <= 4 * (m + p)
    requires n - 4 * (m * p) <= h.pa * h.pa + h.pb * h.pb <= n + 4 * (m * p) + 2 * (p * p)
    ensures p * p * n' <= (p * p + 1) * n + p * p * (4 * (m + p)) + 4 * (m * p) + 2 * (p * p)
    ensures (p * p + 1) * n <= p * p * n' + p * p * (4 * (m + p)) + 4 * (m * p)
  {
    SquareOfProduct(p, h.a, h.pa);
    SquareOfProduct(p, h.b, h.pb);
    ScaledSum(p * p, n, n', h.a * h.a, h.b * h.b, c);
    ScaledBound(p * p, c, 4 * (m + p));
    ScaleParts(p * p * n', p * p * n, (p * p + 1) * n, n, p * p * (h.a * h.a) + p * p * (h.b * h.b), p * p * c,
               p * p * (4 * (m + p)), 4 * (m * p), 2 * (p * p));
  }

  lemma ScaledBound(q: nat, c: int, bound: int)
    requires Abs(c) <= bound
    ensures Abs(q * c) <= q * bound
  {
    MulMono(c, bound, q);
    MulMono(-bound, c, q);
  }

  lemma ScaleParts(qn': int, qn: int, q1n: int, n: int, halves: int, qc: int, qe: int, lost: int, rest: int)
    requires qn' == qn + halves + qc && q1n == qn + n && Abs(qc) <= qe
    requires n - lost <= halves <= n + lost + rest
    ensures qn' <= q1n + qe + lost + rest && q1n <= qn' + qe + lost
  {
  }

  lemma SquareOfProduct(p: int, a: int, pa: int)
    requires pa == p * a
    ensures pa * pa == p * p * (a * a)
  {
  }

  lemma ScaledSum(q: int, n: int, n': int, aa: int, bb: int, c: int)
    requires n' == n + (aa + bb) + c
    ensures q * n' == q * n + q * aa + q * bb + q * c
    ensures (q + 1) * n == q * n + n
  {
  }

  // A bound of the squares after i rotations.
  function NormBound(i: nat): int {
    match i
    case 0 => 0x1799B349FD6469 case 1 => 0x2F3366D3FACCD8 case 2 => 0x3B0040B8F98318 case 3 => 0x3EB044EC891DDC
    case 4 => 0x3FAB06243B44B6 case 5 => 0x3FEAB14C5F825D case 6 => 0x3FFAAC19B29CD0 case 7 => 0x3FFEABE4F43B04
    case 8 => 0x3FFFABFFE3D2DB case 9 => 0x3FFFEC1FAFD8C3 case 10 => 0x3FFFFC3FBAEAB2 case 11 => 0x4000005FC2C0B1
    case 12 => 0x4000017FC6E433 case 13 => 0x400001DFC927B5 case 14 => 0x4000020FCAAA30 case 15 => 0x40000233CC2C54
    case 16 => 0x40000254CE6E5F case 17 => 0x40000275129064 case 18 => 0x400002952AA267 case 19 => 0x400002B53EAC6A
    case 20 => 0x400002D55FB26D case 21 => 0x400002F59FF670 case 22 => 0x40000316200973 case 23 => 0x40000337200FF6
    case 24 => 0x40000359201339 case 25 => 0x4000037D20159C case 26 => 0x400003A52017BF case 27 => 0x400003D52019CE
    case _ => 0x40000415201BD6
  }

  function ShiftAt(i: nat): nat {
    match i
    case 0 => 0x1 case 1 => 0x2 case 2 => 0x4 case 3 => 0x8
    case 4 => 0x10 case 5 => 0x20 case 6 => 0x40 case 7 => 0x80
    case 8 => 0x100 case 9 => 0x200 case 10 => 0x400 case 11 => 0x800
    case 12 => 0x1000 case 13 => 0x2000 case 14 => 0x4000 case 15 => 0x8000
    case 16 => 0x1_0000 case 17 => 0x2_0000 case 18 => 0x4_0000 case 19 => 0x8_0000
    case 20 => 0x10_0000 case 21 => 0x20_0000 case 22 => 0x40_0000 case 23 => 0x80_0000
    case 24 => 0x100_0000 case 25 => 0x200_0000 case 26 => 0x400_0000
    case _ => 0x800_0000
  }

  lemma {:induction false} ShiftIsPow2(i: nat)
    requires i < STEPS
    ensures Pow2(i) == ShiftAt(i)
  {
    if i > 0 {
      ShiftIsPow2(i - 1);
    }
  }

  lemma NormBoundStep(i: nat)
    requires i < STEPS
    ensures var p := ShiftAt(i);
            (p * p + 1) * NormBound(i) + p * p * (4 * (LIMIT + p)) + 4 * (LIMIT * p) + 2 * (p * p)
              <= p * p * NormBound(i + 1)
    ensures NormBound(i) <= NormBound(i + 1) <= LIMIT * LIMIT
  {
  }

  lemma LengthOf(v: Vec, i: nat)
    requires i <= STEPS && Norm(v) <= NormBound(i)
    ensures Abs(v.x) <= LIMIT && Abs(v.y) <= LIMIT
  {
    hide NormBound;
    if i < STEPS {
      NormBoundStep(i);
    } else {
      NormBoundStep(STEPS - 1);
    }
    SquareBelow(v.x, v.y, LIMIT);
    SquareBelow(v.y, v.x, LIMIT);
  }

  lemma SquareBelow(a: int, b: int, m: nat)
    requires a * a + b * b <= m * m
    ensures Abs(a) <= m
  {
    assert b * b >= 0;
    if Abs(a) > m {
      MulMonoStrict(m, Abs(a), Abs(a));
      MulMono(m, Abs(a), m);
    }
  }

  function HalvesOf(v: Vec, p: nat): Halves
    requires p >= 1
  {
    var a, b := v.y / p, v.x / p;
    Halves(p, v.x, b, p * b, v.x - p * b, v.y, a, p * a, v.y - p * a)
  }

  lemma HalvesShift(v: Vec, p: nat)
    requires p >= 1
    ensures HalvesOf(v, p).Shifts()
  {
  }

  lemma StepKeepsLength(v: Vec, i: nat)
    requires i < STEPS && Norm(v) <= NormBound(i)
    ensures Norm(Step(v, i)) <= NormBound(i + 1)
  {
    hide NormBound, ShiftAt, Atan, Pow2, Sign;
    LengthOf(v, i);
    ShiftIsPow2(i);
    var p := ShiftAt(i);
    HalvesShift(v, p);
    RotatedNorm(HalvesOf(v, p), Sign(v.z), LIMIT) by { SignIsUnit(v.z); }
    NormBoundStep(i);
    Cancel(p * p, Norm(v), NormBound(i), Norm(Step(v, i)), NormBound(i + 1),
           p * p * (4 * (LIMIT + p)) + 4 * (LIMIT * p) + 2 * (p * p));
  }

  lemma SignIsUnit(z: int)
    ensures Sign(z) == 1 || Sign(z) == -1
  {
  }

  lemma Cancel(q: nat, n: int, b: int, n': int, b': int, e: int)
    requires q >= 1 && n <= b
    requires q * n' <= (q + 1) * n + e && (q + 1) * b + e <= q * b'
    ensures n' <= b'
  {
    MulMono(n, b, q + 1);
    if n' > b' {
      MulMonoStrict(b', n', q);
    }
  }

  lemma {:induction false} RotateKeepsLength(v: Vec, i: nat)
    requires i <= STEPS && Norm(v) <= NormBound(i)
    ensures Norm(Rotate(v, i)) <= NormBound(STEPS)
    decreases STEPS - i
  {
    hide NormBound, Step, Norm;
    if i < STEPS {
      StepKeepsLength(v, i);
      RotateKeepsLength(Step(v, i), i + 1);
    }
  }

  // The results are a sine and a cosine to within 128 units in the last place.
  lemma SinCosBounded(angle: int)
    ensures Abs(Sin(angle)) <= LIMIT && Abs(Cos(angle)) <= LIMIT
  {
    hide Step;
    var v := START.(z := angle);
    assert Norm(v) <= NormBound(0);
    RotateKeepsLength(v, 0);
    LengthOf(Rotate(v, 0), STEPS);
  }

  // The squares never fall below these: the shifts drop no more than that.
  function NormFloor(i: nat): int {
    match i
    case 0 => 0x1799B349FD6469 case 1 => 0x2F336653FAC4CE case 2 => 0x3B003FB8F972F9 case 3 => 0x3EB0438C890798
    case 4 => 0x3FAB0476BB2956 case 5 => 0x3FEAAF5931E21F case 6 => 0x3FFAA9E4082C07 case 7 => 0x3FFEA96E266981
    case 8 => 0x3FFFA9488C1E16 case 9 => 0x3FFFE9281560A0 case 10 => 0x3FFFF907FFA0A4 case 11 => 0x3FFFFCE7F71F23
    case 12 => 0x3FFFFDC7F2F0C2 case 13 => 0x3FFFFDE7F0AC89 case 14 => 0x3FFFFDD7EF2A02 case 15 => 0x3FFFFDBBEDA7DF
    case 16 => 0x3FFFFD9CEB65D5 case 17 => 0x3FFFFD7D2743D2 case 18 => 0x3FFFFD5D2F31D1 case 19 => 0x3FFFFD3D2327D0
    case 20 => 0x3FFFFD1D0421CF case 21 => 0x3FFFFCFCC45DCE case 22 => 0x3FFFFCDC446ACD case 23 => 0x3FFFFCBB446C4C
    case 24 => 0x3FFFFC99446B0B case 25 => 0x3FFFFC7544692A case 26 => 0x3FFFFC4D446729 case 27 => 0x3FFFFC1D446524
    case _ => 0x3FFFFBDD446320
  }

  lemma NormFloorStep(i: nat)
    requires i < STEPS
    ensures var p := ShiftAt(i);
            p * p * NormFloor(i + 1) + p * p * (4 * (LIMIT + p)) + 4 * (LIMIT * p) <= (p * p + 1) * NormFloor(i)
  {
  }

  lemma StepKeepsFloor(v: Vec, i: nat)
    requires i < STEPS && NormFloor(i) <= Norm(v) <= NormBound(i)
    ensures NormFloor(i + 1) <= Norm(Step(v, i))
  {
    hide NormBound, NormFloor, ShiftAt, Atan, Pow2, Sign;
    LengthOf(v, i);
    ShiftIsPow2(i);
    var p := ShiftAt(i);
    HalvesShift(v, p);
    RotatedNorm(HalvesOf(v, p), Sign(v.z), LIMIT) by { SignIsUnit(v.z); }
    NormFloorStep(i);
    CancelFloor(p * p, Norm(v), NormFloor(i), Norm(Step(v, i)), NormFloor(i + 1),
                p * p * (4 * (LIMIT + p)) + 4 * (LIMIT * p));
  }

  lemma CancelFloor(q: nat, n: int, b: int, n': int, b': int, e: int)
    requires q >= 1 && b <= n
    requires (q + 1) * n <= q * n' + e && q * b' + e <= (q + 1) * b
    ensures b' <= n'
  {
    MulMono(b, n, q + 1);
    if n' < b' {
      MulMonoStrict(n', b', q);
    }
  }

  lemma {:induction false} RotateKeepsFloor(v: Vec, i: nat)
    requires i <= STEPS && NormFloor(i) <= Norm(v) <= NormBound(i)
    ensures NormFloor(STEPS) <= Norm(Rotate(v, i))
    decreases STEPS - i
  {
    hide NormBound, NormFloor, Step, Norm;
    if i < STEPS {
      StepKeepsLength(v, i);
      StepKeepsFloor(v, i);
      RotateKeepsFloor(Step(v, i), i + 1);
    }
  }

  // sin^2 + cos^2 is 1 to within 1.0e-6, whatever the angle: on the circle to
  // 67 units in the last place.
  lemma OnTheCircle(angle: int)
    ensures Abs(Sin(angle) * Sin(angle) + Cos(angle) * Cos(angle) - Q27 * Q27) <= 0x4_3000_0000
  {
    hide Step, Rotate;
    var v := START.(z := angle);
    assert NormFloor(0) <= Norm(v) <= NormBound(0);
    RotateKeepsLength(v, 0);
    RotateKeepsFloor(v, 0);
  }

  lemma {:induction false} RotateResidual(v: Vec, i: nat)
    requires i <= STEPS
    ensures Rotate(v, i).z == Residual(ATAN, i, v.z)
    decreases STEPS - i
  {
    hide Atan, Shr;
    if i < STEPS {
      RotateResidual(Step(v, i), i + 1);
    }
  }

  // The loop has turned the vector by the angle, to the last entry: one unit.
  lemma AngleIsReached(angle: int)
    requires 0 <= angle <= HALF_PI
    ensures Abs(Rotate(START.(z := angle), 0).z) <= 1
  {
    hide Rotate, Residual, Rest, Atan, Converges;
    TableConverges();
    LastEntry();
    CordicConverges(ATAN, 1, 0, angle);
    RotateResidual(START.(z := angle), 0);
  }

  // ------------------------------------------------- the sign of the sine

  // The height of the vector after it is turned by the angle that is left,
  // for a small angle: the sine, times the length.
  function Height(v: Vec): int { v.y * Q27 + v.x * v.z }

  function Width(v: Vec): int { v.x * Q27 - v.y * v.z }

  // What the steps from i on can change of them.
  function Loss(i: nat): int {
    match i
    case 0 => 0x62DF0118FF32DA case 1 => 0x17D4E798B4256D case 2 => 0x5B07A456C1B61 case 3 => 0x16139DF0AB835
    case 4 => 0x56D8A67A27DE case 5 => 0x1586E1E7F176 case 6 => 0x55C4265A939 case 7 => 0x156D5455FD1
    case 8 => 0x561D6556D4 case 9 => 0x15F95D5554 case 10 => 0x5EF595554 case 11 => 0x1E6575554
    case 12 => 0xDDD65554 case 13 => 0x9595D554 case 14 => 0x7D759554 case 15 => 0x71657554
    case 16 => 0x685D6554 case 17 => 0x60195D54 case 18 => 0x58075954 case 19 => 0x50025754
    case 20 => 0x4800D654 case 21 => 0x400055D4 case 22 => 0x38002594 case 23 => 0x30001174
    case 24 => 0x28000864 case 25 => 0x2000041C case 26 => 0x18000208 case 27 => 0x10000102
    case _ => 0x8000080
  }

  function LossOf(h: nat, t: int, rest: int): int {
    LIMIT * (h - t) + Q27 + (h + 129) * (rest + 1)
  }

  lemma LossStep(i: nat)
    requires i < STEPS
    ensures LossOf(ShiftAt(27 - i), Atan(i), RestAt(i + 1)) + Loss(i + 1) <= Loss(i)
    ensures ShiftAt(i) * ShiftAt(27 - i) == Q27 && Atan(i) <= ShiftAt(27 - i)
  {
  }

  lemma TurnedHeight(x: int, y: int, z: int, a: int, b: int, d: int, t: int)
    requires d == 1 || d == -1
    ensures (y + d * b) * Q27 + (x - d * a) * (z - d * t) ==
            y * Q27 + x * z + d * (b * Q27 - t * x) + a * (t - d * z)
  {
    if d == 1 {
      assert (x - a) * (z - t) == x * z - x * t - a * z + a * t;
      assert a * (t - z) == a * t - a * z;
    } else {
      assert (x + a) * (z + t) == x * z + x * t + a * z + a * t;
      assert a * (t + z) == a * t + a * z;
    }
  }

  lemma TurnedWidth(x: int, y: int, z: int, a: int, b: int, d: int, t: int)
    requires d == 1 || d == -1
    ensures (x - d * a) * Q27 - (y + d * b) * (z - d * t) ==
            x * Q27 - y * z - d * (a * Q27 - t * y) + b * (t - d * z)
  {
    TurnedHeight(-y, x, z, b, -a, d, t);
  }

  lemma ShiftedHeight(p: nat, x: int, b: int, pb: int, rb: int, h: nat, t: int)
    requires pb == p * b && x == pb + rb && 0 <= rb < p
    requires p * h == Q27 && 0 <= t <= h && Abs(x) <= LIMIT
    ensures Abs(b * Q27 - t * x) <= LIMIT * (h - t) + Q27
  {
    ScaleBack(p, b, h);
    HeightParts(x, rb, h, t, pb);
    ProductBound(x, h - t, LIMIT, h - t);
    MulMono(rb, p, h);
    MulMono(0, rb, h);
  }

  lemma ScaleBack(p: int, b: int, h: int)
    requires p * h == Q27
    ensures b * Q27 == p * b * h
  {
    assert p * b * h == b * (p * h);
  }

  lemma HeightParts(x: int, rb: int, h: int, t: int, pb: int)
    requires x == pb + rb
    ensures pb * h - t * x == x * (h - t) - rb * h
  {
    assert pb * h == (x - rb) * h;
    assert (x - rb) * h == x * h - rb * h;
    assert x * (h - t) == x * h - x * t;
  }

  lemma ShiftedSize(p: nat, y: int, a: int, ra: int, h: nat)
    requires y == p * a + ra && 0 <= ra < p && p * h == Q27 && Abs(y) <= LIMIT
    ensures Abs(a) <= h + 129
  {
    Widen(p, h);
    Quotient(a, p, h + 129);
  }

  lemma Widen(p: nat, h: nat)
    requires p * h == Q27
    ensures p * (h + 129) == Q27 + 129 * p
  {
  }

  // One step keeps both, but for its loss.
  lemma StepTurned(v: Vec, i: nat)
    requires i < STEPS && Norm(v) <= NormBound(i) && Abs(v.z) <= RestAt(i) + 1
    ensures var loss := LossOf(ShiftAt(27 - i), Atan(i), RestAt(i + 1));
            Abs(Height(Step(v, i)) - Height(v)) <= loss && Abs(Width(Step(v, i)) - Width(v)) <= loss
    ensures Abs(Step(v, i).z) <= RestAt(i + 1) + 1
  {
    hide NormBound, ShiftAt, Atan, RestAt, Norm, Step, HalvesOf, Halves.Shifts, Sign, Height, Width, LossOf;
    LengthOf(v, i);
    RestStep(i);
    LossStep(i);
    StepByHalves(v, i);
    LeftOver(v.z, Sign(v.z), Atan(i), RestAt(i + 1) + 1);
    HalvesTurned(HalvesOf(v, ShiftAt(i)), v.z, Sign(v.z), ShiftAt(27 - i), Atan(i), RestAt(i + 1));
    assert v == Vec(v.x, v.y, v.z);
  }

  lemma HalvesTurned(hs: Halves, z: int, d: int, h: nat, t: int, rest: nat)
    requires hs.Shifts() && hs.p * h == Q27 && 0 <= t <= h && Abs(hs.x) <= LIMIT && Abs(hs.y) <= LIMIT
    requires (d == 1 || d == -1) && Abs(t - d * z) <= rest + 1
    ensures var v, v' := Vec(hs.x, hs.y, z), Vec(hs.x - d * hs.a, hs.y + d * hs.b, z - d * t);
            Abs(Height(v') - Height(v)) <= LossOf(h, t, rest) && Abs(Width(v') - Width(v)) <= LossOf(h, t, rest)
  {
    StepProduct(hs.p, hs.x, hs.b, hs.pb, hs.rb, hs.y, hs.a, hs.ra, z, d, h, t, rest + 1);
    StepProduct(hs.p, hs.y, hs.a, hs.pa, hs.ra, hs.x, hs.b, hs.rb, z, d, h, t, rest + 1);
    TurnedHeight(hs.x, hs.y, z, hs.a, hs.b, d, t);
    TurnedWidth(hs.x, hs.y, z, hs.a, hs.b, d, t);
  }

  // What a step changes, one side at a time.
  lemma StepProduct(p: nat, x: int, b: int, pb: int, rb: int, y: int, a: int, ra: int, z: int, d: int, h: nat, t: int,
                    rest: nat)
    requires pb == p * b && x == pb + rb && 0 <= rb < p && y == p * a + ra && 0 <= ra < p && p * h == Q27
    requires 0 <= t <= h && Abs(x) <= LIMIT && Abs(y) <= LIMIT
    requires (d == 1 || d == -1) && Abs(t - d * z) <= rest
    ensures Abs(d * (b * Q27 - t * x) + a * (t - d * z)) <= LIMIT * (h - t) + Q27 + (h + 129) * rest
    ensures Abs(-d * (b * Q27 - t * x) + a * (t - d * z)) <= LIMIT * (h - t) + Q27 + (h + 129) * rest
  {
    ShiftedHeight(p, x, b, pb, rb, h, t);
    ShiftedSize(p, y, a, ra, h);
    ProductBound(a, t - d * z, h + 129, rest);
    AtMost(d, b * Q27 - t * x, a * (t - d * z), LIMIT * (h - t) + Q27, (h + 129) * rest);
  }

  lemma StepByHalves(v: Vec, i: nat)
    requires i < STEPS
    ensures ShiftAt(i) >= 1
    ensures var hs := HalvesOf(v, ShiftAt(i));
            && hs.Shifts() && hs.p == ShiftAt(i) && hs.x == v.x && hs.y == v.y
            && Step(v, i) == Vec(v.x - Sign(v.z) * hs.a, v.y + Sign(v.z) * hs.b, v.z - Sign(v.z) * Atan(i))
  {
    hide ShiftAt, Atan;
    ShiftIsPow2(i);
    HalvesShift(v, ShiftAt(i));
  }

  // The angle that is left, and how far it is from the angle just turned.
  lemma LeftOver(z: int, d: int, t: int, rest: int)
    requires d == Sign(z) && 0 < t <= rest && Abs(z) <= t + rest
    ensures d == 1 || d == -1
    ensures Abs(z - d * t) <= rest && Abs(t - d * z) <= rest
  {
  }

  lemma AtMost(d: int, a: int, b: int, ma: int, mb: int)
    requires (d == 1 || d == -1) && Abs(a) <= ma && Abs(b) <= mb
    ensures Abs(d * a + b) <= ma + mb && Abs(-d * a + b) <= ma + mb
  {
  }

  lemma {:induction false} TurnedIsKept(v: Vec, i: nat)
    requires i <= STEPS && Norm(v) <= NormBound(i) && Abs(v.z) <= RestAt(i) + 1
    ensures Abs(Rotate(v, i).y * Q27 - Height(v)) <= Loss(i)
    ensures Abs(Rotate(v, i).x * Q27 - Width(v)) <= Loss(i)
    decreases STEPS - i
  {
    hide NormBound, Norm, Step, RestAt, Loss, LossOf;
    if i < STEPS {
      StepKeepsLength(v, i);
      StepTurned(v, i);
      LossStep(i);
      TurnedIsKept(Step(v, i), i + 1);
    } else {
      LastTurn(v);
    }
  }

  lemma LastTurn(v: Vec)
    requires Norm(v) <= NormBound(STEPS) && Abs(v.z) <= RestAt(STEPS) + 1
    ensures Abs(v.y * Q27 - Height(v)) <= Loss(STEPS) && Abs(v.x * Q27 - Width(v)) <= Loss(STEPS)
  {
    LengthOf(v, STEPS);
    ProductBound(v.x, v.z, LIMIT, 1);
    ProductBound(v.y, v.z, LIMIT, 1);
  }

  // ------------------------------------------- which angle the results are of

  // The vectors after the first steps: from number n, step i leads to 2n where
  // the angle left is negative and to 2n + 1 where it is not.  Where it is, and
  // by which angle it has been turned.
  function NodeX(n: nat): int {
    match n
    case 1 => 81504109 case 3 => 81504109 case 6 => 122256163 case 7 => 40752055 case 12 => 132444176
    case 13 => 112068150 case 14 => 71316095 case 15 => 10188015 case 24 => 133717677 case 25 => 131170675
    case 26 => 120982661 case 27 => 103153639 case 28 => 85324613 case 29 => 57307577 case 30 => 26743537
    case 31 => -6367507 case 49 => 134115647 case _ => 1989847
  }

  function NodeY(n: nat): int {
    match n
    case 1 => 0 case 3 => 81504109 case 6 => 40752055 case 7 => 122256163 case 12 => 10188015 case 13 => 71316095
    case 14 => 112068150 case 15 => 132444176 case 24 => -6367507 case 25 => 26743537 case 26 => 57307577
    case 27 => 85324613 case 28 => 103153639 case 29 => 120982661 case 30 => 131170675 case 31 => 133717677
    case 49 => 1989847 case _ => 134115647
  }

  function NodeAt(n: nat): int {
    match n
    case 1 => 0 case 3 => 105414357 case 6 => 43184628 case 7 => 167644086 case 12 => 10304148 case 13 => 76065108
    case 14 => 134763606 case 15 => 200524566 case 24 => -6386497 case 25 => 26994793 case 26 => 59374463
    case 27 => 92755753 case 28 => 118072961 case 29 => 151454251 case 30 => 183833921 case 31 => 217215211
    case 49 => 1991214 case _ => 208837500
  }

  function NodeLevel(n: nat): nat {
    if n < 2 then 0 else if n < 4 then 1 else if n < 8 then 2 else if n < 16 then 3 else if n < 32 then 4 else 5
  }

  function NodeOf(n: nat, angle: int): Vec { Vec(NodeX(n), NodeY(n), angle - NodeAt(n)) }

  predicate HasNode(n: nat) { n in {1, 3, 6, 7} || 12 <= n <= 15 || 24 <= n <= 31 || n == 49 || n == 62 }

  lemma NodeNumbers(n: nat, d: int)
    requires HasNode(n) && (d == 1 || d == -1) && HasNode(if d == 1 then 2 * n + 1 else 2 * n)
    ensures var i, m := NodeLevel(n), if d == 1 then 2 * n + 1 else 2 * n;
            && i < STEPS && NodeLevel(m) == i + 1
            && NodeX(m) == NodeX(n) - d * (NodeY(n) / ShiftAt(i)) && NodeY(m) == NodeY(n) + d * (NodeX(n) / ShiftAt(i))
            && NodeAt(m) == NodeAt(n) + d * Atan(i)
  {
  }

  // A step leads to the next node.
  lemma NodeStep(n: nat, angle: int)
    requires HasNode(n) && HasNode(NextNode(n, angle))
    ensures Rotate(NodeOf(n, angle), NodeLevel(n)) == Rotate(NodeOf(NextNode(n, angle), angle), NodeLevel(n) + 1)
    ensures NodeLevel(NextNode(n, angle)) == NodeLevel(n) + 1 <= STEPS
  {
    hide NodeX, NodeY, NodeAt, ShiftAt, Atan, NodeLevel, HasNode, Rotate, Step;
    NodeNumbers(n, if angle >= NodeAt(n) then 1 else -1);
    StepByShifts(NodeOf(n, angle), NodeLevel(n));
    RotateOnce(NodeOf(n, angle), NodeLevel(n));
  }

  lemma StepByShifts(v: Vec, i: nat)
    requires i < STEPS
    ensures var d := if v.z >= 0 then 1 else -1;
            Step(v, i) == Vec(v.x - d * (v.y / ShiftAt(i)), v.y + d * (v.x / ShiftAt(i)), v.z - d * Atan(i))
  {
    hide ShiftAt, Atan;
    ShiftIsPow2(i);
  }

  function NextNode(n: nat, angle: int): nat { if angle >= NodeAt(n) then 2 * n + 1 else 2 * n }

  predicate Last(n: nat) { 25 <= n <= 30 || n == 49 || n == 62 }

  // The angles that lead to a node.
  predicate Leads(angle: int, n: nat) {
    && (n == 49 ==> 0 <= angle < NodeAt(12))
    && (n == 25 ==> NodeAt(12) <= angle < NodeAt(6))
    && (n == 26 ==> NodeAt(6) <= angle < NodeAt(13))
    && (n == 27 ==> NodeAt(13) <= angle < NodeAt(3))
    && (n == 28 ==> NodeAt(3) <= angle < NodeAt(14))
    && (n == 29 ==> NodeAt(14) <= angle < NodeAt(7))
    && (n == 30 ==> NodeAt(7) <= angle < NodeAt(15))
    && (n == 62 ==> NodeAt(15) <= angle <= HALF_PI)
  }

  lemma NodeAngles()
    ensures NodeAt(1) == 0 <= NodeAt(12) && NodeAt(24) <= 0 && NodeAt(31) > HALF_PI
    ensures NodeAt(12) <= NodeAt(6) <= NodeAt(13) <= NodeAt(3) <= NodeAt(14) <= NodeAt(7) <= NodeAt(15)
  {
  }

  // The first steps on [0, pi/2].
  lemma FirstSteps(angle: int) returns (n: nat)
    requires 0 <= angle <= HALF_PI
    ensures Last(n) && Leads(angle, n) && NodeLevel(n) <= STEPS
    ensures Rotate(START.(z := angle), 0) == Rotate(NodeOf(n, angle), NodeLevel(n))
  {
    hide NodeX, NodeY, NodeAt, Rotate, NodeLevel;
    NodeAngles();
    n := 1;
    AtStart(angle);
    NodeStep(1, angle);
    n := 3;
    NodeStep(n, angle);
    n := NextNode(n, angle);
    NodeStep(n, angle);
    n := NextNode(n, angle);
    NodeStep(n, angle);
    n := NextNode(n, angle);
    if n == 24 || n == 31 {
      NodeStep(n, angle);
      n := NextNode(n, angle);
    }
  }

  lemma AtStart(angle: int)
    ensures NodeLevel(1) == 0 && NodeOf(1, angle) == START.(z := angle)
  {
  }

  // The results for an angle that leads to a node: on the tangent there, but for
  // what the other steps may change.
  lemma OnTheTangent(angle: int, n: nat)
    requires 0 <= angle <= HALF_PI && Last(n) && Leads(angle, n) && NodeLevel(n) <= STEPS
    requires Rotate(START.(z := angle), 0) == Rotate(NodeOf(n, angle), NodeLevel(n))
    ensures var x, y, z := NodeX(n), NodeY(n), angle - NodeAt(n);
            && Abs(Sin(angle) * Q27 - (y * Q27 + x * z)) <= Loss(NodeLevel(n))
            && Abs(Cos(angle) * Q27 - (x * Q27 - y * z)) <= Loss(NodeLevel(n))
  {
    hide Rotate, Norm, NormBound, RestAt, NodeX, NodeY, NodeAt, NodeLevel, Loss;
    NodeIsClose(angle, n);
    TurnedIsKept(NodeOf(n, angle), NodeLevel(n));
  }

  lemma NodeIsClose(angle: int, n: nat)
    requires Last(n) && Leads(angle, n) && NodeLevel(n) <= STEPS
    ensures Norm(NodeOf(n, angle)) <= NormBound(NodeLevel(n))
    ensures Abs(angle - NodeAt(n)) <= RestAt(NodeLevel(n)) + 1
  {
  }

  // Neither result is below this on [0, pi/2], about -0.0013.
  const SINE_FLOOR := -176_400

  lemma SineFloor(angle: int)
    requires 0 <= angle <= HALF_PI
    ensures Sin(angle) >= SINE_FLOOR && Cos(angle) >= SINE_FLOOR
  {
    hide Sin, Cos, Rotate, NodeLevel, Loss;
    var n := FirstSteps(angle);
    OnTheTangent(angle, n);
    LossOfNodes(n);
  }

  // At the ends of the quarter, where one of them is zero.
  lemma ZeroAtTheEnds()
    ensures Abs(Sin(0)) <= 180_000 && Abs(Cos(HALF_PI)) <= 180_000
  {
    hide Sin, Cos, Rotate, NodeLevel, Loss;
    var m := FirstSteps(0);
    var n := FirstSteps(HALF_PI);
    OnTheTangent(0, m);
    OnTheTangent(HALF_PI, n);
    LossOfNodes(m);
    LossOfNodes(n);
  }

  lemma LossOfNodes(n: nat)
    requires Last(n)
    ensures Loss(NodeLevel(n)) == if n == 49 || n == 62 then 0x1586E1E7F176 else 0x56D8A67A27DE
  {
  }

  // A thousand times the sine of j / 8 of a right angle.
  function Sine(j: nat): int {
    match j
    case 0 => 0 case 1 => 195 case 2 => 383 case 3 => 556 case 4 => 707
    case 5 => 831 case 6 => 924 case 7 => 981 case _ => 1000
  }

  // The results are the sine and the cosine of the angle, to one in a hundred.
  lemma SineOfTheAngle(angle: int, j: nat)
    requires j < 8 && j * HALF_PI <= 8 * angle <= (j + 1) * HALF_PI
    ensures (Sine(j) - 10) * Q27 <= 1000 * Sin(angle) <= (Sine(j + 1) + 10) * Q27
    ensures (Sine(7 - j) - 10) * Q27 <= 1000 * Cos(angle) <= (Sine(8 - j) + 10) * Q27
  {
    hide Sin, Cos, Rotate, NodeLevel, Loss;
    var n := FirstSteps(angle);
    OnTheTangent(angle, n);
    LossOfNodes(n);
  }

  // ------------------------------------------------------------ the method

  function ShrS(a: S64, n: nat): (r: S64)
    ensures r as int == Shr(a as int, n)
  {
    ShrShrinks(a as int, n);
    Shr(a as int, n) as S64
  }

  lemma ShrShrinks(a: int, n: nat)
    ensures Abs(Shr(a, n)) <= Abs(a)
    ensures a >= 0 ==> Shr(a, n) >= 0
  {
    QuotientShrinks(a, Pow2(n), a / Pow2(n));
  }

  lemma QuotientShrinks(a: int, p: nat, q: int)
    requires p >= 1 && q * p <= a < q * p + p
    ensures Abs(q) <= Abs(a) && (a >= 0 ==> q >= 0)
  {
    if a >= 0 {
      if q < 0 {
        MulMonoStrict(q, 0, p);
      } else {
        MulMono(1, p, q);
      }
    } else {
      if q >= 0 {
        MulMono(0, q, p);
      } else if q < a {
        MulMonoStrict(q, a, p);
        MulMono(1, p, -a);
      }
    }
  }

  // Every intermediate value fits 64 bits.
  method SinCos(angle: S64) returns (sn: S64, cs: S64)
    requires 0 <= angle as int <= HALF_PI
    ensures sn as int == Sin(angle as int)
    ensures cs as int == Cos(angle as int)
    ensures Abs(sn as int) <= LIMIT && Abs(cs as int) <= LIMIT && sn as int >= SINE_FLOOR
  {
    hide Atan, RestAt, NormBound, Norm, Rotate;
    ghost var start := START.(z := angle as int);
    StartBounded(angle as int);
    var x: S64 := GAIN as S64;
    var y: S64 := 0;
    var z := angle;
    var i := 0;
    while i < STEPS
      invariant 0 <= i <= STEPS
      invariant Rotate(Vec(x as int, y as int, z as int), i) == Rotate(start, 0)
      invariant Norm(Vec(x as int, y as int, z as int)) <= NormBound(i)
      invariant Abs(z as int) <= RestAt(i) + 1 <= 0x1000_0000
    {
      ghost var v := Vec(x as int, y as int, z as int);
      LengthOf(v, i);
      RestStep(i);
      StepKeepsLength(v, i);
      StepTurned(v, i);
      RotateOnce(v, i);
      ShrShrinks(x as int, i);
      ShrShrinks(y as int, i);
      var d: S64 := if z >= 0 then 1 else -1;
      var nx := x - d * ShrS(y, i);
      var ny := y + d * ShrS(x, i);
      x, y := nx, ny;
      z := z - d * (Atan(i) as S64);
      assert Vec(x as int, y as int, z as int) == Step(v, i);
      i := i + 1;
    }
    RotateDone(Vec(x as int, y as int, z as int));
    cs, sn := x, y;
    SinCosBounded(angle as int);
    SineFloor(angle as int);
  }

  lemma StartBounded(angle: int)
    requires 0 <= angle <= HALF_PI
    ensures Norm(START.(z := angle)) <= NormBound(0) && Abs(angle) <= RestAt(0) + 1 <= 0x1000_0000
  {
  }

  lemma RotateOnce(v: Vec, i: nat)
    requires i < STEPS
    ensures Rotate(v, i) == Rotate(Step(v, i), i + 1)
  {
  }

  lemma RotateDone(v: Vec)
    ensures Rotate(v, STEPS) == v
  {
  }
}
