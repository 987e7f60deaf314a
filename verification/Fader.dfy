/** The fader curve: a table of points, read in both directions with linear
    interpolation and rounding. */
module Fader {
  import opened Arith

  datatype Point = Point(x: int, y: int)

  // Strictly increasing in both columns.
  predicate Rising(t: seq<Point>) {
    && |t| > 0
    && forall i, j :: 0 <= i < j < |t| ==> t[i].x < t[j].x && t[i].y < t[j].y
  }

  function Rounded(num: int, den: int): int
    requires den > 0
  {
    (num + den / 2) / den
  }

  // The segment from point i to the next, at v.
  function OnSegment(t: seq<Point>, i: nat, v: int): int
    requires Rising(t) && i + 1 < |t|
  {
    t[i].y + Rounded((v - t[i].x) * (t[i + 1].y - t[i].y), t[i + 1].x - t[i].x)
  }

  // The segment that the search from point i takes; the last point if none.
  function SegmentOf(t: seq<Point>, i: nat, v: int): (k: nat)
    requires Rising(t) && i < |t|
    ensures i <= k < |t|
    ensures k + 1 < |t| ==> v <= t[k + 1].x
    ensures k > i ==> t[k].x < v
    decreases |t| - i
  {
    if i + 1 == |t| || v <= t[i + 1].x then i else SegmentOf(t, i + 1, v)
  }

  function Interpolate(t: seq<Point>, below: int, v: int): int
    requires Rising(t)
  {
    if v < t[0].x then below
    else
      var k := SegmentOf(t, 0, v);
      if k + 1 < |t| then OnSegment(t, k, v) else t[k].y
  }

  lemma RoundedOrder(a: int, b: int, den: int)
    requires 0 <= a <= b && den > 0
    ensures 0 <= Rounded(a, den) <= Rounded(b, den)
  {
    DivMono(a + den / 2, b + den / 2, den);
  }

  lemma RoundedWhole(n: nat, den: nat)
    requires den > 0
    ensures Rounded(n * den, den) == n
  {
    QuotientOf(n * den + den / 2, den, n);
  }

  // The part of dy that goes with u of dx.
  lemma SharesInOrder(u: nat, w: nat, dx: nat, dy: nat)
    requires u <= w <= dx && dx > 0
    ensures 0 <= Rounded(u * dy, dx) <= Rounded(w * dy, dx) <= dy
    ensures Rounded(0 * dy, dx) == 0 && Rounded(dx * dy, dx) == dy
  {
    hide Rounded;
    MulMonoBoth(u, w, dy, dy);
    MulMonoBoth(w, dx, dy, dy);
    RoundedOrder(u * dy, w * dy, dx);
    RoundedOrder(w * dy, dx * dy, dx);
    RoundedWhole(dy, dx);
    RoundedWhole(0, dx);
    assert dx * dy == dy * dx;
  }

  // On a segment the values rise from one point's to the next one's.
  lemma SegmentRises(t: seq<Point>, i: nat, v: int, w: int)
    requires Rising(t) && i + 1 < |t| && t[i].x <= v <= w <= t[i + 1].x
    ensures t[i].y <= OnSegment(t, i, v) <= OnSegment(t, i, w) <= t[i + 1].y
    ensures OnSegment(t, i, t[i].x) == t[i].y && OnSegment(t, i, t[i + 1].x) == t[i + 1].y
  {
    hide Rounded;
    var dx, dy := t[i + 1].x - t[i].x, t[i + 1].y - t[i].y;
    SharesInOrder(v - t[i].x, w - t[i].x, dx, dy);
  }

  // Exact at every point.
  lemma ExactAtPoints(t: seq<Point>, below: int, i: nat)
    requires Rising(t) && i < |t|
    ensures Interpolate(t, below, t[i].x) == t[i].y
  {
    var k := SegmentOf(t, 0, t[i].x);
    if k + 1 < |t| {
      SegmentRises(t, k, t[k].x, t[k].x);
    }
  }

  // Between two neighbours, and the last value above the table.
  lemma BoundedByNeighbours(t: seq<Point>, below: int, v: int)
    requires Rising(t) && v >= t[0].x
    ensures var k := SegmentOf(t, 0, v);
            && t[k].x <= v && t[k].y <= Interpolate(t, below, v)
            && (k + 1 < |t| ==> v <= t[k + 1].x && Interpolate(t, below, v) <= t[k + 1].y)
            && (k + 1 == |t| ==> Interpolate(t, below, v) == t[k].y)
  {
    var k := SegmentOf(t, 0, v);
    if k + 1 < |t| {
      SegmentRises(t, k, v, v);
    }
  }

  lemma {:induction false} SegmentsInOrder(t: seq<Point>, i: nat, v: int, w: int)
    requires Rising(t) && i < |t| && v <= w
    ensures SegmentOf(t, i, v) <= SegmentOf(t, i, w)
    decreases |t| - i
  {
    if i + 1 < |t| && v > t[i + 1].x {
      SegmentsInOrder(t, i + 1, v, w);
    }
  }

  // Never falling, over all integers.
  lemma InterpolationRises(t: seq<Point>, below: int, v: int, w: int)
    requires Rising(t) && below <= t[0].y && v <= w
    ensures Interpolate(t, below, v) <= Interpolate(t, below, w)
  {
    hide OnSegment, SegmentOf;
    if w >= t[0].x {
      BoundedByNeighbours(t, below, w);
      var j := SegmentOf(t, 0, w);
      if v < t[0].x {
        assert t[0].y <= t[j].y;
      } else {
        BoundedByNeighbours(t, below, v);
        SegmentsInOrder(t, 0, v, w);
        var i := SegmentOf(t, 0, v);
        if i < j {
          assert t[i + 1].y <= t[j].y;
        } else if i + 1 < |t| {
          SegmentRises(t, i, v, w);
        }
      }
    }
  }

  // ------------------------------------------------------------ both ways

  function Swapped(t: seq<Point>): (s: seq<Point>)
    ensures |s| == |t| && forall i :: 0 <= i < |t| ==> s[i] == Point(t[i].y, t[i].x)
  {
    seq(|t|, i requires 0 <= i < |t| => Point(t[i].y, t[i].x))
  }

  lemma SwappedRises(t: seq<Point>)
    requires Rising(t)
    ensures Rising(Swapped(t))
  {
  }

  // Reading a value back gives it again at every point ...
  lemma PointsComeBack(t: seq<Point>, below: int, back: int, i: nat)
    requires Rising(t) && i < |t|
    ensures Rising(Swapped(t))
    ensures Interpolate(Swapped(t), back, Interpolate(t, below, t[i].x)) == t[i].x
  {
    SwappedRises(t);
    ExactAtPoints(t, below, i);
    ExactAtPoints(Swapped(t), back, i);
  }

  // ... and in the middle of two points that are 2 apart exactly if the other
  // column has room for a value between them.
  lemma MiddleComesBack(t: seq<Point>, below: int, back: int, i: nat)
    requires Rising(t) && i + 1 < |t| && t[i + 1].x == t[i].x + 2
    ensures Rising(Swapped(t))
    ensures Interpolate(Swapped(t), back, Interpolate(t, below, t[i].x + 1)) == t[i].x + 1 <==>
            t[i + 1].y - t[i].y >= 2
  {
    hide Rounded;
    SwappedRises(t);
    var d := t[i + 1].y - t[i].y;
    SegmentAt(t, i, t[i].x + 1);
    OnMiddle(t, i);
    HalfUp(d);
    var y := t[i].y + Rounded(d, 2);
    assert Interpolate(t, below, t[i].x + 1) == y;
    if d == 1 {
      ExactAtPoints(Swapped(t), back, i + 1);
    } else {
      SegmentAt(Swapped(t), i, y);
      OnSwapped(t, i, Rounded(d, 2));
      HalfBack(d);
    }
  }

  lemma OnMiddle(t: seq<Point>, i: nat)
    requires Rising(t) && i + 1 < |t| && t[i + 1].x == t[i].x + 2
    ensures OnSegment(t, i, t[i].x + 1) == t[i].y + Rounded(t[i + 1].y - t[i].y, 2)
  {
  }

  lemma OnSwapped(t: seq<Point>, i: nat, h: int)
    requires Rising(t) && Rising(Swapped(t)) && i + 1 < |t| && t[i + 1].x == t[i].x + 2
    ensures OnSegment(Swapped(t), i, t[i].y + h) == t[i].x + Rounded(h * 2, t[i + 1].y - t[i].y)
  {
  }

  lemma HalfUp(d: int)
    requires d >= 1
    ensures 1 <= Rounded(d, 2) <= d && (d == 1 ==> Rounded(d, 2) == 1) && (d > 1 ==> Rounded(d, 2) < d)
  {
  }

  lemma HalfBack(d: int)
    requires d >= 2
    ensures Rounded(Rounded(d, 2) * 2, d) == 1
  {
    var h := Rounded(d, 2);
    QuotientOf(h * 2 + d / 2, d, 1);
  }

  // A value strictly inside a segment is looked up there.
  lemma SegmentAt(t: seq<Point>, i: nat, v: int)
    requires Rising(t) && i + 1 < |t| && t[i].x < v <= t[i + 1].x
    ensures SegmentOf(t, 0, v) == i
  {
  }

  // ------------------------------------------------------ the driver's curve

  const DB2_INF := -130
  const FADER_TOP := 0x2d41

  // The raw fader values of the points, 1 dB apart from -62 to +6 dB.
  function RawAt(i: nat): int {
    match i
    case 0 => 0x0003 case 1 => 0x0004 case 2 => 0x0005 case 3 => 0x0006 case 4 => 0x0007 case 5 => 0x0008
    case 6 => 0x0009 case 7 => 0x000a case 8 => 0x000b case 9 => 0x000d case 10 => 0x000e case 11 => 0x0010
    case 12 => 0x0012 case 13 => 0x0014 case 14 => 0x0017 case 15 => 0x0019 case 16 => 0x001d case 17 => 0x0020
    case 18 => 0x0024 case 19 => 0x0029 case 20 => 0x002e case 21 => 0x0033 case 22 => 0x003a case 23 => 0x0041
    case 24 => 0x0049 case 25 => 0x0051 case 26 => 0x005b case 27 => 0x0067 case 28 => 0x0073 case 29 => 0x0081
    case 30 => 0x0091 case 31 => 0x00a3 case 32 => 0x00b7 case 33 => 0x00cd case 34 => 0x00e6 case 35 => 0x0102
    case 36 => 0x0122 case 37 => 0x0145 case 38 => 0x016d case 39 => 0x019a case 40 => 0x01cc case 41 => 0x0204
    case 42 => 0x0243 case 43 => 0x028a case 44 => 0x02d9 case 45 => 0x0332 case 46 => 0x0396 case 47 => 0x0406
    case 48 => 0x0483 case 49 => 0x0510 case 50 => 0x05af case 51 => 0x0660 case 52 => 0x0727 case 53 => 0x0807
    case 54 => 0x0902 case 55 => 0x0a1b case 56 => 0x0b57 case 57 => 0x0cb9 case 58 => 0x0e47 case 59 => 0x1004
    case 60 => 0x11f9 case 61 => 0x142a case 62 => 0x16a0 case 63 => 0x1963 case 64 => 0x1c7c case 65 => 0x1ff6
    case 66 => 0x23dc case 67 => 0x283d case _ => 0x2d41
  }

  // dB x 2 and the raw value.
  function Curve(): (t: seq<Point>)
    ensures |t| == 69 && forall i :: 0 <= i < 69 ==> t[i] == Point(2 * i - 124, RawAt(i))
  {
    seq(69, i requires 0 <= i < 69 => Point(2 * i - 124, RawAt(i)))
  }

  // Each point lies above the one before it.
  predicate RisingSteps(t: seq<Point>) {
    && |t| > 0
    && forall i :: 0 < i < |t| ==> t[i - 1].x < t[i].x && t[i - 1].y < t[i].y
  }

  lemma {:induction false} StepsRise(t: seq<Point>, i: nat, j: nat)
    requires RisingSteps(t) && i < j < |t|
    ensures t[i].x < t[j].x && t[i].y < t[j].y
    decreases j - i
  {
    if i + 1 < j {
      StepsRise(t, i, j - 1);
    }
  }

  // Between which points the raw values leave no room for the middle.
  predicate NoRoom(i: nat) { i < 8 || i == 9 }

  lemma RawSteps(i: nat)
    requires i < 68
    ensures RawAt(i) < RawAt(i + 1)
    ensures RawAt(i + 1) - RawAt(i) == 1 <==> NoRoom(i)
  {
    hide RawAt;
    if i < 34 {
      LowRawSteps(i);
    } else {
      HighRawSteps(i);
    }
  }

  lemma LowRawSteps(i: nat)
    requires i < 34
    ensures RawAt(i) < RawAt(i + 1) && (RawAt(i + 1) - RawAt(i) == 1 <==> NoRoom(i))
  {
  }

  lemma HighRawSteps(i: nat)
    requires 34 <= i < 68
    ensures RawAt(i) + 1 < RawAt(i + 1)
  {
  }

  lemma CurveRises()
    ensures Rising(Curve()) && |Curve()| == 69
    ensures Curve()[0] == Point(-124, 3) && Curve()[68] == Point(12, FADER_TOP)
  {
    hide RawAt;
    forall i: nat | 0 < i < 69
      ensures Curve()[i - 1].x < Curve()[i].x && Curve()[i - 1].y < Curve()[i].y
    {
      RawSteps(i - 1);
    }
    Ends();
    forall i: nat, j: nat | i < j < |Curve()| ensures Curve()[i].x < Curve()[j].x && Curve()[i].y < Curve()[j].y {
      StepsRise(Curve(), i, j);
    }
  }

  lemma Ends()
    ensures RawAt(0) == 3 && RawAt(68) == FADER_TOP
  {
  }

  // bf_fader_db2_to_raw and bf_fader_raw_to_db2
  function Db2ToRaw(db2: int): int {
    assert Rising(Curve()) by { CurveRises(); }
    Interpolate(Curve(), 0, db2)
  }

  function RawToDb2(raw: int): int {
    assert Rising(Swapped(Curve())) by { CurveRises(); SwappedRises(Curve()); }
    Interpolate(Swapped(Curve()), DB2_INF, raw)
  }

  lemma FaderMonotone(v: int, w: int)
    requires v <= w
    ensures Db2ToRaw(v) <= Db2ToRaw(w) && RawToDb2(v) <= RawToDb2(w)
    ensures 0 <= Db2ToRaw(v) <= FADER_TOP && DB2_INF <= RawToDb2(v) <= 12
  {
    hide RawAt, Interpolate;
    CurveRises();
    SwappedRises(Curve());
    InterpolationRises(Curve(), 0, v, w);
    InterpolationRises(Swapped(Curve()), DB2_INF, v, w);
    InterpolationRange(Curve(), 0, v);
    InterpolationRange(Swapped(Curve()), DB2_INF, v);
  }

  lemma InterpolationRange(t: seq<Point>, below: int, v: int)
    requires Rising(t) && below <= t[0].y
    ensures below <= Interpolate(t, below, v) <= t[|t| - 1].y
  {
    if v >= t[0].x {
      BoundedByNeighbours(t, below, v);
      var k := SegmentOf(t, 0, v);
      assert t[0].y <= t[k].y && (k + 1 < |t| ==> t[k + 1].y <= t[|t| - 1].y);
    }
  }

  // A level in half dB on the curve survives the fader exactly if it is a
  // whole dB or the raw values around it are at least 2 apart: all but the
  // nine lowest half steps.
  lemma LevelsComeBack(db2: int)
    requires -124 <= db2 <= 12
    ensures RawToDb2(Db2ToRaw(db2)) == db2 <==> db2 % 2 == 0 || !NoRoom((db2 + 124) / 2)
  {
    hide RawAt, Interpolate, Rounded;
    CurveRises();
    SwappedRises(Curve());
    var i := (db2 + 124) / 2;
    if db2 % 2 == 0 {
      PointsComeBack(Curve(), 0, DB2_INF, i);
      assert Curve()[i].x == db2;
    } else {
      MiddleComesBack(Curve(), 0, DB2_INF, i);
      assert Curve()[i].x + 1 == db2;
      RawSteps(i);
    }
  }

  // Below the curve there is nothing, above it no more than its end; 0 dB is
  // 0x16a0.
  lemma EndsOfTheFader(db2: int, raw: int)
    ensures db2 < -124 ==> Db2ToRaw(db2) == 0
    ensures db2 >= 12 ==> Db2ToRaw(db2) == 0x2d41
    ensures Db2ToRaw(0) == 0x16a0
    ensures raw < 3 ==> RawToDb2(raw) == -130
    ensures raw >= 0x2d41 ==> RawToDb2(raw) == 12
  {
    hide RawAt, Interpolate;
    CurveRises();
    SwappedRises(Curve());
    ExactAtPoints(Curve(), 0, 62);
    assert RawAt(62) == 0x16a0 by { UnityAt(); }
    OutsideTheCurve(Curve(), 0, db2);
    OutsideTheCurve(Swapped(Curve()), DB2_INF, raw);
  }

  lemma UnityAt()
    ensures RawAt(62) == 0x16a0
  {
  }

  lemma OutsideTheCurve(t: seq<Point>, below: int, v: int)
    requires Rising(t)
    ensures v < t[0].x ==> Interpolate(t, below, v) == below
    ensures v >= t[|t| - 1].x ==> Interpolate(t, below, v) == t[|t| - 1].y
  {
    if v >= t[|t| - 1].x {
      assert t[0].x <= t[|t| - 1].x;
      var k := SegmentOf(t, 0, v);
      if k + 1 < |t| {
        assert v == t[k + 1].x == t[|t| - 1].x;
        ExactAtPoints(t, below, |t| - 1);
      }
    }
  }

  // ------------------------------------------------------------ the loops

  method ComputeRaw(db2: int) returns (raw: int)
    ensures raw == Db2ToRaw(db2)
  {
    hide RawAt;
    CurveRises();
    if db2 <= Curve()[0].x {
      ExactAtPoints(Curve(), 0, 0);
      return if db2 < Curve()[0].x then 0 else Curve()[0].y;
    }
    raw := Search(Curve(), 0, db2);
  }

  method ComputeDb2(raw: int) returns (db2: int)
    requires raw >= 0
    ensures db2 == RawToDb2(raw)
  {
    hide RawAt;
    CurveRises();
    SwappedRises(Curve());
    if raw == 0 || raw < Curve()[0].y {
      return DB2_INF;
    }
    db2 := Search(Swapped(Curve()), DB2_INF, raw);
  }

  // The search of both: the first segment that reaches the value.
  method Search(t: seq<Point>, ghost below: int, v: int) returns (r: int)
    requires Rising(t) && v >= t[0].x
    ensures r == Interpolate(t, below, v)
  {
    hide Rounded;
    var i := 0;
    while i < |t| - 1
      invariant 0 <= i < |t|
      invariant SegmentOf(t, 0, v) == SegmentOf(t, i, v)
    {
      if v <= t[i + 1].x {
        var num := (v - t[i].x) * (t[i + 1].y - t[i].y);
        var den := t[i + 1].x - t[i].x;
        return t[i].y + Rounded(num, den);
      }
      i := i + 1;
    }
    r := t[|t| - 1].y;
  }
}
