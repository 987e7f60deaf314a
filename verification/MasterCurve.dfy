/** The two registers of an output master, from a step of its control. */
module MasterCurve {
  import opened Arith

  const STEP_0DB := 181
  const STEP_MAX := 193
  const MUTE_8 := 0x3b
  const ZERO_DB_8 := 0xf3
  const MIN_8 := 0x73

  // What DIM writes.
  const DIM_8 := 0xcb
  const DIM_16 := 0x0333

  // 2^(n/12) with 12 fraction bits
  const TWELFTH: seq<int> := [
    0x1000, 0x10f4, 0x11f6, 0x1307, 0x1429, 0x155c,
    0x16a1, 0x17f9, 0x1966, 0x1ae9, 0x1c82, 0x1e34]

  // Division and remainder of C.
  function QuotC(a: int, b: int): int
    requires b > 0
  {
    if a >= 0 then a / b else -(-a / b)
  }

  function RemC(a: int, b: int): int
    requires b > 0
  {
    a - QuotC(a, b) * b
  }

  // 0x2000 * 2^(half dB / 12) before the clamp: octave k, twelfth n.
  function Curve(k: int, n: nat): int
    requires n < 12
  {
    var v := TWELFTH[n] * 2;
    if k >= 0 then v * Pow2(k) else (v + Pow2(-k - 1)) / Pow2(-k)
  }

  // bf_master_16bit
  function Master16(halfDb: int): int {
    var k, n := QuotC(halfDb, 12), RemC(halfDb, 12);
    Clamp(if n < 0 then Curve(k - 1, n + 12) else Curve(k, n), 1, 0x4000)
  }

  function MasterReg8(step: int): int {
    if step == 0 then MUTE_8 else Clamp(step - STEP_0DB + ZERO_DB_8, MIN_8, 0xff)
  }

  function MasterReg16(step: int): int {
    if step == 0 then 0 else Master16(step - STEP_0DB)
  }

  // What goes on the wire: mute wins, then DIM, then the volume.
  function OutReg8(muted: bool, dim: bool, step: int): int {
    if muted then MUTE_8 else if dim then DIM_8 else MasterReg8(step)
  }

  function OutReg16(muted: bool, dim: bool, step: int): int {
    if muted then 0 else if dim then DIM_16 else MasterReg16(step)
  }

  // The loop of the source over octaves is floor division.
  lemma OctaveOf(halfDb: int)
    ensures Master16(halfDb) == Clamp(Curve(halfDb / 12, halfDb % 12), 1, 0x4000)
  {
  }

  lemma TableRises(n: nat)
    requires n < 11
    ensures 0 < TWELFTH[n] <= TWELFTH[n + 1] < 0x2000
  {
  }

  lemma HalveBoth(a: nat, d: nat)
    requires d > 0
    ensures a * 2 / (d * 2) == a / d
  {
    DivBounds(a, d);
    var q := a / d;
    assert q * (d * 2) == q * d * 2;
    QuotientOf(a * 2, d * 2, q);
  }

  // One twelfth up never falls, within an octave ...
  lemma CurveRises(k: int, n: nat)
    requires n < 11
    ensures 0 <= Curve(k, n) <= Curve(k, n + 1)
  {
    TableRises(n);
    var v, w := TWELFTH[n] * 2, TWELFTH[n + 1] * 2;
    if k >= 0 {
      MulMono(v, w, Pow2(k));
    } else {
      DivMono(v + Pow2(-k - 1), w + Pow2(-k - 1), Pow2(-k));
    }
  }

  lemma RoundingAgrees(p: nat)
    requires p >= 1
    ensures (0x3c68 + p * 2) / (p * 2 * 2) <= (0x2000 + p) / (p * 2)
  {
    HalveBoth(0x2000 + p, p * 2);
    DivMono(0x3c68 + p * 2, (0x2000 + p) * 2, p * 2 * 2);
  }

  lemma LastAndFirst()
    ensures TWELFTH[11] * 2 == 0x3c68 && TWELFTH[0] * 2 == 0x2000
  {
  }

  lemma HalfPowers(m: nat)
    requires m >= 2
    ensures Pow2(m) == Pow2(m - 2) * 2 * 2 && Pow2(m - 1) == Pow2(m - 2) * 2
  {
  }

  // What the two twelfths are, an octave apart.
  lemma NeighboursAcross(k: int)
    ensures k >= 0 ==> Curve(k, 11) == 0x3c68 * Pow2(k) && Curve(k + 1, 0) == 0x2000 * (2 * Pow2(k))
    ensures k == -1 ==> Curve(k, 11) == (0x3c68 + 1) / 2 && Curve(k + 1, 0) == 0x2000
    ensures k < -1 ==> Curve(k, 11) == (0x3c68 + Pow2(-k - 1)) / Pow2(-k)
                       && Curve(k + 1, 0) == (0x2000 + Pow2(-k - 2)) / Pow2(-k - 1)
  {
    hide TWELFTH;
    LastAndFirst();
    assert Pow2(0) == 1;
  }

  // ... nor into the next: the rounding of the two octaves agrees.
  lemma CurveRisesAcross(k: int)
    ensures Curve(k, 11) <= Curve(k + 1, 0)
  {
    hide TWELFTH, Curve;
    NeighboursAcross(k);
    if k >= 0 {
      MulMono(0x3c68, 0x4000, Pow2(k));
    } else if k < -1 {
      HalfPowers(-k);
      RoundingAgrees(Pow2(-k - 2));
    }
  }

  lemma Master16Rises(h: int)
    ensures Master16(h) <= Master16(h + 1)
  {
    OctaveOf(h);
    OctaveOf(h + 1);
    var k, n := h / 12, h % 12;
    if n < 11 {
      assert (h + 1) / 12 == k && (h + 1) % 12 == n + 1;
      CurveRises(k, n);
    } else {
      assert (h + 1) / 12 == k + 1 && (h + 1) % 12 == 0;
      CurveRisesAcross(k);
    }
  }

  lemma {:induction false} Master16Monotone(a: int, b: int)
    requires a <= b
    ensures 1 <= Master16(a) <= Master16(b) <= 0x4000
    decreases b - a
  {
    if a < b {
      Master16Rises(a);
      Master16Monotone(a + 1, b);
    }
  }

  // A higher step is never quieter in either register; only step 0 is mute.
  lemma RegistersMonotone(s: int, t: int)
    requires 0 <= s <= t <= STEP_MAX
    ensures MasterReg8(s) <= MasterReg8(t) && MasterReg16(s) <= MasterReg16(t)
    ensures MasterReg16(s) == 0 <==> s == 0
    ensures MasterReg8(s) == MUTE_8 <==> s == 0
    ensures 0 <= MasterReg8(t) <= 0xff && 0 <= MasterReg16(t) <= 0x4000
    ensures s >= STEP_0DB - 128 ==> MasterReg8(t) - MasterReg8(s) == t - s
    ensures 0 < s <= STEP_0DB - 128 ==> MasterReg8(s) == 0x73
  {
    hide Master16;
    Master16Monotone(s - STEP_0DB, t - STEP_0DB);
    Master16Monotone(t - STEP_0DB, t - STEP_0DB);
  }

  // The pair of DIM is not the curve at the same -20 dB: the 8-bit halves
  // agree, the 16-bit ones do not.
  lemma DimIsNotOnTheCurve()
    ensures MasterReg8(STEP_0DB - 40) == DIM_8
    ensures MasterReg16(STEP_0DB - 40) == 0x032d
    ensures MasterReg16(STEP_0DB) == 0x2000 && MasterReg16(STEP_MAX) == 0x4000
    ensures forall s :: 0 <= s <= STEP_MAX ==> MasterReg16(s) != DIM_16
  {
    hide Master16;
    Anchors();
    forall s | 0 <= s <= STEP_MAX ensures MasterReg16(s) != DIM_16 {
      if s > STEP_0DB - 40 {
        Master16Monotone(-39, s - STEP_0DB);
      } else {
        Master16Monotone(s - STEP_0DB, -40);
      }
    }
  }

  lemma Anchors()
    ensures Master16(-40) == 0x032d && Master16(-39) > DIM_16
    ensures Master16(0) == 0x2000 && Master16(12) == 0x4000
  {
    assert Pow2(0) == 1 && Pow2(1) == 2 && Pow2(2) == 4 && Pow2(3) == 8 && Pow2(4) == 16;
  }
}
