/** The URB geometry: the size and the number of the URBs of a session,
    chosen from the period an application asks for. */
module Geometry {
  import opened Arith
  import opened Wrappers

  // The directions of a PCM device: playback and capture.
  type Dir = d: int | 0 <= d < 2

  // One line of the rate table; minFpu is one packet of the alternate setting.
  datatype Rate = Rate(rate: nat, alt: nat, frameBytes: nat, minFpu: nat)

  const RATES: seq<Rate> := [
    Rate( 32000, 1, 56,  8), Rate( 44100, 1, 56,  8), Rate( 48000, 1, 56,  8),
    Rate( 64000, 2, 40, 16), Rate( 88200, 2, 40, 16), Rate( 96000, 2, 40, 16),
    Rate(128000, 3, 32, 32), Rate(176400, 3, 32, 32), Rate(192000, 3, 32, 32)
  ]

  // The module parameters after the clamps of probe.
  datatype Config = Config(nurbs: nat, framesPerUrb: nat, urbFramesMin: nat, urbSplit: int)
  {
    predicate Valid() {
      && 2 <= nurbs <= 16
      && 8 <= urbFramesMin <= framesPerUrb <= 1024
      && framesPerUrb % 8 == 0 && urbFramesMin % 8 == 0
    }
  }

  // & ~7
  function Mask7(v: nat): nat { v - v % 8 }

  function Probe(nurbs: int, framesPerUrb: int, urbFramesMin: int, urbSplit: int): (c: Config)
    ensures c.Valid()
  {
    var fpu := Mask7(Clamp(framesPerUrb, 8, 1024));
    Config(Clamp(nurbs, 2, 16), fpu, Min(Mask7(Clamp(urbFramesMin, 8, 1024)), fpu), urbSplit)
  }

  function RateFrom(table: seq<Rate>, rate: nat): (r: Option<Rate>)
    ensures r.Some? ==> r.value in table && r.value.rate == rate
    ensures r.None? ==> forall t :: t in table ==> t.rate != rate
  {
    if table == [] then None
    else if table[0].rate == rate then Some(table[0])
    else RateFrom(table[1..], rate)
  }

  function RateOf(rate: nat): (r: Option<Rate>)
    ensures r.Some? ==> r.value in RATES && r.value.rate == rate
    ensures r.None? ==> forall t :: t in RATES ==> t.rate != rate
  {
    RateFrom(RATES, rate)
  }

  method LookupRate(rate: nat) returns (r: Option<Rate>)
    ensures r == RateOf(rate)
  {
    var i := 0;
    while i < |RATES|
      invariant 0 <= i <= |RATES|
      invariant RateOf(rate) == RateFrom(RATES[i..], rate)
    {
      if RATES[i].rate == rate {
        return Some(RATES[i]);
      }
      i := i + 1;
    }
    r := None;
  }

  function DivRoundUp(a: nat, b: nat): nat
    requires b > 0
  {
    (a + b - 1) / b
  }

  function RoundDown(a: nat, b: nat): nat
    requires b > 0
  {
    a / b * b
  }

  function RoundUp(a: nat, b: nat): nat
    requires b > 0
  {
    DivRoundUp(a, b) * b
  }

  // The half of the URBs in flight, rounded up, in frames.
  function SessionPeriod(urbFrames: nat, urbsActive: nat): nat {
    urbFrames * DivRoundUp(urbsActive, 2)
  }

  predicate SplitPeriod(c: Config, r: Rate, period: nat) {
    if c.urbSplit == 1 then false
    else if c.urbSplit > 1 then true
    else 128 <= period <= 256 && period / 2 * 750 >= r.rate
  }

  function UrbFrames(c: Config, r: Rate, period: nat): nat
    requires r.minFpu > 0
  {
    var pkt := r.minFpu;
    var hi := RoundDown(c.framesPerUrb, pkt);
    var lo := RoundUp(Max(c.urbFramesMin, pkt), pkt);
    if hi == 0 || lo > hi || period < pkt then 0
    else
      var urb := Packets(period / DivRoundUp(period, hi), SplitPeriod(c, r, period), pkt, lo, hi);
      if urb <= period then urb else 0
  }

  // One part of the period, halved for the split, in whole packets.
  function Packets(part: nat, split: bool, pkt: nat, lo: nat, hi: nat): nat
    requires pkt > 0
  {
    var whole := RoundDown(part, pkt);
    Clamp(if split then RoundDown(whole / 2, pkt) else whole, lo, hi)
  }

  function UrbCount(c: Config, r: Rate, period: nat, urb: nat): nat
    requires urb > 0
  {
    var n := 2 * (period / urb);
    Clamp(if SplitPeriod(c, r, period) then n - 1 else n, 2, c.nurbs)
  }

  // A URB size the hardware and the module parameters allow for this period:
  // whole packets of the rate, within the limits, not longer than the period.
  predicate Fits(c: Config, r: Rate, period: nat, size: nat)
    requires r in RATES
  {
    && size > 0 && size % r.minFpu == 0
    && c.urbFramesMin <= size <= c.framesPerUrb
    && size <= period
  }

  lemma PacketOfARate(r: Rate)
    requires r in RATES
    ensures r.minFpu in {8, 16, 32}
  {
  }

  lemma DivRoundUpBounds(a: nat, b: nat)
    requires b > 0
    ensures DivRoundUp(a, b) * b >= a
    ensures a > 0 ==> (DivRoundUp(a, b) - 1) * b < a
    ensures a > 0 ==> DivRoundUp(a, b) >= 1
  {
    DivBounds(a + b - 1, b);
  }

  lemma ShareOfAPeriod(period: nat, k: nat)
    requires k > 0
    ensures period / k * k <= period
    ensures period / k <= period
  {
    DivBounds(period, k);
    if period / k > period {
      MulMonoStrict(period, period / k, k);
      MulMono(1, k, period);
    }
  }

  // The chosen size is one that fits, and 0 is returned only if none does.
  lemma UrbFramesFindsAFit(c: Config, r: Rate, period: nat)
    requires c.Valid() && r in RATES
    ensures UrbFrames(c, r, period) != 0 ==> Fits(c, r, period, UrbFrames(c, r, period))
    ensures UrbFrames(c, r, period) == 0 <==> !exists size: nat :: Fits(c, r, period, size)
  {
    PacketOfARate(r);
    var hi := RoundDown(c.framesPerUrb, r.minFpu);
    var lo := RoundUp(Max(c.urbFramesMin, r.minFpu), r.minFpu);
    LimitsInPackets(c, r.minFpu);
    if lo <= hi && period >= r.minFpu {
      UrbFramesInRange(c, r, period);
      if lo <= period {
        assert Fits(c, r, period, lo);
      }
    }
    forall size: nat | Fits(c, r, period, size)
      ensures lo <= size <= hi && period >= r.minFpu
    {
      SizeInPackets(c, r.minFpu, size);
    }
  }

  lemma RoundDownIsGreatest(a: nat, b: nat)
    requires b > 0
    ensures RoundDown(a, b) <= a < RoundDown(a, b) + b
    ensures RoundDown(a, b) % b == 0
  {
    DivBounds(a, b);
    MultipleOf(a / b, b);
  }

  lemma LimitsInPackets(c: Config, pkt: nat)
    requires c.Valid() && pkt > 0
    ensures var hi := RoundDown(c.framesPerUrb, pkt);
            var lo := RoundUp(Max(c.urbFramesMin, pkt), pkt);
            && hi <= c.framesPerUrb && hi % pkt == 0
            && lo >= c.urbFramesMin && lo >= pkt && lo % pkt == 0
  {
    RoundDownIsGreatest(c.framesPerUrb, pkt);
    RoundDownIsGreatest(Max(c.urbFramesMin, pkt) + pkt - 1, pkt);
  }

  lemma SizeInPackets(c: Config, pkt: nat, size: nat)
    requires c.Valid() && pkt > 0
    requires size > 0 && size % pkt == 0 && c.urbFramesMin <= size <= c.framesPerUrb
    ensures RoundUp(Max(c.urbFramesMin, pkt), pkt) <= size <= RoundDown(c.framesPerUrb, pkt)
    ensures pkt <= size
  {
    LargestMultipleBelow(c.framesPerUrb, pkt, size);
    var least := Max(c.urbFramesMin, pkt);
    MultipleIsQuotient(size, pkt);
    if size / pkt < 1 {
      MulMono(size / pkt, 0, pkt);
    }
    MulMono(1, size / pkt, pkt);
    DivBounds(least + pkt - 1, pkt);
    if size < RoundUp(least, pkt) {
      if size / pkt < DivRoundUp(least, pkt) {
        MulMonoStrict(size / pkt, DivRoundUp(least, pkt), pkt);
      } else {
        MulMono(DivRoundUp(least, pkt), size / pkt, pkt);
      }
    }
  }

  lemma UrbFramesInRange(c: Config, r: Rate, period: nat)
    requires c.Valid() && r in RATES
    requires RoundUp(Max(c.urbFramesMin, r.minFpu), r.minFpu) <= RoundDown(c.framesPerUrb, r.minFpu)
    requires period >= r.minFpu
    ensures var lo := RoundUp(Max(c.urbFramesMin, r.minFpu), r.minFpu);
            var urb := UrbFrames(c, r, period);
            if period < lo then urb == 0
            else lo <= urb <= RoundDown(c.framesPerUrb, r.minFpu) && urb <= period && urb % r.minFpu == 0
  {
    hide SplitPeriod, RoundUp, RoundDown, DivRoundUp, Packets;
    PacketOfARate(r);
    var hi := RoundDown(c.framesPerUrb, r.minFpu);
    var lo := RoundUp(Max(c.urbFramesMin, r.minFpu), r.minFpu);
    LimitsInPackets(c, r.minFpu);
    DivRoundUpBounds(period, hi);
    ShareOfAPeriod(period, DivRoundUp(period, hi));
    PacketsInRange(period / DivRoundUp(period, hi), SplitPeriod(c, r, period), r.minFpu, lo, hi);
  }

  lemma PacketsInRange(part: nat, split: bool, pkt: nat, lo: nat, hi: nat)
    requires pkt > 0 && lo <= hi && lo % pkt == 0 && hi % pkt == 0
    ensures lo <= Packets(part, split, pkt, lo, hi) <= hi
    ensures Packets(part, split, pkt, lo, hi) % pkt == 0
    ensures Packets(part, split, pkt, lo, hi) <= Max(part, lo)
  {
    RoundDownIsGreatest(part, pkt);
    RoundDownIsGreatest(RoundDown(part, pkt) / 2, pkt);
  }

  // Above the smallest size and without the split, the size is the largest
  // number of whole packets of which the fewest URBs that can hold the period
  // (the least k with period <= k * hi) still fit in the period.
  lemma UnsplitPeriodUsesTheFewestUrbs(c: Config, r: Rate, period: nat, k: nat, size: nat)
    requires c.Valid() && r in RATES
    requires !SplitPeriod(c, r, period)
    requires UrbFrames(c, r, period) > RoundUp(Max(c.urbFramesMin, r.minFpu), r.minFpu)
    requires period <= k * RoundDown(c.framesPerUrb, r.minFpu)
    requires size % r.minFpu == 0
    requires size * DivRoundUp(period, RoundDown(c.framesPerUrb, r.minFpu)) <= period
    ensures DivRoundUp(period, RoundDown(c.framesPerUrb, r.minFpu)) <= k
    ensures UrbFrames(c, r, period) * DivRoundUp(period, RoundDown(c.framesPerUrb, r.minFpu)) <= period
    ensures size <= UrbFrames(c, r, period)
  {
    PacketOfARate(r);
    var pkt := r.minFpu;
    var hi := RoundDown(c.framesPerUrb, pkt);
    var n := DivRoundUp(period, hi);
    DivRoundUpBounds(period, hi);
    if k < n {
      MulMono(k, n - 1, hi);
    }
    DivBounds(period, n);
    ShareBounds(period, n, hi, size);
    RoundDownIsGreatest(period / n, pkt);
    LargestMultipleBelow(period / n, pkt, size);
    var urb := UrbFrames(c, r, period);
    assert urb == RoundDown(period / n, pkt);
    MulMono(urb, period / n, n);
  }

  // What fits n times in a period is at most its n-th share.
  lemma ShareBounds(period: nat, n: nat, hi: nat, size: nat)
    requires n > 0 && size * n <= period <= n * hi
    ensures size <= period / n <= hi
  {
    DivBounds(period, n);
    if size > period / n {
      MulMonoStrict(period / n, size, n);
    }
    if period / n > hi {
      MulMonoStrict(hi, period / n, n);
    }
  }

  // With the split, two URBs make such a share: the size is the largest number
  // of whole packets of which twice the fewest URBs fit in the period.
  lemma SplitPeriodHalvesTheUrb(c: Config, r: Rate, period: nat, size: nat)
    requires c.Valid() && r in RATES
    requires SplitPeriod(c, r, period)
    requires UrbFrames(c, r, period) > RoundUp(Max(c.urbFramesMin, r.minFpu), r.minFpu)
    requires size % r.minFpu == 0
    requires 2 * size * DivRoundUp(period, RoundDown(c.framesPerUrb, r.minFpu)) <= period
    ensures 2 * UrbFrames(c, r, period) * DivRoundUp(period, RoundDown(c.framesPerUrb, r.minFpu)) <= period
    ensures size <= UrbFrames(c, r, period)
  {
    PacketOfARate(r);
    var pkt := r.minFpu;
    var hi := RoundDown(c.framesPerUrb, pkt);
    var n := DivRoundUp(period, hi);
    var part := period / n;
    DivRoundUpBounds(period, hi);
    DivBounds(period, n);
    if 2 * size > part {
      MulMonoStrict(part, 2 * size, n);
    }
    if part > hi {
      MulMonoStrict(hi, part, n);
    }
    HalvesInPackets(part, pkt, size);
    var urb := UrbFrames(c, r, period);
    assert urb == RoundDown(RoundDown(part, pkt) / 2, pkt);
    MulMono(2 * urb, part, n);
  }

  lemma HalvesInPackets(part: nat, pkt: nat, size: nat)
    requires pkt in {8, 16, 32} && size % pkt == 0 && 2 * size <= part
    ensures size <= RoundDown(RoundDown(part, pkt) / 2, pkt)
    ensures 2 * RoundDown(RoundDown(part, pkt) / 2, pkt) <= RoundDown(part, pkt) <= part
  {
    LargestMultipleBelow(part, pkt, 2 * size);
    RoundDownIsGreatest(part, pkt);
    LargestMultipleBelow(RoundDown(part, pkt) / 2, pkt, size);
    RoundDownIsGreatest(RoundDown(part, pkt) / 2, pkt);
  }

  // The queue holds two periods in whole URBs, and one URB less with the
  // split, as far as the limits allow: q is the number of URBs in a period.
  lemma QueueInWholeUrbs(c: Config, r: Rate, period: nat, urb: nat, q: nat)
    requires c.Valid() && urb > 0 && q * urb <= period < (q + 1) * urb
    ensures UrbCount(c, r, period, urb) ==
            Clamp(if SplitPeriod(c, r, period) then 2 * q - 1 else 2 * q, 2, c.nurbs)
  {
    hide SplitPeriod;
    QuotientOf(period, urb, q);
  }

  // The period of a session never exceeds the period it was chosen for.
  lemma ChosenSessionFitsItsPeriod(c: Config, r: Rate, period: nat)
    requires c.Valid() && r in RATES
    requires UrbFrames(c, r, period) != 0
    ensures var urb := UrbFrames(c, r, period);
            var n := UrbCount(c, r, period, urb);
            2 <= n <= c.nurbs && SessionPeriod(urb, n) <= period
  {
    UrbFramesFindsAFit(c, r, period);
    QueueOfAPeriod(c, r, period, UrbFrames(c, r, period));
  }

  lemma QueueOfAPeriod(c: Config, r: Rate, period: nat, urb: nat)
    requires c.Valid() && 0 < urb <= period
    ensures var n := UrbCount(c, r, period, urb);
            2 <= n <= c.nurbs && SessionPeriod(urb, n) <= period
  {
    var q := period / urb;
    DivBounds(period, urb);
    if q < 1 {
      MulMono(q, 0, urb);
    }
    var n := UrbCount(c, r, period, urb);
    MulMono(DivRoundUp(n, 2), q, urb);
  }

  // A direction whose period is at least the session's: one URB fits its
  // period and the whole queue fits two of them, so no more is ever queued
  // than its buffer of at least two periods holds.
  lemma AcceptedPeriodHoldsTheQueue(urb: nat, n: nat, period: nat, buffer: nat)
    requires n >= 1 && SessionPeriod(urb, n) <= period
    requires buffer >= 2 * period
    ensures urb <= period
    ensures n * urb <= 2 * period <= buffer
  {
    var h := DivRoundUp(n, 2);
    MulMono(1, h, urb);
    MulMono(n, 2 * h, urb);
  }
}
