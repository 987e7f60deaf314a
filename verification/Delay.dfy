/** runtime->delay: the audio between the ring and the converters, which
    bf_delay derives from the queue and from one time reference. */
module Delay {
  import opened Wrappers
  import opened Arith
  import opened Geometry
  import opened Session
  import opened SessionControl
  import opened SessionUrbs
  import opened SessionRuns
  import opened SessionGuarantees

  const TWO64 := 0x1_0000_0000_0000_0000
  const NSEC_PER_SEC := 1_000_000_000

  // How long after a completion time x rate still fits 64 bits: 26 hours.
  const A_DAY := 96_000_000_000_000

  // The fixed delay inside the device, per speed.
  function PlaybackDelay(alt: nat): nat {
    if alt == 1 then 40 else if alt == 2 then 72 else 136
  }

  function CaptureDelay(alt: nat): nat {
    if alt == 1 then 16 else if alt == 2 then 24 else 38
  }

  // What the device has moved since the last IN completion, at most one URB.
  // The product wraps around in 64 bits.
  function Moved(ns: int, rate: nat, urb: nat): nat {
    if ns > 0 then Min(ns * rate % TWO64 / NSEC_PER_SEC, urb) else 0
  }

  const CAPTURE: Dir := 1
  const PLAYBACK: Dir := 0

  // bf_delay.  An intermediate below zero would wrap around: see NoUnderflow.
  function DelayOf(d: Dir, ns: int, rate: nat, alt: nat, urb: nat, outInflight: nat): int {
    var moved := Moved(ns, rate, urb);
    if d == CAPTURE then moved + CaptureDelay(alt)
    else if outInflight < 2 then 0
    else (outInflight - 1) * urb - moved + PlaybackDelay(alt)
  }

  function ReportedDelay(s: State, d: Dir, ns: int): int
    requires Shaped(s) && RateOf(s.ctl.geo.rate).Some?
  {
    DelayOf(d, ns, s.ctl.subs[d].rate, RateOf(s.ctl.geo.rate).value.alt, s.ctl.geo.frames, s.bus.outInflight)
  }

  // The unsigned subtraction of bf_delay never wraps, whatever the clock says
  // and even where the product of time and rate has wrapped.
  lemma NoUnderflow(ns: int, rate: nat, urb: nat, outInflight: nat)
    requires outInflight >= 2
    ensures (outInflight - 1) * urb - Moved(ns, rate, urb) >= 0
  {
    MulMono(1, outInflight - 1, urb);
  }

  // What bf_delay says, direction by direction, in numbers: the capture delay is
  // what the device has recorded since the last IN completion on top of the
  // converter, the playback delay what it has not yet played of the queue but
  // for the URB that was played by then.  The time is up to a day old.
  predicate DelaysAt(ns: int, rate: nat, alt: nat, urb: nat, outInflight: nat, capture: int, playback: int)
    requires alt >= 1
  {
    var recorded := capture - (if alt == 1 then 16 else if alt == 2 then 24 else 38);
    && 0 <= recorded <= urb
    && (ns <= 0 ==> recorded == 0)
    && (0 <= ns <= A_DAY ==>
          && recorded * NSEC_PER_SEC <= ns * rate
          && (recorded < urb ==> ns * rate < (recorded + 1) * NSEC_PER_SEC))
    && (outInflight < 2 ==> playback == 0)
    && (outInflight >= 2 ==>
          && playback - (8 + 32 * Pow2(alt - 1)) == (outInflight - 1) * urb - recorded
          && playback - (8 + 32 * Pow2(alt - 1)) >= 0)
  }

  lemma EachDelay(ns: int, rate: nat, alt: nat, urb: nat, outInflight: nat)
    requires 1 <= alt <= 3 && rate <= 192_000
    ensures DelaysAt(ns, rate, alt, urb, outInflight, DelayOf(CAPTURE, ns, rate, alt, urb, outInflight),
                     DelayOf(PLAYBACK, ns, rate, alt, urb, outInflight))
  {
    assert Pow2(0) == 1 && Pow2(1) == 2 && Pow2(2) == 4;
    if outInflight >= 2 {
      NoUnderflow(ns, rate, urb, outInflight);
    }
    if 0 <= ns <= A_DAY {
      MovedIsTimeTimesRate(ns, rate, urb);
    }
  }

  // From one instant to a later one the capture delay grows, and the playback
  // delay falls, by the same frames: those that fit the time between them, to
  // the frame, until a URB is full.
  lemma DelaysFollowTheClock(ns: int, later: int, rate: nat, alt: nat, urb: nat, outInflight: nat)
    requires 0 <= ns <= later <= A_DAY && 1 <= alt <= 3 && rate <= 192_000 && outInflight >= 2
    ensures var grown := DelayOf(CAPTURE, later, rate, alt, urb, outInflight)
                         - DelayOf(CAPTURE, ns, rate, alt, urb, outInflight);
            && 0 <= grown <= urb
            && DelayOf(PLAYBACK, later, rate, alt, urb, outInflight)
               == DelayOf(PLAYBACK, ns, rate, alt, urb, outInflight) - grown
            && grown * NSEC_PER_SEC < (later - ns) * rate + NSEC_PER_SEC
            && (DelayOf(CAPTURE, later, rate, alt, urb, outInflight) < DelayOf(CAPTURE, 0, rate, alt, urb, outInflight)
                                                                        + urb ==>
                  (later - ns) * rate < (grown + 1) * NSEC_PER_SEC)
  {
    hide DelayOf;
    EachDelay(0, rate, alt, urb, outInflight);
    EachDelay(ns, rate, alt, urb, outInflight);
    EachDelay(later, rate, alt, urb, outInflight);
    MulMono(ns, later, rate);
    assert (later - ns) * rate == later * rate - ns * rate;
  }

  // One millisecond after an IN completion at 48 kHz, with four URBs of 128
  // frames in the OUT queue.
  lemma DelaysForExample()
    ensures DelayOf(CAPTURE, 1_000_000, 48_000, 1, 128, 4) == 64
    ensures DelayOf(PLAYBACK, 1_000_000, 48_000, 1, 128, 4) == 376
  {
    QuotientOf(1_000_000 * 48_000, NSEC_PER_SEC, 48);
  }

  // The two delays that the substreams of one session report at one instant:
  // each as above, with the URBs that the OUT queue really holds.  They add up
  // to what that queue and the converters hold, so the round trip does not
  // depend on when it is read.
  lemma RoundTripIsTheQueue(s: State, ns: int, counted: set<nat>)
    requires Reachable(s) && FullyStarted(s.ctl.flags) && !s.bus.gone
    requires Shaped(s) && |s.bus.urbs| >= 2 * s.ctl.geo.active
    requires RateOf(s.ctl.geo.rate).Some?
    requires forall d: Dir :: s.ctl.subs[d].running && !s.ctl.subs[d].orphan
    requires counted == set k: nat | k in OutUrbs(s.ctl.geo.active) && Counted(s.bus.urbs[k])
    ensures var alt := RateOf(s.ctl.geo.rate).value.alt;
            && alt >= 1
            && DelaysAt(ns, s.ctl.geo.rate, alt, s.ctl.geo.frames, |counted|, ReportedDelay(s, CAPTURE, ns),
                        ReportedDelay(s, PLAYBACK, ns))
            && (|counted| >= 2 ==>
                  ReportedDelay(s, PLAYBACK, ns) + ReportedDelay(s, CAPTURE, ns) ==
                  (|counted| - 1) * s.ctl.geo.frames + PlaybackDelay(alt) + CaptureDelay(alt))
  {
    hide Reachable, RateOf, SessionPeriod, StopToCome, Moved, OutUrbs, Counted, FullyStarted, PlaybackDelay,
      CaptureDelay, DelaysAt;
    RunningFitsTheSession(s, PLAYBACK);
    RunningFitsTheSession(s, CAPTURE);
    OutInflightIsExact(s);
    SpeedOfARate(s.ctl.geo.rate);
    EachDelay(ns, s.ctl.geo.rate, RateOf(s.ctl.geo.rate).value.alt, s.ctl.geo.frames, |counted|);
  }

  lemma SpeedOfARate(rate: nat)
    requires RateOf(rate).Some?
    ensures 1 <= RateOf(rate).value.alt <= 3 && rate <= 192_000
  {
  }

  // What has moved is the time times the rate, to the frame, until the product
  // needs more than 64 bits: at 192 kHz, a day after the last completion.
  lemma MovedIsTimeTimesRate(ns: int, rate: nat, urb: nat)
    requires 0 <= ns <= A_DAY && rate <= 192_000
    ensures var moved := Moved(ns, rate, urb);
            && moved <= urb
            && moved * NSEC_PER_SEC <= ns * rate
            && (moved < urb ==> ns * rate < (moved + 1) * NSEC_PER_SEC)
  {
    MulMono(ns, A_DAY, rate);
    MulMono(rate, 192_000, A_DAY);
    MulMono(0, ns, rate);
    NoWrap(ns * rate);
    DivBounds(ns * rate, NSEC_PER_SEC);
    MulMono(Moved(ns, rate, urb), ns * rate / NSEC_PER_SEC, NSEC_PER_SEC);
  }

  lemma NoWrap(x: int)
    requires 0 <= x < TWO64
    ensures x % TWO64 == x
  {
  }
}
