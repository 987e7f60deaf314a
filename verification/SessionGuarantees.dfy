/** What the session promises in every state that a run from probe reaches. */
module SessionGuarantees {
  import opened Wrappers
  import opened Geometry
  import opened Session
  import opened SessionControl
  import opened SessionGeometry
  import opened SessionUrbs
  import opened SessionRuns

  // A running substream has the rate of the session, one URB fits its period
  // and the queue fits two of its periods; and the session is live, or the stop
  // of the substream is on its way.  This holds but for a substream that a
  // start which failed after setting streaming left behind.
  lemma RunningFitsTheSession(s: State, d: Dir)
    requires Reachable(s)
    ensures |s.ctl.subs| == 2
    ensures s.ctl.subs[d].orphan ==> s.ctl.flags.failedLate
    ensures s.ctl.subs[d].running && !s.ctl.subs[d].orphan ==>
              var sub, g := s.ctl.subs[d], s.ctl.geo;
              && sub.rate == g.rate
              && sub.period >= SessionPeriod(g.frames, g.active)
              && g.frames <= sub.period
              && g.active * g.frames <= 2 * sub.period
              && (s.ctl.flags.streaming || StopToCome(s.ctl.flags, d))
  {
    hide BusInv, ParamsOk, WholePackets, Alone, ChooserFits, RateOf, UrbFrames;
    ReachableInv(s);
    var sub, g := s.ctl.subs[d], s.ctl.geo;
    if sub.running && !sub.orphan {
      AcceptedPeriodHoldsTheQueue(g.frames, g.active, sub.period, 2 * sub.period);
    }
  }

  // What a completion moves is a URB of the current geometry, so for a running
  // substream it crosses at most one period boundary.
  lemma CompletionFitsThePeriod(s: State, d: Dir, k: nat)
    requires Reachable(s) && k < |s.bus.urbs| && !s.bus.urbs[k].Idle?
    ensures |s.ctl.subs| == 2 && s.bus.urbLen == s.ctl.geo.frames
    ensures s.ctl.subs[d].running && !s.ctl.subs[d].orphan ==> s.bus.urbLen <= s.ctl.subs[d].period
  {
    hide CtlInv, GeoInv, AllErrOk, AllLostOk, LostCounted;
    ReachableInv(s);
    RunningFitsTheSession(s, d);
    assert InSession(s.ctl.geo, s.ctl.flags, s.bus, s.bus.urbs[k], k);
  }

  // The geometry: whole packets of the rate in every URB, at least two URBs
  // and no more than allocated, and a period that the direction which chose it
  // can hold.  Only hw_params, at the two points between its writes, is in
  // between.
  lemma GeometryHolds(s: State)
    requires Reachable(s)
    ensures 2 <= s.ctl.geo.active <= s.cfg.nurbs
    ensures s.ctl.flags.holder == Free ==>
              && |s.ctl.subs| == 2
              && RateOf(s.ctl.geo.rate).Some?
              && 0 < s.ctl.geo.frames <= s.cfg.framesPerUrb
              && s.ctl.geo.frames % RateOf(s.ctl.geo.rate).value.minFpu == 0
              && (var sub := s.ctl.subs[s.ctl.sessionDir];
                  sub.phase == SetUp && sub.op == NoOp ==>
                    SessionPeriod(s.ctl.geo.frames, s.ctl.geo.active) <= sub.period)
  {
    hide CtlInv, BusInv, ParamsOk, RateOf, SessionPeriod;
    ReachableInv(s);
  }

  // Without a session, once the kill loop is over, no URB is in flight and no
  // handler runs, whatever the handlers were doing when it began.
  lemma KillLeavesNothingBehind(s: State, k: nat)
    requires Reachable(s) && k < |s.bus.urbs| && !s.ctl.flags.streaming
    requires s.ctl.flags.holder.At? ==>
               && !s.ctl.flags.holder.pc.KillWait?
               && (s.ctl.flags.holder.pc.KillNext? ==> s.ctl.flags.holder.pc.k >= |s.bus.urbs|)
    ensures s.bus.urbs[k] == Idle
  {
    ReachableInv(s);
    NothingInFlight(s, k);
  }

  lemma NothingInFlight(s: State, k: nat)
    requires Inv(s) && k < |s.bus.urbs| && !s.ctl.flags.streaming
    requires s.ctl.flags.holder.At? ==>
               && !s.ctl.flags.holder.pc.KillWait?
               && (s.ctl.flags.holder.pc.KillNext? ==> s.ctl.flags.holder.pc.k >= |s.bus.urbs|)
    ensures s.bus.urbs[k] == Idle
  {
    hide CtlInv, GeoInv, AllErrOk, AllLostOk, LostCounted;
    assert InSession(s.ctl.geo, s.ctl.flags, s.bus, s.bus.urbs[k], k);
  }

  // The last user takes the session with it: whenever the mutex is free, a
  // session has a direction that is set up, and without one no URB is in flight
  // and no handler runs.
  lemma ASessionHasAUser(s: State)
    requires Reachable(s) && s.ctl.flags.holder == Free
    ensures |s.ctl.subs| == 2
    ensures s.ctl.flags.streaming ==> s.ctl.subs[0].setup || s.ctl.subs[1].setup
    ensures !s.ctl.subs[0].setup && !s.ctl.subs[1].setup ==>
              !s.ctl.flags.streaming && forall k :: 0 <= k < |s.bus.urbs| ==> s.bus.urbs[k] == Idle
  {
    hide BusInv, GeoInv, DirOk;
    ReachableInv(s);
    UsersOnly(s);
  }

  lemma UsersOnly(s: State)
    requires Inv(s) && s.ctl.flags.holder == Free
    ensures s.ctl.flags.streaming ==> s.ctl.subs[0].setup || s.ctl.subs[1].setup
    ensures !s.ctl.subs[0].setup && !s.ctl.subs[1].setup ==>
              !s.ctl.flags.streaming && forall k :: 0 <= k < |s.bus.urbs| ==> s.bus.urbs[k] == Idle
  {
    hide BusInv, GeoInv, DirOk;
    if !s.ctl.subs[0].setup && !s.ctl.subs[1].setup {
      forall k | 0 <= k < |s.bus.urbs| ensures s.bus.urbs[k] == Idle {
        NothingInFlight(s, k);
      }
    }
  }

  // stream_work stops a session only for errors of that session: three of its
  // own URBs came back bad, or one could not be resubmitted.
  lemma OnlyOwnErrorsStopASession(s: State)
    requires Reachable(s)
    requires s.ctl.flags.holder == At(StreamWork, TestErr)
    requires s.bus.urbErr >= URB_ERR_STOP
    ensures s.bus.bad >= URB_ERR_STOP || s.bus.failed
    ensures forall k :: 0 <= k < |s.bus.urbs| && !s.bus.urbs[k].Idle? ==>
                          s.bus.urbs[k].session == s.bus.session
  {
    hide CtlInv, GeoInv, AllErrOk, AllLostOk, LostCounted;
    ReachableInv(s);
    forall k | 0 <= k < |s.bus.urbs| && !s.bus.urbs[k].Idle?
      ensures s.bus.urbs[k].session == s.bus.session
    {
      assert InSession(s.ctl.geo, s.ctl.flags, s.bus, s.bus.urbs[k], k);
    }
  }

  // The start has submitted all URBs, and is not about to take them back.
  predicate FullyStarted(f: Flags) {
    f.streaming && !(f.holder.At? && (f.holder.pc.StartSubmit? || FailedStart(f.holder)))
  }

  // In a started session whose URBs all come back neither killed nor gone, a
  // URB that left its queue has the error count at the limit, which no good
  // completion can take back; and while the card is there, stream_work is on
  // its way.
  lemma MissingUrbStopsTheSession(s: State, k: nat)
    requires Reachable(s) && FullyStarted(s.ctl.flags)
    requires !s.bus.gone && k < 2 * s.ctl.geo.active
    ensures |s.bus.urbs| >= 2 * s.ctl.geo.active
    ensures s.bus.urbs[k] == Idle ==> s.bus.urbErr >= URB_ERR_STOP
    ensures s.bus.urbs[k] == Idle && !s.ctl.flags.shutdown ==> WorkPending(s.ctl.flags.holder, s.bus)
  {
    hide CtlInv, AllInSession, AllLostOk, LostCounted, ParamsOk, WholePackets, Alone, ChooserFits;
    ReachableInv(s);
    assert ErrOk(s.ctl.geo, s.ctl.flags, s.bus, s.bus.urbs[k], k);
  }

  // bf_out_lost has not been run for the URB.
  predicate Counted(u: UrbState) { !u.Idle? && !PastLost(u) }

  // out_inflight is the number of OUT URBs that are not lost.
  lemma OutInflightIsExact(s: State)
    requires Reachable(s) && FullyStarted(s.ctl.flags) && !s.bus.gone
    ensures |s.bus.urbs| >= 2 * s.ctl.geo.active
    ensures s.bus.outInflight ==
              |set k: nat | k in OutUrbs(s.ctl.geo.active) && Counted(s.bus.urbs[k])|
  {
    hide CtlInv, AllInSession, AllErrOk, ParamsOk, WholePackets, Alone, ChooserFits;
    ReachableInv(s);
    var n, lost := s.ctl.geo.active, s.bus.lost;
    var counted := set k: nat | k in OutUrbs(n) && Counted(s.bus.urbs[k]);
    forall k: nat | k in OutUrbs(n) ensures k in lost <==> !Counted(s.bus.urbs[k]) {
      assert LostOk(s.ctl.geo, s.ctl.flags, s.bus, s.bus.urbs[k], k);
    }
    assert counted == OutUrbs(n) - lost;
    assert OutUrbs(n) * lost == lost;
  }
}
