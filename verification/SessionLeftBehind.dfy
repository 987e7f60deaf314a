/** The substreams that RunningFitsTheSession leaves out, exactly: which ones a
    start that fails after setting streaming leaves behind, and when hw_params
    then takes the session from under one of them. */
module SessionLeftBehind {
  import opened Wrappers
  import opened Geometry
  import opened Session
  import opened SessionControl
  import opened SessionGeometry
  import opened SessionUrbs
  import opened SessionRuns
  import opened SessionCalls
  import P = PcmSetup

  // The substream runs, or its START has passed the test of streaming and will
  // pass those that are left.
  predicate WillRun(g: Geo, sub: Sub) {
    sub.running ||
    (sub.op.Start? &&
     match sub.op.at
     case StreamLocked => false
     case SawStreaming => sub.rate == g.rate && !TooShort(sub.period, g.frames, g.active)
     case SawRate => !TooShort(sub.period, g.frames, g.active)
     case SawFrames(frames) => !TooShort(sub.period, frames, g.active)
     case SawGeometry(frames, active) => !TooShort(sub.period, frames, active))
  }

  // A START of x that fits the session passes its test of streaming.
  predicate Passes(s: State, a: Action, x: Dir)
    requires Shaped(s)
  {
    var sub := s.ctl.subs[x];
    && a == Core(x, StepStart) && sub.op == Start(StreamLocked) && s.ctl.flags.streaming
    && sub.rate == s.ctl.geo.rate && !TooShort(sub.period, s.ctl.geo.frames, s.ctl.geo.active)
  }

  // Some START of x does so in the run.
  predicate SlipsIn(s: State, acts: seq<Action>, x: Dir)
    requires Possible(s, acts)
    decreases |acts|
  {
    acts != [] && (Passes(s, acts[0], x) || SlipsIn(Next(s, acts[0]), acts[1..], x))
  }

  // The run ends where it lets go of the mutex.
  predicate UntilReleased(s: State, acts: seq<Action>)
    requires Possible(s, acts)
    decreases |acts|
  {
    if acts == [] then s.ctl.flags.holder == Free
    else FailedStart(s.ctl.flags.holder) && UntilReleased(Next(s, acts[0]), acts[1..])
  }

  // What a step of any actor does while a failed start cleans up.
  predicate Undecided(s: State, a: Action, x: Dir, c': Ctl)
    requires Shaped(s)
  {
    && |c'.subs| == 2 && c'.geo == s.ctl.geo
    && (WillRun(c'.geo, c'.subs[x]) <==> WillRun(s.ctl.geo, s.ctl.subs[x]) || Passes(s, a, x))
    && (c'.flags.holder == Free ==> Released(c', x))
    && (FailedStart(c'.flags.holder) || c'.flags.holder == Free)
  }

  // The failed start is over: there is no session, and x, should it run, is on
  // its own.
  predicate Released(c: Ctl, x: Dir)
    requires |c.subs| == 2
  {
    && c.flags.holder == Free && !c.flags.streaming
    && (WillRun(c.geo, c.subs[x]) ==> c.subs[x].orphan && !StopToCome(c.flags, x))
  }

  lemma HolderWhileFailing(s: State, ok: bool, x: Dir)
    requires Inv(s) && Enabled(s, StepHolder(ok)) && FailedStart(s.ctl.flags.holder)
    ensures Undecided(s, StepHolder(ok), x, NextCtl(s, StepHolder(ok)))
  {
    FailingHolder(s, x);
    hide Inv, StepMutex, StepKillOrStop, TooShort;
    StepOf(s.cfg, s.ctl, s.bus, ok);
    KillWhileFailing(s.ctl, |s.bus.urbs|, x);
  }

  // What the invariant knows of a failed start and of the substream it is for.
  lemma FailingHolder(s: State, x: Dir)
    requires Inv(s) && FailedStart(s.ctl.flags.holder)
    ensures Shaped(s) && KillingPc(s.ctl.flags.holder.pc)
    ensures s.ctl.flags.holder.pc.KillNext? || s.ctl.flags.holder.pc.KillWait? ==> !s.ctl.flags.streaming
    ensures !DisconnectPast(s.ctl.flags.disc)
    ensures x == s.ctl.flags.holder.prog.d ==> s.ctl.subs[x].op == InPrepare
    ensures !s.ctl.flags.holder.pc.Clear? && WillRun(s.ctl.geo, s.ctl.subs[x]) ==> s.ctl.subs[x].orphan
  {
    hide BusInv, GeoInv, TooShort, Fitting, Seen;
    if x == 0 {} else {}
  }

  lemma KillWhileFailing(c: Ctl, nurbs: nat, x: Dir)
    requires |c.subs| == 2 && FailedStart(c.flags.holder) && KillingPc(c.flags.holder.pc)
    requires c.flags.holder.pc.KillNext? || c.flags.holder.pc.KillWait? ==> !c.flags.streaming
    requires !DisconnectPast(c.flags.disc)
    requires x == c.flags.holder.prog.d ==> c.subs[x].op == InPrepare
    requires !c.flags.holder.pc.Clear? && WillRun(c.geo, c.subs[x]) ==> c.subs[x].orphan
    ensures var c' := StepKillOrStop(c, nurbs);
            && |c'.subs| == 2 && c'.geo == c.geo
            && (WillRun(c'.geo, c'.subs[x]) <==> WillRun(c.geo, c.subs[x]))
            && (c'.flags.holder == Free ==> Released(c', x))
            && (FailedStart(c'.flags.holder) || c'.flags.holder == Free)
  {
    hide TooShort;
    if x == 0 {} else {}
  }

  lemma CallWhileFailing(s: State, d: Dir, call: Call, x: Dir)
    requires Inv(s) && Enabled(s, Core(d, call)) && FailedStart(s.ctl.flags.holder) && !(d == x && call == Stop)
    ensures Undecided(s, Core(d, call), x, NextCtl(s, Core(d, call)))
  {
    SubFacts(s, x);
    hide Inv, TooShort, WillRun, CallSub, CallHolder, CallEnabled, UrbFrames;
    if d == x {
      CallWillRun(s, d, call);
    }
    HeldByStart(s.cfg, s.ctl.flags.holder, s.ctl.subs[d], d, call);
  }

  lemma SubFacts(s: State, x: Dir)
    requires Inv(s)
    ensures Shaped(s) && (s.ctl.subs[x].running ==> s.ctl.subs[x].op == NoOp)
  {
    hide BusInv, GeoInv, SubOk, FlagsOk;
    if x == 0 {} else {}
  }

  lemma HeldByStart(cfg: Config, h: Holder, sub: Sub, d: Dir, call: Call)
    requires FailedStart(h) && CallEnabled(cfg, h, sub, call)
    ensures CallHolder(cfg, h, d, call) == h
  {
    hide UrbFrames, RateOf;
  }

  lemma CallWillRun(s: State, x: Dir, call: Call)
    requires Shaped(s) && call != Stop
    requires var sub := s.ctl.subs[x];
             CallEnabled(s.cfg, s.ctl.flags.holder, sub, call) && (sub.running ==> sub.op == NoOp)
    ensures var g, sub := s.ctl.geo, s.ctl.subs[x];
            WillRun(g, CallSub(g, s.ctl.flags.streaming, sub, call)) <==> WillRun(g, sub) || Passes(s, Core(x, call), x)
  {
    hide TooShort, UrbFrames, RateOf;
  }

  lemma OthersWhileFailing(s: State, a: Action, x: Dir)
    requires Inv(s) && Enabled(s, a) && FailedStart(s.ctl.flags.holder) && !a.Core? && !a.StepHolder?
    ensures Undecided(s, a, x, NextCtl(s, a))
  {
    hide BusInv, GeoInv, TooShort, SubOk, StopToCome;
  }

  lemma StepWhileFailing(s: State, a: Action, x: Dir)
    requires Inv(s) && Shaped(s) && Enabled(s, a) && FailedStart(s.ctl.flags.holder) && a != Core(x, Stop)
    ensures Undecided(s, a, x, NextCtl(s, a))
  {
    hide Inv, Shaped, Enabled, NextCtl, Undecided;
    match a
    case Core(d, call) => CallWhileFailing(s, d, call, x);
    case StepHolder(ok) => HolderWhileFailing(s, ok, x);
    case _ => OthersWhileFailing(s, a, x);
  }

  lemma {:induction false} LeftBehindRun(s: State, acts: seq<Action>, x: Dir)
    requires Inv(s) && |s.ctl.subs| == 2 && FailedStart(s.ctl.flags.holder)
    requires Possible(s, acts) && UntilReleased(s, acts) && Core(x, Stop) !in acts
    ensures var c := Run(s, acts).ctl;
            |c.subs| == 2 && Released(c, x) &&
            (WillRun(c.geo, c.subs[x]) <==> WillRun(s.ctl.geo, s.ctl.subs[x]) || SlipsIn(s, acts, x))
    decreases |acts|
  {
    hide Inv, Enabled, NextCtl, NextBus, WillRun, Released, Passes;
    var t := Next(s, acts[0]);
    StepWhileFailing(s, acts[0], x);
    NextKeepsInv(s, acts[0]);
    if acts[1..] != [] {
      LeftBehindRun(t, acts[1..], x);
    }
  }

  // A start that failed after setting streaming, from the step that failed to
  // the release of the mutex, whatever the other actors do meanwhile - the
  // application not stopping x itself: x is left running, or about to, with no
  // session and no stop on its way, if and only if it was going to run when
  // the start failed, or a START of x that fits the session finds streaming
  // still set.
  lemma FailedStartLeavesBehind(s: State, acts: seq<Action>, x: Dir)
    requires Reachable(s) && FailedStart(s.ctl.flags.holder)
    requires Possible(s, acts) && UntilReleased(s, acts) && Core(x, Stop) !in acts
    ensures var c := Run(s, acts).ctl;
            && |s.ctl.subs| == 2 && |c.subs| == 2 && c.flags.holder == Free && !c.flags.streaming
            && (WillRun(c.geo, c.subs[x]) && c.subs[x].orphan && !StopToCome(c.flags, x) <==>
                  WillRun(s.ctl.geo, s.ctl.subs[x]) || SlipsIn(s, acts, x))
  {
    hide Inv, SlipsIn, UntilReleased, WillRun;
    ReachableInv(s);
    InvShaped(s);
    LeftBehindRun(s, acts, x);
  }

  // A substream left behind still has the rate and the period of the card at
  // first.  From any reachable state where it has, hw_params of the other
  // direction, however the URBs come between its steps, takes the session from
  // under it if and only if no session has been started since, the card is
  // there, no other process holds the clock, the call succeeds, and it asks for
  // another rate or chooses URBs too long for the period.
  lemma ParamsTakesTheSession(s: State, d: Dir, r: Rate, period: nat, acts: seq<Action>)
    requires Reachable(s) && Shaped(s) && Enabled(s, Core(d, BeginParams(r, period)))
    requires var t := Next(s, Core(d, BeginParams(r, period)));
             AllInside(acts) && Possible(t, acts) && Run(t, acts).ctl.flags.holder == Free
    requires s.ctl.subs[Other(d)].running && Fits(s.ctl, Other(d))
    ensures var e, q := Run(Next(s, Core(d, BeginParams(r, period))), acts).ctl, AskedFor(s.cfg, r, period);
            && |e.subs| == 2
            && (e.subs[Other(d)].running && !Fits(e, Other(d)) <==>
                  && Unprotected(s.ctl, d) && e.subs[d].op.Returned?
                  && (r.rate == s.ctl.geo.rate ==>
                        P.Chooses(View(s.ctl), d, q) && TooShort(s.ctl.subs[Other(d)].period, q.urb, q.n)))
            && (e.subs[Other(d)].running && e.geo.rate != s.ctl.geo.rate <==>
                  Unprotected(s.ctl, d) && e.subs[d].op.Returned? && r.rate != s.ctl.geo.rate)
  {
    hide Reachable, Enabled, Next, Possible, UrbFrames, UrbCount, P.ParamsCall, P.Chooses, SessionPeriod;
    ParamsReturns(s, d, r, period, acts);
    var f, q, x := View(s.ctl), AskedFor(s.cfg, r, period), Other(d);
    var e := Run(Next(s, Core(d, BeginParams(r, period))), acts).ctl;
    ViewFacts(s.ctl, d);
    SubView(s.ctl, x);
    SubView(e, x);
    forall ok | Returns(e, d, q, P.ParamsCall(f, d, q, ok))
      ensures e.subs[x].running && !Fits(e, x) <==>
                && !f.streaming && !f.shutdown && !f.Held(d) && e.subs[d].op.Returned?
                && (q.rate == f.rate ==> P.Chooses(f, d, q) && TooShort(s.ctl.subs[x].period, q.urb, q.n))
      ensures e.subs[x].running && e.geo.rate != f.rate <==>
                !f.streaming && !f.shutdown && !f.Held(d) && e.subs[d].op.Returned? && q.rate != f.rate
    {
      P.LeftBehindLosesTheSession(f, d, q, ok);
      P.ParamsKeepTheRuntimes(f, d, q, ok);
    }
  }

  // The runtime of the substream matches the session.
  predicate Fits(c: Ctl, x: Dir)
    requires |c.subs| == 2
  {
    c.subs[x].rate == c.geo.rate && !TooShort(c.subs[x].period, c.geo.frames, c.geo.active)
  }

  // Nothing keeps hw_params of d from changing the session without a stop.
  predicate Unprotected(c: Ctl, d: Dir)
    requires |c.subs| == 2
  {
    !c.flags.streaming && !c.flags.shutdown && !OtherHoldsClock(c.subs[d], c.subs[Other(d)])
  }

  lemma SubView(c: Ctl, x: Dir)
    requires |c.subs| == 2
    ensures View(c).running[x] == c.subs[x].running && View(c).rtRate[x] == c.subs[x].rate
    ensures View(c).rtPeriod[x] == c.subs[x].period && View(c).rate == c.geo.rate
    ensures View(c).urbFrames == c.geo.frames && View(c).urbsActive == c.geo.active
  {
  }
}
