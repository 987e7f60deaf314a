/** What ends a session for good: three bad URBs in a row are counted, the work
    they queue stops both substreams, and so does the disconnect of the card. */
module SessionStops {
  import opened Wrappers
  import opened Arith
  import opened Geometry
  import opened Session
  import opened SessionControl
  import opened SessionGeometry
  import opened SessionUrbs
  import opened SessionRuns
  import opened SessionGuarantees
  import Calls = SessionCalls

  // --------------------------------------------------------- the error count

  // The step counts a bad completion, ...
  predicate CountsBad(s: State, a: Action) {
    a.StepHandler? && a.k < |s.bus.urbs| && s.bus.urbs[a.k].Handler? && s.bus.urbs[a.k].at == Completed(Bad)
  }

  // ... or may take the count back: a good completion, or the start or the stop
  // of a session.
  predicate TakesBack(s: State, a: Action) {
    || (a.StepHandler? && a.k < |s.bus.urbs| && s.bus.urbs[a.k].Handler? && s.bus.urbs[a.k].at.OkLoop?)
    || (a.StepHolder? && s.ctl.flags.holder.At?
        && (s.ctl.flags.holder.pc.StartErr? || s.ctl.flags.holder.pc.ClearErr?))
  }

  function BadUrbs(s: State, acts: seq<Action>): nat
    requires Possible(s, acts)
    decreases |acts|
  {
    if acts == [] then 0
    else (if CountsBad(s, acts[0]) then 1 else 0) + BadUrbs(Next(s, acts[0]), acts[1..])
  }

  predicate NothingTakenBack(s: State, acts: seq<Action>)
    requires Possible(s, acts)
    decreases |acts|
  {
    acts == [] || (!TakesBack(s, acts[0]) && NothingTakenBack(Next(s, acts[0]), acts[1..]))
  }

  lemma CountStep(s: State, a: Action)
    requires Shaped(s) && Enabled(s, a) && !TakesBack(s, a)
    ensures NextBus(s, a).urbErr >= Min(URB_ERR_STOP, s.bus.urbErr + (if CountsBad(s, a) then 1 else 0))
  {
    hide UrbAfter;
  }

  // Bad URBs one after the other, of either queue and however the rest goes on
  // beside them, add up to the limit; a resubmit that fails is at it by itself.
  lemma {:induction false} BadUrbsAddUp(s: State, acts: seq<Action>)
    requires Possible(s, acts) && NothingTakenBack(s, acts)
    ensures Run(s, acts).bus.urbErr >= Min(URB_ERR_STOP, s.bus.urbErr + BadUrbs(s, acts))
    decreases |acts|
  {
    hide Shaped, Enabled, NextBus, NextCtl, TakesBack, CountsBad;
    if acts != [] {
      CountStep(s, acts[0]);
      BadUrbsAddUp(Next(s, acts[0]), acts[1..]);
    }
  }

  // At the limit no completion takes the count back.
  lemma LimitStays(s: State, a: Action)
    requires Shaped(s) && Enabled(s, a) && !a.StepHolder? && s.bus.urbErr >= URB_ERR_STOP
    ensures NextBus(s, a).urbErr >= URB_ERR_STOP
  {
    hide UrbAfter;
  }

  // ------------------------------------------------------------- stream_work

  predicate BothStopped(c: Ctl) { |c.subs| == 2 && !c.subs[0].running && !c.subs[1].running }

  // stream_work with the count at the limit, between its steps.
  predicate Working(c: Ctl, b: Bus) {
    && |c.subs| == 2 && c.flags.holder.At? && c.flags.holder.prog.StreamWork? && !c.flags.shutdown
    && (c.flags.holder.pc.Entry? || c.flags.holder.pc.TestErr? ==> b.urbErr >= URB_ERR_STOP)
    && (c.flags.holder.pc.StopNext? ==>
          (c.flags.holder.pc.s > 0 ==> !c.subs[0].running) && (c.flags.holder.pc.s > 1 ==> !c.subs[1].running))
    && (c.flags.holder.pc.ClearErr? ==> BothStopped(c))
  }

  predicate WorkLeads(c: Ctl, b: Bus) {
    if c.flags.holder == Free then BothStopped(c) && !c.flags.streaming else Working(c, b)
  }

  lemma WorkKills(c: Ctl, b: Bus, b': Bus)
    requires Working(c, b) && KillingPc(c.flags.holder.pc)
    ensures WorkLeads(StepKillOrStop(c, |b.urbs|), b')
  {
  }

  lemma WorkStops(c: Ctl, b: Bus, b': Bus)
    requires Working(c, b) && c.flags.holder.pc.StopNext?
    ensures WorkLeads(StepKillOrStop(c, |b.urbs|), b')
  {
  }

  lemma WorkTests(c: Ctl, b: Bus)
    requires Working(c, b) && PcOfProg(StreamWork, c.flags.holder.pc)
    requires !KillingPc(c.flags.holder.pc) && !c.flags.holder.pc.StopNext?
    requires c.flags.holder.pc.ClearErr? ==> !c.flags.streaming
    ensures WorkLeads(StepWork(c, b.urbErr), StepMutexBus(c, b, true))
    ensures StepMutexBus(c, b, false) == StepMutexBus(c, b, true)
  {
  }

  lemma WorkStep(s: State, ok: bool)
    requires Inv(s) && Working(s.ctl, s.bus) && HolderEnabled(s.ctl, s.bus)
    ensures WorkLeads(StepMutex(s.cfg, s.ctl, s.bus, ok), StepMutexBus(s.ctl, s.bus, ok))
  {
    hide BusInv, GeoInv, DirOk, StepKillOrStop, StepWork, StepMutexBus, WorkLeads, HolderEnabled;
    var c, b := s.ctl, s.bus;
    if KillingPc(c.flags.holder.pc) {
      WorkKills(c, b, StepMutexBus(c, b, ok));
    } else if c.flags.holder.pc.StopNext? {
      WorkStops(c, b, StepMutexBus(c, b, ok));
    } else {
      WorkTests(c, b);
    }
  }

  lemma WorkGoesOn(s: State, a: Action)
    requires Shaped(s) && Enabled(s, a) && Calls.Inside(a) && Inv(s) && Working(s.ctl, s.bus)
    ensures WorkLeads(NextCtl(s, a), NextBus(s, a))
  {
    hide Inv, StepMutex, StepMutexBus, StepUrb;
    if a.StepHolder? {
      WorkStep(s, a.ok);
    } else {
      Calls.OutsideTheCall(s, a);
      if s.bus.urbErr >= URB_ERR_STOP {
        LimitStays(s, a);
      }
    }
  }

  lemma {:induction false} WorkRun(s: State, acts: seq<Action>)
    requires Inv(s) && Working(s.ctl, s.bus) && Possible(s, acts) && Calls.AllInside(acts)
    requires Run(s, acts).ctl.flags.holder == Free
    ensures BothStopped(Run(s, acts).ctl) && !Run(s, acts).ctl.flags.streaming
    decreases |acts|
  {
    assert s.ctl.flags.holder.At? && acts != [];
    hide Inv, Working, NextBus, NextCtl, Enabled, Shaped, Calls.Inside, BothStopped;
    var t := Next(s, acts[0]);
    NextKeepsInv(s, acts[0]);
    WorkGoesOn(s, acts[0]);
    if t.ctl.flags.holder == Free {
      Calls.NothingMore(t, acts[1..]);
    } else {
      WorkRun(t, acts[1..]);
    }
  }

  // Once the work has the mutex with the count at the limit and the card there, it
  // lets go of it with both substreams stopped, no session and no URB in flight,
  // however the completions come between its steps.
  lemma WorkStopsTheSession(s: State, acts: seq<Action>)
    requires Reachable(s) && Shaped(s) && Enabled(s, EnterWork)
    requires s.bus.urbErr >= URB_ERR_STOP && !s.ctl.flags.shutdown
    requires var t := Next(s, EnterWork);
             Calls.AllInside(acts) && Possible(t, acts) && Run(t, acts).ctl.flags.holder == Free
    ensures var e := Run(Next(s, EnterWork), acts);
            && BothStopped(e.ctl) && !e.ctl.flags.streaming
            && forall k :: 0 <= k < |e.bus.urbs| ==> e.bus.urbs[k] == Idle
  {
    var t := Next(s, EnterWork);
    assert |s.ctl.subs| == 2 && Working(t.ctl, t.bus);
    hide Inv, Working, NextBus, NextCtl, Reachable, Enabled, Shaped;
    ReachableInv(s);
    NextKeepsInv(s, EnterWork);
    WorkRun(t, acts);
    RunKeepsInv(t, acts);
    forall k | 0 <= k < |Run(t, acts).bus.urbs| ensures Run(t, acts).bus.urbs[k] == Idle {
      NothingInFlight(Run(t, acts), k);
    }
  }

  // -------------------------------------------------------------- disconnect

  // The substreams that disconnect is past neither run nor are about to.
  predicate Down(c: Ctl) {
    && |c.subs| == 2
    && (c.flags.disc.Stopping? ==>
          (c.flags.disc.s > 0 ==> !c.subs[0].Live()) && (c.flags.disc.s > 1 ==> !c.subs[1].Live()))
    && (c.flags.disc.Disconnected? ==> !c.subs[0].Live() && !c.subs[1].Live())
  }

  // No step makes a substream live but a START that finds a session.
  predicate NotLivelier(streaming: bool, sub: Sub, sub': Sub) {
    sub'.Live() ==> sub.Live() || streaming
  }

  lemma CallNotLivelier(cfg: Config, g: Geo, h: Holder, streaming: bool, sub: Sub, call: Call)
    requires CallEnabled(cfg, h, sub, call)
    ensures NotLivelier(streaming, sub, CallSub(g, streaming, sub, call))
  {
    hide TooShort, UrbFrames, RateOf;
  }

  // With the card gone and no session, a call returns with its first step.
  lemma EntryNotLivelier(cfg: Config, c: Ctl, b: Bus, ok: bool, e: Dir)
    requires |c.subs| == 2 && HolderEnabled(c, b) && c.flags.holder.pc.Entry?
    requires c.flags.shutdown && !c.flags.streaming && !c.flags.holder.prog.Disconnect?
    ensures |StepMutex(cfg, c, b, ok).subs| == 2
    ensures NotLivelier(false, c.subs[e], StepMutex(cfg, c, b, ok).subs[e])
    ensures StepMutex(cfg, c, b, ok).flags.disc == c.flags.disc
  {
    hide TooShort, UrbCount, OtherHoldsClock;
  }

  lemma MutexNotLivelier(s: State, ok: bool, e: Dir)
    requires Inv(s) && HolderEnabled(s.ctl, s.bus) && DisconnectPast(s.ctl.flags.disc)
    ensures |StepMutex(s.cfg, s.ctl, s.bus, ok).subs| == 2
    ensures NotLivelier(false, s.ctl.subs[e], StepMutex(s.cfg, s.ctl, s.bus, ok).subs[e])
    ensures StepMutex(s.cfg, s.ctl, s.bus, ok).flags.disc == s.ctl.flags.disc
  {
    assert s.ctl.flags.holder.At?;
    hide BusInv, GeoInv, DirOk, StepMutex, HolderEnabled, NotLivelier;
    EntryNotLivelier(s.cfg, s.ctl, s.bus, ok, e);
  }

  lemma CallKeepsDown(s: State, d: Dir, call: Call)
    requires Inv(s) && Shaped(s) && Enabled(s, Core(d, call)) && Down(s.ctl)
    ensures Down(NextCtl(s, Core(d, call)))
  {
    hide BusInv, GeoInv, DirOk, CallSub, CallHolder, CallEnabled, Sub.Live;
    CallNotLivelier(s.cfg, s.ctl.geo, s.ctl.flags.holder, s.ctl.flags.streaming, s.ctl.subs[d], call);
    if d == 0 {} else {}
  }

  lemma HolderKeepsDown(s: State, ok: bool)
    requires Inv(s) && HolderEnabled(s.ctl, s.bus) && Down(s.ctl)
    ensures Down(StepMutex(s.cfg, s.ctl, s.bus, ok))
  {
    assert s.ctl.flags.holder.At?;
    hide BusInv, GeoInv, DirOk, StepMutex, HolderEnabled, Sub.Live;
    if s.ctl.flags.disc.Stopping? || s.ctl.flags.disc.Disconnected? {
      MutexNotLivelier(s, ok, 0);
      MutexNotLivelier(s, ok, 1);
    } else {
      NotYet(s, ok);
    }
  }

  // The mutex is let go of before the work is cancelled.
  lemma NotYet(s: State, ok: bool)
    requires Inv(s) && HolderEnabled(s.ctl, s.bus)
    requires !s.ctl.flags.disc.Stopping? && !s.ctl.flags.disc.Disconnected?
    ensures var c := StepMutex(s.cfg, s.ctl, s.bus, ok);
            |c.subs| == 2 && !c.flags.disc.Stopping? && !c.flags.disc.Disconnected?
  {
    hide BusInv, GeoInv, DirOk, FlagsOk, StepParams, StepFree, StepPrepare, StepWork, StepDisconnect, StepKillOrStop;
    KillLeavesDisc(s.ctl, |s.bus.urbs|);
    CallLeavesDisc(s.cfg, s.ctl, s.bus, ok);
  }

  lemma KillLeavesDisc(c: Ctl, nurbs: nat)
    requires |c.subs| == 2 && c.flags.holder.At?
    ensures KillingPc(c.flags.holder.pc) || c.flags.holder.pc.StopNext? ==>
              var c' := StepKillOrStop(c, nurbs);
              |c'.subs| == 2 && (c'.flags.disc == c.flags.disc || c'.flags.disc.Killed?)
  {
  }

  lemma CallLeavesDisc(cfg: Config, c: Ctl, b: Bus, ok: bool)
    requires |c.subs| == 2 && c.flags.holder.At?
    ensures var c' := match c.flags.holder.prog
                      case HwParams(_, _, _, _, _) => StepParams(cfg, c, ok)
                      case HwFree(_) => StepFree(c)
                      case Prepare(_, _) => StepPrepare(c, ok)
                      case StreamWork => StepWork(c, b.urbErr)
                      case Disconnect => StepDisconnect(c);
            |c'.subs| == 2 && (c'.flags.disc == c.flags.disc || c'.flags.disc.Killed?)
  {
    hide TooShort, UrbCount, Rechooses, OtherHoldsClock, StepParams, StepPrepare;
    if c.flags.holder.prog.HwParams? {
      ParamsLeaveDisc(cfg, c, ok);
    } else if c.flags.holder.prog.Prepare? {
      PrepareLeavesDisc(c, ok);
    }
  }

  lemma ParamsLeaveDisc(cfg: Config, c: Ctl, ok: bool)
    requires |c.subs| == 2 && c.flags.holder.At? && c.flags.holder.prog.HwParams?
    ensures |StepParams(cfg, c, ok).subs| == 2 && StepParams(cfg, c, ok).flags.disc == c.flags.disc
  {
    hide TooShort, UrbCount, Rechooses, OtherHoldsClock;
  }

  lemma PrepareLeavesDisc(c: Ctl, ok: bool)
    requires |c.subs| == 2 && c.flags.holder.At? && c.flags.holder.prog.Prepare?
    ensures |StepPrepare(c, ok).subs| == 2 && StepPrepare(c, ok).flags.disc == c.flags.disc
  {
    hide TooShort;
  }

  lemma NextKeepsDown(s: State, a: Action)
    requires Inv(s) && Shaped(s) && Enabled(s, a) && Down(s.ctl)
    ensures Down(NextCtl(s, a))
  {
    hide Inv, StepMutex, CallSub, CallHolder, CallEnabled, HolderEnabled, Down;
    match a
    case Core(d, call) => CallKeepsDown(s, d, call);
    case StepHolder(ok) => HolderKeepsDown(s, ok);
    case _ => OthersKeepDown(s, a);
  }

  lemma OthersKeepDown(s: State, a: Action)
    requires Shaped(s) && Enabled(s, a) && Down(s.ctl) && !a.Core? && !a.StepHolder?
    ensures Down(NextCtl(s, a))
  {
    hide StepMutex, CallSub, CallHolder;
  }

  lemma {:induction false} RunKeepsDown(s: State, acts: seq<Action>)
    requires Inv(s) && Down(s.ctl) && Possible(s, acts)
    ensures Down(Run(s, acts).ctl)
    decreases |acts|
  {
    hide Inv, Down, Enabled, Shaped, NextCtl, NextBus;
    if acts != [] {
      NextKeepsInv(s, acts[0]);
      NextKeepsDown(s, acts[0]);
      RunKeepsDown(Next(s, acts[0]), acts[1..]);
    }
  }

  // After the disconnect, whatever the application still calls: no session, no
  // URB in flight and no substream that runs or is about to, one that a failed
  // start had left behind included.
  lemma AfterDisconnectNothingRuns(s: State)
    requires Reachable(s) && s.ctl.flags.disc.Disconnected?
    ensures |s.ctl.subs| == 2 && !s.ctl.flags.streaming
    ensures !s.ctl.subs[0].Live() && !s.ctl.subs[1].Live()
    ensures forall k :: 0 <= k < |s.bus.urbs| ==> s.bus.urbs[k] == Idle
  {
    hide BusInv, GeoInv, DirOk, Initial, Sub.Live;
    ReachableInv(s);
    var acts :| Possible(Initial(s.cfg), acts) && Run(Initial(s.cfg), acts) == s;
    InitialInv(s.cfg);
    InitialDown(s.cfg);
    RunKeepsDown(Initial(s.cfg), acts);
    forall k | 0 <= k < |s.bus.urbs| ensures s.bus.urbs[k] == Idle {
      NothingInFlight(s, k);
    }
  }

  lemma InitialDown(cfg: Config)
    ensures Down(Initial(cfg).ctl)
  {
  }
}
