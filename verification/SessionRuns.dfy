/** Runs of the session, and the invariant of every state they reach. */
module SessionRuns {
  import opened Wrappers
  import opened Geometry
  import opened Session
  import opened SessionControl
  import opened SessionGeometry
  import opened SessionUrbs

  predicate Inv(s: State) {
    && Shaped(s)
    && CtlInv(s.ctl)
    && GeoInv(s.cfg, s.ctl)
    && BusInv(s.ctl.geo, s.ctl.flags, s.bus)
  }

  // ------------------------------------------- the mutex holder and the URBs

  // Where a step of the kill or of the stop goes.
  predicate KillMoves(c: Ctl, c': Ctl, nurbs: nat)
    requires c.flags.holder.At?
  {
    var h, h' := c.flags.holder, c'.flags.holder;
    && c'.geo == c.geo
    && (h.pc.Clear? ==> !c'.flags.streaming && h'.At? && h'.pc == KillNext(0))
    && (h.pc.KillNext? && h.pc.k < nurbs ==>
          c'.flags.streaming == c.flags.streaming && h'.At? && h'.pc == KillWait(h.pc.k))
    && (h.pc.KillWait? ==> c'.flags.streaming == c.flags.streaming && h'.At? && h'.pc == KillNext(h.pc.k + 1))
    && ((h.pc.KillNext? && h.pc.k >= nurbs) || h.pc.StopNext? ==>
          c'.flags.streaming == c.flags.streaming
          && (h'.At? ==> !h'.pc.StartInflight? && !h'.pc.StartLive?))
  }

  lemma KillShape(c: Ctl, nurbs: nat)
    requires |c.subs| == 2 && c.flags.holder.At?
    requires KillingPc(c.flags.holder.pc) || c.flags.holder.pc.StopNext?
    ensures KillMoves(c, StepKillOrStop(c, nurbs), nurbs)
  {
  }

  lemma QuietFlags(c: Ctl)
    requires CtlInv(c) && c.flags.holder.At?
    ensures |c.subs| == 2
    ensures Quiet(c.flags.holder.prog, c.flags.holder.pc) ==> !c.flags.streaming
  {
    hide DirOk;
  }

  lemma KillOrStopKeepsBus(s: State, ok: bool)
    requires Inv(s) && HolderEnabled(s.ctl, s.bus)
    requires KillingPc(s.ctl.flags.holder.pc) || s.ctl.flags.holder.pc.StopNext?
    ensures BusInv(NextCtl(s, StepHolder(ok)).geo, NextCtl(s, StepHolder(ok)).flags, NextBus(s, StepHolder(ok)))
  {
    hide BusInv, CtlInv, GeoInv, LostCounted, AllInSession, OwnErrors, StepKillOrStop;
    QuietFlags(s.ctl);
    KillShape(s.ctl, |s.bus.urbs|);
    MovesKeepBus(s.ctl, StepKillOrStop(s.ctl, |s.bus.urbs|), s.bus);
  }

  lemma MovesKeepBus(c: Ctl, c': Ctl, b: Bus)
    requires |c.subs| == 2 && HolderEnabled(c, b) && KillMoves(c, c', |b.urbs|)
    requires KillingPc(c.flags.holder.pc) || c.flags.holder.pc.StopNext?
    requires Quiet(c.flags.holder.prog, c.flags.holder.pc) ==> !c.flags.streaming
    requires BusInv(c.geo, c.flags, b)
    ensures BusInv(c'.geo, c'.flags, b)
  {
    hide BusInv, LostCounted, AllInSession, OwnErrors;
    var g, f := c.geo, c.flags;
    match f.holder.pc
    case Clear => ClearUrbs(g, f, b, c'.flags);
    case KillWait(k) => KillUrbs(g, f, b, c'.flags);
    case KillNext(k) =>
      if k < |b.urbs| {
        KillUrbs(g, f, b, c'.flags);
      } else {
        PartsOfBus(g, f, b);
        KilledIsIdle(g, f, b);
        RestStep(c'.geo, c'.flags, b);
      }
    case StopNext(_) =>
      PartsOfBus(g, f, b);
      QuietIsIdle(g, f, b);
      RestStep(c'.geo, c'.flags, b);
  }

  lemma PartsOfBus(g: Geo, f: Flags, b: Bus)
    requires BusInv(g, f, b)
    ensures AllInSession(g, f, b) && OwnErrors(b) && LostCounted(g, f, b)
  {
  }

  // No session, none being started, all URBs idle.
  lemma RestStep(g: Geo, f: Flags, b: Bus)
    requires AllIdle(b) && OwnErrors(b) && !f.streaming
    requires f.holder.At? ==> !f.holder.pc.StartInflight? && !f.holder.pc.StartLive?
    ensures BusInv(g, f, b)
  {
    IdleStep(g, f, b);
  }

  // The points of a program where it may find a session streaming.
  predicate SeesSession(pc: Pc) {
    pc.Entry? || pc.ChooseGeometry? || pc.Done? || pc.TestErr? || pc.StartSubmit? || pc.StartArm?
  }

  // A step that leaves the session and its geometry, and clears nothing yet.
  predicate Stays(c: Ctl, c': Ctl)
    requires c.flags.holder.At?
  {
    && c'.geo == c.geo && c'.flags.streaming
    && c'.flags.shutdown == c.flags.shutdown
    && (c'.flags.holder.At? ==> SeesSession(c'.flags.holder.pc) || c'.flags.holder.pc.Clear?)
    && (c'.flags.holder.At? && c'.flags.holder.pc.StartSubmit? ==> c.flags.holder.pc.StartSubmit?)
    && SeesSession(c.flags.holder.pc)
  }

  lemma SessionStep(s: State, ok: bool)
    requires Inv(s) && HolderEnabled(s.ctl, s.bus) && s.ctl.flags.streaming
    requires !KillingPc(s.ctl.flags.holder.pc) && !s.ctl.flags.holder.pc.StopNext?
    ensures Stays(s.ctl, StepMutex(s.cfg, s.ctl, s.bus, ok))
  {
    hide BusInv, GeoInv, DirOk, StepParams, StepFree, StepPrepare, StepWork, StepDisconnect, Stays;
    match s.ctl.flags.holder.prog
    case HwParams(_, _, _, _, _) => ParamsStays(s.cfg, s.ctl, ok);
    case Prepare(_, _) => PrepareStays(s.ctl, ok);
    case _ => OthersStay(s.ctl, s.bus.urbErr);
  }

  lemma ParamsStays(cfg: Config, c: Ctl, ok: bool)
    requires CtlInv(c) && c.flags.holder.At? && c.flags.holder.prog.HwParams? && c.flags.streaming
    requires !KillingPc(c.flags.holder.pc) && !c.flags.holder.pc.StopNext?
    ensures Stays(c, StepParams(cfg, c, ok))
  {
    QuietFlags(c);
    ProgramOf(c);
    hide CtlInv, StepParams, Stays;
    match c.flags.holder.pc
    case ChooseGeometry =>
      ChooseMoves(cfg, c, ok);
      MovesStay(c, StepParams(cfg, c, ok));
    case Entry =>
      EntryMoves(cfg, c, ok);
      MovesStay(c, StepParams(cfg, c, ok));
    case _ => DoneStays(cfg, c, ok);
  }

  lemma EntryMoves(cfg: Config, c: Ctl, ok: bool)
    requires |c.subs| == 2 && c.flags.holder.At? && c.flags.holder.prog.HwParams? && c.flags.holder.pc.Entry?
    ensures Moves(c, StepParams(cfg, c, ok), c.flags.holder.prog.d)
  {
  }

  lemma MovesStay(c: Ctl, c': Ctl)
    requires |c.subs| == 2 && c.flags.holder.At? && c.flags.holder.prog.HwParams? && c.flags.streaming
    requires Moves(c, c', c.flags.holder.prog.d)
    requires c.flags.holder.pc.Entry? || c.flags.holder.pc.ChooseGeometry?
    ensures Stays(c, c')
  {
  }

  lemma DoneStays(cfg: Config, c: Ctl, ok: bool)
    requires |c.subs| == 2 && c.flags.holder.At? && c.flags.holder.prog.HwParams? && c.flags.streaming
    requires c.flags.holder.pc.Done?
    ensures Stays(c, StepParams(cfg, c, ok))
  {
    hide TooShort, UrbCount, Rechooses, OtherHoldsClock;
  }

  lemma ProgramOf(c: Ctl)
    requires CtlInv(c) && c.flags.holder.At?
    ensures PcOfProg(c.flags.holder.prog, c.flags.holder.pc)
  {
    hide DirOk;
  }

  lemma PrepareStays(c: Ctl, ok: bool)
    requires CtlInv(c) && c.flags.holder.At? && c.flags.holder.prog.Prepare? && c.flags.streaming
    requires !KillingPc(c.flags.holder.pc)
    ensures Stays(c, StepPrepare(c, ok))
  {
    hide DirOk, TooShort;
  }

  lemma OthersStay(c: Ctl, urbErr: nat)
    requires CtlInv(c) && c.flags.holder.At? && c.flags.streaming
    requires !KillingPc(c.flags.holder.pc) && !c.flags.holder.pc.StopNext?
    ensures c.flags.holder.prog.HwFree? ==> Stays(c, StepFree(c))
    ensures c.flags.holder.prog.StreamWork? ==> Stays(c, StepWork(c, urbErr))
    ensures c.flags.holder.prog.Disconnect? ==> Stays(c, StepDisconnect(c))
  {
    hide DirOk;
  }

  lemma LiveStepKeepsBus(s: State, ok: bool)
    requires Inv(s) && HolderEnabled(s.ctl, s.bus) && s.ctl.flags.streaming
    requires !KillingPc(s.ctl.flags.holder.pc) && !s.ctl.flags.holder.pc.StopNext?
    ensures BusInv(NextCtl(s, StepHolder(ok)).geo, NextCtl(s, StepHolder(ok)).flags, NextBus(s, StepHolder(ok)))
  {
    hide BusInv, GeoInv, CtlInv, StepMutex;
    HolderShape(s);
    SessionStep(s, ok);
    if s.ctl.flags.holder.pc.StartSubmit? {
      SubmitKeepsBus(s, ok);
    } else {
      NeutralKeepsBus(s, ok);
    }
  }

  lemma HolderShape(s: State)
    requires Inv(s) && s.ctl.flags.holder.At?
    ensures PcOfProg(s.ctl.flags.holder.prog, s.ctl.flags.holder.pc)
    ensures |s.ctl.subs| == 2 && 2 <= s.ctl.geo.active <= s.cfg.nurbs
  {
    hide BusInv, DirOk, Alone, ChooserFits, WholePackets, ParamsOk;
  }

  lemma SubmitKeepsBus(s: State, ok: bool)
    requires Inv(s) && s.ctl.flags.holder.At? && s.ctl.flags.streaming && s.ctl.flags.holder.pc.StartSubmit?
    ensures BusInv(NextCtl(s, StepHolder(ok)).geo, NextCtl(s, StepHolder(ok)).flags, NextBus(s, StepHolder(ok)))
  {
    hide BusInv, GeoInv, CtlInv;
    HolderShape(s);
    var g, f, b := s.ctl.geo, s.ctl.flags, s.bus;
    var k := f.holder.pc.k;
    if k < 2 * g.active && ok {
      SubmitUrb(g, f, b, NextCtl(s, StepHolder(ok)).flags, NextBus(s, StepHolder(ok)), k);
    } else {
      SubmitDone(g, f, b, NextCtl(s, StepHolder(ok)).flags);
    }
  }

  lemma NeutralKeepsBus(s: State, ok: bool)
    requires Inv(s) && HolderEnabled(s.ctl, s.bus) && s.ctl.flags.streaming
    requires !KillingPc(s.ctl.flags.holder.pc) && !s.ctl.flags.holder.pc.StopNext?
    requires !s.ctl.flags.holder.pc.StartSubmit?
    requires PcOfProg(s.ctl.flags.holder.prog, s.ctl.flags.holder.pc)
    requires Stays(s.ctl, StepMutex(s.cfg, s.ctl, s.bus, ok))
    ensures BusInv(NextCtl(s, StepHolder(ok)).geo, NextCtl(s, StepHolder(ok)).flags, NextBus(s, StepHolder(ok)))
  {
    BusOfInv(s);
    hide BusInv, Inv, StepMutex;
    if s.ctl.flags.holder.prog.StreamWork? {
      WorkSteps(s, ok);
      WorkIsNeutral(s.ctl, s.bus, StepMutex(s.cfg, s.ctl, s.bus, ok), ok);
    } else {
      OtherIsNeutral(s.ctl, s.bus, StepMutex(s.cfg, s.ctl, s.bus, ok), ok);
    }
    SameUrbsKeep(s.ctl.geo, s.ctl.flags, s.bus, NextCtl(s, StepHolder(ok)).flags, NextBus(s, StepHolder(ok)));
  }

  lemma WorkSteps(s: State, ok: bool)
    requires |s.ctl.subs| == 2 && HolderEnabled(s.ctl, s.bus) && s.ctl.flags.holder.prog.StreamWork?
    requires !KillingPc(s.ctl.flags.holder.pc) && !s.ctl.flags.holder.pc.StopNext?
    ensures StepMutex(s.cfg, s.ctl, s.bus, ok) == StepWork(s.ctl, s.bus.urbErr)
  {
    hide StepWork;
  }

  lemma BusOfInv(s: State)
    requires Inv(s)
    ensures Shaped(s) && BusInv(s.ctl.geo, s.ctl.flags, s.bus)
  {
    hide BusInv, CtlInv, GeoInv;
  }

  lemma OtherIsNeutral(c: Ctl, b: Bus, c': Ctl, ok: bool)
    requires c.flags.holder.At? && !c.flags.holder.prog.StreamWork? && Stays(c, c') && c.flags.streaming
    requires !c.flags.holder.pc.StartSubmit? && PcOfProg(c.flags.holder.prog, c.flags.holder.pc)
    ensures SameUrbs(c.flags, b, c'.flags, StepMutexBus(c, b, ok))
  {
  }

  lemma WorkIsNeutral(c: Ctl, b: Bus, c': Ctl, ok: bool)
    requires |c.subs| == 2 && c.flags.holder.At? && c.flags.holder.prog.StreamWork?
    requires Stays(c, c') && c.flags.streaming && c' == StepWork(c, b.urbErr)
    requires PcOfProg(c.flags.holder.prog, c.flags.holder.pc) && !KillingPc(c.flags.holder.pc)
    ensures SameUrbs(c.flags, b, c'.flags, StepMutexBus(c, b, ok))
  {
  }

  lemma QuietStepKeepsBus(s: State, ok: bool)
    requires Inv(s) && HolderEnabled(s.ctl, s.bus) && !s.ctl.flags.streaming
    requires !KillingPc(s.ctl.flags.holder.pc) && !s.ctl.flags.holder.pc.StopNext?
    ensures BusInv(NextCtl(s, StepHolder(ok)).geo, NextCtl(s, StepHolder(ok)).flags, NextBus(s, StepHolder(ok)))
  {
    hide BusInv, GeoInv, CtlInv, LostCounted, AllInSession, StepMutex;
    var g, f, b := s.ctl.geo, s.ctl.flags, s.bus;
    HolderShape(s);
    PartsOfBus(g, f, b);
    QuietIsIdle(g, f, b);
    if f.holder.pc in {StartErr, StartInflight, StartLive} {
      StartingKeepsBus(s, ok);
    } else {
      QuietStays(s, ok);
      RestStep(NextCtl(s, StepHolder(ok)).geo, NextCtl(s, StepHolder(ok)).flags, NextBus(s, StepHolder(ok)));
    }
  }

  // What the holder's step is a step of.
  lemma StepOf(cfg: Config, c: Ctl, b: Bus, ok: bool)
    requires |c.subs| == 2 && HolderEnabled(c, b)
    ensures var c', h := StepMutex(cfg, c, b, ok), c.flags.holder;
            if KillingPc(h.pc) || h.pc.StopNext? then c' == StepKillOrStop(c, |b.urbs|)
            else
              && (h.prog.HwParams? ==> c' == StepParams(cfg, c, ok))
              && (h.prog.HwFree? ==> c' == StepFree(c))
              && (h.prog.Prepare? ==> c' == StepPrepare(c, ok))
  {
    hide StepKillOrStop, StepParams, StepFree, StepPrepare, StepWork, StepDisconnect;
  }

  lemma StartingKeepsBus(s: State, ok: bool)
    requires Inv(s) && HolderEnabled(s.ctl, s.bus) && !s.ctl.flags.streaming && AllIdle(s.bus)
    requires s.ctl.flags.holder.pc in {StartErr, StartInflight, StartLive}
    requires PcOfProg(s.ctl.flags.holder.prog, s.ctl.flags.holder.pc)
    ensures BusInv(NextCtl(s, StepHolder(ok)).geo, NextCtl(s, StepHolder(ok)).flags, NextBus(s, StepHolder(ok)))
  {
    BusOfInv(s);
    hide Inv, BusInv, AllInSession, StepPrepare, StepMutex;
    StepOf(s.cfg, s.ctl, s.bus, ok);
    PartsOfBus(s.ctl.geo, s.ctl.flags, s.bus);
    StartShape(s.ctl, ok);
    StartingStep(s.ctl, s.bus, StepPrepare(s.ctl, ok), ok);
  }

  // The way of a start to its first submit.
  function AfterStart(pc: Pc): Pc {
    if pc.StartErr? then StartInflight else if pc.StartInflight? then StartLive else StartSubmit(0)
  }

  lemma StartShape(c: Ctl, ok: bool)
    requires |c.subs| == 2 && c.flags.holder.At? && c.flags.holder.prog.Prepare?
    requires c.flags.holder.pc in {StartErr, StartInflight, StartLive}
    ensures var c' := StepPrepare(c, ok);
            && c'.geo == c.geo && c'.flags.holder.At?
            && c'.flags.streaming == (c.flags.holder.pc == StartLive || c.flags.streaming)
            && c'.flags.holder.pc == AfterStart(c.flags.holder.pc)
  {
  }

  lemma StartingStep(c: Ctl, b: Bus, c': Ctl, ok: bool)
    requires AllIdle(b) && OwnErrors(b) && LostCounted(c.geo, c.flags, b)
    requires c.flags.holder.At? && !c.flags.streaming && c.flags.holder.pc in {StartErr, StartInflight, StartLive}
    requires c'.geo == c.geo && c'.flags.holder.At?
    requires c'.flags.streaming == (c.flags.holder.pc == StartLive)
    requires c'.flags.holder.pc == AfterStart(c.flags.holder.pc)
    ensures BusInv(c'.geo, c'.flags, StepMutexBus(c, b, ok))
  {
    hide BusInv;
    IdleStep(c'.geo, c'.flags, StepMutexBus(c, b, ok));
  }

  // Only a start brings a session up.
  predicate StaysDown(f: Flags) {
    !f.streaming && (f.holder.At? ==> !f.holder.pc.StartInflight? && !f.holder.pc.StartLive?)
  }

  lemma QuietStays(s: State, ok: bool)
    requires Shaped(s) && CtlInv(s.ctl) && HolderEnabled(s.ctl, s.bus) && !s.ctl.flags.streaming
    requires !KillingPc(s.ctl.flags.holder.pc) && !s.ctl.flags.holder.pc.StopNext?
    requires !(s.ctl.flags.holder.pc in {StartErr, StartInflight, StartLive})
    ensures StaysDown(NextCtl(s, StepHolder(ok)).flags) && !s.ctl.flags.holder.pc.StartSubmit?
  {
    hide DirOk, StepParams, StepPrepare, StepFree, StepWork, StepDisconnect, StaysDown;
    match s.ctl.flags.holder.prog
    case HwParams(_, _, _, _, _) => ParamsStaysDown(s.cfg, s.ctl, ok);
    case Prepare(_, _) => PrepareStaysDown(s.ctl, ok);
    case _ => OthersStayDown(s.ctl, s.bus.urbErr);
  }

  lemma ParamsStaysDown(cfg: Config, c: Ctl, ok: bool)
    requires |c.subs| == 2 && c.flags.holder.At? && c.flags.holder.prog.HwParams? && !c.flags.streaming
    requires PcOfProg(c.flags.holder.prog, c.flags.holder.pc)
    ensures StaysDown(StepParams(cfg, c, ok).flags)
  {
    hide TooShort, UrbCount, Rechooses;
  }

  lemma PrepareStaysDown(c: Ctl, ok: bool)
    requires CtlInv(c) && c.flags.holder.At? && c.flags.holder.prog.Prepare? && !c.flags.streaming
    requires c.flags.holder.pc !in {StartErr, StartInflight, StartLive} && !KillingPc(c.flags.holder.pc)
    ensures StaysDown(StepPrepare(c, ok).flags)
  {
    hide TooShort, DirOk;
  }

  lemma OthersStayDown(c: Ctl, urbErr: nat)
    requires |c.subs| == 2 && c.flags.holder.At? && !c.flags.streaming
    ensures c.flags.holder.prog.HwFree? ==> StaysDown(StepFree(c).flags)
    ensures c.flags.holder.prog.StreamWork? ==> StaysDown(StepWork(c, urbErr).flags)
    ensures c.flags.holder.prog.Disconnect? ==> StaysDown(StepDisconnect(c).flags)
  {
  }

  // ----------------------------------------------------------- every step

  lemma HolderKeepsBus(s: State, ok: bool)
    requires Inv(s) && Enabled(s, StepHolder(ok))
    ensures BusInv(NextCtl(s, StepHolder(ok)).geo, NextCtl(s, StepHolder(ok)).flags, NextBus(s, StepHolder(ok)))
  {
    hide BusInv, GeoInv, CtlInv, StepMutex;
    if KillingPc(s.ctl.flags.holder.pc) || s.ctl.flags.holder.pc.StopNext? {
      KillOrStopKeepsBus(s, ok);
    } else if s.ctl.flags.streaming {
      LiveStepKeepsBus(s, ok);
    } else {
      QuietStepKeepsBus(s, ok);
    }
  }

  // The steps that touch neither the URBs nor the session.
  lemma OutsideKeepsBus(s: State, a: Action)
    requires Inv(s) && Enabled(s, a)
    requires !a.StepHolder? && !a.Complete? && !a.StepHandler?
    ensures BusInv(NextCtl(s, a).geo, NextCtl(s, a).flags, NextBus(s, a))
  {
    hide BusInv, GeoInv, DirOk, CallSub, UrbFrames;
    SameUrbsKeep(s.ctl.geo, s.ctl.flags, s.bus, NextCtl(s, a).flags, NextBus(s, a));
  }

  lemma NextKeepsBus(s: State, a: Action)
    requires Inv(s) && Enabled(s, a)
    ensures BusInv(NextCtl(s, a).geo, NextCtl(s, a).flags, NextBus(s, a))
  {
    hide BusInv, GeoInv, CtlInv, StepMutex, StepMutexBus, StepUrb, CallSub, CallHolder;
    match a
    case StepHolder(ok) => HolderKeepsBus(s, ok);
    case Complete(k, status) => CompleteKeepsBus(s.ctl.geo, s.ctl.flags, s.bus, k, status);
    case StepHandler(k, ok) => UrbKeepsBus(s.ctl.geo, s.ctl.flags, s.bus, k, ok);
    case _ => OutsideKeepsBus(s, a);
  }

  lemma NextKeepsInv(s: State, a: Action)
    requires Inv(s) && Enabled(s, a)
    ensures Inv(Next(s, a))
  {
    hide BusInv, GeoInv, CtlInv, NextCtl, NextBus, Enabled;
    NextKeepsCtl(s, a);
    NextKeepsGeo(s, a);
    NextKeepsBus(s, a);
    NextShape(s, a);
  }

  lemma NextShape(s: State, a: Action)
    requires Inv(s) && Enabled(s, a)
    ensures |NextBus(s, a).urbs| == |s.bus.urbs|
    ensures |NextCtl(s, a).subs| == 2
  {
    hide BusInv, GeoInv, StepMutex, CallSub, CallHolder, UrbAfter, CtlInv;
    NextKeepsCtl(s, a);
    CtlShape(NextCtl(s, a));
  }

  lemma CtlShape(c: Ctl)
    requires CtlInv(c)
    ensures |c.subs| == 2
  {
  }

  // ----------------------------------------------------------------- runs

  // The actions can happen, one after the other, from s on.
  predicate Possible(s: State, acts: seq<Action>)
    decreases |acts|
  {
    acts == [] ||
    (Shaped(s) && Enabled(s, acts[0]) && Possible(Next(s, acts[0]), acts[1..]))
  }

  function Run(s: State, acts: seq<Action>): State
    requires Possible(s, acts)
    decreases |acts|
  {
    if acts == [] then s else Run(Next(s, acts[0]), acts[1..])
  }

  // s is a state of a run from probe.
  ghost predicate Reachable(s: State) {
    && s.cfg.Valid()
    && exists acts :: Possible(Initial(s.cfg), acts) && Run(Initial(s.cfg), acts) == s
  }

  lemma InitialInv(cfg: Config)
    requires cfg.Valid()
    ensures Inv(Initial(cfg))
  {
    InitialCtl(cfg);
    InitialGeo(cfg);
    var s := Initial(cfg);
    RestStep(s.ctl.geo, s.ctl.flags, s.bus);
  }

  lemma {:induction false} RunKeepsInv(s: State, acts: seq<Action>)
    requires Inv(s) && Possible(s, acts)
    ensures Inv(Run(s, acts))
    decreases |acts|
  {
    hide Inv;
    if acts != [] {
      assert Shaped(s) by { InvShaped(s); }
      NextKeepsInv(s, acts[0]);
      RunKeepsInv(Next(s, acts[0]), acts[1..]);
    }
  }

  lemma InvShaped(s: State)
    requires Inv(s)
    ensures Shaped(s)
  {
  }

  lemma ReachableInv(s: State)
    requires Reachable(s)
    ensures Inv(s)
  {
    hide Inv, Initial;
    var acts :| Possible(Initial(s.cfg), acts) && Run(Initial(s.cfg), acts) == s;
    InitialInv(s.cfg);
    RunKeepsInv(Initial(s.cfg), acts);
  }

  // One more action after a run.
  lemma {:induction false} OneMore(s: State, acts: seq<Action>, a: Action)
    requires Possible(s, acts) && Shaped(Run(s, acts)) && Enabled(Run(s, acts), a)
    ensures Possible(s, acts + [a]) && Run(s, acts + [a]) == Next(Run(s, acts), a)
    decreases |acts|
  {
    hide Shaped, Enabled, Next;
    var more := acts + [a];
    if acts == [] {
      assert more[0] == a && more[1..] == [];
    } else {
      assert more[0] == acts[0] && more[1..] == acts[1..] + [a];
      OneMore(Next(s, acts[0]), acts[1..], a);
    }
  }

  lemma ReachNext(s: State, a: Action)
    requires Reachable(s) && Shaped(s) && Enabled(s, a)
    ensures Reachable(Next(s, a))
  {
    hide Shaped, Enabled, NextCtl, NextBus, Initial;
    var acts :| Possible(Initial(s.cfg), acts) && Run(Initial(s.cfg), acts) == s;
    OneMore(Initial(s.cfg), acts, a);
  }
}
