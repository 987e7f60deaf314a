/** What every step keeps of the URB geometry of the session. */
module SessionGeometry {
  import opened Wrappers
  import opened Geometry
  import opened Session
  import opened SessionControl

  // URBs of whole packets of the rate, no larger than their buffers.
  predicate WholePackets(cfg: Config, rate: nat, frames: nat) {
    && RateOf(rate).Some?
    && 0 < frames <= cfg.framesPerUrb
    && frames % RateOf(rate).value.minFpu == 0
  }

  predicate Params(h: Holder) { h.At? && h.prog.HwParams? }

  // The rate is written, the URB size that goes with it is not yet.
  predicate Between(h: Holder) {
    Params(h) && h.prog.newRate && (h.pc.ChooseGeometry? || h.pc.WriteFrames?)
  }

  predicate GeoOk(cfg: Config, g: Geo, h: Holder) {
    && 2 <= g.active <= cfg.nurbs
    && (!Between(h) ==> WholePackets(cfg, g.rate, g.frames))
    && (Params(h) ==> ParamsOk(cfg, g, h.prog, h.pc))
  }

  predicate ParamsOk(cfg: Config, g: Geo, prog: Prog, pc: Pc)
    requires prog.HwParams?
  {
    && prog.r in RATES
    && prog.urb == UrbFrames(cfg, prog.r, prog.period)
    && (pc.ChooseGeometry? || pc.WriteFrames? || pc.WriteActive? || pc.Done? || prog.newRate
        ==> g.rate == prog.r.rate)
    && (pc.Entry? ==> !prog.newRate)
    && (pc.WriteActive? ==> g.frames == prog.urb)
    && (pc.Done? ==> !TooShort(prog.period, g.frames, g.active))
  }

  // A call that changes the rate is alone on the clock, from its test on.
  predicate Alone(c: Ctl)
    requires |c.subs| == 2
  {
    var h := c.flags.holder;
    Params(h) && !h.pc.Entry? &&
    (h.pc.SetInterface? || h.pc.WriteRate? || h.prog.newRate || h.prog.r.rate != c.geo.rate)
    ==> !OtherHoldsClock(c.subs[h.prog.d], c.subs[Other(h.prog.d)])
  }

  // The period a set up direction asked for.
  function PeriodOf(sub: Sub): Option<nat> {
    if sub.op.Returned? then Some(sub.op.period)
    else if sub.phase == SetUp && !sub.op.InParams? then Some(sub.period)
    else None
  }

  predicate FitsOwn(g: Geo, sub: Sub) {
    PeriodOf(sub).Some? ==> !TooShort(PeriodOf(sub).value, g.frames, g.active)
  }

  // The direction that chose the geometry still fits it (while the geometry is
  // half written, the direction that chooses next is on its way).
  predicate ChooserFits(c: Ctl)
    requires |c.subs| == 2
  {
    (Params(c.flags.holder) && c.flags.holder.pc.WriteActive?) || FitsOwn(c.geo, c.subs[c.sessionDir])
  }

  predicate GeoInv(cfg: Config, c: Ctl) {
    && cfg.Valid()
    && |c.subs| == 2
    && GeoOk(cfg, c.geo, c.flags.holder)
    && Alone(c)
    && ChooserFits(c)
  }

  lemma RateUnique(r: Rate)
    requires r in RATES
    ensures RateOf(r.rate) == Some(r)
  {
    var i :| 0 <= i < |RATES| && RATES[i] == r;
    RatesRise(i);
    FirstOfRate(RATES, i);
  }

  lemma RatesRise(i: nat)
    requires i < |RATES|
    ensures forall j :: 0 <= j < i ==> RATES[j].rate < RATES[i].rate
  {
  }

  lemma {:induction false} FirstOfRate(table: seq<Rate>, i: nat)
    requires i < |table| && forall j :: 0 <= j < i ==> table[j].rate != table[i].rate
    ensures RateFrom(table, table[i].rate) == Some(table[i])
    decreases |table|
  {
    if i > 0 {
      FirstOfRate(table[1..], i - 1);
    }
  }

  lemma InitialGeo(cfg: Config)
    requires cfg.Valid()
    ensures GeoInv(cfg, Initial(cfg).ctl)
  {
    RateUnique(RATES[2]);
  }

  // What hw_params chooses is whole packets and fits the period it is for.
  lemma Chosen(cfg: Config, r: Rate, period: nat)
    requires cfg.Valid() && r in RATES && UrbFrames(cfg, r, period) != 0
    ensures var urb := UrbFrames(cfg, r, period);
            var n := UrbCount(cfg, r, period, urb);
            && WholePackets(cfg, r.rate, urb)
            && 2 <= n <= cfg.nurbs
            && !TooShort(period, urb, n)
  {
    hide RateOf, UrbFrames, UrbCount;
    UrbFramesFindsAFit(cfg, r, period);
    ChosenSessionFitsItsPeriod(cfg, r, period);
    RateUnique(r);
  }

  // What a call of the core does to the period its direction asked for, and to
  // what the clock's other side looks at.
  lemma CallPeriod(cfg: Config, g: Geo, streaming: bool, h: Holder, sub: Sub, call: Call)
    requires CallEnabled(cfg, h, sub, call)
    ensures var sub' := CallSub(g, streaming, sub, call);
            && (PeriodOf(sub').Some? ==> PeriodOf(sub') == PeriodOf(sub))
            && sub'.setup == sub.setup
            && (h == Free || sub'.owner == sub.owner)
  {
    hide TooShort, RateOf, UrbFrames;
  }

  // The call takes the mutex, or leaves it to whoever has it.
  lemma CallTakes(cfg: Config, h: Holder, sub: Sub, d: Dir, call: Call)
    requires cfg.Valid() && CallEnabled(cfg, h, sub, call)
    ensures var h' := CallHolder(cfg, h, d, call);
            h' == h || (h == Free && h'.At? && h'.pc.Entry? && (Params(h') ==> Asks(cfg, h'.prog)))
  {
    hide RateOf, UrbFrames;
  }

  // hw_params begins.
  predicate Asks(cfg: Config, prog: Prog) {
    && prog.HwParams? && prog.r in RATES && !prog.newRate
    && prog.urb == UrbFrames(cfg, prog.r, prog.period)
  }

  // One direction changes, and the mutex may be taken.
  lemma SubKeepsGeo(cfg: Config, c: Ctl, c': Ctl, d: Dir)
    requires GeoInv(cfg, c) && |c'.subs| == 2 && c'.geo == c.geo && c'.sessionDir == c.sessionDir
    requires c'.subs[Other(d)] == c.subs[Other(d)]
    requires PeriodOf(c'.subs[d]).Some? ==> PeriodOf(c'.subs[d]) == PeriodOf(c.subs[d])
    requires c'.subs[d].setup == c.subs[d].setup && (c.flags.holder == Free || c'.subs[d].owner == c.subs[d].owner)
    requires var h' := c'.flags.holder;
             || h' == c.flags.holder
             || (c.flags.holder == Free && h'.At? && h'.pc.Entry? && (Params(h') ==> Asks(cfg, h'.prog)))
    ensures GeoInv(cfg, c')
  {
    hide WholePackets, TooShort, UrbFrames, RateOf, PeriodOf;
    assert c'.sessionDir == d || c'.sessionDir == Other(d);
  }

  lemma CallKeepsGeo(s: State, d: Dir, call: Call)
    requires Shaped(s) && GeoInv(s.cfg, s.ctl) && CtlInv(s.ctl) && Enabled(s, Core(d, call))
    ensures GeoInv(s.cfg, NextCtl(s, Core(d, call)))
  {
    hide GeoInv, CtlInv, PeriodOf, CallEnabled, CallSub, CallHolder, Asks;
    ValidConfig(s);
    var c := s.ctl;
    CallPeriod(s.cfg, c.geo, c.flags.streaming, c.flags.holder, c.subs[d], call);
    CallTakes(s.cfg, c.flags.holder, c.subs[d], d, call);
    SubKeepsGeo(s.cfg, c, NextCtl(s, Core(d, call)), d);
  }

  lemma ValidConfig(s: State)
    requires Shaped(s)
    ensures s.cfg.Valid() && |s.ctl.subs| == 2
  {
  }

  // The periods that the directions asked for stay what they were.
  predicate SamePeriods(c: Ctl, c': Ctl)
    requires |c.subs| == 2 && |c'.subs| == 2
  {
    && (PeriodOf(c'.subs[0]).Some? ==> PeriodOf(c'.subs[0]) == PeriodOf(c.subs[0]))
    && (PeriodOf(c'.subs[1]).Some? ==> PeriodOf(c'.subs[1]) == PeriodOf(c.subs[1]))
  }

  // A step without hw_params.
  lemma OtherStep(cfg: Config, c: Ctl, c': Ctl)
    requires GeoInv(cfg, c) && |c'.subs| == 2
    requires c'.geo == c.geo && c'.sessionDir == c.sessionDir
    requires !Params(c.flags.holder) && !Params(c'.flags.holder)
    requires SamePeriods(c, c')
    ensures GeoInv(cfg, c')
  {
    hide WholePackets, TooShort, UrbFrames, UrbCount, RateOf;
  }

  // A step of hw_params that stops the session.
  predicate Stopping(c: Ctl, c': Ctl) {
    && |c.subs| == 2 && |c'.subs| == 2
    && c'.geo == c.geo && c'.sessionDir == c.sessionDir
    && Params(c.flags.holder) && Params(c'.flags.holder) && c'.flags.holder.prog == c.flags.holder.prog
    && (KillingPc(c.flags.holder.pc) || c.flags.holder.pc.StopNext?)
    && (var pc := c'.flags.holder.pc;
        || KillingPc(pc) || pc.StopNext?
        || (pc.SetInterface? && c.flags.holder.prog.r.rate != c.geo.rate)
        || (pc.WriteFrames? && c.flags.holder.prog.r.rate == c.geo.rate))
    && c'.subs[0] == c.subs[0].(running := c'.subs[0].running)
    && c'.subs[1] == c.subs[1].(running := c'.subs[1].running)
  }

  lemma StoppingShape(c: Ctl, nurbs: nat)
    requires |c.subs| == 2 && Params(c.flags.holder)
    requires KillingPc(c.flags.holder.pc) || c.flags.holder.pc.StopNext?
    ensures Stopping(c, StepKillOrStop(c, nurbs))
  {
  }

  lemma StoppingStep(cfg: Config, c: Ctl, c': Ctl)
    requires GeoInv(cfg, c) && Stopping(c, c')
    ensures GeoInv(cfg, c')
  {
    hide WholePackets, TooShort, UrbFrames, UrbCount, RateOf;
  }

  lemma KillOrStopKeepsGeo(cfg: Config, c: Ctl, nurbs: nat)
    requires GeoInv(cfg, c) && CtlInv(c) && c.flags.holder.At?
    requires KillingPc(c.flags.holder.pc) || c.flags.holder.pc.StopNext?
    ensures GeoInv(cfg, StepKillOrStop(c, nurbs))
  {
    hide GeoInv, CtlInv, StepKillOrStop;
    SubsOfInv(c);
    if Params(c.flags.holder) {
      StoppingShape(c, nurbs);
      StoppingStep(cfg, c, StepKillOrStop(c, nurbs));
    } else {
      KillOrStopPeriods(c, nurbs);
      OtherStep(cfg, c, StepKillOrStop(c, nurbs));
    }
  }

  lemma KillOrStopPeriods(c: Ctl, nurbs: nat)
    requires CtlInv(c) && c.flags.holder.At? && !Params(c.flags.holder)
    requires KillingPc(c.flags.holder.pc) || c.flags.holder.pc.StopNext?
    ensures var c' := StepKillOrStop(c, nurbs);
            && |c'.subs| == 2 && c'.geo == c.geo && c'.sessionDir == c.sessionDir
            && !Params(c'.flags.holder) && SamePeriods(c, c')
  {
    hide CtlInv;
    SubsOfInv(c);
    if c.flags.holder.prog.Prepare? {
      PreparedSub(c);
    }
    match c.flags.holder.pc
    case KillNext(k) => AfterKillPeriods(c);
    case _ =>
  }

  lemma AfterKillPeriods(c: Ctl)
    requires |c.subs| == 2 && c.flags.holder.At? && !Params(c.flags.holder)
    requires c.flags.holder.prog.Prepare? ==> c.subs[c.flags.holder.prog.d].op == InPrepare
    ensures var c' := AfterKill(c);
            && |c'.subs| == 2 && c'.geo == c.geo && c'.sessionDir == c.sessionDir
            && !Params(c'.flags.holder) && SamePeriods(c, c')
  {
  }

  lemma ParamsMoveKeepsGeo(cfg: Config, c: Ctl, ok: bool)
    requires GeoInv(cfg, c) && CtlInv(c) && Params(c.flags.holder)
    requires c.flags.holder.pc in {Entry, SetInterface}
    ensures GeoInv(cfg, StepParams(cfg, c, ok))
  {
    hide GeoInv, CtlInv, UrbCount;
    SubsOfInv(c);
    var d := c.flags.holder.prog.d;
    if StepParams(cfg, c, ok) == FailParams(c, d) {
      FailKeepsGeo(cfg, c);
    } else {
      MoveOn(cfg, c, StepParams(cfg, c, ok).flags.holder.pc);
    }
  }

  lemma FailKeepsGeo(cfg: Config, c: Ctl)
    requires GeoInv(cfg, c) && Params(c.flags.holder) && c.flags.holder.pc in {Entry, SetInterface}
    ensures GeoInv(cfg, FailParams(c, c.flags.holder.prog.d))
  {
    hide WholePackets, TooShort, UrbFrames, RateOf;
    if c.flags.holder.prog.d == 0 {} else {}
  }

  lemma MoveOn(cfg: Config, c: Ctl, pc: Pc)
    requires GeoInv(cfg, c) && Params(c.flags.holder)
    requires var d := c.flags.holder.prog.d;
             if c.flags.holder.pc.Entry? then
               if c.flags.holder.prog.r.rate == c.geo.rate then pc == ChooseGeometry
               else !OtherHoldsClock(c.subs[d], c.subs[Other(d)]) && (pc == Clear || pc == SetInterface)
             else c.flags.holder.pc.SetInterface? && pc == WriteRate
    ensures GeoInv(cfg, Goto(c, pc))
  {
    hide WholePackets, TooShort, UrbFrames, RateOf;
  }

  lemma ParamsRateKeepsGeo(cfg: Config, c: Ctl, ok: bool)
    requires GeoInv(cfg, c) && CtlInv(c) && Params(c.flags.holder) && c.flags.holder.pc.WriteRate?
    ensures GeoInv(cfg, StepParams(cfg, c, ok))
  {
    hide WholePackets, TooShort, UrbFrames, UrbCount, RateOf;
  }

  lemma ParamsChooseKeepsGeo(cfg: Config, c: Ctl, ok: bool)
    requires GeoInv(cfg, c) && CtlInv(c) && Params(c.flags.holder) && c.flags.holder.pc.ChooseGeometry?
    ensures GeoInv(cfg, StepParams(cfg, c, ok))
  {
    hide CtlInv, GeoInv, UrbCount, Rechooses, SessionPeriod;
    SubsOfInv(c);
    var HwParams(d, r, period, urb, newRate) := c.flags.holder.prog;
    var c' := StepParams(cfg, c, ok);
    NewRateIsQuiet(c);
    if c' == FailParams(c, d) {
      RefusedParams(cfg, c);
    } else if c'.flags.holder.pc.Done? {
      ChosenAlready(cfg, c, c');
    } else {
      ChooseOn(cfg, c, c'.flags.holder.pc);
    }
  }

  lemma NewRateIsQuiet(c: Ctl)
    requires CtlInv(c) && Params(c.flags.holder)
    ensures c.flags.holder.prog.newRate ==> !c.flags.streaming
  {
  }

  lemma RefusedParams(cfg: Config, c: Ctl)
    requires GeoInv(cfg, c) && Params(c.flags.holder) && c.flags.holder.pc.ChooseGeometry?
    requires OtherHoldsClock(c.subs[c.flags.holder.prog.d], c.subs[Other(c.flags.holder.prog.d)])
    ensures GeoInv(cfg, FailParams(c, c.flags.holder.prog.d))
  {
    hide WholePackets, TooShort, UrbFrames, RateOf;
  }

  // The geometry fits the period: it did already, or it is what the period
  // would choose.
  lemma ChoiceFits(cfg: Config, c: Ctl)
    requires GeoInv(cfg, c) && Params(c.flags.holder) && c.flags.holder.pc.ChooseGeometry?
    requires var h := StepParams(cfg, c, true).flags.holder; h.At? && h.pc.Done?
    ensures !TooShort(c.flags.holder.prog.period, c.geo.frames, c.geo.active)
    ensures WholePackets(cfg, c.geo.rate, c.geo.frames)
  {
    hide WholePackets, TooShort, UrbFrames, UrbCount, RateOf;
    Chosen(cfg, c.flags.holder.prog.r, c.flags.holder.prog.period);
  }

  lemma ChosenAlready(cfg: Config, c: Ctl, c': Ctl)
    requires GeoInv(cfg, c) && CtlInv(c) && Params(c.flags.holder) && c.flags.holder.pc.ChooseGeometry?
    requires c' == StepParams(cfg, c, true) && c'.flags.holder.At? && c'.flags.holder.pc.Done?
    ensures GeoInv(cfg, c')
  {
    hide WholePackets, TooShort, GeoOk, Alone, ChooserFits, UrbCount, Rechooses, CtlInv;
    ChoiceFits(cfg, c);
    DoneKeepsGeo(cfg, c, c'.sessionDir);
  }

  lemma DoneKeepsGeo(cfg: Config, c: Ctl, dir: Dir)
    requires GeoInv(cfg, c) && CtlInv(c) && Params(c.flags.holder) && c.flags.holder.pc.ChooseGeometry?
    requires dir == c.sessionDir || dir == c.flags.holder.prog.d
    requires !TooShort(c.flags.holder.prog.period, c.geo.frames, c.geo.active)
    requires WholePackets(cfg, c.geo.rate, c.geo.frames)
    ensures GeoInv(cfg, Goto(c.(sessionDir := dir), Done))
  {
    hide WholePackets, TooShort, UrbFrames, FlagsOk, SubOk;
  }

  lemma ChooseOn(cfg: Config, c: Ctl, pc: Pc)
    requires GeoInv(cfg, c) && Params(c.flags.holder) && c.flags.holder.pc.ChooseGeometry?
    requires pc.WriteFrames? || (pc.Clear? && !c.flags.holder.prog.newRate)
    ensures GeoInv(cfg, Goto(c, pc))
  {
    hide WholePackets, TooShort, UrbFrames, RateOf;
  }

  lemma ParamsFramesKeepsGeo(cfg: Config, c: Ctl, ok: bool)
    requires GeoInv(cfg, c) && CtlInv(c) && Params(c.flags.holder) && c.flags.holder.pc.WriteFrames?
    ensures GeoInv(cfg, StepParams(cfg, c, ok))
  {
    hide WholePackets, TooShort, UrbFrames, UrbCount, RateOf;
    Chosen(cfg, c.flags.holder.prog.r, c.flags.holder.prog.period);
  }

  lemma ParamsActiveKeepsGeo(cfg: Config, c: Ctl, ok: bool)
    requires GeoInv(cfg, c) && CtlInv(c) && Params(c.flags.holder) && c.flags.holder.pc.WriteActive?
    ensures GeoInv(cfg, StepParams(cfg, c, ok))
  {
    hide WholePackets, TooShort, UrbFrames, UrbCount, RateOf;
    Chosen(cfg, c.flags.holder.prog.r, c.flags.holder.prog.period);
  }

  lemma ParamsDoneKeepsGeo(cfg: Config, c: Ctl, ok: bool)
    requires GeoInv(cfg, c) && CtlInv(c) && Params(c.flags.holder) && c.flags.holder.pc.Done?
    ensures GeoInv(cfg, StepParams(cfg, c, ok))
  {
    hide WholePackets, TooShort, UrbFrames, UrbCount, RateOf;
  }

  lemma FreeKeepsGeo(cfg: Config, c: Ctl)
    requires GeoInv(cfg, c) && CtlInv(c) && c.flags.holder.At? && c.flags.holder.prog.HwFree?
    requires c.flags.holder.pc.Entry?
    ensures GeoInv(cfg, StepFree(c))
  {
    hide WholePackets, TooShort, UrbFrames, UrbCount, RateOf, FlagsOk, DirOk, GeoOk, Alone, ChooserFits;
    OtherStep(cfg, c, StepFree(c));
  }

  lemma PrepareKeepsGeo(cfg: Config, c: Ctl, ok: bool)
    requires GeoInv(cfg, c) && CtlInv(c) && c.flags.holder.At? && c.flags.holder.prog.Prepare?
    requires !KillingPc(c.flags.holder.pc)
    ensures GeoInv(cfg, StepPrepare(c, ok))
  {
    hide GeoOk, Alone, ChooserFits, TooShort, CtlInv, StepPrepare;
    PreparePeriods(c, ok);
    OtherStep(cfg, c, StepPrepare(c, ok));
  }

  lemma PreparePeriods(c: Ctl, ok: bool)
    requires CtlInv(c) && c.flags.holder.At? && c.flags.holder.prog.Prepare?
    requires !KillingPc(c.flags.holder.pc)
    ensures var c' := StepPrepare(c, ok);
            && |c'.subs| == 2 && c'.geo == c.geo && c'.sessionDir == c.sessionDir
            && !Params(c'.flags.holder) && SamePeriods(c, c')
  {
    hide CtlInv, TooShort;
    PreparedSub(c);
  }

  lemma PreparedSub(c: Ctl)
    requires CtlInv(c) && c.flags.holder.At? && c.flags.holder.prog.Prepare?
    ensures |c.subs| == 2 && c.subs[c.flags.holder.prog.d].op == InPrepare
    ensures PcOfProg(c.flags.holder.prog, c.flags.holder.pc)
  {
    hide SubOk, StopToCome, TooShort;
    var d := c.flags.holder.prog.d;
    assert DirOk(c.geo, c.flags, c.subs[d], d);
  }

  lemma WorkKeepsGeo(cfg: Config, c: Ctl, urbErr: nat)
    requires GeoInv(cfg, c) && c.flags.holder.At?
    ensures c.flags.holder.prog.StreamWork? ==> GeoInv(cfg, StepWork(c, urbErr))
    ensures c.flags.holder.prog.Disconnect? ==> GeoInv(cfg, StepDisconnect(c))
  {
    hide WholePackets, TooShort, UrbFrames, UrbCount, RateOf;
    if c.flags.holder.prog.StreamWork? {
      OtherStep(cfg, c, StepWork(c, urbErr));
    } else if c.flags.holder.prog.Disconnect? {
      OtherStep(cfg, c, StepDisconnect(c));
    }
  }

  lemma MutexKeepsGeo(cfg: Config, c: Ctl, b: Bus, ok: bool)
    requires GeoInv(cfg, c) && CtlInv(c) && HolderEnabled(c, b)
    ensures GeoInv(cfg, StepMutex(cfg, c, b, ok))
  {
    hide GeoInv, CtlInv, StepParams, StepFree, StepPrepare, StepWork, StepDisconnect, StepKillOrStop;
    SubsOfInv(c);
    if KillingPc(c.flags.holder.pc) || c.flags.holder.pc.StopNext? {
      KillOrStopKeepsGeo(cfg, c, |b.urbs|);
    } else {
      match c.flags.holder.prog
      case HwParams(_, _, _, _, _) => ParamsKeepGeo(cfg, c, ok);
      case HwFree(_) => FreeKeepsGeo(cfg, c);
      case Prepare(_, _) => PrepareKeepsGeo(cfg, c, ok);
      case _ => WorkKeepsGeo(cfg, c, b.urbErr);
    }
  }

  lemma SubsOfInv(c: Ctl)
    requires CtlInv(c)
    ensures |c.subs| == 2
    ensures c.flags.holder.At? ==> PcOfProg(c.flags.holder.prog, c.flags.holder.pc)
  {
  }

  lemma ParamsKeepGeo(cfg: Config, c: Ctl, ok: bool)
    requires GeoInv(cfg, c) && CtlInv(c) && Params(c.flags.holder)
    requires !KillingPc(c.flags.holder.pc) && !c.flags.holder.pc.StopNext?
    ensures GeoInv(cfg, StepParams(cfg, c, ok))
  {
    hide GeoInv, CtlInv, StepParams;
    SubsOfInv(c);
    match c.flags.holder.pc
    case WriteRate => ParamsRateKeepsGeo(cfg, c, ok);
    case ChooseGeometry => ParamsChooseKeepsGeo(cfg, c, ok);
    case WriteFrames => ParamsFramesKeepsGeo(cfg, c, ok);
    case WriteActive => ParamsActiveKeepsGeo(cfg, c, ok);
    case Done => ParamsDoneKeepsGeo(cfg, c, ok);
    case _ => ParamsMoveKeepsGeo(cfg, c, ok);
  }

  lemma NextKeepsGeo(s: State, a: Action)
    requires Shaped(s) && GeoInv(s.cfg, s.ctl) && CtlInv(s.ctl) && Enabled(s, a)
    ensures GeoInv(s.cfg, NextCtl(s, a))
  {
    hide GeoOk, Alone, PeriodOf, ChooserFits, StepMutex, CallSub, CallHolder, CtlInv;
    match a
    case Core(d, call) => CallKeepsGeo(s, d, call);
    case StepHolder(ok) => MutexKeepsGeo(s.cfg, s.ctl, s.bus, ok);
    case StopDisconnect => OutsideKeepsGeo(s, a);
    case EnterWork => OutsideKeepsGeo(s, a);
    case MarkShutdown => OutsideKeepsGeo(s, a);
    case EnterDisconnect => OutsideKeepsGeo(s, a);
    case CancelWork => OutsideKeepsGeo(s, a);
    case _ =>
  }

  lemma OutsideKeepsGeo(s: State, a: Action)
    requires Shaped(s) && GeoInv(s.cfg, s.ctl) && CtlInv(s.ctl) && Enabled(s, a)
    requires a in {EnterWork, MarkShutdown, EnterDisconnect, CancelWork, StopDisconnect}
    ensures GeoInv(s.cfg, NextCtl(s, a))
  {
    hide WholePackets, TooShort, UrbFrames, UrbCount, RateOf;
  }
}
