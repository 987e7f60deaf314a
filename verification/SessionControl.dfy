/** What every step of the control calls, of trigger START and of the stops
    keeps: a running substream always matches the session. */
module SessionControl {
  import opened Wrappers
  import opened Geometry
  import opened Session

  predicate PcOfProg(prog: Prog, pc: Pc) {
    match prog
    case HwParams(_, _, _, _, _) =>
      || pc.Entry? || KillingPc(pc) || pc.StopNext? || pc.SetInterface? || pc.WriteRate?
      || pc.ChooseGeometry? || pc.WriteFrames? || pc.WriteActive? || pc.Done?
    case HwFree(_) => pc.Entry? || KillingPc(pc)
    case Prepare(_, late) =>
      || KillingPc(pc)
      || (!late && (|| pc.Entry? || pc.StartWrites? || pc.StartErr? || pc.StartInflight?
                    || pc.StartLive? || pc.StartSubmit? || pc.StartArm?))
    case StreamWork => pc.Entry? || pc.TestErr? || KillingPc(pc) || pc.StopNext? || pc.ClearErr?
    case Disconnect => pc.Entry? || KillingPc(pc)
  }

  // The points of a program where no session is live.
  predicate Quiet(prog: Prog, pc: Pc) {
    || pc.KillNext? || pc.KillWait? || pc.StopNext? || pc.SetInterface? || pc.WriteRate?
    || pc.WriteFrames? || pc.WriteActive? || pc.StartWrites? || pc.StartErr? || pc.StartInflight?
    || pc.StartLive? || pc.ClearErr?
    || (pc.Clear? && prog.Prepare? && !prog.late)
    || (prog.HwParams? && prog.newRate)
  }

  predicate DisconnectPast(disc: Disc) { disc.Killed? || disc.Stopping? || disc.Disconnected? }

  function Count(b: bool): int { if b then 1 else 0 }

  // The program counters fit the flags that only the mutex holder changes.
  predicate FlagsOk(f: Flags, users: int) {
    && (f.holder.At? ==>
          && PcOfProg(f.holder.prog, f.holder.pc)
          && (Quiet(f.holder.prog, f.holder.pc) ==> !f.streaming)
          && (f.holder.pc.StartSubmit? || f.holder.pc.StartArm? ==> f.streaming)
          && (f.holder.prog.HwFree? && KillingPc(f.holder.pc) ==> users == 0)
          && (f.holder.prog.Prepare? && f.holder.prog.late ==> f.failedLate)
          && (f.holder.prog.Disconnect? ==> f.disc == Marked))
    && (f.streaming && users == 0 ==> f.holder.At? && f.holder.prog.HwFree? && f.holder.pc.Clear?)
    && (f.shutdown <==> f.disc != Connected)
    && (DisconnectPast(f.disc) ==> !f.streaming && (f.holder.At? ==> f.holder.pc.Entry?))
  }

  // The call the holder makes for direction d.
  function CallOf(h: Holder, d: Dir): Op {
    if h.At? then
      match h.prog
      case HwParams(e, _, _, _, _) => if e == d then InParams else NoOp
      case HwFree(e) => if e == d then InFree else NoOp
      case Prepare(e, _) => if e == d then InPrepare else NoOp
      case _ => NoOp
    else NoOp
  }

  // The substream is where the call made for it says.
  predicate OpOk(call: Op, sub: Sub) {
    && (sub.op.InParams? || sub.op.InFree? || sub.op.InPrepare? || call != NoOp ==> sub.op == call)
    && (sub.running || sub.op.Start? || sub.op.InPrepare? ==> sub.phase == SetUp)
    && (sub.running ==> sub.op == NoOp)
    && (sub.phase == SetUp && !sub.op.InFree? ==> sub.setup)
    && (sub.op.Returned? ==> sub.setup)
  }

  // The session is gone, but the stop of d is still to come - or the card goes
  // away, and nothing changes the session any more.
  predicate StopToCome(f: Flags, d: Dir) {
    || DisconnectPast(f.disc)
    || (f.holder.At? &&
        match f.holder.prog
        case HwParams(_, _, _, _, _) => KillingPc(f.holder.pc) || (f.holder.pc.StopNext? && f.holder.pc.s <= d)
        case StreamWork => KillingPc(f.holder.pc) || (f.holder.pc.StopNext? && f.holder.pc.s <= d)
        case HwFree(_) => false
        case Prepare(_, _) => false
        case Disconnect => KillingPc(f.holder.pc))
  }

  // A running substream fits the session.
  predicate Fitting(g: Geo, sub: Sub) {
    sub.running ==> sub.rate == g.rate && !TooShort(sub.period, g.frames, g.active)
  }

  // What a START has seen of the session is still so.
  predicate Seen(g: Geo, sub: Sub) {
    sub.op.Start? ==>
      match sub.op.at
      case StreamLocked => true
      case SawStreaming => true
      case SawRate => sub.rate == g.rate
      case SawFrames(f) => sub.rate == g.rate && f == g.frames
      case SawGeometry(f, a) => sub.rate == g.rate && f == g.frames && a == g.active
  }

  predicate SubOk(g: Geo, held: bool, sub: Sub) {
    !sub.orphan && sub.Live() ==> held && Fitting(g, sub) && Seen(g, sub)
  }

  predicate DirOk(g: Geo, f: Flags, sub: Sub, d: Dir) {
    && OpOk(CallOf(f.holder, d), sub)
    && SubOk(g, f.streaming || StopToCome(f, d), sub)
    && (sub.orphan ==> f.failedLate)
  }

  predicate CtlInv(c: Ctl) {
    && |c.subs| == 2
    && FlagsOk(c.flags, c.users)
    && c.users == Count(c.subs[0].setup) + Count(c.subs[1].setup)
    && DirOk(c.geo, c.flags, c.subs[0], 0)
    && DirOk(c.geo, c.flags, c.subs[1], 1)
  }

  // ----------------------------------------------------------- the ALSA core

  lemma CallKeepsSub(cfg: Config, g: Geo, f: Flags, users: int, sub: Sub, d: Dir, call: Call)
    requires FlagsOk(f, users) && DirOk(g, f, sub, d) && CallEnabled(cfg, f.holder, sub, call)
    requires call != StepStart
    ensures DirOk(g, f.(holder := CallHolder(cfg, f.holder, d, call)), CallSub(g, f.streaming, sub, call), d)
  {
  }

  lemma StartKeepsSub(g: Geo, f: Flags, users: int, sub: Sub, d: Dir)
    requires FlagsOk(f, users) && DirOk(g, f, sub, d) && sub.op.Start?
    ensures DirOk(g, f, TriggerStart(g, f.streaming, sub), d)
  {
  }

  lemma CallKeepsOther(cfg: Config, g: Geo, f: Flags, users: int, own: Sub, sub: Sub, d: Dir, call: Call)
    requires FlagsOk(f, users) && DirOk(g, f, sub, Other(d)) && CallEnabled(cfg, f.holder, own, call)
    ensures DirOk(g, f.(holder := CallHolder(cfg, f.holder, d, call)), sub, Other(d))
    ensures FlagsOk(f.(holder := CallHolder(cfg, f.holder, d, call)), users)
  {
  }

  // ------------------------------------------------------ the mutex holder

  // Direction e is as it should be after a step.
  predicate Kept(c: Ctl, e: Dir) {
    && |c.subs| == 2
    && FlagsOk(c.flags, c.users)
    && DirOk(c.geo, c.flags, c.subs[e], e)
  }

  predicate Held(f: Flags, d: Dir) { f.streaming || StopToCome(f, d) }

  // A step that leaves the geometry and the substream of e alone.
  lemma GotoKeeps(c: Ctl, c': Ctl, e: Dir)
    requires CtlInv(c) && |c'.subs| == 2
    requires c'.geo == c.geo && c'.subs[e] == c.subs[e]
    requires FlagsOk(c'.flags, c'.users)
    requires CallOf(c'.flags.holder, e) == CallOf(c.flags.holder, e)
    requires Held(c.flags, e) ==> Held(c'.flags, e)
    requires c.flags.failedLate ==> c'.flags.failedLate
    ensures Kept(c', e)
  {
  }

  // A call that returns: its own substream was not live.
  lemma ReturnKeeps(c: Ctl, c': Ctl, d: Dir, e: Dir)
    requires CtlInv(c) && |c'.subs| == 2 && CallOf(c.flags.holder, d) != NoOp
    requires c'.geo == c.geo && c'.flags == c.flags.(holder := Free)
    requires c'.flags.streaming ==> c'.users != 0
    requires !KillingPc(c.flags.holder.pc) && !c.flags.holder.pc.StopNext?
    requires d != e ==> c'.subs[e] == c.subs[e]
    requires d == e ==>
               var sub := c'.subs[d];
               && sub.running == c.subs[d].running && sub.orphan == c.subs[d].orphan
               && (sub.op == NoOp || (sub.op.Returned? && sub.setup))
               && (sub.phase == SetUp ==> sub.setup)
    ensures Kept(c', e)
  {
  }

  // No live substream minds a new geometry: none is left to run.
  lemma WriteKeeps(c: Ctl, c': Ctl, e: Dir)
    requires CtlInv(c) && |c'.subs| == 2 && c'.subs == c.subs
    requires !Held(c.flags, e)
    requires FlagsOk(c'.flags, c'.users)
    requires CallOf(c'.flags.holder, e) == CallOf(c.flags.holder, e)
    requires c.flags.failedLate ==> c'.flags.failedLate
    ensures Kept(c', e)
  {
  }

  lemma KillKeeps(c: Ctl, nurbs: nat, e: Dir)
    requires CtlInv(c) && c.flags.holder.At? && KillingPc(c.flags.holder.pc)
    ensures Kept(StepKillOrStop(c, nurbs), e)
  {
    hide DirOk;
    match c.flags.holder.pc
    case Clear => ClearKeeps(c, nurbs, e);
    case KillNext(k) =>
      if k < nurbs { GotoKeeps(c, StepKillOrStop(c, nurbs), e); } else { AfterKillKeeps(c, e); }
    case KillWait(k) => GotoKeeps(c, StepKillOrStop(c, nurbs), e);
  }

  lemma ClearKeeps(c: Ctl, nurbs: nat, e: Dir)
    requires CtlInv(c) && c.flags.holder.At? && c.flags.holder.pc.Clear?
    ensures Kept(StepKillOrStop(c, nurbs), e)
  {
    if c.flags.holder.prog.HwFree? {
      assert !c.subs[e].Live();
    } else if c.flags.holder.prog.Prepare? {
      StartClearKeeps(c, nurbs, e);
    } else {
      GotoKeeps(c, StepKillOrStop(c, nurbs), e);
    }
  }

  // A late failure: what is live is left on its own.
  lemma StartClearKeeps(c: Ctl, nurbs: nat, e: Dir)
    requires CtlInv(c) && c.flags.holder.At? && c.flags.holder.pc.Clear? && c.flags.holder.prog.Prepare?
    ensures Kept(StepKillOrStop(c, nurbs), e)
  {
    if e == 0 {} else {}
  }

  lemma AfterKillKeeps(c: Ctl, e: Dir)
    requires CtlInv(c) && c.flags.holder.At? && c.flags.holder.pc.KillNext?
    ensures Kept(AfterKill(c), e)
  {
    hide DirOk;
    match c.flags.holder.prog
    case HwParams(_, _, _, _, _) => GotoKeeps(c, AfterKill(c), e);
    case StreamWork => GotoKeeps(c, AfterKill(c), e);
    case HwFree(d) => AfterFreeKillKeeps(c, d, e);
    case Prepare(d, late) => AfterStartKillKeeps(c, d, late, e);
    case Disconnect => GotoKeeps(c, AfterKill(c), e);
  }

  lemma AfterFreeKillKeeps(c: Ctl, d: Dir, e: Dir)
    requires CtlInv(c) && c.flags.holder.At? && c.flags.holder.prog == HwFree(d) && c.flags.holder.pc.KillNext?
    ensures Kept(AfterKill(c), e)
  {
    if d != e {
      GotoKeeps(c, AfterKill(c), e);
    }
  }

  lemma AfterStartKillKeeps(c: Ctl, d: Dir, late: bool, e: Dir)
    requires CtlInv(c) && c.flags.holder.At? && c.flags.holder.prog == Prepare(d, late) && c.flags.holder.pc.KillNext?
    ensures Kept(AfterKill(c), e)
  {
    if d != e {
      GotoKeeps(c, AfterKill(c), e);
    }
  }

  lemma StopKeeps(c: Ctl, nurbs: nat, e: Dir)
    requires CtlInv(c) && c.flags.holder.At? && c.flags.holder.pc.StopNext?
    requires c.flags.holder.pc.s < 2 ==> !c.subs[c.flags.holder.pc.s].op.Start?
    ensures Kept(StepKillOrStop(c, nurbs), e)
  {
    hide DirOk;
    var s := c.flags.holder.pc.s;
    if s >= 2 {
      AfterStopKeeps(c, nurbs, e);
    } else if s != e {
      GotoKeeps(c, StepKillOrStop(c, nurbs), e);
    } else {
      StopOneKeeps(c, nurbs, e);
    }
  }

  lemma AfterStopKeeps(c: Ctl, nurbs: nat, e: Dir)
    requires CtlInv(c) && c.flags.holder.At? && c.flags.holder.pc.StopNext? && c.flags.holder.pc.s >= 2
    ensures Kept(StepKillOrStop(c, nurbs), e)
  {
    hide DirOk;
    GotoKeeps(c, Goto(c, AfterStop(c).flags.holder.pc), e);
  }

  lemma StopOneKeeps(c: Ctl, nurbs: nat, e: Dir)
    requires CtlInv(c) && c.flags.holder.At? && c.flags.holder.pc == StopNext(e)
    requires !c.subs[e].op.Start?
    ensures Kept(StepKillOrStop(c, nurbs), e)
  {
  }

  lemma ParamsKeep(cfg: Config, c: Ctl, ok: bool, e: Dir)
    requires CtlInv(c) && c.flags.holder.At? && c.flags.holder.prog.HwParams?
    requires !KillingPc(c.flags.holder.pc) && !c.flags.holder.pc.StopNext?
    ensures Kept(StepParams(cfg, c, ok), e)
  {
    hide DirOk;
    var c' := StepParams(cfg, c, ok);
    var d := c.flags.holder.prog.d;
    match c.flags.holder.pc
    case Done => ReturnKeeps(c, c', d, e);
    case WriteRate => ParamsWriteKeeps(cfg, c, ok, e);
    case WriteFrames => ParamsWriteKeeps(cfg, c, ok, e);
    case WriteActive => ParamsWriteKeeps(cfg, c, ok, e);
    case _ => ParamsGotoKeeps(cfg, c, ok, e);
  }

  lemma ParamsWriteKeeps(cfg: Config, c: Ctl, ok: bool, e: Dir)
    requires CtlInv(c) && c.flags.holder.At? && c.flags.holder.prog.HwParams?
    requires c.flags.holder.pc in {WriteRate, WriteFrames, WriteActive}
    ensures Kept(StepParams(cfg, c, ok), e)
  {
    hide DirOk, UrbCount, Kept;
    WriteKeeps(c, StepParams(cfg, c, ok), e);
  }

  lemma ParamsGotoKeeps(cfg: Config, c: Ctl, ok: bool, e: Dir)
    requires CtlInv(c) && c.flags.holder.At? && c.flags.holder.prog.HwParams?
    requires c.flags.holder.pc in {Entry, SetInterface, ChooseGeometry}
    ensures Kept(StepParams(cfg, c, ok), e)
  {
    match c.flags.holder.pc
    case Entry => ParamsEntryKeeps(cfg, c, ok, e);
    case SetInterface => ParamsInterfaceKeeps(cfg, c, ok, e);
    case _ => ParamsChooseKeeps(cfg, c, ok, e);
  }

  lemma ParamsEntryKeeps(cfg: Config, c: Ctl, ok: bool, e: Dir)
    requires CtlInv(c) && c.flags.holder.At? && c.flags.holder.prog.HwParams? && c.flags.holder.pc.Entry?
    ensures Kept(StepParams(cfg, c, ok), e)
  {
    hide DirOk;
    MoveKeeps(c, StepParams(cfg, c, ok), e);
  }

  // The five ways on from a test: refuse, go on, choose only the direction,
  // stop the session first, or change it because it is stopped already.
  predicate Moves(c: Ctl, c': Ctl, d: Dir)
    requires |c.subs| == 2 && c.flags.holder.At?
  {
    || c' == FailParams(c, d)
    || c' == Goto(c, ChooseGeometry)
    || c' == Goto(c, Done)
    || c' == Goto(c.(sessionDir := d), Done)
    || (c.flags.streaming && c' == Goto(c, Clear))
    || (!c.flags.streaming && (c' == Goto(c, WriteFrames) || c' == Goto(c, SetInterface)))
  }

  lemma MoveKeeps(c: Ctl, c': Ctl, e: Dir)
    requires CtlInv(c) && c.flags.holder.At? && c.flags.holder.prog.HwParams?
    requires c.flags.holder.pc.Entry? || c.flags.holder.pc.ChooseGeometry?
    requires Moves(c, c', c.flags.holder.prog.d)
    requires c.flags.holder.pc.Entry? && c.flags.shutdown ==> c' == FailParams(c, c.flags.holder.prog.d)
    ensures Kept(c', e)
  {
    var d := c.flags.holder.prog.d;
    if c' == FailParams(c, d) {
      ReturnKeeps(c, c', d, e);
    } else {
      MoveFlags(c, c'.flags);
      GotoKeeps(c, c', e);
    }
  }

  lemma MoveFlags(c: Ctl, f: Flags)
    requires CtlInv(c) && c.flags.holder.At? && c.flags.holder.prog.HwParams?
    requires c.flags.holder.pc.Entry? || c.flags.holder.pc.ChooseGeometry?
    requires c.flags.holder.pc.Entry? ==> !c.flags.shutdown
    requires f.holder.At? && f == c.flags.(holder := At(c.flags.holder.prog, f.holder.pc))
    requires || f.holder.pc in {ChooseGeometry, Done} || (c.flags.streaming && f.holder.pc == Clear)
             || (!c.flags.streaming && f.holder.pc in {WriteFrames, SetInterface})
    ensures FlagsOk(f, c.users)
  {
  }

  lemma ParamsInterfaceKeeps(cfg: Config, c: Ctl, ok: bool, e: Dir)
    requires CtlInv(c) && c.flags.holder.At? && c.flags.holder.prog.HwParams? && c.flags.holder.pc.SetInterface?
    ensures Kept(StepParams(cfg, c, ok), e)
  {
    hide DirOk;
    if ok {
      GotoKeeps(c, Goto(c, WriteRate), e);
    } else {
      ReturnKeeps(c, StepParams(cfg, c, ok), c.flags.holder.prog.d, e);
    }
  }

  lemma ParamsChooseKeeps(cfg: Config, c: Ctl, ok: bool, e: Dir)
    requires CtlInv(c) && c.flags.holder.At? && c.flags.holder.prog.HwParams? && c.flags.holder.pc.ChooseGeometry?
    ensures Kept(StepParams(cfg, c, ok), e)
  {
    ChooseMoves(cfg, c, ok);
    MoveKeeps(c, StepParams(cfg, c, ok), e);
  }

  lemma ChooseMoves(cfg: Config, c: Ctl, ok: bool)
    requires |c.subs| == 2
    requires c.flags.holder.At? && c.flags.holder.prog.HwParams? && c.flags.holder.pc.ChooseGeometry?
    ensures Moves(c, StepParams(cfg, c, ok), c.flags.holder.prog.d)
  {
  }

  lemma FreeKeeps(c: Ctl, e: Dir)
    requires CtlInv(c) && c.flags.holder.At? && c.flags.holder.prog.HwFree? && c.flags.holder.pc.Entry?
    ensures Kept(StepFree(c), e)
  {
    hide DirOk;
    var c' := StepFree(c);
    var d := c.flags.holder.prog.d;
    if c'.flags.holder == Free {
      ReturnKeeps(c, c', d, e);
    } else if e != d {
      GotoKeeps(c, c', e);
    } else {
      FreeOwnKeeps(c);
    }
  }

  // The last direction goes: its own substream was not live.
  lemma FreeOwnKeeps(c: Ctl)
    requires CtlInv(c) && c.flags.holder.At? && c.flags.holder.prog.HwFree? && c.flags.holder.pc.Entry?
    requires StepFree(c).flags.holder != Free
    ensures Kept(StepFree(c), c.flags.holder.prog.d)
  {
    hide StopToCome, Fitting, Seen;
  }

  lemma PrepareKeeps(c: Ctl, ok: bool, e: Dir)
    requires CtlInv(c) && c.flags.holder.At? && c.flags.holder.prog.Prepare?
    requires !KillingPc(c.flags.holder.pc)
    ensures Kept(StepPrepare(c, ok), e)
  {
    hide DirOk;
    var c' := StepPrepare(c, ok);
    match c.flags.holder.pc
    case Entry => PrepareEntryKeeps(c, ok, e);
    case StartWrites => PrepareWritesKeeps(c, ok, e);
    case StartErr => GotoKeeps(c, Goto(c, StartInflight), e);
    case StartInflight => GotoKeeps(c, Goto(c, StartLive), e);
    case StartLive =>
      PreparedIsCounted(c);
      GotoKeeps(c, c', e);
    case _ => PrepareSubmitKeeps(c, ok, e);
  }

  // Who prepares is set up.
  lemma PreparedIsCounted(c: Ctl)
    requires CtlInv(c) && c.flags.holder.At? && c.flags.holder.prog.Prepare?
    ensures c.users > 0
  {
    if c.flags.holder.prog.d == 0 {} else {}
  }

  lemma PrepareReturnKeeps(c: Ctl, e: Dir)
    requires CtlInv(c) && c.flags.holder.At? && c.flags.holder.prog.Prepare? && !KillingPc(c.flags.holder.pc)
    ensures Kept(Return(c, c.flags.holder.prog.d, NoOp), e)
  {
    ReturnKeeps(c, Return(c, c.flags.holder.prog.d, NoOp), c.flags.holder.prog.d, e);
  }

  lemma PrepareEntryKeeps(c: Ctl, ok: bool, e: Dir)
    requires CtlInv(c) && c.flags.holder.At? && c.flags.holder.prog.Prepare? && c.flags.holder.pc.Entry?
    ensures Kept(StepPrepare(c, ok), e)
  {
    hide DirOk;
    PrepareReturnKeeps(c, e);
    if StepPrepare(c, ok).flags.holder != Free {
      GotoKeeps(c, Goto(c, StartWrites), e);
    }
  }

  lemma PrepareWritesKeeps(c: Ctl, ok: bool, e: Dir)
    requires CtlInv(c) && c.flags.holder.At? && c.flags.holder.prog.Prepare? && c.flags.holder.pc.StartWrites?
    ensures Kept(StepPrepare(c, ok), e)
  {
    hide DirOk;
    if ok {
      GotoKeeps(c, Goto(c, StartErr), e);
    } else {
      GotoKeeps(c, Goto(c, Clear), e);
    }
  }

  lemma PrepareSubmitKeeps(c: Ctl, ok: bool, e: Dir)
    requires CtlInv(c) && c.flags.holder.At? && c.flags.holder.prog.Prepare?
    requires c.flags.holder.pc.StartSubmit? || c.flags.holder.pc.StartArm?
    ensures Kept(StepPrepare(c, ok), e)
  {
    hide DirOk, Kept;
    PrepareReturnKeeps(c, e);
    FailLateKeeps(c, e);
    match c.flags.holder.pc
    case StartSubmit(k) =>
      SubmitOnKeeps(c, StartArm, e);
      SubmitOnKeeps(c, StartSubmit(k + 1), e);
    case _ =>
  }

  lemma SubmitOnKeeps(c: Ctl, pc: Pc, e: Dir)
    requires CtlInv(c) && c.flags.holder.At? && c.flags.holder.prog.Prepare? && c.flags.holder.pc.StartSubmit?
    requires pc.StartSubmit? || pc.StartArm?
    ensures Kept(Goto(c, pc), e)
  {
    hide DirOk;
    GotoKeeps(c, Goto(c, pc), e);
  }

  lemma FailLateKeeps(c: Ctl, e: Dir)
    requires CtlInv(c) && c.flags.holder.At? && c.flags.holder.prog.Prepare?
    requires c.flags.holder.pc.StartSubmit? || c.flags.holder.pc.StartArm?
    ensures Kept(FailLate(c, c.flags.holder.prog.d), e)
  {
    hide DirOk;
    GotoKeeps(c, FailLate(c, c.flags.holder.prog.d), e);
  }

  lemma WorkKeeps(c: Ctl, urbErr: nat, e: Dir)
    requires CtlInv(c) && c.flags.holder.At? && c.flags.holder.prog.StreamWork?
    requires !KillingPc(c.flags.holder.pc) && !c.flags.holder.pc.StopNext?
    ensures Kept(StepWork(c, urbErr), e)
  {
    hide DirOk;
    var c' := StepWork(c, urbErr);
    if EndsWork(c.flags, urbErr) {
      GotoKeeps(c, WithHolder(c, Free), e);
    } else {
      GotoKeeps(c, Goto(c, c'.flags.holder.pc), e);
    }
  }

  lemma DisconnectKeeps(c: Ctl, e: Dir)
    requires CtlInv(c) && c.flags.holder.At? && c.flags.holder.prog.Disconnect? && c.flags.holder.pc.Entry?
    ensures Kept(StepDisconnect(c), e)
  {
    hide DirOk;
    GotoKeeps(c, StepDisconnect(c), e);
  }

  predicate UsersCounted(c: Ctl) {
    |c.subs| == 2 && c.users == Count(c.subs[0].setup) + Count(c.subs[1].setup)
  }

  lemma ParamsCount(cfg: Config, c: Ctl, ok: bool)
    requires CtlInv(c) && c.flags.holder.At? && c.flags.holder.prog.HwParams?
    requires !KillingPc(c.flags.holder.pc) && !c.flags.holder.pc.StopNext?
    ensures UsersCounted(StepParams(cfg, c, ok))
  {
    hide DirOk, TooShort, UrbCount, Rechooses;
    match c.flags.holder.pc
    case Entry => MoveCounts(c, StepParams(cfg, c, ok));
    case ChooseGeometry =>
      ChooseMoves(cfg, c, ok);
      MoveCounts(c, StepParams(cfg, c, ok));
    case _ =>
  }

  lemma MoveCounts(c: Ctl, c': Ctl)
    requires CtlInv(c) && c.flags.holder.At? && c.flags.holder.prog.HwParams?
    requires Moves(c, c', c.flags.holder.prog.d)
    ensures UsersCounted(c')
  {
    hide DirOk, FlagsOk;
  }

  lemma FreeCounts(c: Ctl)
    requires CtlInv(c) && c.flags.holder.At? && c.flags.holder.prog.HwFree? && c.flags.holder.pc.Entry?
    ensures UsersCounted(StepFree(c))
  {
    hide DirOk, FlagsOk;
  }

  lemma PrepareCounts(c: Ctl, ok: bool)
    requires CtlInv(c) && c.flags.holder.At? && c.flags.holder.prog.Prepare?
    ensures UsersCounted(StepPrepare(c, ok))
  {
    hide DirOk, FlagsOk, TooShort;
    if c.flags.holder.prog.d == 0 {} else {}
  }

  lemma OthersCount(c: Ctl, b: Bus)
    requires CtlInv(c) && c.flags.holder.At?
    ensures c.flags.holder.prog.StreamWork? ==> UsersCounted(StepWork(c, b.urbErr))
    ensures c.flags.holder.prog.Disconnect? ==> UsersCounted(StepDisconnect(c))
  {
    hide DirOk, FlagsOk, TooShort;
  }

  lemma KillOrStopCounts(c: Ctl, nurbs: nat)
    requires CtlInv(c) && c.flags.holder.At?
    requires KillingPc(c.flags.holder.pc) || c.flags.holder.pc.StopNext?
    ensures UsersCounted(StepKillOrStop(c, nurbs))
  {
    hide DirOk, FlagsOk;
  }

  lemma MutexKeepsDir(cfg: Config, c: Ctl, b: Bus, ok: bool, e: Dir)
    requires CtlInv(c) && HolderEnabled(c, b)
    ensures Kept(StepMutex(cfg, c, b, ok), e)
  {
    hide DirOk, StepParams, StepFree, StepPrepare, StepWork, StepDisconnect, StepKillOrStop, Kept;
    if KillingPc(c.flags.holder.pc) {
      KillKeeps(c, |b.urbs|, e);
    } else if c.flags.holder.pc.StopNext? {
      StopKeeps(c, |b.urbs|, e);
    } else {
      match c.flags.holder.prog
      case HwParams(_, _, _, _, _) => ParamsKeep(cfg, c, ok, e);
      case HwFree(_) => FreeKeeps(c, e);
      case Prepare(_, _) => PrepareKeeps(c, ok, e);
      case StreamWork => WorkKeeps(c, b.urbErr, e);
      case Disconnect => DisconnectKeeps(c, e);
    }
  }

  lemma MutexCounts(cfg: Config, c: Ctl, b: Bus, ok: bool)
    requires CtlInv(c) && HolderEnabled(c, b)
    ensures UsersCounted(StepMutex(cfg, c, b, ok))
  {
    hide DirOk, StepParams, StepFree, StepPrepare, StepWork, StepDisconnect, StepKillOrStop, UsersCounted;
    if KillingPc(c.flags.holder.pc) || c.flags.holder.pc.StopNext? {
      KillOrStopCounts(c, |b.urbs|);
    } else {
      match c.flags.holder.prog
      case HwParams(_, _, _, _, _) => ParamsCount(cfg, c, ok);
      case HwFree(_) => FreeCounts(c);
      case Prepare(_, _) => PrepareCounts(c, ok);
      case _ => OthersCount(c, b);
    }
  }

  // ----------------------------------------------------------- every step

  lemma CallKeeps(s: State, d: Dir, call: Call)
    requires Shaped(s) && CtlInv(s.ctl) && Enabled(s, Core(d, call))
    ensures CtlInv(NextCtl(s, Core(d, call)))
  {
    hide DirOk, FlagsOk, CallSub, CallHolder, CallEnabled;
    var c := s.ctl;
    CallKeepsSetup(c.geo, c.flags.streaming, c.subs[d], call);
    if call == StepStart {
      StartOnly(s.cfg, c.geo, c.flags, c.subs[d], d, call);
      StartKeepsSub(c.geo, c.flags, c.users, c.subs[d], d);
    } else {
      CallKeepsSub(s.cfg, c.geo, c.flags, c.users, c.subs[d], d, call);
    }
    CallKeepsOther(s.cfg, c.geo, c.flags, c.users, c.subs[d], c.subs[Other(d)], d, call);
    var c' := NextCtl(s, Core(d, call));
    assert c'.flags == c.flags.(holder := CallHolder(s.cfg, c.flags.holder, d, call));
    assert c'.subs[Other(d)] == c.subs[Other(d)];
    assert c'.subs[d] == CallSub(c.geo, c.flags.streaming, c.subs[d], call);
    assert d == 0 || d == 1;
  }

  lemma CallKeepsSetup(g: Geo, streaming: bool, sub: Sub, call: Call)
    ensures CallSub(g, streaming, sub, call).setup == sub.setup
  {
    hide TooShort;
  }

  lemma StartOnly(cfg: Config, g: Geo, f: Flags, sub: Sub, d: Dir, call: Call)
    requires CallEnabled(cfg, f.holder, sub, call) && call == StepStart
    ensures CallHolder(cfg, f.holder, d, call) == f.holder
    ensures sub.op.Start? && CallSub(g, f.streaming, sub, call) == TriggerStart(g, f.streaming, sub)
  {
  }

  lemma OutsideKeeps(s: State, a: Action, e: Dir)
    requires Shaped(s) && CtlInv(s.ctl) && Enabled(s, a)
    requires a in {EnterWork, MarkShutdown, EnterDisconnect, CancelWork}
    ensures Kept(NextCtl(s, a), e)
  {
    hide DirOk, StepMutex, CallSub, CallHolder;
    GotoKeeps(s.ctl, NextCtl(s, a), e);
  }

  lemma StopDisconnectKeeps(s: State, e: Dir)
    requires Shaped(s) && CtlInv(s.ctl) && Enabled(s, StopDisconnect)
    ensures Kept(NextCtl(s, StopDisconnect), e)
  {
    var k := s.ctl.flags.disc.s;
    if k >= 2 || k != e {
      GotoKeeps(s.ctl, NextCtl(s, StopDisconnect), e);
    }
  }

  lemma NextKeepsCtl(s: State, a: Action)
    requires Shaped(s) && CtlInv(s.ctl) && Enabled(s, a)
    ensures CtlInv(NextCtl(s, a))
  {
    hide DirOk, FlagsOk, StepMutex, CallSub, CallHolder, CallEnabled, HolderEnabled;
    match a
    case Core(d, call) => CallKeeps(s, d, call);
    case StepHolder(ok) =>
      MutexKeepsDir(s.cfg, s.ctl, s.bus, ok, 0);
      MutexKeepsDir(s.cfg, s.ctl, s.bus, ok, 1);
      MutexCounts(s.cfg, s.ctl, s.bus, ok);
    case StopDisconnect =>
      StopDisconnectKeeps(s, 0);
      StopDisconnectKeeps(s, 1);
    case BeginWork =>
    case Complete(_, _) =>
    case StepHandler(_, _) =>
    case _ =>
      OutsideKeeps(s, a, 0);
      OutsideKeeps(s, a, 1);
  }

  lemma InitialCtl(cfg: Config)
    ensures CtlInv(Initial(cfg).ctl)
  {
  }
}
