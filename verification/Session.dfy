/** The PCM session as a step system.

    One USB session is shared by the two ALSA directions.  Its shared variables
    are changed by the control calls (under chip->mutex), by trigger START
    (under the stream lock of its substream only), by the URB completion
    handlers (atomics only) and by the work that stops a broken session.  Every
    access of one of them to a variable that another of them may change at the
    same time is a step of its own; accesses to variables that only the holder
    of the mutex touches go with the step beside them.  Memory is sequentially
    consistent. */
module Session {
  import opened Wrappers
  import opened Geometry

  // Bad URBs in a row before the session is stopped.
  const URB_ERR_STOP := 3

  type Frames = n: nat | n > 0 witness 1

  function Other(d: Dir): Dir { 1 - d }

  // ---------------------------------------------------------------- URBs

  /** URB number 2*i is the IN URB i, number 2*i + 1 the OUT URB i: the order
      in which they are submitted and killed. */
  datatype UrbState =
    | Idle
    | InFlight(session: nat)
    | Handler(session: nat, at: HandlerPc)

  // How a URB completes: Gone stands for the statuses of a kill or an unplug.
  datatype Status = Good | Bad | Gone

  datatype HandlerPc =
    | Completed(status: Status)
    | OkLoop(err: nat)  // holds a value of urb_err, about to exchange it for 0
    | Deliver
    | ErrQueue          // counted the last bad URB, about to queue stream_work
    | ErrLost           // about to take the OUT URB off out_inflight
    | Test              // about to read streaming
    | Submit
    | FailLost | FailSet | FailQueue

  predicate IsOut(k: nat) { k % 2 == 1 }

  // ------------------------------------------------- substreams, programs

  /** Where the ALSA core is with a substream.  It makes one call at a time on
      a substream; only the driver's own stop comes from outside. */
  datatype Phase = Closed | Open | SetUp | Failed

  datatype Op =
    | NoOp
    | InParams
    | Returned(rate: nat, period: nat)  // hw_params returned 0, the runtime is written next
    | InFree
    | InPrepare
    | Start(at: StartPc)

  datatype StartPc =
    | StreamLocked
    | SawStreaming
    | SawRate
    | SawFrames(frames: nat)
    | SawGeometry(frames: nat, active: nat)

  /** One direction: its substream, and its entries of stream_setup[] and
      owner[].  orphan is a history variable: the substream was live when a
      start that failed after setting streaming cleared it. */
  datatype Sub = Sub(phase: Phase, op: Op, running: bool, rate: nat, period: nat,
                     setup: bool, owner: nat, orphan: bool)
  {
    // A START that has passed its test of streaming, or what it leads to.
    predicate Live() {
      running || (op.Start? && !op.at.StreamLocked?)
    }
  }

  datatype Prog =
    | HwParams(d: Dir, r: Rate, period: nat, urb: Frames, newRate: bool)
    | HwFree(d: Dir)
    | Prepare(d: Dir, late: bool)  // late: failed after streaming was set
    | StreamWork
    | Disconnect

  datatype Pc =
    | Entry
    | Clear | KillNext(k: nat) | KillWait(k: nat)  // babyface_stream_kill
    | StopNext(s: nat)                             // babyface_pcm_stop_both
    | SetInterface | WriteRate | ChooseGeometry | WriteFrames | WriteActive | Done
    | StartWrites | StartErr | StartInflight | StartLive | StartSubmit(k: nat) | StartArm
    | TestErr | ClearErr

  datatype Holder = Free | At(prog: Prog, pc: Pc)

  datatype Disc = Connected | Marked | Killed | Stopping(s: nat) | Disconnected

  datatype Work = NotRunning | Waiting | Inside

  // ---------------------------------------------------------------- state

  // rate, urb_frames and urbs_active
  datatype Geo = Geo(rate: nat, frames: nat, active: nat)

  // failedLate is a history variable: some start failed after setting streaming.
  datatype Flags = Flags(streaming: bool, shutdown: bool, disc: Disc, holder: Holder, failedLate: bool)

  /** What the control calls and the substreams use. */
  datatype Ctl = Ctl(geo: Geo, flags: Flags, sessionDir: Dir, users: int, subs: seq<Sub>)

  /** What the URB handlers use.  session, gone, bad, failed, lost and urbLen
      are history variables: the number of the session, whether one of its URBs
      came back killed or gone, how many came back bad, whether a resubmit
      failed, the OUT URBs taken off out_inflight, and the size of its URBs. */
  datatype Bus = Bus(
    urbs: seq<UrbState>, urbErr: nat, outInflight: nat, queued: bool, work: Work,
    session: nat, gone: bool, bad: nat, failed: bool, lost: set<nat>, urbLen: nat)

  datatype State = State(cfg: Config, ctl: Ctl, bus: Bus)

  const NEW_SUB := Sub(Closed, NoOp, false, 0, 0, false, 0, false)

  function Initial(cfg: Config): State {
    State(cfg,
          Ctl(Geo(48000, cfg.framesPerUrb, cfg.nurbs), Flags(false, false, Connected, Free, false), 0, 0,
              [NEW_SUB, NEW_SUB]),
          Bus(seq(2 * cfg.nurbs, i => Idle), 0, 0, false, NotRunning, 0, false, 0, false, {}, 0))
  }

  // -------------------------------------------------------------- actions

  /** What happens next, and how the environment decides what is left to it. */
  datatype Action =
    // the ALSA core, on one direction
    | Core(d: Dir, call: Call)
    // the holder of the mutex; ok: whether its USB transfer succeeds
    | StepHolder(ok: bool)
    // stream_work and disconnect outside the mutex
    | BeginWork
    | EnterWork
    | MarkShutdown
    | EnterDisconnect
    | CancelWork
    | StopDisconnect
    // the URBs; ok: whether the host controller accepts a resubmit
    | Complete(k: nat, status: Status)
    | StepHandler(k: nat, ok: bool)

  datatype Call =
    | OpenSub(pid: nat)
    | CloseSub
    | RejectParams(rate: nat, period: nat)
    | BeginParams(r: Rate, period: nat)
    | WriteRuntime
    | BeginFree
    | BeginPrepare
    | BeginStart
    | StepStart
    | Stop

  predicate KillingPc(pc: Pc) { pc.Clear? || pc.KillNext? || pc.KillWait? }

  // usb_kill_urb rejects a resubmit from when it starts until it returns.
  predicate Rejecting(h: Holder, k: nat) {
    h.At? && h.pc == KillWait(k)
  }

  predicate OtherHoldsClock(own: Sub, other: Sub) {
    other.setup && other.owner != own.owner
  }

  predicate TooShort(period: nat, frames: nat, active: nat) {
    period < SessionPeriod(frames, active)
  }

  predicate Shaped(s: State) {
    && s.cfg.Valid()
    && |s.ctl.subs| == 2
    && |s.bus.urbs| == 2 * s.cfg.nurbs
  }

  // ------------------------------------------------------ substream steps

  // What the ALSA core may do with a substream, and when the mutex is needed.
  predicate CallEnabled(cfg: Config, h: Holder, sub: Sub, call: Call) {
    match call
    case OpenSub(_) => sub.phase == Closed && sub.op == NoOp && h == Free
    case CloseSub => sub.phase == Open && sub.op == NoOp && h == Free
    case RejectParams(rate, period) =>
      && sub.phase in {Open, SetUp} && sub.op == NoOp && !sub.running
      && (RateOf(rate) == None || UrbFrames(cfg, RateOf(rate).value, period) == 0)
    case BeginParams(r, period) =>
      && sub.phase in {Open, SetUp} && sub.op == NoOp && !sub.running
      && r in RATES && UrbFrames(cfg, r, period) != 0 && h == Free
    case WriteRuntime => sub.op.Returned?
    case BeginFree => sub.phase != Closed && sub.op == NoOp && !sub.running && h == Free
    case BeginPrepare => sub.phase == SetUp && sub.op == NoOp && !sub.running && h == Free
    case BeginStart => sub.phase == SetUp && sub.op == NoOp && !sub.running
    case StepStart => sub.op.Start?
    case Stop => sub.running
  }

  function CallSub(g: Geo, streaming: bool, sub: Sub, call: Call): Sub {
    match call
    case OpenSub(pid) => sub.(phase := Open, owner := pid)
    case CloseSub => sub.(phase := Closed, owner := 0)
    case RejectParams(_, _) => sub.(phase := Failed)
    case BeginParams(_, _) => sub.(op := InParams)
    case WriteRuntime =>
      if sub.op.Returned? then sub.(phase := SetUp, op := NoOp, rate := sub.op.rate, period := sub.op.period)
      else sub
    case BeginFree => sub.(op := InFree)
    case BeginPrepare => sub.(op := InPrepare)
    case BeginStart => sub.(op := Start(StreamLocked), orphan := false)
    case StepStart => TriggerStart(g, streaming, sub)
    case Stop => sub.(running := false)
  }

  // The call takes the mutex.
  function CallHolder(cfg: Config, h: Holder, d: Dir, call: Call): Holder {
    match call
    case BeginParams(r, period) =>
      if r in RATES && UrbFrames(cfg, r, period) != 0
      then At(HwParams(d, r, period, UrbFrames(cfg, r, period), false), Entry) else h
    case BeginFree => At(HwFree(d), Entry)
    case BeginPrepare => At(Prepare(d, false), Entry)
    case _ => h
  }

  // trigger(START), under the stream lock of the substream.
  function TriggerStart(g: Geo, streaming: bool, sub: Sub): Sub {
    if !sub.op.Start? then sub else
    match sub.op.at
    case StreamLocked => if streaming then sub.(op := Start(SawStreaming)) else sub.(op := NoOp)
    case SawStreaming => if sub.rate == g.rate then sub.(op := Start(SawRate)) else sub.(op := NoOp)
    case SawRate => sub.(op := Start(SawFrames(g.frames)))
    case SawFrames(frames) => sub.(op := Start(SawGeometry(frames, g.active)))
    case SawGeometry(frames, active) =>
      if TooShort(sub.period, frames, active) then sub.(op := NoOp)
      else sub.(op := NoOp, running := true)
  }

  function WithSub(c: Ctl, d: Dir, sub: Sub): Ctl
    requires |c.subs| == 2
  {
    c.(subs := c.subs[d := sub])
  }

  function WithHolder(c: Ctl, h: Holder): Ctl {
    c.(flags := c.flags.(holder := h))
  }

  function Goto(c: Ctl, pc: Pc): Ctl
    requires c.flags.holder.At?
  {
    WithHolder(c, At(c.flags.holder.prog, pc))
  }

  // ------------------------------------------------- steps under the mutex

  predicate HolderEnabled(c: Ctl, b: Bus)
    requires |c.subs| == 2
  {
    && c.flags.holder.At?
    && (c.flags.holder.pc.KillWait? ==>
          c.flags.holder.pc.k < |b.urbs| && b.urbs[c.flags.holder.pc.k] == Idle)
    && (c.flags.holder.pc.StopNext? && c.flags.holder.pc.s < 2 ==> !c.subs[c.flags.holder.pc.s].op.Start?)
  }

  // The call returns: its substream is back with the ALSA core.
  function Return(c: Ctl, d: Dir, op: Op): Ctl
    requires |c.subs| == 2
  {
    WithSub(WithHolder(c, Free), d, c.subs[d].(op := op))
  }

  function FailParams(c: Ctl, d: Dir): Ctl
    requires |c.subs| == 2
  {
    WithSub(WithHolder(c, Free), d, c.subs[d].(phase := Failed, op := NoOp))
  }

  function ReturnFree(c: Ctl, d: Dir, users: int, setup: bool): Ctl
    requires |c.subs| == 2
  {
    WithSub(WithHolder(c, Free), d, c.subs[d].(phase := Open, op := NoOp, setup := setup)).(users := users)
  }

  function MarkOrphan(sub: Sub): Sub {
    sub.(orphan := sub.orphan || sub.Live())
  }

  // streaming is cleared: no START passes from here on.  A start that fails
  // late stops no substream, so whatever is live by then is left on its own.
  function Ended(c: Ctl): Ctl
    requires c.flags.holder.At? && |c.subs| == 2
  {
    var c' := c.(flags := c.flags.(streaming := false));
    if c.flags.holder.prog.Prepare? && c.flags.holder.prog.late
    then c'.(subs := [MarkOrphan(c.subs[0]), MarkOrphan(c.subs[1])]) else c'
  }

  // After the kill: on to pcm_stop_both, or let go of the mutex.
  function AfterKill(c: Ctl): Ctl
    requires c.flags.holder.At? && |c.subs| == 2
  {
    match c.flags.holder.prog
    case HwParams(_, _, _, _, _) => Goto(c, StopNext(0))
    case StreamWork => Goto(c, StopNext(0))
    case HwFree(d) => ReturnFree(c, d, c.users, c.subs[d].setup)
    case Prepare(d, _) => Return(c, d, NoOp)
    case Disconnect => c.(flags := c.flags.(holder := Free, disc := Killed))
  }

  function AfterStop(c: Ctl): Ctl
    requires c.flags.holder.At?
  {
    match c.flags.holder.prog
    case HwParams(_, r, _, _, _) => if r.rate != c.geo.rate then Goto(c, SetInterface) else Goto(c, WriteFrames)
    case _ => Goto(c, ClearErr)
  }

  // One step of babyface_stream_kill or babyface_pcm_stop_both.
  function StepKillOrStop(c: Ctl, nurbs: nat): Ctl
    requires |c.subs| == 2 && c.flags.holder.At?
    requires KillingPc(c.flags.holder.pc) || c.flags.holder.pc.StopNext?
  {
    match c.flags.holder.pc
    case Clear => Goto(Ended(c), KillNext(0))
    case KillNext(k) => if k < nurbs then Goto(c, KillWait(k)) else AfterKill(c)
    case KillWait(k) => Goto(c, KillNext(k + 1))
    case StopNext(s) =>
      if s < 2 then WithSub(Goto(c, StopNext(s + 1)), s, c.subs[s].(running := false)) else AfterStop(c)
  }

  predicate Rechooses(c: Ctl, d: Dir, period: nat, newRate: bool)
    requires |c.subs| == 2
  {
    newRate || !c.subs[Other(d)].setup || c.sessionDir == d || TooShort(period, c.geo.frames, c.geo.active)
  }

  function StepParams(cfg: Config, c: Ctl, ok: bool): Ctl
    requires |c.subs| == 2
    requires c.flags.holder.At? && c.flags.holder.prog.HwParams?
  {
    var HwParams(d, r, period, urb, newRate) := c.flags.holder.prog;
    var held := OtherHoldsClock(c.subs[d], c.subs[Other(d)]);
    match c.flags.holder.pc
    case Entry =>
      if c.flags.shutdown then FailParams(c, d)
      else if r.rate == c.geo.rate then Goto(c, ChooseGeometry)
      else if held then FailParams(c, d)
      else if c.flags.streaming then Goto(c, Clear)
      else Goto(c, SetInterface)
    case SetInterface => if ok then Goto(c, WriteRate) else FailParams(c, d)
    case WriteRate =>
      WithHolder(c.(geo := c.geo.(rate := r.rate)), At(HwParams(d, r, period, urb, true), ChooseGeometry))
    case ChooseGeometry =>
      if held then
        if TooShort(period, c.geo.frames, c.geo.active) then FailParams(c, d) else Goto(c, Done)
      else if !Rechooses(c, d, period, newRate) then Goto(c, Done)
      else if urb == c.geo.frames && UrbCount(cfg, r, period, urb) == c.geo.active then
        Goto(c.(sessionDir := d), Done)
      else if c.flags.streaming then Goto(c, Clear)
      else Goto(c, WriteFrames)
    case WriteFrames => Goto(c.(geo := c.geo.(frames := urb)), WriteActive)
    case WriteActive =>
      Goto(c.(geo := c.geo.(active := UrbCount(cfg, r, period, urb)), sessionDir := d), Done)
    case _ =>
      var sub := c.subs[d];
      WithSub(WithHolder(c.(users := if sub.setup then c.users else c.users + 1), Free),
              d, sub.(setup := true, op := Returned(r.rate, period)))
  }

  function StepFree(c: Ctl): Ctl
    requires |c.subs| == 2
    requires c.flags.holder.At? && c.flags.holder.prog.HwFree?
  {
    var d := c.flags.holder.prog.d;
    var sub := c.subs[d];
    if !sub.setup then ReturnFree(c, d, c.users, false)
    else if c.users - 1 == 0 && c.flags.streaming then
      Goto(WithSub(c.(users := c.users - 1), d, sub.(setup := false)), Clear)
    else ReturnFree(c, d, c.users - 1, false)
  }

  function FailLate(c: Ctl, d: Dir): Ctl {
    c.(flags := c.flags.(holder := At(Prepare(d, true), Clear), failedLate := true))
  }

  function StepPrepare(c: Ctl, ok: bool): Ctl
    requires |c.subs| == 2
    requires c.flags.holder.At? && c.flags.holder.prog.Prepare?
  {
    var d := c.flags.holder.prog.d;
    match c.flags.holder.pc
    case Entry =>
      if c.flags.shutdown || c.subs[d].rate != c.geo.rate || TooShort(c.subs[d].period, c.geo.frames, c.geo.active) ||
         c.flags.streaming then Return(c, d, NoOp)
      else Goto(c, StartWrites)
    case StartWrites => if ok then Goto(c, StartErr) else Goto(c, Clear)
    case StartErr => Goto(c, StartInflight)
    case StartInflight => Goto(c, StartLive)
    case StartLive => Goto(c.(flags := c.flags.(streaming := true)), StartSubmit(0))
    case StartSubmit(k) =>
      if k >= 2 * c.geo.active then Goto(c, StartArm)
      else if ok then Goto(c, StartSubmit(k + 1))
      else FailLate(c, d)
    case _ => if ok then Return(c, d, NoOp) else FailLate(c, d)
  }

  // stream_work returns with this step.
  predicate EndsWork(f: Flags, urbErr: nat)
    requires f.holder.At?
  {
    && f.holder.prog.StreamWork?
    && ( || (f.holder.pc.Entry? && f.shutdown)
         || (f.holder.pc.TestErr? && urbErr < URB_ERR_STOP)
         || f.holder.pc.ClearErr?)
  }

  function StepWork(c: Ctl, urbErr: nat): Ctl
    requires c.flags.holder.At? && c.flags.holder.prog.StreamWork?
  {
    if EndsWork(c.flags, urbErr) then WithHolder(c, Free)
    else if c.flags.holder.pc.Entry? then Goto(c, TestErr)
    else if c.flags.streaming then Goto(c, Clear)
    else Goto(c, StopNext(0))
  }

  function StepDisconnect(c: Ctl): Ctl
    requires c.flags.holder.At?
  {
    if c.flags.streaming then Goto(c, Clear)
    else c.(flags := c.flags.(holder := Free, disc := Killed))
  }

  function StepMutex(cfg: Config, c: Ctl, b: Bus, ok: bool): Ctl
    requires |c.subs| == 2
    requires HolderEnabled(c, b)
  {
    if KillingPc(c.flags.holder.pc) || c.flags.holder.pc.StopNext? then StepKillOrStop(c, |b.urbs|)
    else
      match c.flags.holder.prog
      case HwParams(_, _, _, _, _) => StepParams(cfg, c, ok)
      case HwFree(_) => StepFree(c)
      case Prepare(_, _) => StepPrepare(c, ok)
      case StreamWork => StepWork(c, b.urbErr)
      case Disconnect => StepDisconnect(c)
  }

  // What the same step does to the URBs and the counters.
  function StepMutexBus(c: Ctl, b: Bus, ok: bool): Bus
    requires c.flags.holder.At?
  {
    match c.flags.holder.pc
    case StartErr =>
      b.(urbErr := 0, session := b.session + 1, gone := false, bad := 0, failed := false, lost := {},
         urbLen := c.geo.frames)
    case StartInflight => b.(outInflight := c.geo.active)
    case StartSubmit(k) =>
      if k < 2 * c.geo.active && k < |b.urbs| && ok
      then b.(urbs := b.urbs[k := InFlight(b.session)]) else b
    case ClearErr => b.(urbErr := 0, work := NotRunning)
    case _ => if EndsWork(c.flags, b.urbErr) then b.(work := NotRunning) else b
  }

  // ----------------------------------------------------------- bus steps

  function CompleteUrb(b: Bus, k: nat, status: Status): Bus
    requires k < |b.urbs| && b.urbs[k].InFlight?
  {
    b.(urbs := b.urbs[k := Handler(b.urbs[k].session, Completed(status))], gone := b.gone || status == Gone)
  }

  // One step of babyface_complete_in or babyface_complete_out: where the URB
  // is after it ...
  function UrbAfter(f: Flags, b: Bus, k: nat, ok: bool): UrbState
    requires k < |b.urbs| && b.urbs[k].Handler?
  {
    var u := b.urbs[k];
    match u.at
    case Completed(Gone) => Idle
    case Completed(Bad) => u.(at := if b.urbErr + 1 < URB_ERR_STOP then Test else ErrQueue)
    case Completed(Good) => u.(at := OkLoop(b.urbErr))
    case OkLoop(err) =>
      if err == 0 || err >= URB_ERR_STOP || b.urbErr == err then u.(at := Deliver)
      else u.(at := OkLoop(b.urbErr))
    case Deliver => u.(at := Test)
    case ErrQueue => if IsOut(k) then u.(at := ErrLost) else Idle
    case ErrLost => Idle
    case Test => if f.streaming then u.(at := Submit) else Idle
    case Submit =>
      if ok && !Rejecting(f.holder, k) then InFlight(u.session)
      else u.(at := if IsOut(k) then FailLost else FailSet)
    case FailLost => u.(at := FailSet)
    case FailSet => u.(at := FailQueue)
    case FailQueue => Idle
  }

  // ... and what it does to the counters.
  function CountersAfter(b: Bus, k: nat): Bus
    requires k < |b.urbs| && b.urbs[k].Handler?
  {
    var current := b.urbs[k].session == b.session;
    match b.urbs[k].at
    case Completed(Bad) => b.(urbErr := b.urbErr + 1, bad := if current then b.bad + 1 else b.bad)
    case OkLoop(err) => if 0 < err < URB_ERR_STOP && b.urbErr == err then b.(urbErr := 0) else b
    case ErrQueue => b.(queued := true)
    case FailQueue => b.(queued := true)
    case ErrLost => LoseOut(b, k)
    case FailLost => LoseOut(b, k)
    case FailSet => b.(urbErr := URB_ERR_STOP, failed := b.failed || current)
    case _ => b
  }

  // bf_out_lost
  function LoseOut(b: Bus, k: nat): Bus {
    b.(outInflight := if b.outInflight > 0 then b.outInflight - 1 else 0, lost := b.lost + {k})
  }

  function StepUrb(f: Flags, b: Bus, k: nat, ok: bool): Bus
    requires k < |b.urbs| && b.urbs[k].Handler?
  {
    CountersAfter(b, k).(urbs := b.urbs[k := UrbAfter(f, b, k, ok)])
  }

  // ----------------------------------------------------------------- runs

  predicate Enabled(s: State, a: Action)
    requires Shaped(s)
  {
    match a
    case Core(d, call) => CallEnabled(s.cfg, s.ctl.flags.holder, s.ctl.subs[d], call)
    case StepHolder(_) => HolderEnabled(s.ctl, s.bus)
    case BeginWork => s.bus.queued && s.bus.work == NotRunning
    case EnterWork => s.bus.work == Waiting && s.ctl.flags.holder == Free
    case MarkShutdown => s.ctl.flags.disc == Connected
    case EnterDisconnect => s.ctl.flags.disc == Marked && s.ctl.flags.holder == Free
    case CancelWork => s.ctl.flags.disc == Killed && s.bus.work == NotRunning
    case StopDisconnect =>
      && s.ctl.flags.disc.Stopping?
      && (s.ctl.flags.disc.s < 2 ==> !s.ctl.subs[s.ctl.flags.disc.s].op.Start?)
    case Complete(k, _) => k < |s.bus.urbs| && s.bus.urbs[k].InFlight?
    case StepHandler(k, _) => k < |s.bus.urbs| && s.bus.urbs[k].Handler?
  }

  function NextCtl(s: State, a: Action): Ctl
    requires Shaped(s) && Enabled(s, a)
  {
    var c := s.ctl;
    match a
    case Core(d, call) =>
      WithSub(WithHolder(c, CallHolder(s.cfg, c.flags.holder, d, call)),
              d, CallSub(c.geo, c.flags.streaming, c.subs[d], call))
    case StepHolder(ok) => StepMutex(s.cfg, c, s.bus, ok)
    case EnterWork => WithHolder(c, At(StreamWork, Entry))
    case MarkShutdown => c.(flags := c.flags.(shutdown := true, disc := Marked))
    case EnterDisconnect => WithHolder(c, At(Disconnect, Entry))
    case CancelWork => c.(flags := c.flags.(disc := Stopping(0)))
    case StopDisconnect =>
      var s := c.flags.disc.s;
      if s < 2 then WithSub(c.(flags := c.flags.(disc := Stopping(s + 1))), s, c.subs[s].(running := false))
      else c.(flags := c.flags.(disc := Disconnected))
    case _ => c
  }

  function NextBus(s: State, a: Action): Bus
    requires Shaped(s) && Enabled(s, a)
  {
    var b := s.bus;
    match a
    case StepHolder(ok) => StepMutexBus(s.ctl, b, ok)
    case BeginWork => b.(queued := false, work := Waiting)
    case EnterWork => b.(work := Inside)
    case CancelWork => b.(queued := false)
    case Complete(k, status) => CompleteUrb(b, k, status)
    case StepHandler(k, ok) => StepUrb(s.ctl.flags, b, k, ok)
    case _ => b
  }

  function Next(s: State, a: Action): State
    requires Shaped(s) && Enabled(s, a)
  {
    State(s.cfg, NextCtl(s, a), NextBus(s, a))
  }
}
