/** The steps of hw_params, hw_free and prepare add up to the calls of module
    PcmSetup: however the completions of the URBs come between them, the call
    that took the mutex leaves what the function of the whole call says. */
module SessionCalls {
  import opened Wrappers
  import opened Geometry
  import opened Session
  import opened SessionControl
  import opened SessionGeometry
  import opened SessionUrbs
  import opened SessionRuns
  import opened SessionGuarantees
  import P = PcmSetup

  // The fields that the calls share, in a state of the step system.
  function View(c: Ctl): (f: P.Fields)
    requires |c.subs| == 2
    ensures f.Shaped()
  {
    var (x, y) := (c.subs[0], c.subs[1]);
    P.Fields(c.geo.rate, c.geo.frames, c.geo.active, c.users, c.flags.streaming, c.flags.shutdown, c.sessionDir,
             [x.setup, y.setup], [x.owner, y.owner], [x.rate, y.rate], [x.period, y.period], [x.running, y.running])
  }

  // What happens while a call holds the mutex: its own steps, and the URBs'.
  predicate Inside(a: Action) {
    a.StepHolder? || a.Complete? || a.StepHandler? || a.BeginWork?
  }

  predicate AllInside(acts: seq<Action>) {
    forall i :: 0 <= i < |acts| ==> Inside(acts[i])
  }

  // ------------------------------------------------------------- hw_params

  predicate ParamsAt(c: Ctl) {
    && |c.subs| == 2
    && c.flags.holder.At? && c.flags.holder.prog.HwParams?
    && PcOfProg(c.flags.holder.prog, c.flags.holder.pc)
  }

  function RequestAt(cfg: Config, prog: Prog): P.Request
    requires prog.HwParams?
  {
    P.Request(prog.r.rate, prog.period, prog.urb, UrbCount(cfg, prog.r, prog.period, prog.urb))
  }

  // What is left of the call, from the writes of the geometry on, ...
  function Writes(f: P.Fields, d: Dir, q: P.Request): (P.Fields, int)
    requires f.Shaped()
  {
    (P.Counted(f.(urbFrames := q.urb, urbsActive := q.n, sessionDir := d), d), 0)
  }

  // ... from the test of the period on, ...
  function Tests(f: P.Fields, d: Dir, q: P.Request, newRate: bool): (P.Fields, int)
    requires f.Shaped()
  {
    if f.Held(d) then
      if f.TooShort(q.period) then (f, P.EBUSY) else (P.Counted(f, d), 0)
    else if newRate || P.Chooses(f, d, q) then
      if q.urb == f.urbFrames && q.n == f.urbsActive then (P.Counted(f.(sessionDir := d), d), 0)
      else Writes(P.Stopped(f), d, q)
    else (P.Counted(f, d), 0)
  }

  // ... from usb_set_interface on, ...
  function Retunes(f: P.Fields, d: Dir, q: P.Request, ok: bool): (P.Fields, int)
    requires f.Shaped()
  {
    if ok then Tests(f.(rate := q.rate), d, q, true) else (f, P.EIO)
  }

  // ... and from each point of the program on.
  function Rest(cfg: Config, c: Ctl, ok: bool): (P.Fields, int)
    requires ParamsAt(c)
  {
    var prog, f := c.flags.holder.prog, View(c);
    var d, q := prog.d, RequestAt(cfg, prog);
    match c.flags.holder.pc
    case Entry => P.ParamsCall(f, d, q, ok)
    case SetInterface => Retunes(f, d, q, ok)
    case WriteRate => Retunes(f, d, q, true)
    case ChooseGeometry => Tests(f, d, q, prog.newRate)
    case WriteFrames => Writes(f, d, q)
    case WriteActive => Writes(f, d, q)
    case Done => (P.Counted(f, d), 0)
    case _ =>
      var g := StoppedView(c);
      if q.rate != g.rate then Retunes(g, d, q, ok) else Writes(g, d, q)
  }

  // The substreams that pcm_stop_both is past.
  predicate StoppedSoFar(c: Ctl)
    requires ParamsAt(c)
  {
    c.flags.holder.pc.StopNext? ==>
      (c.flags.holder.pc.s > 0 ==> !c.subs[0].running) && (c.flags.holder.pc.s > 1 ==> !c.subs[1].running)
  }

  // The call has returned with this result.
  predicate Returns(c: Ctl, d: Dir, q: P.Request, result: (P.Fields, int)) {
    && |c.subs| == 2
    && c.flags.holder == Free && View(c) == result.0
    && c.subs[d].op == (if result.1 == 0 then Returned(q.rate, q.period) else NoOp)
    && (result.1 != 0 ==> c.subs[d].phase == Failed)
  }

  // The call has returned as c's rest says, or is on the same way.
  predicate Follows(cfg: Config, c: Ctl, ok: bool, c': Ctl)
    requires ParamsAt(c)
  {
    var prog := c.flags.holder.prog;
    if c'.flags.holder == Free then Returns(c', prog.d, RequestAt(cfg, prog), Rest(cfg, c, ok))
    else
      && ParamsAt(c')
      && StoppedSoFar(c')
      && c'.flags.holder.prog == prog.(newRate := c'.flags.holder.prog.newRate)
      && forall o :: Rest(cfg, c', o) == Rest(cfg, c, if c.flags.holder.pc.SetInterface? then ok else o)
  }

  // What GeoInv and CtlInv know of the call at its points.
  predicate Ready(c: Ctl)
    requires ParamsAt(c)
  {
    var prog, pc := c.flags.holder.prog, c.flags.holder.pc;
    var held := OtherHoldsClock(c.subs[prog.d], c.subs[Other(prog.d)]);
    && (Quiet(prog, pc) ==> !c.flags.streaming)
    && (pc.SetInterface? || pc.WriteRate? || prog.newRate ==> !held)
    && (pc.Entry? ==> !prog.newRate)
    && (pc.WriteActive? ==> c.geo.frames == prog.urb)
    && (pc.ChooseGeometry? ==> prog.r.rate == c.geo.rate)
  }

  lemma InvReady(s: State)
    requires Inv(s) && s.ctl.flags.holder.At? && s.ctl.flags.holder.prog.HwParams?
    ensures ParamsAt(s.ctl) && Ready(s.ctl)
  {
    hide BusInv, DirOk, ChooserFits, WholePackets, TooShort;
  }

  // The call fails: the fields stay.
  lemma FailedView(c: Ctl, d: Dir)
    requires |c.subs| == 2
    ensures View(FailParams(c, d)) == View(c)
  {
    if d == 0 {} else {}
  }

  lemma GotoView(c: Ctl, pc: Pc)
    requires |c.subs| == 2 && c.flags.holder.At?
    ensures View(Goto(c, pc)) == View(c)
  {
  }

  lemma NewDirView(c: Ctl, d: Dir)
    requires |c.subs| == 2
    ensures View(c.(sessionDir := d)) == View(c).(sessionDir := d)
  {
  }

  // What the tests of the call read.
  lemma ViewFacts(c: Ctl, d: Dir)
    requires |c.subs| == 2
    ensures var f := View(c);
            && f.rate == c.geo.rate && f.urbFrames == c.geo.frames && f.urbsActive == c.geo.active
            && f.streaming == c.flags.streaming && f.shutdown == c.flags.shutdown && f.sessionDir == c.sessionDir
            && f.Held(d) == OtherHoldsClock(c.subs[d], c.subs[Other(d)])
            && f.setup[1 - d] == c.subs[Other(d)].setup
  {
  }

  // The fields once the session is stopped.
  function StoppedView(c: Ctl): (f: P.Fields)
    requires |c.subs| == 2
    ensures f.Shaped()
  {
    View(c).(streaming := false, running := [false, false])
  }

  lemma StoppedViewStays(c: Ctl, pc: Pc, s: Dir)
    requires |c.subs| == 2 && c.flags.holder.At?
    ensures StoppedView(Goto(c, pc)) == StoppedView(c)
    ensures StoppedView(Goto(c.(flags := c.flags.(streaming := false)), pc)) == StoppedView(c)
    ensures StoppedView(WithSub(Goto(c, pc), s, c.subs[s].(running := false))) == StoppedView(c)
    ensures !c.flags.streaming && !c.subs[0].running && !c.subs[1].running ==> StoppedView(c) == View(c)
  {
    if s == 0 {} else {}
  }

  lemma KillStep(cfg: Config, c: Ctl, nurbs: nat, ok: bool)
    requires ParamsAt(c) && Ready(c) && KillingPc(c.flags.holder.pc)
    ensures Follows(cfg, c, ok, StepKillOrStop(c, nurbs))
  {
    hide UrbCount, Retunes, Writes, Tests, P.Counted, P.ParamsCall, View;
    match c.flags.holder.pc
    case Clear => StoppedViewStays(c, KillNext(0), 0);
    case KillNext(k) =>
      StoppedViewStays(c, KillWait(k), 0);
      StoppedViewStays(c, StopNext(0), 0);
    case KillWait(k) => StoppedViewStays(c, KillNext(k + 1), 0);
  }

  lemma StopStep(cfg: Config, c: Ctl, nurbs: nat, ok: bool)
    requires ParamsAt(c) && Ready(c) && StoppedSoFar(c) && c.flags.holder.pc.StopNext?
    ensures Follows(cfg, c, ok, StepKillOrStop(c, nurbs))
  {
    hide UrbCount, Retunes, Writes, Tests, P.Counted, P.ParamsCall, View;
    var s := c.flags.holder.pc.s;
    ViewFacts(c, 0);
    if s < 2 {
      StoppedViewStays(c, StopNext(s + 1), s);
    } else {
      StoppedViewStays(c, SetInterface, 0);
      GotoView(c, SetInterface);
      GotoView(c, WriteFrames);
    }
  }

  lemma EntryStep(cfg: Config, c: Ctl, ok: bool)
    requires ParamsAt(c) && Ready(c) && c.flags.holder.pc.Entry?
    ensures Follows(cfg, c, ok, StepParams(cfg, c, ok))
  {
    hide UrbCount, SessionPeriod, P.Counted, View, OtherHoldsClock;
    FailedView(c, c.flags.holder.prog.d);
    ViewFacts(c, c.flags.holder.prog.d);
    GotoView(c, Clear);
    GotoView(c, SetInterface);
    GotoView(c, ChooseGeometry);
  }

  lemma ChooseStep(cfg: Config, c: Ctl, ok: bool)
    requires ParamsAt(c) && Ready(c) && c.flags.holder.pc.ChooseGeometry?
    ensures Follows(cfg, c, ok, StepParams(cfg, c, ok))
  {
    hide UrbCount, SessionPeriod, P.Counted, P.ParamsCall, View, OtherHoldsClock;
    var d := c.flags.holder.prog.d;
    FailedView(c, d);
    ViewFacts(c, d);
    GotoView(c, Clear);
    GotoView(c, WriteFrames);
    GotoView(c, Done);
    GotoView(c.(sessionDir := d), Done);
    NewDirView(c, d);
  }

  lemma CountedView(c: Ctl, d: Dir, op: Op)
    requires |c.subs| == 2
    ensures var c' := WithHolder(c.(users := if c.subs[d].setup then c.users else c.users + 1), Free);
            View(WithSub(c', d, c.subs[d].(setup := true, op := op))) == P.Counted(View(c), d)
  {
    if d == 0 {} else {}
  }

  lemma DoneStep(cfg: Config, c: Ctl, ok: bool)
    requires ParamsAt(c) && Ready(c) && c.flags.holder.pc.Done?
    ensures Follows(cfg, c, ok, StepParams(cfg, c, ok))
  {
    hide UrbCount, SessionPeriod, P.ParamsCall, P.Counted, View;
    CountedView(c, c.flags.holder.prog.d, Returned(c.flags.holder.prog.r.rate, c.flags.holder.prog.period));
  }

  lemma SetInterfaceStep(cfg: Config, c: Ctl, ok: bool)
    requires ParamsAt(c) && Ready(c) && c.flags.holder.pc.SetInterface?
    ensures Follows(cfg, c, ok, StepParams(cfg, c, ok))
  {
    hide UrbCount, SessionPeriod, P.Counted, P.ParamsCall, Tests, View;
    FailedView(c, c.flags.holder.prog.d);
    GotoView(c, WriteRate);
  }

  lemma WriteRateStep(cfg: Config, c: Ctl, ok: bool)
    requires ParamsAt(c) && Ready(c) && c.flags.holder.pc.WriteRate?
    ensures Follows(cfg, c, ok, StepParams(cfg, c, ok))
  {
    hide UrbCount, SessionPeriod, P.ParamsCall, Tests;
  }

  lemma WriteStep(cfg: Config, c: Ctl, ok: bool)
    requires ParamsAt(c) && Ready(c)
    requires c.flags.holder.pc.WriteFrames? || c.flags.holder.pc.WriteActive?
    ensures Follows(cfg, c, ok, StepParams(cfg, c, ok))
  {
    hide UrbCount, SessionPeriod, P.Counted, P.ParamsCall;
  }

  lemma ParamsStep(cfg: Config, c: Ctl, b: Bus, ok: bool)
    requires ParamsAt(c) && Ready(c) && StoppedSoFar(c) && HolderEnabled(c, b)
    ensures Follows(cfg, c, ok, StepMutex(cfg, c, b, ok))
  {
    hide Ready, StoppedSoFar, HolderEnabled, Follows, StepMutex;
    StepOf(cfg, c, b, ok);
    match c.flags.holder.pc
    case Entry => EntryStep(cfg, c, ok);
    case SetInterface => SetInterfaceStep(cfg, c, ok);
    case WriteRate => WriteRateStep(cfg, c, ok);
    case ChooseGeometry => ChooseStep(cfg, c, ok);
    case WriteFrames => WriteStep(cfg, c, ok);
    case WriteActive => WriteStep(cfg, c, ok);
    case Done => DoneStep(cfg, c, ok);
    case StopNext(_) => StopStep(cfg, c, |b.urbs|, ok);
    case _ => KillStep(cfg, c, |b.urbs|, ok);
  }

  // --------------------------------------------------- hw_free and prepare

  predicate FreeAt(c: Ctl) {
    && |c.subs| == 2 && c.flags.holder.At? && c.flags.holder.prog.HwFree?
    && PcOfProg(c.flags.holder.prog, c.flags.holder.pc)
  }

  predicate PrepareAt(c: Ctl) {
    && |c.subs| == 2 && c.flags.holder.At? && c.flags.holder.prog.Prepare?
    && PcOfProg(c.flags.holder.prog, c.flags.holder.pc)
  }

  function FreeRest(c: Ctl): P.Fields
    requires FreeAt(c)
  {
    if c.flags.holder.pc.Entry? then P.FreeCall(View(c), c.flags.holder.prog.d) else View(c).(streaming := false)
  }

  // A start is under way: it brings the session up, or takes it down again.
  function PrepareRest(c: Ctl, ok: bool): P.Fields
    requires PrepareAt(c)
  {
    if c.flags.holder.pc.Entry? then P.PrepareCall(View(c), c.flags.holder.prog.d, ok).0
    else View(c).(streaming := ok && !KillingPc(c.flags.holder.pc))
  }

  lemma ReturnView(c: Ctl, d: Dir)
    requires |c.subs| == 2
    ensures View(Return(c, d, NoOp)) == View(c)
  {
    if d == 0 {} else {}
  }

  lemma FreedView(c: Ctl, d: Dir, users: int, setup: bool)
    requires |c.subs| == 2
    ensures View(ReturnFree(c, d, users, setup)) == View(c).(users := users, setup := View(c).setup[d := setup])
    ensures c.flags.holder.At? ==>
              View(Goto(WithSub(c.(users := users), d, c.subs[d].(setup := setup)), Clear))
              == View(c).(users := users, setup := View(c).setup[d := setup])
    ensures setup == c.subs[d].setup ==> View(c).setup[d := setup] == View(c).setup
    ensures View(c).setup[d] == c.subs[d].setup && View(c).users == c.users && View(c).streaming == c.flags.streaming
  {
    if d == 0 {} else {}
  }

  // hw_free returned, and left these fields.
  predicate Frees(c: Ctl, d: Dir, f: P.Fields) {
    |c.subs| == 2 && c.flags.holder == Free && View(c) == f && c.subs[d].phase == Open && c.subs[d].op == NoOp
  }

  predicate FollowsFree(c: Ctl, c': Ctl)
    requires FreeAt(c)
  {
    if c'.flags.holder == Free then Frees(c', c.flags.holder.prog.d, FreeRest(c))
    else FreeAt(c') && c'.flags.holder.prog == c.flags.holder.prog && FreeRest(c') == FreeRest(c)
  }

  lemma FreeEntryStep(c: Ctl)
    requires FreeAt(c) && c.flags.holder.pc.Entry?
    ensures FollowsFree(c, StepFree(c))
  {
    hide View;
    FreedView(c, c.flags.holder.prog.d, c.users, false);
    FreedView(c, c.flags.holder.prog.d, c.users - 1, false);
  }

  lemma FreeKillStep(c: Ctl, nurbs: nat)
    requires FreeAt(c) && KillingPc(c.flags.holder.pc)
    requires c.flags.holder.pc.KillNext? || c.flags.holder.pc.KillWait? ==> !c.flags.streaming
    ensures FollowsFree(c, StepKillOrStop(c, nurbs))
  {
    hide View, P.FreeCall;
    var d, pc := c.flags.holder.prog.d, c.flags.holder.pc;
    match pc
    case Clear => DownView(c, KillNext(0));
    case KillNext(k) =>
      GotoView(c, KillWait(k));
      FreedView(c, d, c.users, c.subs[d].setup);
    case KillWait(k) => GotoView(c, KillNext(k + 1));
  }

  lemma DownView(c: Ctl, pc: Pc)
    requires |c.subs| == 2 && c.flags.holder.At?
    ensures View(Goto(c.(flags := c.flags.(streaming := false)), pc)) == View(c).(streaming := false)
    ensures View(Goto(c.(flags := c.flags.(streaming := true)), pc)) == View(c).(streaming := true)
    ensures View(Goto(Ended(c), pc)) == View(c).(streaming := false)
    ensures View(c).streaming == c.flags.streaming
  {
  }

  // prepare returned, and left these fields.
  predicate Prepares(c: Ctl, d: Dir, f: P.Fields) {
    |c.subs| == 2 && c.flags.holder == Free && View(c) == f && c.subs[d].op == NoOp
  }

  predicate FollowsPrepare(c: Ctl, c': Ctl)
    requires PrepareAt(c)
  {
    var d := c.flags.holder.prog.d;
    if c'.flags.holder == Free then
      Prepares(c', d, PrepareRest(c, true)) || Prepares(c', d, PrepareRest(c, false))
    else
      && PrepareAt(c') && c'.flags.holder.prog.d == d
      && (PrepareRest(c', true) == PrepareRest(c, true) || PrepareRest(c', true) == PrepareRest(c, false))
      && (PrepareRest(c', false) == PrepareRest(c, false))
  }

  lemma PrepareKillStep(c: Ctl, nurbs: nat)
    requires PrepareAt(c) && KillingPc(c.flags.holder.pc)
    requires c.flags.holder.pc.KillNext? || c.flags.holder.pc.KillWait? ==> !c.flags.streaming
    ensures FollowsPrepare(c, StepKillOrStop(c, nurbs))
  {
    hide View, P.PrepareCall;
    ReturnView(c, c.flags.holder.prog.d);
    match c.flags.holder.pc
    case Clear => DownView(c, KillNext(0));
    case KillNext(k) =>
      DownView(c, KillNext(0));
      GotoView(c, KillWait(k));
    case KillWait(k) => GotoView(c, KillNext(k + 1));
  }

  lemma PrepareEntryStep(c: Ctl, ok: bool)
    requires PrepareAt(c) && c.flags.holder.pc.Entry?
    ensures FollowsPrepare(c, StepPrepare(c, ok))
  {
    hide SessionPeriod;
    ReturnView(c, c.flags.holder.prog.d);
    GotoView(c, StartWrites);
  }

  lemma StartStep(c: Ctl, ok: bool)
    requires PrepareAt(c) && !c.flags.streaming
    requires c.flags.holder.pc in {StartWrites, StartErr, StartInflight, StartLive}
    ensures FollowsPrepare(c, StepPrepare(c, ok))
  {
    hide View, P.PrepareCall;
    DownView(c, StartSubmit(0));
    GotoView(c, StartErr);
    GotoView(c, Clear);
    GotoView(c, StartInflight);
    GotoView(c, StartLive);
  }

  lemma SubmitStep(c: Ctl, ok: bool)
    requires PrepareAt(c) && c.flags.streaming
    requires c.flags.holder.pc.StartSubmit? || c.flags.holder.pc.StartArm?
    ensures FollowsPrepare(c, StepPrepare(c, ok))
  {
    hide View, P.PrepareCall;
    var d, pc := c.flags.holder.prog.d, c.flags.holder.pc;
    DownView(c, StartArm);
    ReturnView(c, d);
    LateView(c, d);
    GotoView(c, StartArm);
    if pc.StartSubmit? {
      GotoView(c, StartSubmit(pc.k + 1));
    }
  }

  lemma LateView(c: Ctl, d: Dir)
    requires |c.subs| == 2
    ensures View(FailLate(c, d)) == View(c)
  {
  }

  lemma FreeStep(cfg: Config, c: Ctl, b: Bus, ok: bool)
    requires FreeAt(c) && HolderEnabled(c, b)
    requires c.flags.holder.pc.KillNext? || c.flags.holder.pc.KillWait? ==> !c.flags.streaming
    ensures FollowsFree(c, StepMutex(cfg, c, b, ok))
  {
    hide FollowsFree, StepMutex;
    StepOf(cfg, c, b, ok);
    if c.flags.holder.pc.Entry? {
      FreeEntryStep(c);
    } else {
      FreeKillStep(c, |b.urbs|);
    }
  }

  lemma PrepareStep(cfg: Config, c: Ctl, b: Bus, ok: bool)
    requires PrepareAt(c) && HolderEnabled(c, b)
    requires Quiet(c.flags.holder.prog, c.flags.holder.pc) ==> !c.flags.streaming
    requires c.flags.holder.pc.StartSubmit? || c.flags.holder.pc.StartArm? ==> c.flags.streaming
    ensures FollowsPrepare(c, StepMutex(cfg, c, b, ok))
  {
    hide FollowsPrepare, StepMutex;
    StepOf(cfg, c, b, ok);
    if KillingPc(c.flags.holder.pc) {
      PrepareKillStep(c, |b.urbs|);
    } else if c.flags.holder.pc.Entry? {
      PrepareEntryStep(c, ok);
    } else if c.flags.streaming {
      SubmitStep(c, ok);
    } else {
      StartStep(c, ok);
    }
  }

  // ------------------------------------------------------------- the runs

  // From here on the call ends as its rest says.
  predicate Ends(cfg: Config, c: Ctl, c': Ctl)
    requires |c.subs| == 2
  {
    && (ParamsAt(c) ==>
          var prog := c.flags.holder.prog;
          || Returns(c', prog.d, RequestAt(cfg, prog), Rest(cfg, c, true))
          || Returns(c', prog.d, RequestAt(cfg, prog), Rest(cfg, c, false)))
    && (FreeAt(c) ==> Frees(c', c.flags.holder.prog.d, FreeRest(c)))
    && (PrepareAt(c) ==>
          var d := c.flags.holder.prog.d;
          Prepares(c', d, PrepareRest(c, true)) || Prepares(c', d, PrepareRest(c, false)))
  }

  // Where a run of the steps of a call may be.
  predicate Calls(c: Ctl) {
    && (ParamsAt(c) || FreeAt(c) || PrepareAt(c))
    && (ParamsAt(c) ==> StoppedSoFar(c))
  }

  lemma CallStep(s: State, ok: bool, end: Ctl)
    requires Inv(s) && Calls(s.ctl) && HolderEnabled(s.ctl, s.bus)
    ensures var c' := StepMutex(s.cfg, s.ctl, s.bus, ok);
            if c'.flags.holder == Free then Ends(s.cfg, s.ctl, c')
            else Calls(c') && (Ends(s.cfg, c', end) ==> Ends(s.cfg, s.ctl, end))
  {
    hide BusInv, GeoInv, DirOk, StepMutex, Rest, FreeRest, PrepareRest, Returns, Frees, Prepares, HolderEnabled;
    var c, b := s.ctl, s.bus;
    if ParamsAt(c) {
      InvReady(s);
      ParamsStep(s.cfg, c, b, ok);
    } else if FreeAt(c) {
      FreeStep(s.cfg, c, b, ok);
    } else {
      PrepareStep(s.cfg, c, b, ok);
    }
  }

  // Once the mutex is free, the URBs leave the fields alone.
  lemma {:induction false} NothingMore(s: State, acts: seq<Action>)
    requires Possible(s, acts) && AllInside(acts) && s.ctl.flags.holder == Free
    ensures Run(s, acts).ctl == s.ctl
    decreases |acts|
  {
    hide NextBus;
    if acts != [] {
      assert Inside(acts[0]);
      NothingMore(Next(s, acts[0]), acts[1..]);
    }
  }

  // A URB action, or the work being queued, leaves the call alone.
  lemma OutsideTheCall(s: State, a: Action)
    requires Shaped(s) && Enabled(s, a) && Inside(a) && !a.StepHolder?
    ensures NextCtl(s, a) == s.ctl
  {
  }

  lemma InsideStep(s: State, a: Action, end: Ctl)
    requires Inv(s) && Calls(s.ctl) && Shaped(s) && Enabled(s, a) && Inside(a)
    ensures var c' := NextCtl(s, a);
            if c'.flags.holder == Free then Ends(s.cfg, s.ctl, c')
            else Calls(c') && (Ends(s.cfg, c', end) ==> Ends(s.cfg, s.ctl, end))
  {
    assert s.ctl.flags.holder.At?;
    hide Inv, Ends, Calls, StepMutex, HolderEnabled, CallEnabled, Shaped;
    if a.StepHolder? {
      CallStep(s, a.ok, end);
    } else {
      OutsideTheCall(s, a);
    }
  }

  lemma {:induction false} CallRun(s: State, acts: seq<Action>)
    requires Inv(s) && Calls(s.ctl) && Possible(s, acts) && AllInside(acts)
    requires Run(s, acts).ctl.flags.holder == Free
    ensures Ends(s.cfg, s.ctl, Run(s, acts).ctl)
    decreases |acts|
  {
    assert s.ctl.flags.holder.At? && acts != [];
    hide Inv, Ends, Calls, NextBus, NextCtl, Enabled, Shaped, Inside;
    var t := Next(s, acts[0]);
    NextKeepsInv(s, acts[0]);
    InsideStep(s, acts[0], Run(s, acts).ctl);
    if t.ctl.flags.holder == Free {
      NothingMore(t, acts[1..]);
    } else {
      CallRun(t, acts[1..]);
    }
  }

  // --------------------------------------------------------- whole calls

  // The core calls the driver.
  lemma BeginView(s: State, d: Dir, call: Call)
    requires Shaped(s) && Enabled(s, Core(d, call)) && (call.BeginParams? || call.BeginFree? || call.BeginPrepare?)
    ensures var c' := NextCtl(s, Core(d, call));
            && |c'.subs| == 2 && View(c') == View(s.ctl)
            && c'.flags.holder == CallHolder(s.cfg, s.ctl.flags.holder, d, call)
  {
    hide UrbFrames;
    if d == 0 {} else {}
  }

  lemma RuntimeView(c: Ctl, d: Dir, g: Geo)
    requires |c.subs| == 2 && c.subs[d].op.Returned?
    ensures var sub := c.subs[d];
            View(WithSub(c, d, CallSub(g, c.flags.streaming, sub, WriteRuntime)))
            == P.WithRuntime(View(c), d, sub.op.rate, sub.op.period)
  {
    if d == 0 {} else {}
  }

  // hw_params has returned; when it succeeded, the core can write the runtime,
  // and then the fields are those of the call.
  predicate ParamsLeaves(f: P.Fields, e: State, d: Dir, rate: nat, period: nat, ok: bool)
    requires f.Shaped()
  {
    var (g, ret) := P.ParamsResult(e.cfg, f, d, rate, period, ok);
    && Shaped(e)
    && if ret == 0 then Enabled(e, Core(d, WriteRuntime)) && View(NextCtl(e, Core(d, WriteRuntime))) == g
       else View(e.ctl) == g && e.ctl.subs[d].phase == Failed
  }

  lemma ReturnLeaves(f: P.Fields, e: State, d: Dir, r: Rate, period: nat, ok: bool)
    requires f.Shaped() && Shaped(e) && r in RATES && UrbFrames(e.cfg, r, period) != 0
    requires var urb := UrbFrames(e.cfg, r, period);
             var q := P.Request(r.rate, period, urb, UrbCount(e.cfg, r, period, urb));
             Returns(e.ctl, d, q, P.ParamsCall(f, d, q, ok))
    ensures ParamsLeaves(f, e, d, r.rate, period, ok)
  {
    hide UrbFrames, UrbCount, P.ParamsCall, View, RateOf;
    RateUnique(r);
    if e.ctl.subs[d].op.Returned? {
      RuntimeView(e.ctl, d, e.ctl.geo);
    }
  }

  function AskedFor(cfg: Config, r: Rate, period: nat): P.Request
    requires r in RATES
  {
    PacketOfARate(r);
    var urb := UrbFrames(cfg, r, period);
    P.Request(r.rate, period, urb, if urb == 0 then 0 else UrbCount(cfg, r, period, urb))
  }

  lemma {:induction false} RunKeepsConfig(s: State, acts: seq<Action>)
    requires Possible(s, acts)
    ensures Run(s, acts).cfg == s.cfg
    decreases |acts|
  {
    hide NextCtl, NextBus, Enabled, Shaped;
    if acts != [] {
      RunKeepsConfig(Next(s, acts[0]), acts[1..]);
    }
  }

  // hw_params, to the release of the mutex.
  lemma ParamsReturns(s: State, d: Dir, r: Rate, period: nat, acts: seq<Action>)
    requires Reachable(s) && Shaped(s) && Enabled(s, Core(d, BeginParams(r, period)))
    requires var t := Next(s, Core(d, BeginParams(r, period)));
             AllInside(acts) && Possible(t, acts) && Run(t, acts).ctl.flags.holder == Free
    ensures var e := Run(Next(s, Core(d, BeginParams(r, period))), acts);
            && Shaped(e) && e.cfg == s.cfg && r in RATES && UrbFrames(s.cfg, r, period) != 0
            && var q := AskedFor(s.cfg, r, period);
               || Returns(e.ctl, d, q, P.ParamsCall(View(s.ctl), d, q, true))
               || Returns(e.ctl, d, q, P.ParamsCall(View(s.ctl), d, q, false))
  {
    hide Inv, NextBus, NextCtl, Reachable, Returns, View, P.ParamsCall, UrbFrames, UrbCount;
    var a := Core(d, BeginParams(r, period));
    ReachableInv(s);
    NextKeepsInv(s, a);
    BeginView(s, d, BeginParams(r, period));
    var t := Next(s, a);
    CallRun(t, acts);
    RunKeepsInv(t, acts);
    RunKeepsConfig(t, acts);
    InvShaped(Run(t, acts));
  }

  // hw_params, from its call to the runtime that the core writes at its end, is
  // one call of PcmSetup, whose USB transfer succeeded or not.
  lemma ParamsIsOneCall(s: State, d: Dir, r: Rate, period: nat, acts: seq<Action>)
    requires Reachable(s) && Shaped(s) && Enabled(s, Core(d, BeginParams(r, period)))
    requires var t := Next(s, Core(d, BeginParams(r, period)));
             AllInside(acts) && Possible(t, acts) && Run(t, acts).ctl.flags.holder == Free
    ensures var e := Run(Next(s, Core(d, BeginParams(r, period))), acts);
            || ParamsLeaves(View(s.ctl), e, d, r.rate, period, true)
            || ParamsLeaves(View(s.ctl), e, d, r.rate, period, false)
  {
    hide Reachable, Enabled, Next, Possible, ParamsLeaves, Returns, View, P.ParamsCall, UrbFrames, UrbCount;
    ParamsReturns(s, d, r, period, acts);
    var e, q := Run(Next(s, Core(d, BeginParams(r, period))), acts), AskedFor(s.cfg, r, period);
    forall ok | Returns(e.ctl, d, q, P.ParamsCall(View(s.ctl), d, q, ok))
      ensures ParamsLeaves(View(s.ctl), e, d, r.rate, period, ok)
    {
      ReturnLeaves(View(s.ctl), e, d, r, period, ok);
    }
  }

  // hw_free is one call of PcmSetup.  The direction is no longer set up, the
  // other one is as it was, the session goes on if and only if there was one and
  // the other direction is set up, and otherwise no URB is left in flight.
  lemma FreeIsOneCall(s: State, d: Dir, acts: seq<Action>)
    requires Reachable(s) && Shaped(s) && Enabled(s, Core(d, BeginFree))
    requires var t := Next(s, Core(d, BeginFree));
             AllInside(acts) && Possible(t, acts) && Run(t, acts).ctl.flags.holder == Free
    ensures var e := Run(Next(s, Core(d, BeginFree)), acts);
            && Frees(e.ctl, d, P.FreeCall(View(s.ctl), d))
            && !e.ctl.subs[d].setup && e.ctl.subs[Other(d)].setup == s.ctl.subs[Other(d)].setup
            && (e.ctl.flags.streaming <==> s.ctl.flags.streaming && s.ctl.subs[Other(d)].setup)
            && (!e.ctl.flags.streaming ==> forall k :: 0 <= k < |e.bus.urbs| ==> e.bus.urbs[k] == Idle)
  {
    hide Inv, NextBus, NextCtl, Reachable, Frees, View, P.FreeCall;
    var a := Core(d, BeginFree);
    ReachableInv(s);
    NextKeepsInv(s, a);
    BeginView(s, d, BeginFree);
    CallRun(Next(s, a), acts);
    RunKeepsInv(Next(s, a), acts);
    FreedFields(s, d, Run(Next(s, a), acts));
  }

  lemma FreesView(c: Ctl, d: Dir, f: P.Fields)
    requires Frees(c, d, f)
    ensures |c.subs| == 2 && c.flags.holder == Free && View(c) == f
  {
  }

  lemma SetupInView(c: Ctl)
    requires |c.subs| == 2
    ensures View(c).setup == [c.subs[0].setup, c.subs[1].setup] && View(c).streaming == c.flags.streaming
    ensures View(c).users == c.users
  {
  }

  lemma UsersInView(s: State)
    requires Inv(s)
    ensures View(s.ctl).users == (if View(s.ctl).setup[0] then 1 else 0) + (if View(s.ctl).setup[1] then 1 else 0)
  {
    hide BusInv, GeoInv, DirOk;
  }

  lemma FreedFields(s: State, d: Dir, e: State)
    requires Inv(s) && Inv(e) && s.ctl.flags.holder == Free && Frees(e.ctl, d, P.FreeCall(View(s.ctl), d))
    ensures !e.ctl.subs[d].setup && e.ctl.subs[Other(d)].setup == s.ctl.subs[Other(d)].setup
    ensures e.ctl.flags.streaming <==> s.ctl.flags.streaming && s.ctl.subs[Other(d)].setup
    ensures !e.ctl.flags.streaming ==> forall k :: 0 <= k < |e.bus.urbs| ==> e.bus.urbs[k] == Idle
  {
    hide BusInv, GeoInv, DirOk, Frees, View, P.FreeCall;
    UsersOnly(s);
    UsersInView(s);
    P.TheLastUserEndsTheSession(View(s.ctl), d);
    FreesView(e.ctl, d, P.FreeCall(View(s.ctl), d));
    SetupInView(s.ctl);
    SetupInView(e.ctl);
    if !e.ctl.flags.streaming {
      forall k | 0 <= k < |e.bus.urbs| ensures e.bus.urbs[k] == Idle {
        NothingInFlight(e, k);
      }
    }
    if d == 0 {} else {}
  }

  // prepare brings the session up, or leaves everything as it was; in neither
  // case does a start that failed halfway leave a session or a URB behind.  A
  // new session is one that the direction fits.
  lemma PrepareIsOneCall(s: State, d: Dir, acts: seq<Action>)
    requires Reachable(s) && Shaped(s) && Enabled(s, Core(d, BeginPrepare))
    requires var t := Next(s, Core(d, BeginPrepare));
             AllInside(acts) && Possible(t, acts) && Run(t, acts).ctl.flags.holder == Free
    ensures var e := Run(Next(s, Core(d, BeginPrepare)), acts);
            && (|| Prepares(e.ctl, d, P.PrepareCall(View(s.ctl), d, true).0)
                || Prepares(e.ctl, d, P.PrepareCall(View(s.ctl), d, false).0))
            && (s.ctl.flags.streaming ==> e.ctl.flags.streaming)
            && (e.ctl.flags.streaming && !s.ctl.flags.streaming ==>
                  var sub, g := s.ctl.subs[d], s.ctl.geo;
                  sub.rate == g.rate && SessionPeriod(g.frames, g.active) <= sub.period && !s.ctl.flags.shutdown)
            && (!e.ctl.flags.streaming ==> forall k :: 0 <= k < |e.bus.urbs| ==> e.bus.urbs[k] == Idle)
  {
    hide Inv, NextBus, NextCtl, Reachable, Prepares, View, P.PrepareCall, SessionPeriod;
    var a := Core(d, BeginPrepare);
    ReachableInv(s);
    NextKeepsInv(s, a);
    BeginView(s, d, BeginPrepare);
    CallRun(Next(s, a), acts);
    RunKeepsInv(Next(s, a), acts);
    var e := Run(Next(s, a), acts);
    if Prepares(e.ctl, d, P.PrepareCall(View(s.ctl), d, true).0) {
      PreparedFields(s, d, e, true);
    } else {
      PreparedFields(s, d, e, false);
    }
  }

  lemma PreparedFields(s: State, d: Dir, e: State, ok: bool)
    requires Inv(s) && Inv(e) && Prepares(e.ctl, d, P.PrepareCall(View(s.ctl), d, ok).0)
    ensures s.ctl.flags.streaming ==> e.ctl.flags.streaming
    ensures e.ctl.flags.streaming && !s.ctl.flags.streaming ==>
              var sub, g := s.ctl.subs[d], s.ctl.geo;
              sub.rate == g.rate && SessionPeriod(g.frames, g.active) <= sub.period && !s.ctl.flags.shutdown
    ensures !e.ctl.flags.streaming ==> forall k :: 0 <= k < |e.bus.urbs| ==> e.bus.urbs[k] == Idle
  {
    hide BusInv, GeoInv, DirOk, SessionPeriod;
    if !e.ctl.flags.streaming {
      forall k | 0 <= k < |e.bus.urbs| ensures e.bus.urbs[k] == Idle {
        NothingInFlight(e, k);
      }
    }
    if d == 0 {} else {}
  }
}
