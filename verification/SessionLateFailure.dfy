/** Why the guarantees of the session leave orphans out: a run in which they
    fail.  babyface_stream_start sets streaming before its last fallible steps
    and, when one of them fails, kills the session without stopping the
    substreams.  A START that slipped in between survives, and the next
    hw_params may then change the rate under a running substream.

    One process holds both directions.  Direction 1 is prepared and waits for
    its START while direction 0 asks for shorter periods, which ends the
    session, and starts the next one. */
module SessionLateFailure {
  import opened Wrappers
  import opened Geometry
  import opened Session
  import opened SessionRuns

  const CFG := Config(2, 256, 32, 0)
  const R48: Rate := RATES[2]
  const R96: Rate := RATES[5]

  const OPEN := NEW_SUB.(phase := Open, owner := 1)
  // Set up at 48 kHz with periods of 256, and of 64.
  const LONG := Sub(SetUp, NoOp, false, 48000, 256, true, 1, false)
  const SHORT := LONG.(period := 64)
  const GEO := Geo(48000, 128, 2)
  const GEO_SHORT := Geo(48000, 64, 2)

  lemma Step(s: State, a: Action, s': State)
    requires Reachable(s) && Shaped(s) && Enabled(s, a) && Next(s, a) == s'
    ensures Reachable(s')
  {
    hide Shaped, Enabled, Next, Reachable;
    ReachNext(s, a);
  }

  // -------------------------------------------------------- the states of it

  function Held(h: Holder, streaming: bool, late: bool): Flags {
    Flags(streaming, false, Connected, h, late)
  }

  function At0(g: Geo, h: Holder, streaming: bool, dir: Dir, users: int, subs: seq<Sub>, bus: Bus): State {
    State(CFG, Ctl(g, Held(h, streaming, false), dir, users, subs), bus)
  }

  const IDLE: Bus := Initial(CFG).bus

  function Setting(d: Dir, period: nat, urb: Frames, pc: Pc): Holder {
    At(HwParams(d, R48, period, urb, false), pc)
  }

  function Preparing(d: Dir, pc: Pc): Holder { At(Prepare(d, false), pc) }

  lemma SizesOfTheSession()
    ensures CFG.Valid() && R48 in RATES && R96 in RATES
    ensures UrbFrames(CFG, R48, 256) == 128 && UrbCount(CFG, R48, 256, 128) == 2
    ensures UrbFrames(CFG, R48, 64) == 64 && UrbCount(CFG, R48, 64, 64) == 2
    ensures UrbFrames(CFG, R96, 64) == 64
    ensures !TooShort(256, 128, 2) && TooShort(64, 128, 2) && !TooShort(64, 64, 2) && !TooShort(256, 64, 2)
  {
  }

  // ------------------------------------------------------ both are set up

  lemma BothOpen()
    ensures Reachable(At0(Geo(48000, 256, 2), Free, false, 0, 0, [OPEN, OPEN], IDLE))
  {
    var s0 := Initial(CFG);
    assert Possible(s0, []) && Run(s0, []) == s0;
    var s1 := At0(Geo(48000, 256, 2), Free, false, 0, 0, [OPEN, NEW_SUB], IDLE);
    Step(s0, Core(0, OpenSub(1)), s1);
    Step(s1, Core(1, OpenSub(1)), At0(Geo(48000, 256, 2), Free, false, 0, 0, [OPEN, OPEN], IDLE));
  }

  lemma FirstChooses()
    ensures Reachable(At0(Geo(48000, 256, 2), Setting(1, 256, 128, WriteFrames), false, 0, 0,
                          [OPEN, OPEN.(op := InParams)], IDLE))
  {
    hide Reachable, UrbFrames, UrbCount, TooShort;
    SizesOfTheSession();
    BothOpen();
    var g0, busy := Geo(48000, 256, 2), [OPEN, OPEN.(op := InParams)];
    var s0 := At0(g0, Free, false, 0, 0, [OPEN, OPEN], IDLE);
    var s1 := At0(g0, Setting(1, 256, 128, Entry), false, 0, 0, busy, IDLE);
    Step(s0, Core(1, BeginParams(R48, 256)), s1);
    var s2 := At0(g0, Setting(1, 256, 128, ChooseGeometry), false, 0, 0, busy, IDLE);
    Step(s1, StepHolder(true), s2);
    Step(s2, StepHolder(true), At0(g0, Setting(1, 256, 128, WriteFrames), false, 0, 0, busy, IDLE));
  }

  lemma FirstSetUp()
    ensures Reachable(At0(GEO, Free, false, 1, 1, [OPEN, LONG], IDLE))
  {
    hide Reachable, UrbFrames, UrbCount, TooShort;
    SizesOfTheSession();
    FirstChooses();
    var busy := [OPEN, OPEN.(op := InParams)];
    var s3 := At0(Geo(48000, 256, 2), Setting(1, 256, 128, WriteFrames), false, 0, 0, busy, IDLE);
    var s4 := At0(GEO, Setting(1, 256, 128, WriteActive), false, 0, 0, busy, IDLE);
    Step(s3, StepHolder(true), s4);
    var s5 := At0(GEO, Setting(1, 256, 128, Done), false, 1, 0, busy, IDLE);
    Step(s4, StepHolder(true), s5);
    var s6 := At0(GEO, Free, false, 1, 1, [OPEN, OPEN.(op := Returned(48000, 256), setup := true)], IDLE);
    Step(s5, StepHolder(true), s6);
    Step(s6, Core(1, WriteRuntime), At0(GEO, Free, false, 1, 1, [OPEN, LONG], IDLE));
  }

  lemma SecondFits()
    ensures Reachable(At0(GEO, Setting(0, 256, 128, Done), false, 1, 1, [OPEN.(op := InParams), LONG], IDLE))
  {
    hide Reachable, UrbFrames, UrbCount, TooShort;
    SizesOfTheSession();
    FirstSetUp();
    var busy := [OPEN.(op := InParams), LONG];
    var s0 := At0(GEO, Free, false, 1, 1, [OPEN, LONG], IDLE);
    var s1 := At0(GEO, Setting(0, 256, 128, Entry), false, 1, 1, busy, IDLE);
    Step(s0, Core(0, BeginParams(R48, 256)), s1);
    var s2 := At0(GEO, Setting(0, 256, 128, ChooseGeometry), false, 1, 1, busy, IDLE);
    Step(s1, StepHolder(true), s2);
    Step(s2, StepHolder(true), At0(GEO, Setting(0, 256, 128, Done), false, 1, 1, busy, IDLE));
  }

  lemma BothSetUp()
    ensures Reachable(At0(GEO, Free, false, 1, 2, [LONG, LONG], IDLE))
  {
    hide Reachable, UrbFrames, UrbCount, TooShort;
    SecondFits();
    var s3 := At0(GEO, Setting(0, 256, 128, Done), false, 1, 1, [OPEN.(op := InParams), LONG], IDLE);
    var s4 := At0(GEO, Free, false, 1, 2, [OPEN.(op := Returned(48000, 256), setup := true), LONG], IDLE);
    Step(s3, StepHolder(true), s4);
    Step(s4, Core(0, WriteRuntime), At0(GEO, Free, false, 1, 2, [LONG, LONG], IDLE));
  }

  // --------------------------------------- the first session, of direction 1

  // The URBs below n are in flight.
  function FlightTo(n: nat): seq<UrbState> { seq(4, i => if i < n then InFlight(1) else Idle) }

  // The URBs from n on are in flight.
  function FlightFrom(n: nat): seq<UrbState> { seq(4, i => if i < n then Idle else InFlight(1)) }

  function FirstBus(inflight: nat, urbs: seq<UrbState>, gone: bool): Bus {
    IDLE.(session := 1, urbLen := 128, outInflight := inflight, urbs := urbs, gone := gone)
  }

  const WAITING := [LONG, LONG.(op := InPrepare)]

  lemma FirstStarts()
    ensures Reachable(At0(GEO, Preparing(1, StartErr), false, 1, 2, WAITING, IDLE))
  {
    hide Reachable, UrbFrames, UrbCount, TooShort;
    SizesOfTheSession();
    BothSetUp();
    var s0 := At0(GEO, Free, false, 1, 2, [LONG, LONG], IDLE);
    var s1 := At0(GEO, Preparing(1, Entry), false, 1, 2, WAITING, IDLE);
    Step(s0, Core(1, BeginPrepare), s1);
    var s2 := At0(GEO, Preparing(1, StartWrites), false, 1, 2, WAITING, IDLE);
    Step(s1, StepHolder(true), s2);
    Step(s2, StepHolder(true), At0(GEO, Preparing(1, StartErr), false, 1, 2, WAITING, IDLE));
  }

  lemma FirstLive()
    ensures Reachable(At0(GEO, Preparing(1, StartSubmit(0)), true, 1, 2, WAITING, FirstBus(2, FlightTo(0), false)))
  {
    hide Reachable, UrbFrames, UrbCount, TooShort;
    FirstStarts();
    assert IDLE.urbs == FlightTo(0);
    var s0 := At0(GEO, Preparing(1, StartErr), false, 1, 2, WAITING, IDLE);
    var s1 := At0(GEO, Preparing(1, StartInflight), false, 1, 2, WAITING, FirstBus(0, FlightTo(0), false));
    Step(s0, StepHolder(true), s1);
    var s2 := At0(GEO, Preparing(1, StartLive), false, 1, 2, WAITING, FirstBus(2, FlightTo(0), false));
    Step(s1, StepHolder(true), s2);
    Step(s2, StepHolder(true),
         At0(GEO, Preparing(1, StartSubmit(0)), true, 1, 2, WAITING, FirstBus(2, FlightTo(0), false)));
  }

  lemma {:induction false} FirstSubmits(k: nat)
    requires k <= 4
    requires Reachable(At0(GEO, Preparing(1, StartSubmit(k)), true, 1, 2, WAITING, FirstBus(2, FlightTo(k), false)))
    ensures Reachable(At0(GEO, Preparing(1, StartSubmit(4)), true, 1, 2, WAITING, FirstBus(2, FlightTo(4), false)))
    decreases 4 - k
  {
    hide Reachable;
    if k < 4 {
      assert FlightTo(k)[k := InFlight(1)] == FlightTo(k + 1);
      Step(At0(GEO, Preparing(1, StartSubmit(k)), true, 1, 2, WAITING, FirstBus(2, FlightTo(k), false)),
           StepHolder(true),
           At0(GEO, Preparing(1, StartSubmit(k + 1)), true, 1, 2, WAITING, FirstBus(2, FlightTo(k + 1), false)));
      FirstSubmits(k + 1);
    }
  }

  // Direction 1 is prepared: the session runs, and waits for its START.
  lemma FirstPrepared()
    ensures Reachable(At0(GEO, Free, true, 1, 2, [LONG, LONG], FirstBus(2, FlightTo(4), false)))
  {
    hide Reachable;
    FirstLive();
    FirstSubmits(0);
    var bus := FirstBus(2, FlightTo(4), false);
    var s0 := At0(GEO, Preparing(1, StartSubmit(4)), true, 1, 2, WAITING, bus);
    var s1 := At0(GEO, Preparing(1, StartArm), true, 1, 2, WAITING, bus);
    Step(s0, StepHolder(true), s1);
    Step(s1, StepHolder(true), At0(GEO, Free, true, 1, 2, [LONG, LONG], bus));
  }

  // ------------------------------------ direction 0 asks for shorter periods

  const CHANGING := [LONG.(op := InParams), LONG]

  const FLYING: Bus := FirstBus(2, FlightFrom(0), false)

  lemma ShortChooses()
    ensures Reachable(At0(GEO, Setting(0, 64, 64, ChooseGeometry), true, 1, 2, CHANGING, FLYING))
  {
    hide Reachable, UrbFrames, UrbCount, TooShort;
    SizesOfTheSession();
    FirstPrepared();
    assert FlightTo(4) == FlightFrom(0);
    var s0 := At0(GEO, Free, true, 1, 2, [LONG, LONG], FLYING);
    var s1 := At0(GEO, Setting(0, 64, 64, Entry), true, 1, 2, CHANGING, FLYING);
    Step(s0, Core(0, BeginParams(R48, 64)), s1);
    Step(s1, StepHolder(true), At0(GEO, Setting(0, 64, 64, ChooseGeometry), true, 1, 2, CHANGING, FLYING));
  }

  lemma ShortAsked()
    ensures Reachable(At0(GEO, Setting(0, 64, 64, KillNext(0)), false, 1, 2, CHANGING, FLYING))
  {
    hide Reachable, UrbFrames, UrbCount, TooShort;
    SizesOfTheSession();
    ShortChooses();
    var bus := FLYING;
    var s2 := At0(GEO, Setting(0, 64, 64, ChooseGeometry), true, 1, 2, CHANGING, bus);
    var s3 := At0(GEO, Setting(0, 64, 64, Clear), true, 1, 2, CHANGING, bus);
    Step(s2, StepHolder(true), s3);
    Step(s3, StepHolder(true), At0(GEO, Setting(0, 64, 64, KillNext(0)), false, 1, 2, CHANGING, bus));
  }

  function BeingKilled(pc: Pc, urbs: seq<UrbState>, gone: bool): State {
    At0(GEO, Setting(0, 64, 64, pc), false, 1, 2, CHANGING, FirstBus(2, urbs, gone))
  }

  lemma KillOne(k: nat)
    requires k < 4 && Reachable(BeingKilled(KillNext(k), FlightFrom(k), k > 0))
    ensures Reachable(BeingKilled(KillNext(k + 1), FlightFrom(k + 1), true))
  {
    hide Reachable;
    var flying := FlightFrom(k);
    var handled := flying[k := Handler(1, Completed(Gone))];
    assert handled[k := Idle] == FlightFrom(k + 1);
    var s1 := BeingKilled(KillWait(k), flying, k > 0);
    Step(BeingKilled(KillNext(k), flying, k > 0), StepHolder(true), s1);
    var s2 := BeingKilled(KillWait(k), handled, true);
    Step(s1, Complete(k, Gone), s2);
    var s3 := BeingKilled(KillWait(k), FlightFrom(k + 1), true);
    Step(s2, StepHandler(k, true), s3);
    Step(s3, StepHolder(true), BeingKilled(KillNext(k + 1), FlightFrom(k + 1), true));
  }

  lemma {:induction false} KillAll(k: nat)
    requires k <= 4 && Reachable(BeingKilled(KillNext(k), FlightFrom(k), k > 0))
    ensures Reachable(BeingKilled(KillNext(4), FlightFrom(4), true))
    decreases 4 - k
  {
    hide Reachable;
    if k < 4 {
      KillOne(k);
      KillAll(k + 1);
    }
  }

  const ENDED: Bus := FirstBus(2, FlightFrom(4), true)

  // The kill is over, nothing was running, the new size is written.
  lemma ShortWrites()
    ensures Reachable(At0(GEO_SHORT, Setting(0, 64, 64, WriteActive), false, 1, 2, CHANGING, ENDED))
  {
    hide Reachable, UrbFrames, UrbCount, TooShort;
    ShortAsked();
    KillAll(0);
    var s1 := At0(GEO, Setting(0, 64, 64, StopNext(0)), false, 1, 2, CHANGING, ENDED);
    Step(BeingKilled(KillNext(4), FlightFrom(4), true), StepHolder(true), s1);
    var s2 := At0(GEO, Setting(0, 64, 64, StopNext(1)), false, 1, 2, CHANGING, ENDED);
    Step(s1, StepHolder(true), s2);
    var s3 := At0(GEO, Setting(0, 64, 64, StopNext(2)), false, 1, 2, CHANGING, ENDED);
    Step(s2, StepHolder(true), s3);
    var s4 := At0(GEO, Setting(0, 64, 64, WriteFrames), false, 1, 2, CHANGING, ENDED);
    Step(s3, StepHolder(true), s4);
    Step(s4, StepHolder(true), At0(GEO_SHORT, Setting(0, 64, 64, WriteActive), false, 1, 2, CHANGING, ENDED));
  }

  lemma ShortSetUp()
    ensures Reachable(At0(GEO_SHORT, Free, false, 0, 2, [SHORT, LONG], ENDED))
  {
    hide Reachable, UrbFrames, UrbCount, TooShort;
    SizesOfTheSession();
    ShortWrites();
    var s0 := At0(GEO_SHORT, Setting(0, 64, 64, WriteActive), false, 1, 2, CHANGING, ENDED);
    var s1 := At0(GEO_SHORT, Setting(0, 64, 64, Done), false, 0, 2, CHANGING, ENDED);
    Step(s0, StepHolder(true), s1);
    var s2 := At0(GEO_SHORT, Free, false, 0, 2, [LONG.(op := Returned(48000, 64)), LONG], ENDED);
    Step(s1, StepHolder(true), s2);
    Step(s2, Core(0, WriteRuntime), At0(GEO_SHORT, Free, false, 0, 2, [SHORT, LONG], ENDED));
  }

  // ------------------------------------- the second session, of direction 0

  function SecondBus(inflight: nat): Bus {
    IDLE.(session := 2, urbLen := 64, outInflight := inflight, urbs := FlightFrom(4))
  }

  const STARTING := [SHORT.(op := InPrepare), LONG]

  lemma SecondStarts()
    ensures Reachable(At0(GEO_SHORT, Preparing(0, StartErr), false, 0, 2, STARTING, ENDED))
  {
    hide Reachable, UrbFrames, UrbCount, TooShort;
    SizesOfTheSession();
    ShortSetUp();
    var s0 := At0(GEO_SHORT, Free, false, 0, 2, [SHORT, LONG], ENDED);
    var s1 := At0(GEO_SHORT, Preparing(0, Entry), false, 0, 2, STARTING, ENDED);
    Step(s0, Core(0, BeginPrepare), s1);
    var s2 := At0(GEO_SHORT, Preparing(0, StartWrites), false, 0, 2, STARTING, ENDED);
    Step(s1, StepHolder(true), s2);
    Step(s2, StepHolder(true), At0(GEO_SHORT, Preparing(0, StartErr), false, 0, 2, STARTING, ENDED));
  }

  // It has just set streaming, and submitted nothing yet.
  lemma SecondLive()
    ensures Reachable(At0(GEO_SHORT, Preparing(0, StartSubmit(0)), true, 0, 2, STARTING, SecondBus(2)))
  {
    hide Reachable, UrbFrames, UrbCount, TooShort;
    SecondStarts();
    var s0 := At0(GEO_SHORT, Preparing(0, StartErr), false, 0, 2, STARTING, ENDED);
    var s1 := At0(GEO_SHORT, Preparing(0, StartInflight), false, 0, 2, STARTING, SecondBus(2));
    Step(s0, StepHolder(true), s1);
    var s2 := At0(GEO_SHORT, Preparing(0, StartLive), false, 0, 2, STARTING, SecondBus(2));
    Step(s1, StepHolder(true), s2);
    Step(s2, StepHolder(true), At0(GEO_SHORT, Preparing(0, StartSubmit(0)), true, 0, 2, STARTING, SecondBus(2)));
  }

  function Starting1(sub: Sub): State {
    At0(GEO_SHORT, Preparing(0, StartSubmit(0)), true, 0, 2, [SHORT.(op := InPrepare), sub], SecondBus(2))
  }

  lemma Slipping()
    ensures Reachable(Starting1(LONG.(op := Start(SawRate))))
  {
    hide Reachable, TooShort;
    SecondLive();
    Step(Starting1(LONG), Core(1, BeginStart), Starting1(LONG.(op := Start(StreamLocked))));
    Step(Starting1(LONG.(op := Start(StreamLocked))), Core(1, StepStart), Starting1(LONG.(op := Start(SawStreaming))));
    Step(Starting1(LONG.(op := Start(SawStreaming))), Core(1, StepStart), Starting1(LONG.(op := Start(SawRate))));
  }

  lemma SlippingOn()
    ensures Reachable(Starting1(LONG.(op := Start(SawFrames(64)))))
  {
    hide Reachable, TooShort;
    Slipping();
    Step(Starting1(LONG.(op := Start(SawRate))), Core(1, StepStart), Starting1(LONG.(op := Start(SawFrames(64)))));
  }

  // START of direction 1 finds this session streaming, and fits it.
  lemma Slipped()
    ensures Reachable(Starting1(LONG.(running := true)))
  {
    hide Reachable, TooShort, StepMutex, UrbFrames, UrbCount;
    SizesOfTheSession();
    SlippingOn();
    Step(Starting1(LONG.(op := Start(SawFrames(64)))), Core(1, StepStart),
         Starting1(LONG.(op := Start(SawGeometry(64, 2)))));
    Step(Starting1(LONG.(op := Start(SawGeometry(64, 2)))), Core(1, StepStart), Starting1(LONG.(running := true)));
  }

  // ------------------------------------------------------------ the failure

  function Failing(pc: Pc): State {
    State(CFG, Ctl(GEO_SHORT, Held(At(Prepare(0, true), pc), pc.Clear?, true), 0, 2,
                   [SHORT.(op := InPrepare), LONG.(running := true, orphan := !pc.Clear?)]), SecondBus(2))
  }

  // The kill of a session whose first submit failed: nothing is in flight.
  lemma {:induction false} KillIdle(k: nat)
    requires k <= 4 && Reachable(Failing(KillNext(k)))
    ensures Reachable(Failing(KillNext(4)))
    decreases 4 - k
  {
    hide Reachable;
    if k < 4 {
      Step(Failing(KillNext(k)), StepHolder(true), Failing(KillWait(k)));
      Step(Failing(KillWait(k)), StepHolder(true), Failing(KillNext(k + 1)));
      KillIdle(k + 1);
    }
  }

  function Left(g: Geo, h: Holder, sub: Sub): State {
    State(CFG, Ctl(g, Held(h, false, true), 0, 2, [sub, LONG.(running := true, orphan := true)]), SecondBus(2))
  }

  // The first submit fails, prepare returns an error, and direction 1 is
  // running although there is no session.
  lemma LeftRunning()
    ensures Reachable(Left(GEO_SHORT, Free, SHORT))
  {
    hide Reachable;
    Slipped();
    Step(Starting1(LONG.(running := true)), StepHolder(false), Failing(Clear));
    Step(Failing(Clear), StepHolder(true), Failing(KillNext(0)));
    KillIdle(0);
    Step(Failing(KillNext(4)), StepHolder(true), Left(GEO_SHORT, Free, SHORT));
  }

  const TO96: Prog := HwParams(0, R96, 64, 64, false)

  lemma RateAsked()
    ensures Reachable(Left(GEO_SHORT, At(TO96, SetInterface), SHORT.(op := InParams)))
  {
    hide Reachable, UrbFrames, UrbCount, TooShort;
    SizesOfTheSession();
    LeftRunning();
    var busy := SHORT.(op := InParams);
    Step(Left(GEO_SHORT, Free, SHORT), Core(0, BeginParams(R96, 64)), Left(GEO_SHORT, At(TO96, Entry), busy));
    Step(Left(GEO_SHORT, At(TO96, Entry), busy), StepHolder(true), Left(GEO_SHORT, At(TO96, SetInterface), busy));
  }

  // Then hw_params of direction 0 changes the rate: direction 1 is running at
  // 48 kHz, the session is at 96 kHz.
  lemma LateFailureBreaksTheRate()
    ensures exists s :: Reachable(s) && |s.ctl.subs| == 2 && s.ctl.subs[1].running && s.ctl.subs[1].orphan
                        && s.ctl.subs[1].rate == 48000 && s.ctl.geo.rate == 96000
  {
    hide Reachable, UrbFrames, UrbCount, TooShort;
    RateAsked();
    var busy := SHORT.(op := InParams);
    Step(Left(GEO_SHORT, At(TO96, SetInterface), busy), StepHolder(true), Left(GEO_SHORT, At(TO96, WriteRate), busy));
    var s := Left(Geo(96000, 64, 2), At(HwParams(0, R96, 64, 64, true), ChooseGeometry), busy);
    Step(Left(GEO_SHORT, At(TO96, WriteRate), busy), StepHolder(true), s);
  }
}
