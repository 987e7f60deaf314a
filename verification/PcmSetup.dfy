/** hw_params, hw_free, prepare and trigger as whole calls, one after the
    other: the fields they share and what every order of calls keeps.  The
    interleavings of their steps are the subject of module Session. */
module PcmSetup {
  import opened Wrappers
  import opened Arith
  import opened Geometry

  const EINVAL := -22
  const EBUSY := -16
  const ENODEV := -19
  const EPIPE := -32
  const EIO := -5

  // Whole packets of the rate, within the limits, and as many URBs as there
  // are.
  predicate GeometryOk(c: Config, rate: nat, urbFrames: nat, urbsActive: nat) {
    && 2 <= urbsActive <= c.nurbs && 0 < urbFrames <= c.framesPerUrb
    && RateOf(rate).Some? && urbFrames % RateOf(rate).value.minFpu == 0
  }

  // A substream with this period is served by the session: one URB fits its
  // period, and the queue two of them.
  predicate Served(urbFrames: nat, urbsActive: nat, period: nat) {
    && SessionPeriod(urbFrames, urbsActive) <= period
    && urbFrames <= period && urbsActive * urbFrames <= 2 * period
  }

  lemma ServedIfNotShort(urbFrames: nat, urbsActive: nat, period: nat)
    requires urbsActive >= 1 && SessionPeriod(urbFrames, urbsActive) <= period
    ensures Served(urbFrames, urbsActive, period)
  {
    AcceptedPeriodHoldsTheQueue(urbFrames, urbsActive, period, 2 * period);
  }

  lemma SessionOf(urbFrames: nat, urbsActive: nat, period: nat)
    requires Served(urbFrames, urbsActive, period)
    ensures SessionPeriod(urbFrames, urbsActive) <= period
  {
  }

  lemma NewGeometry(c: Config, r: Rate, period: nat)
    requires c.Valid() && r in RATES && UrbFrames(c, r, period) != 0 && RateOf(r.rate) == Some(r)
    ensures var urb := UrbFrames(c, r, period);
            var n := UrbCount(c, r, period, urb);
            GeometryOk(c, r.rate, urb, n) && Served(urb, n, period) && period > 0
  {
    hide UrbFrames, UrbCount, SessionPeriod, RateOf;
    UrbFramesFindsAFit(c, r, period);
    ChosenSessionFitsItsPeriod(c, r, period);
    ServedIfNotShort(UrbFrames(c, r, period), UrbCount(c, r, period, UrbFrames(c, r, period)), period);
  }

  lemma RatesAreDistinct(rate: nat)
    ensures RateOf(rate).Some? ==> RateOf(RateOf(rate).value.rate) == RateOf(rate)
  {
  }

  // ------------------------------------------------- the calls as functions

  datatype Fields = Fields(
    rate: nat, urbFrames: nat, urbsActive: nat, users: int, streaming: bool, shutdown: bool, sessionDir: Dir,
    setup: seq<bool>, owner: seq<nat>, rtRate: seq<nat>, rtPeriod: seq<nat>, running: seq<bool>)
  {
    predicate Shaped() {
      |setup| == 2 && |owner| == 2 && |rtRate| == 2 && |rtPeriod| == 2 && |running| == 2
    }

    predicate Held(d: Dir)
      requires Shaped()
    {
      setup[1 - d] && owner[1 - d] != owner[d]
    }

    predicate TooShort(period: nat) { period < SessionPeriod(urbFrames, urbsActive) }

    // The runtime of the direction matches the session.
    predicate Fits(d: Dir)
      requires Shaped()
    {
      rtRate[d] == rate && !TooShort(rtPeriod[d])
    }
  }

  // The kill and the stop of a session, if there is one.
  function Stopped(f: Fields): (s: Fields)
    ensures !s.streaming && s == f.(streaming := s.streaming, running := s.running)
    ensures !f.streaming ==> s == f
  {
    if f.streaming then f.(streaming := false, running := [false, false]) else f
  }

  function Broken(f: Fields): Fields {
    if f.shutdown then f else f.(streaming := false, running := [false, false])
  }

  function Counted(f: Fields, d: Dir): Fields
    requires f.Shaped()
  {
    if f.setup[d] then f else f.(setup := f.setup[d := true], users := f.users + 1)
  }

  // Whether a direction that holds the clock chooses the URBs of the session.
  predicate Chooses(f: Fields, d: Dir, q: Request)
    requires f.Shaped()
  {
    q.rate != f.rate || !f.setup[1 - d] || f.sessionDir == d || f.TooShort(q.period)
  }

  // A request: the rate and the period, the URB size and count they lead to.
  datatype Request = Request(rate: nat, period: nat, urb: nat, n: nat)

  // hw_params past its checks of the rate and the period: the fields, and what
  // it returns.  The runtime is not written yet.
  function ParamsCall(f: Fields, d: Dir, q: Request, ok: bool): (p: (Fields, int))
    requires f.Shaped()
    ensures p.0.Shaped() && p.1 <= 0
  {
    var changed := q.rate != f.rate;
    if f.shutdown then (f, ENODEV)
    else if changed && f.Held(d) then (f, EBUSY)
    else if changed && !ok then (Stopped(f), EIO)
    else
      var g := if changed then Stopped(f).(rate := q.rate) else f;
      if f.Held(d) then
        if f.TooShort(q.period) then (f, EBUSY) else (Counted(g, d), 0)
      else if Chooses(f, d, q) then
        var h := if q.urb != f.urbFrames || q.n != f.urbsActive
                 then Stopped(g).(urbFrames := q.urb, urbsActive := q.n) else g;
        (Counted(h.(sessionDir := d), d), 0)
      else (Counted(g, d), 0)
  }

  // All of hw_params, and the runtime that the core writes when it returns 0.
  function ParamsResult(c: Config, f: Fields, d: Dir, newRate: nat, period: nat, ok: bool): (p: (Fields, int))
    requires f.Shaped()
    ensures p.0.Shaped()
  {
    match RequestFor(c, newRate, period)
    case None => (f, EINVAL)
    case Some(q) =>
      var (g, e) := ParamsCall(f, d, q, ok);
      (if e == 0 then WithRuntime(g, d, newRate, period) else g, e)
  }

  // The rate is looked up, a URB size found and the count chosen.
  function RequestFor(c: Config, rate: nat, period: nat): Option<Request> {
    match RateOf(rate)
    case None => None
    case Some(r) =>
      PacketOfARate(r);
      var urb := UrbFrames(c, r, period);
      if urb == 0 then None else Some(Request(rate, period, urb, UrbCount(c, r, period, urb)))
  }

  function WithRuntime(f: Fields, d: Dir, rate: nat, period: nat): Fields
    requires f.Shaped()
  {
    f.(rtRate := f.rtRate[d := rate], rtPeriod := f.rtPeriod[d := period])
  }

  // hw_free and prepare
  function FreeCall(f: Fields, d: Dir): (g: Fields)
    requires f.Shaped()
    ensures g.Shaped()
  {
    if !f.setup[d] then f
    else
      f.(setup := f.setup[d := false], users := f.users - 1,
         streaming := f.streaming && f.users - 1 != 0)
  }

  function PrepareCall(f: Fields, d: Dir, ok: bool): (p: (Fields, int))
    requires f.Shaped()
    ensures p.0.Shaped()
  {
    if f.shutdown then (f, ENODEV)
    else if !f.Fits(d) then (f, EINVAL)
    else if f.streaming then (f, 0)
    else if ok then (f.(streaming := true), 0)
    else (f, EIO)
  }

  // trigger START
  function StartCall(f: Fields, d: Dir): (p: (Fields, int))
    requires f.Shaped()
    ensures p.0.Shaped()
  {
    if f.streaming && f.Fits(d) then (f.(running := f.running[d := true]), 0) else (f, EPIPE)
  }

  // The fields after probe.
  function Probed(c: Config): Fields
    requires c.Valid()
  {
    Fields(48000, c.framesPerUrb, c.nurbs, 0, false, false, 0, [false, false], [0, 0], [0, 0], [0, 0], [false, false])
  }

  class Pcm {
    const cfg: Config
    var rate: nat
    var urbFrames: nat
    var urbsActive: nat
    var users: int
    var streaming: bool
    var shutdown: bool
    var sessionDir: Dir
    var setup: seq<bool>
    var owner: seq<nat>
    // the runtimes of the substreams
    var rtRate: seq<nat>
    var rtPeriod: seq<nat>
    var running: seq<bool>
    // The direction that chose the session was told this period.
    ghost var chosen: nat

    ghost predicate Shaped()
      reads this
    {
      |setup| == 2 && |owner| == 2 && |rtRate| == 2 && |rtPeriod| == 2 && |running| == 2
    }

    ghost predicate Valid()
      reads this
    {
      && cfg.Valid() && Shaped()
      && users == (if setup[0] then 1 else 0) + (if setup[1] then 1 else 0)
      && (chosen > 0 ==> GeometryOk(cfg, rate, urbFrames, urbsActive)
                         && SessionPeriod(urbFrames, urbsActive) <= chosen)
      && (setup[0] || setup[1] ==> chosen > 0)
      && (streaming ==> setup[0] || setup[1])
      && forall d: Dir :: running[d] ==> streaming && Accepted(d)
    }

    // Set up at the rate and for the geometry of the session.
    ghost predicate Accepted(d: Dir)
      requires Shaped()
      reads this
    {
      setup[d] && rtRate[d] == rate && Served(urbFrames, urbsActive, rtPeriod[d])
    }

    function View(): Fields
      reads this
    {
      Fields(rate, urbFrames, urbsActive, users, streaming, shutdown, sessionDir, setup, owner, rtRate, rtPeriod,
             running)
    }

    constructor (cfg: Config)
      requires cfg.Valid()
      ensures Valid() && this.cfg == cfg && View() == Probed(cfg)
    {
      this.cfg := cfg;
      rate, urbFrames, urbsActive := 48000, cfg.framesPerUrb, cfg.nurbs;
      users, streaming, shutdown, sessionDir := 0, false, false, 0;
      setup, owner := [false, false], [0, 0];
      rtRate, rtPeriod, running := [0, 0], [0, 0], [false, false];
      chosen := 0;
    }

    predicate OtherHoldsClock(d: Dir)
      requires |setup| == 2 && |owner| == 2
      reads this
    {
      setup[1 - d] && owner[1 - d] != owner[d]
    }

    predicate TooShort(period: nat)
      reads this
    {
      period < SessionPeriod(urbFrames, urbsActive)
    }

    method Open(d: Dir, pid: nat)
      requires Valid() && !setup[d]
      modifies `owner
      ensures Valid() && owner == old(owner)[d := pid]
    {
      owner := owner[d := pid];
    }

    // babyface_stream_kill and babyface_pcm_stop_both
    method StopSession()
      requires Valid()
      modifies `streaming, `running
      ensures Valid() && Shaped() && View() == Stopped(old(View()))
      ensures !streaming && running == (if old(streaming) then [false, false] else old(running))
    {
      if streaming {
        streaming := false;
        running := [false, false];
      }
    }

    // babyface_stream_work, once it finds too many errors: both substreams are
    // stopped, session or not.
    method StreamWork()
      requires Valid()
      modifies `streaming, `running
      ensures Valid() && Shaped() && View() == Broken(old(View()))
      ensures !shutdown ==> !streaming && running == [false, false]
    {
      if !shutdown {
        streaming := false;
        running := [false, false];
      }
    }

    // babyface_pcm_hw_params; ok: whether usb_set_interface succeeds.  The
    // runtime is written by the core, once the call has returned 0.
    method HwParams(d: Dir, newRate: nat, period: nat, ok: bool) returns (ret: int)
      requires Valid() && !running[d]
      modifies this
      ensures Valid() && (ret == 0 ==> Accepted(d))
      ensures (View(), ret) == ParamsResult(cfg, old(View()), d, newRate, period, ok)
    {
      hide UrbFrames, UrbCount, SessionPeriod, RateOf, GeometryOk, Served, ParamsCall;
      var r := LookupRate(newRate);
      if r == None {
        return EINVAL;
      }
      RatesAreDistinct(newRate);
      PacketOfARate(r.value);
      var urb := UrbFrames(cfg, r.value, period);
      if urb == 0 {
        return EINVAL;
      }
      NewGeometry(cfg, r.value, period);
      ret := HwParamsLocked(d, Request(newRate, period, urb, UrbCount(cfg, r.value, period, urb)), ok);
    }

    // A new size needs a new session.
    method ChooseGeometry(d: Dir, q: Request)
      requires Valid() && Shaped() && !running[d] && q.period > 0
      requires GeometryOk(cfg, q.rate, q.urb, q.n) && Served(q.urb, q.n, q.period)
      requires q.rate == rate || !streaming
      modifies this
      ensures Valid() && Shaped() && Accepted(d)
      ensures var f := old(View()).(rate := q.rate);
              var g := if q.urb != f.urbFrames || q.n != f.urbsActive
                       then Stopped(f).(urbFrames := q.urb, urbsActive := q.n) else f;
              View() == WithRuntime(Counted(g.(sessionDir := d), d), d, q.rate, q.period)
    {
      hide SessionPeriod, RateOf, GeometryOk, Served, Counted, WithRuntime, Stopped, Accepted, Valid;
      if q.urb != urbFrames || q.n != urbsActive {
        StopSession();
      }
      TakeGeometry(d, q);
    }

    // The part under the mutex.
    method HwParamsLocked(d: Dir, q: Request, ok: bool) returns (ret: int)
      requires Valid() && Shaped() && !running[d] && q.period > 0
      requires GeometryOk(cfg, q.rate, q.urb, q.n) && Served(q.urb, q.n, q.period)
      modifies this
      ensures Valid() && Shaped() && (ret == 0 ==> Accepted(d))
      ensures ret == ParamsCall(old(View()), d, q, ok).1
      ensures var f := ParamsCall(old(View()), d, q, ok).0;
              View() == if ret == 0 then WithRuntime(f, d, q.rate, q.period) else f
    {
      hide SessionPeriod, RateOf, GeometryOk, Served, Counted, WithRuntime, Stopped, Accepted, Valid;
      if shutdown {
        return ENODEV;
      }
      var held := OtherHoldsClock(d);
      var changed := q.rate != rate;
      if changed {
        if held {
          return EBUSY;
        }
        StopSession();
        if !ok {
          return EIO;
        }
      }
      if held {
        if TooShort(q.period) {
          return EBUSY;
        }
        KeepGeometry(d, q.rate, q.period);
      } else if changed || !setup[1 - d] || sessionDir == d || TooShort(q.period) {
        ChooseGeometry(d, q);
      } else {
        KeepGeometry(d, q.rate, q.period);
      }
      ret := 0;
    }

    // The direction counts as a user of the session; the core writes its runtime.
    method SetUp(d: Dir, newRate: nat, period: nat)
      requires Shaped()
      modifies `setup, `users, `rtRate, `rtPeriod
      ensures View() == WithRuntime(Counted(old(View()), d), d, newRate, period)
    {
      if !setup[d] {
        setup := setup[d := true];
        users := users + 1;
      }
      rtRate := rtRate[d := newRate];
      rtPeriod := rtPeriod[d := period];
    }

    // The direction fits the session as it is.
    method KeepGeometry(d: Dir, newRate: nat, period: nat)
      requires Valid() && !running[d] && newRate == rate && setup[1 - d]
      requires SessionPeriod(urbFrames, urbsActive) <= period
      modifies `setup, `users, `rtRate, `rtPeriod
      ensures Valid() && Shaped() && Accepted(d) && View() == WithRuntime(Counted(old(View()), d), d, newRate, period)
    {
      hide SessionPeriod, RateOf;
      ServedIfNotShort(urbFrames, urbsActive, period);
      SetUp(d, newRate, period);
      assert Accepted(d);
    }

    // The direction chooses the session.
    method TakeGeometry(d: Dir, q: Request)
      requires Valid() && !running[d] && q.period > 0
      requires GeometryOk(cfg, q.rate, q.urb, q.n) && Served(q.urb, q.n, q.period)
      requires (q.rate == rate && q.urb == urbFrames && q.n == urbsActive) || !streaming
      modifies this
      ensures Valid() && Shaped() && Accepted(d)
      ensures View() == WithRuntime(Counted(old(View()).(rate := q.rate, urbFrames := q.urb, urbsActive := q.n,
                                                         sessionDir := d), d), d, q.rate, q.period)
    {
      hide SessionPeriod, RateOf, GeometryOk, Served;
      SessionOf(q.urb, q.n, q.period);
      rate, urbFrames, urbsActive, sessionDir := q.rate, q.urb, q.n, d;
      chosen := q.period;
      SetUp(d, q.rate, q.period);
      assert Accepted(d);
    }

    // babyface_pcm_hw_free
    method HwFree(d: Dir)
      requires Valid() && !running[d]
      modifies this
      ensures Valid() && View() == FreeCall(old(View()), d)
      ensures setup == old(setup)[d := false] && users == old(users) - (if old(setup)[d] then 1 else 0)
      ensures streaming <==> old(streaming) && setup[1 - d]
      ensures !old(setup)[d] ==> streaming == old(streaming)
      ensures running == old(running) && owner == old(owner) && rate == old(rate) && urbFrames == old(urbFrames)
    {
      hide SessionPeriod, RateOf, GeometryOk, Served;
      if setup[d] {
        setup := setup[d := false];
        users := users - 1;
        if users == 0 && streaming {
          streaming := false;
        }
      }
    }

    // babyface_pcm_prepare; ok: whether the session starts.
    method Prepare(d: Dir, ok: bool) returns (ret: int)
      requires Valid() && setup[d] && !running[d]
      modifies `streaming
      ensures Valid() && (View(), ret) == PrepareCall(old(View()), d, ok)
      ensures ret == 0 ==> streaming && Accepted(d)
      ensures ret == EINVAL <==> !shutdown && !Accepted(d)
      ensures ret != 0 ==> streaming == old(streaming)
      ensures ret == EIO <==> !shutdown && Accepted(d) && !streaming && !ok
    {
      hide SessionPeriod, RateOf;
      if shutdown {
        return ENODEV;
      }
      if rtRate[d] != rate || TooShort(rtPeriod[d]) {
        return EINVAL;
      }
      ServedIfNotShort(urbFrames, urbsActive, rtPeriod[d]);
      if !streaming {
        if !ok {
          return EIO;
        }
        streaming := true;
      }
      ret := 0;
    }

    // The part of babyface_disconnect that takes the session down.
    method Disconnect()
      requires Valid()
      modifies `shutdown, `streaming, `running
      ensures Valid() && shutdown && !streaming && running == [false, false]
    {
      hide SessionPeriod, RateOf, GeometryOk, Served;
      shutdown := true;
      streaming := false;
      running := [false, false];
    }

    // trigger START and STOP
    method Start(d: Dir) returns (ret: int)
      requires Valid() && setup[d] && !running[d]
      modifies `running
      ensures Valid() && ret in {0, EPIPE}
      ensures (View(), ret) == StartCall(old(View()), d)
      ensures ret == 0 <==> streaming && Accepted(d)
    {
      hide SessionPeriod, RateOf;
      if !streaming || rtRate[d] != rate || TooShort(rtPeriod[d]) {
        return EPIPE;
      }
      ServedIfNotShort(urbFrames, urbsActive, rtPeriod[d]);
      running := running[d := true];
      ret := 0;
    }

    method Stop(d: Dir)
      requires Valid()
      modifies `running
      ensures Valid() && running == old(running)[d := false]
    {
      running := running[d := false];
    }
  }

  // What hw_params answers, and what it leaves alone when it refuses.
  lemma WhenHwParamsRefuses(f: Fields, d: Dir, q: Request, ok: bool)
    requires f.Shaped()
    ensures var (g, ret) := ParamsCall(f, d, q, ok);
            var held := f.setup[1 - d] && f.owner[1 - d] != f.owner[d];
            && (ret == ENODEV <==> f.shutdown)
            && (ret == EBUSY <==>
                  !f.shutdown && held && (q.rate != f.rate || q.period < SessionPeriod(f.urbFrames, f.urbsActive)))
            && (ret == EIO <==> !f.shutdown && !held && q.rate != f.rate && !ok)
            && (ret in {0, ENODEV, EBUSY, EIO})
            && (ret != 0 ==> g == f || (ret == EIO && f.streaming
                                        && g == f.(streaming := false, running := [false, false])))
  {
    hide SessionPeriod;
  }

  // What it does when it accepts: who chooses the URBs, and that a direction that
  // does not choose changes nothing but being counted.
  lemma WhatHwParamsDoes(f: Fields, d: Dir, q: Request, ok: bool)
    requires f.Shaped() && ParamsCall(f, d, q, ok).1 == 0
    ensures var g := ParamsCall(f, d, q, ok).0;
            var held, short := f.setup[1 - d] && f.owner[1 - d] != f.owner[d],
                               q.period < SessionPeriod(f.urbFrames, f.urbsActive);
            && g.rate == q.rate && g.setup == f.setup[d := true] && g.owner == f.owner
            && g.users == f.users + (if f.setup[d] then 0 else 1)
            && (if held || (q.rate == f.rate && f.setup[1 - d] && f.sessionDir != d && !short)
                then g == f.(setup := g.setup, users := g.users) && !short
                else g.sessionDir == d && g.urbFrames == q.urb && g.urbsActive == q.n)
  {
    hide SessionPeriod, Counted;
    CountedIs(f, d);
    var g := if q.rate != f.rate then Stopped(f).(rate := q.rate) else f;
    CountedIs(g, d);
    CountedIs((if q.urb != f.urbFrames || q.n != f.urbsActive
               then Stopped(g).(urbFrames := q.urb, urbsActive := q.n) else g).(sessionDir := d), d);
  }

  lemma CountedIs(f: Fields, d: Dir)
    requires f.Shaped()
    ensures Counted(f, d) == f.(setup := f.setup[d := true], users := f.users + (if f.setup[d] then 0 else 1))
  {
    if f.setup[d] {
      assert f.setup[d := true] == f.setup;
    }
  }

  // A session of another shape never stays.
  lemma NoSessionOfAnotherShape(f: Fields, d: Dir, q: Request, ok: bool)
    requires f.Shaped()
    ensures var g := ParamsCall(f, d, q, ok).0;
            (g.rate, g.urbFrames, g.urbsActive) != (f.rate, f.urbFrames, f.urbsActive) ==> !g.streaming
  {
    hide SessionPeriod;
  }

  // hw_params of one direction never disturbs the session of another process.
  lemma AnotherProcessIsLeftAlone(f: Fields, d: Dir, q: Request, ok: bool)
    requires f.Shaped() && f.setup[1 - d] && f.owner[1 - d] != f.owner[d]
    ensures var (g, ret) := ParamsCall(f, d, q, ok);
            && g.rate == f.rate && g.urbFrames == f.urbFrames && g.urbsActive == f.urbsActive
            && g.streaming == f.streaming && g.running == f.running && g.setup[1 - d]
  {
    hide SessionPeriod;
  }

  // hw_free of the last user ends the session, and of no other.  Nothing else
  // of the fields changes but the direction's own setup and the count.
  lemma TheLastUserEndsTheSession(f: Fields, d: Dir)
    requires f.Shaped() && f.users == (if f.setup[0] then 1 else 0) + (if f.setup[1] then 1 else 0)
    ensures var g := FreeCall(f, d);
            && !g.setup[d] && g.setup[1 - d] == f.setup[1 - d]
            && g.users == (if f.setup[1 - d] then 1 else 0)
            && (g.streaming <==> f.streaming && (f.setup[1 - d] || !f.setup[d]))
            && g == f.(setup := g.setup, users := g.users, streaming := g.streaming)
  {
    if d == 0 {} else {}
  }

  // A substream that runs without a session - one that a start which failed
  // after setting streaming left behind - outlives hw_params of the other
  // direction, and no longer fits what that sets up, if and only if no session
  // has been started since, the card is there, no other process holds the
  // clock and either the rate changes or URBs too long for it are chosen.
  lemma LeftBehindLosesTheSession(f: Fields, d: Dir, q: Request, ok: bool)
    requires f.Shaped() && f.running[1 - d] && f.Fits(1 - d)
    ensures var g := ParamsCall(f, d, q, ok).0;
            && (g.running[1 - d] && !g.Fits(1 - d) <==>
                  && !f.streaming && !f.shutdown && !f.Held(d)
                  && if q.rate != f.rate then ok
                     else Chooses(f, d, q) && f.rtPeriod[1 - d] < SessionPeriod(q.urb, q.n))
            && (g.running[1 - d] && g.rate != f.rate <==>
                  !f.streaming && !f.shutdown && !f.Held(d) && q.rate != f.rate && ok)
            && (!g.running[1 - d] ==> f.streaming && !g.streaming)
  {
    hide SessionPeriod;
  }

  lemma ParamsKeepTheRuntimes(f: Fields, d: Dir, q: Request, ok: bool)
    requires f.Shaped()
    ensures var (g, ret) := ParamsCall(f, d, q, ok);
            && g.rtRate == f.rtRate && g.rtPeriod == f.rtPeriod
            && (!f.shutdown && !f.Held(d) ==> (ret == 0 <==> q.rate == f.rate || ok))
  {
    hide SessionPeriod;
  }

  // ------------------------------------------------------------------- runs

  datatype Call =
    | Opens(d: Dir, pid: nat)
    | SetsUp(d: Dir, rate: nat, period: nat, ok: bool)
    | Frees(d: Dir)
    | Prepares(d: Dir, ok: bool)
    | Starts(d: Dir)
    | Stops(d: Dir)
    | Breaks   // stream_work
    | Unplugs

  // The core makes the call.
  predicate Made(f: Fields, call: Call)
    requires f.Shaped()
  {
    match call
    case Opens(d, _) => !f.setup[d]
    case SetsUp(d, _, _, _) => !f.running[d]
    case Frees(d) => !f.running[d]
    case Prepares(d, _) => f.setup[d] && !f.running[d]
    case Starts(d) => f.setup[d] && !f.running[d]
    case _ => true
  }

  function AfterCall(c: Config, f: Fields, call: Call): (g: Fields)
    requires f.Shaped()
    ensures g.Shaped()
  {
    if !Made(f, call) then f
    else
      match call
      case Opens(d, pid) => f.(owner := f.owner[d := pid])
      case SetsUp(d, rate, period, ok) => ParamsResult(c, f, d, rate, period, ok).0
      case Frees(d) => FreeCall(f, d)
      case Prepares(d, ok) => PrepareCall(f, d, ok).0
      case Starts(d) => StartCall(f, d).0
      case Stops(d) => f.(running := f.running[d := false])
      case Breaks => Broken(f)
      case Unplugs => f.(shutdown := true, streaming := false, running := [false, false])
  }

  function AfterCalls(c: Config, f: Fields, calls: seq<Call>): (g: Fields)
    requires f.Shaped()
    ensures g.Shaped()
  {
    if calls == [] then f else AfterCall(c, AfterCalls(c, f, calls[..|calls| - 1]), calls[|calls| - 1])
  }

  method MakeCall(p: Pcm, call: Call)
    requires p.Valid() && p.View().Shaped()
    modifies p
    ensures p.Valid() && p.View() == AfterCall(p.cfg, old(p.View()), call)
  {
    hide Pcm.Valid, ParamsResult, FreeCall, PrepareCall, StartCall, Broken;
    if !Made(p.View(), call) {
      return;
    }
    match call
    case Opens(d, pid) => p.Open(d, pid);
    case SetsUp(d, rate, period, ok) => var _ := p.HwParams(d, rate, period, ok);
    case Frees(d) => p.HwFree(d);
    case Prepares(d, ok) => var _ := p.Prepare(d, ok);
    case Starts(d) => var _ := p.Start(d);
    case Stops(d) => p.Stop(d);
    case Breaks => p.StreamWork();
    case Unplugs => p.Disconnect();
  }

  // Any run of whole calls from probe on: a running substream has a session at
  // its own rate, one URB fits its period and the queue two of them, and who
  // is counted is who is set up.
  method AnyCalls(cfg: Config, calls: seq<Call>) returns (p: Pcm)
    requires cfg.Valid()
    ensures fresh(p) && p.Valid() && p.View() == AfterCalls(cfg, Probed(cfg), calls)
    ensures forall d: Dir :: p.running[d] ==> p.streaming && p.Accepted(d)
    ensures p.users == |set d: Dir | p.setup[d]|
    ensures p.streaming ==> p.setup[0] || p.setup[1]
  {
    hide GeometryOk, Served, SessionPeriod, AfterCall, RateOf;
    p := new Pcm(cfg);
    var i := 0;
    while i < |calls|
      invariant 0 <= i <= |calls| && p.Valid() && p.cfg == cfg
      invariant p.View() == AfterCalls(cfg, Probed(cfg), calls[..i])
    {
      assert calls[..i + 1][..i] == calls[..i];
      MakeCall(p, calls[i]);
      i := i + 1;
    }
    assert calls[..i] == calls;
    assert (set d: Dir | p.setup[d]) == (if p.setup[0] then {0} else {}) + (if p.setup[1] then {1} else {});
  }
}
