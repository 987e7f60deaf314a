/** Any run of the mixer's operations, from a resume on. */
module MixerRuns {
  import opened Arith
  import opened MasterCurve
  import opened MixerMap
  import opened MixerState
  import opened Mixer
  import Fader
  import Wheel = OutWheel

  // One operation, all of whose writes reach the device.
  datatype Op =
    | SetMaster(out: nat, l: int, r: int)
    | SetMute(out: nat, on: bool)
    | SetDim(on: bool)
    | TurnBalance(out: nat, delta: int)
    | TurnOut(out: nat, turn: Wheel.Turn, firmware: Pair)
    | Rest
    | SetPoint(out: nat, src: nat, l: int, r: int)
    | TurnMix(out: nat, panelIn: int, select: int, delta: int, display: int)
    | TurnGain(mic: nat, delta: int, raw: int)
    | Suspend(contents: Registers)
  {
    predicate Valid() {
      match this
      case SetMaster(out, _, _) => out < OUTS
      case SetMute(out, _) => out < OUTS
      case TurnBalance(out, _) => out < OUTS
      case TurnOut(out, _, _) => out < OUTS
      case SetPoint(out, src, _, _) => out < OUTS && src < SOURCES
      case TurnMix(out, _, select, _, _) => out < OUTS && 0 <= select <= 3
      case TurnGain(mic, _, _) => mic < 4
      case _ => true
    }
  }

  // The registers that stay known: all but the 8-bit masters of some outputs.
  predicate Kept(r: Reg, doubt: set<nat>) {
    r.Real() && (r.Master8? ==> r.out !in doubt)
  }

  ghost predicate AllKept(loose: iset<Reg>, doubt: set<nat>) {
    forall r: Reg :: Kept(r, doubt) ==> r !in loose
  }

  // What the host keeps of the mixer and its wheels.
  datatype Host = Host(cache: Cache, last: seq<Pair>, hdb: seq<Wheel.Db>, wheelOut: nat, resync: bool, mixDb2: int)
  {
    predicate Shaped() { cache.Shaped() && |last| == OUTS && |hdb| == OUTS && wheelOut < OUTS }

    function WithMaster(out: nat, p: Pair): (h: Host)
      requires Shaped() && out < OUTS
      ensures h.Shaped()
    {
      this.(cache := cache.(master := cache.master[out := p]))
    }

    // The host after an operation.
    function After(op: Op): (h: Host)
      requires Shaped() && op.Valid()
      ensures h.Shaped()
    {
      match op
      case SetMaster(out, l, r) => if StepPair(Pair(l, r)) then WithMaster(out, Pair(l, r)) else this
      case SetMute(out, on) => this.(cache := cache.(muted := cache.muted[out := !on]))
      case SetDim(on) => this.(cache := cache.(dim := on))
      case TurnBalance(out, delta) =>
        if cache.muted[out] || cache.master[out] == Pair(0, 0) then this
        else WithMaster(out, PairOf(Wheel.Balanced(StepsOf(cache.master[out]), delta)))
      case TurnOut(out, turn, _) =>
        if cache.muted[out] then this
        else
          var t := Wheel.AfterTurn(TrackedOf(cache.master[out], last[out], hdb[out]), turn);
          WithMaster(out, PairOf(t.master)).(last := last[out := PairOf(t.last)], hdb := hdb[out := t.hdb],
                                             wheelOut := out, resync := true)
      case Rest => this.(resync := false)
      case SetPoint(out, src, l, r) =>
        if FaderPair(Pair(l, r)) then this.(cache := cache.(xpoint := WithPoint(cache.xpoint, out, src, Pair(l, r))))
        else this
      case TurnMix(out, panelIn, select, delta, _) =>
        var db2 := Clamp(mixDb2 + delta, Fader.DB2_INF, 12);
        var xpoint := Spread(cache.xpoint, out, Targets(panelIn, select), Fader.Db2ToRaw(db2));
        this.(mixDb2 := db2, cache := cache.(xpoint := xpoint))
      case TurnGain(_, _, _) => this
      case Suspend(_) => this.(last := seq(OUTS, i => NO_STEPS))
    }

    // The wheel at rest writes the master it last turned again.
    predicate Resyncs()
      requires Shaped()
    {
      && resync && !cache.muted[wheelOut] && cache.master[wheelOut] == last[wheelOut]
      && hdb[wheelOut].l >= -128 && hdb[wheelOut].r >= -128
    }

    // The outputs whose 8-bit masters are in doubt after an operation: the
    // firmware moves the one whose wheel is turned, the panel's gain registers
    // lie on those of outputs 3 and 4, and what writes the pair again ends it.
    function Doubt(doubt: set<nat>, op: Op): set<nat>
      requires Shaped() && op.Valid()
    {
      match op
      case SetMaster(out, l, r) =>
        if StepPair(Pair(l, r)) && Pair(l, r) != cache.master[out] then doubt - {out} else doubt
      case SetMute(out, on) => if cache.muted[out] == on then doubt - {out} else doubt
      case SetDim(on) => if cache.dim != on then doubt - {1} else doubt
      case TurnBalance(out, _) =>
        if cache.muted[out] || cache.master[out] != Pair(0, 0) then doubt - {out} else doubt
      case TurnOut(out, _, _) => if cache.muted[out] then doubt - {out} else doubt + {out}
      case Rest => if Resyncs() then doubt - {wheelOut} else doubt
      case SetPoint(_, _, _, _) => doubt
      case TurnMix(_, _, _, _, _) => doubt + {3, 4}
      case TurnGain(mic, _, _) => doubt + {PanelReg(mic).out}
      case Suspend(_) => {}
    }
  }

  function HostOf(m: Mixer): Host
    reads m
  {
    Host(m.View(), m.last, m.hdb, m.wheelOut, m.resync, m.mixDb2)
  }

  function AfterAll(h: Host, ops: seq<Op>): (h': Host)
    requires h.Shaped() && forall i :: 0 <= i < |ops| ==> ops[i].Valid()
    ensures h'.Shaped()
  {
    if ops == [] then h else AfterAll(h, ops[..|ops| - 1]).After(ops[|ops| - 1])
  }

  const TWO_OK := [true, true]
  const FOUR_OK := [true, true, true, true]
  const SIX_OK := [true, true, true, true, true, true]

  method Perform(m: Mixer, op: Op, ghost doubt: set<nat>)
    requires m.Valid() && op.Valid() && AllKept(m.loose, doubt)
    modifies m
    ensures m.Valid() && AllKept(m.loose, old(HostOf(m)).Doubt(doubt, op))
    ensures HostOf(m) == old(HostOf(m)).After(op)
  {
    hide Mixer.Valid, Host.After, Host.Doubt, AllKept;
    match op
    case TurnOut(out, turn, firmware) => PerformTurn(m, out, turn, firmware, doubt);
    case SetPoint(_, _, _, _) => PerformPoint(m, op, doubt);
    case TurnMix(_, _, _, _, _) => PerformPoint(m, op, doubt);
    case SetMaster(_, _, _) => PerformMaster(m, op, doubt);
    case TurnBalance(_, _) => PerformMaster(m, op, doubt);
    case SetMute(_, _) => PerformSwitch(m, op, doubt);
    case SetDim(_) => PerformSwitch(m, op, doubt);
    case _ => PerformOther(m, op, doubt);
  }

  method PerformPoint(m: Mixer, op: Op, ghost doubt: set<nat>)
    requires m.Valid() && op.Valid() && AllKept(m.loose, doubt) && (op.SetPoint? || op.TurnMix?)
    modifies m
    ensures m.Valid() && AllKept(m.loose, old(HostOf(m)).Doubt(doubt, op))
    ensures HostOf(m) == old(HostOf(m)).After(op)
  {
    hide Want, Matches, Cache.InRange, PointsOf;
    match op
    case SetPoint(out, src, l, r) =>
      var ret := m.XpointPut(out, src, l, r, 2);
      if ret == 0 {
        assert m.xpoint[out] == m.xpoint[out][src := Pair(l, r)];
        assert m.xpoint == WithPoint(m.xpoint, out, src, Pair(l, r));
      }
    case TurnMix(out, panelIn, select, delta, display) =>
      m.MixWheel(out, panelIn, select, delta, display, SIX_OK);
  }

  method PerformMaster(m: Mixer, op: Op, ghost doubt: set<nat>)
    requires m.Valid() && op.Valid() && AllKept(m.loose, doubt) && (op.SetMaster? || op.TurnBalance?)
    modifies m
    ensures m.Valid() && AllKept(m.loose, old(HostOf(m)).Doubt(doubt, op))
    ensures HostOf(m) == old(HostOf(m)).After(op)
  {
    hide Want, Matches, Cache.InRange, RegsOf, Regs8, Regs16, Wheel.Balanced, AllKept;
    Mended(m.loose, doubt, op.out);
    match op
    case SetMaster(out, l, r) => var _ := m.MasterPut(out, l, r, 4);
    case TurnBalance(out, delta) => m.BalanceWheel(out, delta, FOUR_OK);
  }

  method PerformSwitch(m: Mixer, op: Op, ghost doubt: set<nat>)
    requires m.Valid() && op.Valid() && AllKept(m.loose, doubt) && (op.SetMute? || op.SetDim?)
    modifies m
    ensures m.Valid() && AllKept(m.loose, old(HostOf(m)).Doubt(doubt, op))
    ensures HostOf(m) == old(HostOf(m)).After(op)
  {
    hide Want, Matches, Cache.InRange, RegsOf, AllKept;
    match op
    case SetMute(out, on) =>
      Mended(m.loose, doubt, out);
      var _ := m.MutePut(out, on, 4);
    case SetDim(on) =>
      Mended(m.loose, doubt, 1);
      var _ := m.DimPut(on, 5);
  }

  method PerformOther(m: Mixer, op: Op, ghost doubt: set<nat>)
    requires m.Valid() && op.Valid() && AllKept(m.loose, doubt) && (op.Rest? || op.TurnGain? || op.Suspend?)
    modifies m
    ensures m.Valid() && AllKept(m.loose, old(HostOf(m)).Doubt(doubt, op))
    ensures HostOf(m) == old(HostOf(m)).After(op)
  {
    hide Want, Matches, Cache.InRange, RegsOf, AllKept;
    match op
    case Rest => PerformRest(m, doubt);
    case TurnGain(mic, delta, raw) =>
      GainDoubt(m.loose, doubt, mic);
      m.GainClick(mic, delta, raw, true);
    case Suspend(contents) =>
      var _ := m.Resume(contents, ReplayWrites(m.dim));
      m.PanelStart();
      AllKnown(m.loose);
  }

  lemma AllKnown(loose: iset<Reg>)
    requires forall r: Reg :: r.Real() ==> r !in loose
    ensures AllKept(loose, {})
  {
  }

  lemma GainDoubt(loose: iset<Reg>, doubt: set<nat>, mic: nat)
    requires AllKept(loose, doubt)
    ensures AllKept(loose + iset{PanelReg(mic)}, doubt + {PanelReg(mic).out})
  {
  }

  method PerformRest(m: Mixer, ghost doubt: set<nat>)
    requires m.Valid() && AllKept(m.loose, doubt)
    modifies m
    ensures m.Valid() && AllKept(m.loose, old(HostOf(m)).Doubt(doubt, Rest))
    ensures HostOf(m) == old(HostOf(m)).After(Rest)
  {
    hide Want, Matches, Cache.InRange, RegsOf, AllKept;
    Mended(m.loose, doubt, m.wheelOut);
    m.Resync(true, FOUR_OK);
  }

  // Writing an output's masters ends the doubt about its 8-bit pair.
  lemma Mended(loose: iset<Reg>, doubt: set<nat>, out: nat)
    requires AllKept(loose, doubt)
    ensures AllKept(loose - RegsOf(out), doubt - {out}) && AllKept(loose - Regs8(out), doubt - {out})
    ensures AllKept((loose + Regs8(out)) - Regs8(out), doubt - {out})
    ensures AllKept((loose + Regs8(out)) + Regs8(out) - Regs16(out), doubt + {out})
  {
    forall r: Reg | r.Master8? && r.out == out ensures r in Regs8(out) {
      assert r == Master8(out, r.side);
      match r.side
      case Left =>
      case Right =>
    }
  }

  method PerformTurn(m: Mixer, out: nat, turn: Wheel.Turn, firmware: Pair, ghost doubt: set<nat>)
    requires m.Valid() && out < OUTS && AllKept(m.loose, doubt)
    modifies m
    ensures m.Valid() && AllKept(m.loose, old(HostOf(m)).Doubt(doubt, TurnOut(out, turn, firmware)))
    ensures HostOf(m) == old(HostOf(m)).After(TurnOut(out, turn, firmware))
  {
    hide Want, Matches, Cache.InRange, WheelSound, RegsOf, Regs8, Regs16, PointsOf, Wheel.AfterTurn, TrackedOf,
      AllKept;
    WheelShaped(m.master, m.last, m.hdb);
    ghost var h := HostOf(m);
    Mended(m.loose, doubt, out);
    m.Firmware(out, firmware);
    m.OutWheel(out, turn, TWO_OK);
    WheelShaped(m.master, m.last, m.hdb);
    ghost var h' := HostOf(m);
    forall o | 0 <= o < OUTS && !h.cache.muted[out]
      ensures var t := TrackedOf(h.cache.master[o], h.last[o], h.hdb[o]);
              TrackedOf(h'.cache.master[o], h'.last[o], h'.hdb[o]) == if o == out then Wheel.AfterTurn(t, turn) else t
    {
      assert m.Tracked(o) == if o == out then Wheel.AfterTurn(old(m.Tracked(o)), turn) else old(m.Tracked(o));
    }
    SameHost(h', h, out, turn, firmware);
  }

  // What is tracked of every output says what the host keeps of it.
  lemma SameHost(h': Host, h: Host, out: nat, turn: Wheel.Turn, firmware: Pair)
    requires h.Shaped() && h'.Shaped() && out < OUTS
    requires h'.cache.(master := h.cache.master) == h.cache && h'.mixDb2 == h.mixDb2
    requires h.cache.muted[out] ==> h'.(mixDb2 := h.mixDb2) == h
    requires !h.cache.muted[out] ==> h'.wheelOut == out && h'.resync
    requires !h.cache.muted[out] ==>
               forall o :: 0 <= o < OUTS ==>
                 var t := TrackedOf(h.cache.master[o], h.last[o], h.hdb[o]);
                 TrackedOf(h'.cache.master[o], h'.last[o], h'.hdb[o])
                 == if o == out then Wheel.AfterTurn(t, turn) else t
    ensures h' == h.After(TurnOut(out, turn, firmware))
  {
    hide Wheel.AfterTurn;
    var e := h.After(TurnOut(out, turn, firmware));
    if !h.cache.muted[out] {
      forall o | 0 <= o < OUTS
        ensures h'.cache.master[o] == e.cache.master[o] && h'.last[o] == e.last[o] && h'.hdb[o] == e.hdb[o]
      {
      }
      assert h'.cache.master == e.cache.master && h'.last == e.last && h'.hdb == e.hdb;
    }
  }

  function DoubtAfter(h: Host, ops: seq<Op>): set<nat>
    requires h.Shaped() && forall i :: 0 <= i < |ops| ==> ops[i].Valid()
  {
    if ops == [] then {}
    else
      var n := |ops| - 1;
      AfterAll(h, ops[..n]).Doubt(DoubtAfter(h, ops[..n]), ops[n])
  }

  // After a resume from any contents and any run of operations: every 16-bit
  // master, every crosspoint and every cross register has the value the cache
  // means, and so has every 8-bit master of an output that nothing has put in
  // doubt since it was last written.
  method AnyRun(m: Mixer, contents: Registers, ops: seq<Op>)
    requires m.Valid() && forall i :: 0 <= i < |ops| ==> ops[i].Valid()
    modifies m
    ensures m.Valid()
    ensures old(HostOf(m)).Shaped()
    ensures HostOf(m) == AfterAll(old(HostOf(m)).After(Suspend(contents)), ops)
    ensures forall r: Reg :: Kept(r, DoubtAfter(old(HostOf(m)).After(Suspend(contents)), ops)) ==>
                               Addr(r) in m.regs && m.regs[Addr(r)] == Want(m.View(), r)
  {
    assert HostOf(m).Shaped();
    hide Want, Cache.InRange, WheelSound;
    ghost var h := HostOf(m).After(Suspend(contents));
    var _ := m.Resume(contents, ReplayWrites(m.dim));
    m.PanelStart();
    AllKnown(m.loose);
    var i := 0;
    while i < |ops|
      invariant 0 <= i <= |ops| && m.Valid()
      invariant AllKept(m.loose, DoubtAfter(h, ops[..i])) && HostOf(m) == AfterAll(h, ops[..i])
    {
      assert ops[..i + 1][..i] == ops[..i];
      Perform(m, ops[i], DoubtAfter(h, ops[..i]));
      i := i + 1;
    }
    assert ops[..i] == ops;
  }
}
