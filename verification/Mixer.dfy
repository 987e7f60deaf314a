/** The mixer: the cache the host keeps and the registers of the device, which
    has no readback.  loose names the registers whose content the cache does
    not determine: a failed write left them in between, the firmware moved
    them, or the front panel's gain registers lie on them. */
module Mixer {
  import opened Wrappers
  import opened Arith
  import opened MasterCurve
  import opened MixerMap
  import opened MixerState
  import Fader
  import Wheel = OutWheel

  const EINVAL := -22
  const EIO := -5
  const REQ_PREAMP := 0x17

  function TrackedOf(master: Pair, last: Pair, hdb: Wheel.Db): Wheel.Tracked {
    Wheel.Tracked(Wheel.Steps(master.l, master.r), Wheel.Steps(last.l, last.r), hdb)
  }

  // Every value of the cache is one its control accepts.
  predicate Sound(c: Cache) { c.Shaped() && c.InRange() }

  // What the OUT wheel keeps fits the masters.
  predicate WheelSound(master: seq<Pair>, last: seq<Pair>, hdb: seq<Wheel.Db>) {
    && |master| == OUTS && |last| == OUTS && |hdb| == OUTS
    && forall out :: 0 <= out < OUTS ==> TrackedOf(master[out], last[out], hdb[out]).Valid()
  }

  const NO_STEPS := Pair(Wheel.NO_STEP, Wheel.NO_STEP)

  // No master is 0xffff: nothing is tracked.
  lemma Untracked(master: seq<Pair>, last: seq<Pair>, hdb: seq<Wheel.Db>)
    requires |master| == OUTS && |last| == OUTS && |hdb| == OUTS
    requires forall out :: 0 <= out < OUTS ==> StepPair(master[out]) && last[out] == NO_STEPS
    ensures WheelSound(master, last, hdb)
  {
  }

  lemma NewMaster(c: Cache, last: seq<Pair>, hdb: seq<Wheel.Db>, out: nat, p: Pair)
    requires Sound(c) && WheelSound(c.master, last, hdb) && out < OUTS && StepPair(p)
    ensures Sound(c.(master := c.master[out := p]))
    ensures WheelSound(c.master[out := p], last, hdb)
  {
  }

  lemma NewMute(c: Cache, out: nat, mute: bool, dim: bool)
    requires Sound(c) && out < OUTS
    ensures Sound(c.(muted := c.muted[out := mute])) && Sound(c.(dim := dim))
  {
  }

  class Mixer {
    var master: seq<Pair>
    var muted: seq<bool>
    var dim: bool
    var dimSaved: Pair
    var xpoint: seq<seq<Pair>>
    var flagCnt: nat
    // the OUT wheel
    var last: seq<Pair>
    var hdb: seq<Wheel.Db>
    var wheelOut: nat
    var resync: bool
    // the other wheels
    var gain: seq<int>
    var mixDb2: int
    var mixDisp: seq<int>
    // the device
    var regs: Registers
    ghost var loose: iset<Reg>

    function View(): Cache
      reads `master, `muted, `dim, `xpoint
    {
      Cache(master, muted, dim, xpoint)
    }

    function Tracked(out: nat): Wheel.Tracked
      requires out < |master| && out < |last| && out < |hdb|
      reads `master, `last, `hdb
    {
      TrackedOf(master[out], last[out], hdb[out])
    }

    ghost predicate Valid()
      reads this
    {
      && Sound(View()) && flagCnt < 4
      && WheelSound(master, last, hdb) && wheelOut < OUTS
      && |gain| == 4 && |mixDisp| == 4
      && (dim ==> dimSaved == master[1])
      && Matches(regs, View(), loose)
    }

    // A device with any contents, and a cache of values the controls accept.
    constructor (c: Cache, contents: Registers)
      requires Sound(c)
      ensures Valid() && View() == c && regs == contents && loose == iset r: Reg | r.Real()
    {
      master, muted, dim, xpoint := c.master, c.muted, c.dim, c.xpoint;
      dimSaved := c.master[1];
      flagCnt, wheelOut, resync, mixDb2 := 0, 0, false, 0;
      last := seq(OUTS, i => NO_STEPS);
      hdb := seq(OUTS, i => Wheel.Db(0, 0));
      gain, mixDisp := [0, 0, 0, 0], [0, 0, 0, 0];
      regs := contents;
      loose := iset r: Reg | r.Real();
      new;
      Untracked(master, last, hdb);
    }

    // The wheel's part of babyface_panel_start: it starts from the masters.
    method PanelStart()
      requires Valid()
      modifies `last
      ensures Valid() && last == seq(OUTS, i => NO_STEPS)
    {
      hide Want, Matches, Cache.InRange;
      last := seq(OUTS, i => NO_STEPS);
      Untracked(master, last, hdb);
    }

    // A vendor write; the device drops the flag from the index.
    method VendorWrite(req: nat, value: int, wire: nat, ok: bool) returns (sent: bool)
      modifies `regs
      ensures sent == ok
      ensures regs == if ok then old(regs)[Address(req, Unflagged(wire)) := value] else old(regs)
    {
      if ok {
        regs := regs[Address(req, Unflagged(wire)) := value];
      }
      sent := ok;
    }

    method NextFlag() returns (count: nat)
      requires flagCnt < 4
      modifies `flagCnt
      ensures count == old(flagCnt) && count < 4 && flagCnt < 4
    {
      count := flagCnt;
      flagCnt := (flagCnt + 1) % 4;
    }

    // One register, with the flag of count or (count 3) none.
    method Send(w: Write, count: nat, ok: bool) returns (sent: bool)
      requires w.reg.Real() && count < 4
      modifies `regs
      ensures sent == ok
      ensures regs == if ok then old(regs)[Addr(w.reg) := w.value] else old(regs)
    {
      AddressesAreDistinct(w.reg);
      FlagIsSeparate(Addr(w.reg).idx, count);
      sent := VendorWrite(Addr(w.reg).req, w.value, OnWire(Addr(w.reg).idx, count), ok);
    }

    // The two 8-bit writes, then the two 16-bit ones with the flag; good: how
    // many succeed before one fails.
    method SendMasters(out: nat, mute: bool, dimmed: bool, p: Pair, good: nat) returns (ok: bool)
      requires out < OUTS && flagCnt < 4
      modifies `regs, `flagCnt
      ensures flagCnt < 4 && ok == (good >= 4)
      ensures regs == Apply(old(regs), MasterWrites(out, mute, dimmed, p)[..Min(good, 4)])
    {
      hide OutReg8, OutReg16, Addr;
      var count := NextFlag();
      ghost var w := MasterWrites(out, mute, dimmed, p);
      assert w[..0] == [];
      ok := Send(Write(Master8(out, Left), OutReg8(mute, dimmed, p.l)), 3, good > 0);
      if !ok {
        return;
      }
      ApplyNext(old(regs), w, 0);
      ok := Send(Write(Master8(out, Right), OutReg8(mute, dimmed, p.r)), 3, good > 1);
      if !ok {
        return;
      }
      ApplyNext(old(regs), w, 1);
      ok := Send(Write(Master16(out, Left), OutReg16(mute, dimmed, p.l)), count, good > 2);
      if !ok {
        return;
      }
      ApplyNext(old(regs), w, 2);
      ok := Send(Write(Master16(out, Right), OutReg16(mute, dimmed, p.r)), count, good > 3);
      if !ok {
        return;
      }
      ApplyNext(old(regs), w, 3);
    }

    // bf_master_put
    method MasterPut(out: nat, nl: int, nr: int, good: nat) returns (ret: int)
      requires Valid() && out < OUTS
      modifies `master, `dimSaved, `regs, `flagCnt, `loose
      ensures Valid()
      ensures ret == EINVAL <==> !StepPair(Pair(nl, nr))
      ensures ret == 0 <==> StepPair(Pair(nl, nr)) && Pair(nl, nr) == old(master[out])
      ensures ret in {EINVAL, 0} ==> master == old(master) && regs == old(regs) && loose == old(loose)
      ensures ret == 1 ==> master == old(master)[out := Pair(nl, nr)] && loose == old(loose) - RegsOf(out)
      ensures ret == EIO ==> good < 4 && master == old(master) && loose == old(loose) + RegsOf(out)
      ensures ret in {EINVAL, 0, 1, EIO}
    {
      hide Want, MasterWrites, Matches, WheelSound, Cache.InRange, RegsOf, Apply;
      var p := Pair(nl, nr);
      if !StepPair(p) {
        return EINVAL;
      }
      if p == master[out] {
        return 0;
      }
      ghost var c, c' := View(), View().(master := master[out := p]);
      NewMaster(c, last, hdb, out, p);
      var dimmed := out == 1 && dim;
      var ok := SendMasters(out, muted[out], dimmed, p, good);
      MasterSent(old(regs), c, c', loose, out, good);
      if !ok {
        loose := loose + RegsOf(out);
        return EIO;
      }
      master := master[out := p];
      loose := loose - RegsOf(out);
      if dim && out == 1 {
        dimSaved := p;
      }
      ret := 1;
    }

    // bf_mute_put
    method MutePut(out: nat, on: bool, good: nat) returns (ret: int)
      requires Valid() && out < OUTS
      modifies `muted, `regs, `flagCnt, `loose
      ensures Valid()
      ensures ret == 0 <==> old(muted[out]) == !on
      ensures ret == 0 ==> muted == old(muted) && regs == old(regs) && loose == old(loose)
      ensures ret == 1 ==> muted == old(muted)[out := !on] && loose == old(loose) - RegsOf(out)
      ensures ret == EIO ==> good < 4 && muted == old(muted) && loose == old(loose) + RegsOf(out)
      ensures ret in {0, 1, EIO}
    {
      hide Want, MasterWrites, Matches, WheelSound, Cache.InRange, RegsOf, Apply;
      var mute := !on;
      if mute == muted[out] {
        return 0;
      }
      ghost var c, c' := View(), View().(muted := muted[out := mute]);
      NewMute(c, out, mute, dim);
      var ok := SendMasters(out, mute, out == 1 && dim, master[out], good);
      MasterSent(old(regs), c, c', loose, out, good);
      if !ok {
        loose := loose + RegsOf(out);
        return EIO;
      }
      muted := muted[out := mute];
      loose := loose - RegsOf(out);
      ret := 1;
    }

    // bf_dim_apply: the Phones at -20 dB, or back at the saved volume.
    method DimApply(on: bool, good: nat) returns (ok: bool)
      requires Valid() && (!on ==> dim)
      modifies `dim, `dimSaved, `regs, `flagCnt, `loose
      ensures Valid() && ok == (good >= 5)
      ensures dim == (if ok then on else old(dim))
      ensures loose == if ok then old(loose) - RegsOf(1) else old(loose) + RegsOf(1)
    {
      hide Want, MasterWrites, Matches, WheelSound, Cache.InRange, RegsOf, Apply;
      var was := dim;
      ghost var c, c' := View(), View().(dim := on);
      NewMute(c, 1, muted[1], on);
      if on {
        dimSaved := master[1];
      }
      dim := on;
      var step := if on then master[1] else dimSaved;
      ok := SendMasters(1, muted[1], on, step, good);
      MasterSent(old(regs), c, c', loose, 1, good);
      ghost var sent := regs;
      if ok {
        ok := VendorWrite(REQ_PREAMP, if on then 0x2000 else 0, 0x2000, good > 4);
        PreampIsForeign(sent, c, c', old(loose), if on then 0x2000 else 0);
      }
      if !ok {
        dim := was;
      }
      loose := if ok then loose - RegsOf(1) else loose + RegsOf(1);
    }

    // bf_dim_put
    method DimPut(on: bool, good: nat) returns (ret: int)
      requires Valid()
      modifies `dim, `dimSaved, `regs, `flagCnt, `loose
      ensures Valid() && ret in {0, 1, EIO}
      ensures ret == 0 <==> old(dim) == on
      ensures ret == 0 ==> regs == old(regs) && loose == old(loose)
      ensures ret == 1 ==> loose == old(loose) - RegsOf(1)
      ensures ret == EIO ==> good < 5 && loose == old(loose) + RegsOf(1)
      ensures dim == (if ret == EIO then old(dim) else on)
    {
      if on == dim {
        return 0;
      }
      var ok := DimApply(on, good);
      ret := if ok then 1 else EIO;
    }

    // bf_xpoint_write: the block of AN1/2 is written without the flag.
    method SendPoint(out: nat, src: nat, p: Pair, good: nat) returns (ok: bool)
      requires out < OUTS && src < SOURCES && flagCnt < 4
      modifies `regs, `flagCnt
      ensures flagCnt < 4 && ok == (good >= 2)
      ensures regs == Apply(old(regs), PointWrites(out, src, p)[..Min(good, 2)])
    {
      hide Addr;
      var count := 3;
      if out != 0 {
        count := NextFlag();
      }
      ghost var w := PointWrites(out, src, p);
      assert w[..0] == [];
      ok := Send(Write(Xpoint(out, Left, IndexOf(src, Left)), p.l), count, good > 0);
      if !ok {
        return;
      }
      ApplyNext(old(regs), w, 0);
      ok := Send(Write(Xpoint(out, Right, IndexOf(src, Right)), p.r), count, good > 1);
      if !ok {
        return;
      }
      ApplyNext(old(regs), w, 1);
    }

    // bf_xpoint_put
    method XpointPut(out: nat, src: nat, nl: int, nr: int, good: nat) returns (ret: int)
      requires Valid() && out < OUTS && src < SOURCES
      modifies `xpoint, `regs, `flagCnt, `loose
      ensures Valid() && ret in {EINVAL, 0, 1, EIO}
      ensures ret == EINVAL <==> !FaderPair(Pair(nl, nr))
      ensures ret == 0 <==> FaderPair(Pair(nl, nr)) && Pair(nl, nr) == old(xpoint[out][src])
      ensures ret in {EINVAL, 0} ==> xpoint == old(xpoint) && regs == old(regs) && loose == old(loose)
      ensures ret == 1 ==> xpoint == WithPoint(old(xpoint), out, src, Pair(nl, nr))
                           && loose == old(loose) - PointsOf(out, src)
      ensures ret == EIO ==> good < 2 && xpoint == old(xpoint) && loose == old(loose) + PointsOf(out, src)
    {
      hide Want, PointWrites, Matches, WheelSound, Cache.InRange, PointsOf, Apply, IndexOf;
      var p := Pair(nl, nr);
      if !FaderPair(p) {
        return EINVAL;
      }
      if p == xpoint[out][src] {
        return 0;
      }
      ghost var c, c' := View(), View().(xpoint := WithPoint(xpoint, out, src, p));
      NewPoint(c, out, src, p);
      var ok := SendPoint(out, src, p, good);
      PointSent(old(regs), c, c', loose, out, src, p, good);
      if !ok {
        loose := loose + PointsOf(out, src);
        return EIO;
      }
      xpoint := WithPoint(xpoint, out, src, p);
      loose := loose - PointsOf(out, src);
      ret := 1;
    }

    // ------------------------------------------------------ the front panel

    // bf_panel_remute; none of the panel's writes is checked.
    method Remute(out: nat, ok: seq<bool>)
      requires Valid() && out < OUTS && muted[out] && |ok| == 2
      modifies `regs, `loose
      ensures Valid()
      ensures loose == if AllOk(ok) then old(loose) - Regs8(out) else old(loose) + Regs8(out)
    {
      hide Want, Matches, WheelSound, Cache.InRange, Regs8, Apply, Successful;
      ghost var w := Masters8(out, MUTE_8, MUTE_8);
      NothingSent(old(regs), w, ok);
      var _ := Send(Write(Master8(out, Left), MUTE_8), 3, ok[0]);
      SuccessfulNext(old(regs), w, ok, 0);
      var _ := Send(Write(Master8(out, Right), MUTE_8), 3, ok[1]);
      SuccessfulNext(old(regs), w, ok, 1);
      MuteSent(old(regs), View(), loose, out, ok);
      loose := if AllOk(ok) then loose - Regs8(out) else loose + Regs8(out);
    }

    // The two 16-bit masters, unchecked.
    method Send16(out: nat, dimmed: bool, mute: bool, p: Pair, ok: seq<bool>)
      requires out < OUTS && flagCnt < 4 && |ok| == 2
      modifies `regs, `flagCnt
      ensures flagCnt < 4
      ensures regs == Apply(old(regs), Successful(Masters16(out, mute, dimmed, p), ok))
    {
      hide OutReg16, Addr, Apply, Successful;
      var count := NextFlag();
      ghost var w := Masters16(out, mute, dimmed, p);
      NothingSent(old(regs), w, ok);
      var _ := Send(Write(Master16(out, Left), OutReg16(mute, dimmed, p.l)), count, ok[0]);
      SuccessfulNext(old(regs), w, ok, 0);
      var _ := Send(Write(Master16(out, Right), OutReg16(mute, dimmed, p.r)), count, ok[1]);
      SuccessfulNext(old(regs), w, ok, 1);
      assert w[..2] == w;
    }

    // All four, unchecked.
    method SendAll(out: nat, mute: bool, dimmed: bool, p: Pair, ok: seq<bool>)
      requires out < OUTS && flagCnt < 4 && |ok| == 4
      modifies `regs, `flagCnt
      ensures flagCnt < 4
      ensures regs == Apply(old(regs), Successful(MasterWrites(out, mute, dimmed, p), ok))
    {
      hide OutReg8, OutReg16, Addr, Apply, Successful;
      var count := NextFlag();
      ghost var w := MasterWrites(out, mute, dimmed, p);
      NothingSent(old(regs), w, ok);
      var _ := Send(Write(Master8(out, Left), OutReg8(mute, dimmed, p.l)), 3, ok[0]);
      SuccessfulNext(old(regs), w, ok, 0);
      var _ := Send(Write(Master8(out, Right), OutReg8(mute, dimmed, p.r)), 3, ok[1]);
      SuccessfulNext(old(regs), w, ok, 1);
      var _ := Send(Write(Master16(out, Left), OutReg16(mute, dimmed, p.l)), count, ok[2]);
      SuccessfulNext(old(regs), w, ok, 2);
      var _ := Send(Write(Master16(out, Right), OutReg16(mute, dimmed, p.r)), count, ok[3]);
      SuccessfulNext(old(regs), w, ok, 3);
      assert w[..4] == w;
    }

    // bf_panel_balance_wheel
    method BalanceWheel(out: nat, delta: int, ok: seq<bool>)
      requires Valid() && out < OUTS && |ok| == 4
      modifies `master, `dimSaved, `regs, `flagCnt, `loose
      ensures Valid()
      ensures muted[out] ==> master == old(master)
                             && loose == if AllOk(ok[..2]) then old(loose) - Regs8(out) else old(loose) + Regs8(out)
      ensures !muted[out] && old(master[out]) == Pair(0, 0) ==> master == old(master) && loose == old(loose)
      ensures !muted[out] && old(master[out]) != Pair(0, 0) ==>
                && master == old(master)[out := PairOf(Wheel.Balanced(StepsOf(old(master[out])), delta))]
                && loose == if AllOk(ok) then old(loose) - RegsOf(out) else old(loose) + RegsOf(out)
    {
      hide Want, MasterWrites, Matches, WheelSound, Cache.InRange, RegsOf, Regs8, Apply, Successful, Wheel.Balanced;
      if muted[out] {
        Remute(out, ok[..2]);
        return;
      }
      if master[out] == Pair(0, 0) {
        return;
      }
      StepsInRange(View(), out);
      Wheel.BalancedKeepsTheLouder(StepsOf(master[out]), delta);
      var next := Wheel.TurnBalance(StepsOf(master[out]), delta);
      var p := PairOf(next);
      ghost var c, c' := View(), View().(master := master[out := p]);
      NewMaster(c, last, hdb, out, p);
      SendAll(out, muted[out], out == 1 && dim, p, ok);
      AllSent(old(regs), c, c', loose, out, ok);
      master := master[out := p];
      if dim && out == 1 {
        dimSaved := p;
      }
      loose := if AllOk(ok) then loose - RegsOf(out) else loose + RegsOf(out);
    }

    // The firmware moves the analog level of an output by itself.
    method Firmware(out: nat, p: Pair)
      requires Valid() && out < OUTS
      modifies `regs, `loose
      ensures Valid() && loose == old(loose) + Regs8(out)
    {
      hide Want, Matches, Cache.InRange, Regs8, Apply, WheelSound;
      FirmwareMoves(regs, View(), loose, out, p);
      regs := Apply(regs, Masters8(out, p.l, p.r));
      loose := loose + Regs8(out);
    }

    // bf_panel_out_wheel_write: while the wheel turns, only the 16-bit masters
    // are written.
    method WheelWrite(out: nat, p: Pair, newLast: Pair, newHdb: Wheel.Db, ok: seq<bool>)
      requires Valid() && out < OUTS && |ok| == 2 && !muted[out]
      requires |last| == OUTS && |hdb| == OUTS
      requires Sound(View().(master := master[out := p]))
      requires WheelSound(master[out := p], last[out := newLast], hdb[out := newHdb])
      modifies `master, `dimSaved, `last, `hdb, `regs, `flagCnt, `loose
      ensures Valid()
      ensures master == old(master)[out := p] && last == old(last)[out := newLast] && hdb == old(hdb)[out := newHdb]
      ensures loose == if AllOk(ok) then old(loose) + Regs8(out) - Regs16(out) else old(loose) + RegsOf(out)
    {
      hide Want, Matches, Cache.InRange, RegsOf, Regs8, Regs16, Apply, Successful, WheelSound, TrackedOf, Masters16,
        AllOk;
      ghost var c := View();
      Send16(out, out == 1 && dim, false, p, ok);
      NewMasterSent(old(regs), c, loose, out, p, ok);
      master := master[out := p];
      last := last[out := newLast];
      hdb := hdb[out := newHdb];
      if dim && out == 1 {
        dimSaved := p;
      }
      loose := if AllOk(ok) then loose + Regs8(out) - Regs16(out) else loose + RegsOf(out);
    }

    // bf_panel_out_wheel
    method OutWheel(out: nat, turn: Wheel.Turn, ok: seq<bool>)
      requires Valid() && out < OUTS && |ok| == 2
      modifies `master, `dimSaved, `last, `hdb, `wheelOut, `resync, `regs, `flagCnt, `loose
      ensures Valid()
      ensures muted[out] ==> master == old(master) && last == old(last) && hdb == old(hdb)
                             && resync == old(resync) && wheelOut == old(wheelOut)
      ensures muted[out] ==> loose == if AllOk(ok) then old(loose) - Regs8(out) else old(loose) + Regs8(out)
      ensures !muted[out] ==>
                && Tracked(out) == Wheel.AfterTurn(old(Tracked(out)), turn)
                && (forall o :: 0 <= o < OUTS && o != out ==> Tracked(o) == old(Tracked(o)))
                && resync && wheelOut == out
                && loose == if AllOk(ok) then old(loose) + Regs8(out) - Regs16(out) else old(loose) + RegsOf(out)
    {
      hide Want, Matches, Cache.InRange, RegsOf, Regs8, Regs16, Wheel.AfterTurn, TrackedOf, WheelSound;
      if muted[out] {
        Remute(out, ok);
        return;
      }
      WheelShaped(master, last, hdb);
      var t' := TurnTracked(Tracked(out), turn);
      NewTurn(View(), last, hdb, out, turn);
      WheelWrite(out, PairOf(t'.master), PairOf(t'.last), t'.hdb, ok);
      wheelOut, resync := out, true;
    }

    // bf_panel_out_resync; rested: the wheel has been quiet long enough.
    method Resync(rested: bool, ok: seq<bool>)
      requires Valid() && |ok| == 4
      modifies `resync, `regs, `flagCnt, `loose
      ensures Valid() && resync == (old(resync) && !rested)
      ensures old(resync) && rested && !muted[wheelOut] && master[wheelOut] == last[wheelOut]
              && hdb[wheelOut].l >= -128 && hdb[wheelOut].r >= -128 ==>
                loose == if AllOk(ok) then old(loose) - RegsOf(wheelOut) else old(loose) + RegsOf(wheelOut)
      ensures !(old(resync) && rested && !muted[wheelOut] && master[wheelOut] == last[wheelOut]
                && hdb[wheelOut].l >= -128 && hdb[wheelOut].r >= -128) ==>
                loose == old(loose) && regs == old(regs)
    {
      hide Want, Matches, Cache.InRange, RegsOf, Apply, Successful, MasterWrites, WheelSound;
      if !resync || !rested {
        return;
      }
      resync := false;
      var out := wheelOut;
      WheelShaped(master, last, hdb);
      if master[out].l != last[out].l || hdb[out].l < MIN_8 - ZERO_DB_8 {
        return;
      }
      if master[out].r != last[out].r || hdb[out].r < MIN_8 - ZERO_DB_8 {
        return;
      }
      if !muted[out] {
        SendAll(out, false, out == 1 && dim, master[out], ok);
        AllSent(old(regs), View(), View(), loose, out, ok);
        loose := if AllOk(ok) then loose - RegsOf(out) else loose + RegsOf(out);
      }
    }

    // bf_panel_mix_wheel: a click moves the crosspoints of the selected sources
    // to one level.  display: the value for the panel's level display.
    method MixWheel(out: nat, panelIn: int, select: int, delta: int, display: int, ok: seq<bool>)
      requires Valid() && out < OUTS && 0 <= select <= 3 && |ok| == 6
      modifies `xpoint, `mixDb2, `mixDisp, `regs, `flagCnt, `loose
      ensures Valid()
      ensures mixDb2 == Clamp(old(mixDb2) + delta, Fader.DB2_INF, 12)
      ensures xpoint == Spread(old(xpoint), out, Targets(panelIn, select), Fader.Db2ToRaw(mixDb2))
      ensures OnlySelected(old(xpoint), xpoint, out, panelIn, select, Fader.Db2ToRaw(mixDb2))
      ensures forall r :: r in loose ==> r in old(loose) || r in PanelRegs()
                                         || (!AllOk(ok) && r in PointsOfAll(out, Targets(panelIn, select)))
      ensures AllOk(ok) ==> loose !! PointsOfAll(out, Targets(panelIn, select))
    {
      hide Want, Matches, Cache.InRange, WheelSound, Fader.Db2ToRaw, IndexOf, Apply, Successful, PointsOf, PointsOfAll,
        WithPoint, PanelRegs, AllOk, OnlySelected;
      var targets := Targets(panelIn, select);
      mixDb2 := Clamp(mixDb2 + delta, Fader.DB2_INF, 12);
      Fader.FaderMonotone(mixDb2, mixDb2);
      var raw := Fader.ComputeRaw(mixDb2);
      NoTargets(out);
      var i := 0;
      while i < |targets|
        invariant 0 <= i <= |targets| && Valid() && mixDb2 == Clamp(old(mixDb2) + delta, Fader.DB2_INF, 12)
        invariant xpoint == Spread(old(xpoint), out, targets[..i], raw)
        invariant MixLoose(old(loose), loose, PointsOfAll(out, targets[..i]), AllOk(ok))
      {
        ghost var before := loose;
        MixSource(out, targets[i], raw, display, ok[3 * i..3 * i + 3]);
        MixStep(out, targets, i, old(loose), before, loose, ok);
        i := i + 1;
      }
      assert targets[..i] == targets;
      assert raw == Fader.Db2ToRaw(mixDb2) && xpoint == Spread(old(xpoint), out, Targets(panelIn, select), raw);
      SelectedOnly(old(xpoint), out, panelIn, select, raw);
    }

    // One source: its two crosspoints, then the display of an input.
    method MixSource(out: nat, src: nat, raw: int, display: int, ok: seq<bool>)
      requires Valid() && out < OUTS && src < SOURCES && 0 <= raw <= Fader.FADER_TOP && |ok| == 3
      modifies `xpoint, `mixDisp, `regs, `flagCnt, `loose
      ensures Valid() && xpoint == WithPoint(old(xpoint), out, src, Pair(raw, raw))
      ensures MixLoose(old(loose), loose, PointsOf(out, src), AllOk(ok))
    {
      hide Want, Matches, Cache.InRange, WheelSound, IndexOf, WithPoint;
      MixClick(out, src, raw, ok[..2]);
      if src < 4 && display != mixDisp[src] {
        ShowLevel(src, display, ok[2]);
      }
    }

    // One source of the MIX wheel; unlike bf_xpoint_write this sends the flag
    // for AN1/2 too, and checks nothing.
    method MixClick(out: nat, src: nat, raw: int, ok: seq<bool>)
      requires Valid() && out < OUTS && src < SOURCES && 0 <= raw <= Fader.FADER_TOP && |ok| == 2
      modifies `xpoint, `regs, `flagCnt, `loose
      ensures Valid() && xpoint == WithPoint(old(xpoint), out, src, Pair(raw, raw))
      ensures loose == if AllOk(ok) then old(loose) - PointsOf(out, src) else old(loose) + PointsOf(out, src)
    {
      hide Want, Matches, Cache.InRange, WheelSound, IndexOf, Apply, Successful, PointsOf, Addr;
      var p := Pair(raw, raw);
      ghost var c, c' := View(), View().(xpoint := WithPoint(xpoint, out, src, p));
      ghost var w := PointWrites(out, src, p);
      NewPoint(c, out, src, p);
      NothingSent(regs, w, ok);
      var count := NextFlag();
      var _ := Send(Write(Xpoint(out, Left, IndexOf(src, Left)), raw), count, ok[0]);
      SuccessfulNext(old(regs), w, ok, 0);
      var _ := Send(Write(Xpoint(out, Right, IndexOf(src, Right)), raw), count, ok[1]);
      SuccessfulNext(old(regs), w, ok, 1);
      assert w[..2] == w;
      MixSent(old(regs), c, c', loose, out, src, p, ok);
      xpoint := WithPoint(xpoint, out, src, p);
      loose := if AllOk(ok) then loose - PointsOf(out, src) else loose + PointsOf(out, src);
    }

    // The level display of an input: it is the panel's gain register.
    method ShowLevel(mic: nat, display: int, ok: bool)
      requires Valid() && mic < 4
      modifies `mixDisp, `regs, `loose
      ensures Valid() && mixDisp == old(mixDisp)[mic := display]
      ensures loose == old(loose) + (if ok then iset{PanelReg(mic)} else iset{})
    {
      PanelWrite(mic, display, ok);
      mixDisp := mixDisp[mic := display];
    }

    // A write to a panel gain register lands on an 8-bit master.
    method PanelWrite(mic: nat, value: int, ok: bool)
      requires Valid() && mic < 4
      modifies `regs, `loose
      ensures Valid()
      ensures loose == old(loose) + (if ok then iset{PanelReg(mic)} else iset{})
      ensures ok ==> Addr(PanelReg(mic)) in regs && regs[Addr(PanelReg(mic))] == value
      ensures !ok ==> regs == old(regs)
      ensures forall a :: a in old(regs) && a != Addr(PanelReg(mic)) ==> a in regs && regs[a] == old(regs[a])
    {
      hide Want, Matches, Cache.InRange, WheelSound;
      PanelGainIsAMaster(mic);
      OneWriteMaybe(regs, View(), loose, Write(PanelReg(mic), value));
      var _ := VendorWrite(REQ_GAIN, value, REG_PANEL_GAIN + mic, ok);
      loose := loose + (if ok then iset{PanelReg(mic)} else iset{});
    }

    // bf_panel_gain_wheel for one selected input; raw: its gain as the register
    // holds it.
    method GainClick(mic: nat, delta: int, raw: int, ok: bool)
      requires Valid() && mic < 4
      modifies `gain, `regs, `loose
      ensures Valid()
      ensures gain == old(gain)[mic := Clamp(old(gain[mic]) + delta, 0, MaxGain(mic))]
      ensures loose == old(loose) + (if ok then iset{PanelReg(mic)} else iset{})
      ensures ok ==> Addr(PanelReg(mic)) in regs && regs[Addr(PanelReg(mic))] == raw
    {
      PanelWrite(mic, raw, ok);
      gain := gain[mic := Clamp(gain[mic] + delta, 0, MaxGain(mic))];
    }

    // ------------------------------------------------------------- a resume

    // The device comes back with any contents.
    method LoseRegisters(contents: Registers)
      requires Valid()
      modifies `regs, `loose
      ensures Valid() && regs == contents && loose == iset r: Reg | r.Real()
    {
      regs := contents;
      loose := iset r: Reg | r.Real();
    }

    // bf_apply_masters: without DIM, which is put on top afterwards.  good: how
    // many of the writes succeed; the first that fails ends it.
    method ApplyMasters(good: nat) returns (ok: bool)
      requires Valid()
      modifies `regs, `flagCnt, `loose
      ensures Valid() && ok == (good >= 24)
      ensures forall r: Reg :: r.Real() && !r.Xpoint? && r.out < good / 4 && r in loose ==> View().Dimmed(r.out)
    {
      hide Want, MasterWrites, Matches, WheelSound, Cache.InRange, Apply, RegsOf;
      var out, left: nat := 0, good;
      while out < OUTS
        invariant 0 <= out <= OUTS && Valid() && left + 4 * out == good
        invariant forall r: Reg :: r.Real() && !r.Xpoint? && r.out < out && r in loose ==> View().Dimmed(r.out)
      {
        ghost var before := regs;
        ok := SendMasters(out, muted[out], false, master[out], left);
        UndimmedSent(before, View(), loose, out, left);
        MastersOf(out);
        if !ok {
          loose := loose + RegsOf(out);
          return;
        }
        loose := if View().Dimmed(out) then loose + RegsOf(out) else loose - RegsOf(out);
        out, left := out + 1, left - 4;
      }
      ok := true;
    }

    // The crosspoints of babyface_restore_state: 48 writes for each output.
    method ApplyPoints(good: nat) returns (ok: bool)
      requires Valid()
      modifies `regs, `flagCnt, `loose
      ensures Valid() && ok == (good >= 288)
      ensures forall r :: r in loose ==> r in old(loose) || r.Xpoint?
      ensures forall r: Reg :: r.Real() && r.Xpoint? && r.out < good / 48 ==> r !in loose
    {
      hide Want, PointWrites, Matches, WheelSound, Cache.InRange, Apply, PointsOf, IndexOf;
      var out, left: nat := 0, good;
      while out < OUTS
        invariant 0 <= out <= OUTS && Valid() && left + 48 * out == good
        invariant forall r :: r in loose ==> r in old(loose) || r.Xpoint?
        invariant forall r: Reg :: r.Real() && r.Xpoint? && r.out < out ==> r !in loose
      {
        ok := ApplyOutput(out, left);
        if !ok {
          return;
        }
        out, left := out + 1, left - 48;
      }
      ok := true;
    }

    // The block of one output.
    method ApplyOutput(out: nat, good: nat) returns (ok: bool)
      requires Valid() && out < OUTS
      modifies `regs, `flagCnt, `loose
      ensures Valid() && ok == (good >= 48)
      ensures forall r :: r in loose ==> r in old(loose) || (r.Xpoint? && r.out == out)
      ensures ok ==> forall r: Reg :: r.Real() && r.Xpoint? && r.out == out ==> r !in loose
    {
      hide Want, PointWrites, Matches, WheelSound, Cache.InRange, Apply, PointsOf, IndexOf;
      var src, left: nat := 0, good;
      while src < SOURCES
        invariant 0 <= src <= SOURCES && Valid() && loose <= old(loose) && left + 2 * src == good
        invariant forall s: nat :: s < src ==> loose !! PointsOf(out, s)
      {
        ghost var before := regs;
        ok := SendPoint(out, src, xpoint[out][src], left);
        PointRestored(before, View(), loose, out, src, left);
        PointsAre(out, src);
        if !ok {
          loose := loose + PointsOf(out, src);
          return;
        }
        loose := loose - PointsOf(out, src);
        src, left := src + 1, left - 2;
      }
      ok := ClearCross(out, left);
      if ok {
        AllPoints(out, loose);
      }
    }

    // bf_crosspoint_clear_cross
    method ClearCross(out: nat, good: nat) returns (ok: bool)
      requires Valid() && out < OUTS
      modifies `regs, `flagCnt, `loose
      ensures Valid() && loose <= old(loose) && ok == (good >= 20)
      ensures ok ==> forall r: Reg :: r.Xpoint? && r.out == out && IsCross(r.side, r.off) ==> r !in loose
    {
      hide Want, Matches, WheelSound, Cache.InRange, Addr;
      var k := 5;
      while k <= 23
        invariant 5 <= k <= 25 && k % 2 == 1 && Valid() && loose <= old(loose) && (k - 5) / 2 <= good
        invariant forall off: nat :: 5 <= off < k && off % 2 == 1 ==> Xpoint(out, Left, off) !in loose
      {
        ok := Cross(out, Left, k, good > (k - 5) / 2);
        if !ok {
          return;
        }
        k := k + 2;
      }
      ghost var half := loose;
      k := 4;
      while k <= 22
        invariant 4 <= k <= 24 && k % 2 == 0 && Valid() && loose <= half && 10 + (k - 4) / 2 <= good
        invariant forall off: nat :: 4 <= off < k && off % 2 == 0 ==> Xpoint(out, Right, off) !in loose
      {
        ok := Cross(out, Right, k, good > 10 + (k - 4) / 2);
        if !ok {
          return;
        }
        k := k + 2;
      }
      ok := true;
    }

    method Cross(out: nat, side: Side, off: nat, good: bool) returns (ok: bool)
      requires Valid() && out < OUTS && off < POINTS && IsCross(side, off)
      modifies `regs, `flagCnt, `loose
      ensures Valid() && ok == good
      ensures loose == if ok then old(loose) - iset{Xpoint(out, side, off)} else old(loose)
    {
      hide Matches, WheelSound, Cache.InRange, Addr;
      var count := NextFlag();
      var w := Write(Xpoint(out, side, off), 0);
      ghost var before := regs;
      ok := Send(w, count, good);
      if ok {
        OneWrite(before, View(), loose, w);
        loose := loose - iset{w.reg};
      }
    }

    // babyface_resume: the device lost its registers, the cache is replayed.
    // good: how many of the writes of masters, crosspoints and DIM succeed
    // before one fails, which ends the replay.
    method Resume(contents: Registers, good: nat) returns (ok: bool)
      requires Valid()
      modifies `dimSaved, `dim, `regs, `flagCnt, `loose
      ensures Valid() && ok == (good >= ReplayWrites(old(dim)))
      ensures ok ==> dim == old(dim) && forall r: Reg :: r.Real() ==> r !in loose
      ensures forall r: Reg :: r.Real() && r in loose && (r.Xpoint? || !View().Dimmed(r.out)) ==>
                                 if r.Xpoint? then r.out >= (good - 24) / 48 else r.out >= good / 4
    {
      hide Want, Matches, WheelSound, Cache.InRange, RegsOf;
      LoseRegisters(contents);
      ok := ApplyMasters(good);
      if !ok {
        return;
      }
      ok := ApplyPoints(good - 24);
      if !ok {
        return;
      }
      if dim {
        MastersOf(1);
        ok := DimApply(true, good - 312);
      }
    }
  }

  // The writes of a replay that concern masters and crosspoints.
  function ReplayWrites(dim: bool): nat { if dim then 317 else 312 }

  lemma PointsAre(out: nat, src: nat)
    requires src < SOURCES
    ensures forall r :: r in PointsOf(out, src) ==> r.Xpoint? && r.out == out
  {
  }

  // The sources of the IN pair and SELECT (0 left, 1 right, 2 both, 3 none).
  function Targets(panelIn: int, select: int): (t: seq<nat>)
    ensures |t| <= 2 && forall i :: 0 <= i < |t| ==> t[i] < SOURCES
  {
    if panelIn == 3 then [4]
    else
      var base := if panelIn == 2 then 2 else 0;
      if select == 3 then []
      else if select == 2 then [base, base + 1]
      else [base + (if select == 1 then 1 else 0)]
  }

  // SELECT on left takes the left source of the IN pair shown, on right the right
  // one, on both the two of them; Opt has AS1/2, whatever SELECT says.
  predicate Selected(panelIn: int, select: int, src: nat) {
    if src == 4 then panelIn == 3
    else
      && panelIn != 3 && (if panelIn == 2 then 2 <= src <= 3 else src <= 1)
      && (select == 2 || (select == 0 && src % 2 == 0) || (select == 1 && src % 2 == 1))
  }

  // The crosspoints of the selected sources to one output are at one level, all
  // others as they were.
  predicate OnlySelected(x: seq<seq<Pair>>, x': seq<seq<Pair>>, out: nat, panelIn: int, select: int, raw: int) {
    && |x| == |x'| == OUTS
    && forall o :: 0 <= o < OUTS ==>
                     && |x[o]| == |x'[o]| == SOURCES
                     && forall src :: 0 <= src < SOURCES ==>
                          x'[o][src] == if o == out && Selected(panelIn, select, src) then Pair(raw, raw) else x[o][src]
  }

  lemma SelectedOnly(x: seq<seq<Pair>>, out: nat, panelIn: int, select: int, raw: int)
    requires |x| == OUTS && out < OUTS && (forall o :: 0 <= o < OUTS ==> |x[o]| == SOURCES) && 0 <= select <= 3
    ensures OnlySelected(x, Spread(x, out, Targets(panelIn, select), raw), out, panelIn, select, raw)
  {
    hide WithPoint, Targets, Selected, Spread;
    var x' := Spread(x, out, Targets(panelIn, select), raw);
    forall o | 0 <= o < OUTS
      ensures forall src :: 0 <= src < SOURCES ==>
                x'[o][src] == if o == out && Selected(panelIn, select, src) then Pair(raw, raw) else x[o][src]
    {
      forall src | 0 <= src < SOURCES
        ensures x'[o][src] == if o == out && Selected(panelIn, select, src) then Pair(raw, raw) else x[o][src]
      {
        SpreadAt(x, out, Targets(panelIn, select), raw, o, src);
        TargetsAreSelected(panelIn, select, src);
      }
    }
  }

  lemma TargetsAreSelected(panelIn: int, select: int, src: nat)
    requires 0 <= select <= 3
    ensures src in Targets(panelIn, select) <==> Selected(panelIn, select, src)
  {
  }

  lemma {:induction false} SpreadAt(x: seq<seq<Pair>>, out: nat, targets: seq<nat>, raw: int, o: nat, src: nat)
    requires |x| == OUTS && out < OUTS && (forall p :: 0 <= p < OUTS ==> |x[p]| == SOURCES)
    requires o < OUTS && src < SOURCES && forall i :: 0 <= i < |targets| ==> targets[i] < SOURCES
    ensures Spread(x, out, targets, raw)[o][src] == if o == out && src in targets then Pair(raw, raw) else x[o][src]
  {
    if targets != [] {
      SpreadAt(x, out, targets[..|targets| - 1], raw, o, src);
    }
  }

  function MaxGain(mic: nat): int { if mic < 2 then 65 else 9 }

  // Each target at the raw value on both sides.
  function Spread(x: seq<seq<Pair>>, out: nat, targets: seq<nat>, raw: int): (x': seq<seq<Pair>>)
    requires |x| == OUTS && out < OUTS && (forall o :: 0 <= o < OUTS ==> |x[o]| == SOURCES)
    requires forall i :: 0 <= i < |targets| ==> targets[i] < SOURCES
    ensures |x'| == OUTS && (forall o :: 0 <= o < OUTS ==> |x'[o]| == SOURCES)
  {
    if targets == [] then x
    else
      WithPoint(Spread(x, out, targets[..|targets| - 1], raw), out, targets[|targets| - 1], Pair(raw, raw))
  }

  ghost function PointsOfAll(out: nat, targets: seq<nat>): iset<Reg>
    requires forall i :: 0 <= i < |targets| ==> targets[i] < SOURCES
  {
    if targets == [] then iset{}
    else PointsOfAll(out, targets[..|targets| - 1]) + PointsOf(out, targets[|targets| - 1])
  }

  // The 8-bit master under a gain register of the panel.
  function PanelReg(mic: nat): Reg { Master8(3 + mic / 2, SideOf(mic)) }

  ghost function PanelRegs(): iset<Reg> { iset r: Reg | r.Master8? && 3 <= r.out <= 4 }

  // What the MIX wheel leaves loose: of the points it wrote none if all went
  // well, and otherwise no more than was before, the displays aside.
  ghost predicate MixLoose(before: iset<Reg>, after: iset<Reg>, points: iset<Reg>, ok: bool) {
    && (forall r :: r in after ==> r in before || r in PanelRegs() || (!ok && r in points))
    && (ok ==> after !! points)
  }

  lemma NoTargets(out: nat)
    ensures PointsOfAll(out, []) == iset{}
  {
  }

  lemma MixStep(out: nat, targets: seq<nat>, i: nat, start: iset<Reg>, before: iset<Reg>, after: iset<Reg>,
                ok: seq<bool>)
    requires i < |targets| <= 2 && |ok| == 6 && forall k :: 0 <= k < |targets| ==> targets[k] < SOURCES
    requires MixLoose(start, before, PointsOfAll(out, targets[..i]), AllOk(ok))
    requires MixLoose(before, after, PointsOf(out, targets[i]), AllOk(ok[3 * i..3 * i + 3]))
    ensures MixLoose(start, after, PointsOfAll(out, targets[..i + 1]), AllOk(ok))
    ensures targets[..i + 1][..i] == targets[..i]
  {
    hide IndexOf, PointsOf;
    assert targets[..i + 1][..i] == targets[..i];
    assert PointsOfAll(out, targets[..i + 1]) == PointsOfAll(out, targets[..i]) + PointsOf(out, targets[i]);
    NoPanelPoints(out, targets[..i + 1]);
  }

  lemma {:induction false} NoPanelPoints(out: nat, targets: seq<nat>)
    requires forall k :: 0 <= k < |targets| ==> targets[k] < SOURCES
    ensures PointsOfAll(out, targets) !! PanelRegs()
  {
    hide IndexOf;
    if targets != [] {
      NoPanelPoints(out, targets[..|targets| - 1]);
    }
  }

  lemma MixSent(regs: Registers, c: Cache, c': Cache, loose: iset<Reg>, out: nat, src: nat, p: Pair, ok: seq<bool>)
    requires c.Shaped() && out < OUTS && src < SOURCES && c' == c.(xpoint := WithPoint(c.xpoint, out, src, p))
    requires Matches(regs, c, loose) && |ok| == 2
    ensures c'.Shaped()
    ensures Matches(Apply(regs, Successful(PointWrites(out, src, p), ok)), c',
                    if AllOk(ok) then loose - PointsOf(out, src) else loose + PointsOf(out, src))
  {
    hide Want, Matches, Apply, Successful, PointsOf, IndexOf;
    PointWritesAre(c', out, src);
    PointChange(c, c', out, src);
    NewState(regs, c, c', loose, PointsOf(out, src));
    UncheckedWrites(regs, c', loose + PointsOf(out, src), PointWrites(out, src, p), ok);
    assert loose + PointsOf(out, src) - PointsOf(out, src) == loose - PointsOf(out, src);
    assert loose + PointsOf(out, src) + PointsOf(out, src) == loose + PointsOf(out, src);
  }

  lemma OneWriteMaybe(regs: Registers, c: Cache, loose: iset<Reg>, w: Write)
    requires c.Shaped() && Matches(regs, c, loose) && w.reg.Real()
    ensures Matches(regs[Addr(w.reg) := w.value], c, loose + iset{w.reg})
    ensures Matches(regs, c, loose + iset{})
  {
    hide Want, Matches;
    OneWrite(regs, c, loose, w);
    assert loose + iset{} == loose;
  }

  lemma UndimmedSent(regs: Registers, c: Cache, loose: iset<Reg>, out: nat, good: nat)
    requires c.Shaped() && out < OUTS && Matches(regs, c, loose)
    ensures Matches(Apply(regs, MasterWrites(out, c.muted[out], false, c.master[out])[..Min(good, 4)]), c,
                    if c.Dimmed(out) || good < 4 then loose + RegsOf(out) else loose - RegsOf(out))
  {
    hide Want, Matches, Apply, RegsOf, MasterWrites;
    var w := MasterWrites(out, c.muted[out], false, c.master[out]);
    FourWrites(out, c.muted[out], false, c.master[out]);
    MasterWritesOf(out, c.muted[out], false, c.master[out], 0, 0);
    CheckedWrites(regs, c, loose, w, Min(good, 4));
    if !c.Dimmed(out) {
      MasterWritesAre(c, out);
    }
  }

  lemma MastersOf(out: nat)
    ensures forall r: Reg :: !r.Xpoint? && r.out == out ==> r in RegsOf(out)
    ensures forall r: Reg :: r in RegsOf(out) ==> r.out == out && !r.Xpoint?
  {
    forall r: Reg | !r.Xpoint? && r.out == out ensures r in RegsOf(out) {
      assert r.side == Left || r.side == Right;
    }
  }

  lemma PointRestored(regs: Registers, c: Cache, loose: iset<Reg>, out: nat, src: nat, good: nat)
    requires c.Shaped() && out < OUTS && src < SOURCES && Matches(regs, c, loose)
    ensures Matches(Apply(regs, PointWrites(out, src, c.xpoint[out][src])[..Min(good, 2)]), c,
                    if good >= 2 then loose - PointsOf(out, src) else loose + PointsOf(out, src))
  {
    hide Want, Matches, Apply, PointsOf, IndexOf;
    PointWritesAre(c, out, src);
    PointWritesOf(out, src, c.xpoint[out][src]);
    CheckedWrites(regs, c, loose, PointWrites(out, src, c.xpoint[out][src]), Min(good, 2));
  }

  // The crosspoints and the cross registers are the whole block.
  lemma AllPoints(out: nat, loose: iset<Reg>)
    requires forall s: nat :: s < SOURCES ==> loose !! PointsOf(out, s)
    requires forall r: Reg :: r.Xpoint? && r.out == out && IsCross(r.side, r.off) ==> r !in loose
    ensures forall r: Reg :: r.Real() && r.Xpoint? && r.out == out ==> r !in loose
  {
    hide IndexOf, IsCross;
    forall r: Reg | r.Real() && r.Xpoint? && r.out == out ensures r !in loose {
      if !IsCross(r.side, r.off) {
        IndexAtSource(r.side, r.off);
        assert r.side == Left || r.side == Right;
        assert r in PointsOf(out, SourceAt(r.side, r.off).value);
      }
    }
  }

  // Two devices that hold everything the cache determines hold the same.
  lemma ReplayReproduces(before: Registers, after: Registers, c: Cache, loose: iset<Reg>, r: Reg)
    requires c.Shaped() && r.Real() && r !in loose
    requires Matches(before, c, loose) && Matches(after, c, iset{})
    ensures Addr(r) in before && Addr(r) in after && after[Addr(r)] == before[Addr(r)] == Want(c, r)
  {
    hide Want, Addr;
  }

  function PairOf(s: Wheel.Steps): Pair { Pair(s.l, s.r) }

  function StepsOf(p: Pair): Wheel.Steps { Wheel.Steps(p.l, p.r) }

  function WithPoint(x: seq<seq<Pair>>, out: nat, src: nat, p: Pair): seq<seq<Pair>>
    requires out < |x| && src < |x[out]|
  {
    x[out := x[out][src := p]]
  }

  lemma NewPoint(c: Cache, out: nat, src: nat, p: Pair)
    requires Sound(c) && out < OUTS && src < SOURCES && FaderPair(p)
    ensures Sound(c.(xpoint := WithPoint(c.xpoint, out, src, p)))
  {
  }

  lemma StepsInRange(c: Cache, out: nat)
    requires Sound(c) && out < OUTS
    ensures StepPair(c.master[out])
  {
  }

  lemma WheelShaped(master: seq<Pair>, last: seq<Pair>, hdb: seq<Wheel.Db>)
    requires WheelSound(master, last, hdb)
    ensures |master| == OUTS && |last| == OUTS && |hdb| == OUTS
  {
  }

  method TurnTracked(t: Wheel.Tracked, turn: Wheel.Turn) returns (t': Wheel.Tracked)
    ensures t' == Wheel.AfterTurn(t, turn)
  {
    var db := new int[2];
    var levels := Wheel.Levels(t);
    db[0], db[1] := levels.l, levels.r;
    Wheel.TurnLevels(db, if turn.up then 1 else -1, turn.fast, turn.clicks);
    var next := Wheel.Steps(Wheel.StepOf(db[0]), Wheel.StepOf(db[1]));
    t' := Wheel.Tracked(next, next, Wheel.Db(db[0], db[1]));
  }

  lemma NewTurn(c: Cache, last: seq<Pair>, hdb: seq<Wheel.Db>, out: nat, turn: Wheel.Turn)
    requires Sound(c) && WheelSound(c.master, last, hdb) && out < OUTS
    ensures var t := Wheel.AfterTurn(TrackedOf(c.master[out], last[out], hdb[out]), turn);
            && Sound(c.(master := c.master[out := PairOf(t.master)]))
            && WheelSound(c.master[out := PairOf(t.master)], last[out := PairOf(t.last)], hdb[out := t.hdb])
            && TrackedOf(PairOf(t.master), PairOf(t.last), t.hdb) == t
  {
    hide Wheel.AfterTurn, Wheel.Levels;
    Wheel.TurnKeeps(TrackedOf(c.master[out], last[out], hdb[out]), turn);
  }

  lemma NothingSent(regs: Registers, w: seq<Write>, ok: seq<bool>)
    requires |ok| >= |w|
    ensures w[..0] == [] && Apply(regs, Successful(w[..0], ok)) == regs
  {
  }

  lemma PointSent(regs: Registers, c: Cache, c': Cache, loose: iset<Reg>, out: nat, src: nat, p: Pair, good: nat)
    requires c.Shaped() && out < OUTS && src < SOURCES && c' == c.(xpoint := WithPoint(c.xpoint, out, src, p))
    requires Matches(regs, c, loose)
    ensures c'.Shaped()
    ensures var after := Apply(regs, PointWrites(out, src, p)[..Min(good, 2)]);
            && Matches(after, c, loose + PointsOf(out, src))
            && (good >= 2 ==> Matches(after, c', loose - PointsOf(out, src)))
  {
    hide Want, Matches, Apply, PointsOf, IndexOf;
    var w := PointWrites(out, src, p);
    PointWritesOf(out, src, p);
    CheckedWrites(regs, c, loose, w, Min(good, 2));
    PointWritesAre(c', out, src);
    PointChange(c, c', out, src);
    NewState(regs, c, c', loose, PointsOf(out, src));
    CheckedWrites(regs, c', loose + PointsOf(out, src), w, Min(good, 2));
    assert loose + PointsOf(out, src) - PointsOf(out, src) == loose - PointsOf(out, src);
  }

  lemma MuteSent(regs: Registers, c: Cache, loose: iset<Reg>, out: nat, ok: seq<bool>)
    requires c.Shaped() && out < OUTS && c.muted[out] && |ok| == 2 && Matches(regs, c, loose)
    ensures var w := Masters8(out, MUTE_8, MUTE_8);
            w[..2] == w &&
            Matches(Apply(regs, Successful(w, ok)), c, if AllOk(ok) then loose - Regs8(out) else loose + Regs8(out))
  {
    hide Want, Matches, Apply, Successful;
    MasterWritesAre(c, out);
    MasterWritesOf(out, true, false, c.master[out], MUTE_8, MUTE_8);
    UncheckedWrites(regs, c, loose, Masters8(out, MUTE_8, MUTE_8), ok);
  }

  lemma AllSent(regs: Registers, c: Cache, c': Cache, loose: iset<Reg>, out: nat, ok: seq<bool>)
    requires c.Shaped() && c'.Shaped() && out < OUTS && c'.xpoint == c.xpoint && |ok| == 4
    requires forall o :: 0 <= o < OUTS && o != out ==>
               c'.master[o] == c.master[o] && c'.muted[o] == c.muted[o] && c'.Dimmed(o) == c.Dimmed(o)
    requires Matches(regs, c, loose)
    ensures Matches(Apply(regs, Successful(MasterWrites(out, c'.muted[out], c'.Dimmed(out), c'.master[out]), ok)), c',
                    if AllOk(ok) then loose - RegsOf(out) else loose + RegsOf(out))
  {
    hide Want, Matches, Apply, RegsOf, Successful;
    var w := MasterWrites(out, c'.muted[out], c'.Dimmed(out), c'.master[out]);
    MasterWritesOf(out, c'.muted[out], c'.Dimmed(out), c'.master[out], 0, 0);
    MasterWritesAre(c', out);
    MasterChange(c, c', out);
    NewState(regs, c, c', loose, RegsOf(out));
    UncheckedWrites(regs, c', loose + RegsOf(out), w, ok);
    assert loose + RegsOf(out) - RegsOf(out) == loose - RegsOf(out);
    assert loose + RegsOf(out) + RegsOf(out) == loose + RegsOf(out);
  }

  // The wheel's 16-bit writes: the 8-bit masters now want another value.
  // A new master of an output that is not muted, in its 16-bit registers.
  lemma NewMasterSent(regs: Registers, c: Cache, loose: iset<Reg>, out: nat, p: Pair, ok: seq<bool>)
    requires c.Shaped() && out < OUTS && |ok| == 2 && !c.muted[out] && Matches(regs, c, loose)
    ensures Matches(Apply(regs, Successful(Masters16(out, false, c.Dimmed(out), p), ok)),
                    c.(master := c.master[out := p]),
                    if AllOk(ok) then loose + Regs8(out) - Regs16(out) else loose + RegsOf(out))
  {
    hide Want, Matches, Apply, Successful, Masters16, RegsOf, Regs8, Regs16, AllOk;
    Sent16(regs, c, c.(master := c.master[out := p]), loose, out, ok);
  }

  lemma Sent16(regs: Registers, c: Cache, c': Cache, loose: iset<Reg>, out: nat, ok: seq<bool>)
    requires c.Shaped() && c'.Shaped() && out < OUTS && c'.xpoint == c.xpoint && |ok| == 2
    requires forall o :: 0 <= o < OUTS && o != out ==>
               c'.master[o] == c.master[o] && c'.muted[o] == c.muted[o] && c'.Dimmed(o) == c.Dimmed(o)
    requires Matches(regs, c, loose)
    ensures Matches(Apply(regs, Successful(Masters16(out, c'.muted[out], c'.Dimmed(out), c'.master[out]), ok)), c',
                    if AllOk(ok) then loose + Regs8(out) - Regs16(out) else loose + RegsOf(out))
  {
    hide Want, Matches, Apply, Successful, Masters16, Masters8;
    var w := Masters16(out, c'.muted[out], c'.Dimmed(out), c'.master[out]);
    MasterWritesOf(out, c'.muted[out], c'.Dimmed(out), c'.master[out], 0, 0);
    MasterWritesAre(c', out);
    MasterChange(c, c', out);
    NewState(regs, c, c', loose, RegsOf(out));
    TwoWrites(out, c'.muted[out], c'.Dimmed(out), c'.master[out]);
    UncheckedWrites(regs, c', loose + RegsOf(out), w, ok);
    assert loose + RegsOf(out) - Regs16(out) == loose + Regs8(out) - Regs16(out);
    assert loose + RegsOf(out) + Regs16(out) == loose + RegsOf(out);
  }

  lemma TwoWrites(out: nat, mute: bool, dimmed: bool, p: Pair)
    ensures |Masters16(out, mute, dimmed, p)| == 2
  {
  }

  lemma FirmwareMoves(regs: Registers, c: Cache, loose: iset<Reg>, out: nat, p: Pair)
    requires c.Shaped() && out < OUTS && Matches(regs, c, loose)
    ensures Matches(Apply(regs, Masters8(out, p.l, p.r)), c, loose + Regs8(out))
  {
    hide Want, Matches, Apply;
    MasterWritesOf(out, false, false, p, p.l, p.r);
    AnyWrites(regs, c, loose, Masters8(out, p.l, p.r));
  }

  // After the writes of an output's masters for a new state c': they match it
  // if all went out, and otherwise leave the registers of that output loose.
  lemma MasterSent(regs: Registers, c: Cache, c': Cache, loose: iset<Reg>, out: nat, good: nat)
    requires c.Shaped() && c'.Shaped() && out < OUTS && c'.xpoint == c.xpoint
    requires forall o :: 0 <= o < OUTS && o != out ==>
               c'.master[o] == c.master[o] && c'.muted[o] == c.muted[o] && c'.Dimmed(o) == c.Dimmed(o)
    requires Matches(regs, c, loose)
    ensures var w := MasterWrites(out, c'.muted[out], c'.Dimmed(out), c'.master[out]);
            var after := Apply(regs, w[..Min(good, 4)]);
            && Matches(after, c, loose + RegsOf(out))
            && (good >= 4 ==> Matches(after, c', loose - RegsOf(out)))
  {
    hide Want, Matches, Apply, RegsOf, MasterWrites;
    MasterWritesOf(out, c'.muted[out], c'.Dimmed(out), c'.master[out], 0, 0);
    var w := MasterWrites(out, c'.muted[out], c'.Dimmed(out), c'.master[out]);
    FourWrites(out, c'.muted[out], c'.Dimmed(out), c'.master[out]);
    CheckedWrites(regs, c, loose, w, Min(good, 4));
    MasterWritesAre(c', out);
    MasterChange(c, c', out);
    NewState(regs, c, c', loose, RegsOf(out));
    CheckedWrites(regs, c', loose + RegsOf(out), w, Min(good, 4));
    assert loose + RegsOf(out) - RegsOf(out) == loose - RegsOf(out);
  }

  lemma FourWrites(out: nat, mute: bool, dimmed: bool, p: Pair)
    ensures |MasterWrites(out, mute, dimmed, p)| == 4
  {
  }

  // The DIM flag of the preamp lies outside the mixer's registers.
  lemma PreampIsForeign(regs: Registers, c: Cache, c': Cache, loose: iset<Reg>, v: int)
    requires c.Shaped() && c'.Shaped()
    ensures Matches(regs, c, loose + RegsOf(1)) ==>
              Matches(regs[Address(REQ_PREAMP, Unflagged(0x2000)) := v], c, loose + RegsOf(1))
    ensures Matches(regs, c', loose - RegsOf(1)) ==>
              Matches(regs[Address(REQ_PREAMP, Unflagged(0x2000)) := v], c', loose - RegsOf(1))
  {
    hide Want, Matches, RegsOf;
    var a := Address(REQ_PREAMP, Unflagged(0x2000));
    if Matches(regs, c, loose + RegsOf(1)) {
      ForeignWrite(regs, c, loose + RegsOf(1), a, v);
    }
    if Matches(regs, c', loose - RegsOf(1)) {
      ForeignWrite(regs, c', loose - RegsOf(1), a, v);
    }
  }
}
