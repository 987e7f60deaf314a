/** What the host's mixer state means for the device's registers. */
module MixerState {
  import opened Wrappers
  import opened MasterCurve
  import opened MixerMap
  import opened Fader

  datatype Pair = Pair(l: int, r: int)
  {
    function At(side: Side): int { if side.Left? then l else r }
  }

  // The cached mixer: the steps of the masters, mutes, DIM, crosspoints.
  datatype Cache = Cache(master: seq<Pair>, muted: seq<bool>, dim: bool, xpoint: seq<seq<Pair>>)
  {
    predicate Shaped() {
      && |master| == OUTS && |muted| == OUTS && |xpoint| == OUTS
      && forall out :: 0 <= out < OUTS ==> |xpoint[out]| == SOURCES
    }

    predicate InRange()
      requires Shaped()
    {
      && (forall out :: 0 <= out < OUTS ==> StepPair(master[out]))
      && (forall out, src :: 0 <= out < OUTS && 0 <= src < SOURCES ==> FaderPair(xpoint[out][src]))
    }

    // DIM is on the Phones only.
    predicate Dimmed(out: nat) { out == 1 && dim }
  }

  predicate StepPair(p: Pair) { 0 <= p.l <= STEP_MAX && 0 <= p.r <= STEP_MAX }

  predicate FaderPair(p: Pair) { 0 <= p.l <= FADER_TOP && 0 <= p.r <= FADER_TOP }

  // The value a register has to have.
  function Want(c: Cache, r: Reg): int
    requires c.Shaped() && r.Real()
  {
    match r
    case Master8(out, side) => OutReg8(c.muted[out], c.Dimmed(out), c.master[out].At(side))
    case Master16(out, side) => OutReg16(c.muted[out], c.Dimmed(out), c.master[out].At(side))
    case Xpoint(out, side, off) =>
      match SourceAt(side, off)
      case None => 0
      case Some(src) => if src < SOURCES then c.xpoint[out][src].At(side) else 0
  }

  type Registers = map<Address, int>

  // Every register has its value, but for the loose ones: those a failed
  // write or the device itself may have left with another.
  ghost predicate Matches(regs: Registers, c: Cache, loose: iset<Reg>)
    requires c.Shaped()
  {
    forall r: Reg :: r.Real() && r !in loose ==> Addr(r) in regs && regs[Addr(r)] == Want(c, r)
  }

  // What the two registers of a side hold, at their numbers: muted nothing else
  // counts, then DIM's pair on the Phones, then the volume.
  lemma WhatAMasterHolds(regs: Registers, c: Cache, loose: iset<Reg>, out: nat, side: Side)
    requires c.Shaped() && out < OUTS && Matches(regs, c, loose)
    requires Master8(out, side) !in loose && Master16(out, side) !in loose
    ensures var i := 2 * out + (if side.Left? then 0 else 1);
            var (a, b) := (Address(0x1a, 0x0004 + i), Address(0x12, 0x03e0 + i));
            && a in regs && b in regs
            && (c.muted[out] ==> regs[a] == 0x3b && regs[b] == 0)
            && (!c.muted[out] && out == 1 && c.dim ==> regs[a] == 0xcb && regs[b] == 0x0333)
            && (!c.muted[out] && !(out == 1 && c.dim) ==>
                  var step := if side.Left? then c.master[out].l else c.master[out].r;
                  regs[a] == MasterReg8(step) && regs[b] == MasterReg16(step))
  {
    hide MasterReg8, MasterReg16;
    assert Want(c, Master8(out, side)) == regs[Addr(Master8(out, side))];
    assert Want(c, Master16(out, side)) == regs[Addr(Master16(out, side))];
  }

  // And those of a crosspoint: the first four sources are mono and reach both
  // sides at one offset, the others have their left there and their right at the
  // next; what is left between them is zero.
  lemma WhatAPointHolds(regs: Registers, c: Cache, loose: iset<Reg>, out: nat, src: nat)
    requires c.Shaped() && out < OUTS && src < SOURCES && Matches(regs, c, loose)
    requires forall r: Reg :: r.Xpoint? && r.out == out ==> r !in loose
    ensures var off := if src < 4 then src else 2 * src - 4;
            var (a, b) := (Address(0x12, 0x34 * out + off),
                           Address(0x12, 0x34 * out + 0x1a + off + if src < 4 then 0 else 1));
            && a in regs && regs[a] == c.xpoint[out][src].l && b in regs && regs[b] == c.xpoint[out][src].r
            && (src >= 4 ==>
                  var (x, y) := (Address(0x12, 0x34 * out + off + 1), Address(0x12, 0x34 * out + 0x1a + off));
                  x in regs && regs[x] == 0 && y in regs && regs[y] == 0)
  {
    var off := if src < 4 then src else 2 * src - 4;
    PointHolds(regs, c, loose, Xpoint(out, Left, off));
    PointHolds(regs, c, loose, Xpoint(out, Right, if src < 4 then off else off + 1));
    if src >= 4 {
      PointHolds(regs, c, loose, Xpoint(out, Left, off + 1));
      PointHolds(regs, c, loose, Xpoint(out, Right, off));
    }
  }

  lemma PointHolds(regs: Registers, c: Cache, loose: iset<Reg>, r: Reg)
    requires c.Shaped() && r.Xpoint? && r.Real() && Matches(regs, c, loose) && r !in loose
    ensures Addr(r) in regs && regs[Addr(r)] == Want(c, r)
  {
    hide Want, Addr;
  }

  // ----------------------------------------------------------------- writes

  datatype Write = Write(reg: Reg, value: int)

  function Apply(regs: Registers, writes: seq<Write>): Registers {
    if writes == [] then regs
    else Apply(regs, writes[..|writes| - 1])[Addr(writes[|writes| - 1].reg) := writes[|writes| - 1].value]
  }

  // The writes that succeed, where the failure of one does not stop the rest.
  function Successful(writes: seq<Write>, ok: seq<bool>): seq<Write>
    requires |ok| >= |writes|
  {
    if writes == [] then []
    else
      var n := |writes| - 1;
      Successful(writes[..n], ok) + (if ok[n] then [writes[n]] else [])
  }

  predicate AllOk(ok: seq<bool>) { forall i :: 0 <= i < |ok| ==> ok[i] }

  lemma {:induction false} SuccessfulAre(writes: seq<Write>, ok: seq<bool>)
    requires |ok| >= |writes|
    ensures AllOk(ok) ==> Successful(writes, ok) == writes
    ensures forall w :: w in Successful(writes, ok) ==> w in writes
    decreases |writes|
  {
    if writes != [] {
      SuccessfulAre(writes[..|writes| - 1], ok);
    }
  }

  // One write more, where all before it went out ...
  lemma ApplyNext(regs: Registers, writes: seq<Write>, k: nat)
    requires k < |writes|
    ensures Apply(regs, writes[..k + 1]) == Apply(regs, writes[..k])[Addr(writes[k].reg) := writes[k].value]
  {
    assert writes[..k + 1][..k] == writes[..k];
  }

  // ... or where each may have failed.
  lemma SuccessfulNext(regs: Registers, writes: seq<Write>, ok: seq<bool>, k: nat)
    requires k < |writes| <= |ok|
    ensures Apply(regs, Successful(writes[..k + 1], ok)) ==
            if ok[k] then Apply(regs, Successful(writes[..k], ok))[Addr(writes[k].reg) := writes[k].value]
            else Apply(regs, Successful(writes[..k], ok))
  {
    assert writes[..k + 1][..k] == writes[..k];
    var done := Successful(writes[..k], ok);
    if ok[k] {
      assert (done + [writes[k]])[..|done|] == done;
    } else {
      assert done + [] == done;
    }
  }

  ghost function Written(writes: seq<Write>): iset<Reg> {
    iset w | w in writes :: w.reg
  }

  ghost predicate AllReal(writes: seq<Write>) {
    forall w :: w in writes ==> w.reg.Real()
  }

  ghost predicate AllWanted(c: Cache, writes: seq<Write>)
    requires c.Shaped()
  {
    AllReal(writes) && forall w :: w in writes ==> w.value == Want(c, w.reg)
  }

  lemma OneWrite(regs: Registers, c: Cache, loose: iset<Reg>, w: Write)
    requires c.Shaped() && Matches(regs, c, loose) && w.reg.Real()
    ensures Matches(regs[Addr(w.reg) := w.value], c, loose + iset{w.reg})
    ensures w.value == Want(c, w.reg) ==> Matches(regs[Addr(w.reg) := w.value], c, loose - iset{w.reg})
  {
    hide Want, Addr;
    forall r: Reg | r.Real() && Addr(r) == Addr(w.reg) ensures r == w.reg {
      AddressesAreDistinct(r);
      AddressesAreDistinct(w.reg);
    }
  }

  // Writing the wanted values mends the registers written, whatever was in
  // them.
  lemma {:induction false} WantedWrites(regs: Registers, c: Cache, loose: iset<Reg>, writes: seq<Write>)
    requires c.Shaped() && Matches(regs, c, loose) && AllWanted(c, writes)
    ensures Matches(Apply(regs, writes), c, loose - Written(writes))
    decreases |writes|
  {
    hide Want, Matches;
    if writes == [] {
      assert loose - Written(writes) == loose;
    } else {
      var init, last := writes[..|writes| - 1], writes[|writes| - 1];
      WantedWrites(regs, c, loose, init);
      OneWrite(Apply(regs, init), c, loose - Written(init), last);
      WrittenLast(writes);
      assert loose - Written(writes) == loose - Written(init) - iset{last.reg};
    }
  }

  // Any writes leave all other registers alone.
  lemma {:induction false} AnyWrites(regs: Registers, c: Cache, loose: iset<Reg>, writes: seq<Write>)
    requires c.Shaped() && Matches(regs, c, loose) && AllReal(writes)
    ensures Matches(Apply(regs, writes), c, loose + Written(writes))
    decreases |writes|
  {
    hide Want, Matches;
    if writes == [] {
      assert loose + Written(writes) == loose;
    } else {
      var init, last := writes[..|writes| - 1], writes[|writes| - 1];
      AnyWrites(regs, c, loose, init);
      OneWrite(Apply(regs, init), c, loose + Written(init), last);
      WrittenLast(writes);
      assert loose + Written(writes) == loose + Written(init) + iset{last.reg};
    }
  }

  lemma WrittenLast(writes: seq<Write>)
    requires writes != []
    ensures Written(writes) == Written(writes[..|writes| - 1]) + iset{writes[|writes| - 1].reg}
  {
    var init, last := writes[..|writes| - 1], writes[|writes| - 1];
    forall r | r in Written(writes) ensures r in Written(init) + iset{last.reg} {
      var w :| w in writes && w.reg == r;
      assert w in init || w == last;
    }
  }

  // A larger loose set says less.
  lemma Looser(regs: Registers, c: Cache, loose: iset<Reg>, loose': iset<Reg>)
    requires c.Shaped() && Matches(regs, c, loose) && loose <= loose'
    ensures Matches(regs, c, loose')
  {
    hide Want, Addr;
  }

  // A new state that wants the same of all registers but some.
  lemma NewState(regs: Registers, c: Cache, c': Cache, loose: iset<Reg>, changed: iset<Reg>)
    requires c.Shaped() && c'.Shaped() && Matches(regs, c, loose)
    requires forall r: Reg :: r.Real() && r !in changed ==> Want(c', r) == Want(c, r)
    ensures Matches(regs, c', loose + changed)
  {
    hide Want, Addr;
  }

  // A write to an address that is none of the registers.
  lemma ForeignWrite(regs: Registers, c: Cache, loose: iset<Reg>, a: Address, v: int)
    requires c.Shaped() && Matches(regs, c, loose) && RegAt(a) == None
    ensures Matches(regs[a := v], c, loose)
  {
    hide Want, Addr;
    forall r: Reg | r.Real() ensures Addr(r) != a {
      AddressesAreDistinct(r);
    }
  }

  // ----------------------------------------------- the writes of an operation

  // Both masters of an output: the 8-bit pair, then the 16-bit pair.
  function MasterWrites(out: nat, muted: bool, dim: bool, p: Pair): seq<Write> {
    Masters8(out, OutReg8(muted, dim, p.l), OutReg8(muted, dim, p.r)) + Masters16(out, muted, dim, p)
  }

  function Masters8(out: nat, l: int, r: int): seq<Write> {
    [Write(Master8(out, Left), l), Write(Master8(out, Right), r)]
  }

  function Masters16(out: nat, muted: bool, dim: bool, p: Pair): seq<Write> {
    [Write(Master16(out, Left), OutReg16(muted, dim, p.l)), Write(Master16(out, Right), OutReg16(muted, dim, p.r))]
  }

  function PointWrites(out: nat, src: nat, p: Pair): seq<Write>
    requires src < SOURCES
  {
    [Write(Xpoint(out, Left, IndexOf(src, Left)), p.l), Write(Xpoint(out, Right, IndexOf(src, Right)), p.r)]
  }

  ghost function Regs8(out: nat): iset<Reg> { iset{Master8(out, Left), Master8(out, Right)} }

  ghost function Regs16(out: nat): iset<Reg> { iset{Master16(out, Left), Master16(out, Right)} }

  ghost function RegsOf(out: nat): iset<Reg> { Regs8(out) + Regs16(out) }

  ghost function PointsOf(out: nat, src: nat): iset<Reg>
    requires src < SOURCES
  {
    iset{Xpoint(out, Left, IndexOf(src, Left)), Xpoint(out, Right, IndexOf(src, Right))}
  }

  lemma MasterWritesAre(c: Cache, out: nat)
    requires c.Shaped() && out < OUTS
    ensures AllWanted(c, MasterWrites(out, c.muted[out], c.Dimmed(out), c.master[out]))
    ensures AllWanted(c, Masters16(out, c.muted[out], c.Dimmed(out), c.master[out]))
    ensures c.muted[out] ==> AllWanted(c, Masters8(out, MUTE_8, MUTE_8))
  {
    hide MasterReg8, MasterReg16;
  }

  lemma MasterWritesOf(out: nat, muted: bool, dim: bool, p: Pair, l: int, r: int)
    requires out < OUTS
    ensures AllReal(MasterWrites(out, muted, dim, p)) && Written(MasterWrites(out, muted, dim, p)) == RegsOf(out)
    ensures AllReal(Masters16(out, muted, dim, p)) && Written(Masters16(out, muted, dim, p)) == Regs16(out)
    ensures AllReal(Masters8(out, l, r)) && Written(Masters8(out, l, r)) == Regs8(out)
  {
    hide MasterReg8, MasterReg16;
    var w8, w16 := Masters8(out, l, r), Masters16(out, muted, dim, p);
    assert w8[0].reg == Master8(out, Left) && w8[1].reg == Master8(out, Right);
    assert w16[0].reg == Master16(out, Left) && w16[1].reg == Master16(out, Right);
    var w := MasterWrites(out, muted, dim, p);
    assert w[0].reg == Master8(out, Left) && w[1].reg == Master8(out, Right);
    assert w[2].reg == Master16(out, Left) && w[3].reg == Master16(out, Right);
    assert w[0] in w && w[1] in w && w[2] in w && w[3] in w;
    assert w8[0] in w8 && w8[1] in w8 && w16[0] in w16 && w16[1] in w16;
  }

  lemma PointWritesAre(c: Cache, out: nat, src: nat)
    requires c.Shaped() && out < OUTS && src < SOURCES
    ensures AllWanted(c, PointWrites(out, src, c.xpoint[out][src]))
    ensures Written(PointWrites(out, src, c.xpoint[out][src])) == PointsOf(out, src)
  {
    SourceAtIndex(src, Left);
    SourceAtIndex(src, Right);
    var w := PointWrites(out, src, c.xpoint[out][src]);
    assert w[0] in w && w[1] in w;
  }

  lemma PointWritesOf(out: nat, src: nat, p: Pair)
    requires out < OUTS && src < SOURCES
    ensures AllReal(PointWrites(out, src, p)) && Written(PointWrites(out, src, p)) == PointsOf(out, src)
  {
    var w := PointWrites(out, src, p);
    assert w[0] in w && w[1] in w;
  }

  // A change of one output's master, mute or DIM is felt by its four master
  // registers only.
  lemma MasterChange(c: Cache, c': Cache, out: nat)
    requires c.Shaped() && c'.Shaped() && out < OUTS && c'.xpoint == c.xpoint
    requires forall o :: 0 <= o < OUTS && o != out ==>
               c'.master[o] == c.master[o] && c'.muted[o] == c.muted[o] && c'.Dimmed(o) == c.Dimmed(o)
    ensures forall r: Reg :: r.Real() && r !in RegsOf(out) ==> Want(c', r) == Want(c, r)
  {
    hide MasterReg8, MasterReg16;
  }

  lemma PointChange(c: Cache, c': Cache, out: nat, src: nat)
    requires c.Shaped() && c'.Shaped() && out < OUTS && src < SOURCES
    requires c'.master == c.master && c'.muted == c.muted && c'.dim == c.dim
    requires forall o, s :: 0 <= o < OUTS && 0 <= s < SOURCES && (o != out || s != src) ==>
               c'.xpoint[o][s] == c.xpoint[o][s]
    ensures forall r: Reg :: r.Real() && r !in PointsOf(out, src) ==> Want(c', r) == Want(c, r)
  {
    hide MasterReg8, MasterReg16, IndexOf;
    forall r: Reg | r.Real() && r !in PointsOf(out, src) ensures Want(c', r) == Want(c, r) {
      if r.Xpoint? && !IsCross(r.side, r.off) {
        IndexAtSource(r.side, r.off);
      }
    }
  }

  // Unchecked writes of wanted values: if all went out they mend their
  // registers, otherwise those are loose.
  lemma UncheckedWrites(regs: Registers, c: Cache, loose: iset<Reg>, writes: seq<Write>, ok: seq<bool>)
    requires c.Shaped() && |ok| >= |writes| && Matches(regs, c, loose) && AllWanted(c, writes)
    ensures Matches(Apply(regs, Successful(writes, ok)), c,
                    if AllOk(ok) then loose - Written(writes) else loose + Written(writes))
  {
    hide Want, Matches, Successful;
    SuccessfulAre(writes, ok);
    if AllOk(ok) {
      WantedWrites(regs, c, loose, writes);
    } else {
      var w := Successful(writes, ok);
      AnyWrites(regs, c, loose, w);
      assert Written(w) <= Written(writes);
      Looser(Apply(regs, w), c, loose + Written(w), loose + Written(writes));
    }
  }

  // Checked writes: the first k of them went out.
  lemma CheckedWrites(regs: Registers, c: Cache, loose: iset<Reg>, writes: seq<Write>, k: nat)
    requires c.Shaped() && k <= |writes| && Matches(regs, c, loose) && AllReal(writes)
    ensures Matches(Apply(regs, writes[..k]), c, loose + Written(writes))
    ensures AllWanted(c, writes) && k == |writes| ==> Matches(Apply(regs, writes[..k]), c, loose - Written(writes))
  {
    hide Want, Matches;
    AnyWrites(regs, c, loose, writes[..k]);
    assert Written(writes[..k]) <= Written(writes);
    Looser(Apply(regs, writes[..k]), c, loose + Written(writes[..k]), loose + Written(writes));
    if AllWanted(c, writes) && k == |writes| {
      assert writes[..k] == writes;
      WantedWrites(regs, c, loose, writes);
    }
  }
}
