/** The register map of the mixer: where the masters and the crosspoints of
    the six outputs are. */
module MixerMap {
  import opened Wrappers

  const OUTS := 6
  const SOURCES := 14
  const POINTS := 24  // registers of one side of a block

  const REQ_CROSSPOINT := 0x12
  const REQ_GAIN := 0x1a
  const REG_MASTER_16 := 0x03e0
  const REG_MASTER_8 := 0x0004
  const REG_PANEL_GAIN := 0x000a
  const XPOINT_BASE_R := 0x001a
  const XPOINT_STRIDE := 0x0034

  datatype Side = Left | Right
  {
    function Index(): nat { if Left? then 0 else 1 }
  }

  // The registers that the mixer state determines; an Xpoint is a register of
  // the block of an output, a crosspoint of a source or a "cross" register.
  datatype Reg =
    | Master8(out: nat, side: Side)
    | Master16(out: nat, side: Side)
    | Xpoint(out: nat, side: Side, off: nat)
  {
    predicate Real() { out < OUTS && (Xpoint? ==> off < POINTS) }
  }

  // Request and index without the transaction flag.
  datatype Address = Address(req: nat, idx: nat)

  function Addr(r: Reg): Address {
    match r
    case Master8(out, side) => Address(REQ_GAIN, REG_MASTER_8 + 2 * out + side.Index())
    case Master16(out, side) => Address(REQ_CROSSPOINT, REG_MASTER_16 + 2 * out + side.Index())
    case Xpoint(out, side, off) =>
      Address(REQ_CROSSPOINT, XPOINT_STRIDE * out + (if side.Left? then 0 else XPOINT_BASE_R) + off)
  }

  function SideOf(i: nat): Side { if i % 2 == 0 then Left else Right }

  // The register at an address.
  function RegAt(a: Address): Option<Reg> {
    if a.req == REQ_GAIN && REG_MASTER_8 <= a.idx < REG_MASTER_8 + 2 * OUTS then
      var i := a.idx - REG_MASTER_8;
      Some(Master8(i / 2, SideOf(i)))
    else if a.req == REQ_CROSSPOINT && REG_MASTER_16 <= a.idx < REG_MASTER_16 + 2 * OUTS then
      var i := a.idx - REG_MASTER_16;
      Some(Master16(i / 2, SideOf(i)))
    else if a.req == REQ_CROSSPOINT && a.idx < XPOINT_STRIDE * OUTS then
      var out, i := a.idx / XPOINT_STRIDE, a.idx % XPOINT_STRIDE;
      if i < POINTS then Some(Xpoint(out, Left, i))
      else if XPOINT_BASE_R <= i < XPOINT_BASE_R + POINTS then Some(Xpoint(out, Right, i - XPOINT_BASE_R))
      else None
    else None
  }

  // No two registers share an address.
  lemma AddressesAreDistinct(r: Reg)
    requires r.Real()
    ensures RegAt(Addr(r)) == Some(r) && Addr(r).idx < 0x4000
  {
    match r
    case Xpoint(out, side, off) => PointAddress(out, side, off);
    case Master8(out, side) => assert (2 * out + side.Index()) / 2 == out;
    case Master16(out, side) => assert (2 * out + side.Index()) / 2 == out;
  }

  lemma PointAddress(out: nat, side: Side, off: nat)
    requires out < OUTS && off < POINTS
    ensures RegAt(Addr(Xpoint(out, side, off))) == Some(Xpoint(out, side, off))
    ensures Addr(Xpoint(out, side, off)).idx < 0x0138
  {
    var i := (if side.Left? then 0 else XPOINT_BASE_R) + off;
    assert (XPOINT_STRIDE * out + i) / XPOINT_STRIDE == out;
    assert (XPOINT_STRIDE * out + i) % XPOINT_STRIDE == i;
  }

  // -------------------------------------------------- the transaction flag

  const FLAG_CYCLE: seq<nat> := [0xc000, 0x4000, 0x8000, 0x0000]

  // The index on the wire, and what the device makes of it.
  function OnWire(idx: nat, count: nat): nat
    requires count < 4
  {
    idx + FLAG_CYCLE[count]
  }

  function Unflagged(wire: nat): nat { wire % 0x4000 }

  lemma FlagIsSeparate(idx: nat, count: nat)
    requires idx < 0x4000 && count < 4
    ensures Unflagged(OnWire(idx, count)) == idx && OnWire(idx, count) < 0x1_0000
  {
  }

  // --------------------------------------------------------------- sources

  // bf_sources: the offsets of a source on the two sides of a block.
  const INDEX_L: seq<nat> := [0, 1, 2, 3, 4, 6, 8, 10, 12, 14, 16, 18, 20, 22]
  const INDEX_R: seq<nat> := [0, 1, 2, 3, 5, 7, 9, 11, 13, 15, 17, 19, 21, 23]

  function IndexOf(src: nat, side: Side): (off: nat)
    requires src < SOURCES
    ensures off < POINTS
  {
    if side.Left? then INDEX_L[src] else INDEX_R[src]
  }

  // bf_crosspoint_clear_cross: the odd offsets 5 to 23 on the left, the even
  // ones 4 to 22 on the right.
  predicate IsCross(side: Side, off: nat) {
    if side.Left? then 5 <= off <= 23 && off % 2 == 1 else 4 <= off <= 22 && off % 2 == 0
  }

  // The source with its crosspoint at an offset.
  function SourceAt(side: Side, off: nat): Option<nat> {
    if off >= POINTS || IsCross(side, off) then None
    else if off < 4 then Some(off)
    else Some(4 + (off - 4) / 2)
  }

  // The sources and the cross registers share the 24 offsets of a side out
  // between them: every offset is one source's or a cross register.
  lemma SourcesAndCrossesPartition(side: Side, off: nat)
    requires off < POINTS
    ensures IsCross(side, off) <==> forall src :: 0 <= src < SOURCES ==> IndexOf(src, side) != off
    ensures forall src: nat :: src < SOURCES ==> (SourceAt(side, off) == Some(src) <==> IndexOf(src, side) == off)
  {
    forall src: nat | src < SOURCES
      ensures SourceAt(side, IndexOf(src, side)) == Some(src)
    {
      SourceAtIndex(src, side);
    }
    if !IsCross(side, off) {
      var src := SourceAt(side, off).value;
      IndexAtSource(side, off);
      assert IndexOf(src, side) == off;
    }
  }

  lemma SourceAtIndex(src: nat, side: Side)
    requires src < SOURCES
    ensures SourceAt(side, IndexOf(src, side)) == Some(src) && !IsCross(side, IndexOf(src, side))
  {
  }

  lemma IndexAtSource(side: Side, off: nat)
    requires off < POINTS && !IsCross(side, off)
    ensures SourceAt(side, off).value < SOURCES && IndexOf(SourceAt(side, off).value, side) == off
  {
  }

  // The gain registers of the panel lie on the 8-bit masters of two outputs.
  lemma PanelGainIsAMaster(mic: nat)
    requires mic < 4
    ensures Address(REQ_GAIN, REG_PANEL_GAIN + mic) == Addr(Master8(3 + mic / 2, SideOf(mic)))
  {
  }
}
