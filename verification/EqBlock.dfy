/** The 64-byte block that carries one channel's equalizer to the device. */
module EqBlock {
  import opened Wrappers
  import opened Arith
  import opened Cordic
  import opened EqBand

  type Byte = b: int | 0 <= b < 256

  const BLOCK_LEN := 64
  const TWO32 := 0x1_0000_0000

  type Block = s: seq<Byte> | |s| == BLOCK_LEN witness seq(BLOCK_LEN, i => 0)

  // What a block says: the words of the three bands, the scale they share, the
  // low cut and its slope.
  datatype Setting = Setting(ch: Byte, slope: Byte, bands: seq<seq<int>>, shared: int, lc: int)
  {
    predicate Valid() {
      && |bands| == 3 && (forall i :: 0 <= i < 3 ==> |bands[i]| == 4)
      && (forall i, k :: 0 <= i < 3 && 0 <= k < 4 ==> S32(bands[i][k]))
      && S32(shared) && 0 <= lc < TWO32
    }
  }

  // ----------------------------------------------------------------- words

  // The cast of a signed word to u32, and back.
  function ToU32(w: int): int { if w < 0 then w + TWO32 else w }

  function FromU32(u: int): int { if u >= 0x8000_0000 then u - TWO32 else u }

  // Byte i of an unsigned word, the least significant first.
  function LeByte(u: int, i: nat): Byte {
    if i == 0 then u % 0x100
    else if i == 1 then u / 0x100 % 0x100
    else if i == 2 then u / 0x1_0000 % 0x100
    else u / 0x100_0000 % 0x100
  }

  function Le32(b0: Byte, b1: Byte, b2: Byte, b3: Byte): int {
    b0 + 0x100 * b1 + 0x1_0000 * b2 + 0x100_0000 * b3
  }

  lemma LeRoundTrip(u: int)
    requires 0 <= u < TWO32
    ensures Le32(LeByte(u, 0), LeByte(u, 1), LeByte(u, 2), LeByte(u, 3)) == u
  {
    var u1, u2, u3 := u / 0x100, u / 0x1_0000, u / 0x100_0000;
    assert u == 0x100 * u1 + u % 0x100;
    assert u2 == u1 / 0x100 && u3 == u2 / 0x100;
    assert u1 == 0x100 * u2 + u1 % 0x100;
    assert u2 == 0x100 * u3 + u2 % 0x100;
    assert 0 <= u3 < 0x100;
  }

  function WordAt(b: Block, off: nat): int
    requires off + 4 <= BLOCK_LEN
  {
    Le32(b[off], b[off + 1], b[off + 2], b[off + 3])
  }

  // --------------------------------------------------------------- layout

  function BandOffset(slot: nat, k: nat): nat { 0x04 + slot * 0x10 + 4 * k }

  const SHARED_AT := 0x34
  const LC_AT := 0x38

  predicate Holds(b: Block, off: nat, u: int)
    requires off + 4 <= BLOCK_LEN
  {
    forall i :: 0 <= i < 4 ==> b[off + i] == LeByte(u, i)
  }

  // Reading the block back.
  function Decode(b: Block): Option<Setting> {
    if b[0] != b[2] || b[3] != 0x80 then None
    else
      Some(Setting(b[0], b[1],
                   seq(3, i requires 0 <= i < 3 =>
                     seq(4, k requires 0 <= k < 4 => FromU32(WordAt(b, BandOffset(i, k))))),
                   FromU32(WordAt(b, SHARED_AT)), WordAt(b, LC_AT)))
  }

  method PutLe32(u: int, b: array<Byte>, off: nat)
    requires b.Length == BLOCK_LEN && off + 4 <= BLOCK_LEN
    modifies b
    ensures Holds(b[..], off, u)
    ensures forall i :: 0 <= i < BLOCK_LEN && !(off <= i < off + 4) ==> b[i] == old(b[i])
  {
    b[off], b[off + 1], b[off + 2], b[off + 3] := LeByte(u, 0), LeByte(u, 1), LeByte(u, 2), LeByte(u, 3);
  }

  // The block is known by its words.
  ghost predicate Built(b: Block, s: Setting)
    requires s.Valid()
  {
    && b[0] == s.ch && b[1] == s.slope && b[2] == s.ch && b[3] == 0x80
    && (forall i: nat, k: nat :: i < 3 && k < 4 ==> Holds(b, BandOffset(i, k), ToU32(s.bands[i][k])))
    && Holds(b, SHARED_AT, ToU32(s.shared)) && Holds(b, LC_AT, s.lc)
  }

  lemma HeldWord(b: Block, off: nat, w: int)
    requires off + 4 <= BLOCK_LEN && S32(w) && Holds(b, off, ToU32(w))
    ensures FromU32(WordAt(b, off)) == w
  {
    LeRoundTrip(ToU32(w));
    assert b[off + 0] == LeByte(ToU32(w), 0);
    assert b[off + 1] == LeByte(ToU32(w), 1);
    assert b[off + 2] == LeByte(ToU32(w), 2);
    assert b[off + 3] == LeByte(ToU32(w), 3);
  }

  lemma HeldCut(b: Block, off: nat, u: int)
    requires off + 4 <= BLOCK_LEN && 0 <= u < TWO32 && Holds(b, off, u)
    ensures WordAt(b, off) == u
  {
    LeRoundTrip(u);
    assert b[off + 0] == LeByte(u, 0);
    assert b[off + 1] == LeByte(u, 1);
    assert b[off + 2] == LeByte(u, 2);
    assert b[off + 3] == LeByte(u, 3);
  }

  // The block in numbers: the channel twice, the slope between, and the words in
  // little-endian order, four of band i from 4 + 16 i on, then the scale and the
  // low cut.
  ghost predicate Layout(b: Block, s: Setting)
    requires s.Valid()
  {
    && b[0] == s.ch && b[1] == s.slope && b[2] == s.ch && b[3] == 0x80
    && (forall i: nat, k: nat :: i < 3 && k < 4 ==> LiesAt(b, 4 + 16 * i + 4 * k, s.bands[i][k]))
    && LiesAt(b, 0x34, s.shared) && LiesAt(b, 0x38, if s.lc < 0x8000_0000 then s.lc else s.lc - TWO32)
    && forall i :: 0x3c <= i < 64 ==> b[i] == 0
  }

  // Four bytes are a word of two's complement.
  predicate LiesAt(b: Block, off: nat, w: int) {
    && off + 4 <= 64
    && b[off] as int + 0x100 * b[off + 1] as int + 0x1_0000 * b[off + 2] as int + 0x100_0000 * b[off + 3] as int
       == if w < 0 then w + TWO32 else w
  }

  lemma BuiltLies(b: Block, s: Setting)
    requires s.Valid() && Built(b, s) && forall i :: LC_AT + 4 <= i < BLOCK_LEN ==> b[i] == 0
    ensures Layout(b, s)
  {
    hide Holds, LiesAt, ToU32;
    forall i: nat, k: nat | i < 3 && k < 4 ensures LiesAt(b, 4 + 16 * i + 4 * k, s.bands[i][k]) {
      assert Holds(b, BandOffset(i, k), ToU32(s.bands[i][k]));
      HeldLies(b, BandOffset(i, k), s.bands[i][k]);
    }
    HeldLies(b, SHARED_AT, s.shared);
    CutLies(b, LC_AT, s.lc);
  }

  lemma HeldLies(b: Block, off: nat, w: int)
    requires off + 4 <= BLOCK_LEN && S32(w) && Holds(b, off, ToU32(w))
    ensures LiesAt(b, off, w)
  {
    LeRoundTrip(ToU32(w));
    assert b[off + 0] == LeByte(ToU32(w), 0);
    assert b[off + 1] == LeByte(ToU32(w), 1);
    assert b[off + 2] == LeByte(ToU32(w), 2);
    assert b[off + 3] == LeByte(ToU32(w), 3);
  }

  lemma CutLies(b: Block, off: nat, u: int)
    requires off + 4 <= BLOCK_LEN && 0 <= u < TWO32 && Holds(b, off, u)
    ensures LiesAt(b, off, if u < 0x8000_0000 then u else u - TWO32)
  {
    HeldCut(b, off, u);
  }

  // The layout loses nothing.
  lemma BuiltDecodes(b: Block, s: Setting)
    requires s.Valid() && Built(b, s)
    ensures Decode(b) == Some(s)
  {
    hide WordAt, Holds, LeByte, Le32, FromU32, ToU32;
    var d := Decode(b).value;
    forall i, k | 0 <= i < 3 && 0 <= k < 4
      ensures d.bands[i][k] == s.bands[i][k]
    {
      HeldWord(b, BandOffset(i, k), s.bands[i][k]);
    }
    HeldWord(b, SHARED_AT, s.shared);
    HeldCut(b, LC_AT, s.lc);
    forall i | 0 <= i < 3 ensures d.bands[i] == s.bands[i] {
    }
    assert d.bands == s.bands;
  }

  // bf_eq_build_block
  method BuildBlock(s: Setting) returns (b: array<Byte>)
    requires s.Valid()
    ensures fresh(b) && b.Length == BLOCK_LEN
    ensures Decode(b[..]) == Some(s) && Layout(b[..], s)
  {
    hide Holds, Decode, ToU32, Layout;
    b := new Byte[BLOCK_LEN](_ => 0);
    b[0] := s.ch;
    b[1] := s.slope;
    b[2] := s.ch;
    b[3] := 0x80;
    var slot := 0;
    while slot < 3
      invariant 0 <= slot <= 3
      invariant b[0] == s.ch && b[1] == s.slope && b[2] == s.ch && b[3] == 0x80
      invariant forall i :: LC_AT + 4 <= i < BLOCK_LEN ==> b[i] == 0
      invariant forall i: nat, j: nat :: i < slot && j < 4 ==> Holds(b[..], BandOffset(i, j), ToU32(s.bands[i][j]))
    {
      var k := 0;
      while k < 4
        invariant 0 <= k <= 4
        invariant b[0] == s.ch && b[1] == s.slope && b[2] == s.ch && b[3] == 0x80
        invariant forall i :: LC_AT + 4 <= i < BLOCK_LEN ==> b[i] == 0
        invariant forall i: nat, j: nat :: i < 3 && j < 4 && (i < slot || (i == slot && j < k)) ==>
                    Holds(b[..], BandOffset(i, j), ToU32(s.bands[i][j]))
      {
        ghost var before := b[..];
        PutLe32(ToU32(s.bands[slot][k]), b, BandOffset(slot, k));
        OthersHeld(before, b[..], s, slot, k);
        k := k + 1;
      }
      slot := slot + 1;
    }
    ghost var before := b[..];
    PutLe32(ToU32(s.shared), b, SHARED_AT);
    BandsHeld(before, b[..], s, SHARED_AT);
    before := b[..];
    PutLe32(s.lc, b, LC_AT);
    BandsHeld(before, b[..], s, LC_AT);
    StillHolds(before, b[..], SHARED_AT, LC_AT, ToU32(s.shared));
    BuiltDecodes(b[..], s);
    BuiltLies(b[..], s);
  }

  // A write elsewhere leaves a word.
  lemma StillHolds(before: Block, after: Block, off: nat, written: nat, u: int)
    requires off + 4 <= BLOCK_LEN && written + 4 <= BLOCK_LEN && (off + 4 <= written || written + 4 <= off)
    requires forall i :: 0 <= i < BLOCK_LEN && !(written <= i < written + 4) ==> after[i] == before[i]
    requires Holds(before, off, u)
    ensures Holds(after, off, u)
  {
    forall i | 0 <= i < 4 ensures after[off + i] == LeByte(u, i) {
      assert before[off + i] == LeByte(u, i);
    }
  }

  lemma OthersHeld(before: Block, after: Block, s: Setting, slot: nat, k: nat)
    requires s.Valid() && slot < 3 && k < 4
    requires var w := BandOffset(slot, k);
             forall i :: 0 <= i < BLOCK_LEN && !(w <= i < w + 4) ==> after[i] == before[i]
    ensures forall i: nat, j: nat :: i < 3 && j < 4 && (i < slot || (i == slot && j < k)) &&
                                     Holds(before, BandOffset(i, j), ToU32(s.bands[i][j])) ==>
                                     Holds(after, BandOffset(i, j), ToU32(s.bands[i][j]))
  {
    hide Holds, ToU32;
    forall i: nat, j: nat | i < 3 && j < 4 && (i < slot || (i == slot && j < k)) &&
                            Holds(before, BandOffset(i, j), ToU32(s.bands[i][j]))
      ensures Holds(after, BandOffset(i, j), ToU32(s.bands[i][j]))
    {
      StillHolds(before, after, BandOffset(i, j), BandOffset(slot, k), ToU32(s.bands[i][j]));
    }
  }

  lemma BandsHeld(before: Block, after: Block, s: Setting, written: nat)
    requires s.Valid() && SHARED_AT <= written <= LC_AT
    requires forall i :: 0 <= i < BLOCK_LEN && !(written <= i < written + 4) ==> after[i] == before[i]
    ensures forall i: nat, j: nat :: i < 3 && j < 4 && Holds(before, BandOffset(i, j), ToU32(s.bands[i][j])) ==>
                                     Holds(after, BandOffset(i, j), ToU32(s.bands[i][j]))
  {
    hide Holds, ToU32;
    forall i: nat, j: nat | i < 3 && j < 4 && Holds(before, BandOffset(i, j), ToU32(s.bands[i][j]))
      ensures Holds(after, BandOffset(i, j), ToU32(s.bands[i][j]))
    {
      StillHolds(before, after, BandOffset(i, j), written, ToU32(s.bands[i][j]));
    }
  }
}
