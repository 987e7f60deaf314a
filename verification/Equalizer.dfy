/** The equalizer of the four input strips: its settings on the host and the
    blocks the device was last sent. */
module Equalizer {
  import opened Wrappers
  import opened Arith
  import opened Cordic
  import opened EqBand
  import opened EqBlock

  const STRIPS := 4
  const LC_OFF := 0x0400_0000
  const EINVAL := -22
  const EIO := -5

  // ------------------------------------------------------------- settings

  // One strip as the controls set it.
  datatype Params = Params(on: bool, bands: seq<Band>, lcHz: int, slopeDb: int)
  {
    predicate Valid() {
      && |bands| == 3 && (forall i :: 0 <= i < 3 ==> bands[i].Accepted())
      && 0 <= lcHz <= 20_000 && slopeDb in {6, 12, 18, 24}
    }
  }

  const DEFAULTS := Params(false, [Band(0, 0, 100, 0), Band(0, 0, 100, 0), Band(0, 0, 100, 0)], 0, 6)

  function SlopeByte(slopeDb: int): Byte {
    if slopeDb == 6 then 0x01 else if slopeDb == 12 then 0x03
    else if slopeDb == 18 then 0x07 else if slopeDb == 24 then 0x0F else 0
  }

  // f x the factor that keeps the -3 dB point where it is.
  function Compensated(hz: int, slopeDb: int): int {
    if slopeDb == 6 then hz * 15267 / 10000
    else if slopeDb == 18 then hz * 8061 / 10000
    else if slopeDb == 24 then hz * 6977 / 10000
    else hz
  }

  function LowCutWord(hz: int, slopeDb: int): int {
    if hz <= 0 then LC_OFF
    else
      var f := Compensated(hz, slopeDb);
      Div(11508 * f * 11656 + (11656 + f) / 2, 11656 + f)
  }

  // The scale the bands share: that of the last band with a type and a gain.
  function Shared(bands: seq<Band>, fs: int): int
    requires fs >= 32_000 && forall i :: 0 <= i < |bands| ==> bands[i].Accepted()
  {
    if bands == [] then Q27
    else
      var last := bands[|bands| - 1];
      if last.kind != 0 && last.gain != 0 then BandWords(last, fs).w4
      else Shared(bands[..|bands| - 1], fs)
  }

  function FourWords(w: Words): seq<int> { [w.w0, w.w1, w.w2, w.w3] }

  const NO_BANDS := [[0, 0, 0, 0], [0, 0, 0, 0], [0, 0, 0, 0]]

  // What the settings of a strip mean for one of its channels.
  function SettingOf(p: Params, fs: int, ch: Byte): Setting
    requires p.Valid() && fs >= 32_000
  {
    if p.on then
      Setting(ch, if p.lcHz > 0 then SlopeByte(p.slopeDb) else 0,
              seq(3, i requires 0 <= i < 3 => FourWords(BandWords(p.bands[i], fs))),
              Shared(p.bands, fs), LowCutWord(p.lcHz, p.slopeDb))
    else Setting(ch, 0, NO_BANDS, Q27, LC_OFF)
  }

  lemma {:induction false} SharedFits(bands: seq<Band>, fs: int)
    requires fs >= 32_000 && forall i :: 0 <= i < |bands| ==> bands[i].Accepted()
    ensures S32(Shared(bands, fs)) && Shared(bands, fs) > 0
  {
    hide BandWords;
    if bands != [] {
      WordsFit(bands[|bands| - 1], fs);
      SharedFits(bands[..|bands| - 1], fs);
    }
  }

  // The shared scale is that of the last band with a type and a gain: of the
  // words that the block carries for that band, the fifth.
  lemma {:induction false} SharedIsTheLast(bands: seq<Band>, fs: int, i: nat)
    requires fs >= 32_000 && forall j :: 0 <= j < |bands| ==> bands[j].Accepted()
    requires i <= |bands| && forall j :: i <= j < |bands| ==> bands[j].kind == 0 || bands[j].gain == 0
    ensures i == 0 ==> Shared(bands, fs) == Q27
    ensures i > 0 && bands[i - 1].kind != 0 && bands[i - 1].gain != 0 ==>
              Shared(bands, fs) == BandWords(bands[i - 1], fs).w4
  {
    hide BandWords;
    if i < |bands| {
      SharedIsTheLast(bands[..|bands| - 1], fs, i);
    }
  }

  // n poles stand as 2^n - 1, and a slope has one for each 6 dB.
  lemma SlopeIsPoles(p: Params)
    requires p.Valid()
    ensures p.slopeDb % 6 == 0 && SlopeByte(p.slopeDb) == Pow2(p.slopeDb / 6) - 1
  {
    assert Pow2(0) == 1 && Pow2(1) == 2 && Pow2(2) == 4 && Pow2(3) == 8 && Pow2(4) == 16;
  }

  // What the frequency of the low cut is multiplied by, in ten thousandths.
  function SlopeFactor(slopeDb: int): nat {
    match slopeDb case 6 => 15267 case 12 => 10000 case 18 => 8061 case _ => 6977
  }

  // The low cut is off for no frequency; otherwise its word is the nearest to
  // 11508 f 11656 / (11656 + f), where f is the frequency times the factor of its
  // slope, down to a whole number.
  lemma LowCutIsNearest(hz: int, slopeDb: int)
    requires 0 <= hz && slopeDb in {6, 12, 18, 24}
    ensures hz == 0 ==> LowCutWord(hz, slopeDb) == 0x0400_0000
    ensures hz > 0 ==>
              var f, w := Compensated(hz, slopeDb), LowCutWord(hz, slopeDb);
              && 0 <= hz * SlopeFactor(slopeDb) - f * 10_000 < 10_000
              && 2 * Abs(w * (11656 + f) - 11508 * 11656 * f) <= 11656 + f
  {
    if hz > 0 {
      var f := Compensated(hz, slopeDb);
      assert 0 <= hz * SlopeFactor(slopeDb) - f * 10_000 < 10_000;
      DivBounds(11508 * f * 11656 + (11656 + f) / 2, 11656 + f);
    }
  }

  // A higher cut is never a smaller word.
  lemma LowCutRises(hz: int, higher: int, slopeDb: int)
    requires 0 < hz <= higher && slopeDb in {6, 12, 18, 24}
    ensures LowCutWord(hz, slopeDb) <= LowCutWord(higher, slopeDb)
  {
    hide LowCutWord;
    LowCutIsNearest(hz, slopeDb);
    LowCutIsNearest(higher, slopeDb);
    var f, g := Compensated(hz, slopeDb), Compensated(higher, slopeDb);
    assert f <= g;
    if f < g {
      NearestInOrder(f, g, LowCutWord(hz, slopeDb), LowCutWord(higher, slopeDb));
    } else {
      SameCut(hz, higher, slopeDb);
    }
  }

  lemma SameCut(hz: int, higher: int, slopeDb: int)
    requires 0 < hz && 0 < higher && Compensated(hz, slopeDb) == Compensated(higher, slopeDb)
    ensures LowCutWord(hz, slopeDb) == LowCutWord(higher, slopeDb)
  {
    hide Compensated;
  }

  lemma NearestInOrder(f: int, g: int, v: int, w: int)
    requires 0 <= f < g
    requires 2 * (v * (11656 + f)) - 2 * (11508 * 11656 * f) <= 11656 + f
    requires 2 * (11508 * 11656 * g) - 2 * (w * (11656 + g)) <= 11656 + g
    ensures v <= w
  {
    var d, e := 11656 + f, 11656 + g;
    MulMono(2 * (v * d), 2 * (11508 * 11656 * f) + d, e);
    MulMono(2 * (11508 * 11656 * g) - e, 2 * (w * e), d);
    CrossTimesCut(f, g, d, e, v, w);
    if v >= w + 1 {
      MulMono(w + 1, v, d * e);
    }
  }

  lemma CrossTimesCut(f: int, g: int, d: int, e: int, v: int, w: int)
    requires d == 11656 + f && e == 11656 + g && f < g
    ensures 2 * (v * d) * e == 2 * (v * (d * e)) && 2 * (w * e) * d == 2 * (w * (d * e))
    ensures (w + 1) * (d * e) == w * (d * e) + d * e
    ensures (2 * (11508 * 11656 * f) + d) * e - (2 * (11508 * 11656 * g) - e) * d < 2 * (d * e)
  {
    assert f * e - g * d == 11656 * (f - g);
    assert (2 * (11508 * 11656 * f) + d) * e == 2 * (11508 * 11656) * (f * e) + d * e;
    assert (2 * (11508 * 11656 * g) - e) * d == 2 * (11508 * 11656) * (g * d) - d * e;
  }

  lemma LowCutFits(hz: int, slopeDb: int)
    requires hz <= 20_000
    ensures 0 <= LowCutWord(hz, slopeDb) <= 11508 * 11656
  {
    if hz > 0 {
      var f := Compensated(hz, slopeDb);
      assert 0 <= f <= 30_534;
      QuotientRange(11508 * f * 11656 + (11656 + f) / 2, 11656 + f, 11508 * 11656);
    }
  }

  lemma QuotientRange(n: nat, d: nat, q: nat)
    requires d > 0 && n <= q * d
    ensures 0 <= n / d <= q
  {
    DivBounds(n, d);
    if n / d > q {
      MulMonoStrict(q, n / d, d);
    }
  }

  lemma SettingFits(p: Params, fs: int, ch: Byte)
    requires p.Valid() && fs >= 32_000
    ensures SettingOf(p, fs, ch).Valid()
  {
    hide BandWords, LowCutWord, Shared;
    SharedFits(p.bands, fs);
    LowCutFits(p.lcHz, p.slopeDb);
    forall i, k | 0 <= i < 3 && 0 <= k < 4
      ensures p.on ==> S32(SettingOf(p, fs, ch).bands[i][k])
    {
      WordsFit(p.bands[i], fs);
    }
  }

  // ------------------------------------------------------------------ puts

  predicate InRange(param: nat, v: int) {
    if param == 0 then 0 <= v <= 1
    else if param <= 3 || param == 14 then 0 <= v <= 3
    else if param <= 6 || param == 13 then 0 <= v <= 20_000
    else if param <= 9 then 5 <= v <= 1000
    else -240 <= v <= 240
  }

  // The cast to s32 of what the control was set to, a long.
  function Cast32(v: int): (w: int)
    ensures -0x8000_0000 <= w < 0x8000_0000 && (v - w) % 0x1_0000_0000 == 0
  {
    (v + 0x8000_0000) % 0x1_0000_0000 - 0x8000_0000
  }

  // The range is tested after the cast, so a put takes exactly the values that
  // are some whole number of 2^32 away from one in the range ...
  lemma CastTakes(param: nat, v: int)
    requires param <= 14
    ensures InRange(param, Cast32(v)) <==> exists k: int :: InRange(param, Wrapped(v, k))
  {
    var w := Cast32(v);
    var k := (v - w) / 0x1_0000_0000;
    assert Wrapped(v, k) == w;
    forall j: int | InRange(param, Wrapped(v, j)) ensures Wrapped(v, j) == w {
      OneCast(v, w, j);
    }
  }

  function Wrapped(v: int, k: int): int { v - k * 0x1_0000_0000 }

  lemma OneCast(v: int, w: int, k: int)
    requires w == Cast32(v) && -0x8000_0000 <= Wrapped(v, k) < 0x8000_0000
    ensures Wrapped(v, k) == w
  {
  }

  // ... and decides as the range itself would for every value but those that are
  // some other number of 2^32 away, which no value of 32 bits is.
  lemma CastAgrees(param: nat, v: int)
    requires param <= 14
    ensures (InRange(param, Cast32(v)) <==> InRange(param, v))
            <==> (forall k: int :: k != 0 ==> !InRange(param, Wrapped(v, k)))
    ensures -0x8000_0000 <= v < 0x8000_0000 ==> Cast32(v) == v
  {
    CastTakes(param, v);
    assert Wrapped(v, 0) == v;
    forall k: int | k != 0 && InRange(param, Wrapped(v, k)) ensures InRange(param, Cast32(v)) && !InRange(param, v) {
      OneCast(v, Cast32(v), k);
    }
  }

  // This Q is taken, and stored as 100.
  lemma WideValueIsTaken()
    ensures !InRange(7, 0x1_0000_0064) && InRange(7, Cast32(0x1_0000_0064)) && Cast32(0x1_0000_0064) == 100
  {
  }

  function SlopeOfItem(item: int): int {
    if item == 0 then 6 else if item == 1 then 12 else if item == 2 then 18 else 24
  }

  // The strip with one parameter put: 0 enable, 1-3 type, 4-6 frequency,
  // 7-9 Q, 10-12 gain, 13 low cut frequency, 14 low cut slope.
  function WithParam(p: Params, param: nat, v: int): (p': Params)
    requires p.Valid() && param <= 14 && InRange(param, v)
    ensures p'.Valid()
  {
    if param == 0 then p.(on := v != 0)
    else if param == 13 then p.(lcHz := v)
    else if param == 14 then p.(slopeDb := SlopeOfItem(v))
    else
      var i := (param - 1) % 3;
      var b := p.bands[i];
      p.(bands := p.bands[i := if param <= 3 then b.(kind := v) else if param <= 6 then b.(freq := v)
                               else if param <= 9 then b.(q := v) else b.(gain := v)])
  }

  // bf_eq_get
  function ParamOf(p: Params, param: nat): int
    requires p.Valid() && param <= 14
  {
    if param == 0 then if p.on then 1 else 0
    else if param == 13 then p.lcHz
    else if param == 14 then
      if p.slopeDb >= 24 then 3 else if p.slopeDb >= 18 then 2 else if p.slopeDb >= 12 then 1 else 0
    else
      var b := p.bands[(param - 1) % 3];
      if param <= 3 then b.kind else if param <= 6 then b.freq else if param <= 9 then b.q else b.gain
  }

  // What was put reads back, and every other parameter as it was.
  lemma PutsReadBack(p: Params, param: nat, v: int, other: nat)
    requires p.Valid() && param <= 14 && other <= 14 && InRange(param, v)
    ensures ParamOf(WithParam(p, param, v), other) == if other == param then v else ParamOf(p, other)
  {
  }

  // The fifteen parameters are the settings: two strips that read the same are.
  lemma ParamsAreTheSettings(p: Params, q: Params)
    requires p.Valid() && q.Valid() && forall i: nat :: i <= 14 ==> ParamOf(p, i) == ParamOf(q, i)
    ensures p == q
  {
    assert ParamOf(p, 0) == ParamOf(q, 0) && ParamOf(p, 13) == ParamOf(q, 13) && ParamOf(p, 14) == ParamOf(q, 14);
    forall i: nat | i < 3 ensures p.bands[i] == q.bands[i] {
      assert ParamOf(p, 1 + i) == ParamOf(q, 1 + i) && ParamOf(p, 4 + i) == ParamOf(q, 4 + i);
      assert ParamOf(p, 7 + i) == ParamOf(q, 7 + i) && ParamOf(p, 10 + i) == ParamOf(q, 10 + i);
    }
    assert p.bands == q.bands;
  }

  // The words of a strip that the last update computed.
  datatype Cache = Cache(words: seq<seq<int>>, shared: int, lcRaw: int, slope: Byte)

  class Strips {
    var rate: int
    var strips: seq<Params>
    var cache: seq<Cache>
    // The last block uploaded for each channel.
    var device: map<nat, Block>
    // The strips whose last update reached both channels.
    ghost var current: set<nat>

    ghost predicate Valid()
      reads this
    {
      && (rate == 0 || 32_000 <= rate <= 192_000)
      && |strips| == STRIPS && |cache| == STRIPS
      && (forall s :: 0 <= s < STRIPS ==> strips[s].Valid())
      && (forall s :: s in current ==> s < STRIPS && OnDevice(s))
    }

    function Fs(): int
      reads this
    {
      if rate != 0 then rate else 48_000
    }

    // The blocks of a strip say what its settings mean at this rate.
    ghost predicate OnDevice(s: nat)
      requires |strips| == STRIPS && s < STRIPS && strips[s].Valid() && Fs() >= 32_000
      reads this
    {
      && Says(device, 2 * s, SettingOf(strips[s], Fs(), 2 * s))
      && Says(device, 2 * s + 1, SettingOf(strips[s], Fs(), 2 * s + 1))
    }

    // bf_eq_defaults
    constructor ()
      ensures Valid() && rate == 0 && device == map[] && current == {}
      ensures strips == [DEFAULTS, DEFAULTS, DEFAULTS, DEFAULTS]
    {
      rate := 0;
      strips := [DEFAULTS, DEFAULTS, DEFAULTS, DEFAULTS];
      cache := seq(STRIPS, i => Cache([], Q27, LC_OFF, 0));
      device := map[];
      current := {};
    }

    // bf_eq_write_strip; left, right: whether the uploads succeed.
    method WriteStrip(s: nat, left: bool, right: bool) returns (ok: bool)
      requires Valid() && s < STRIPS && s !in current && Cached(cache[s], strips[s], Fs())
      modifies this`device, this`current
      ensures Valid() && ok == (left && right)
      ensures current == old(current) + (if ok then {s} else {})
    {
      hide SettingOf, Decode, SettingFrom, Setting.Valid, Cached, Layout;
      CacheIsSetting(cache[s], strips[s], Fs(), 2 * s);
      CacheIsSetting(cache[s], strips[s], Fs(), 2 * s + 1);
      var b := BuildBlock(SettingFrom(cache[s], strips[s], 2 * s));
      if !left {
        return false;
      }
      device := device[2 * s := b[..]];
      var c := BuildBlock(SettingFrom(cache[s], strips[s], 2 * s + 1));
      if !right {
        return false;
      }
      device := device[2 * s + 1 := c[..]];
      current := current + {s};
      ok := true;
    }

    // bf_eq_update_strip
    method UpdateStrip(s: nat, left: bool, right: bool) returns (ok: bool)
      requires Valid() && s < STRIPS && s !in current
      modifies this`cache, this`device, this`current
      ensures Valid() && ok == (left && right)
      ensures current == old(current) + (if ok then {s} else {})
    {
      hide SettingOf, BandWords, LowCutWord, Says;
      var p, fs := strips[s], Fs();
      var words: seq<seq<int>> := [];
      var last := Q27;
      var band := 0;
      while band < 3
        invariant 0 <= band <= 3 && |words| == band
        invariant forall i :: 0 <= i < band ==> words[i] == FourWords(BandWords(p.bands[i], fs))
        invariant last == Shared(p.bands[..band], fs)
        modifies {}
      {
        var b := p.bands[band];
        var w0, w1, w2, w3, w4 :=
          ComputeBandWords(b.kind, b.freq as S64, b.q as S64, b.gain as S64, fs as S64);
        words := words + [[w0 as int, w1 as int, w2 as int, w3 as int]];
        assert p.bands[..band + 1][..band] == p.bands[..band];
        if b.kind != 0 && b.gain != 0 {
          last := w4 as int;
        }
        band := band + 1;
      }
      assert p.bands[..3] == p.bands;
      cache := cache[s := Cache(words, last, LowCutWord(p.lcHz, p.slopeDb), SlopeByte(p.slopeDb))];
      ok := WriteStrip(s, left, right);
    }

    // bf_eq_reupload: every strip, whatever becomes of the others.
    method Reupload(left: seq<bool>, right: seq<bool>)
      requires Valid() && current == {} && |left| == STRIPS && |right| == STRIPS
      modifies this`cache, this`device, this`current
      ensures Valid()
      ensures current == set s | 0 <= s < STRIPS && left[s] && right[s]
    {
      var s := 0;
      while s < STRIPS
        invariant 0 <= s <= STRIPS && Valid()
        invariant current == set i | 0 <= i < s && left[i] && right[i]
      {
        var _ := UpdateStrip(s, left[s], right[s]);
        s := s + 1;
      }
    }

    // hw_params with another rate, or a resume at the same one.
    method ChangeRate(rate: int, left: seq<bool>, right: seq<bool>)
      requires Valid() && 32_000 <= rate <= 192_000 && |left| == STRIPS && |right| == STRIPS
      modifies this
      ensures Valid() && this.rate == rate && strips == old(strips)
      ensures current == set s | 0 <= s < STRIPS && left[s] && right[s]
    {
      this.rate := rate;
      current := {};
      Reupload(left, right);
    }

    // bf_eq_put
    method Put(s: nat, param: nat, v: int, left: bool, right: bool) returns (r: int)
      requires Valid() && s < STRIPS && param <= 14
      modifies this
      ensures Valid() && rate == old(rate)
      ensures r == EINVAL <==> !InRange(param, Cast32(v))
      ensures r == EINVAL ==> strips == old(strips)
      ensures r != EINVAL ==> strips == old(strips)[s := WithParam(old(strips[s]), param, Cast32(v))]
      ensures strips == old(strips) ==> device == old(device) && current == old(current) && r in {0, EINVAL}
      ensures strips != old(strips) ==>
                if left && right then r == 1 && current == old(current) + {s}
                else r == EIO && current == old(current) - {s}
    {
      hide SettingOf, WithParam, Cast32;
      var nv := Cast32(v);
      if !InRange(param, nv) {
        return EINVAL;
      }
      var p := WithParam(strips[s], param, nv);
      if p == strips[s] {
        return 0;
      }
      strips := strips[s := p];
      current := current - {s};
      var ok := UpdateStrip(s, left, right);
      r := if ok then 1 else EIO;
    }
  }

  ghost predicate Says(device: map<nat, Block>, ch: nat, s: Setting) {
    ch in device && Decode(device[ch]) == Some(s)
  }

  // The block of a channel, byte by byte: its number twice, the poles of the low
  // cut if there is one and 0x80, then the words of the bands, the shared scale and
  // the low cut; of a strip that is off zeros, the scale of 1 and no cut.
  lemma WhatTheDeviceHas(device: map<nat, Block>, ch: Byte, p: Params, fs: int)
    requires p.Valid() && fs >= 32_000 && Says(device, ch, SettingOf(p, fs, ch))
    ensures ch in device
    ensures var b := device[ch];
            && b[0] == ch == b[2] && b[3] == 0x80
            && b[1] as int == (if p.on && p.lcHz > 0 then Pow2(p.slopeDb / 6) - 1 else 0)
            && BandLies(b, 0, WordsNow(p, 0, fs)) && BandLies(b, 1, WordsNow(p, 1, fs))
            && BandLies(b, 2, WordsNow(p, 2, fs))
            && LiesAt(b, 0x34, if p.on then Shared(p.bands, fs) else 0x0800_0000)
            && LiesAt(b, 0x38, if p.on && p.lcHz > 0 then LowCutWord(p.lcHz, p.slopeDb) else 0x0400_0000)
  {
    hide BandWords, LowCutWord, Shared, SlopeByte, WordAt, LiesAt;
    SlopeIsPoles(p);
    SettingFits(p, fs, ch);
    var b, s := device[ch], SettingOf(p, fs, ch);
    forall i: nat | i < 3 ensures BandLies(b, i, WordsNow(p, i, fs)) {
      assert s.bands[i] == FourWords(WordsNow(p, i, fs));
      DecodedBand(b, s, i);
    }
    DecodedRest(b, s);
    if p.lcHz == 0 {
      LowCutIsNearest(0, p.slopeDb);
    } else {
      CutIsBelow(p.lcHz, p.slopeDb);
    }
  }

  function WordsNow(p: Params, i: nat, fs: int): Words
    requires p.Valid() && i < 3 && fs >= 32_000
  {
    if p.on then BandWords(p.bands[i], fs) else IDENTITY
  }

  predicate BandLies(b: Block, i: nat, w: Words) {
    && i < 3 && LiesAt(b, 4 + 16 * i, w.w0) && LiesAt(b, 8 + 16 * i, w.w1) && LiesAt(b, 12 + 16 * i, w.w2)
    && LiesAt(b, 16 + 16 * i, w.w3)
  }

  lemma CutIsBelow(hz: int, slopeDb: int)
    requires 0 < hz <= 20_000
    ensures LowCutWord(hz, slopeDb) < 0x8000_0000
  {
    hide LowCutWord;
    LowCutFits(hz, slopeDb);
  }

  lemma DecodedBand(b: Block, s: Setting, i: nat)
    requires s.Valid() && Decode(b) == Some(s) && i < 3
    ensures BandLies(b, i, Words(s.bands[i][0], s.bands[i][1], s.bands[i][2], s.bands[i][3], 0))
  {
    hide WordAt, LiesAt, FromU32;
    forall k: nat | k < 4 ensures LiesAt(b, BandOffset(i, k), s.bands[i][k]) {
      assert s.bands[i][k] == FromU32(WordAt(b, BandOffset(i, k)));
      DecodedWord(b, BandOffset(i, k));
    }
    assert LiesAt(b, BandOffset(i, 0), s.bands[i][0]) && LiesAt(b, BandOffset(i, 1), s.bands[i][1]);
    assert LiesAt(b, BandOffset(i, 2), s.bands[i][2]) && LiesAt(b, BandOffset(i, 3), s.bands[i][3]);
  }

  lemma DecodedRest(b: Block, s: Setting)
    requires s.Valid() && Decode(b) == Some(s)
    ensures b[0] == s.ch == b[2] && b[3] == 0x80 && b[1] == s.slope && LiesAt(b, 0x34, s.shared)
    ensures s.lc < 0x8000_0000 ==> LiesAt(b, 0x38, s.lc)
  {
    hide WordAt, LiesAt;
    DecodedWord(b, SHARED_AT);
    DecodedWord(b, LC_AT);
  }

  lemma DecodedWord(b: Block, off: nat)
    requires off + 4 <= BLOCK_LEN
    ensures LiesAt(b, off, FromU32(WordAt(b, off)))
  {
  }

  // The cache holds what the settings mean.
  ghost predicate Cached(c: Cache, p: Params, fs: int)
    requires p.Valid() && fs >= 32_000
  {
    && |c.words| == 3
    && (forall i :: 0 <= i < 3 ==> c.words[i] == FourWords(BandWords(p.bands[i], fs)))
    && c.shared == Shared(p.bands, fs)
    && c.lcRaw == LowCutWord(p.lcHz, p.slopeDb)
    && c.slope == SlopeByte(p.slopeDb)
  }

  // What is uploaded from the cache.
  function SettingFrom(c: Cache, p: Params, ch: Byte): Setting {
    Setting(ch, if p.on && p.lcHz > 0 then c.slope else 0, if p.on then c.words else NO_BANDS,
            if p.on then c.shared else Q27, if p.on then c.lcRaw else LC_OFF)
  }

  lemma CacheIsSetting(c: Cache, p: Params, fs: int, ch: Byte)
    requires p.Valid() && fs >= 32_000 && Cached(c, p, fs)
    ensures SettingFrom(c, p, ch) == SettingOf(p, fs, ch)
    ensures SettingOf(p, fs, ch).Valid()
  {
    hide BandWords, LowCutWord, Shared;
    SettingFits(p, fs, ch);
    if p.on {
      assert c.words == SettingOf(p, fs, ch).bands;
    }
  }

  // ------------------------------------------------------------------- runs

  datatype EqOp = PutParam(s: nat, param: nat, v: int) | NewRate(rate: int)
  {
    predicate Valid() {
      if PutParam? then s < STRIPS && param <= 14 else 32_000 <= rate <= 192_000
    }
  }

  // The operation, with what it returned, updates the strip.
  predicate Updates(op: EqOp, ret: int, s: nat) { op.NewRate? || (op.s == s && ret == 1) }

  predicate Settings(strips: seq<Params>) {
    |strips| == STRIPS && forall s :: 0 <= s < STRIPS ==> strips[s].Valid()
  }

  // The settings after a run.
  function SettingsAfter(strips: seq<Params>, ops: seq<EqOp>): (after: seq<Params>)
    requires Settings(strips) && forall i :: 0 <= i < |ops| ==> ops[i].Valid()
    ensures Settings(after)
  {
    if ops == [] then strips
    else
      var before := SettingsAfter(strips, ops[..|ops| - 1]);
      var op := ops[|ops| - 1];
      assert op.Valid();
      match op
      case NewRate(_) => before
      case PutParam(s, param, v) =>
        var nv := Cast32(v);
        if InRange(param, nv) then before[s := WithParam(before[s], param, nv)] else before
  }

  const ALL_OK := [true, true, true, true]

  // Any run of puts and changes of rate whose uploads succeed.  A strip that
  // was updated once stays on the device: its blocks always say what its
  // settings mean at the rate.
  method AnyRun(e: Strips, ops: seq<EqOp>) returns (rets: seq<int>)
    requires e.Valid() && forall i :: 0 <= i < |ops| ==> ops[i].Valid()
    modifies e
    ensures e.Valid() && old(e.current) <= e.current && |rets| == |ops|
    ensures Settings(old(e.strips)) && e.strips == SettingsAfter(old(e.strips), ops)
    ensures forall i, s: nat :: 0 <= i < |ops| && s < STRIPS && Updates(ops[i], rets[i], s) ==> s in e.current
    ensures forall s: nat :: s in e.current ==> s < STRIPS && e.OnDevice(s)
  {
    hide SettingOf, WithParam, Says;
    rets := [];
    var i := 0;
    while i < |ops|
      invariant 0 <= i <= |ops| && |rets| == i && e.Valid() && old(e.current) <= e.current
      invariant e.strips == SettingsAfter(old(e.strips), ops[..i])
      invariant forall j, s: nat :: 0 <= j < i && s < STRIPS && Updates(ops[j], rets[j], s) ==> s in e.current
    {
      var r := 0;
      assert ops[..i + 1][..i] == ops[..i];
      ghost var before := e.current;
      match ops[i] {
        case PutParam(s, param, v) => r := e.Put(s, param, v, true, true);
        case NewRate(rate) =>
          e.ChangeRate(rate, ALL_OK, ALL_OK);
          AllFour(e.current, before);
      }
      rets := rets + [r];
      i := i + 1;
    }
    assert ops[..i] == ops;
  }

  lemma AllFour(current: set<nat>, before: set<nat>)
    requires current == set s | 0 <= s < STRIPS && ALL_OK[s] && ALL_OK[s]
    ensures forall s: nat :: s < STRIPS ==> s in current
    ensures (forall s :: s in before ==> s < STRIPS) ==> before <= current
  {
    assert ALL_OK[0] && ALL_OK[1] && ALL_OK[2] && ALL_OK[3];
  }
}
