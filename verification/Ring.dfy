/** The copies between the URBs and the ring of a substream, as the plain
    streams they stand for.  A sample is a 32-bit word. */
module Ring {
  import opened Arith

  type Frame = seq<int>

  // ----------------------------------------------------- places in the ring

  lemma NextPlace(n: nat, size: nat)
    requires size > 0
    ensures n % size < size
    ensures (n + 1) % size == if n % size + 1 >= size then 0 else n % size + 1
  {
    var q := n / size;
    DivBounds(n, size);
    if n % size + 1 >= size {
      QuotientOf(n + 1, size, q + 1);
    } else {
      QuotientOf(n + 1, size, q);
    }
  }

  // Positions less than the size apart have places of their own.
  lemma PlacesDiffer(i: nat, j: nat, size: nat)
    requires size > 0 && i < j < i + size
    ensures i % size != j % size
  {
    DivBounds(i, size);
    DivBounds(j, size);
    if i % size == j % size {
      var p, q := i / size, j / size;
      assert j - i == (q - p) * size;
      if q <= p {
        MulMono(q - p, 0, size);
      } else {
        MulMono(1, q - p, size);
      }
    }
  }

  // Where frame p of a flat buffer begins, for frames of n samples.
  function Offset(p: nat, n: nat): nat { p * n }

  ghost function FrameAt(a: seq<int>, p: nat, n: nat): Frame
    requires Offset(p, n) + n <= |a|
  {
    a[Offset(p, n)..Offset(p, n) + n]
  }

  lemma FrameFits(p: nat, frames: nat, n: nat)
    requires p < frames
    ensures Offset(p, n) + n <= Offset(frames, n)
    ensures Offset(p + 1, n) == Offset(p, n) + n
  {
    MulMonoStrict(p, frames, n);
  }

  // Frames at different places share no sample.
  lemma FramesApart(p: nat, q: nat, n: nat)
    requires p != q
    ensures Offset(p, n) + n <= Offset(q, n) || Offset(q, n) + n <= Offset(p, n)
  {
    if p < q {
      MulMonoStrict(p, q, n);
    } else {
      MulMonoStrict(q, p, n);
    }
  }

  // A frame of one width put into a frame of another: what does not fit is
  // dropped, what is missing is zero.
  function Fitted(f: Frame, width: nat): (r: Frame)
    ensures |r| == width
  {
    seq(width, i requires 0 <= i < width => if i < |f| then f[i] else 0)
  }

  // After is before but for the n samples from at on.
  ghost predicate OnlyAt(before: seq<int>, after: seq<int>, at: nat, n: nat) {
    |after| == |before| && forall i :: 0 <= i < |before| && !(at <= i < at + n) ==> after[i] == before[i]
  }

  lemma Extended(dst: array<int>, at: nat, i: nat, done: seq<int>, fitted: seq<int>)
    requires at + i < dst.Length && i < |fitted| && done == fitted[..i]
    requires dst[at..at + i] == done && dst[at + i] == fitted[i]
    ensures dst[at..at + i + 1] == fitted[..i + 1]
  {
    assert dst[at..at + i + 1] == dst[at..at + i] + [dst[at + i]];
    assert fitted[..i + 1] == fitted[..i] + [fitted[i]];
  }

  // memcpy of the words both have, memset of the rest.
  method CopyFrame(dst: array<int>, dstAt: nat, width: nat, src: array<int>, srcAt: nat, srcWidth: nat)
    requires dst != src && dstAt + width <= dst.Length && srcAt + srcWidth <= src.Length
    modifies dst
    ensures dst[dstAt..dstAt + width] == Fitted(src[srcAt..srcAt + srcWidth], width)
    ensures OnlyAt(old(dst[..]), dst[..], dstAt, width)
  {
    ghost var fitted := Fitted(src[srcAt..srcAt + srcWidth], width);
    var copy := Min(width, srcWidth);
    var i := 0;
    while i < copy
      invariant 0 <= i <= copy
      invariant dst[dstAt..dstAt + i] == fitted[..i]
      invariant OnlyAt(old(dst[..]), dst[..], dstAt, width)
    {
      ghost var done := dst[dstAt..dstAt + i];
      dst[dstAt + i] := src[srcAt + i];
      Extended(dst, dstAt, i, done, fitted);
      i := i + 1;
    }
    while i < width
      invariant copy <= i <= width
      invariant dst[dstAt..dstAt + i] == fitted[..i]
      invariant OnlyAt(old(dst[..]), dst[..], dstAt, width)
    {
      ghost var done := dst[dstAt..dstAt + i];
      dst[dstAt + i] := 0;
      Extended(dst, dstAt, i, done, fitted);
      i := i + 1;
    }
    assert fitted[..width] == fitted;
  }

  // Writing one frame leaves the others alone.
  lemma OtherFrame(before: seq<int>, after: seq<int>, p: nat, q: nat, n: nat)
    requires p != q && Offset(q, n) + n <= |before| && OnlyAt(before, after, Offset(p, n), n)
    ensures FrameAt(after, q, n) == FrameAt(before, q, n)
  {
    hide Offset;
    FramesApart(p, q, n);
  }

  // ---------------------------------------------------------------- capture

  // The ring holds the last frames of the stream, each at its position modulo
  // the size; a channel the device does not send is zero.
  ghost predicate Holds(ring: seq<int>, size: nat, chans: nat, stream: seq<Frame>)
    requires size > 0
  {
    && Offset(size, chans) <= |ring|
    && forall n: nat :: n < |stream| && |stream| <= n + size ==> HeldAt(ring, n % size, chans, stream[n])
  }

  ghost predicate HeldAt(ring: seq<int>, p: nat, chans: nat, frame: Frame) {
    Offset(p, chans) + chans <= |ring| && FrameAt(ring, p, chans) == Fitted(frame, chans)
  }

  // A frame more: the one it overwrites is a whole ring old.
  lemma StillHolds(before: seq<int>, after: seq<int>, size: nat, chans: nat, stream: seq<Frame>, frame: Frame)
    requires size > 0 && Holds(before, size, chans, stream)
    requires OnlyAt(before, after, Offset(|stream| % size, chans), chans)
    requires HeldAt(after, |stream| % size, chans, frame)
    ensures Holds(after, size, chans, stream + [frame])
  {
    hide Offset, HeldAt, OnlyAt;
    var more, p := stream + [frame], |stream| % size;
    assert |after| == |before| by { SameLength(before, after, Offset(p, chans), chans); }
    forall n: nat | n < |more| && |more| <= n + size ensures HeldAt(after, n % size, chans, more[n]) {
      if n < |stream| {
        PlacesDiffer(n, |stream|, size);
        assert HeldAt(before, n % size, chans, stream[n]);
        StillHeld(before, after, p, n % size, chans, stream[n]);
      }
    }
  }

  lemma SameLength(before: seq<int>, after: seq<int>, at: nat, n: nat)
    requires OnlyAt(before, after, at, n)
    ensures |after| == |before|
  {
  }

  lemma StillHeld(before: seq<int>, after: seq<int>, p: nat, q: nat, chans: nat, frame: Frame)
    requires p != q && OnlyAt(before, after, Offset(p, chans), chans) && HeldAt(before, q, chans, frame)
    ensures HeldAt(after, q, chans, frame)
  {
    hide Offset, Fitted, FrameAt;
    OtherFrame(before, after, p, q, chans);
  }

  // One frame of babyface_capture_copy.
  method CaptureFrame(ring: array<int>, size: nat, chans: nat, pos: nat, data: array<int>, at: nat, words: nat,
                      ghost stream: seq<Frame>)
    requires data != ring && at + words <= data.Length
    requires size > 0 && pos == |stream| % size && Holds(ring[..], size, chans, stream)
    modifies ring
    ensures Holds(ring[..], size, chans, stream + [data[at..at + words]])
  {
    hide Fitted, Offset;
    ghost var before := ring[..];
    NextPlace(|stream|, size);
    FrameFits(pos, size, chans);
    CopyFrame(ring, PlaceOf(pos, chans), chans, data, at, words);
    StillHolds(before, ring[..], size, chans, stream, data[at..at + words]);
  }

  // frames_to_bytes, in words
  function PlaceOf(pos: nat, chans: nat): (at: nat)
    ensures at == Offset(pos, chans)
  {
    pos * chans
  }

  // --------------------------------------------------------------- playback

  // Frame g of the data is frame p of a ring, made to fit.
  ghost predicate Carries(data: seq<int>, g: nat, words: nat, ring: seq<int>, p: nat, chans: nat) {
    && Offset(g, words) + words <= |data| && Offset(p, chans) + chans <= |ring|
    && FrameAt(data, g, words) == Fitted(FrameAt(ring, p, chans), words)
  }

  function Place(start: nat, g: nat, size: nat): nat
    requires size > 0
  {
    (start + g) % size
  }

  // The frames below f of the data carry the frames of a ring from start on.
  ghost predicate CarriesAll(data: seq<int>, f: nat, words: nat, ring: seq<int>, start: nat, size: nat, chans: nat)
    requires size > 0
  {
    forall g: nat :: g < f ==> Carries(data, g, words, ring, Place(start, g, size), chans)
  }

  lemma StillCarries(before: seq<int>, after: seq<int>, f: nat, g: nat, words: nat, ring: seq<int>, p: nat, chans: nat)
    requires f != g && OnlyAt(before, after, Offset(f, words), words) && Carries(before, g, words, ring, p, chans)
    ensures Carries(after, g, words, ring, p, chans)
  {
    hide Offset, Fitted, FrameAt;
    OtherFrame(before, after, f, g, words);
  }

  lemma FillStep(before: seq<int>, after: seq<int>, f: nat, words: nat, ring: seq<int>, start: nat, size: nat,
                 chans: nat)
    requires size > 0 && OnlyAt(before, after, Offset(f, words), words)
    requires CarriesAll(before, f, words, ring, start, size, chans)
    requires Carries(after, f, words, ring, Place(start, f, size), chans)
    ensures CarriesAll(after, f + 1, words, ring, start, size, chans)
  {
    hide Carries, OnlyAt, Offset, Place;
    forall g: nat | g < f ensures Carries(after, g, words, ring, Place(start, g, size), chans) {
      StillCarries(before, after, f, g, words, ring, Place(start, g, size), chans);
    }
  }

  lemma NothingCarried(data: seq<int>, words: nat, ring: seq<int>, start: nat, size: nat, chans: nat)
    requires size > 0
    ensures CarriesAll(data, 0, words, ring, start, size, chans)
  {
  }

  // One frame of babyface_playback_copy.
  method FillNext(ring: array<int>, size: nat, chans: nat, data: array<int>, words: nat, pos: nat, f: nat,
                  ghost start: nat)
    requires size > 0 && Offset(size, chans) <= ring.Length
    requires data != ring && Offset(f, words) + words <= data.Length
    requires pos == Place(start, f, size) && CarriesAll(data[..], f, words, ring[..], start, size, chans)
    modifies data
    ensures CarriesAll(data[..], f + 1, words, ring[..], start, size, chans)
    ensures OnlyAt(old(data[..]), data[..], Offset(f, words), words)
  {
    hide CarriesAll, Fitted, Offset, OnlyAt;
    ghost var before := data[..];
    NextPlace(start + f, size);
    FrameFits(pos, size, chans);
    CopyFrame(data, PlaceOf(f, words), words, ring, PlaceOf(pos, chans), chans);
    FillStep(before, data[..], f, words, ring[..], start, size, chans);
  }

  // ---------------------------------------------------------------- periods

  // What hw_ptr / period_size and prev_period make of a move by some frames:
  // at most one period boundary is crossed, if the move fits a period.
  lemma OneBoundary(hwPtr: nat, frames: nat, period: nat)
    requires 0 < frames <= period
    ensures hwPtr / period <= (hwPtr + frames) / period <= hwPtr / period + 1
  {
    DivBounds(hwPtr, period);
    DivBounds(hwPtr + frames, period);
    Boundaries(hwPtr, frames, period, hwPtr / period, (hwPtr + frames) / period);
  }

  lemma Boundaries(hwPtr: nat, frames: nat, period: nat, p: int, q: int)
    requires 0 < frames <= period
    requires p * period <= hwPtr < p * period + period
    requires q * period <= hwPtr + frames < q * period + period
    ensures p <= q <= p + 1
  {
    if q < p {
      MulMonoStrict(q, p, period);
    } else if q > p + 1 {
      MulMono(p + 2, q, period);
    }
  }

  // -------------------------------------------------------------- a substream

  class Substream {
    const ring: array<int>
    const bufFrames: nat
    const chans: nat
    const period: nat
    var hwPtr: nat
    var prevPeriod: nat
    // How often a call said that a period has elapsed, since the start.
    ghost var notified: nat

    ghost predicate Valid()
      reads this
    {
      && bufFrames > 0 && chans > 0 && period > 0
      && Offset(bufFrames, chans) <= ring.Length
      && prevPeriod == hwPtr / period == notified
    }

    constructor (bufFrames: nat, chans: nat, period: nat)
      requires bufFrames > 0 && chans > 0 && period > 0
      ensures Valid() && hwPtr == 0 && fresh(ring)
      ensures this.bufFrames == bufFrames && this.chans == chans && this.period == period
    {
      this.bufFrames, this.chans, this.period := bufFrames, chans, period;
      ring := new int[PlaceOf(bufFrames, chans)];
      hwPtr, prevPeriod, notified := 0, 0, 0;
      QuotientOf(0, period, 0);
    }

    // prepare and trigger START
    method Restart()
      requires Valid()
      modifies this
      ensures Valid() && hwPtr == 0 && notified == 0
    {
      QuotientOf(0, period, 0);
      hwPtr, prevPeriod, notified := 0, 0, 0;
    }

    // The end of both copies: moves the pointer, tells whether a period has
    // elapsed.
    method Advance(frames: nat) returns (crossed: bool)
      requires Valid() && 0 < frames <= period
      modifies this
      ensures Valid() && hwPtr == old(hwPtr) + frames
      ensures crossed <==> hwPtr / period != old(hwPtr) / period
      ensures notified == old(notified) + (if crossed then 1 else 0)
    {
      hide Offset;
      OneBoundary(hwPtr, frames, period);
      hwPtr := hwPtr + frames;
      var newPeriod := hwPtr / period;
      crossed := newPeriod != prevPeriod;
      if crossed {
        prevPeriod := newPeriod;
        notified := notified + 1;
      }
    }

    // What the ring says of the stream captured since the start.
    ghost predicate HoldsStream(stream: seq<Frame>)
      requires bufFrames > 0
      reads ring
    {
      Holds(ring[..], bufFrames, chans, stream)
    }

    // babyface_capture_copy: the device frames of a URB go into the ring.
    method CaptureCopy(data: array<int>, words: nat, frames: nat, ghost stream: seq<Frame>)
      returns (crossed: bool)
      requires Valid() && data != ring && Offset(frames, words) <= data.Length && 0 < frames <= period
      requires |stream| == hwPtr && HoldsStream(stream)
      modifies this, ring
      ensures Valid() && hwPtr == old(hwPtr) + frames && HoldsStream(stream + FramesOf(data[..], words, frames))
      ensures crossed <==> hwPtr / period != old(hwPtr) / period
      ensures notified == old(notified) + (if crossed then 1 else 0)
    {
      hide Holds, Offset, FramesOf;
      var pos := hwPtr % bufFrames;
      var f := 0;
      FramesNone(data[..], words);
      assert stream + [] == stream;
      while f < frames
        invariant 0 <= f <= frames && Valid() && hwPtr == old(hwPtr) && notified == old(notified)
        invariant pos == (hwPtr + f) % bufFrames && Offset(f, words) <= data.Length
        invariant HoldsStream(stream + FramesOf(data[..], words, f))
      {
        ghost var now := stream + FramesOf(data[..], words, f);
        FrameFits(f, frames, words);
        CaptureFrame(ring, bufFrames, chans, pos, data, PlaceOf(f, words), words, now);
        FramesNext(data[..], words, f);
        assert stream + FramesOf(data[..], words, f + 1) ==
               now + [data[Offset(f, words)..Offset(f, words) + words]];
        NextPlace(hwPtr + f, bufFrames);
        pos := pos + 1;
        if pos >= bufFrames {
          pos := 0;
        }
        f := f + 1;
      }
      crossed := Advance(frames);
    }

    // babyface_capture_urb: whole frames only; nothing of a stopped substream.
    method CaptureUrb(running: bool, data: array<int>, actualLength: nat, words: nat, ghost stream: seq<Frame>)
      returns (crossed: bool, ghost stream': seq<Frame>)
      requires Valid() && data != ring && words > 0 && actualLength <= 4 * data.Length
      requires WholeIn(actualLength, 4 * words) <= period
      requires |stream| == hwPtr && HoldsStream(stream)
      modifies this, ring
      ensures Valid() && |stream'| == hwPtr && HoldsStream(stream')
      ensures Offset(WholeIn(actualLength, 4 * words), words) <= data.Length
      ensures stream' == stream + (if running then FramesOf(data[..], words, WholeIn(actualLength, 4 * words)) else [])
      ensures stream <= stream' && (!running ==> stream' == stream)
      ensures var frames := |stream'| - |stream|;
              running ==>
                && frames * (4 * words) <= actualLength < frames * (4 * words) + 4 * words
                && 0 <= frames * words <= data.Length
                && EndToEnd(stream'[|stream|..], data[..frames * words], words)
      ensures notified == old(notified) + (if crossed then 1 else 0)
    {
      hide Holds, WholeIn, FramesOf, Offset, EndToEnd;
      var frames := WholeIn(actualLength, 4 * words);
      WholeFrames(actualLength, words, data.Length);
      FramesEndToEnd(data[..], words, frames);
      stream' := stream;
      assert stream + [] == stream;
      if !running {
        return false, stream';
      }
      if frames == 0 {
        FramesNone(data[..], words);
        return false, stream';
      }
      stream' := stream + FramesOf(data[..], words, frames);
      crossed := CaptureCopy(data, words, frames, stream);
    }

    // The first frames of a URB carry the frames of the ring from start on.
    ghost predicate Filled(data: array<int>, frames: nat, words: nat, start: nat)
      requires bufFrames > 0
      reads ring, data
    {
      CarriesAll(data[..], frames, words, ring[..], start, bufFrames, chans)
    }

    // babyface_playback_copy: the next frames of the ring fill a URB.
    method PlaybackCopy(data: array<int>, words: nat, frames: nat) returns (crossed: bool)
      requires Valid() && data != ring && Offset(frames, words) <= data.Length && 0 < frames <= period
      modifies this, data
      ensures Valid() && hwPtr == old(hwPtr) + frames
      ensures Filled(data, frames, words, old(hwPtr))
      ensures OnlyAt(old(data[..]), data[..], 0, Offset(frames, words))
      ensures crossed <==> hwPtr / period != old(hwPtr) / period
      ensures notified == old(notified) + (if crossed then 1 else 0)
    {
      hide CarriesAll, Offset;
      NothingCarried(data[..], words, ring[..], hwPtr, bufFrames, chans);
      var pos := hwPtr % bufFrames;
      var f := 0;
      while f < frames
        invariant 0 <= f <= frames && Valid() && hwPtr == old(hwPtr) && notified == old(notified)
        invariant pos == (hwPtr + f) % bufFrames
        invariant Filled(data, f, words, hwPtr)
        invariant OnlyAt(old(data[..]), data[..], 0, Offset(frames, words))
        modifies data
      {
        FrameFits(f, frames, words);
        FillNext(ring, bufFrames, chans, data, words, pos, f, hwPtr);
        NextPlace(hwPtr + f, bufFrames);
        pos := pos + 1;
        if pos >= bufFrames {
          pos := 0;
        }
        f := f + 1;
      }
      crossed := Advance(frames);
    }

    // babyface_complete_out: a URB that nothing plays into carries silence.
    method FillUrb(running: bool, data: array<int>, words: nat, frames: nat) returns (crossed: bool)
      requires Valid() && data != ring && Offset(frames, words) == data.Length && 0 < frames <= period
      modifies this, data
      ensures Valid() && hwPtr == old(hwPtr) + (if running then frames else 0)
      ensures running ==> Filled(data, frames, words, old(hwPtr))
      ensures !running ==> data[..] == Zeros(data.Length)
      ensures crossed <==> hwPtr / period != old(hwPtr) / period
      ensures notified == old(notified) + (if crossed then 1 else 0)
    {
      hide CarriesAll, Offset;
      crossed := false;
      if running {
        crossed := PlaybackCopy(data, words, frames);
      } else {
        ClearBuffer(data);
      }
    }
  }

  // The frames of a URB's data.
  ghost function FramesOf(data: seq<int>, words: nat, frames: nat): (s: seq<Frame>)
    requires Offset(frames, words) <= |data|
    ensures |s| == frames
  {
    seq(frames, f requires 0 <= f < frames => (FrameFits(f, frames, words); FrameAt(data, f, words)))
  }

  // The whole frames in a number of bytes.
  function WholeIn(bytes: nat, frameBytes: nat): nat
    requires frameBytes > 0
  {
    bytes / frameBytes
  }

  // All the whole frames, and the samples they have.
  lemma WholeFrames(bytes: nat, words: nat, length: nat)
    requires words > 0 && bytes <= 4 * length
    ensures var n := WholeIn(bytes, 4 * words);
            && n * (4 * words) <= bytes < n * (4 * words) + 4 * words
            && Offset(n, words) == n * words <= length
  {
    var q := WholeIn(bytes, 4 * words);
    DivBounds(bytes, 4 * words);
    FourTimes(q, words);
  }

  lemma FourTimes(q: nat, words: nat)
    ensures q * (4 * words) == 4 * (q * words)
  {
  }

  lemma FramesNone(data: seq<int>, words: nat)
    ensures Offset(0, words) == 0 && FramesOf(data, words, 0) == []
  {
  }

  lemma FramesNext(data: seq<int>, words: nat, f: nat)
    requires Offset(f + 1, words) <= |data|
    ensures Offset(f + 1, words) == Offset(f, words) + words
    ensures FramesOf(data, words, f + 1) == FramesOf(data, words, f) + [FrameAt(data, f, words)]
  {
    hide Offset;
    FrameFits(f, f + 1, words);
  }

  // Put end to end, the frames are the samples.
  ghost predicate EndToEnd(stream: seq<Frame>, samples: seq<int>, words: nat) {
    && |samples| == |stream| * words
    && (forall n: nat :: n < |stream| ==> |stream[n]| == words)
    && forall n: nat, c: nat :: n < |stream| && c < words ==> SampleOf(stream, samples, words, n, c)
  }

  ghost predicate SampleOf(stream: seq<Frame>, samples: seq<int>, words: nat, n: nat, c: nat) {
    n < |stream| && c < |stream[n]| && n * words + c < |samples| && stream[n][c] == samples[n * words + c]
  }

  lemma FramesEndToEnd(data: seq<int>, words: nat, frames: nat)
    requires Offset(frames, words) <= |data|
    ensures 0 <= frames * words <= |data| && EndToEnd(FramesOf(data, words, frames), data[..frames * words], words)
  {
    hide FramesOf, SampleOf;
    var stream, samples := FramesOf(data, words, frames), data[..frames * words];
    forall n: nat, c: nat | n < frames && c < words ensures SampleOf(stream, samples, words, n, c) {
      FrameSamples(data, words, frames, n);
    }
    forall n: nat | n < frames ensures |stream[n]| == words {
      FrameSamples(data, words, frames, n);
    }
  }

  lemma FrameSamples(data: seq<int>, words: nat, frames: nat, n: nat)
    requires 0 <= frames * words <= |data| && n < frames
    ensures Offset(frames, words) == frames * words && |FramesOf(data, words, frames)[n]| == words
    ensures forall c: nat :: c < words ==>
              SampleOf(FramesOf(data, words, frames), data[..frames * words], words, n, c)
  {
    FrameFits(n, frames, words);
  }

  lemma MoreEndToEnd(a: seq<Frame>, x: seq<int>, b: seq<Frame>, y: seq<int>, words: nat)
    requires EndToEnd(a, x, words) && EndToEnd(b, y, words)
    ensures EndToEnd(a + b, x + y, words)
  {
    SumTimes(|a|, |b|, words);
    forall n: nat, c: nat | n < |a + b| && c < words ensures SampleOf(a + b, x + y, words, n, c) {
      if n < |a| {
        assert SampleOf(a, x, words, n, c);
      } else {
        SumTimes(|a|, n - |a|, words);
        assert SampleOf(b, y, words, n - |a|, c);
      }
    }
  }

  lemma SumTimes(m: int, n: int, words: int)
    ensures (m + n) * words == m * words + n * words
  {
  }

  // Of so many frames of samples, put end to end, the ring has the last: channel
  // c of frame n at its place, zero where the device sends no such channel.
  ghost predicate Shows(ring: seq<int>, size: nat, chans: nat, samples: seq<int>, words: nat, frames: nat)
    requires size > 0
  {
    && |samples| == frames * words
    && forall n: nat, c: nat :: n < frames <= n + size && c < chans ==> ShownAt(ring, size, chans, samples, words, n, c)
  }

  ghost predicate ShownAt(ring: seq<int>, size: nat, chans: nat, samples: seq<int>, words: nat, n: nat, c: nat)
    requires size > 0
  {
    && n % size * chans + c < |ring|
    && if c < words then n * words + c < |samples| && ring[n % size * chans + c] == samples[n * words + c]
       else ring[n % size * chans + c] == 0
  }

  lemma RingShows(ring: seq<int>, size: nat, chans: nat, stream: seq<Frame>, samples: seq<int>, words: nat)
    requires size > 0 && Holds(ring, size, chans, stream) && EndToEnd(stream, samples, words)
    ensures Shows(ring, size, chans, samples, words, |stream|)
  {
    hide HeldAt;
    forall n: nat, c: nat | n < |stream| <= n + size && c < chans
      ensures ShownAt(ring, size, chans, samples, words, n, c)
    {
      assert HeldAt(ring, n % size, chans, stream[n]);
      HeldSample(ring, n % size, chans, stream[n], c);
      if c < words {
        assert SampleOf(stream, samples, words, n, c);
      }
    }
  }

  lemma HeldSample(ring: seq<int>, p: nat, chans: nat, frame: Frame, c: nat)
    requires HeldAt(ring, p, chans, frame) && c < chans
    ensures p * chans + c < |ring| && ring[p * chans + c] == if c < |frame| then frame[c] else 0
  {
    assert FrameAt(ring, p, chans)[c] == ring[p * chans + c];
  }

  // ------------------------------------------------------------------- runs

  // What happens to a substream: the calls of the core, and what comes from the
  // bus.
  datatype Event<T> = Prepare | Start | Stop | Bus(it: T)

  predicate Running<T>(events: seq<Event<T>>) {
    events != [] &&
    match events[|events| - 1]
    case Start => true
    case Stop => false
    case _ => Running(events[..|events| - 1])
  }

  // An IN URB comes back, good or bad, with so many bytes of data.
  datatype In = In(good: bool, data: seq<int>, bytes: nat)
  {
    predicate Fits(words: nat, period: nat)
      requires words > 0
    {
      bytes <= 4 * |data| && WholeIn(bytes, 4 * words) <= period
    }

    // The samples but for what is left of a frame.
    function Whole(words: nat): seq<int>
      requires words > 0 && bytes <= 4 * |data|
    {
      RemainderIsLess(bytes, 4 * words);
      data[..(bytes - bytes % (4 * words)) / 4]
    }

    ghost function Frames(words: nat): seq<Frame>
      requires words > 0 && bytes <= 4 * |data|
    {
      WholeFrames(bytes, words, |data|);
      FramesOf(data, words, WholeIn(bytes, 4 * words))
    }
  }

  ghost predicate AllFit(events: seq<Event<In>>, words: nat, period: nat)
    requires words > 0
  {
    forall i :: 0 <= i < |events| && events[i].Bus? ==> events[i].it.Fits(words, period)
  }

  // The frames that came in good URBs while the substream ran, since prepare or
  // START last set the pointer back.
  ghost function Captured(events: seq<Event<In>>, words: nat, period: nat): seq<Frame>
    requires words > 0 && AllFit(events, words, period)
  {
    if events == [] then []
    else
      var before := events[..|events| - 1];
      match events[|events| - 1]
      case Prepare => []
      case Start => []
      case Stop => Captured(before, words, period)
      case Bus(urb) =>
        Captured(before, words, period) + if urb.good && Running(before) then urb.Frames(words) else []
  }

  // The samples of those URBs, one after the other: all that came but for what
  // is left of a frame at the end of a URB.
  function Samples(events: seq<Event<In>>, words: nat): seq<int>
    requires words > 0 && Lengths(events)
  {
    if events == [] then []
    else
      var before := events[..|events| - 1];
      match events[|events| - 1]
      case Prepare => []
      case Start => []
      case Stop => Samples(before, words)
      case Bus(urb) =>
        assert events[|events| - 1].Bus?;
        Samples(before, words) + if urb.good && Running(before) then urb.Whole(words) else []
  }

  predicate Lengths(events: seq<Event<In>>) {
    forall i :: 0 <= i < |events| && events[i].Bus? ==> events[i].it.bytes <= 4 * |events[i].it.data|
  }

  // No sample is lost, none comes twice, and they stay in order.
  lemma {:induction false} CapturedIsTheSamples(events: seq<Event<In>>, words: nat, period: nat)
    requires words > 0 && AllFit(events, words, period)
    ensures Lengths(events) && EndToEnd(Captured(events, words, period), Samples(events, words), words)
  {
    hide In.Frames, In.Whole, EndToEnd, Running;
    NoFrames(words);
    if events != [] {
      var before, e := events[..|events| - 1], events[|events| - 1];
      CapturedIsTheSamples(before, words, period);
      if e.Bus? {
        var stream, samples := Captured(before, words, period), Samples(before, words);
        FramesOfUrb(e.it, words);
        MoreEndToEnd(stream, samples, e.it.Frames(words), e.it.Whole(words), words);
        assert stream + [] == stream && samples + [] == samples;
      }
    }
  }

  lemma NoFrames(words: nat)
    ensures EndToEnd([], [], words)
  {
  }

  lemma FramesOfUrb(urb: In, words: nat)
    requires words > 0 && urb.bytes <= 4 * |urb.data|
    ensures EndToEnd(urb.Frames(words), urb.Whole(words), words)
  {
    hide EndToEnd, WholeIn, FramesOf;
    var n := WholeIn(urb.bytes, 4 * words);
    WholeFrames(urb.bytes, words, |urb.data|);
    FramesEndToEnd(urb.data, words, n);
    LessTheRest(urb.bytes, words, n);
  }

  lemma RemainderIsLess(a: nat, d: nat)
    requires d > 0
    ensures 0 <= a % d <= a
  {
    DivBounds(a, d);
  }

  lemma LessTheRest(bytes: nat, words: nat, n: nat)
    requires words > 0 && n * (4 * words) <= bytes < n * (4 * words) + 4 * words
    ensures (bytes - bytes % (4 * words)) / 4 == n * words
  {
    QuotientOf(bytes, 4 * words, n);
    assert bytes % (4 * words) == bytes - n * (4 * words);
    FourTimes(n, words);
  }

  function WholePeriods(frames: nat, period: nat): nat
    requires period > 0
  {
    frames / period
  }

  // The periods of all the times the pointer was set back, up to then.
  ghost function CapturedPeriods(events: seq<Event<In>>, words: nat, period: nat): nat
    requires words > 0 && period > 0 && AllFit(events, words, period)
  {
    if events == [] then 0
    else
      var before := events[..|events| - 1];
      CapturedPeriods(before, words, period) +
      if events[|events| - 1].Prepare? || events[|events| - 1].Start?
      then WholePeriods(|Captured(before, words, period)|, period) else 0
  }

  // One event of a capture substream: crossed, whether a period is told.
  method CaptureEvent(s: Substream, words: nat, e: Event<In>, running: bool, ghost stream: seq<Frame>)
    returns (running': bool, crossed: bool, ghost stream': seq<Frame>)
    requires s.Valid() && words > 0 && (e.Bus? ==> e.it.Fits(words, s.period))
    requires |stream| == s.hwPtr && s.HoldsStream(stream)
    modifies s, s.ring
    ensures s.Valid() && |stream'| == s.hwPtr && s.HoldsStream(stream')
    ensures running' == if e.Start? then true else if e.Stop? then false else running
    ensures stream' == if e.Prepare? || e.Start? then []
                       else if e.Bus? && e.it.good && running then stream + e.it.Frames(words)
                       else stream
    ensures e.Prepare? || e.Start? ==> !crossed && s.notified == 0
    ensures e.Stop? || e.Bus? ==> s.notified == old(s.notified) + (if crossed then 1 else 0)
  {
    hide WholeIn, FramesOf, Holds;
    running', crossed, stream' := running, false, stream;
    match e
    case Prepare =>
      s.Restart();
      stream' := [];
      EmptyHolds(s.ring[..], s.bufFrames, s.chans);
    case Start =>
      s.Restart();
      running', stream' := true, [];
      EmptyHolds(s.ring[..], s.bufFrames, s.chans);
    case Stop => running' := false;
    case Bus(urb) =>
      if urb.good {
        var data := new int[|urb.data|](k requires 0 <= k < |urb.data| => urb.data[k]);
        assert data[..] == urb.data;
        assert stream + [] == stream;
        crossed, stream' := s.CaptureUrb(running, data, urb.bytes, words, stream);
      }
  }

  // Any sequence of events after probe: the ring holds the end of what was
  // captured since the pointer was last set back, and the periods told are the
  // whole periods of each such stretch.
  method CaptureAll(s: Substream, words: nat, events: seq<Event<In>>) returns (periods: nat)
    requires s.Valid() && words > 0 && s.hwPtr == 0 && AllFit(events, words, s.period)
    modifies s, s.ring
    ensures s.Valid() && s.hwPtr == |Captured(events, words, s.period)|
    ensures s.HoldsStream(Captured(events, words, s.period))
    ensures Shows(s.ring[..], s.bufFrames, s.chans, Samples(events, words), words, s.hwPtr)
    ensures periods == CapturedPeriods(events, words, s.period) + |Captured(events, words, s.period)| / s.period
  {
    hide Holds, In.Fits, In.Frames, Shows, EndToEnd, Samples;
    periods := 0;
    var running := false;
    ghost var stream: seq<Frame> := [];
    EmptyHolds(s.ring[..], s.bufFrames, s.chans);
    NoPeriods(s.period);
    var i := 0;
    while i < |events|
      invariant 0 <= i <= |events| && s.Valid() && running == Running(events[..i])
      invariant stream == Captured(events[..i], words, s.period) && |stream| == s.hwPtr && s.HoldsStream(stream)
      invariant periods == CapturedPeriods(events[..i], words, s.period) + s.notified
    {
      assert events[..i + 1][..i] == events[..i];
      assert stream + [] == stream;
      var crossed;
      running, crossed, stream := CaptureEvent(s, words, events[i], running, stream);
      if crossed {
        periods := periods + 1;
      }
      i := i + 1;
    }
    assert events[..i] == events;
    CapturedIsTheSamples(events, words, s.period);
    RingShows(s.ring[..], s.bufFrames, s.chans, stream, Samples(events, words), words);
  }

  lemma NoPeriods(period: nat)
    requires period > 0
    ensures 0 / period == 0
  {
    QuotientOf(0, period, 0);
  }

  lemma EmptyHolds(ring: seq<int>, size: nat, chans: nat)
    requires size > 0 && Offset(size, chans) <= |ring|
    ensures Holds(ring, size, chans, [])
  {
  }

  // The application writes the ring, a session starts, or OUT URB k comes back,
  // good or bad.  A URB whose status says it was killed, or the device gone,
  // is none of these: nothing is done with it.
  datatype Out = Wrote(ring: seq<int>) | NewSession | Done(k: nat, good: bool)

  // A good completion while the substream runs.
  predicate Feeds(events: seq<Event<Out>>, e: Event<Out>) {
    e.Bus? && e.it.Done? && e.it.good && Running(events)
  }

  function RingNow(events: seq<Event<Out>>, ring: seq<int>): seq<int> {
    if events == [] then ring
    else
      var e := events[|events| - 1];
      if e.Bus? && e.it.Wrote? then e.it.ring else RingNow(events[..|events| - 1], ring)
  }

  // The rings that were played from, URB by URB, since the pointer was last set
  // back: each as it was by then.
  function Played(events: seq<Event<Out>>, ring: seq<int>): seq<seq<int>> {
    if events == [] then []
    else
      var before, e := events[..|events| - 1], events[|events| - 1];
      if e.Prepare? || e.Start? then []
      else Played(before, ring) + if Feeds(before, e) then [RingNow(before, ring)] else []
  }

  // out[i] is what URB k carries after event i, where that is its completion.
  predicate Sized(events: seq<Event<Out>>, out: seq<seq<int>>, size: nat) {
    && |out| == |events|
    && forall i :: 0 <= i < |events| && events[i].Bus? && events[i].it.Done? ==> |out[i]| == size
  }

  // The frames put into the URBs since the pointer was last set back.
  ghost function Emitted(events: seq<Event<Out>>, out: seq<seq<int>>, words: nat, frames: nat): seq<Frame>
    requires Sized(events, out, Offset(frames, words))
  {
    if events == [] then []
    else
      var n := |events| - 1;
      if events[n].Prepare? || events[n].Start? then []
      else
        Emitted(events[..n], out[..n], words, frames) +
        if Feeds(events[..n], events[n]) then FramesOf(out[n], words, frames) else []
  }

  // What URB k carries: what its last completion left in it, or zeros since the
  // session started.
  function Carried(events: seq<Event<Out>>, out: seq<seq<int>>, k: nat, size: nat): seq<int>
    requires Sized(events, out, size)
  {
    if events == [] then Zeros(size)
    else
      var n := |events| - 1;
      if events[n].Bus? && events[n].it == NewSession then Zeros(size)
      else if events[n].Bus? && events[n].it.Done? && events[n].it.k == k then out[n]
      else Carried(events[..n], out[..n], k, size)
  }

  function Zeros(size: nat): (z: seq<int>)
    ensures |z| == size
  {
    seq(size, i => 0)
  }

  // The periods of all the times the pointer was set back, up to then.
  function PlayedPeriods(events: seq<Event<Out>>, ring: seq<int>, frames: nat, period: nat): nat
    requires period > 0
  {
    if events == [] then 0
    else
      var before, e := events[..|events| - 1], events[|events| - 1];
      PlayedPeriods(before, ring, frames, period) +
      if e.Prepare? || e.Start? then WholePeriods(Offset(|Played(before, ring)|, frames), period) else 0
  }

  // Frame n of the stream is frame n, modulo its size, of the ring that it was
  // taken from: the frames of one URB come from one ring.
  ghost predicate InOrder(frame: Frame, n: nat, rings: seq<seq<int>>, frames: nat, size: nat, chans: nat, words: nat)
    requires frames > 0 && size > 0
  {
    && n / frames < |rings| && Offset(n % size, chans) + chans <= |rings[n / frames]|
    && frame == Fitted(FrameAt(rings[n / frames], n % size, chans), words)
  }

  ghost predicate AllInOrder(stream: seq<Frame>, rings: seq<seq<int>>, frames: nat, size: nat, chans: nat, words: nat)
    requires frames > 0 && size > 0
  {
    && |stream| == Offset(|rings|, frames)
    && forall n: nat :: n < |stream| ==> InOrder(stream[n], n, rings, frames, size, chans, words)
  }

  // A URB more.
  lemma EmitStep(stream: seq<Frame>, rings: seq<seq<int>>, ring: seq<int>, data: seq<int>, frames: nat, size: nat,
                 chans: nat, words: nat)
    requires frames > 0 && size > 0 && AllInOrder(stream, rings, frames, size, chans, words)
    requires |data| == Offset(frames, words) && CarriesAll(data, frames, words, ring, |stream|, size, chans)
    ensures AllInOrder(stream + FramesOf(data, words, frames), rings + [ring], frames, size, chans, words)
  {
    hide Offset, Fitted, FrameAt, FramesOf;
    var more, rings' := stream + FramesOf(data, words, frames), rings + [ring];
    FrameFits(|rings|, |rings'|, frames);
    forall n: nat | n < |more| ensures InOrder(more[n], n, rings', frames, size, chans, words) {
      if n < |stream| {
        assert InOrder(stream[n], n, rings, frames, size, chans, words);
      } else {
        var f := n - |stream|;
        OffsetQuotient(|rings|, frames, f);
        assert Carries(data, f, words, ring, Place(|stream|, f, size), chans);
        EmittedFrame(data, words, frames, f);
      }
    }
  }

  lemma OffsetQuotient(q: nat, frames: nat, f: nat)
    requires f < frames
    ensures (Offset(q, frames) + f) / frames == q
  {
    QuotientOf(Offset(q, frames) + f, frames, q);
  }

  lemma EmittedFrame(data: seq<int>, words: nat, frames: nat, f: nat)
    requires f < frames && |data| == Offset(frames, words)
    ensures Offset(f, words) + words <= |data| && FramesOf(data, words, frames)[f] == FrameAt(data, f, words)
  {
    FrameFits(f, frames, words);
  }

  // The application's writes.
  method Write(ring: array<int>, contents: seq<int>)
    requires |contents| == ring.Length
    modifies ring
    ensures ring[..] == contents
  {
    var i := 0;
    while i < ring.Length
      invariant 0 <= i <= ring.Length && ring[..i] == contents[..i]
    {
      ring[i] := contents[i];
      i := i + 1;
    }
    assert contents[..i] == contents;
  }

  // Since the pointer was last set back, the URBs carried the frames of the ring
  // in order, whatever it held by then.
  ghost predicate Ordered(events: seq<Event<Out>>, out: seq<seq<int>>, ring: seq<int>, words: nat, frames: nat,
                          size: nat, chans: nat)
    requires frames > 0 && size > 0
  {
    && Sized(events, out, Offset(frames, words))
    && AllInOrder(Emitted(events, out, words, frames), Played(events, ring), frames, size, chans, words)
  }

  // The last completion left silence in its URB where nothing plays, and what it
  // carried before where it came back bad.
  predicate Refilled(events: seq<Event<Out>>, out: seq<seq<int>>, size: nat) {
    && Sized(events, out, size)
    && (events != [] && events[|events| - 1].Bus? && events[|events| - 1].it.Done? ==>
          var n := |events| - 1;
          && (events[n].it.good && !Running(events[..n]) ==> out[n] == Zeros(size))
          && (!events[n].it.good ==> out[n] == Carried(events[..n], out[..n], events[n].it.k, size)))
  }

  // A URB that was filled has, sample by sample, the next frames of the ring as
  // it was by then; a channel the ring does not have is zero.
  ghost predicate Sent(events: seq<Event<Out>>, out: seq<seq<int>>, ring: seq<int>, words: nat, frames: nat, size: nat,
                       chans: nat)
    requires size > 0
  {
    && |out| == |events|
    && (events != [] ==>
          var n := |events| - 1;
          Feeds(events[..n], events[n]) ==>
            SendsFrom(out[n], RingNow(events[..n], ring), |Played(events[..n], ring)| * frames, words, frames, size,
                      chans))
  }

  ghost predicate SendsFrom(data: seq<int>, ring: seq<int>, start: nat, words: nat, frames: nat, size: nat, chans: nat)
    requires size > 0
  {
    forall f: nat, c: nat :: f < frames && c < words ==> SentAt(data, ring, start, words, size, chans, f, c)
  }

  ghost predicate SentAt(data: seq<int>, ring: seq<int>, start: nat, words: nat, size: nat, chans: nat, f: nat, c: nat)
    requires size > 0
  {
    && f * words + c < |data|
    && if c < chans then
         (start + f) % size * chans + c < |ring| && data[f * words + c] == ring[(start + f) % size * chans + c]
       else data[f * words + c] == 0
  }

  lemma SentStep(events: seq<Event<Out>>, out: seq<seq<int>>, e: Event<Out>, x: seq<int>, ring: seq<int>, words: nat,
                 frames: nat, size: nat, chans: nat)
    requires frames > 0 && size > 0 && |out| == |events|
    requires Feeds(events, e) ==>
               CarriesAll(x, frames, words, RingNow(events, ring), Offset(|Played(events, ring)|, frames), size, chans)
    ensures Sent(events + [e], out + [x], ring, words, frames, size, chans)
  {
    hide CarriesAll, SendsFrom;
    assert (events + [e])[..|events|] == events;
    if Feeds(events, e) {
      CarriedSamples(x, frames, words, RingNow(events, ring), |Played(events, ring)| * frames, size, chans);
    }
  }

  lemma CarriedSamples(data: seq<int>, frames: nat, words: nat, ring: seq<int>, start: nat, size: nat, chans: nat)
    requires size > 0 && CarriesAll(data, frames, words, ring, start, size, chans)
    ensures SendsFrom(data, ring, start, words, frames, size, chans)
  {
    hide Carries;
    forall f: nat, c: nat | f < frames && c < words ensures SentAt(data, ring, start, words, size, chans, f, c) {
      assert Carries(data, f, words, ring, Place(start, f, size), chans);
      CarriedSample(data, f, words, ring, Place(start, f, size), chans, c);
    }
  }

  lemma CarriedSample(data: seq<int>, f: nat, words: nat, ring: seq<int>, p: nat, chans: nat, c: nat)
    requires Carries(data, f, words, ring, p, chans) && c < words
    ensures f * words + c < |data|
    ensures if c < chans then p * chans + c < |ring| && data[f * words + c] == ring[p * chans + c]
            else data[f * words + c] == 0
  {
    assert FrameAt(data, f, words)[c] == data[f * words + c];
    if c < chans {
      assert FrameAt(ring, p, chans)[c] == ring[p * chans + c];
    }
  }

  // An event more.
  lemma OrderStep(events: seq<Event<Out>>, out: seq<seq<int>>, e: Event<Out>, x: seq<int>, ring: seq<int>, words: nat,
                  frames: nat, size: nat, chans: nat)
    requires frames > 0 && size > 0 && Ordered(events, out, ring, words, frames, size, chans)
    requires e.Bus? && e.it.Done? ==> |x| == Offset(frames, words)
    requires Feeds(events, e) ==>
               CarriesAll(x, frames, words, RingNow(events, ring), Offset(|Played(events, ring)|, frames), size, chans)
    ensures Ordered(events + [e], out + [x], ring, words, frames, size, chans)
  {
    hide Offset, CarriesAll, FramesOf, AllInOrder;
    var more, out' := events + [e], out + [x];
    assert more[..|events|] == events && out'[..|out|] == out;
    var stream, rings := Emitted(events, out, words, frames), Played(events, ring);
    assert stream + [] == stream && rings + [] == rings;
    NothingEmitted(words, frames, size, chans);
    if Feeds(events, e) {
      StreamLength(stream, rings, frames, size, chans, words);
      EmitStep(stream, rings, RingNow(events, ring), x, frames, size, chans, words);
    }
  }

  lemma StreamLength(stream: seq<Frame>, rings: seq<seq<int>>, frames: nat, size: nat, chans: nat, words: nat)
    requires frames > 0 && size > 0 && AllInOrder(stream, rings, frames, size, chans, words)
    ensures |stream| == Offset(|rings|, frames)
  {
  }

  lemma NothingEmitted(words: nat, frames: nat, size: nat, chans: nat)
    requires frames > 0 && size > 0
    ensures AllInOrder([], [], frames, size, chans, words)
  {
  }

  lemma RefillStep(events: seq<Event<Out>>, out: seq<seq<int>>, e: Event<Out>, x: seq<int>, size: nat)
    requires Sized(events, out, size)
    requires e.Bus? && e.it.Done? ==>
               && |x| == size && (e.it.good && !Running(events) ==> x == Zeros(size))
               && (!e.it.good ==> x == Carried(events, out, e.it.k, size))
    ensures Refilled(events + [e], out + [x], size)
  {
    assert (events + [e])[..|events|] == events && (out + [x])[..|out|] == out;
  }

  // What the URBs and the pointer are after an event more.
  lemma StateStep(events: seq<Event<Out>>, out: seq<seq<int>>, e: Event<Out>, x: seq<int>, ring: seq<int>, frames: nat,
                  period: nat, size: nat)
    requires Sized(events, out, size) && period > 0
    requires e.Bus? && e.it.Done? ==> |x| == size
    ensures var more, out' := events + [e], out + [x];
            && Sized(more, out', size)
            && Running(more) == (if e.Start? then true else if e.Stop? then false else Running(events))
            && RingNow(more, ring) == (if e.Bus? && e.it.Wrote? then e.it.ring else RingNow(events, ring))
            && Played(more, ring) == (if e.Prepare? || e.Start? then []
                                      else if Feeds(events, e) then Played(events, ring) + [RingNow(events, ring)]
                                      else Played(events, ring))
            && PlayedPeriods(more, ring, frames, period)
               == PlayedPeriods(events, ring, frames, period)
                  + (if e.Prepare? || e.Start? then WholePeriods(Offset(|Played(events, ring)|, frames), period) else 0)
            && forall k :: Carried(more, out', k, size)
                           == if e.Bus? && e.it == NewSession then Zeros(size)
                              else if e.Bus? && e.it.Done? && e.it.k == k then x
                              else Carried(events, out, k, size)
  {
    hide Offset;
    assert (events + [e])[..|events|] == events && (out + [x])[..|out|] == out;
    assert Played(events, ring) + [] == Played(events, ring);
  }

  // The buffers of the OUT URBs.
  ghost predicate Buffers(s: Substream, bufs: seq<array<int>>, size: nat) {
    && (forall k :: 0 <= k < |bufs| ==> bufs[k].Length == size && bufs[k] != s.ring)
    && (forall j, k :: 0 <= j < k < |bufs| ==> bufs[j] != bufs[k])
  }

  // babyface_stream_start: no data of the previous stream is sent again.
  method ClearBuffers(bufs: seq<array<int>>, size: nat)
    requires forall k :: 0 <= k < |bufs| ==> bufs[k].Length == size
    requires forall j, k :: 0 <= j < k < |bufs| ==> bufs[j] != bufs[k]
    modifies bufs
    ensures forall k :: 0 <= k < |bufs| ==> bufs[k][..] == Zeros(size)
  {
    var k := 0;
    while k < |bufs|
      invariant 0 <= k <= |bufs|
      invariant forall j :: 0 <= j < k ==> bufs[j][..] == Zeros(size)
    {
      ClearBuffer(bufs[k]);
      k := k + 1;
    }
  }

  method ClearBuffer(data: array<int>)
    modifies data
    ensures data[..] == Zeros(data.Length)
  {
    var i := 0;
    while i < data.Length
      invariant 0 <= i <= data.Length && forall k :: 0 <= k < i ==> data[k] == 0
    {
      data[i] := 0;
      i := i + 1;
    }
  }

  predicate Proper(e: Event<Out>, urbs: nat, length: nat) {
    e.Bus? ==> (e.it.Wrote? ==> |e.it.ring| == length) && (e.it.Done? ==> e.it.k < urbs)
  }

  // A completion of a URB, its data in place.
  method Complete(s: Substream, data: array<int>, words: nat, frames: nat, good: bool, running: bool)
    returns (crossed: bool)
    requires s.Valid() && 0 < frames <= s.period && data != s.ring && data.Length == Offset(frames, words)
    modifies s, data
    ensures s.Valid() && s.notified == old(s.notified) + (if crossed then 1 else 0)
    ensures s.hwPtr == old(s.hwPtr) + (if good && running then frames else 0)
    ensures good && running ==> s.Filled(data, frames, words, old(s.hwPtr))
    ensures good && !running ==> data[..] == Zeros(data.Length)
    ensures !good ==> data[..] == old(data[..])
  {
    hide CarriesAll, Offset;
    crossed := false;
    if good {
      crossed := s.FillUrb(running, data, words, frames);
    }
  }

  // One event of the playback substream, but for the completions.
  method PlaybackEvent(s: Substream, bufs: seq<array<int>>, e: Event<Out>, running: bool, size: nat)
    returns (running': bool)
    requires s.Valid() && Buffers(s, bufs, size) && Proper(e, |bufs|, s.ring.Length) && !(e.Bus? && e.it.Done?)
    modifies s, s.ring, bufs
    ensures s.Valid()
    ensures running' == if e.Start? then true else if e.Stop? then false else running
    ensures if e.Prepare? || e.Start? then s.hwPtr == 0 && s.notified == 0
            else s.hwPtr == old(s.hwPtr) && s.notified == old(s.notified)
    ensures s.ring[..] == if e.Bus? && e.it.Wrote? then e.it.ring else old(s.ring[..])
    ensures forall k :: 0 <= k < |bufs| ==>
              bufs[k][..] == if e.Bus? && e.it == NewSession then Zeros(size) else old(bufs[k][..])
  {
    running' := running;
    match e
    case Prepare => s.Restart();
    case Start =>
      s.Restart();
      running' := true;
    case Stop => running' := false;
    case Bus(it) =>
      if it.Wrote? {
        Write(s.ring, it.ring);
      } else {
        ClearBuffers(bufs, size);
      }
  }

  // Where a run of the playback substream is.
  ghost predicate At(s: Substream, bufs: seq<array<int>>, running: bool, events: seq<Event<Out>>, out: seq<seq<int>>,
                     ring: seq<int>, words: nat, frames: nat)
    reads s, s.ring, bufs
  {
    && s.Valid() && 0 < frames <= s.period && Buffers(s, bufs, Offset(frames, words))
    && Ordered(events, out, ring, words, frames, s.bufFrames, s.chans)
    && running == Running(events) && s.ring[..] == RingNow(events, ring)
    && s.hwPtr == Offset(|Played(events, ring)|, frames)
    && forall k :: 0 <= k < |bufs| ==> bufs[k][..] == Carried(events, out, k, Offset(frames, words))
  }

  // One event of a run.
  method Step(s: Substream, bufs: seq<array<int>>, running: bool, e: Event<Out>, words: nat, frames: nat,
              ghost events: seq<Event<Out>>, ghost out: seq<seq<int>>, ghost ring: seq<int>)
    returns (running': bool, x: seq<int>, crossed: bool)
    requires At(s, bufs, running, events, out, ring, words, frames) && Proper(e, |bufs|, s.ring.Length)
    modifies s, s.ring, bufs
    ensures At(s, bufs, running', events + [e], out + [x], ring, words, frames)
    ensures Refilled(events + [e], out + [x], Offset(frames, words))
    ensures Sent(events + [e], out + [x], ring, words, frames, s.bufFrames, s.chans)
    ensures PlayedPeriods(events + [e], ring, frames, s.period) + s.notified
            == PlayedPeriods(events, ring, frames, s.period) + old(s.notified) + (if crossed then 1 else 0)
  {
    hide Offset, CarriesAll, FramesOf, AllInOrder, Sent;
    running', crossed, x := running, false, [];
    FramesNone([], frames);
    FrameFits(|Played(events, ring)|, |Played(events, ring)| + 1, frames);
    if e.Bus? && e.it.Done? {
      crossed := Complete(s, bufs[e.it.k], words, frames, e.it.good, running);
      x := bufs[e.it.k][..];
    } else {
      running' := PlaybackEvent(s, bufs, e, running, PlaceOf(frames, words));
    }
    OrderStep(events, out, e, x, ring, words, frames, s.bufFrames, s.chans);
    RefillStep(events, out, e, x, PlaceOf(frames, words));
    SentStep(events, out, e, x, ring, words, frames, s.bufFrames, s.chans);
    StateStep(events, out, e, x, ring, frames, s.period, PlaceOf(frames, words));
  }

  // Any sequence of events from a session's start on.  Since the pointer was
  // last set back, at any time, the URBs carried the frames of the ring in
  // order, whatever it held by then; without a running substream they carry
  // silence, after a bad completion what they carried before; and the periods
  // told are the whole periods of each such stretch.
  method PlaybackAll(s: Substream, bufs: seq<array<int>>, words: nat, frames: nat, events: seq<Event<Out>>)
    returns (out: seq<seq<int>>, periods: nat)
    requires s.Valid() && s.hwPtr == 0 && 0 < frames <= s.period && Buffers(s, bufs, Offset(frames, words))
    requires forall i :: 0 <= i < |events| ==> Proper(events[i], |bufs|, s.ring.Length)
    modifies s, s.ring, bufs
    ensures s.Valid() && |out| == |events|
    ensures s.hwPtr == Offset(|Played(events, old(s.ring[..]))|, frames)
    ensures forall i :: 0 <= i <= |events| ==>
              && Ordered(events[..i], out[..i], old(s.ring[..]), words, frames, s.bufFrames, s.chans)
              && Refilled(events[..i], out[..i], Offset(frames, words))
              && Sent(events[..i], out[..i], old(s.ring[..]), words, frames, s.bufFrames, s.chans)
    ensures periods == PlayedPeriods(events, old(s.ring[..]), frames, s.period) + s.hwPtr / s.period
  {
    hide Offset, Ordered, Refilled, Sent;
    ghost var ring := s.ring[..];
    out, periods := [], 0;
    var running := false;
    ClearBuffers(bufs, PlaceOf(frames, words));
    Beginning(ring, words, frames, s.bufFrames, s.chans);
    NoPeriods(s.period);
    var i := 0;
    while i < |events|
      invariant 0 <= i <= |events| && |out| == i
      invariant At(s, bufs, running, events[..i], out, ring, words, frames)
      invariant forall j :: 0 <= j <= i ==>
                  && Ordered(events[..j], out[..j], ring, words, frames, s.bufFrames, s.chans)
                  && Refilled(events[..j], out[..j], Offset(frames, words))
                  && Sent(events[..j], out[..j], ring, words, frames, s.bufFrames, s.chans)
      invariant periods == PlayedPeriods(events[..i], ring, frames, s.period) + s.notified
    {
      ghost var before := out;
      assert events[..i + 1] == events[..i] + [events[i]];
      var crossed, x;
      running, x, crossed := Step(s, bufs, running, events[i], words, frames, events[..i], out, ring);
      out := out + [x];
      if crossed {
        periods := periods + 1;
      }
      assert out[..i + 1] == out && forall j :: 0 <= j <= i ==> out[..j] == before[..j];
      i := i + 1;
    }
    assert events[..i] == events;
  }

  lemma Beginning(ring: seq<int>, words: nat, frames: nat, size: nat, chans: nat)
    requires frames > 0 && size > 0
    ensures Ordered([], [], ring, words, frames, size, chans) && Refilled([], [], Offset(frames, words))
    ensures Sent([], [], ring, words, frames, size, chans)
    ensures Offset(0, frames) == 0
  {
    NothingEmitted(words, frames, size, chans);
  }
}
