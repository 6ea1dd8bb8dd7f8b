/**
 * Frame sampling from a rendered video (`extract_frames_from_video`, which
 * is textually the same in `src/manim_generator/utils/rendering.py` and
 * `src/utils/rendering.py`). OpenCV is replaced by what it reports: whether
 * the file opened, the frame count it claims, and what a read at each index
 * gives back.
 */
module Frames {
  import opened Wrappers

  /**
   * A decoded frame: how many greyscale pixels are brighter than 30, how
   * many pixels it has, and its PNG encoding as base64 text (`None` when
   * `cv2.imencode` fails).
   */
  datatype Frame = Frame(brightPixels: nat, totalPixels: nat, png: Option<string>)

  /** No frame has more bright pixels than pixels. */
  type PixelFrame = f: Frame | f.brightPixels <= f.totalPixels witness Frame(0, 0, None)

  /**
   * What `cv2.VideoCapture` reports: `isOpened()`, `CAP_PROP_FRAME_COUNT`
   * (an int that need not match the real content), and the outcome of
   * `cap.read()` after seeking to each index; indices past the end fail.
   */
  datatype Video = Video(isOpened: bool, frameCount: int, readResults: seq<Option<PixelFrame>>)

  datatype FrameMode = HighestDensity | FixedCount | OtherMode(name: string)

  /** `max_frames`, the sampling cap of the highest-density mode. */
  const MaxFrames: int := 30

  function ReadAt(v: Video, index: int): Option<PixelFrame>
  {
    if 0 <= index < |v.readResults| then v.readResults[index] else None
  }

  function Min(a: int, b: int): int
  {
    if a <= b then a else b
  }

  /** `numpy.linspace(0, total - 1, n, dtype=int)`: `n` evenly spaced indices, truncated. */
  function SampleIndices(total: int, n: nat): seq<int>
    requires n <= total
  {
    seq(n, i requires 0 <= i < n => if n == 1 then 0 else i * (total - 1) / (n - 1))
  }

  /** Fraction of bright pixels; only compared when the frame has pixels. */
  function Density(f: PixelFrame): real
    requires f.totalPixels > 0
  {
    f.brightPixels as real / f.totalPixels as real
  }

  /**
   * `density > best_density`. A frame without pixels has density
   * `0/0 = nan`, which is never greater.
   */
  predicate Improves(f: PixelFrame, best: real)
  {
    f.totalPixels > 0 && Density(f) > best
  }

  /** The running maximum of the highest-density loop: frame kept and its density. */
  datatype Best = Best(frame: Option<PixelFrame>, density: real)

  function BestOf(samples: seq<Option<PixelFrame>>): Best
  {
    if samples == [] then Best(None, 0.0)
    else
      var before := BestOf(samples[..|samples| - 1]);
      match samples[|samples| - 1]
      case None => before
      case Some(f) => if Improves(f, before.density) then Best(Some(f), Density(f)) else before
  }

  /** The frames that were read, in sampling order. */
  function ReadFrames(samples: seq<Option<PixelFrame>>): seq<PixelFrame>
  {
    if samples == [] then []
    else
      var last := match samples[|samples| - 1] case None => [] case Some(f) => [f];
      ReadFrames(samples[..|samples| - 1]) + last
  }

  function SampledReads(v: Video, indices: seq<int>): seq<Option<PixelFrame>>
  {
    seq(|indices|, k requires 0 <= k < |indices| => ReadAt(v, indices[k]))
  }

  /**
   * What `extract_frames_from_video` returns; every raised exception becomes
   * `None`. An empty list is never returned, and an unknown mode gives nothing.
   */
  function ExtractedFrames(v: Video, mode: FrameMode, frameCount: int, maxFrames: int): (r: Option<seq<PixelFrame>>)
    ensures r.Some? ==> r.value != []
    ensures mode.OtherMode? ==> r.None?
  {
    if !v.isOpened || v.frameCount == 0 then None
    else
      match mode
      case HighestDensity =>
        var n := Min(maxFrames, v.frameCount);
        if n < 0 then None   // numpy.linspace raises on a negative sample count
        else
          var best := BestOf(SampledReads(v, SampleIndices(v.frameCount, n)));
          if best.frame.Some? then Some([best.frame.value]) else None
      case FixedCount =>
        var n := Min(frameCount, v.frameCount);
        if n < 0 then None
        else
          var frames := ReadFrames(SampledReads(v, SampleIndices(v.frameCount, n)));
          if frames == [] then None else Some(frames)
      case OtherMode(_) => None
  }

  method ExtractFramesFromVideo(v: Video, mode: FrameMode, frameCount: int, maxFrames: int)
    returns (r: Option<seq<PixelFrame>>)
    ensures r == ExtractedFrames(v, mode, frameCount, maxFrames)
  {
    if !v.isOpened {
      return None;
    }
    var totalFrames := v.frameCount;
    if totalFrames == 0 {
      return None;
    }
    match mode
    case HighestDensity =>
      var n := Min(maxFrames, totalFrames);
      if n < 0 {
        return None;
      }
      var frameIndices := SampleIndices(totalFrames, n);
      ghost var samples := SampledReads(v, frameIndices);
      var bestFrame: Option<PixelFrame> := None;
      var bestDensity: real := 0.0;
      var i := 0;
      while i < |frameIndices|
        invariant 0 <= i <= |frameIndices|
        invariant Best(bestFrame, bestDensity) == BestOf(samples[..i])
      {
        assert samples[..i + 1][..i] == samples[..i];
        var read := ReadAt(v, frameIndices[i]);
        if read.Some? {
          var frame := read.value;
          if frame.totalPixels > 0 && Density(frame) > bestDensity {
            bestDensity := Density(frame);
            bestFrame := Some(frame);
          }
        }
        i := i + 1;
      }
      assert samples[..i] == samples;
      r := if bestFrame.Some? then Some([bestFrame.value]) else None;
    case FixedCount =>
      var n := Min(frameCount, totalFrames);
      if n < 0 {
        return None;
      }
      var frameIndices := SampleIndices(totalFrames, n);
      ghost var samples := SampledReads(v, frameIndices);
      var extractedFrames: seq<PixelFrame> := [];
      var i := 0;
      while i < |frameIndices|
        invariant 0 <= i <= |frameIndices|
        invariant extractedFrames == ReadFrames(samples[..i])
      {
        assert samples[..i + 1][..i] == samples[..i];
        var read := ReadAt(v, frameIndices[i]);
        if read.Some? {
          extractedFrames := extractedFrames + [read.value];
        }
        i := i + 1;
      }
      assert samples[..i] == samples;
      r := if extractedFrames != [] then Some(extractedFrames) else None;
    case OtherMode(_) =>
      r := None;
  }

  // ---------------------------------------------------------------------
  // Properties of the sampling
  // ---------------------------------------------------------------------

  lemma MulMonotone(x: int, y: int, m: int)
    requires x <= y && m >= 0
    ensures x * m <= y * m
  {
    assert y * m - x * m == (y - x) * m;
  }

  lemma DivMonotone(a: int, b: int, d: int)
    requires 0 <= a <= b && d > 0
    ensures a / d <= b / d
  {
    assert a == (a / d) * d + a % d;
    assert b == (b / d) * d + b % d;
    if a / d > b / d {
      MulMonotone(b / d + 1, a / d, d);
      assert false;
    }
  }

  lemma DivUnique(x: int, d: int, q: int, r: int)
    requires d > 0 && 0 <= r < d && x == q * d + r
    ensures x / d == q
  {
    var q', r' := x / d, x % d;
    assert x == q' * d + r';
    assert (q' - q) * d == r - r';
    if q' > q {
      MulMonotone(1, q' - q, d);
      assert false;
    }
    if q' < q {
      MulMonotone(1, q - q', d);
      assert false;
    }
  }

  lemma DivStep(a: int, d: int)
    requires a >= 0 && d > 0
    ensures (a + d) / d == a / d + 1
  {
    assert a == (a / d) * d + a % d;
    assert a + d == (a / d + 1) * d + a % d;
    DivUnique(a + d, d, a / d + 1, a % d);
  }

  /** Sample `k` of `d + 1`, scaled to `[0, m]` with `m >= d`, stays in range. */
  lemma ScaledInRange(k: int, m: int, d: int)
    requires 0 <= k <= d && 1 <= d <= m
    ensures 0 <= k * m / d <= m
  {
    MulMonotone(0, k, m);
    MulMonotone(k, d, m);
    DivMonotone(k * m, d * m, d);
    DivUnique(d * m, d, m, 0);
  }

  /** Scaling by `m / d >= 1` keeps distinct samples distinct. */
  lemma ScaledIncreasing(j: int, k: int, m: int, d: int)
    requires 0 <= j < k && 1 <= d <= m
    ensures j * m / d < k * m / d
  {
    MulMonotone(0, j, m);
    MulMonotone(j + 1, k, m);
    assert (j + 1) * m == j * m + m;
    DivMonotone(j * m + d, k * m, d);
    DivStep(j * m, d);
  }

  /**
   * The sampled indices: exactly `n` of them, the first is 0, the last is
   * `total - 1` when there are at least two, all are valid indices and they
   * strictly increase, so no frame is sampled twice.
   */
  lemma SampleIndicesShape(total: int, n: nat)
    requires 1 <= n <= total
    ensures var idx := SampleIndices(total, n);
            && |idx| == n && idx[0] == 0
            && (n >= 2 ==> idx[n - 1] == total - 1)
            && (forall k :: 0 <= k < n ==> 0 <= idx[k] <= total - 1)
            && (forall j, k :: 0 <= j < k < n ==> idx[j] < idx[k])
  {
    var idx := SampleIndices(total, n);
    if n >= 2 {
      var m, d := total - 1, n - 1;
      DivUnique(d * m, d, m, 0);
      assert idx[n - 1] == d * m / d;
      forall k | 0 <= k < n ensures 0 <= idx[k] <= total - 1 {
        ScaledInRange(k, m, d);
      }
      forall j, k | 0 <= j < k < n ensures idx[j] < idx[k] {
        ScaledIncreasing(j, k, m, d);
      }
    }
  }

  lemma DensityPositive(f: PixelFrame)
    requires f.totalPixels > 0
    ensures 0.0 <= Density(f) && (Density(f) > 0.0 <==> f.brightPixels > 0)
  {
  }

  /** Frame `k` of `samples` was read and has pixels, so it has a density. */
  predicate Measured(samples: seq<Option<PixelFrame>>, k: int)
  {
    0 <= k < |samples| && samples[k].Some? && samples[k].value.totalPixels > 0
  }

  /**
   * The running maximum of the highest-density loop: the density it keeps
   * is that of the kept frame (0 when none is kept), and at least that of
   * every measured frame.
   */
  lemma {:induction false} BestDominates(samples: seq<Option<PixelFrame>>)
    ensures var b := BestOf(samples);
            && (b.frame.None? ==> b.density == 0.0)
            && (b.frame.Some? ==> b.frame.value.totalPixels > 0 && b.density == Density(b.frame.value) && b.density > 0.0)
            && (forall k :: Measured(samples, k) ==> Density(samples[k].value) <= b.density)
    decreases |samples|
  {
    if samples != [] {
      var prefix := samples[..|samples| - 1];
      BestDominates(prefix);
      var before := BestOf(prefix);
      assert forall k :: Measured(samples, k) && k < |prefix| ==> Measured(prefix, k);
      if before.frame.Some? {
        DensityPositive(before.frame.value);
      }
    }
  }

  /** No frame is kept exactly when no read frame has a bright pixel. */
  lemma {:induction false} BestNoneIff(samples: seq<Option<PixelFrame>>)
    ensures BestOf(samples).frame.None? <==>
            forall k :: Measured(samples, k) ==> samples[k].value.brightPixels == 0
    decreases |samples|
  {
    if samples != [] {
      var prefix := samples[..|samples| - 1];
      var last := |samples| - 1;
      BestNoneIff(prefix);
      BestDominates(prefix);
      assert forall k :: Measured(samples, k) && k < last <==> Measured(prefix, k);
      if Measured(samples, last) {
        DensityPositive(samples[last].value);
      }
      if BestOf(prefix).frame.Some? {
        var k :| Measured(prefix, k) && prefix[k].value.brightPixels != 0;
        assert Measured(samples, k);
      }
    }
  }

  /**
   * The kept frame is the first maximum: it was read at some sample `i`,
   * and every frame measured before `i` has a strictly smaller density.
   */
  lemma {:induction false} BestIsFirstMaximum(samples: seq<Option<PixelFrame>>)
    ensures var b := BestOf(samples);
            b.frame.Some? ==>
              exists i :: 0 <= i < |samples| && samples[i] == b.frame
                && forall k :: 0 <= k < i && Measured(samples, k) ==> Density(samples[k].value) < b.density
    decreases |samples|
  {
    if samples != [] {
      var prefix := samples[..|samples| - 1];
      var last := |samples| - 1;
      BestIsFirstMaximum(prefix);
      BestDominates(prefix);
      var before := BestOf(prefix);
      if BestOf(samples) != before {
        assert samples[last] == BestOf(samples).frame;
        forall k | 0 <= k < last && Measured(samples, k)
          ensures Density(samples[k].value) < BestOf(samples).density
        {
          assert Measured(prefix, k);
        }
      } else if before.frame.Some? {
        var i :| 0 <= i < |prefix| && prefix[i] == before.frame
                 && forall k :: 0 <= k < i && Measured(prefix, k) ==> Density(prefix[k].value) < before.density;
        assert samples[i] == before.frame;
        assert forall k :: 0 <= k < i && Measured(samples, k) ==> Measured(prefix, k);
      }
    }
  }

  /** The frames kept in fixed-count mode are the successful samples, in order; at most one per sample. */
  lemma {:induction false} ReadFramesAreReads(samples: seq<Option<PixelFrame>>)
    ensures |ReadFrames(samples)| <= |samples|
    ensures (forall k :: 0 <= k < |samples| ==> samples[k].Some?) ==> |ReadFrames(samples)| == |samples|
    ensures forall f :: f in ReadFrames(samples) ==> Some(f) in samples
    decreases |samples|
  {
    if samples != [] {
      var prefix := samples[..|samples| - 1];
      ReadFramesAreReads(prefix);
      forall f | f in ReadFrames(prefix) ensures Some(f) in samples {
        var k :| 0 <= k < |prefix| && prefix[k] == Some(f);
        assert samples[k] == Some(f);
      }
      assert samples[|samples| - 1] in samples;
    }
  }

  /**
   * The kept frames are the successful samples in sampling order: reading
   * two runs of samples one after the other keeps the first run's frames
   * followed by the second's, a failed read keeps nothing and a successful
   * one keeps its frame.
   */
  lemma {:induction false} ReadFramesInOrder(a: seq<Option<PixelFrame>>, b: seq<Option<PixelFrame>>)
    ensures ReadFrames(a + b) == ReadFrames(a) + ReadFrames(b)
    ensures ReadFrames([None]) == []
    ensures forall f :: ReadFrames([Some(f)]) == [f]
    decreases |b|
  {
    if b != [] {
      var b' := b[..|b| - 1];
      assert (a + b)[..|a + b| - 1] == a + b';
      assert (a + b)[|a + b| - 1] == b[|b| - 1];
      ReadFramesInOrder(a, b');
    } else {
      assert a + b == a;
    }
    var none: seq<Option<PixelFrame>> := [None];
    assert none[..0] == [];
    forall f ensures ReadFrames([Some(f)]) == [f] {
      assert [Some(f)][..0] == [];
    }
  }

  /**
   * Fixed-count mode on a video whose every sampled read succeeds returns
   * exactly `min(frame_count, total)` frames.
   */
  lemma FixedCountAllReadable(v: Video, frameCount: int)
    requires v.isOpened && v.frameCount > 0 && frameCount >= 1
    requires forall i :: 0 <= i < v.frameCount ==> ReadAt(v, i).Some?
    ensures var r := ExtractedFrames(v, FixedCount, frameCount, MaxFrames);
            r.Some? && |r.value| == Min(frameCount, v.frameCount)
  {
    var n := Min(frameCount, v.frameCount);
    var idx := SampleIndices(v.frameCount, n);
    SampleIndicesShape(v.frameCount, n);
    var samples := SampledReads(v, idx);
    ReadFramesAreReads(samples);
  }

  /** Fixed-count mode never returns more than `frame_count` frames, nor an empty list. */
  lemma FixedCountBound(v: Video, frameCount: int)
    ensures var r := ExtractedFrames(v, FixedCount, frameCount, MaxFrames);
            r.Some? ==> 1 <= |r.value| <= frameCount && |r.value| <= v.frameCount
  {
    if v.isOpened && v.frameCount != 0 && Min(frameCount, v.frameCount) >= 0 {
      var n := Min(frameCount, v.frameCount);
      ReadFramesAreReads(SampledReads(v, SampleIndices(v.frameCount, n)));
    }
  }

  /** Highest-density mode returns one frame or nothing; a mode it does not know returns nothing. */
  lemma HighestDensityAtMostOne(v: Video, frameCount: int, maxFrames: int, name: string)
    ensures var r := ExtractedFrames(v, HighestDensity, frameCount, maxFrames);
            r.Some? ==> |r.value| == 1 && r.value[0].brightPixels > 0
    ensures ExtractedFrames(v, OtherMode(name), frameCount, maxFrames) == None
  {
    if v.isOpened && v.frameCount != 0 && Min(maxFrames, v.frameCount) >= 0 {
      var b := BestOf(SampledReads(v, SampleIndices(v.frameCount, Min(maxFrames, v.frameCount))));
      BestDominates(SampledReads(v, SampleIndices(v.frameCount, Min(maxFrames, v.frameCount))));
      if b.frame.Some? {
        DensityPositive(b.frame.value);
      }
    }
  }

  /** A video that does not open, or reports no frames, yields nothing in every mode. */
  lemma UnreadableVideo(v: Video, mode: FrameMode, frameCount: int, maxFrames: int)
    requires !v.isOpened || v.frameCount == 0
    ensures ExtractedFrames(v, mode, frameCount, maxFrames) == None
  {
  }
}
