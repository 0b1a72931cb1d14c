/** The frame-change detector of src/lib/ai-bar/lib/elements/camera-node.ts.

    Each processed video frame is compared with a reference frame pixel by
    pixel; the fraction of pixels whose RGB distance exceeds
    `colorDistanceThreshold` is the frame's difference ratio, and a frame whose
    ratio exceeds `changeThreshold` becomes the new reference and is reported.
    Channels are integers, so `Math.sqrt(d2) > t` is stated exactly as
    `d2 > t * t` (for t >= 0) without square roots. */
module Camera {
  import opened Text

  type Byte = x: int | 0 <= x < 256

  /** The RGBA bytes of an ImageData, four per pixel. */
  type Frame = seq<Byte>

  /** A JavaScript number as far as the detector needs one: 0/0 is NaN. */
  datatype Number = NaN | Num(value: real)

  /** `Math.sqrt(d2) > t` for a non-negative integer `d2`. */
  predicate Exceeds(d2: nat, t: real) {
    t < 0.0 || (d2 as real) > t * t
  }

  function SquaredDistance(a: Frame, b: Frame, i: nat): nat
    requires i + 2 < |a| && i + 2 < |b|
  {
    var dr, dg, db := b[i] as int - a[i], b[i + 1] as int - a[i + 1], b[i + 2] as int - a[i + 2];
    dr * dr + dg * dg + db * db
  }

  /** The pixel whose red byte is at `i` counts as changed. A channel read past
      the end of either frame yields `undefined`, the distance is then NaN, and
      NaN is never greater than the threshold. */
  predicate PixelChanged(a: Frame, b: Frame, t: real, i: nat)
    ensures PixelChanged(a, b, t, i) ==>
      i + 3 <= |a| && i + 3 <= |b| && (t < 0.0 || a[i..i + 3] != b[i..i + 3])
  {
    i + 2 < |a| && i + 2 < |b| && Exceeds(SquaredDistance(a, b, i), t)
  }

  /** Changed pixels among those whose red byte is at i, i + 4, i + 8, ... below |a|. */
  function ChangedFrom(a: Frame, b: Frame, t: real, i: nat): nat
    decreases |a| - i
  {
    if i >= |a| then 0 else (if PixelChanged(a, b, t, i) then 1 else 0) + ChangedFrom(a, b, t, i + 4)
  }

  /** `differentPixels / (data1.length / 4)` */
  function Ratio(changed: nat, length: nat): Number {
    if length == 0 then NaN else Num((changed as real) / ((length as real) / 4.0))
  }

  /** The value `compareFrames(frame1, frame2)` returns. */
  function DiffRatio(frame1: Frame, frame2: Frame, t: real): (r: Number)
    ensures r == NaN <==> |frame1| == 0
    ensures r.Num? ==> r.value >= 0.0
  {
    Ratio(ChangedFrom(frame1, frame2, t, 0), |frame1|)
  }

  /** `compareFrames`: one step per four bytes of `frame1`, counting changed pixels. */
  method CompareFrames(frame1: Frame, frame2: Frame, colorDistanceThreshold: real) returns (r: Number)
    ensures r == DiffRatio(frame1, frame2, colorDistanceThreshold)
  {
    var differentPixels := 0;
    var i := 0;
    while i < |frame1|
      invariant differentPixels + ChangedFrom(frame1, frame2, colorDistanceThreshold, i)
             == ChangedFrom(frame1, frame2, colorDistanceThreshold, 0)
      decreases |frame1| - i
    {
      if i + 2 < |frame1| && i + 2 < |frame2| {
        var dr, dg, db := frame2[i] as int - frame1[i], frame2[i + 1] as int - frame1[i + 1], frame2[i + 2] as int - frame1[i + 2];
        var d2: nat := dr * dr + dg * dg + db * db;
        if Exceeds(d2, colorDistanceThreshold) {
          differentPixels := differentPixels + 1;
        }
      }
      i := i + 4;
    }
    r := Ratio(differentPixels, |frame1|);
  }

  /** At most one changed pixel per four bytes. */
  lemma {:induction false} ChangedAtMostPixels(a: Frame, b: Frame, t: real, i: nat)
    requires i <= |a| && (|a| - i) % 4 == 0
    ensures 4 * ChangedFrom(a, b, t, i) <= |a| - i
    decreases |a| - i
  {
    if i < |a| {
      ChangedAtMostPixels(a, b, t, i + 4);
    }
  }

  /** For a frame of whole pixels, the ratio is a number between 0 and 1. */
  lemma DiffRatioInUnitInterval(frame1: Frame, frame2: Frame, t: real)
    requires |frame1| > 0 && |frame1| % 4 == 0
    ensures DiffRatio(frame1, frame2, t).Num?
    ensures 0.0 <= DiffRatio(frame1, frame2, t).value <= 1.0
  {
    var c := ChangedFrom(frame1, frame2, t, 0);
    var n := |frame1| / 4;
    ChangedAtMostPixels(frame1, frame2, t, 0);
    assert (|frame1| as real) / 4.0 == n as real;
    QuotientAbove(c as real, n as real, 1.0);
    QuotientAbove(c as real, n as real, 0.0);
  }

  /** Identical frames have no changed pixel when the threshold is not negative. */
  lemma {:induction false} IdenticalFramesUnchanged(a: Frame, t: real, i: nat)
    requires t >= 0.0
    ensures ChangedFrom(a, a, t, i) == 0
    decreases |a| - i
  {
    if i < |a| {
      if i + 2 < |a| {
        assert SquaredDistance(a, a, i) == 0;
        assert !Exceeds(0, t) by { assert t * t >= 0.0; }
      }
      IdenticalFramesUnchanged(a, t, i + 4);
    }
  }

  /** So comparing a non-empty frame with itself yields 0. */
  lemma IdenticalFramesRatioZero(a: Frame, t: real)
    requires t >= 0.0 && |a| > 0
    ensures DiffRatio(a, a, t) == Num(0.0)
  {
    IdenticalFramesUnchanged(a, t, 0);
  }

  /** Two frames that agree on every red, green and blue byte. */
  predicate SameColours(a: Frame, a': Frame) {
    |a| == |a'| && forall k :: 0 <= k < |a| && k % 4 != 3 ==> a[k] == a'[k]
  }

  /** The alpha byte of a pixel never affects the count. */
  lemma {:induction false} AlphaIgnored(a: Frame, a': Frame, b: Frame, b': Frame, t: real, i: nat)
    requires SameColours(a, a') && SameColours(b, b') && i % 4 == 0
    ensures ChangedFrom(a, b, t, i) == ChangedFrom(a', b', t, i)
    decreases |a| - i
  {
    if i < |a| {
      if i + 2 < |a| && i + 2 < |b| {
        assert a[i] == a'[i] && a[i + 1] == a'[i + 1] && a[i + 2] == a'[i + 2];
        assert b[i] == b'[i] && b[i + 1] == b'[i + 1] && b[i + 2] == b'[i + 2];
        assert SquaredDistance(a, b, i) == SquaredDistance(a', b', i);
      }
      AlphaIgnored(a, a', b, b', t, i + 4);
    }
  }

  /** With the default change threshold 0.02, a frame of n whole pixels is
      reported exactly when more than n / 50 of them changed. */
  lemma DefaultChangeTest(frame1: Frame, frame2: Frame, t: real)
    requires |frame1| > 0 && |frame1| % 4 == 0
    ensures DiffRatio(frame1, frame2, t).Num?
    ensures DiffRatio(frame1, frame2, t).value > 0.02
        <==> 50 * ChangedFrom(frame1, frame2, t, 0) > |frame1| / 4
  {
    var c := ChangedFrom(frame1, frame2, t, 0);
    var n := |frame1| / 4;
    assert (|frame1| as real) / 4.0 == n as real;
    QuotientAbove(c as real, n as real, 0.02);
  }

  lemma QuotientAbove(c: real, n: real, k: real)
    requires n > 0.0
    ensures c / n > k <==> c > k * n
  {
    assert c / n * n == c;
    if c / n > k {
      assert c / n * n > k * n;
    } else {
      assert c / n * n <= k * n;
    }
  }

  class CameraNode {
    var referenceFrame: Option<Frame>
    var colorDistanceThreshold: real
    var changeThreshold: real
    const dynamicScanDebounce: nat
    var diffs: seq<real>     // every value passed to diffStream$.next

    constructor ()
      ensures referenceFrame == None && diffs == []
      ensures colorDistanceThreshold == 30.0 && changeThreshold == 0.02 && dynamicScanDebounce == 200
    {
      referenceFrame := None;
      colorDistanceThreshold := 30.0;
      changeThreshold := 0.02;
      dynamicScanDebounce := 200;
      diffs := [];
    }

    /** Overwrites exactly the two thresholds. */
    method UpdateSettings(colorDistanceThreshold: real, changeThreshold: real)
      modifies this
      ensures this.colorDistanceThreshold == colorDistanceThreshold
      ensures this.changeThreshold == changeThreshold
      ensures referenceFrame == old(referenceFrame) && diffs == old(diffs)
    {
      this.colorDistanceThreshold := colorDistanceThreshold;
      this.changeThreshold := changeThreshold;
    }

    /** `processFrame` with the video's current frame: the first frame becomes
        the reference silently; later frames replace it, and are reported, only
        when their ratio exceeds `changeThreshold` (a NaN ratio never does). */
    method ProcessFrame(paused: bool, ended: bool, current: Frame)
      modifies this
      ensures colorDistanceThreshold == old(colorDistanceThreshold) && changeThreshold == old(changeThreshold)
      ensures paused || ended ==> referenceFrame == old(referenceFrame) && diffs == old(diffs)
      ensures !paused && !ended && old(referenceFrame).None? ==>
        referenceFrame == Some(current) && diffs == old(diffs)
      ensures !paused && !ended && old(referenceFrame).Some? ==>
        var r := DiffRatio(old(referenceFrame).value, current, colorDistanceThreshold);
        if r.Num? && r.value > changeThreshold
        then referenceFrame == Some(current) && diffs == old(diffs) + [r.value]
        else referenceFrame == old(referenceFrame) && diffs == old(diffs)
    {
      if !paused && !ended {
        if referenceFrame.Some? {
          var diffPercentage := CompareFrames(referenceFrame.value, current, colorDistanceThreshold);
          if diffPercentage.Num? && diffPercentage.value > changeThreshold {
            referenceFrame := Some(current);
            diffs := diffs + [diffPercentage.value];
          }
        } else {
          referenceFrame := Some(current);
        }
      }
    }

    /** `capture()`: the canvas's JPEG data URL (`jpeg`) when the video has a
        size, "" when its width or height is 0. */
    method Capture(videoWidth: nat, videoHeight: nat, jpeg: string) returns (url: string)
      ensures videoWidth == 0 || videoHeight == 0 ==> url == ""
      ensures videoWidth != 0 && videoHeight != 0 ==> url == jpeg
    {
      if videoWidth != 0 && videoHeight != 0 {
        return jpeg;
      }
      return "";
    }
  }
}
