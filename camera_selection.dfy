/**
  What the Java camera classes compute from the camera manager's answers:
  the display-to-sensor orientation, the preview size closest to the view,
  and which camera id a scan settles on.

  Camera characteristics come in as values (CameraInfo); the aspect-ratio
  test, a double-precision comparison against a tolerance of 0.1, comes in
  as a predicate on sizes.
*/
module CameraSelection {
  import opened Wrappers
  import opened CommonUtils

  /** CameraCharacteristics.LENS_FACING_FRONT and LENS_FACING_BACK. */
  const LENS_FACING_FRONT: int := 0
  const LENS_FACING_BACK: int := 1

  /** Surface.ROTATION_0 .. ROTATION_270. */
  const ROTATION_0: int := 0
  const ROTATION_90: int := 1
  const ROTATION_180: int := 2
  const ROTATION_270: int := 3

  /** android.util.Size. */
  datatype Size = Size(width: int, height: int)

  /**
    The characteristics the code reads for one camera id: LENS_FACING (null
    when absent), the stream configuration map's SurfaceTexture output sizes
    (null when there is no map) and SENSOR_ORIENTATION.
  */
  datatype CameraInfo = CameraInfo(id: string, facing: Option<int>, outputSizes: Option<seq<Size>>,
                                   sensorOrientation: Option<int>)

  // ---------------------------------------------------------------------------
  // Orientation

  /** The ORIENTATIONS table; SparseIntArray.get answers 0 for a key never appended. */
  function Orientations(rotation: int): (degrees: int)
    ensures degrees == 0 || degrees == 90 || degrees == 180 || degrees == 270
  {
    if rotation == ROTATION_0 then 90
    else if rotation == ROTATION_90 then 0
    else if rotation == ROTATION_180 then 270
    else if rotation == ROTATION_270 then 180
    else 0
  }

  /** getOrientation: (ORIENTATIONS.get(rotation) + sensorOrientation + 270) % 360, with Java's remainder. */
  function Orientation(rotation: int, sensorOrientation: int): (degrees: int)
    ensures -360 < degrees < 360
    ensures Orientations(rotation) + sensorOrientation + 270 >= 0 ==>
            0 <= degrees < 360 && degrees == (Orientations(rotation) + sensorOrientation + 270) % 360
  {
    CRem(Orientations(rotation) + sensorOrientation + 270, 360)
  }

  /**
    For a sensor mounted at a multiple of 90 degrees the orientation is a
    right angle, and turning the display one step further (ROTATION_0 to
    ROTATION_90, and so on) turns it back by 90 degrees.
  */
  lemma {:induction false} OrientationSteps(rotation: int, sensorOrientation: int)
    requires 0 <= sensorOrientation && sensorOrientation % 90 == 0
    ensures var d := Orientation(rotation, sensorOrientation); d == 0 || d == 90 || d == 180 || d == 270
    ensures ROTATION_0 <= rotation < ROTATION_270 ==>
            Orientation(rotation + 1, sensorOrientation) == (Orientation(rotation, sensorOrientation) + 270) % 360
  {
    var s := Orientations(rotation) + sensorOrientation + 270;
    assert s % 90 == 0;
    assert s % 360 % 90 == 0;
  }

  /**
    With the sensor orientation left at 0, display rotation r (0 to 3) gives
    (360 - 90 r) % 360: 0, 270, 180 and 90 degrees.
  */
  lemma {:induction false} UnmountedSensorOrientation(rotation: int)
    requires ROTATION_0 <= rotation <= ROTATION_270
    ensures Orientation(rotation, 0) == (360 - 90 * rotation) % 360
  {
    if rotation == ROTATION_0 {
      assert CRem(360, 360) == 0;
    } else if rotation == ROTATION_90 {
      assert CRem(270, 360) == 270;
    } else if rotation == ROTATION_180 {
      assert CRem(540, 360) == 180;
    } else {
      assert CRem(450, 360) == 90;
    }
  }

  /** switchCamera's request: the back camera after the front one, the front camera after any other. */
  function Opposite(facing: int): (requested: int)
    ensures requested == LENS_FACING_FRONT <==> facing != LENS_FACING_FRONT
    ensures requested == LENS_FACING_BACK <==> facing == LENS_FACING_FRONT
  {
    if facing == LENS_FACING_FRONT then LENS_FACING_BACK else LENS_FACING_FRONT
  }

  // ---------------------------------------------------------------------------
  // The preview size

  /** Math.abs(size.getHeight() - h). */
  function Diff(s: Size, h: int): nat { if s.height >= h then s.height - h else h - s.height }

  /** The fallback pass keeps every size. */
  predicate AnySize(s: Size) { true }

  /**
    The size loop from index i on, with the index of the size chosen so far:
    a kept size replaces it only when strictly closer, so the first of equally
    close sizes stays. No choice so far means minDiff is still
    Double.MAX_VALUE, which every difference beats.
  */
  function ScanFrom(sizes: seq<Size>, h: int, keep: Size -> bool, i: nat, best: Option<nat>): Option<nat>
    requires i <= |sizes| && (best.Some? ==> best.value < |sizes|)
    decreases |sizes| - i
  {
    if i == |sizes| then best
    else
      var better := keep(sizes[i]) && (best.None? || Diff(sizes[i], h) < Diff(sizes[best.value], h));
      ScanFrom(sizes, h, keep, i + 1, if better then Some(i) else best)
  }

  /** The index one pass of the size loop picks, from minDiff = Double.MAX_VALUE. */
  function Nearest(sizes: seq<Size>, h: int, keep: Size -> bool): Option<nat>
  {
    ScanFrom(sizes, h, keep, 0, None)
  }

  /** k is the first of the kept sizes among the first n whose height is closest to h. */
  predicate FirstNearestUpTo(sizes: seq<Size>, h: int, keep: Size -> bool, k: nat, n: nat)
    requires n <= |sizes|
  {
    k < n && keep(sizes[k]) &&
    (forall j :: 0 <= j < n && keep(sizes[j]) ==> Diff(sizes[k], h) <= Diff(sizes[j], h)) &&
    (forall j :: 0 <= j < k && keep(sizes[j]) ==> Diff(sizes[k], h) < Diff(sizes[j], h))
  }

  /** k is the first of all kept sizes whose height is closest to h. */
  predicate FirstNearest(sizes: seq<Size>, h: int, keep: Size -> bool, k: nat)
  {
    FirstNearestUpTo(sizes, h, keep, k, |sizes|)
  }

  /** The loop keeps the first closest kept size of the prefix it has seen. */
  lemma {:induction false} ScanFromIsFirstNearest(sizes: seq<Size>, h: int, keep: Size -> bool, i: nat, best: Option<nat>)
    requires i <= |sizes| && (best.Some? ==> best.value < |sizes|)
    requires best.None? ==> forall j :: 0 <= j < i ==> !keep(sizes[j])
    requires best.Some? ==> FirstNearestUpTo(sizes, h, keep, best.value, i)
    ensures var r := ScanFrom(sizes, h, keep, i, best);
            (r.None? ==> forall j :: 0 <= j < |sizes| ==> !keep(sizes[j])) &&
            (r.Some? ==> FirstNearest(sizes, h, keep, r.value))
    decreases |sizes| - i
  {
    if i < |sizes| {
      var better := keep(sizes[i]) && (best.None? || Diff(sizes[i], h) < Diff(sizes[best.value], h));
      var next := if better then Some(i) else best;
      if next.Some? {
        assert FirstNearestUpTo(sizes, h, keep, next.value, i + 1);
      }
      ScanFromIsFirstNearest(sizes, h, keep, i + 1, next);
    }
  }

  /**
    One pass finds nothing exactly when no size is kept, and otherwise the
    first kept size whose height is closest to h.
  */
  lemma {:induction false} NearestIsFirstNearest(sizes: seq<Size>, h: int, keep: Size -> bool)
    ensures Nearest(sizes, h, keep).None? <==> forall j :: 0 <= j < |sizes| ==> !keep(sizes[j])
    ensures Nearest(sizes, h, keep).Some? ==> FirstNearest(sizes, h, keep, Nearest(sizes, h, keep).value)
  {
    ScanFromIsFirstNearest(sizes, h, keep, 0, None);
  }

  /** The size at an index the loop picked. */
  function SizeAt(sizes: seq<Size>, index: Option<nat>): Option<Size>
  {
    if index.Some? && index.value < |sizes| then Some(sizes[index.value]) else None
  }

  /**
    getOptimalPreviewSize: null for a null list; the closest aspect-matching
    size, or when none matches, the closest size of all.
  */
  function OptimalPreviewSize(outputSizes: Option<seq<Size>>, h: int, inTolerance: Size -> bool): Option<Size>
  {
    if outputSizes.None? then None
    else if Nearest(outputSizes.value, h, inTolerance).Some? then SizeAt(outputSizes.value, Nearest(outputSizes.value, h, inTolerance))
    else SizeAt(outputSizes.value, Nearest(outputSizes.value, h, AnySize))
  }

  /**
    The choice: no list, no size; otherwise a size of the list whenever the
    list is non-empty, the first closest in height among the sizes within the
    aspect tolerance, or among all sizes when none is within it.
  */
  lemma {:induction false} OptimalPreviewSizeChoice(outputSizes: Option<seq<Size>>, h: int, inTolerance: Size -> bool)
    ensures outputSizes.None? ==> OptimalPreviewSize(outputSizes, h, inTolerance).None?
    ensures outputSizes.Some? && |outputSizes.value| > 0 ==>
            OptimalPreviewSize(outputSizes, h, inTolerance).Some? &&
            OptimalPreviewSize(outputSizes, h, inTolerance).value in outputSizes.value
    ensures outputSizes.Some? && (exists j :: 0 <= j < |outputSizes.value| && inTolerance(outputSizes.value[j])) ==>
            exists k: nat :: FirstNearest(outputSizes.value, h, inTolerance, k) &&
                        OptimalPreviewSize(outputSizes, h, inTolerance) == Some(outputSizes.value[k])
    ensures outputSizes.Some? && |outputSizes.value| > 0 &&
            (forall j :: 0 <= j < |outputSizes.value| ==> !inTolerance(outputSizes.value[j])) ==>
            exists k: nat :: FirstNearest(outputSizes.value, h, AnySize, k) &&
                        OptimalPreviewSize(outputSizes, h, inTolerance) == Some(outputSizes.value[k])
  {
    if outputSizes.Some? {
      var sizes := outputSizes.value;
      NearestIsFirstNearest(sizes, h, inTolerance);
      NearestIsFirstNearest(sizes, h, AnySize);
      if |sizes| > 0 {
        assert AnySize(sizes[0]);
      }
    }
  }

  /**
    One pass of the size loop as the code runs it: optimalSize and minDiff
    start at null and Double.MAX_VALUE (modelled as None); a kept size
    strictly closer than minDiff replaces both.
  */
  method NearestSize(sizes: seq<Size>, h: int, keep: Size -> bool) returns (optimalSize: Option<Size>, minDiff: Option<nat>)
    ensures optimalSize == SizeAt(sizes, Nearest(sizes, h, keep))
    ensures minDiff.None? <==> optimalSize.None?
    ensures optimalSize.Some? ==> minDiff == Some(Diff(optimalSize.value, h))
  {
    optimalSize, minDiff := None, None;
    ghost var best: Option<nat> := None;
    for i := 0 to |sizes|
      invariant best.Some? ==> best.value < |sizes|
      invariant ScanFrom(sizes, h, keep, 0, None) == ScanFrom(sizes, h, keep, i, best)
      invariant optimalSize == SizeAt(sizes, best)
      invariant minDiff == if best.None? then None else Some(Diff(sizes[best.value], h))
    {
      var size := sizes[i];
      if !keep(size) {
        continue;
      }
      if minDiff.None? || Diff(size, h) < minDiff.value {
        optimalSize := Some(size);
        minDiff := Some(Diff(size, h));
        best := Some(i);
      }
    }
  }

  /**
    The two passes of getOptimalPreviewSize over a size list: first the
    sizes within the aspect tolerance, then, when none is, all sizes.
    CameraController starts the second pass with the minDiff the first one
    left and VideoCameraPreview resets it, but with no size chosen that
    minDiff is still Double.MAX_VALUE, so both run the same pass.
  */
  method ChoosePreviewSize(outputSizes: Option<seq<Size>>, h: int, inTolerance: Size -> bool) returns (size: Option<Size>)
    ensures size == OptimalPreviewSize(outputSizes, h, inTolerance)
  {
    if outputSizes.None? {
      return None;
    }
    var sizes := outputSizes.value;
    NearestIsFirstNearest(sizes, h, inTolerance);
    var optimalSize, minDiff := NearestSize(sizes, h, inTolerance);
    if optimalSize.None? {
      assert minDiff.None?;
      optimalSize, minDiff := NearestSize(sizes, h, AnySize);
    }
    size := optimalSize;
  }

  // ---------------------------------------------------------------------------
  // Camera scans

  /** The scan's test in the preview classes: anything but a lens known to face front. */
  predicate NonFront(c: CameraInfo)
  {
    !(c.facing.Some? && c.facing.value == LENS_FACING_FRONT)
  }

  /** A non-front camera that also has a stream configuration map. */
  predicate NonFrontWithSizes(c: CameraInfo)
  {
    NonFront(c) && c.outputSizes.Some?
  }

  /** The camera CameraController.setupCameraId looks for: a lens with the requested facing. */
  predicate Facing(c: CameraInfo, lensFacing: int)
  {
    c.facing == Some(lensFacing)
  }

  /** The index of the last non-front camera among the first n: the one a loop without a break assigns last. */
  function LastNonFront(cameras: seq<CameraInfo>, n: nat): (r: Option<nat>)
    requires n <= |cameras|
    ensures r.Some? ==> r.value < n && NonFront(cameras[r.value])
  {
    if n == 0 then None
    else if NonFront(cameras[n - 1]) then Some(n - 1)
    else LastNonFront(cameras, n - 1)
  }

  /** The index of the last non-front camera with output sizes among the first n. */
  function LastNonFrontWithSizes(cameras: seq<CameraInfo>, n: nat): (r: Option<nat>)
    requires n <= |cameras|
    ensures r.Some? ==> r.value < n && NonFrontWithSizes(cameras[r.value])
  {
    if n == 0 then None
    else if NonFrontWithSizes(cameras[n - 1]) then Some(n - 1)
    else LastNonFrontWithSizes(cameras, n - 1)
  }

  /** LastNonFront finds a non-front camera after which (among the first n) every camera faces front, and nothing only when all do. */
  lemma {:induction false} LastNonFrontIsLast(cameras: seq<CameraInfo>, n: nat)
    requires n <= |cameras|
    ensures LastNonFront(cameras, n).None? <==> forall j :: 0 <= j < n ==> !NonFront(cameras[j])
    ensures LastNonFront(cameras, n).Some? ==>
            var k := LastNonFront(cameras, n).value;
            k < n && NonFront(cameras[k]) && forall j :: k < j < n ==> !NonFront(cameras[j])
    decreases n
  {
    if n > 0 && !NonFront(cameras[n - 1]) {
      LastNonFrontIsLast(cameras, n - 1);
    }
  }

  /** The same for the last non-front camera with output sizes. */
  lemma {:induction false} LastNonFrontWithSizesIsLast(cameras: seq<CameraInfo>, n: nat)
    requires n <= |cameras|
    ensures LastNonFrontWithSizes(cameras, n).None? <==> forall j :: 0 <= j < n ==> !NonFrontWithSizes(cameras[j])
    ensures LastNonFrontWithSizes(cameras, n).Some? ==>
            var k := LastNonFrontWithSizes(cameras, n).value;
            k < n && NonFrontWithSizes(cameras[k]) && forall j :: k < j < n ==> !NonFrontWithSizes(cameras[j])
    decreases n
  {
    if n > 0 && !NonFrontWithSizes(cameras[n - 1]) {
      LastNonFrontWithSizesIsLast(cameras, n - 1);
    }
  }

  /** The index of the first camera with the requested facing, from index i on: the one a loop with a break stops at. */
  function FirstFacing(cameras: seq<CameraInfo>, lensFacing: int, i: nat): (r: Option<nat>)
    requires i <= |cameras|
    ensures r.Some? ==> i <= r.value < |cameras| && Facing(cameras[r.value], lensFacing)
    decreases |cameras| - i
  {
    if i == |cameras| then None
    else if Facing(cameras[i], lensFacing) then Some(i)
    else FirstFacing(cameras, lensFacing, i + 1)
  }

  /** FirstFacing finds the first camera with the facing, and nothing only when no camera has it. */
  lemma {:induction false} FirstFacingIsFirst(cameras: seq<CameraInfo>, lensFacing: int, i: nat)
    requires i <= |cameras|
    ensures FirstFacing(cameras, lensFacing, i).None? <==> forall j :: i <= j < |cameras| ==> !Facing(cameras[j], lensFacing)
    ensures FirstFacing(cameras, lensFacing, i).Some? ==>
            var k := FirstFacing(cameras, lensFacing, i).value;
            i <= k < |cameras| && Facing(cameras[k], lensFacing) && forall j :: i <= j < k ==> !Facing(cameras[j], lensFacing)
    decreases |cameras| - i
  {
    if i < |cameras| && !Facing(cameras[i], lensFacing) {
      FirstFacingIsFirst(cameras, lensFacing, i + 1);
    }
  }
}
