/**
  CameraController (camera.preview): it picks a camera by lens facing, the
  preview size for the view, and hands each frame to the renderer with the
  orientation and mirroring of the chosen camera.

  The camera manager's answers come in as a list of CameraInfo values; the
  session, thread and renderer calls are recorded as events.
*/
module Controller {
  import opened Wrappers
  import opened CameraSelection
  import opened FrameCopy

  /** What the controller asks of the camera session, its thread and the renderer. */
  datatype ControllerEvent =
    | CloseCamera
    | StopBackgroundThread
    | OpenCamera
    | StartBackgroundThread
    | DrawVideoFrame(data: seq<Byte>, width: int, height: int, rotation: int, mirror: bool)

  /** The fields setupCameraId writes: mOutputSizes, mSensorOrientation, mCameraId and mFacing. */
  datatype Selection = Selection(outputSizes: Option<seq<Size>>, sensorOrientation: Option<int>,
                                 cameraId: Option<string>, facing: Option<int>)

  /**
    setupCameraId: the first camera whose lens has the requested facing
    gives its id, facing and sensor orientation, and its output sizes when it
    has a stream configuration map; without such a camera nothing changes.
  */
  function SetupCamera(lensFacing: int, cameras: seq<CameraInfo>, before: Selection): Selection
  {
    match FirstFacing(cameras, lensFacing, 0)
    case None => before
    case Some(k) =>
      var c := cameras[k];
      Selection(if c.outputSizes.Some? then c.outputSizes else before.outputSizes,
                c.sensorOrientation, Some(c.id), Some(lensFacing))
  }

  /**
    When some camera has the requested facing, the selection is the first
    such camera (its id and the requested facing); otherwise it is unchanged.
  */
  lemma {:induction false} SetupCameraPicksFirst(lensFacing: int, cameras: seq<CameraInfo>, before: Selection)
    ensures (forall j :: 0 <= j < |cameras| ==> !Facing(cameras[j], lensFacing)) ==>
            SetupCamera(lensFacing, cameras, before) == before
    ensures (exists j :: 0 <= j < |cameras| && Facing(cameras[j], lensFacing)) ==>
            exists k :: 0 <= k < |cameras| && Facing(cameras[k], lensFacing) &&
                        (forall j :: 0 <= j < k ==> !Facing(cameras[j], lensFacing)) &&
                        SetupCamera(lensFacing, cameras, before).cameraId == Some(cameras[k].id) &&
                        SetupCamera(lensFacing, cameras, before).facing == Some(lensFacing) &&
                        SetupCamera(lensFacing, cameras, before).sensorOrientation == cameras[k].sensorOrientation
  {
    FirstFacingIsFirst(cameras, lensFacing, 0);
  }

  /**
    The id loop of setupCameraId, from camera i on, meets a camera without a
    lens facing before any camera with lensFacing: comparing the null Integer
    with lensFacing unboxes it and throws a NullPointerException, which the
    catch for CameraAccessException lets through.
  */
  predicate ThrowsOnNullFacing(cameras: seq<CameraInfo>, lensFacing: int, i: nat)
    decreases |cameras| - i
  {
    i < |cameras| && !Facing(cameras[i], lensFacing) &&
    (cameras[i].facing.None? || ThrowsOnNullFacing(cameras, lensFacing, i + 1))
  }

  /**
    The loop throws exactly when some camera without a facing comes before
    every camera with lensFacing; a camera without a facing after the first
    match is never looked at.
  */
  lemma {:induction false} ThrowsOnNullFacingIsFirstNull(cameras: seq<CameraInfo>, lensFacing: int, i: nat)
    requires i <= |cameras|
    ensures ThrowsOnNullFacing(cameras, lensFacing, i) <==>
            exists k :: i <= k < |cameras| && cameras[k].facing.None? &&
                        forall j :: i <= j < k ==> !Facing(cameras[j], lensFacing)
    decreases |cameras| - i
  {
    if i < |cameras| {
      ThrowsOnNullFacingIsFirstNull(cameras, lensFacing, i + 1);
      if Facing(cameras[i], lensFacing) {
        forall k | i <= k < |cameras| && cameras[k].facing.None?
          ensures exists j :: i <= j < k && Facing(cameras[j], lensFacing)
        {
          assert k != i;
          assert i <= i < k && Facing(cameras[i], lensFacing);
        }
      } else if cameras[i].facing.None? {
        assert cameras[i].facing.None?;
      } else {
        if ThrowsOnNullFacing(cameras, lensFacing, i + 1) {
          var k :| i + 1 <= k < |cameras| && cameras[k].facing.None? &&
                   forall j :: i + 1 <= j < k ==> !Facing(cameras[j], lensFacing);
          assert i <= k < |cameras| && cameras[k].facing.None? &&
                 forall j :: i <= j < k ==> !Facing(cameras[j], lensFacing);
        }
      }
    }
  }

  /**
    switchCamera asks for the opposite facing; when a camera has it, the
    mirroring flips, and switching twice between a front and a back camera
    comes back to the first facing.
  */
  lemma {:induction false} SwitchTogglesMirroring(facing: int, cameras: seq<CameraInfo>, before: Selection)
    requires exists j :: 0 <= j < |cameras| && Facing(cameras[j], Opposite(facing))
    ensures SetupCamera(Opposite(facing), cameras, before).facing == Some(Opposite(facing))
    ensures (SetupCamera(Opposite(facing), cameras, before).facing == Some(LENS_FACING_FRONT)) <==> facing != LENS_FACING_FRONT
    ensures facing == LENS_FACING_FRONT || facing == LENS_FACING_BACK ==> Opposite(Opposite(facing)) == facing
  {
    SetupCameraPicksFirst(Opposite(facing), cameras, before);
  }

  class CameraController {
    var outputSizes: Option<seq<Size>>
    var sensorOrientation: Option<int>
    var cameraId: Option<string>
    var facing: Option<int>
    var previewSize: Option<Size>
    var width: int
    var height: int
    /** The aspect test of getOptimalPreviewSize for a view of w x h: |size ratio - w / h| <= 0.1 in doubles. */
    const inTolerance: (int, int, Size) -> bool
    ghost var events: seq<ControllerEvent>

    /** The constructor: an empty size list, no camera, no preview size, a 0 x 0 view. */
    constructor(inTolerance: (int, int, Size) -> bool)
      ensures this.inTolerance == inTolerance
      ensures outputSizes == Some([]) && sensorOrientation.None? && cameraId.None? && facing.None?
      ensures previewSize.None? && width == 0 && height == 0 && events == []
    {
      this.inTolerance := inTolerance;
      outputSizes := Some([]);
      sensorOrientation, cameraId, facing, previewSize := None, None, None, None;
      width, height := 0, 0;
      events := [];
    }

    /** The four fields setupCameraId writes. */
    function Chosen(): Selection
      reads this
    {
      Selection(outputSizes, sensorOrientation, cameraId, facing)
    }

    /** The aspect test for a w x h view, as a predicate on sizes. */
    function Tolerated(w: int, h: int): Size -> bool
    {
      (s: Size) => inTolerance(w, h, s)
    }

    /** getOptimalPreviewSize for a w x h view, over the current size list. */
    method GetOptimalPreviewSize(w: int, h: int) returns (size: Option<Size>)
      ensures size == OptimalPreviewSize(outputSizes, h, Tolerated(w, h))
    {
      size := ChoosePreviewSize(outputSizes, h, Tolerated(w, h));
    }

    /**
      setupCameraId: the id loop stops at the first camera whose facing is
      lensFacing, and takes its sizes (when it has a configuration map), its
      sensor orientation, its id and its facing. A camera without a facing
      met before that throws (thrown), and nothing has been written then.
    */
    method SetupCameraId(lensFacing: int, cameras: seq<CameraInfo>) returns (thrown: bool)
      modifies this
      ensures thrown == ThrowsOnNullFacing(cameras, lensFacing, 0)
      ensures Chosen() == if thrown then old(Chosen()) else SetupCamera(lensFacing, cameras, old(Chosen()))
      ensures previewSize == old(previewSize) && width == old(width) && height == old(height) && events == old(events)
    {
      var i := 0;
      while i < |cameras|
        invariant i <= |cameras|
        invariant FirstFacing(cameras, lensFacing, 0) == FirstFacing(cameras, lensFacing, i)
        invariant ThrowsOnNullFacing(cameras, lensFacing, 0) == ThrowsOnNullFacing(cameras, lensFacing, i)
        invariant Chosen() == old(Chosen())
        invariant previewSize == old(previewSize) && width == old(width) && height == old(height) && events == old(events)
      {
        var c := cameras[i];
        if c.facing.None? {
          thrown := true;
          return;
        }
        if c.facing.value == lensFacing {
          if c.outputSizes.Some? {
            outputSizes := c.outputSizes;
          }
          sensorOrientation := c.sensorOrientation;
          cameraId := Some(c.id);
          facing := c.facing;
          thrown := false;
          return;
        }
        i := i + 1;
      }
      thrown := false;
    }

    /**
      initialize: remember the view, set up the front camera, choose the
      preview size, open the camera; a throw from setupCameraId ends it
      after the view is remembered.
    */
    method Initialize(w: int, h: int, cameras: seq<CameraInfo>) returns (thrown: bool)
      modifies this
      ensures width == w && height == h
      ensures thrown == ThrowsOnNullFacing(cameras, LENS_FACING_FRONT, 0)
      ensures thrown ==> Chosen() == old(Chosen()) && previewSize == old(previewSize) && events == old(events)
      ensures !thrown ==> Chosen() == SetupCamera(LENS_FACING_FRONT, cameras, old(Chosen()))
      ensures !thrown ==> previewSize == OptimalPreviewSize(outputSizes, h, Tolerated(w, h))
      ensures !thrown ==> events == old(events) + [OpenCamera]
    {
      width, height := w, h;
      thrown := SetupCameraId(LENS_FACING_FRONT, cameras);
      if thrown {
        return;
      }
      previewSize := GetOptimalPreviewSize(w, h);
      events := events + [OpenCamera];
    }

    /** changeSize: take the size, then stop, reopen and restart the camera. */
    method ChangeSize(size: Size)
      modifies this
      ensures previewSize == Some(size) && Chosen() == old(Chosen()) && width == old(width) && height == old(height)
      ensures events == old(events) + [CloseCamera, StopBackgroundThread, OpenCamera, StartBackgroundThread]
    {
      previewSize := Some(size);
      events := events + [CloseCamera, StopBackgroundThread, OpenCamera, StartBackgroundThread];
    }

    /**
      switchCamera: stop the camera, set up the camera of the opposite
      facing, choose the preview size again for the remembered view, reopen;
      a throw from setupCameraId ends it with the camera stopped.
      Reading mFacing unboxes it, so a camera must have been chosen.
    */
    method SwitchCamera(cameras: seq<CameraInfo>) returns (thrown: bool)
      requires facing.Some?
      modifies this
      ensures thrown == ThrowsOnNullFacing(cameras, Opposite(old(facing).value), 0)
      ensures width == old(width) && height == old(height)
      ensures thrown ==> Chosen() == old(Chosen()) && previewSize == old(previewSize) &&
                         events == old(events) + [CloseCamera, StopBackgroundThread]
      ensures !thrown ==> Chosen() == SetupCamera(Opposite(old(facing).value), cameras, old(Chosen()))
      ensures !thrown ==> previewSize == OptimalPreviewSize(outputSizes, height, Tolerated(width, height))
      ensures !thrown ==> events == old(events) + [CloseCamera, StopBackgroundThread, OpenCamera, StartBackgroundThread]
    {
      var isFront := facing.value == LENS_FACING_FRONT;
      events := events + [CloseCamera, StopBackgroundThread];
      thrown := SetupCameraId(if isFront then LENS_FACING_BACK else LENS_FACING_FRONT, cameras);
      if thrown {
        return;
      }
      previewSize := GetOptimalPreviewSize(width, height);
      events := events + [OpenCamera, StartBackgroundThread];
    }

    /** getOrientation for the display's current rotation; reading mSensorOrientation unboxes it. */
    method GetOrientation(displayRotation: int) returns (degrees: int)
      requires sensorOrientation.Some?
      ensures degrees == Orientation(displayRotation, sensorOrientation.value)
    {
      degrees := Orientation(displayRotation, sensorOrientation.value);
    }

    /** isMirrored: exactly when the chosen lens faces front; reading mFacing unboxes it. */
    method IsMirrored() returns (mirrored: bool)
      requires facing.Some?
      ensures mirrored <==> facing == Some(LENS_FACING_FRONT)
    {
      mirrored := facing.value == LENS_FACING_FRONT;
    }

    /** onPreviewFrame: the caller's bytes go to the renderer unchanged, with the current orientation and mirroring. */
    method OnPreviewFrame(data: seq<Byte>, frameWidth: int, frameHeight: int, displayRotation: int)
      requires sensorOrientation.Some? && facing.Some?
      modifies this
      ensures Chosen() == old(Chosen()) && previewSize == old(previewSize) && width == old(width) && height == old(height)
      ensures events == old(events) + [DrawVideoFrame(data, frameWidth, frameHeight,
                                                      Orientation(displayRotation, sensorOrientation.value),
                                                      facing == Some(LENS_FACING_FRONT))]
    {
      var rotation := GetOrientation(displayRotation);
      var mirror := IsMirrored();
      events := events + [DrawVideoFrame(data, frameWidth, frameHeight, rotation, mirror)];
    }
  }
}
