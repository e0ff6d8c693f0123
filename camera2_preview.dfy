/**
  VideoCameraPreview (camera2glpreview): the surface view that opens the
  last back-facing camera and reports frame orientation for it.
*/
module Camera2Preview {
  import opened Wrappers
  import opened CameraSelection

  /** What the preview asks of the camera manager. */
  datatype Camera2Event = OpenCameraRequest(cameraId: Option<string>)

  class VideoCameraPreview {
    var cameraId: Option<string>
    /** mSensorOrientation: no method assigns it, so it keeps the int field's default 0. */
    const sensorOrientation: int := 0
    ghost var events: seq<Camera2Event>

    /** The constructor: no camera id yet. */
    constructor()
      ensures cameraId.None? && sensorOrientation == 0 && events == []
    {
      cameraId := None;
      events := [];
    }

    /**
      getOrientation(rotation): with the sensor orientation at 0 this is
      (ORIENTATIONS.get(rotation) + 270) % 360, so 0, 270, 180 and 90 degrees
      for the four display rotations.
    */
    method GetOrientation(rotation: int) returns (degrees: int)
      ensures degrees == Orientation(rotation, 0)
      ensures ROTATION_0 <= rotation <= ROTATION_270 ==> degrees == (360 - 90 * rotation) % 360
    {
      degrees := Orientation(rotation, sensorOrientation);
      if ROTATION_0 <= rotation <= ROTATION_270 {
        UnmountedSensorOrientation(rotation);
      }
    }

    /**
      openCamera: without the camera permission nothing happens; otherwise
      every camera not known to face front overwrites the id (the loop never
      breaks, so the last one wins) and the manager is asked to open that id.
    */
    method OpenCamera(permissionGranted: bool, cameras: seq<CameraInfo>)
      modifies this
      ensures !permissionGranted ==> cameraId == old(cameraId) && events == old(events)
      ensures permissionGranted ==>
              cameraId == (if LastNonFront(cameras, |cameras|).Some?
                           then Some(cameras[LastNonFront(cameras, |cameras|).value].id)
                           else old(cameraId)) &&
              events == old(events) + [OpenCameraRequest(cameraId)]
    {
      if !permissionGranted {
        return;
      }
      for i := 0 to |cameras|
        invariant cameraId == if LastNonFront(cameras, i).Some? then Some(cameras[LastNonFront(cameras, i).value].id) else old(cameraId)
        invariant events == old(events)
      {
        var c := cameras[i];
        if c.facing.Some? && c.facing.value == LENS_FACING_FRONT {
          continue;
        }
        cameraId := Some(c.id);
      }
      events := events + [OpenCameraRequest(cameraId)];
    }
  }
}
