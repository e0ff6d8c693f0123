/**
  VideoCameraPreview (camera.preview): the surface view that chooses a
  back-facing camera and a preview size for the view.

  The camera manager's answers come in as a list of CameraInfo values; the
  session, thread and visibility calls are recorded as events.
*/
module CameraPreview {
  import opened Wrappers
  import opened CameraSelection

  /** What the preview asks of its camera session and thread. */
  datatype PreviewEvent = StopCamera | StartCamera

  class VideoCameraPreview {
    var cameraId: Option<string>
    var sensorOrientation: Option<int>
    var outputSizes: Option<seq<Size>>
    var previewSize: Option<Size>
    /** The aspect test of getOptimalPreviewSize for a view of w x h: |size ratio - w / h| <= 0.1 in doubles. */
    const inTolerance: (int, int, Size) -> bool
    ghost var events: seq<PreviewEvent>

    /** The constructor: no camera, an empty size list, no preview size. */
    constructor(inTolerance: (int, int, Size) -> bool)
      ensures this.inTolerance == inTolerance
      ensures cameraId.None? && sensorOrientation.None? && outputSizes == Some([]) && previewSize.None? && events == []
    {
      this.inTolerance := inTolerance;
      cameraId, sensorOrientation, outputSizes, previewSize := None, None, Some([]), None;
      events := [];
    }

    /** The aspect test for a w x h view, as a predicate on sizes. */
    function Tolerated(w: int, h: int): Size -> bool
    {
      (s: Size) => inTolerance(w, h, s)
    }

    /**
      The camera loop of getOptimalPreviewSize: every camera not known to face
      front overwrites the id and the sensor orientation, and its sizes when
      it has a configuration map. The loop never breaks, so the last such
      camera wins, and the sizes may come from an earlier one than the id.
    */
    method ScanCameras(cameras: seq<CameraInfo>)
      modifies this
      ensures LastNonFront(cameras, |cameras|).None? ==>
              cameraId == old(cameraId) && sensorOrientation == old(sensorOrientation)
      ensures LastNonFront(cameras, |cameras|).Some? ==>
              cameraId == Some(cameras[LastNonFront(cameras, |cameras|).value].id) &&
              sensorOrientation == cameras[LastNonFront(cameras, |cameras|).value].sensorOrientation
      ensures outputSizes == if LastNonFrontWithSizes(cameras, |cameras|).Some?
                             then cameras[LastNonFrontWithSizes(cameras, |cameras|).value].outputSizes
                             else old(outputSizes)
      ensures previewSize == old(previewSize) && events == old(events)
    {
      for i := 0 to |cameras|
        invariant LastNonFront(cameras, i).None? ==>
                  cameraId == old(cameraId) && sensorOrientation == old(sensorOrientation)
        invariant LastNonFront(cameras, i).Some? ==>
                  cameraId == Some(cameras[LastNonFront(cameras, i).value].id) &&
                  sensorOrientation == cameras[LastNonFront(cameras, i).value].sensorOrientation
        invariant outputSizes == if LastNonFrontWithSizes(cameras, i).Some?
                                 then cameras[LastNonFrontWithSizes(cameras, i).value].outputSizes
                                 else old(outputSizes)
        invariant previewSize == old(previewSize) && events == old(events)
      {
        var c := cameras[i];
        if c.facing.Some? && c.facing.value == LENS_FACING_FRONT {
          continue;
        }
        if c.outputSizes.Some? {
          outputSizes := c.outputSizes;
        }
        sensorOrientation := c.sensorOrientation;
        cameraId := Some(c.id);
      }
    }

    /** getOptimalPreviewSize: scan the cameras, then choose over the sizes the scan left. */
    method GetOptimalPreviewSize(w: int, h: int, cameras: seq<CameraInfo>) returns (size: Option<Size>)
      modifies this
      ensures LastNonFront(cameras, |cameras|).None? ==>
              cameraId == old(cameraId) && sensorOrientation == old(sensorOrientation)
      ensures LastNonFront(cameras, |cameras|).Some? ==>
              cameraId == Some(cameras[LastNonFront(cameras, |cameras|).value].id) &&
              sensorOrientation == cameras[LastNonFront(cameras, |cameras|).value].sensorOrientation
      ensures outputSizes == if LastNonFrontWithSizes(cameras, |cameras|).Some?
                             then cameras[LastNonFrontWithSizes(cameras, |cameras|).value].outputSizes
                             else old(outputSizes)
      ensures size == OptimalPreviewSize(outputSizes, h, Tolerated(w, h))
      ensures previewSize == old(previewSize) && events == old(events)
    {
      ScanCameras(cameras);
      size := ChoosePreviewSize(outputSizes, h, Tolerated(w, h));
    }

    /** init: the preview size for a w x h view, with the camera and sizes the scan leaves. */
    method Init(w: int, h: int, cameras: seq<CameraInfo>)
      modifies this
      ensures LastNonFront(cameras, |cameras|).None? ==>
              cameraId == old(cameraId) && sensorOrientation == old(sensorOrientation)
      ensures LastNonFront(cameras, |cameras|).Some? ==>
              cameraId == Some(cameras[LastNonFront(cameras, |cameras|).value].id) &&
              sensorOrientation == cameras[LastNonFront(cameras, |cameras|).value].sensorOrientation
      ensures previewSize == OptimalPreviewSize(outputSizes, h, Tolerated(w, h))
      ensures outputSizes == if LastNonFrontWithSizes(cameras, |cameras|).Some?
                             then cameras[LastNonFrontWithSizes(cameras, |cameras|).value].outputSizes
                             else old(outputSizes)
      ensures events == old(events)
    {
      previewSize := GetOptimalPreviewSize(w, h, cameras);
    }

    /** changeSize: take the size, then stop and restart the camera. */
    method ChangeSize(size: Size)
      modifies this
      ensures previewSize == Some(size)
      ensures cameraId == old(cameraId) && sensorOrientation == old(sensorOrientation) && outputSizes == old(outputSizes)
      ensures events == old(events) + [StopCamera, StartCamera]
    {
      previewSize := Some(size);
      events := events + [StopCamera, StartCamera];
    }
  }
}
