/**
  VideoRenderer: the base of the renderers, with the initial values its
  constructor gives the shared fields, and the factory that picks the
  concrete renderer for a type code.
*/
module VideoRendererBase {
  /** The type codes create accepts; tVK_YUV420 is taken as the next code after tYUV420_FILTER. */
  const tYUV420: int := 0
  const tYUV420_FILTER: int := 1
  const tVK_YUV420: int := 2

  /** The concrete renderer create makes: GLVideoRendererYUV420, GLVideoRendererYUV420Filter or VKVideoRendererYUV420. */
  datatype RendererKind = PlainGL | FilterGL | Vulkan

  /** create: the filter renderer for tYUV420_FILTER, the Vulkan one for tVK_YUV420, the plain GL one otherwise. */
  function Create(rendererType: int): (k: RendererKind)
    ensures k == FilterGL <==> rendererType == tYUV420_FILTER
    ensures k == Vulkan <==> rendererType == tVK_YUV420
    ensures k == PlainGL <==> rendererType != tYUV420_FILTER && rendererType != tVK_YUV420
  {
    if rendererType == tYUV420_FILTER then FilterGL
    else if rendererType == tVK_YUV420 then Vulkan
    else PlainGL
  }

  /** The fields VideoRenderer's constructor initialises. */
  datatype BaseState = BaseState(frameWidth: nat, frameHeight: nat, surfaceWidth: nat, surfaceHeight: nat,
                                 params: bv32, rotation: real, mirror: bool, isDirty: bool, isProgramChanged: bool)

  /** The constructor: no frame, no surface, no parameters or rotation, mirroring on, nothing pending. */
  function InitialState(): BaseState
  {
    BaseState(0, 0, 0, 0, 0, 0.0, true, false, false)
  }
}
