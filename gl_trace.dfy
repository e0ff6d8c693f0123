/**
  The OpenGL ES calls the renderers make, recorded as events of a ghost trace
  instead of being modelled. The ids glGenTextures and create_program hand
  out are not predictable; they reach the model as a Driver value, the
  answers the driver gives if it is asked during one call.
*/
module GlTrace {
  import opened Wrappers
  import opened FrameCopy
  import opened CommonUtils

  datatype Plane = PlaneY | PlaneU | PlaneV

  /** Shader sources: the vertex shader, and fragment shader k of the bank (k == 0 is the base YUV to RGB shader). */
  datatype Shader = VertexShader | FragmentShader(index: nat)

  /** The uniforms a renderer sets when it (re)binds its program; one shape per renderer revision. */
  datatype Uniforms =
    | ScaleInputs(rotation: real, surfaceWidth: nat, surfaceHeight: nat,
                  frameWidth: nat, frameHeight: nat, mirror: bool, texSize: bool)
    | AspectScale(degrees: int, scale: Option<Scale>)
    | FixedRotation(degrees: int)

  datatype GlEvent =
    | Clear
    | GenTexture(plane: Plane, id: nat, width: nat, height: nat)
    | Upload(plane: Plane, id: nat, width: nat, height: nat, pixels: seq<Byte>)
    | DeleteTexture(plane: Plane, id: nat)
    | LinkProgram(vertex: Shader, fragment: Shader, id: nat)
    | DeleteProgram(id: nat)
    | Bind(program: nat, uniforms: Uniforms)
    | DrawQuad(program: nat)

  /** Ids the driver returns for glGenTextures of each plane and for create_program, and the texSize location. */
  datatype Driver = Driver(texY: nat, texU: nat, texV: nat, program: nat, texSizeLoc: int)

  /** The contents of a freshly allocated store: make_unique<uint8_t[]>(n) value-initialises every byte to 0. */
  function Zeros(n: nat): (r: seq<Byte>)
    ensures |r| == n
  {
    seq(n, _ => 0)
  }

  /** Texture generation that gives up at the first id 0: Y at (w,h), then U and V at (w/2,h/2). */
  function GenEvents(w: nat, h: nat, d: Driver): (r: seq<GlEvent>)
    ensures 1 <= |r| <= 3 && forall i :: 0 <= i < |r| ==> r[i].GenTexture?
    ensures |r| == 3 <==> d.texY != 0 && d.texU != 0
  {
    [GenTexture(PlaneY, d.texY, w, h)] +
    (if d.texY == 0 then []
     else [GenTexture(PlaneU, d.texU, w / 2, h / 2)] +
          (if d.texU == 0 then [] else [GenTexture(PlaneV, d.texV, w / 2, h / 2)]))
  }

  /** Texture deletion: each id that is not 0 is deleted, in the order Y, U, V. */
  function DeleteEvents(y: nat, u: nat, v: nat): (r: seq<GlEvent>)
    ensures forall i :: 0 <= i < |r| ==> r[i].DeleteTexture? && r[i].id != 0
    ensures |r| == (if y != 0 then 1 else 0) + (if u != 0 then 1 else 0) + (if v != 0 then 1 else 0)
  {
    (if y != 0 then [DeleteTexture(PlaneY, y)] else []) +
    (if u != 0 then [DeleteTexture(PlaneU, u)] else []) +
    (if v != 0 then [DeleteTexture(PlaneV, v)] else [])
  }

  /** Texture generation that never checks the ids: Y at (w,h), then U and V at (w/2,h/2). */
  function GenAllEvents(w: nat, h: nat, d: Driver): (r: seq<GlEvent>)
    ensures |r| == 3 && forall i :: 0 <= i < 3 ==> r[i].GenTexture?
  {
    [GenTexture(PlaneY, d.texY, w, h), GenTexture(PlaneU, d.texU, w / 2, h / 2), GenTexture(PlaneV, d.texV, w / 2, h / 2)]
  }

  /** The upload of the three planes from a packed store: Y at (w,h), U and V at (w/2,h/2). */
  function UploadEvents(y: nat, u: nat, v: nat, w: nat, h: nat, store: seq<Byte>): (r: seq<GlEvent>)
    requires |store| == StoreSize(w, h)
    ensures |r| == 3
  {
    var sY, sU := SizeY(w, h), SizeUV(w, h);
    [Upload(PlaneY, y, w, h, store[..sY]),
     Upload(PlaneU, u, w / 2, h / 2, store[sY..sY + sU]),
     Upload(PlaneV, v, w / 2, h / 2, store[sY + sU..])]
  }

  /**
    The trace after one render call of a renderer that draws only a newly
    uploaded frame: the clear; the texture generation when there were no
    textures; and, given an upload, the link of base shader 0 when there was
    no program (program0 == 0) and, once a program exists, the bind when the
    renderer's rebind flag was set, then the draw.
  */
  function RenderTrace(before: seq<GlEvent>, noTextures: bool, uploaded: bool, program0: nat, rebind: bool,
                       w: nat, h: nat, y: nat, u: nat, v: nat, pixels: seq<Byte>,
                       program: nat, uniforms: Uniforms, d: Driver): seq<GlEvent>
    requires uploaded ==> |pixels| == StoreSize(w, h)
  {
    var linked := program0 != 0 || d.program != 0;
    before + [Clear]
    + (if noTextures then GenEvents(w, h, d) else [])
    + (if uploaded then UploadEvents(y, u, v, w, h, pixels) else [])
    + (if uploaded && program0 == 0 then [LinkProgram(VertexShader, FragmentShader(0), d.program)] else [])
    + (if uploaded && linked && rebind then [Bind(program, uniforms)] else [])
    + (if uploaded && linked then [DrawQuad(program)] else [])
  }

  /**
    Each upload reads inside its own region of the store: the region holds at
    least width*height bytes, and the three regions are the store in order.
  */
  lemma {:induction false} UploadsReadInside(y: nat, u: nat, v: nat, w: nat, h: nat, store: seq<Byte>)
    requires |store| == StoreSize(w, h)
    ensures forall i :: 0 <= i < 3 ==>
      |UploadEvents(y, u, v, w, h, store)[i].pixels| >= UploadEvents(y, u, v, w, h, store)[i].width * UploadEvents(y, u, v, w, h, store)[i].height
    ensures UploadEvents(y, u, v, w, h, store)[0].pixels + UploadEvents(y, u, v, w, h, store)[1].pixels
            + UploadEvents(y, u, v, w, h, store)[2].pixels == store
  {
    ChromaFits(w, h);
    var sY, sU := SizeY(w, h), SizeUV(w, h);
    assert store[..sY] + store[sY..sY + sU] + store[sY + sU..] == store;
  }
}
