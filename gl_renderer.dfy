/**
  GLVideoRendererYUV420: the OpenGL ES renderer that packs each incoming frame
  into one Y|U|V store, uploads the three planes as luminance textures when a
  new frame is waiting, and draws a full-screen quad.
*/
module GLRenderer {
  import opened FrameCopy
  import opened GlTrace
  import VideoRendererBase

  class GLVideoRendererYUV420 {
    var frameWidth: nat
    var frameHeight: nat
    var surfaceWidth: nat
    var surfaceHeight: nat
    var params: bv32
    var rotation: real
    var mirror: bool
    /** m_pDataY; m_pDataU and m_pDataV point SizeY and SizeY + SizeUV bytes into it. */
    var store: array?<Byte>
    var texY: nat
    var texU: nat
    var texV: nat
    var program: nat
    var texSizeLoc: int
    var isDirty: bool
    var isProgramChanged: bool
    ghost var trace: seq<GlEvent>
    /** Number of updateFrame calls so far. */
    ghost var framesIngested: nat
    /** Number of DrawQuad events render has added to the trace. */
    ghost var draws: nat

    /**
      The store matches the frame dimensions, a pending frame has a store, and
      every draw consumed a frame of its own: the draws plus the pending frame
      never outnumber the frames ingested.
    */
    ghost predicate Valid()
      reads this
    {
      (store != null ==> store.Length == StoreSize(frameWidth, frameHeight)) &&
      (isDirty ==> store != null) &&
      draws + (if isDirty then 1 else 0) <= framesIngested
    }

    /** What the store holds; nothing before the first frame. */
    ghost function StoreContents(): seq<Byte>
      reads this, store
    {
      if store == null then [] else store[..]
    }

    /** The fields of the VideoRenderer part of the object. */
    function BaseFields(): VideoRendererBase.BaseState
      reads this
    {
      VideoRendererBase.BaseState(frameWidth, frameHeight, surfaceWidth, surfaceHeight,
                                  params, rotation, mirror, isDirty, isProgramChanged)
    }

    predicate NoTextures()
      reads this
    {
      texY == 0 && texU == 0 && texV == 0
    }

    /** VideoRenderer's field defaults, then isProgramChanged raised so the first useProgram binds. */
    constructor ()
      ensures Valid()
      ensures BaseFields() == VideoRendererBase.InitialState().(isProgramChanged := true)
      ensures store == null && NoTextures() && program == 0 && texSizeLoc == 0
      ensures trace == [] && framesIngested == 0 && draws == 0
    {
      frameWidth, frameHeight := 0, 0;
      surfaceWidth, surfaceHeight := 0, 0;
      params, rotation, mirror := 0, 0.0, true;
      store := null;
      texY, texU, texV := 0, 0, 0;
      program, texSizeLoc := 0, 0;
      isDirty := false;
      isProgramChanged := true;
      trace, framesIngested, draws := [], 0, 0;
    }

    /** init: records the surface size. */
    method Init(width: nat, height: nat)
      requires Valid()
      modifies this
      ensures Valid()
      ensures surfaceWidth == width && surfaceHeight == height
      ensures frameWidth == old(frameWidth) && frameHeight == old(frameHeight)
      ensures params == old(params) && rotation == old(rotation) && mirror == old(mirror)
      ensures store == old(store) && texY == old(texY) && texU == old(texU) && texV == old(texV)
      ensures program == old(program) && texSizeLoc == old(texSizeLoc)
      ensures isDirty == old(isDirty) && isProgramChanged == old(isProgramChanged)
      ensures trace == old(trace) && framesIngested == old(framesIngested) && draws == old(draws)
    {
      surfaceWidth, surfaceHeight := width, height;
    }

    /**
      The first half of updateFrame: a new zeroed store when there is none or
      the frame dimensions changed, and only then isProgramChanged raised; the
      new dimensions recorded. s0 is what the store holds afterwards.
    */
    method Reserve(w: nat, h: nat) returns (ghost s0: seq<Byte>)
      requires Valid()
      modifies this
      ensures Valid()
      ensures var realloc := old(store) == null || old(frameWidth) != w || old(frameHeight) != h;
              store != null && store.Length == StoreSize(w, h) &&
              (realloc ==> fresh(store) && isProgramChanged && s0 == Zeros(StoreSize(w, h))) &&
              (!realloc ==> store == old(store) && isProgramChanged == old(isProgramChanged) && s0 == old(store[..]))
      ensures store[..] == s0
      ensures frameWidth == w && frameHeight == h
      ensures surfaceWidth == old(surfaceWidth) && surfaceHeight == old(surfaceHeight)
      ensures params == old(params) && rotation == old(rotation) && mirror == old(mirror)
      ensures texY == old(texY) && texU == old(texU) && texV == old(texV)
      ensures program == old(program) && texSizeLoc == old(texSizeLoc) && isDirty == old(isDirty)
      ensures trace == old(trace) && framesIngested == old(framesIngested) && draws == old(draws)
    {
      if store == null || frameWidth != w || frameHeight != h {
        store := new Byte[StoreSize(w, h)](_ => 0);
        s0 := Zeros(store.Length);
        isProgramChanged := true;
      } else {
        s0 := store[..];
      }
      frameWidth, frameHeight := w, h;
    }

    /**
      updateFrame: reallocation as Reserve says, then the planes packed into
      the store (in bulk or row by row), and the frame marked pending.
    */
    method UpdateFrame(f: Frame)
      requires Valid() && SourceInBounds(f)
      modifies this, store
      ensures Valid()
      ensures var realloc := old(store) == null || old(frameWidth) != f.width || old(frameHeight) != f.height;
              store != null && store.Length == StoreSize(f.width, f.height) &&
              (realloc ==> fresh(store) && isProgramChanged) &&
              (!realloc ==> store == old(store) && isProgramChanged == old(isProgramChanged)) &&
              store[..] == PackFrame(if realloc then Zeros(StoreSize(f.width, f.height)) else old(store[..]), f)
      ensures frameWidth == f.width && frameHeight == f.height && isDirty
      ensures surfaceWidth == old(surfaceWidth) && surfaceHeight == old(surfaceHeight)
      ensures params == old(params) && rotation == old(rotation) && mirror == old(mirror)
      ensures texY == old(texY) && texU == old(texU) && texV == old(texV)
      ensures program == old(program) && texSizeLoc == old(texSizeLoc)
      ensures trace == old(trace) && framesIngested == old(framesIngested) + 1 && draws == old(draws)
    {
      ghost var s0 := Reserve(f.width, f.height);
      CopyPlanes(store, f);
      isDirty := true;
      framesIngested := framesIngested + 1;
    }

    /**
      draw: records rotation and mirror, then ingests the buffer as a frame
      with strides (w, w/2) and U, V at w*h and w*h*5/4. The length argument
      is ignored, so the buffer must hold the w*h*3/2 bytes read. The store
      ends up holding the buffer's leading bytes verbatim.
    */
    method Draw(buffer: seq<Byte>, length: nat, width: nat, height: nat, rotation: real, mirror: bool)
      requires Valid() && |buffer| >= StoreSize(width, height)
      modifies this, store
      ensures Valid()
      ensures store != null && store[..] == buffer[..StoreSize(width, height)]
      ensures var realloc := old(store) == null || old(frameWidth) != width || old(frameHeight) != height;
              (realloc ==> fresh(store) && isProgramChanged) &&
              (!realloc ==> store == old(store) && isProgramChanged == old(isProgramChanged))
      ensures frameWidth == width && frameHeight == height && isDirty
      ensures this.rotation == rotation && this.mirror == mirror
      ensures surfaceWidth == old(surfaceWidth) && surfaceHeight == old(surfaceHeight) && params == old(params)
      ensures texY == old(texY) && texU == old(texU) && texV == old(texV)
      ensures program == old(program) && texSizeLoc == old(texSizeLoc)
      ensures trace == old(trace) && framesIngested == old(framesIngested) + 1 && draws == old(draws)
    {
      this.rotation := rotation;
      this.mirror := mirror;
      DrawFrameInBounds(buffer, width, height);
      ghost var s0 := Reserve(width, height);
      DrawPacksVerbatim(s0, buffer, width, height);
      CopyPlanes(store, DrawFrame(buffer, width, height));
      isDirty := true;
      framesIngested := framesIngested + 1;
    }

    method SetParameters(p: bv32)
      requires Valid()
      modifies this
      ensures Valid()
      ensures params == p
      ensures frameWidth == old(frameWidth) && frameHeight == old(frameHeight)
      ensures surfaceWidth == old(surfaceWidth) && surfaceHeight == old(surfaceHeight)
      ensures rotation == old(rotation) && mirror == old(mirror)
      ensures store == old(store) && texY == old(texY) && texU == old(texU) && texV == old(texV)
      ensures program == old(program) && texSizeLoc == old(texSizeLoc)
      ensures isDirty == old(isDirty) && isProgramChanged == old(isProgramChanged)
      ensures trace == old(trace) && framesIngested == old(framesIngested) && draws == old(draws)
    {
      params := p;
    }

    method GetParameters() returns (p: bv32)
      ensures p == params
    {
      p := params;
    }

    /**
      createTextures: generates the Y, then U, then V texture, giving up at
      the first id 0. Ids generated before the failure stay in their fields.
    */
    method CreateTextures(d: Driver) returns (ok: bool)
      requires Valid()
      modifies this
      ensures Valid()
      ensures ok <==> d.texY != 0 && d.texU != 0 && d.texV != 0
      ensures texY == d.texY
      ensures texU == if d.texY != 0 then d.texU else old(texU)
      ensures texV == if d.texY != 0 && d.texU != 0 then d.texV else old(texV)
      ensures trace == old(trace) + GenEvents(frameWidth, frameHeight, d)
      ensures frameWidth == old(frameWidth) && frameHeight == old(frameHeight)
      ensures surfaceWidth == old(surfaceWidth) && surfaceHeight == old(surfaceHeight)
      ensures params == old(params) && rotation == old(rotation) && mirror == old(mirror)
      ensures store == old(store) && program == old(program) && texSizeLoc == old(texSizeLoc)
      ensures isDirty == old(isDirty) && isProgramChanged == old(isProgramChanged)
      ensures framesIngested == old(framesIngested) && draws == old(draws)
    {
      trace := trace + GenEvents(frameWidth, frameHeight, d);
      texY := d.texY;
      if texY == 0 {
        return false;
      }
      texU := d.texU;
      if texU == 0 {
        return false;
      }
      texV := d.texV;
      return texV != 0;
    }

    /**
      updateTextures: creates the textures only when all three ids are 0; a
      pending frame is then uploaded (Y at (w,h), U and V at (w/2,h/2)) and
      the flag cleared. True exactly when an upload happened.
    */
    method UpdateTextures(d: Driver) returns (ok: bool)
      requires Valid()
      modifies this
      ensures Valid()
      ensures ok <==> old(isDirty) && (old(NoTextures()) ==> d.texY != 0 && d.texU != 0 && d.texV != 0)
      ensures isDirty == (old(isDirty) && !ok)
      ensures ok ==> store != null
      ensures old(NoTextures()) ==> texY == d.texY && texU == (if d.texY != 0 then d.texU else 0)
                                    && texV == (if d.texY != 0 && d.texU != 0 then d.texV else 0)
      ensures !old(NoTextures()) ==> texY == old(texY) && texU == old(texU) && texV == old(texV)
      ensures trace == old(trace) + (if old(NoTextures()) then GenEvents(frameWidth, frameHeight, d) else [])
                      + (if ok then UploadEvents(texY, texU, texV, frameWidth, frameHeight, store[..]) else [])
      ensures frameWidth == old(frameWidth) && frameHeight == old(frameHeight)
      ensures surfaceWidth == old(surfaceWidth) && surfaceHeight == old(surfaceHeight)
      ensures params == old(params) && rotation == old(rotation) && mirror == old(mirror)
      ensures store == old(store) && program == old(program) && texSizeLoc == old(texSizeLoc)
      ensures isProgramChanged == old(isProgramChanged)
      ensures framesIngested == old(framesIngested) && draws == old(draws)
    {
      var ready := true;
      if NoTextures() {
        ready := CreateTextures(d);
      }
      ok := false;
      if ready && isDirty {
        trace := trace + UploadEvents(texY, texU, texV, frameWidth, frameHeight, store[..]);
        isDirty := false;
        ok := true;
      }
    }

    /** deleteTextures: every id that is not 0 is deleted and set to 0. */
    method DeleteTextures()
      requires Valid()
      modifies this
      ensures Valid()
      ensures NoTextures()
      ensures trace == old(trace) + DeleteEvents(old(texY), old(texU), old(texV))
      ensures frameWidth == old(frameWidth) && frameHeight == old(frameHeight)
      ensures surfaceWidth == old(surfaceWidth) && surfaceHeight == old(surfaceHeight)
      ensures params == old(params) && rotation == old(rotation) && mirror == old(mirror)
      ensures store == old(store) && program == old(program) && texSizeLoc == old(texSizeLoc)
      ensures isDirty == old(isDirty) && isProgramChanged == old(isProgramChanged)
      ensures framesIngested == old(framesIngested) && draws == old(draws)
    {
      trace := trace + DeleteEvents(texY, texU, texV);
      if texY != 0 {
        texY := 0;
      }
      if texU != 0 {
        texU := 0;
      }
      if texV != 0 {
        texV := 0;
      }
    }

    /**
      createProgram: m_program becomes whatever create_program returned; the
      attribute and uniform locations (among them texSize) are read only when
      it is not 0.
    */
    method CreateProgram(vertex: Shader, fragment: Shader, d: Driver) returns (id: nat)
      requires Valid()
      modifies this
      ensures Valid()
      ensures id == d.program && program == d.program
      ensures texSizeLoc == if d.program != 0 then d.texSizeLoc else old(texSizeLoc)
      ensures trace == old(trace) + [LinkProgram(vertex, fragment, d.program)]
      ensures frameWidth == old(frameWidth) && frameHeight == old(frameHeight)
      ensures surfaceWidth == old(surfaceWidth) && surfaceHeight == old(surfaceHeight)
      ensures params == old(params) && rotation == old(rotation) && mirror == old(mirror)
      ensures store == old(store) && texY == old(texY) && texU == old(texU) && texV == old(texV)
      ensures isDirty == old(isDirty) && isProgramChanged == old(isProgramChanged)
      ensures framesIngested == old(framesIngested) && draws == old(draws)
    {
      program := d.program;
      trace := trace + [LinkProgram(vertex, fragment, program)];
      if program != 0 {
        texSizeLoc := d.texSizeLoc;
      }
      id := program;
    }

    /** The inputs of the uniforms useProgram sets: rotation and scale matrices, and texSize when located. */
    function BindUniforms(): Uniforms
      reads this
    {
      ScaleInputs(rotation, surfaceWidth, surfaceHeight, frameWidth, frameHeight, mirror, texSizeLoc >= 0)
    }

    /**
      useProgram: creates the program from the base shaders only when there is
      none; binds attributes and uniforms only while isProgramChanged is set,
      then clears it. Returns the program, or 0 when it could not be created.
    */
    method UseProgram(d: Driver) returns (id: nat)
      requires Valid()
      modifies this
      ensures Valid()
      ensures var linked := old(program) != 0 || d.program != 0;
              (linked ==> id == program && id != 0) && (!linked ==> id == 0) &&
              isProgramChanged == (old(isProgramChanged) && !linked)
      ensures program == if old(program) != 0 then old(program) else d.program
      ensures texSizeLoc == if old(program) == 0 && d.program != 0 then d.texSizeLoc else old(texSizeLoc)
      ensures trace == old(trace)
                      + (if old(program) == 0 then [LinkProgram(VertexShader, FragmentShader(0), d.program)] else [])
                      + (if program != 0 && old(isProgramChanged) then [Bind(program, BindUniforms())] else [])
      ensures frameWidth == old(frameWidth) && frameHeight == old(frameHeight)
      ensures surfaceWidth == old(surfaceWidth) && surfaceHeight == old(surfaceHeight)
      ensures params == old(params) && rotation == old(rotation) && mirror == old(mirror)
      ensures store == old(store) && texY == old(texY) && texU == old(texU) && texV == old(texV)
      ensures isDirty == old(isDirty)
      ensures framesIngested == old(framesIngested) && draws == old(draws)
    {
      id := program;
      if id == 0 {
        id := CreateProgram(VertexShader, FragmentShader(0), d);
      }
      if id != 0 && isProgramChanged {
        trace := trace + [Bind(program, BindUniforms())];
        isProgramChanged := false;
      }
    }

    /**
      render: clears, then draws only when updateTextures uploaded a pending
      frame and useProgram has a program. Each draw thus shows a frame that was
      not drawn before, and it comes right after that frame's upload and the
      program's (re)link and binding.
    */
    method Render(d: Driver)
      requires Valid()
      modifies this
      ensures Valid()
      ensures var uploaded := old(isDirty) && (old(NoTextures()) ==> d.texY != 0 && d.texU != 0 && d.texV != 0);
              var linked := old(program) != 0 || d.program != 0;
              draws == old(draws) + (if uploaded && linked then 1 else 0) &&
              isDirty == (old(isDirty) && !uploaded) &&
              (uploaded ==> program == (if old(program) != 0 then old(program) else d.program) &&
                            isProgramChanged == (old(isProgramChanged) && !linked) && store != null) &&
              (!uploaded ==> program == old(program) && isProgramChanged == old(isProgramChanged)) &&
              texSizeLoc == (if uploaded && old(program) == 0 && d.program != 0 then d.texSizeLoc else old(texSizeLoc)) &&
              trace == RenderTrace(old(trace), old(NoTextures()), uploaded, old(program), old(isProgramChanged),
                                   frameWidth, frameHeight, texY, texU, texV, StoreContents(), program, BindUniforms(), d)
      ensures old(NoTextures()) ==> texY == d.texY && texU == (if d.texY != 0 then d.texU else 0)
                                    && texV == (if d.texY != 0 && d.texU != 0 then d.texV else 0)
      ensures !old(NoTextures()) ==> texY == old(texY) && texU == old(texU) && texV == old(texV)
      ensures frameWidth == old(frameWidth) && frameHeight == old(frameHeight)
      ensures surfaceWidth == old(surfaceWidth) && surfaceHeight == old(surfaceHeight)
      ensures params == old(params) && rotation == old(rotation) && mirror == old(mirror)
      ensures store == old(store) && framesIngested == old(framesIngested)
    {
      trace := trace + [Clear];
      var uploaded := UpdateTextures(d);
      if uploaded {
        var id := UseProgram(d);
        if id != 0 {
          trace := trace + [DrawQuad(program)];
          draws := draws + 1;
        }
      }
    }
  }
}
