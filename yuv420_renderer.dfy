/**
  VideoRendererYUV420: the earlier OpenGL ES renderer revision. It packs and
  uploads frames like GLVideoRendererYUV420, but binds its program under the
  isOrientationChanged flag, which only the constructor ever raises, and
  scales the quad by comparing the frame's and the backing surface's aspect.
*/
module YuvRenderer {
  import opened Wrappers
  import opened FrameCopy
  import opened GlTrace
  import opened CommonUtils

  /**
    useProgram's scale factors for a w x h frame on a bw x bh surface: when the
    frame is relatively taller (h/w > bh/bw) the y factor becomes bh/h,
    otherwise the x factor becomes bw/w; the other one stays 1. In floats a
    zero frame width makes h/w infinite (or NaN for h == 0), and a zero
    surface width makes bh/bw infinite or NaN, which compares false. The
    results that stay finite are modelled; None stands for an infinite or
    NaN factor, which arises exactly for a zero frame width with a zero
    frame height or a zero surface width.
  */
  function ScaleChoice(w: nat, h: nat, bw: nat, bh: nat): (r: Option<Scale>)
    ensures r.None? <==> w == 0 && (h == 0 || bw == 0)
  {
    if w == 0 then
      // h/w is +infinity, above every finite surface aspect
      if h == 0 || bw == 0 then None else Some(Scale(1.0, bh as real / h as real))
    else if bw == 0 then
      // bh/bw is +infinity or NaN, so the comparison fails and x becomes 0/w
      Some(Scale(0.0, 1.0))
    else
      var aspectRatio := bh as real / bw as real;
      var targetAspectRatio := h as real / w as real;
      if targetAspectRatio > aspectRatio then
        Some(Scale(1.0, bh as real / h as real))
      else Some(Scale(bw as real / w as real, 1.0))
  }

  /** For positive a, b, c, d: a/b > c/d exactly when a*d > c*b. */
  lemma {:induction false} RatioCompare(a: real, b: real, c: real, d: real)
    requires b > 0.0 && d > 0.0
    ensures a / b > c / d <==> a * d > c * b
  {
    assert a / b - c / d == (a * d - c * b) / (b * d);
  }

  /**
    Wherever the factors are finite exactly one axis is scaled, chosen by
    comparing h*bw with bh*w, and the scaled axis is stretched to the
    surface: y*h == bh or x*w == bw. Both factors are non-negative; x is 0
    exactly for a zero surface width, y exactly for a zero surface height
    under a frame of positive height on a surface of positive width.
  */
  lemma {:induction false} ScaleChoiceOneAxis(w: nat, h: nat, bw: nat, bh: nat)
    requires w > 0 || (h > 0 && bw > 0)
    ensures var r := ScaleChoice(w, h, bw, bh);
            r.Some? && (r.value.x == 1.0 || r.value.y == 1.0) && r.value.x >= 0.0 && r.value.y >= 0.0 &&
            (r.value.x == 0.0 <==> bw == 0) &&
            (r.value.y == 0.0 <==> bh == 0 && h > 0 && bw > 0) &&
            (h * bw > bh * w ==> r.value.x == 1.0 && r.value.y * h as real == bh as real) &&
            (h * bw <= bh * w ==> r.value.y == 1.0 && r.value.x * w as real == bw as real)
  {
    if w > 0 && bw > 0 {
      RatioCompare(h as real, w as real, bh as real, bw as real);
      assert (h * bw) as real == h as real * bw as real;
      assert (bh * w) as real == bh as real * w as real;
    }
  }

  class VideoRendererYUV420 {
    /** m_width, m_height: the frame dimensions. */
    var width: nat
    var height: nat
    /** m_backingWidth, m_backingHeight: the surface size from init. */
    var backingWidth: nat
    var backingHeight: nat
    var rotation: int
    var length: nat
    var store: array?<Byte>
    var texY: nat
    var texU: nat
    var texV: nat
    var program: nat
    var isDirty: bool
    /** Raised only by VideoRendererYUV420Filter; nothing in this class reads it. */
    var isProgramChanged: bool
    var isOrientationChanged: bool
    ghost var trace: seq<GlEvent>
    ghost var framesIngested: nat
    /** Number of DrawQuad events render has added. */
    ghost var draws: nat
    /** Number of Bind events useProgram has added. */
    ghost var binds: nat

    /**
      The store matches the frame, a pending frame has a store, each draw used
      up a frame, and the program is bound at most once in the renderer's
      life: a bind uses up the one raised isOrientationChanged.
    */
    ghost predicate Valid()
      reads this
    {
      (store != null ==> store.Length == StoreSize(width, height)) &&
      (isDirty ==> store != null) &&
      draws + (if isDirty then 1 else 0) <= framesIngested &&
      binds + (if isOrientationChanged then 1 else 0) <= 1
    }

    /** What the store holds; nothing before the first frame. */
    ghost function StoreContents(): seq<Byte>
      reads this, store
    {
      if store == null then [] else store[..]
    }

    predicate NoTextures()
      reads this
    {
      texY == 0 && texU == 0 && texV == 0
    }

    /**
      The initialiser list zeroes the rotation, the length and the texture
      ids, and the body raises isOrientationChanged. No constructor of this
      revision initialises the frame and surface sizes, isDirty,
      isProgramChanged or m_program: the first five are taken as 0 and false,
      as in a zero-initialised object, and m_program, whose value decides
      whether useProgram links at all, is a parameter.
    */
    constructor (initialProgram: nat)
      ensures Valid()
      ensures width == 0 && height == 0 && backingWidth == 0 && backingHeight == 0
      ensures rotation == 0 && length == 0 && store == null && NoTextures() && program == initialProgram
      ensures !isDirty && !isProgramChanged && isOrientationChanged
      ensures trace == [] && framesIngested == 0 && draws == 0 && binds == 0
    {
      width, height, backingWidth, backingHeight := 0, 0, 0, 0;
      rotation, length := 0, 0;
      store := null;
      texY, texU, texV := 0, 0, 0;
      program := initialProgram;
      isDirty, isProgramChanged, isOrientationChanged := false, false, true;
      trace, framesIngested, draws, binds := [], 0, 0, 0;
    }

    /** init: records the backing surface size. */
    method Init(w: nat, h: nat)
      requires Valid()
      modifies this
      ensures Valid()
      ensures backingWidth == w && backingHeight == h
      ensures width == old(width) && height == old(height) && rotation == old(rotation) && length == old(length)
      ensures store == old(store) && texY == old(texY) && texU == old(texU) && texV == old(texV) && program == old(program)
      ensures isDirty == old(isDirty) && isProgramChanged == old(isProgramChanged)
      ensures isOrientationChanged == old(isOrientationChanged)
      ensures trace == old(trace) && framesIngested == old(framesIngested) && draws == old(draws) && binds == old(binds)
    {
      backingWidth, backingHeight := w, h;
    }

    /**
      The first half of updateFrame: a new zeroed store when there is none or
      the dimensions changed, with no flag raised; the dimensions recorded.
    */
    method Reserve(w: nat, h: nat) returns (ghost s0: seq<Byte>)
      requires Valid()
      modifies this
      ensures Valid()
      ensures var realloc := old(store) == null || old(width) != w || old(height) != h;
              store != null && store.Length == StoreSize(w, h) &&
              (realloc ==> fresh(store) && s0 == Zeros(StoreSize(w, h))) &&
              (!realloc ==> store == old(store) && s0 == old(store[..]))
      ensures store[..] == s0
      ensures width == w && height == h
      ensures backingWidth == old(backingWidth) && backingHeight == old(backingHeight)
      ensures rotation == old(rotation) && length == old(length)
      ensures texY == old(texY) && texU == old(texU) && texV == old(texV) && program == old(program)
      ensures isDirty == old(isDirty) && isProgramChanged == old(isProgramChanged)
      ensures isOrientationChanged == old(isOrientationChanged)
      ensures trace == old(trace) && framesIngested == old(framesIngested) && draws == old(draws) && binds == old(binds)
    {
      if store == null || width != w || height != h {
        store := new Byte[StoreSize(w, h)](_ => 0);
        s0 := Zeros(store.Length);
      } else {
        s0 := store[..];
      }
      width, height := w, h;
    }

    /** updateFrame: reallocation as Reserve says, the planes packed, the frame marked pending. */
    method UpdateFrame(f: Frame)
      requires Valid() && SourceInBounds(f)
      modifies this, store
      ensures Valid()
      ensures var realloc := old(store) == null || old(width) != f.width || old(height) != f.height;
              store != null && (realloc ==> fresh(store)) && (!realloc ==> store == old(store)) &&
              store.Length == StoreSize(f.width, f.height) &&
              store[..] == PackFrame(if realloc then Zeros(StoreSize(f.width, f.height)) else old(store[..]), f)
      ensures width == f.width && height == f.height && isDirty
      ensures backingWidth == old(backingWidth) && backingHeight == old(backingHeight)
      ensures rotation == old(rotation) && length == old(length)
      ensures texY == old(texY) && texU == old(texU) && texV == old(texV) && program == old(program)
      ensures isProgramChanged == old(isProgramChanged) && isOrientationChanged == old(isOrientationChanged)
      ensures trace == old(trace) && framesIngested == old(framesIngested) + 1 && draws == old(draws) && binds == old(binds)
    {
      ghost var s0 := Reserve(f.width, f.height);
      CopyPlanes(store, f);
      isDirty := true;
      framesIngested := framesIngested + 1;
    }

    /**
      draw: records length and rotation, then ingests the buffer with strides
      (w, w/2) and U, V at w*h and w*h*5/4; the store ends up holding the
      buffer's leading bytes verbatim. The recorded length is never read.
    */
    method Draw(buffer: seq<Byte>, length: nat, w: nat, h: nat, rotation: int)
      requires Valid() && |buffer| >= StoreSize(w, h)
      modifies this, store
      ensures Valid()
      ensures store != null && store[..] == buffer[..StoreSize(w, h)]
      ensures var realloc := old(store) == null || old(width) != w || old(height) != h;
              (realloc ==> fresh(store)) && (!realloc ==> store == old(store))
      ensures width == w && height == h && isDirty
      ensures this.length == length && this.rotation == rotation
      ensures backingWidth == old(backingWidth) && backingHeight == old(backingHeight)
      ensures texY == old(texY) && texU == old(texU) && texV == old(texV) && program == old(program)
      ensures isProgramChanged == old(isProgramChanged) && isOrientationChanged == old(isOrientationChanged)
      ensures trace == old(trace) && framesIngested == old(framesIngested) + 1 && draws == old(draws) && binds == old(binds)
    {
      this.length := length;
      this.rotation := rotation;
      DrawFrameInBounds(buffer, w, h);
      ghost var s0 := Reserve(w, h);
      DrawPacksVerbatim(s0, buffer, w, h);
      CopyPlanes(store, DrawFrame(buffer, w, h));
      isDirty := true;
      framesIngested := framesIngested + 1;
    }

    /** createTextures: Y, then U, then V, giving up at the first id 0. */
    method CreateTextures(d: Driver) returns (ok: bool)
      requires Valid()
      modifies this
      ensures Valid()
      ensures ok <==> d.texY != 0 && d.texU != 0 && d.texV != 0
      ensures texY == d.texY
      ensures texU == if d.texY != 0 then d.texU else old(texU)
      ensures texV == if d.texY != 0 && d.texU != 0 then d.texV else old(texV)
      ensures trace == old(trace) + GenEvents(width, height, d)
      ensures width == old(width) && height == old(height)
      ensures backingWidth == old(backingWidth) && backingHeight == old(backingHeight)
      ensures rotation == old(rotation) && length == old(length) && store == old(store) && program == old(program)
      ensures isDirty == old(isDirty) && isProgramChanged == old(isProgramChanged)
      ensures isOrientationChanged == old(isOrientationChanged)
      ensures framesIngested == old(framesIngested) && draws == old(draws) && binds == old(binds)
    {
      trace := trace + GenEvents(width, height, d);
      texY := d.texY;
      if texY == 0 {
        return false;
      }
      texU := d.texU;
      if texU == 0 {
        return false;
      }
      texV := d.texV;
      return texV != 0;
    }

    /**
      updateTextures: creates the textures only when all three ids are 0, and
      uploads only a pending frame, clearing the flag; true exactly when it
      uploaded.
    */
    method UpdateTextures(d: Driver) returns (ok: bool)
      requires Valid()
      modifies this
      ensures Valid()
      ensures ok <==> old(isDirty) && (old(NoTextures()) ==> d.texY != 0 && d.texU != 0 && d.texV != 0)
      ensures isDirty == (old(isDirty) && !ok)
      ensures ok ==> store != null
      ensures old(NoTextures()) ==> texY == d.texY && texU == (if d.texY != 0 then d.texU else 0)
                                    && texV == (if d.texY != 0 && d.texU != 0 then d.texV else 0)
      ensures !old(NoTextures()) ==> texY == old(texY) && texU == old(texU) && texV == old(texV)
      ensures trace == old(trace) + (if old(NoTextures()) then GenEvents(width, height, d) else [])
                      + (if ok then UploadEvents(texY, texU, texV, width, height, store[..]) else [])
      ensures width == old(width) && height == old(height)
      ensures backingWidth == old(backingWidth) && backingHeight == old(backingHeight)
      ensures rotation == old(rotation) && length == old(length) && store == old(store) && program == old(program)
      ensures isProgramChanged == old(isProgramChanged) && isOrientationChanged == old(isOrientationChanged)
      ensures framesIngested == old(framesIngested) && draws == old(draws) && binds == old(binds)
    {
      var ready := true;
      if NoTextures() {
        ready := CreateTextures(d);
      }
      ok := false;
      if ready && isDirty {
        trace := trace + UploadEvents(texY, texU, texV, width, height, store[..]);
        isDirty := false;
        ok := true;
      }
    }

    /**
      createProgram: m_program becomes whatever create_program returned for
      the base shaders; a failure is only logged.
    */
    method CreateProgram(d: Driver) returns (id: nat)
      requires Valid()
      modifies this
      ensures Valid()
      ensures id == d.program && program == d.program
      ensures trace == old(trace) + [LinkProgram(VertexShader, FragmentShader(0), d.program)]
      ensures width == old(width) && height == old(height)
      ensures backingWidth == old(backingWidth) && backingHeight == old(backingHeight)
      ensures rotation == old(rotation) && length == old(length) && store == old(store)
      ensures texY == old(texY) && texU == old(texU) && texV == old(texV)
      ensures isDirty == old(isDirty) && isProgramChanged == old(isProgramChanged)
      ensures isOrientationChanged == old(isOrientationChanged)
      ensures framesIngested == old(framesIngested) && draws == old(draws) && binds == old(binds)
    {
      program := d.program;
      trace := trace + [LinkProgram(VertexShader, FragmentShader(0), program)];
      id := program;
    }

    /** The uniforms useProgram sets: the rotation in degrees and the scale choice. */
    function BindUniforms(): Uniforms
      reads this
    {
      AspectScale(rotation, ScaleChoice(width, height, backingWidth, backingHeight))
    }

    /**
      useProgram: creates the program only when there is none; binds only while
      isOrientationChanged is set, then clears it for good. Returns the
      program, or 0 when it could not be created.
    */
    method UseProgram(d: Driver) returns (id: nat)
      requires Valid()
      modifies this
      ensures Valid()
      ensures var linked := old(program) != 0 || d.program != 0;
              (linked ==> id == program && id != 0) && (!linked ==> id == 0) &&
              isOrientationChanged == (old(isOrientationChanged) && !linked) &&
              binds == old(binds) + (if linked && old(isOrientationChanged) then 1 else 0)
      ensures program == if old(program) != 0 then old(program) else d.program
      ensures trace == old(trace)
                      + (if old(program) == 0 then [LinkProgram(VertexShader, FragmentShader(0), d.program)] else [])
                      + (if program != 0 && old(isOrientationChanged) then [Bind(program, BindUniforms())] else [])
      ensures width == old(width) && height == old(height)
      ensures backingWidth == old(backingWidth) && backingHeight == old(backingHeight)
      ensures rotation == old(rotation) && length == old(length) && store == old(store)
      ensures texY == old(texY) && texU == old(texU) && texV == old(texV)
      ensures isDirty == old(isDirty) && isProgramChanged == old(isProgramChanged)
      ensures framesIngested == old(framesIngested) && draws == old(draws)
    {
      id := program;
      if id == 0 {
        id := CreateProgram(d);
      }
      if id != 0 && isOrientationChanged {
        trace := trace + [Bind(program, BindUniforms())];
        isOrientationChanged := false;
        binds := binds + 1;
      }
    }

    /** render: clears, then draws only after an upload of a pending frame and with a program. */
    method Render(d: Driver)
      requires Valid()
      modifies this
      ensures Valid()
      ensures var uploaded := old(isDirty) && (old(NoTextures()) ==> d.texY != 0 && d.texU != 0 && d.texV != 0);
              var linked := old(program) != 0 || d.program != 0;
              draws == old(draws) + (if uploaded && linked then 1 else 0) &&
              binds == old(binds) + (if uploaded && linked && old(isOrientationChanged) then 1 else 0) &&
              isDirty == (old(isDirty) && !uploaded) &&
              (uploaded ==> program == (if old(program) != 0 then old(program) else d.program) &&
                            isOrientationChanged == (old(isOrientationChanged) && !linked) && store != null) &&
              (!uploaded ==> program == old(program) && isOrientationChanged == old(isOrientationChanged)) &&
              trace == RenderTrace(old(trace), old(NoTextures()), uploaded, old(program), old(isOrientationChanged),
                                   width, height, texY, texU, texV, StoreContents(), program, BindUniforms(), d)
      ensures old(NoTextures()) ==> texY == d.texY && texU == (if d.texY != 0 then d.texU else 0)
                                    && texV == (if d.texY != 0 && d.texU != 0 then d.texV else 0)
      ensures !old(NoTextures()) ==> texY == old(texY) && texU == old(texU) && texV == old(texV)
      ensures width == old(width) && height == old(height)
      ensures backingWidth == old(backingWidth) && backingHeight == old(backingHeight)
      ensures rotation == old(rotation) && length == old(length) && store == old(store)
      ensures isProgramChanged == old(isProgramChanged) && framesIngested == old(framesIngested)
    {
      trace := trace + [Clear];
      var uploaded := UpdateTextures(d);
      if uploaded {
        var id := UseProgram(d);
        if id != 0 {
          trace := trace + [DrawQuad(program)];
          draws := draws + 1;
        }
      }
    }
  }
}
