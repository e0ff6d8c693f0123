/**
  VideoRenderYUV420: the oldest OpenGL ES renderer revision. It packs frames
  like the other two, but its updateTextures never fails, so render draws on
  every call once a program exists, whether or not a new frame arrived; the
  program is bound once, with a fixed 90 degree rotation.
*/
module YuvRender {
  import opened FrameCopy
  import opened GlTrace

  class VideoRenderYUV420 {
    var width: nat
    var height: nat
    var length: nat
    var store: array?<Byte>
    var texY: nat
    var texU: nat
    var texV: nat
    var program: nat
    var isDataChanged: bool
    var isOrientationChanged: bool
    ghost var trace: seq<GlEvent>
    ghost var framesIngested: nat
    /** Number of frames updateTextures has uploaded. */
    ghost var uploads: nat
    /** Number of DrawQuad events render has added. */
    ghost var draws: nat
    /** Number of Bind events useProgram has added. */
    ghost var binds: nat

    /**
      The store matches the frame, a pending frame has a store, each upload
      used up a frame of its own, and the program is bound at most once.
    */
    ghost predicate Valid()
      reads this
    {
      (store != null ==> store.Length == StoreSize(width, height)) &&
      (isDataChanged ==> store != null) &&
      uploads + (if isDataChanged then 1 else 0) <= framesIngested &&
      binds + (if isOrientationChanged then 1 else 0) <= 1
    }

    predicate NoTextures()
      reads this
    {
      texY == 0 && texU == 0 && texV == 0
    }

    /** VideoRender's defaults (program 0, dimensions 0, no pending frame), then isOrientationChanged raised. */
    constructor ()
      ensures Valid()
      ensures width == 0 && height == 0 && length == 0 && store == null && NoTextures() && program == 0
      ensures !isDataChanged && isOrientationChanged
      ensures trace == [] && framesIngested == 0 && uploads == 0 && draws == 0 && binds == 0
    {
      width, height, length := 0, 0, 0;
      store := null;
      texY, texU, texV := 0, 0, 0;
      program := 0;
      isDataChanged, isOrientationChanged := false, true;
      trace, framesIngested, uploads, draws, binds := [], 0, 0, 0, 0;
    }

    /**
      The first half of updateFrame: a new zeroed store when there is none or
      the dimensions changed; the dimensions recorded.
    */
    method Reserve(w: nat, h: nat) returns (ghost s0: seq<Byte>)
      requires Valid()
      modifies this
      ensures Valid()
      ensures var realloc := old(store) == null || old(width) != w || old(height) != h;
              store != null && store.Length == StoreSize(w, h) &&
              (realloc ==> fresh(store) && s0 == Zeros(StoreSize(w, h))) &&
              (!realloc ==> store == old(store) && s0 == old(store[..]))
      ensures store[..] == s0
      ensures width == w && height == h && length == old(length)
      ensures texY == old(texY) && texU == old(texU) && texV == old(texV) && program == old(program)
      ensures isDataChanged == old(isDataChanged) && isOrientationChanged == old(isOrientationChanged)
      ensures trace == old(trace) && framesIngested == old(framesIngested) && uploads == old(uploads)
      ensures draws == old(draws) && binds == old(binds)
    {
      if store == null || width != w || height != h {
        store := new Byte[StoreSize(w, h)](_ => 0);
        s0 := Zeros(store.Length);
      } else {
        s0 := store[..];
      }
      width, height := w, h;
    }

    /** updateFrame: reallocation as Reserve says, the planes packed, isDataChanged raised. */
    method UpdateFrame(f: Frame)
      requires Valid() && SourceInBounds(f)
      modifies this, store
      ensures Valid()
      ensures var realloc := old(store) == null || old(width) != f.width || old(height) != f.height;
              store != null && (realloc ==> fresh(store)) && (!realloc ==> store == old(store)) &&
              store.Length == StoreSize(f.width, f.height) &&
              store[..] == PackFrame(if realloc then Zeros(StoreSize(f.width, f.height)) else old(store[..]), f)
      ensures width == f.width && height == f.height && isDataChanged && length == old(length)
      ensures texY == old(texY) && texU == old(texU) && texV == old(texV) && program == old(program)
      ensures isOrientationChanged == old(isOrientationChanged)
      ensures trace == old(trace) && framesIngested == old(framesIngested) + 1 && uploads == old(uploads)
      ensures draws == old(draws) && binds == old(binds)
    {
      ghost var s0 := Reserve(f.width, f.height);
      CopyPlanes(store, f);
      isDataChanged := true;
      framesIngested := framesIngested + 1;
    }

    /**
      draw: records length, then ingests the buffer with strides (w, w/2) and
      U, V at w*h and w*h*5/4, so the store holds the buffer's leading bytes.
    */
    method Draw(buffer: seq<Byte>, length: nat, w: nat, h: nat)
      requires Valid() && |buffer| >= StoreSize(w, h)
      modifies this, store
      ensures Valid()
      ensures store != null && store[..] == buffer[..StoreSize(w, h)]
      ensures var realloc := old(store) == null || old(width) != w || old(height) != h;
              (realloc ==> fresh(store)) && (!realloc ==> store == old(store))
      ensures width == w && height == h && isDataChanged && this.length == length
      ensures texY == old(texY) && texU == old(texU) && texV == old(texV) && program == old(program)
      ensures isOrientationChanged == old(isOrientationChanged)
      ensures trace == old(trace) && framesIngested == old(framesIngested) + 1 && uploads == old(uploads)
      ensures draws == old(draws) && binds == old(binds)
    {
      this.length := length;
      DrawFrameInBounds(buffer, w, h);
      ghost var s0 := Reserve(w, h);
      DrawPacksVerbatim(s0, buffer, w, h);
      CopyPlanes(store, DrawFrame(buffer, w, h));
      isDataChanged := true;
      framesIngested := framesIngested + 1;
    }

    /** createTextures: all three textures generated, whatever ids come back; always true. */
    method CreateTextures(d: Driver) returns (ok: bool)
      requires Valid()
      modifies this
      ensures Valid()
      ensures ok
      ensures texY == d.texY && texU == d.texU && texV == d.texV
      ensures trace == old(trace) + GenAllEvents(width, height, d)
      ensures width == old(width) && height == old(height) && length == old(length)
      ensures store == old(store) && program == old(program)
      ensures isDataChanged == old(isDataChanged) && isOrientationChanged == old(isOrientationChanged)
      ensures framesIngested == old(framesIngested) && uploads == old(uploads)
      ensures draws == old(draws) && binds == old(binds)
    {
      trace := trace + GenAllEvents(width, height, d);
      texY, texU, texV := d.texY, d.texU, d.texV;
      ok := true;
    }

    /**
      updateTextures: creates the textures whenever the Y id is 0, uploads only
      a pending frame, and in every case clears the flag and succeeds.
    */
    method UpdateTextures(d: Driver) returns (ok: bool)
      requires Valid()
      modifies this
      ensures Valid()
      ensures ok && !isDataChanged
      ensures uploads == old(uploads) + (if old(isDataChanged) then 1 else 0)
      ensures old(texY) == 0 ==> texY == d.texY && texU == d.texU && texV == d.texV
      ensures old(texY) != 0 ==> texY == old(texY) && texU == old(texU) && texV == old(texV)
      ensures old(isDataChanged) ==> store != null
      ensures trace == old(trace) + (if old(texY) == 0 then GenAllEvents(width, height, d) else [])
                      + (if old(isDataChanged) then UploadEvents(texY, texU, texV, width, height, store[..]) else [])
      ensures width == old(width) && height == old(height) && length == old(length)
      ensures store == old(store) && program == old(program)
      ensures isOrientationChanged == old(isOrientationChanged)
      ensures framesIngested == old(framesIngested) && draws == old(draws) && binds == old(binds)
    {
      ok := true;
      if texY == 0 {
        ok := CreateTextures(d);
      }
      if isDataChanged {
        trace := trace + UploadEvents(texY, texU, texV, width, height, store[..]);
        uploads := uploads + 1;
      }
      isDataChanged := false;
    }

    /** deleteTextures: every id that is not 0 is deleted and set to 0. */
    method DeleteTextures()
      requires Valid()
      modifies this
      ensures Valid()
      ensures NoTextures()
      ensures trace == old(trace) + DeleteEvents(old(texY), old(texU), old(texV))
      ensures old(NoTextures()) ==> trace == old(trace)
      ensures width == old(width) && height == old(height) && length == old(length)
      ensures store == old(store) && program == old(program)
      ensures isDataChanged == old(isDataChanged) && isOrientationChanged == old(isOrientationChanged)
      ensures framesIngested == old(framesIngested) && uploads == old(uploads)
      ensures draws == old(draws) && binds == old(binds)
    {
      trace := trace + DeleteEvents(texY, texU, texV);
      if texY != 0 {
        texY := 0;
      }
      if texU != 0 {
        texU := 0;
      }
      if texV != 0 {
        texV := 0;
      }
    }

    /** createProgram: m_program becomes whatever create_program returned; a failure is only logged. */
    method CreateProgram(d: Driver) returns (id: nat)
      requires Valid()
      modifies this
      ensures Valid()
      ensures id == d.program && program == d.program
      ensures trace == old(trace) + [LinkProgram(VertexShader, FragmentShader(0), d.program)]
      ensures width == old(width) && height == old(height) && length == old(length)
      ensures store == old(store) && texY == old(texY) && texU == old(texU) && texV == old(texV)
      ensures isDataChanged == old(isDataChanged) && isOrientationChanged == old(isOrientationChanged)
      ensures framesIngested == old(framesIngested) && uploads == old(uploads)
      ensures draws == old(draws) && binds == old(binds)
    {
      program := d.program;
      trace := trace + [LinkProgram(VertexShader, FragmentShader(0), program)];
      id := program;
    }

    /**
      useProgram: creates the program only when there is none; binds only while
      isOrientationChanged is set, always with the model-view rotation for 90
      degrees, then clears the flag for good.
    */
    method UseProgram(d: Driver) returns (id: nat)
      requires Valid()
      modifies this
      ensures Valid()
      ensures var linked := old(program) != 0 || d.program != 0;
              (linked ==> id == program && id != 0) && (!linked ==> id == 0) &&
              isOrientationChanged == (old(isOrientationChanged) && !linked) &&
              binds == old(binds) + (if linked && old(isOrientationChanged) then 1 else 0)
      ensures program == if old(program) != 0 then old(program) else d.program
      ensures trace == old(trace)
                      + (if old(program) == 0 then [LinkProgram(VertexShader, FragmentShader(0), d.program)] else [])
                      + (if program != 0 && old(isOrientationChanged) then [Bind(program, FixedRotation(90))] else [])
      ensures width == old(width) && height == old(height) && length == old(length)
      ensures store == old(store) && texY == old(texY) && texU == old(texU) && texV == old(texV)
      ensures isDataChanged == old(isDataChanged)
      ensures framesIngested == old(framesIngested) && uploads == old(uploads) && draws == old(draws)
    {
      id := program;
      if id == 0 {
        id := CreateProgram(d);
      }
      if id != 0 && isOrientationChanged {
        trace := trace + [Bind(program, FixedRotation(90))];
        isOrientationChanged := false;
        binds := binds + 1;
      }
    }

    /**
      render: clears, uploads a pending frame if there is one, and draws
      whenever a program exists: a draw needs no new frame.
    */
    method Render(d: Driver)
      requires Valid()
      modifies this
      ensures Valid()
      ensures var linked := old(program) != 0 || d.program != 0;
              draws == old(draws) + (if linked then 1 else 0) &&
              uploads == old(uploads) + (if old(isDataChanged) then 1 else 0) &&
              !isDataChanged && (old(isDataChanged) ==> store != null) &&
              program == (if old(program) != 0 then old(program) else d.program) &&
              isOrientationChanged == (old(isOrientationChanged) && !linked) &&
              trace == old(trace) + [Clear]
                       + (if old(texY) == 0 then GenAllEvents(width, height, d) else [])
                       + (if old(isDataChanged) then UploadEvents(texY, texU, texV, width, height, store[..]) else [])
                       + (if old(program) == 0 then [LinkProgram(VertexShader, FragmentShader(0), d.program)] else [])
                       + (if linked && old(isOrientationChanged) then [Bind(program, FixedRotation(90))] else [])
                       + (if linked then [DrawQuad(program)] else [])
      ensures old(texY) == 0 ==> texY == d.texY && texU == d.texU && texV == d.texV
      ensures old(texY) != 0 ==> texY == old(texY) && texU == old(texU) && texV == old(texV)
      ensures width == old(width) && height == old(height) && length == old(length)
      ensures store == old(store) && framesIngested == old(framesIngested)
    {
      trace := trace + [Clear];
      var updated := UpdateTextures(d);
      var id := UseProgram(d);
      if id != 0 {
        trace := trace + [DrawQuad(program)];
        draws := draws + 1;
      }
    }
  }
}
