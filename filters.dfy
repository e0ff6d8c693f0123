/**
  The filter renderers: each wraps a renderer revision, keeps a bank of
  fragment shaders and an index into it, and on render rebuilds the program
  from the newly chosen shader before rendering as the wrapped renderer does.
*/
module Filters {
  import opened GlTrace
  import GLRenderer
  import YuvRenderer

  /** The largest size_t value plus one: size_t is 64 bits wide on the targets built for. */
  const SizeTModulus: int := 0x1_0000_0000_0000_0000

  /** The int to size_t conversion: a negative int wraps around to 2^64 plus its value. */
  function SizeT(i: int): (r: nat)
    requires -0x8000_0000 <= i < 0x8000_0000
    ensures r < SizeTModulus
    ensures i >= 0 ==> r == i
    ensures i < 0 ==> r >= SizeTModulus - 0x8000_0000
  {
    if i >= 0 then i else SizeTModulus + i
  }

  /** The constructor's bank: fragment shaders 0 through 12, in order; 0 is the base YUV to RGB shader. */
  function FilterBank(): (bank: seq<Shader>)
    ensures |bank| == 13
    ensures forall k :: 0 <= k < |bank| ==> bank[k] == FragmentShader(k)
  {
    [FragmentShader(0), FragmentShader(1), FragmentShader(2), FragmentShader(3), FragmentShader(4),
     FragmentShader(5), FragmentShader(6), FragmentShader(7), FragmentShader(8), FragmentShader(9),
     FragmentShader(10), FragmentShader(11), FragmentShader(12)]
  }

  /**
    A converted index selects a shader of the bank exactly when the int was
    between 0 and 12: a negative one wraps far beyond the bank.
  */
  lemma {:induction false} SizeTInBank(i: int)
    requires -0x8000_0000 <= i < 0x8000_0000
    ensures SizeT(i) < |FilterBank()| <==> 0 <= i < 13
  {
    if i < 0 {
      assert SizeT(i) >= SizeTModulus - 0x8000_0000;
    }
  }

  /**
    The rebuilds of successive render calls that find m_filter equal to
    filters[0], filters[1], ... when m_prevFilter starts at prev: a call
    rebuilds when its index differs from the previous one and lies in a bank
    of n shaders, and in every case makes it the previous one.
  */
  function RebuildsOver(filters: seq<nat>, prev: nat, n: nat): nat
    decreases |filters|
  {
    if filters == [] then 0
    else (if filters[0] != prev && filters[0] < n then 1 else 0) + RebuildsOver(filters[1..], filters[0], n)
  }

  /** Once an index has been seen, rendering with it again never rebuilds. */
  lemma {:induction false} SeenFilterNeverRebuilds(f: nat, k: nat, n: nat)
    ensures RebuildsOver(seq(k, _ => f), f, n) == 0
    decreases k
  {
    if k > 0 {
      assert seq(k, _ => f)[1..] == seq(k - 1, _ => f);
      SeenFilterNeverRebuilds(f, k - 1, n);
    }
  }

  /**
    Any number of renders with one index rebuild once if the index is new and
    inside the bank, and never otherwise: an out-of-range index is absorbed
    by the first render and not retried.
  */
  lemma {:induction false} SteadyFilterRebuildsAtMostOnce(f: nat, prev: nat, k: nat, n: nat)
    requires k > 0
    ensures RebuildsOver(seq(k, _ => f), prev, n) == if f != prev && f < n then 1 else 0
  {
    assert seq(k, _ => f)[1..] == seq(k - 1, _ => f);
    SeenFilterNeverRebuilds(f, k - 1, n);
  }

  /** The events delete_program adds: the program is deleted only when there is one. */
  function DeleteProgramEvents(program: nat): (r: seq<GlEvent>)
    ensures |r| <= 1 && (r == [] <==> program == 0)
  {
    if program != 0 then [DeleteProgram(program)] else []
  }

  /** The events of a rebuild: delete_program on the current program, then the link of the chosen shader. */
  function RebuildEvents(program: nat, fragment: Shader, d: Driver): (r: seq<GlEvent>)
    ensures 1 <= |r| <= 2 && r[|r| - 1] == LinkProgram(VertexShader, fragment, d.program)
  {
    DeleteProgramEvents(program) + [LinkProgram(VertexShader, fragment, d.program)]
  }

  class GLVideoRendererYUV420Filter {
    /** The GLVideoRendererYUV420 part of the object. */
    const base: GLRenderer.GLVideoRendererYUV420
    var filter: nat
    var prevFilter: nat
    const bank: seq<Shader>
    /** Number of program rebuilds render has made. */
    ghost var rebuilds: nat

    ghost predicate Valid()
      reads this, base
    {
      base.Valid() && bank == FilterBank() && filter < SizeTModulus && prevFilter < SizeTModulus
    }

    /** The base renderer's constructor, then the thirteen shaders pushed in order; both indices 0. */
    constructor ()
      ensures Valid() && fresh(base)
      ensures filter == 0 && prevFilter == 0 && rebuilds == 0
      ensures base.program == 0 && base.isProgramChanged && base.trace == []
    {
      base := new GLRenderer.GLVideoRendererYUV420();
      filter, prevFilter := 0, 0;
      bank := FilterBank();
      rebuilds := 0;
    }

    /** applyFilter: only records the converted index; the rebuild waits for render. */
    method ApplyFilter(f: int)
      requires Valid() && -0x8000_0000 <= f < 0x8000_0000
      modifies this
      ensures Valid()
      ensures filter == SizeT(f)
      ensures prevFilter == old(prevFilter) && rebuilds == old(rebuilds)
    {
      filter := SizeT(f);
    }

    /** getMaxFilter: the number of shaders in the bank. */
    method GetMaxFilter() returns (n: int)
      requires Valid()
      ensures n == |bank| == 13
    {
      n := |bank|;
    }

    /**
      The check at the head of render: on a changed index prevFilter catches
      up, and only for an index inside the bank the program is deleted and
      relinked from the vertex shader and the chosen fragment shader, with
      isProgramChanged raised so the next useProgram rebinds it.
    */
    method Rebuild(d: Driver)
      requires Valid()
      modifies this, base
      ensures Valid()
      ensures prevFilter == filter && filter == old(filter)
      ensures var rebuild := old(filter) != old(prevFilter) && old(filter) < |bank|;
              rebuilds == old(rebuilds) + (if rebuild then 1 else 0) &&
              base.program == (if rebuild then d.program else old(base.program)) &&
              base.isProgramChanged == (rebuild || old(base.isProgramChanged)) &&
              base.texSizeLoc == (if rebuild && d.program != 0 then d.texSizeLoc else old(base.texSizeLoc)) &&
              base.trace == old(base.trace) + (if rebuild then RebuildEvents(old(base.program), bank[filter], d) else [])
      ensures base.frameWidth == old(base.frameWidth) && base.frameHeight == old(base.frameHeight)
      ensures base.surfaceWidth == old(base.surfaceWidth) && base.surfaceHeight == old(base.surfaceHeight)
      ensures base.params == old(base.params) && base.rotation == old(base.rotation) && base.mirror == old(base.mirror)
      ensures base.store == old(base.store) && base.texY == old(base.texY) && base.texU == old(base.texU)
      ensures base.texV == old(base.texV) && base.isDirty == old(base.isDirty)
      ensures base.framesIngested == old(base.framesIngested) && base.draws == old(base.draws)
    {
      if filter != prevFilter {
        prevFilter := filter;
        if filter < |bank| {
          Relink(d);
        }
      }
    }

    /**
      The rebuild itself: isProgramChanged raised, delete_program on the
      current program (which leaves it 0), then createProgram from the vertex
      shader and the chosen fragment shader.
    */
    method Relink(d: Driver)
      requires Valid() && filter < |bank|
      modifies this, base
      ensures Valid()
      ensures filter == old(filter) && prevFilter == old(prevFilter) && rebuilds == old(rebuilds) + 1
      ensures base.program == d.program && base.isProgramChanged
      ensures base.texSizeLoc == if d.program != 0 then d.texSizeLoc else old(base.texSizeLoc)
      ensures base.trace == old(base.trace) + RebuildEvents(old(base.program), bank[filter], d)
      ensures base.frameWidth == old(base.frameWidth) && base.frameHeight == old(base.frameHeight)
      ensures base.surfaceWidth == old(base.surfaceWidth) && base.surfaceHeight == old(base.surfaceHeight)
      ensures base.params == old(base.params) && base.rotation == old(base.rotation) && base.mirror == old(base.mirror)
      ensures base.store == old(base.store) && base.texY == old(base.texY) && base.texU == old(base.texU)
      ensures base.texV == old(base.texV) && base.isDirty == old(base.isDirty)
      ensures base.framesIngested == old(base.framesIngested) && base.draws == old(base.draws)
    {
      base.isProgramChanged := true;
      base.trace := base.trace + DeleteProgramEvents(base.program);
      base.program := 0;
      var id := base.CreateProgram(VertexShader, bank[filter], d);
      rebuilds := rebuilds + 1;
    }

    /**
      render: the rebuild check, then GLVideoRendererYUV420's render. After a
      rebuild the base render draws with the new program and, given a frame,
      rebinds it; when the relink failed the base render falls back to
      linking base shader 0.
    */
    method Render(d: Driver)
      requires Valid()
      modifies this, base
      ensures Valid()
      ensures prevFilter == filter && filter == old(filter)
      ensures var rebuild := old(filter) != old(prevFilter) && old(filter) < |bank|;
              var program := if rebuild then d.program else old(base.program);
              var changed := rebuild || old(base.isProgramChanged);
              var uploaded := old(base.isDirty) && (old(base.NoTextures()) ==> d.texY != 0 && d.texU != 0 && d.texV != 0);
              var linked := program != 0 || d.program != 0;
              rebuilds == old(rebuilds) + (if rebuild then 1 else 0) &&
              base.draws == old(base.draws) + (if uploaded && linked then 1 else 0) &&
              base.isDirty == (old(base.isDirty) && !uploaded) &&
              (uploaded ==> base.program == (if program != 0 then program else d.program) &&
                            base.isProgramChanged == (changed && !linked) && base.store != null) &&
              (!uploaded ==> base.program == program && base.isProgramChanged == changed) &&
              base.texSizeLoc == (if (rebuild || (uploaded && program == 0)) && d.program != 0 then d.texSizeLoc
                                  else old(base.texSizeLoc)) &&
              base.trace == RenderTrace(old(base.trace) + (if rebuild then RebuildEvents(old(base.program), bank[filter], d) else []),
                                        old(base.NoTextures()), uploaded, program, changed,
                                        base.frameWidth, base.frameHeight, base.texY, base.texU, base.texV,
                                        base.StoreContents(), base.program, base.BindUniforms(), d)
      ensures old(base.NoTextures()) ==> base.texY == d.texY && base.texU == (if d.texY != 0 then d.texU else 0)
                                         && base.texV == (if d.texY != 0 && d.texU != 0 then d.texV else 0)
      ensures !old(base.NoTextures()) ==> base.texY == old(base.texY) && base.texU == old(base.texU) && base.texV == old(base.texV)
      ensures base.frameWidth == old(base.frameWidth) && base.frameHeight == old(base.frameHeight)
      ensures base.surfaceWidth == old(base.surfaceWidth) && base.surfaceHeight == old(base.surfaceHeight)
      ensures base.params == old(base.params) && base.rotation == old(base.rotation) && base.mirror == old(base.mirror)
      ensures base.store == old(base.store) && base.framesIngested == old(base.framesIngested)
    {
      Rebuild(d);
      base.Render(d);
    }
  }

  class VideoRendererYUV420Filter {
    /** The VideoRendererYUV420 part of the object. */
    const base: YuvRenderer.VideoRendererYUV420
    var filter: nat
    var prevFilter: nat
    const bank: seq<Shader>
    /** Number of program rebuilds render has made. */
    ghost var rebuilds: nat

    ghost predicate Valid()
      reads this, base
    {
      base.Valid() && bank == FilterBank() && filter < SizeTModulus && prevFilter < SizeTModulus
    }

    /** The base renderer's constructor, then the thirteen shaders pushed in order; both indices 0. */
    constructor (initialProgram: nat)
      ensures Valid() && fresh(base)
      ensures filter == 0 && prevFilter == 0 && rebuilds == 0
      ensures base.program == initialProgram && base.isOrientationChanged && base.trace == []
    {
      base := new YuvRenderer.VideoRendererYUV420(initialProgram);
      filter, prevFilter := 0, 0;
      bank := FilterBank();
      rebuilds := 0;
    }

    /** applyFilter: only records the converted index. */
    method ApplyFilter(f: int)
      requires Valid() && -0x8000_0000 <= f < 0x8000_0000
      modifies this
      ensures Valid()
      ensures filter == SizeT(f)
      ensures prevFilter == old(prevFilter) && rebuilds == old(rebuilds)
    {
      filter := SizeT(f);
    }

    /** getMaxFilter: the number of shaders in the bank. */
    method GetMaxFilter() returns (n: int)
      requires Valid()
      ensures n == |bank| == 13
    {
      n := |bank|;
    }

    /**
      The check at the head of render, as in GLVideoRendererYUV420Filter; here
      the raised flag is isProgramChanged, which VideoRendererYUV420 never
      reads, so the relinked program is not rebound (the two-argument
      createProgram it calls belongs to another revision of VideoRendererYUV420;
      it is taken to link the two shaders and store the id in m_program).
    */
    method Rebuild(d: Driver)
      requires Valid()
      modifies this, base
      ensures Valid()
      ensures prevFilter == filter && filter == old(filter)
      ensures var rebuild := old(filter) != old(prevFilter) && old(filter) < |bank|;
              rebuilds == old(rebuilds) + (if rebuild then 1 else 0) &&
              base.program == (if rebuild then d.program else old(base.program)) &&
              base.isProgramChanged == (rebuild || old(base.isProgramChanged)) &&
              base.trace == old(base.trace) + (if rebuild then RebuildEvents(old(base.program), bank[filter], d) else [])
      ensures base.width == old(base.width) && base.height == old(base.height)
      ensures base.backingWidth == old(base.backingWidth) && base.backingHeight == old(base.backingHeight)
      ensures base.rotation == old(base.rotation) && base.length == old(base.length) && base.store == old(base.store)
      ensures base.texY == old(base.texY) && base.texU == old(base.texU) && base.texV == old(base.texV)
      ensures base.isDirty == old(base.isDirty) && base.isOrientationChanged == old(base.isOrientationChanged)
      ensures base.framesIngested == old(base.framesIngested) && base.draws == old(base.draws) && base.binds == old(base.binds)
    {
      if filter != prevFilter {
        prevFilter := filter;
        if filter < |bank| {
          Relink(d);
        }
      }
    }

    /**
      The rebuild itself: isProgramChanged raised, delete_program on the
      current program, then the program linked from the vertex shader and the
      chosen fragment shader.
    */
    method Relink(d: Driver)
      requires Valid() && filter < |bank|
      modifies this, base
      ensures Valid()
      ensures filter == old(filter) && prevFilter == old(prevFilter) && rebuilds == old(rebuilds) + 1
      ensures base.program == d.program && base.isProgramChanged
      ensures base.trace == old(base.trace) + RebuildEvents(old(base.program), bank[filter], d)
      ensures base.width == old(base.width) && base.height == old(base.height)
      ensures base.backingWidth == old(base.backingWidth) && base.backingHeight == old(base.backingHeight)
      ensures base.rotation == old(base.rotation) && base.length == old(base.length) && base.store == old(base.store)
      ensures base.texY == old(base.texY) && base.texU == old(base.texU) && base.texV == old(base.texV)
      ensures base.isDirty == old(base.isDirty) && base.isOrientationChanged == old(base.isOrientationChanged)
      ensures base.framesIngested == old(base.framesIngested) && base.draws == old(base.draws) && base.binds == old(base.binds)
    {
      base.isProgramChanged := true;
      base.trace := base.trace + RebuildEvents(base.program, bank[filter], d);
      base.program := d.program;
      rebuilds := rebuilds + 1;
    }

    /**
      render: the rebuild check, then VideoRendererYUV420's render. A rebuild
      never leads to a bind: binding follows isOrientationChanged alone.
    */
    method Render(d: Driver)
      requires Valid()
      modifies this, base
      ensures Valid()
      ensures prevFilter == filter && filter == old(filter)
      ensures var rebuild := old(filter) != old(prevFilter) && old(filter) < |bank|;
              var program := if rebuild then d.program else old(base.program);
              var uploaded := old(base.isDirty) && (old(base.NoTextures()) ==> d.texY != 0 && d.texU != 0 && d.texV != 0);
              var linked := program != 0 || d.program != 0;
              rebuilds == old(rebuilds) + (if rebuild then 1 else 0) &&
              base.isProgramChanged == (rebuild || old(base.isProgramChanged)) &&
              base.draws == old(base.draws) + (if uploaded && linked then 1 else 0) &&
              base.binds == old(base.binds) + (if uploaded && linked && old(base.isOrientationChanged) then 1 else 0) &&
              base.isDirty == (old(base.isDirty) && !uploaded) &&
              base.isOrientationChanged == (old(base.isOrientationChanged) && !(uploaded && linked)) &&
              (uploaded ==> base.program == (if program != 0 then program else d.program) && base.store != null) &&
              (!uploaded ==> base.program == program) &&
              base.trace == RenderTrace(old(base.trace) + (if rebuild then RebuildEvents(old(base.program), bank[filter], d) else []),
                                        old(base.NoTextures()), uploaded, program, old(base.isOrientationChanged),
                                        base.width, base.height, base.texY, base.texU, base.texV,
                                        base.StoreContents(), base.program, base.BindUniforms(), d)
      ensures old(base.NoTextures()) ==> base.texY == d.texY && base.texU == (if d.texY != 0 then d.texU else 0)
                                         && base.texV == (if d.texY != 0 && d.texU != 0 then d.texV else 0)
      ensures !old(base.NoTextures()) ==> base.texY == old(base.texY) && base.texU == old(base.texU) && base.texV == old(base.texV)
      ensures base.width == old(base.width) && base.height == old(base.height)
      ensures base.backingWidth == old(base.backingWidth) && base.backingHeight == old(base.backingHeight)
      ensures base.rotation == old(base.rotation) && base.length == old(base.length)
      ensures base.store == old(base.store) && base.framesIngested == old(base.framesIngested)
    {
      Rebuild(d);
      base.Render(d);
    }
  }
}
