/**
  The integer side of VKVideoRendererYUV420: where each of the three planes
  sits in the frame buffer, the row-pitch copy into mapped texture memory,
  the memory-type, queue-family and surface-format searches, the access masks
  of an image layout transition, the quad's vertex and index buffers, and the
  draw decision (rebuild on resize, build the pipeline once, present when
  initialised).  Vulkan objects are recorded as events; the values they
  return to the renderer (row pitches, memory type flags, queue flags,
  surface formats) come in as parameters.
*/
module VkRenderer {
  import opened Wrappers
  import opened FrameCopy

  // ---------------------------------------------------------------------------
  // Vulkan constants, as the Vulkan specification numbers them

  const VK_SUCCESS: int := 0
  const VK_ERROR_MEMORY_MAP_FAILED: int := -5

  const VK_IMAGE_LAYOUT_UNDEFINED: int := 0
  const VK_IMAGE_LAYOUT_GENERAL: int := 1
  const VK_IMAGE_LAYOUT_COLOR_ATTACHMENT_OPTIMAL: int := 2
  const VK_IMAGE_LAYOUT_DEPTH_STENCIL_ATTACHMENT_OPTIMAL: int := 3
  const VK_IMAGE_LAYOUT_SHADER_READ_ONLY_OPTIMAL: int := 5
  const VK_IMAGE_LAYOUT_TRANSFER_SRC_OPTIMAL: int := 6
  const VK_IMAGE_LAYOUT_TRANSFER_DST_OPTIMAL: int := 7
  const VK_IMAGE_LAYOUT_PREINITIALIZED: int := 8

  const VK_ACCESS_SHADER_READ_BIT: bv32 := 0x20
  const VK_ACCESS_SHADER_WRITE_BIT: bv32 := 0x40
  const VK_ACCESS_COLOR_ATTACHMENT_WRITE_BIT: bv32 := 0x100
  const VK_ACCESS_DEPTH_STENCIL_ATTACHMENT_WRITE_BIT: bv32 := 0x400
  const VK_ACCESS_TRANSFER_READ_BIT: bv32 := 0x800
  const VK_ACCESS_TRANSFER_WRITE_BIT: bv32 := 0x1000
  const VK_ACCESS_HOST_WRITE_BIT: bv32 := 0x4000

  /** Every access flag that names a write. */
  const WriteAccesses: bv32 := VK_ACCESS_SHADER_WRITE_BIT | VK_ACCESS_COLOR_ATTACHMENT_WRITE_BIT
                               | VK_ACCESS_DEPTH_STENCIL_ATTACHMENT_WRITE_BIT | VK_ACCESS_TRANSFER_WRITE_BIT
                               | VK_ACCESS_HOST_WRITE_BIT

  const VK_QUEUE_GRAPHICS_BIT: bv32 := 0x1
  const VK_FORMAT_R8G8B8A8_UNORM: int := 37

  /** VK_MAX_MEMORY_TYPES: the length of the memory-type table and the width of a type mask. */
  const MaxMemoryTypes: nat := 32

  // ---------------------------------------------------------------------------
  // Planes

  datatype TextureType = TexY | TexU | TexV

  /** texType: the order the renderer keeps its three textures in. */
  function TexTypes(): (types: seq<TextureType>)
    ensures |types| == 3 && types[0] == TexY && types[1] == TexU && types[2] == TexV
  {
    [TexY, TexU, TexV]
  }

  /** The width of a plane's texture: the frame width for Y, half of it (rounded down) for U and V. */
  function PlaneWidth(t: TextureType, w: nat): nat { if t == TexY then w else w / 2 }

  /** The height of a plane's texture, likewise. */
  function PlaneHeight(t: TextureType, h: nat): nat { if t == TexY then h else h / 2 }

  /** Where a plane starts in the frame buffer: Y at 0, U after the w*h luma bytes, V at w*h*5/4. */
  function PlaneOffset(t: TextureType, w: nat, h: nat): nat
  {
    match t
    case TexY => 0
    case TexU => w * h
    case TexV => w * h * 5 / 4
  }

  /** One past the last byte a plane's texture reads from the frame buffer. */
  function PlaneEnd(t: TextureType, w: nat, h: nat): nat
  {
    PlaneOffset(t, w, h) + PlaneWidth(t, w) * PlaneHeight(t, h)
  }

  /** A frame buffer of length len holds every byte the three textures read. */
  predicate PlanesFit(w: nat, h: nat, len: nat)
  {
    PlaneEnd(TexY, w, h) <= len && PlaneEnd(TexU, w, h) <= len && PlaneEnd(TexV, w, h) <= len
  }

  /** In a buffer that holds the three planes, plane t's rows, read one after another, fit. */
  lemma {:induction false} PlaneFits(t: TextureType, w: nat, h: nat, len: nat)
    requires PlanesFit(w, h, len)
    ensures PlaneOffset(t, w, h) + PlaneHeight(t, h) * PlaneWidth(t, w) <= len
  {
    assert PlaneHeight(t, h) * PlaneWidth(t, w) == PlaneWidth(t, w) * PlaneHeight(t, h);
    assert PlaneEnd(t, w, h) <= len;
  }

  /**
    The three planes lie in order without overlap, U and V start exactly where
    the packed Y|U|V store of the GL renderers puts them, and a buffer of the
    store's size holds all of them.
  */
  lemma {:induction false} PlanesInsideStore(w: nat, h: nat)
    ensures PlaneOffset(TexU, w, h) == SizeY(w, h)
    ensures PlaneOffset(TexV, w, h) == SizeY(w, h) + SizeUV(w, h)
    ensures PlaneEnd(TexY, w, h) <= PlaneOffset(TexU, w, h)
    ensures PlaneEnd(TexU, w, h) <= PlaneOffset(TexV, w, h)
    ensures PlaneEnd(TexV, w, h) <= StoreSize(w, h)
    ensures PlanesFit(w, h, StoreSize(w, h))
  {
    DrawOffsetsMatchLayout(w, h);
    ChromaFits(w, h);
    assert PlaneWidth(TexU, w) * PlaneHeight(TexU, h) == (h / 2) * (w / 2);
    assert PlaneWidth(TexV, w) * PlaneHeight(TexV, h) == (h / 2) * (w / 2);
  }

  // ---------------------------------------------------------------------------
  // Textures

  /** The part of a VulkanTexture the copy uses: its size, the driver's row pitch and the mapped memory. */
  class VulkanTexture {
    var width: nat
    var height: nat
    var rowPitch: nat
    var mapped: array<Byte>

    /** A zero-initialised texture: no size, no pitch, nothing mapped. */
    constructor ()
      ensures width == 0 && height == 0 && rowPitch == 0 && mapped.Length == 0 && fresh(mapped)
    {
      width, height, rowPitch := 0, 0, 0;
      mapped := new Byte[0];
    }
  }

  /** getBufferOffset: sets the texture's size to the plane's and returns where the plane starts. */
  method GetBufferOffset(texture: VulkanTexture, t: TextureType, w: nat, h: nat) returns (offset: nat)
    modifies texture
    ensures texture.width == PlaneWidth(t, w) && texture.height == PlaneHeight(t, h)
    ensures texture.rowPitch == old(texture.rowPitch) && texture.mapped == old(texture.mapped)
    ensures offset == PlaneOffset(t, w, h)
  {
    offset := 0;
    if t == TexY {
      texture.width := w;
      texture.height := h;
    } else if t == TexU {
      texture.width := w / 2;
      texture.height := h / 2;
      offset := w * h;
    } else if t == TexV {
      texture.width := w / 2;
      texture.height := h / 2;
      offset := w * h * 5 / 4;
    }
  }

  /**
    copyTextureData: `height` times, copy `width` bytes from the data into
    mapped memory, then advance the mapped pointer by the row pitch and the
    data pointer by `width`.
  */
  method CopyTextureData(texture: VulkanTexture, data: seq<Byte>, at: nat)
    requires RowsFit(texture.mapped.Length, 0, texture.rowPitch, texture.width, texture.height)
    requires RowsFit(|data|, at, texture.width, texture.width, texture.height)
    modifies texture.mapped
    ensures texture.mapped[..] == CopyRows(old(texture.mapped[..]), 0, texture.rowPitch, data, at,
                                           texture.width, texture.width, texture.height)
  {
    CopyRowsLoop(texture.mapped, 0, texture.rowPitch, data, at, texture.width, texture.width, texture.height);
  }

  /** Rows `stride` apart, each no wider than the stride, fit when the whole run of strides does. */
  lemma {:induction false} StridedRowsFit(len: nat, at: nat, stride: nat, width: nat, rows: nat)
    requires width <= stride && at + rows * stride <= len
    ensures RowsFit(len, at, stride, width, rows)
    decreases rows
  {
    if rows > 0 {
      MulStep(rows, stride);
      StridedRowsFit(len, at + stride, stride, width, rows - 1);
    }
  }

  /**
    After the row-pitch copy, bytes [r*rowPitch, r*rowPitch + width) of the
    mapped memory are bytes [at + r*width, at + r*width + width) of the data,
    for every row r < height.
  */
  lemma {:induction false} TextureRowsLand(mapped: seq<Byte>, rowPitch: nat, data: seq<Byte>, at: nat,
                                           width: nat, height: nat)
    requires width <= rowPitch
    requires RowsFit(|mapped|, 0, rowPitch, width, height) && RowsFit(|data|, at, width, width, height)
    ensures forall r :: 0 <= r < height ==>
              RowStart(0, rowPitch, r) + width <= |mapped| && RowStart(at, width, r) + width <= |data| &&
              Take(CopyRows(mapped, 0, rowPitch, data, at, width, width, height), RowStart(0, rowPitch, r), width)
              == Take(data, RowStart(at, width, r), width)
  {
    forall r | 0 <= r < height
      ensures RowStart(0, rowPitch, r) + width <= |mapped| && RowStart(at, width, r) + width <= |data| &&
              Take(CopyRows(mapped, 0, rowPitch, data, at, width, width, height), RowStart(0, rowPitch, r), width)
              == Take(data, RowStart(at, width, r), width)
    {
      CopyRowsRow(mapped, 0, rowPitch, data, at, width, width, height, r);
      RowAtIsProduct(0, rowPitch, r);
      RowAtIsProduct(at, width, r);
    }
  }

  /**
    A texture holds plane t of a w x h frame in buf: it has the plane's size,
    and row r of its mapped memory, at r * rowPitch, is row r of the plane.
  */
  ghost predicate Uploaded(texture: VulkanTexture, t: TextureType, buf: seq<Byte>, w: nat, h: nat)
    reads texture, texture.mapped
  {
    var pw, ph, off := PlaneWidth(t, w), PlaneHeight(t, h), PlaneOffset(t, w, h);
    texture.width == pw && texture.height == ph &&
    forall r :: 0 <= r < ph ==>
      RowStart(0, texture.rowPitch, r) + pw <= texture.mapped.Length && RowStart(off, pw, r) + pw <= |buf| &&
      Take(texture.mapped[..], RowStart(0, texture.rowPitch, r), pw) == Take(buf, RowStart(off, pw, r), pw)
  }

  /** Three textures that hold, in order, the Y, U and V planes of a w x h frame in buf. */
  ghost predicate TexturesHold(ts: seq<VulkanTexture>, buf: seq<Byte>, w: nat, h: nat)
    requires |ts| == 3
    reads ts[0], ts[1], ts[2], ts[0].mapped, ts[1].mapped, ts[2].mapped
  {
    Uploaded(ts[0], TexY, buf, w, h) && Uploaded(ts[1], TexU, buf, w, h) && Uploaded(ts[2], TexV, buf, w, h)
  }

  /** A texture's mapped memory has room for plane t of a w x h frame at its row pitch. */
  ghost predicate Sized(texture: VulkanTexture, t: TextureType, w: nat, h: nat)
    reads texture
  {
    PlaneWidth(t, w) <= texture.rowPitch && PlaneHeight(t, h) * texture.rowPitch <= texture.mapped.Length
  }

  /** Getting the offset and copying the plane leaves a sized texture holding the plane. */
  method UploadPlane(texture: VulkanTexture, t: TextureType, buf: seq<Byte>, w: nat, h: nat)
    requires Sized(texture, t, w, h) && PlanesFit(w, h, |buf|)
    modifies texture, texture.mapped
    ensures texture.rowPitch == old(texture.rowPitch) && texture.mapped == old(texture.mapped)
    ensures Uploaded(texture, t, buf, w, h)
  {
    var offset := GetBufferOffset(texture, t, w, h);
    PlaneFits(t, w, h, |buf|);
    StridedRowsFit(texture.mapped.Length, 0, texture.rowPitch, texture.width, texture.height);
    PackedRowsFit(offset, texture.width, texture.height, |buf|);
    ghost var before := texture.mapped[..];
    CopyTextureData(texture, buf, offset);
    TextureRowsLand(before, texture.rowPitch, buf, offset, texture.width, texture.height);
  }

  /**
    loadTexture on the linear-tiling path, into the texture it is given: size
    it for its plane, take the row pitch the driver reports for the image, map
    fresh memory of rowPitch * height bytes and copy the plane in.
  */
  method LoadTexture(texture: VulkanTexture, buf: seq<Byte>, t: TextureType, w: nat, h: nat, rowPitch: nat)
    requires PlaneWidth(t, w) <= rowPitch && PlanesFit(w, h, |buf|)
    modifies texture
    ensures fresh(texture.mapped)
    ensures texture.rowPitch == rowPitch && Sized(texture, t, w, h) && Uploaded(texture, t, buf, w, h)
  {
    texture.rowPitch := rowPitch;
    texture.mapped := new Byte[PlaneHeight(t, h) * rowPitch];
    UploadPlane(texture, t, buf, w, h);
  }

  // ---------------------------------------------------------------------------
  // Searches

  /** The low bit of a mask is set: `(typeBits & 1) == 1`. */
  predicate LowBitSet(bits: bv32) { bits & 1 == 1 }

  /** `typeBits >>= 1`. */
  function ShiftRightOnce(bits: bv32): bv32 { bits >> 1 }

  /** Flags with every bit the mask asks for: `(flags & mask) == mask`. */
  predicate HasAll(flags: bv32, mask: bv32) { flags & mask == mask }

  /** typeBits after n shifts right by one, as the search loop leaves it: its low bit is bit n of typeBits. */
  function ShiftedRight(typeBits: bv32, n: nat): bv32
  {
    if n == 0 then typeBits else ShiftRightOnce(ShiftedRight(typeBits, n - 1))
  }

  /** Memory type i is allowed by bit i of typeBits and has every property the mask asks for. */
  predicate MemoryTypeFits(typeBits: bv32, requirementsMask: bv32, memoryTypes: seq<bv32>, i: nat)
    requires i < MaxMemoryTypes <= |memoryTypes|
  {
    LowBitSet(ShiftedRight(typeBits, i)) && HasAll(memoryTypes[i], requirementsMask)
  }

  /** The first memory type from index `from` on that fits, if any. */
  function FirstMemoryType(typeBits: bv32, requirementsMask: bv32, memoryTypes: seq<bv32>, from: nat): Option<nat>
    requires |memoryTypes| == MaxMemoryTypes
    decreases MaxMemoryTypes - from
  {
    if from >= MaxMemoryTypes then None
    else if MemoryTypeFits(typeBits, requirementsMask, memoryTypes, from) then Some(from)
    else FirstMemoryType(typeBits, requirementsMask, memoryTypes, from + 1)
  }

  /**
    What the search finds is the smallest index from `from` on whose type
    fits; when it finds nothing, no type from `from` on fits.
  */
  lemma {:induction false} FirstMemoryTypeIsFirst(typeBits: bv32, requirementsMask: bv32, memoryTypes: seq<bv32>, from: nat)
    requires |memoryTypes| == MaxMemoryTypes
    ensures var r := FirstMemoryType(typeBits, requirementsMask, memoryTypes, from);
            (r.Some? ==> from <= r.value < MaxMemoryTypes && MemoryTypeFits(typeBits, requirementsMask, memoryTypes, r.value)) &&
            (r.Some? ==> forall j :: from <= j < r.value ==> !MemoryTypeFits(typeBits, requirementsMask, memoryTypes, j)) &&
            (r.None? ==> forall j :: from <= j < MaxMemoryTypes ==> !MemoryTypeFits(typeBits, requirementsMask, memoryTypes, j))
    decreases MaxMemoryTypes - from
  {
    if from < MaxMemoryTypes && !MemoryTypeFits(typeBits, requirementsMask, memoryTypes, from) {
      FirstMemoryTypeIsFirst(typeBits, requirementsMask, memoryTypes, from + 1);
    }
  }

  /** The search from i stops at i when type i fits and goes on to i + 1 otherwise. */
  lemma {:induction false} FirstMemoryTypeStep(typeBits: bv32, requirementsMask: bv32, memoryTypes: seq<bv32>, i: nat)
    requires |memoryTypes| == MaxMemoryTypes && i < MaxMemoryTypes
    ensures MemoryTypeFits(typeBits, requirementsMask, memoryTypes, i) ==>
              FirstMemoryType(typeBits, requirementsMask, memoryTypes, i) == Some(i)
    ensures !MemoryTypeFits(typeBits, requirementsMask, memoryTypes, i) ==>
              FirstMemoryType(typeBits, requirementsMask, memoryTypes, i) == FirstMemoryType(typeBits, requirementsMask, memoryTypes, i + 1)
  {
  }

  /**
    The loop allocateMemoryTypeFromProperties and mapMemoryTypeToIndex share:
    test the low bit of typeBits and the type's flags, shift typeBits right,
    and stop at the first type that fits.
  */
  method MemoryTypeSearch(typeBits: bv32, requirementsMask: bv32, memoryTypes: seq<bv32>) returns (found: Option<nat>)
    requires |memoryTypes| == MaxMemoryTypes
    ensures found == FirstMemoryType(typeBits, requirementsMask, memoryTypes, 0)
  {
    var bits := typeBits;
    var i: nat := 0;
    while i < MaxMemoryTypes
      invariant i <= MaxMemoryTypes
      invariant bits == ShiftedRight(typeBits, i)
      invariant FirstMemoryType(typeBits, requirementsMask, memoryTypes, 0)
             == FirstMemoryType(typeBits, requirementsMask, memoryTypes, i)
    {
      FirstMemoryTypeStep(typeBits, requirementsMask, memoryTypes, i);
      if LowBitSet(bits) {
        if HasAll(memoryTypes[i], requirementsMask) {
          return Some(i);
        }
      }
      bits := ShiftRightOnce(bits);
      i := i + 1;
    }
    return None;
  }

  /**
    mapMemoryTypeToIndex: true and the smallest fitting index when a type fits;
    false and the caller's typeIndex untouched otherwise.
  */
  method MapMemoryTypeToIndex(typeBits: bv32, requirementsMask: bv32, memoryTypes: seq<bv32>, typeIndex: nat)
    returns (ok: bool, newTypeIndex: nat)
    requires |memoryTypes| == MaxMemoryTypes
    ensures ok <==> exists i :: 0 <= i < MaxMemoryTypes && MemoryTypeFits(typeBits, requirementsMask, memoryTypes, i)
    ensures ok ==> newTypeIndex < MaxMemoryTypes && MemoryTypeFits(typeBits, requirementsMask, memoryTypes, newTypeIndex)
    ensures ok ==> forall j :: 0 <= j < newTypeIndex ==> !MemoryTypeFits(typeBits, requirementsMask, memoryTypes, j)
    ensures !ok ==> newTypeIndex == typeIndex
  {
    var found := MemoryTypeSearch(typeBits, requirementsMask, memoryTypes);
    FirstMemoryTypeIsFirst(typeBits, requirementsMask, memoryTypes, 0);
    ok, newTypeIndex := found.Some?, if found.Some? then found.value else typeIndex;
  }

  /**
    allocateMemoryTypeFromProperties: VK_SUCCESS and the smallest fitting
    index when a type fits; VK_ERROR_MEMORY_MAP_FAILED and typeIndex untouched
    otherwise.
  */
  method AllocateMemoryTypeFromProperties(typeBits: bv32, requirementsMask: bv32, memoryTypes: seq<bv32>, typeIndex: nat)
    returns (result: int, newTypeIndex: nat)
    requires |memoryTypes| == MaxMemoryTypes
    ensures result == VK_SUCCESS || result == VK_ERROR_MEMORY_MAP_FAILED
    ensures result == VK_SUCCESS <==> exists i :: 0 <= i < MaxMemoryTypes && MemoryTypeFits(typeBits, requirementsMask, memoryTypes, i)
    ensures result == VK_SUCCESS ==> newTypeIndex < MaxMemoryTypes && MemoryTypeFits(typeBits, requirementsMask, memoryTypes, newTypeIndex)
    ensures result == VK_SUCCESS ==> forall j :: 0 <= j < newTypeIndex ==> !MemoryTypeFits(typeBits, requirementsMask, memoryTypes, j)
    ensures result != VK_SUCCESS ==> newTypeIndex == typeIndex
  {
    var found := MemoryTypeSearch(typeBits, requirementsMask, memoryTypes);
    FirstMemoryTypeIsFirst(typeBits, requirementsMask, memoryTypes, 0);
    if found.Some? {
      result, newTypeIndex := VK_SUCCESS, found.value;
    } else {
      result, newTypeIndex := VK_ERROR_MEMORY_MAP_FAILED, typeIndex;
    }
  }

  /**
    The queue family createDevice picks: the first whose flags have the
    graphics bit, or the family count when none has (the source then fails
    its assertion).
  */
  method FindGraphicsQueueFamily(queueFlags: seq<bv32>) returns (index: nat)
    ensures index <= |queueFlags|
    ensures index < |queueFlags| ==> queueFlags[index] & VK_QUEUE_GRAPHICS_BIT != 0
    ensures forall j :: 0 <= j < index ==> queueFlags[j] & VK_QUEUE_GRAPHICS_BIT == 0
  {
    index := 0;
    while index < |queueFlags|
      invariant index <= |queueFlags|
      invariant forall j :: 0 <= j < index ==> queueFlags[j] & VK_QUEUE_GRAPHICS_BIT == 0
    {
      if queueFlags[index] & VK_QUEUE_GRAPHICS_BIT != 0 {
        break;
      }
      index := index + 1;
    }
  }

  /**
    The surface format createSwapChain picks: the first equal to
    R8G8B8A8_UNORM, or the format count when there is none (the source then
    fails its assertion).
  */
  method ChooseSurfaceFormat(formats: seq<int>) returns (chosen: nat)
    ensures chosen <= |formats|
    ensures chosen < |formats| ==> formats[chosen] == VK_FORMAT_R8G8B8A8_UNORM
    ensures forall j :: 0 <= j < chosen ==> formats[j] != VK_FORMAT_R8G8B8A8_UNORM
  {
    chosen := 0;
    while chosen < |formats|
      invariant chosen <= |formats|
      invariant forall j :: 0 <= j < chosen ==> formats[j] != VK_FORMAT_R8G8B8A8_UNORM
    {
      if formats[chosen] == VK_FORMAT_R8G8B8A8_UNORM {
        break;
      }
      chosen := chosen + 1;
    }
  }

  /** The first family with the graphics bit, as a function of the family flags. */
  function FirstGraphicsFamily(queueFlags: seq<bv32>): (i: nat)
    ensures i <= |queueFlags|
    ensures i < |queueFlags| ==> queueFlags[i] & VK_QUEUE_GRAPHICS_BIT != 0
    ensures forall j :: 0 <= j < i ==> queueFlags[j] & VK_QUEUE_GRAPHICS_BIT == 0
    decreases |queueFlags|
  {
    if |queueFlags| == 0 || queueFlags[0] & VK_QUEUE_GRAPHICS_BIT != 0 then 0
    else 1 + FirstGraphicsFamily(queueFlags[1..])
  }

  /** The queue family a logical device is created with, and the family its queue is then fetched from. */
  datatype DeviceQueues = DeviceQueues(createdFamily: nat, fetchedFamily: nat)

  /** createDevice as written: the device is created with the graphics family, but its queue is fetched from family 0. */
  function CreateDeviceQueuesAsWritten(queueFlags: seq<bv32>): (d: DeviceQueues)
    ensures d.createdFamily == FirstGraphicsFamily(queueFlags) && d.fetchedFamily == 0
  {
    DeviceQueues(FirstGraphicsFamily(queueFlags), 0)
  }

  /** Whenever the graphics family is not family 0, the queue written is fetched from a family the device was not created with. */
  lemma {:induction false} AsWrittenFetchesUnrequestedFamily(queueFlags: seq<bv32>)
    requires FirstGraphicsFamily(queueFlags) != 0
    ensures CreateDeviceQueuesAsWritten(queueFlags).fetchedFamily != CreateDeviceQueuesAsWritten(queueFlags).createdFamily
  {
  }

  /** A device whose only graphics family is family 1 shows it: created with family 1, queue fetched from 0. */
  lemma {:induction false} AsWrittenCounterexample()
    ensures FirstGraphicsFamily([0x2, 0x1]) == 1
    ensures CreateDeviceQueuesAsWritten([0x2, 0x1]) == DeviceQueues(1, 0)
  {
    assert [0x2, 0x1][1..] == [0x1 as bv32];
  }

  /** createDevice corrected: the queue comes from the family the device was created with. */
  function CreateDeviceQueues(queueFlags: seq<bv32>): (d: DeviceQueues)
    ensures d.fetchedFamily == d.createdFamily
    ensures d.createdFamily <= |queueFlags|
    ensures d.createdFamily < |queueFlags| ==> queueFlags[d.createdFamily] & VK_QUEUE_GRAPHICS_BIT != 0
    ensures forall j :: 0 <= j < d.createdFamily ==> queueFlags[j] & VK_QUEUE_GRAPHICS_BIT == 0
  {
    var family := FirstGraphicsFamily(queueFlags);
    DeviceQueues(family, family)
  }

  // ---------------------------------------------------------------------------
  // Layout transitions

  /** The image memory barrier setImageLayout records. */
  datatype ImageBarrier = ImageBarrier(srcAccessMask: bv32, dstAccessMask: bv32, oldLayout: int, newLayout: int)

  /** The accesses a transition out of a layout waits for: the writes that layout is used for. */
  function SrcAccessMask(oldLayout: int): (mask: bv32)
    ensures mask & WriteAccesses == mask
    ensures mask != 0 <==> oldLayout == VK_IMAGE_LAYOUT_COLOR_ATTACHMENT_OPTIMAL
                           || oldLayout == VK_IMAGE_LAYOUT_TRANSFER_DST_OPTIMAL
                           || oldLayout == VK_IMAGE_LAYOUT_PREINITIALIZED
  {
    if oldLayout == VK_IMAGE_LAYOUT_COLOR_ATTACHMENT_OPTIMAL then VK_ACCESS_COLOR_ATTACHMENT_WRITE_BIT
    else if oldLayout == VK_IMAGE_LAYOUT_TRANSFER_DST_OPTIMAL then VK_ACCESS_TRANSFER_WRITE_BIT
    else if oldLayout == VK_IMAGE_LAYOUT_PREINITIALIZED then VK_ACCESS_HOST_WRITE_BIT
    else 0
  }

  /** The accesses a transition into a layout makes wait: the access that layout is used for. */
  function DstAccessMask(newLayout: int): (mask: bv32)
    ensures mask & (mask - 1) == 0
    ensures mask != 0 <==> newLayout == VK_IMAGE_LAYOUT_TRANSFER_DST_OPTIMAL
                           || newLayout == VK_IMAGE_LAYOUT_TRANSFER_SRC_OPTIMAL
                           || newLayout == VK_IMAGE_LAYOUT_SHADER_READ_ONLY_OPTIMAL
                           || newLayout == VK_IMAGE_LAYOUT_COLOR_ATTACHMENT_OPTIMAL
                           || newLayout == VK_IMAGE_LAYOUT_DEPTH_STENCIL_ATTACHMENT_OPTIMAL
    ensures mask & WriteAccesses == 0 <==> newLayout == VK_IMAGE_LAYOUT_TRANSFER_SRC_OPTIMAL
                                            || newLayout == VK_IMAGE_LAYOUT_SHADER_READ_ONLY_OPTIMAL
                                            || mask == 0
  {
    if newLayout == VK_IMAGE_LAYOUT_TRANSFER_DST_OPTIMAL then VK_ACCESS_TRANSFER_WRITE_BIT
    else if newLayout == VK_IMAGE_LAYOUT_TRANSFER_SRC_OPTIMAL then VK_ACCESS_TRANSFER_READ_BIT
    else if newLayout == VK_IMAGE_LAYOUT_SHADER_READ_ONLY_OPTIMAL then VK_ACCESS_SHADER_READ_BIT
    else if newLayout == VK_IMAGE_LAYOUT_COLOR_ATTACHMENT_OPTIMAL then VK_ACCESS_COLOR_ATTACHMENT_WRITE_BIT
    else if newLayout == VK_IMAGE_LAYOUT_DEPTH_STENCIL_ATTACHMENT_OPTIMAL then VK_ACCESS_DEPTH_STENCIL_ATTACHMENT_WRITE_BIT
    else 0
  }

  /** setImageLayout: a barrier from the old layout to the new one, with both masks starting at 0 and set by the layouts. */
  function SetImageLayout(oldLayout: int, newLayout: int): (b: ImageBarrier)
    ensures b.oldLayout == oldLayout && b.newLayout == newLayout
    ensures b.srcAccessMask == SrcAccessMask(oldLayout) && b.dstAccessMask == DstAccessMask(newLayout)
  {
    ImageBarrier(SrcAccessMask(oldLayout), DstAccessMask(newLayout), oldLayout, newLayout)
  }

  /**
    The uploads this renderer does: a PREINITIALIZED image moved to
    SHADER_READ_ONLY waits for host writes and holds back shader reads; an
    UNDEFINED one waits for nothing.
  */
  lemma {:induction false} TextureTransitions()
    ensures SetImageLayout(VK_IMAGE_LAYOUT_PREINITIALIZED, VK_IMAGE_LAYOUT_SHADER_READ_ONLY_OPTIMAL)
            == ImageBarrier(VK_ACCESS_HOST_WRITE_BIT, VK_ACCESS_SHADER_READ_BIT,
                            VK_IMAGE_LAYOUT_PREINITIALIZED, VK_IMAGE_LAYOUT_SHADER_READ_ONLY_OPTIMAL)
    ensures SetImageLayout(VK_IMAGE_LAYOUT_UNDEFINED, VK_IMAGE_LAYOUT_TRANSFER_DST_OPTIMAL).srcAccessMask == 0
  {
  }

  // ---------------------------------------------------------------------------
  // The quad

  /** A vertex: position and texture coordinate. */
  datatype Vertex = Vertex(x: real, y: real, z: real, u: real, v: real)

  /** createVertexBuffer's four corners, counter-clockwise from the top right. */
  function Vertices(): (vs: seq<Vertex>)
    ensures |vs| == 4
    ensures forall k :: 0 <= k < 4 ==> vs[k].z == 0.0 && (vs[k].x == 1.0 || vs[k].x == -1.0) && (vs[k].y == 1.0 || vs[k].y == -1.0)
    ensures forall k :: 0 <= k < 4 ==> vs[k].u == (vs[k].x + 1.0) / 2.0 && vs[k].v == (vs[k].y + 1.0) / 2.0
  {
    [Vertex(1.0, 1.0, 0.0, 1.0, 1.0), Vertex(-1.0, 1.0, 0.0, 0.0, 1.0),
     Vertex(-1.0, -1.0, 0.0, 0.0, 0.0), Vertex(1.0, -1.0, 0.0, 1.0, 0.0)]
  }

  /** createIndexBuffer's indices: two triangles over the four corners. */
  function Indices(): (ix: seq<nat>)
    ensures ix == [0, 1, 2, 2, 3, 0]
    ensures |ix| == 6
    ensures forall k :: 0 <= k < |ix| ==> ix[k] < |Vertices()|
    ensures forall c: nat :: c < |Vertices()| ==> c in ix
  {
    var ix := [0, 1, 2, 2, 3, 0];
    assert ix[0] == 0 && ix[1] == 1 && ix[2] == 2 && ix[4] == 3;
    ix
  }

  /** Twice the signed area of the triangle a, b, c in the xy plane: positive when counter-clockwise. */
  function Winding(a: Vertex, b: Vertex, c: Vertex): real
  {
    (b.x - a.x) * (c.y - a.y) - (b.y - a.y) * (c.x - a.x)
  }

  /** Both triangles of the index buffer wind counter-clockwise, each covering half of the 2 x 2 quad. */
  lemma {:induction false} QuadTrianglesAgree()
    ensures Winding(Vertices()[Indices()[0]], Vertices()[Indices()[1]], Vertices()[Indices()[2]]) == 4.0
    ensures Winding(Vertices()[Indices()[3]], Vertices()[Indices()[4]], Vertices()[Indices()[5]]) == 4.0
  {
    var vs, ix := Vertices(), Indices();
    assert ix == [0, 1, 2, 2, 3, 0];
  }

  // ---------------------------------------------------------------------------
  // The renderer

  /** The Vulkan work the renderer asks for, in order. */
  datatype Resource =
    | Device | SwapChain | RenderPass | FrameBuffers | VertexBuffer | IndexBuffer
    | UniformBuffers | Textures | GraphicsPipeline | DescriptorSet | CommandPool

  datatype VkEvent = Created(Resource) | Deleted(Resource) | DescriptorSetUpdated | TexturesUpdated | Presented

  /** The events of createRenderPipeline, the only way to become initialised. */
  function PipelineEvents(): seq<VkEvent>
  {
    [Created(RenderPass), Created(FrameBuffers), Created(VertexBuffer), Created(IndexBuffer), Created(UniformBuffers),
     Created(Textures), Created(GraphicsPipeline), Created(DescriptorSet), Created(CommandPool)]
  }

  /** The events of the resize path: tear down and recreate the per-frame resources. */
  function ResizeEvents(): seq<VkEvent>
  {
    [Deleted(UniformBuffers), Deleted(Textures), Deleted(CommandPool),
     Created(UniformBuffers), Created(Textures), DescriptorSetUpdated, Created(CommandPool)]
  }

  /** The first half of a draw: the resize path when initialised and the size changed, nothing otherwise. */
  function SizeEvents(wasInitialized: bool, resized: bool): seq<VkEvent>
  {
    if wasInitialized && resized then ResizeEvents() else []
  }

  /** The second half of a draw: the pipeline when not initialised, a texture update otherwise; then present. */
  function PresentEvents(wasInitialized: bool): seq<VkEvent>
  {
    (if wasInitialized then [TexturesUpdated] else PipelineEvents()) + [Presented]
  }

  /** The events of one draw, given whether the renderer was initialised and whether the frame size changed. */
  function DrawEvents(wasInitialized: bool, resized: bool): (es: seq<VkEvent>)
    ensures |es| > 0 && es[|es| - 1] == Presented
  {
    SizeEvents(wasInitialized, resized) + PresentEvents(wasInitialized)
  }

  /**
    A draw tears the textures down exactly when the renderer was initialised
    and the size changed, builds the pipeline exactly when it was not
    initialised, re-uploads through updateTextures exactly when it was, and
    always presents.
  */
  lemma {:induction false} DrawDecisions(wasInitialized: bool, resized: bool)
    ensures Deleted(Textures) in DrawEvents(wasInitialized, resized) <==> wasInitialized && resized
    ensures Created(RenderPass) in DrawEvents(wasInitialized, resized) <==> !wasInitialized
    ensures TexturesUpdated in DrawEvents(wasInitialized, resized) <==> wasInitialized
    ensures Presented in DrawEvents(wasInitialized, resized)
  {
    var es := DrawEvents(wasInitialized, resized);
    assert es[|es| - 1] == Presented;
    if wasInitialized && resized {
      assert es[1] == Deleted(Textures);
    }
    if !wasInitialized {
      assert es[0] == Created(RenderPass);
    } else {
      assert es[|es| - 2] == TexturesUpdated;
    }
  }

  class VKVideoRendererYUV420 {
    var frameWidth: nat
    var frameHeight: nat
    var surfaceWidth: nat
    var surfaceHeight: nat
    var params: bv32
    var rotation: real
    var mirror: bool
    /** m_pBuffer: the frame the textures are filled from. */
    var buffer: seq<Byte>
    var initialized: bool
    var indexCount: nat
    /** The fixed array textures[kTextureCount]: textures[i] holds plane TexTypes()[i]. */
    const textures: seq<VulkanTexture>
    ghost var trace: seq<VkEvent>
    /** How many times the render pipeline has been built. */
    ghost var pipelines: nat

    /** The three texture slots are three different objects. */
    predicate Distinct()
    {
      |textures| == 3 && textures[0] != textures[1] && textures[1] != textures[2] && textures[0] != textures[2]
    }

    /**
      The pipeline is built at most once and exactly then is the renderer
      initialised; the textures map distinct memory, and once initialised it
      is sized for the current frame.
    */
    ghost predicate Valid()
      reads this, textures
    {
      Distinct() &&
      textures[0].mapped != textures[1].mapped && textures[1].mapped != textures[2].mapped &&
      textures[0].mapped != textures[2].mapped &&
      pipelines <= 1 && (initialized <==> pipelines == 1) &&
      (initialized ==> indexCount == |Indices()| &&
                       forall i :: 0 <= i < 3 ==> Sized(textures[i], TexTypes()[i], frameWidth, frameHeight))
    }

    /** The constructor: no buffer, no indices, not initialised; VideoRenderer's defaults for the rest. */
    constructor ()
      ensures Valid() && !initialized && indexCount == 0 && buffer == []
      ensures frameWidth == 0 && frameHeight == 0 && surfaceWidth == 0 && surfaceHeight == 0
      ensures params == 0 && rotation == 0.0 && mirror
      ensures trace == [] && pipelines == 0
    {
      frameWidth, frameHeight, surfaceWidth, surfaceHeight := 0, 0, 0, 0;
      params, rotation, mirror := 0, 0.0, true;
      buffer, initialized, indexCount := [], false, 0;
      var t0 := new VulkanTexture();
      var t1 := new VulkanTexture();
      var t2 := new VulkanTexture();
      textures := [t0, t1, t2];
      trace, pipelines := [], 0;
    }

    /** init: store the surface size, then create the device and the swap chain. */
    method Init(width: nat, height: nat)
      requires Valid()
      modifies this
      ensures Valid() && surfaceWidth == width && surfaceHeight == height
      ensures trace == old(trace) + [Created(Device), Created(SwapChain)]
      ensures frameWidth == old(frameWidth) && frameHeight == old(frameHeight) && buffer == old(buffer)
      ensures initialized == old(initialized) && pipelines == old(pipelines)
      ensures params == old(params) && rotation == old(rotation) && mirror == old(mirror) && indexCount == old(indexCount)
    {
      surfaceWidth, surfaceHeight := width, height;
      trace := trace + [Created(Device), Created(SwapChain)];
    }

    method SetParameters(p: bv32)
      modifies this
      ensures params == p
      ensures frameWidth == old(frameWidth) && frameHeight == old(frameHeight) && buffer == old(buffer)
      ensures initialized == old(initialized) && pipelines == old(pipelines)
      ensures surfaceWidth == old(surfaceWidth) && surfaceHeight == old(surfaceHeight) && trace == old(trace)
      ensures rotation == old(rotation) && mirror == old(mirror) && indexCount == old(indexCount)
    {
      params := p;
    }

    method GetParameters() returns (p: bv32)
      ensures p == params
    {
      p := params;
    }

    /** isInitialized. */
    method IsInitialized() returns (b: bool)
      ensures b == initialized
    {
      b := initialized;
    }

    /**
      createTextures: load the three planes of the current frame into the
      three textures, at the row pitches the driver reports for them.
    */
    method CreateTextures(rowPitches: seq<nat>)
      requires Distinct()
      requires |rowPitches| == 3
      requires forall i :: 0 <= i < 3 ==> PlaneWidth(TexTypes()[i], frameWidth) <= rowPitches[i]
      requires PlanesFit(frameWidth, frameHeight, |buffer|)
      modifies this, textures[0], textures[1], textures[2]
      ensures trace == old(trace) + [Created(Textures)]
      ensures fresh(textures[0].mapped) && fresh(textures[1].mapped) && fresh(textures[2].mapped)
      ensures textures[0].mapped != textures[1].mapped && textures[1].mapped != textures[2].mapped
      ensures textures[0].mapped != textures[2].mapped
      ensures forall i :: 0 <= i < 3 ==> textures[i].rowPitch == rowPitches[i] && Sized(textures[i], TexTypes()[i], frameWidth, frameHeight)
      ensures TexturesHold(textures, buffer, frameWidth, frameHeight)
      ensures frameWidth == old(frameWidth) && frameHeight == old(frameHeight) && buffer == old(buffer)
      ensures initialized == old(initialized) && pipelines == old(pipelines) && indexCount == old(indexCount)
      ensures surfaceWidth == old(surfaceWidth) && surfaceHeight == old(surfaceHeight)
      ensures params == old(params) && rotation == old(rotation) && mirror == old(mirror)
    {
      LoadTexture(textures[0], buffer, TexY, frameWidth, frameHeight, rowPitches[0]);
      LoadTexture(textures[1], buffer, TexU, frameWidth, frameHeight, rowPitches[1]);
      LoadTexture(textures[2], buffer, TexV, frameWidth, frameHeight, rowPitches[2]);
      trace := trace + [Created(Textures)];
    }

    /** updateTextures: copy the three planes of the current frame into the existing textures. */
    method UpdateTextureData()
      requires Valid() && initialized && PlanesFit(frameWidth, frameHeight, |buffer|)
      modifies textures[0], textures[1], textures[2], textures[0].mapped, textures[1].mapped, textures[2].mapped
      ensures Valid() && TexturesHold(textures, buffer, frameWidth, frameHeight)
      ensures forall i :: 0 <= i < 3 ==> textures[i].rowPitch == old(textures[i].rowPitch) && textures[i].mapped == old(textures[i].mapped)
    {
      UploadPlane(textures[0], TexY, buffer, frameWidth, frameHeight);
      UploadPlane(textures[1], TexU, buffer, frameWidth, frameHeight);
      UploadPlane(textures[2], TexV, buffer, frameWidth, frameHeight);
    }

    /** createRenderPipeline: the buffers, the textures, the pipeline and the command pool; then initialised. */
    method CreateRenderPipeline(rowPitches: seq<nat>)
      requires Valid() && !initialized
      requires |rowPitches| == 3
      requires forall i :: 0 <= i < 3 ==> PlaneWidth(TexTypes()[i], frameWidth) <= rowPitches[i]
      requires PlanesFit(frameWidth, frameHeight, |buffer|)
      modifies this, textures[0], textures[1], textures[2]
      ensures Valid() && initialized && TexturesHold(textures, buffer, frameWidth, frameHeight) && pipelines == old(pipelines) + 1
      ensures trace == old(trace) + PipelineEvents()
      ensures frameWidth == old(frameWidth) && frameHeight == old(frameHeight) && buffer == old(buffer)
      ensures surfaceWidth == old(surfaceWidth) && surfaceHeight == old(surfaceHeight)
      ensures params == old(params) && rotation == old(rotation) && mirror == old(mirror)
    {
      trace := trace + [Created(RenderPass), Created(FrameBuffers), Created(VertexBuffer), Created(IndexBuffer)];
      indexCount := |Indices()|;
      trace := trace + [Created(UniformBuffers)];
      CreateTextures(rowPitches);
      trace := trace + [Created(GraphicsPipeline), Created(DescriptorSet), Created(CommandPool)];
      initialized := true;
      pipelines := pipelines + 1;
    }

    /** The resize path: new size, then tear down and recreate the per-frame resources. */
    method Resize(width: nat, height: nat, rowPitches: seq<nat>)
      requires Valid() && initialized
      requires |rowPitches| == 3
      requires forall i :: 0 <= i < 3 ==> PlaneWidth(TexTypes()[i], width) <= rowPitches[i]
      requires PlanesFit(width, height, |buffer|)
      modifies this, textures[0], textures[1], textures[2]
      ensures Valid() && initialized && pipelines == old(pipelines)
      ensures fresh(textures[0].mapped) && fresh(textures[1].mapped) && fresh(textures[2].mapped)
      ensures frameWidth == width && frameHeight == height && buffer == old(buffer)
      ensures trace == old(trace) + ResizeEvents()
      ensures surfaceWidth == old(surfaceWidth) && surfaceHeight == old(surfaceHeight)
      ensures params == old(params) && rotation == old(rotation) && mirror == old(mirror)
    {
      frameWidth, frameHeight := width, height;
      trace := trace + [Deleted(UniformBuffers), Deleted(Textures), Deleted(CommandPool), Created(UniformBuffers)];
      CreateTextures(rowPitches);
      trace := trace + [DescriptorSetUpdated, Created(CommandPool)];
    }

    /**
      The first half of draw: keep the frame, its rotation and mirroring, and
      take the new size, rebuilding the per-frame resources if initialised and
      the size changed.
    */
    method SetFrame(buf: seq<Byte>, width: nat, height: nat, rot: real, mirrored: bool, rowPitches: seq<nat>)
      requires Valid()
      requires |rowPitches| == 3
      requires initialized && (frameWidth != width || frameHeight != height) ==>
                 forall i :: 0 <= i < 3 ==> PlaneWidth(TexTypes()[i], width) <= rowPitches[i]
      requires PlanesFit(width, height, |buf|)
      modifies this, textures[0], textures[1], textures[2]
      ensures Valid() && initialized == old(initialized) && pipelines == old(pipelines)
      ensures frameWidth == width && frameHeight == height && buffer == buf
      ensures rotation == rot && mirror == mirrored
      ensures trace == old(trace) + SizeEvents(old(initialized), old(frameWidth) != width || old(frameHeight) != height)
      ensures forall i :: 0 <= i < 3 ==> textures[i].mapped == old(textures[i].mapped) || fresh(textures[i].mapped)
      ensures surfaceWidth == old(surfaceWidth) && surfaceHeight == old(surfaceHeight) && params == old(params)
    {
      buffer, rotation, mirror := buf, rot, mirrored;
      if initialized && (frameWidth != width || frameHeight != height) {
        Resize(width, height, rowPitches);
      } else {
        frameWidth, frameHeight := width, height;
      }
    }

    /**
      draw: keep the frame, then rebuild the per-frame resources if the
      renderer is initialised and the size changed; build the pipeline if it
      is not initialised, otherwise re-upload the planes; present.  Afterwards
      the renderer is initialised and its textures hold the frame's planes.
    */
    method Draw(buf: seq<Byte>, width: nat, height: nat, rot: real, mirrored: bool, rowPitches: seq<nat>)
      requires Valid()
      requires |rowPitches| == 3
      requires !initialized || frameWidth != width || frameHeight != height ==>
                 forall i :: 0 <= i < 3 ==> PlaneWidth(TexTypes()[i], width) <= rowPitches[i]
      requires PlanesFit(width, height, |buf|)
      modifies this, textures[0], textures[1], textures[2], textures[0].mapped, textures[1].mapped, textures[2].mapped
      ensures Valid() && initialized && pipelines == 1 && TexturesHold(textures, buffer, frameWidth, frameHeight)
      ensures frameWidth == width && frameHeight == height && buffer == buf
      ensures rotation == rot && mirror == mirrored
      ensures trace == old(trace) + DrawEvents(old(initialized), old(frameWidth) != width || old(frameHeight) != height)
      ensures surfaceWidth == old(surfaceWidth) && surfaceHeight == old(surfaceHeight) && params == old(params)
    {
      SetFrame(buf, width, height, rot, mirrored, rowPitches);
      BuildOrUpload(rowPitches);
    }

    /** The rest of draw: build the pipeline if not initialised, otherwise re-upload the planes; then present. */
    method BuildOrUpload(rowPitches: seq<nat>)
      requires Valid() && PlanesFit(frameWidth, frameHeight, |buffer|)
      requires |rowPitches| == 3
      requires !initialized ==> forall i :: 0 <= i < 3 ==> PlaneWidth(TexTypes()[i], frameWidth) <= rowPitches[i]
      modifies this, textures[0], textures[1], textures[2], textures[0].mapped, textures[1].mapped, textures[2].mapped
      ensures Valid() && initialized && pipelines == 1 && TexturesHold(textures, buffer, frameWidth, frameHeight)
      ensures frameWidth == old(frameWidth) && frameHeight == old(frameHeight) && buffer == old(buffer)
      ensures trace == old(trace) + PresentEvents(old(initialized))
      ensures surfaceWidth == old(surfaceWidth) && surfaceHeight == old(surfaceHeight)
      ensures params == old(params) && rotation == old(rotation) && mirror == old(mirror)
    {
      if !initialized {
        CreateRenderPipeline(rowPitches);
      } else {
        UpdateTextureData();
        trace := trace + [TexturesUpdated];
      }
      if initialized {
        trace := trace + [Presented];
      }
    }
  }
}
