# Camera2GLPreview: a verified model of the frame path

Camera2GLPreview is an Android sample that takes camera frames and draws them
with OpenGL ES or Vulkan. Frames come from the Camera2 API as
`YUV_420_888` images. The Java side packs each image into one `Y|U|V` byte
array and hands it to a native renderer. The renderer copies the three planes
into its own store and uploads them as three textures. A fragment shader
converts them to RGB, optionally through one of thirteen filter shaders.

This project models the sequential logic under the GPU calls:

- **Frame packing** (`FrameCopy`). All three renderer revisions pack a frame's
  Y, U and V sources into one contiguous store. Each plane is one bulk copy
  when the stride equals the plane width, and a row-by-row copy otherwise.
- **The renderers** (`GLRenderer`, `YuvRenderer`, `YuvRender`). These are
  classes over the store, texture ids, dirty and program flags, and a ghost
  trace of GL events (`GlTrace`). Each method is proved against the trace and
  field values the source produces, including when textures are created,
  when uploads happen, when a program is linked or rebound, and when a quad
  is drawn.
- **The filter renderers** (`Filters`): the bank of thirteen shaders, the
  `size_t` conversion of the filter index, and the rule that decides when the
  program is rebuilt.
- **The matrix helpers** (`CommonUtils`): the identity, rotation and aspect
  scale matrices, computed over exact reals.
- **The renderer factory** (`VideoRendererBase`).
- **The Vulkan helpers** (`VkRenderer`):
  - plane offsets and the row-pitch copy into mapped memory;
  - the memory-type search;
  - the queue-family and surface-format searches;
  - the layout-to-access-mask tables;
  - the quad's vertex and index buffers;
  - the decisions `draw` makes.
- **The Java side**:
  - the stride-aware and the plain `YUV_420_888` packers (`Capture`);
  - camera and preview-size selection, plus orientation arithmetic
    (`CameraSelection`, `Controller`, `CameraPreview`, `Camera2Preview`);
  - the filter-index stepping of `GLActivity.onSwipe` (`Activity`).

Calls into GL, Vulkan, JNI and the camera service are not modelled. Their
effects are recorded as ghost events, and their answers come in as
parameters:

- texture and program ids are a `Driver` value;
- the camera list is a sequence of `CameraInfo`;
- the renderer's parameter word is passed in;
- the Vulkan row pitch is passed in.

`wrappers.dfy` holds the `Option` type used for Java `null` and for thrown
exceptions.

## Model

| member | source | states |
|---|---|---|
| FrameCopy.CopyRows | app/src/main/cpp/GLVideoRendererYUV420.cpp:73-81 | the strided row loop as a function of the destination; the destination keeps its length |
| FrameCopy.CopyRowsRow | app/src/main/cpp/GLVideoRendererYUV420.cpp:73-81 | after the loop, row r of the destination (at its stride) holds row r of the source (at the source stride) |
| FrameCopy.CopyRowsOutside | app/src/main/cpp/GLVideoRendererYUV420.cpp:73-81 | the row loop leaves every byte outside the rows it writes unchanged |
| FrameCopy.CopyChroma | app/src/main/cpp/GLVideoRendererYUV420.cpp:88-102 | the interleaved U/V row loop as a function of the destination, which keeps its length |
| FrameCopy.CopyChromaRow | app/src/main/cpp/GLVideoRendererYUV420.cpp:88-102 | when the U rows end before the V rows start, row r of each region holds row r of its own source |
| FrameCopy.CopyChromaOutside | app/src/main/cpp/GLVideoRendererYUV420.cpp:88-102 | the chroma loop leaves every range clear of both its U and its V rows unchanged |
| FrameCopy.ChromaFits | app/src/main/cpp/GLVideoRendererYUV420.cpp:93-98 | the (h/2) strided rows of w/2 bytes never exceed the w*h/4 bytes given to a chroma plane |
| FrameCopy.DrawOffsetsMatchLayout | app/src/main/cpp/GLVideoRendererYUV420.cpp:119-120 | draw's V offset w*h*5/4 equals sizeY + sizeU, where the store's V region starts |
| FrameCopy.PackY | app/src/main/cpp/GLVideoRendererYUV420.cpp:70-82 | the store after the Y copy, bulk or strided; its length is unchanged |
| FrameCopy.PackUV | app/src/main/cpp/GLVideoRendererYUV420.cpp:84-103 | the store after the U and V copies, bulk or strided; its length is unchanged |
| FrameCopy.PackFrame | app/src/main/cpp/GLVideoRendererYUV420.cpp:70-103 | the store updateFrame leaves behind, of the store's length |
| FrameCopy.PackUVKeepsY | app/src/main/cpp/GLVideoRendererYUV420.cpp:84-103 | the chroma copies never touch the Y region (its first w*h bytes) |
| FrameCopy.PackFrameYBulk | app/src/main/cpp/GLVideoRendererYUV420.cpp:70-71 | when stride_y == width, the Y region is the first w*h source bytes, verbatim |
| FrameCopy.PackFrameYRow | app/src/main/cpp/GLVideoRendererYUV420.cpp:72-82 | when stride_y != width, store row r (w bytes at r*w) equals the w source bytes at offY + r*stride_y, for every r < h |
| FrameCopy.PackFrameUVBulk | app/src/main/cpp/GLVideoRendererYUV420.cpp:84-86 | when stride_uv == width/2, the U and V regions are the first w*h/4 bytes of their sources |
| FrameCopy.PackFrameUVRow | app/src/main/cpp/GLVideoRendererYUV420.cpp:87-103 | when stride_uv != width/2, row r < h/2 of each chroma region holds w/2 source bytes from off + r*stride_uv |
| FrameCopy.PackFrameChromaTails | app/src/main/cpp/GLVideoRendererYUV420.cpp:87-103 | the strided chroma copy stays inside its region and leaves each region's bytes past its (h/2)*(w/2) copied bytes as they were |
| FrameCopy.DrawFrameInBounds | app/src/main/cpp/GLVideoRendererYUV420.cpp:113-120 | a buffer of at least w*h*3/2 bytes meets every bound the copy reads with draw's strides and offsets |
| FrameCopy.DrawPacksVerbatim | app/src/main/cpp/GLVideoRendererYUV420.cpp:113-122 | draw's frame always takes the bulk branches: the store becomes the buffer's first sizeY+2*sizeUV bytes, verbatim |
| FrameCopy.MemCpy | app/src/main/cpp/GLVideoRendererYUV420.cpp:71 | memcpy on the array: the n source bytes land at the offset and nothing else changes |
| FrameCopy.CopyRowsLoop | app/src/main/cpp/GLVideoRendererYUV420.cpp:73-81 | the pointer-advancing row loop leaves the array equal to CopyRows of its old contents |
| FrameCopy.CopyChromaLoop | app/src/main/cpp/GLVideoRendererYUV420.cpp:88-102 | the four-pointer chroma loop leaves the array equal to CopyChroma of its old contents |
| FrameCopy.CopyLuma | app/src/main/cpp/GLVideoRendererYUV420.cpp:70-82 | the Y half of the copy leaves the store equal to PackY of its old contents |
| FrameCopy.CopyChromaPlanes | app/src/main/cpp/GLVideoRendererYUV420.cpp:84-103 | the chroma half leaves the store equal to PackUV of its old contents |
| FrameCopy.CopyPlanes | app/src/main/cpp/GLVideoRendererYUV420.cpp:70-103 | the whole copy leaves the store equal to PackFrame of its old contents |
| GlTrace.Zeros | app/src/main/cpp/GLVideoRendererYUV420.cpp:61 | a freshly allocated store has the requested length, all zero |
| GlTrace.GenEvents | app/src/main/cpp/GLVideoRendererYUV420.cpp:133-189 | texture generation stops at the first id 0: one to three generations, all three exactly when the Y and U ids were not 0 |
| GlTrace.DeleteEvents | app/src/main/cpp/GLVideoRendererYUV420.cpp:223-247 | only non-zero ids are deleted, one deletion per non-zero id |
| GlTrace.GenAllEvents | app/src/main/cpp/VideoRenderYUV420.cpp:168-213 | this revision always generates all three textures, whatever ids come back |
| GlTrace.UploadEvents | app/src/main/cpp/GLVideoRendererYUV420.cpp:194-213 | an upload is exactly three texture uploads |
| GlTrace.UploadsReadInside | app/src/main/cpp/GLVideoRendererYUV420.cpp:194-213 | each upload reads at least width*height bytes of its own region, and the Y, U and V regions together are the whole store, in order |
| GLRenderer.GLVideoRendererYUV420.constructor | app/src/main/cpp/GLVideoRendererYUV420.cpp:22-32 | VideoRenderer's defaults with isProgramChanged raised; no store, no textures, no program |
| GLRenderer.GLVideoRendererYUV420.Init | app/src/main/cpp/GLVideoRendererYUV420.cpp:39-43 | only the surface size changes |
| GLRenderer.GLVideoRendererYUV420.Reserve | app/src/main/cpp/GLVideoRendererYUV420.cpp:56-68 | a new zeroed store of sizeY+2*sizeUV bytes, with isProgramChanged raised, exactly when there was none or the size changed; otherwise the old store and flag are kept |
| GLRenderer.GLVideoRendererYUV420.UpdateFrame | app/src/main/cpp/GLVideoRendererYUV420.cpp:55-106 | the store is reserved, then holds PackFrame of the frame; the frame size is recorded and isDirty raised; no GL event |
| GLRenderer.GLVideoRendererYUV420.Draw | app/src/main/cpp/GLVideoRendererYUV420.cpp:108-123 | the store becomes the buffer's leading Y, U and V bytes verbatim; rotation and mirror are recorded and isDirty raised |
| GLRenderer.GLVideoRendererYUV420.SetParameters | app/src/main/cpp/GLVideoRendererYUV420.cpp:125-127 | only the parameter word changes |
| GLRenderer.GLVideoRendererYUV420.GetParameters | app/src/main/cpp/GLVideoRendererYUV420.cpp:129-131 | the stored parameter word is returned |
| GLRenderer.GLVideoRendererYUV420.CreateTextures | app/src/main/cpp/GLVideoRendererYUV420.cpp:133-189 | success exactly when all three ids are non-zero; the ids generated before the first 0 are kept, and the generations are traced |
| GLRenderer.GLVideoRendererYUV420.UpdateTextures | app/src/main/cpp/GLVideoRendererYUV420.cpp:191-221 | textures are created only when all ids are 0; success exactly when a frame is pending and creation, if needed, succeeded; isDirty is cleared exactly on success |
| GLRenderer.GLVideoRendererYUV420.DeleteTextures | app/src/main/cpp/GLVideoRendererYUV420.cpp:223-247 | all ids end at 0 and each non-zero id is deleted once |
| GLRenderer.GLVideoRendererYUV420.CreateProgram | app/src/main/cpp/GLVideoRendererYUV420.cpp:249-268 | the program is whatever create_program returned; texSize is located only for a linked program |
| GLRenderer.GLVideoRendererYUV420.UseProgram | app/src/main/cpp/GLVideoRendererYUV420.cpp:270-310 | a program is created only when there is none; uniforms are bound only while isProgramChanged is set, which is then cleared; the result is 0 without a program |
| GLRenderer.GLVideoRendererYUV420.Render | app/src/main/cpp/GLVideoRendererYUV420.cpp:45-53 | a quad is drawn only when a pending frame was uploaded and a program exists, so there is at most one draw per ingested frame |
| YuvRenderer.ScaleChoice | app/src/main/cpp/VideoRendererYUV420.cpp:332-354 | no scale exactly when a float factor would be infinite or NaN: a zero frame width together with a zero frame height or a zero surface width; every other size, zero heights and single zero widths included, gives the finite scale the float code computes |
| YuvRenderer.ScaleChoiceOneAxis | app/src/main/cpp/VideoRendererYUV420.cpp:331-354 | wherever the factors are finite exactly one axis is scaled: y to backingH/h when h*backingW > backingH*w, else x to backingW/w; the other factor stays 1; both are non-negative, x is 0 exactly for a zero backing width and y exactly for a zero backing height under a frame of positive height on a surface of positive width |
| YuvRenderer.VideoRendererYUV420.constructor | app/src/main/cpp/VideoRendererYUV420.cpp:56-76 | zero rotation and length, no store or textures, isOrientationChanged raised; the sizes, isDirty and isProgramChanged taken as 0 and false, the program as given |
| YuvRenderer.VideoRendererYUV420.Init | app/src/main/cpp/VideoRendererYUV420.cpp:83-87 | only the backing surface size changes |
| YuvRenderer.VideoRendererYUV420.Reserve | app/src/main/cpp/VideoRendererYUV420.cpp:101-113 | a new zeroed store exactly when there was none or the size changed; no flag is raised |
| YuvRenderer.VideoRendererYUV420.UpdateFrame | app/src/main/cpp/VideoRendererYUV420.cpp:99-159 | the store holds PackFrame of the frame, the size is recorded and isDirty raised |
| YuvRenderer.VideoRendererYUV420.Draw | app/src/main/cpp/VideoRendererYUV420.cpp:161-176 | length and rotation are recorded; the store becomes the buffer's leading planes verbatim |
| YuvRenderer.VideoRendererYUV420.CreateTextures | app/src/main/cpp/VideoRendererYUV420.cpp:178-235 | success exactly when all three ids are non-zero; generation stops at the first 0 |
| YuvRenderer.VideoRendererYUV420.UpdateTextures | app/src/main/cpp/VideoRendererYUV420.cpp:237-264 | uploads only a pending frame, clearing isDirty; otherwise returns false and changes no flag |
| YuvRenderer.VideoRendererYUV420.CreateProgram | app/src/main/cpp/VideoRendererYUV420.cpp:296-313 | the program is the id the base shaders linked to |
| YuvRenderer.VideoRendererYUV420.UseProgram | app/src/main/cpp/VideoRendererYUV420.cpp:315-375 | creates a program only when there is none; binds the rotation and scale only while isOrientationChanged is set, then clears it, so a later rotation is never rebound |
| YuvRenderer.VideoRendererYUV420.Render | app/src/main/cpp/VideoRendererYUV420.cpp:89-97 | a quad is drawn only after the upload of a pending frame and with a program |
| YuvRender.VideoRenderYUV420.constructor | app/src/main/cpp/VideoRenderYUV420.cpp:53-72 | program 0, zero sizes, nothing pending, isOrientationChanged raised |
| YuvRender.VideoRenderYUV420.Reserve | app/src/main/cpp/VideoRenderYUV420.cpp:92-104 | a new zeroed store exactly when there was none or the size changed |
| YuvRender.VideoRenderYUV420.UpdateFrame | app/src/main/cpp/VideoRenderYUV420.cpp:90-150 | the store holds PackFrame of the frame and isDataChanged is raised |
| YuvRender.VideoRenderYUV420.Draw | app/src/main/cpp/VideoRenderYUV420.cpp:152-166 | the store becomes the buffer's leading planes verbatim and the length is recorded |
| YuvRender.VideoRenderYUV420.CreateTextures | app/src/main/cpp/VideoRenderYUV420.cpp:168-213 | all three textures are generated and true is returned whatever ids come back |
| YuvRender.VideoRenderYUV420.UpdateTextures | app/src/main/cpp/VideoRenderYUV420.cpp:215-246 | textures are created whenever the Y id is 0; a frame is uploaded only when pending; the flag is always cleared and true always returned |
| YuvRender.VideoRenderYUV420.DeleteTextures | app/src/main/cpp/VideoRenderYUV420.cpp:248-282 | all ids end at 0; a second call adds nothing to the trace |
| YuvRender.VideoRenderYUV420.CreateProgram | app/src/main/cpp/VideoRenderYUV420.cpp:284-310 | the program is whatever create_program returned; a failure is only logged |
| YuvRender.VideoRenderYUV420.UseProgram | app/src/main/cpp/VideoRenderYUV420.cpp:312-356 | creates a program only when there is none; the 90-degree rotation and the texture units are bound once, while isOrientationChanged is set |
| YuvRender.VideoRenderYUV420.Render | app/src/main/cpp/VideoRenderYUV420.cpp:79-88 | draws whenever a program exists, with or without a new frame |
| Filters.SizeT | app/src/main/cpp/GLVideoRendererYUV420Filter.cpp:26-29 | the int to size_t conversion: non-negative values are kept, and negative ones wrap to at least 2^64 - 2^31 |
| Filters.FilterBank | app/src/main/cpp/GLVideoRendererYUV420Filter.cpp:4-19 | the bank holds exactly 13 shaders, shader k at index k, with 0 the base shader |
| Filters.SizeTInBank | app/src/main/cpp/GLVideoRendererYUV420Filter.cpp:26-29 | a converted index is inside the bank exactly when the int was in 0..12, so negative requests always fail the size test |
| Filters.SeenFilterNeverRebuilds | app/src/main/cpp/GLVideoRendererYUV420Filter.cpp:38-48 | rendering again and again with the index last seen never rebuilds |
| Filters.SteadyFilterRebuildsAtMostOnce | app/src/main/cpp/GLVideoRendererYUV420Filter.cpp:38-48 | a run of renders with one index rebuilds once if it is new and in range, and never otherwise |
| Filters.DeleteProgramEvents | app/src/main/cpp/GLUtils.cpp:92-100 | delete_program deletes only when there is a program |
| Filters.RebuildEvents | app/src/main/cpp/GLVideoRendererYUV420Filter.cpp:44-46 | a rebuild ends by linking the vertex shader with the chosen fragment shader, after at most one deletion |
| Filters.GLVideoRendererYUV420Filter.constructor | app/src/main/cpp/GLVideoRendererYUV420Filter.cpp:4-19 | the base renderer's initial state; both indices 0 and no rebuild yet |
| Filters.GLVideoRendererYUV420Filter.ApplyFilter | app/src/main/cpp/GLVideoRendererYUV420Filter.cpp:26-29 | only the converted index is recorded; no rebuild happens |
| Filters.GLVideoRendererYUV420Filter.GetMaxFilter | app/src/main/cpp/GLVideoRendererYUV420Filter.cpp:31-34 | returns the bank size, 13 |
| Filters.GLVideoRendererYUV420Filter.Rebuild | app/src/main/cpp/GLVideoRendererYUV420Filter.cpp:38-48 | the previous index always catches up; the program is rebuilt exactly when the index changed and is inside the bank, so an out-of-range request is absorbed |
| Filters.GLVideoRendererYUV420Filter.Relink | app/src/main/cpp/GLVideoRendererYUV420Filter.cpp:44-46 | isProgramChanged is raised, the old program is deleted, and the program becomes the one linked from bank[filter] |
| Filters.GLVideoRendererYUV420Filter.Render | app/src/main/cpp/GLVideoRendererYUV420Filter.cpp:36-51 | the rebuild rule, then the base render |
| Filters.VideoRendererYUV420Filter.constructor | app/src/main/cpp/VideoRendererYUV420Filter.cpp:4-19 | the base renderer's initial state; both indices 0 |
| Filters.VideoRendererYUV420Filter.ApplyFilter | app/src/main/cpp/VideoRendererYUV420Filter.cpp:26-29 | only the converted index is recorded |
| Filters.VideoRendererYUV420Filter.GetMaxFilter | app/src/main/cpp/VideoRendererYUV420Filter.cpp:31-34 | returns the bank size, 13 |
| Filters.VideoRendererYUV420Filter.Rebuild | app/src/main/cpp/VideoRendererYUV420Filter.cpp:38-48 | a rebuild happens exactly when the index changed and is inside the bank; it raises isProgramChanged, which this base never reads |
| Filters.VideoRendererYUV420Filter.Relink | app/src/main/cpp/VideoRendererYUV420Filter.cpp:44-46 | the old program is deleted and the program becomes the one linked from bank[filter] |
| Filters.VideoRendererYUV420Filter.Render | app/src/main/cpp/VideoRendererYUV420Filter.cpp:36-51 | the rebuild rule, then the base render |
| CommonUtils.Identity | app/src/main/cpp/CommonUtils.cpp:5-10 | a 16-entry matrix |
| CommonUtils.LoadIdentity | app/src/main/cpp/CommonUtils.cpp:5-10 | the array becomes the identity: 1 at entries 0, 5, 10 and 15, 0 elsewhere |
| CommonUtils.RotateMat | app/src/main/cpp/CommonUtils.cpp:12-23 | a 16-entry matrix |
| CommonUtils.LoadRotateMat | app/src/main/cpp/CommonUtils.cpp:12-23 | the array becomes the rotation matrix for the given cosine and sine |
| CommonUtils.RotateMatShape | app/src/main/cpp/CommonUtils.cpp:12-23 | the identity except entries 0, 1, 4 and 5; the rotation block's determinant is c²+s²; angle 0 gives the identity |
| CommonUtils.CRem | app/src/main/cpp/CommonUtils.cpp:30 | C++'s % takes the sign of the dividend and its magnitude is below the divisor |
| CommonUtils.UnrotatedIffMultipleOf180 | app/src/main/cpp/CommonUtils.cpp:30 | the frame is left unswapped exactly when the rotation is a multiple of 180, negative values included |
| CommonUtils.ScaleFactorsOneAxis | app/src/main/cpp/CommonUtils.cpp:27-45 | wherever no division by zero happens, exactly one axis is reduced: x by surfaceAR/frameAR when the rotated frame is wider, else y by frameAR/surfaceAR; both factors lie in [0, 1], x is 0 exactly for a zero surface width and y exactly for a zero rotated frame width |
| CommonUtils.ScaleMat | app/src/main/cpp/CommonUtils.cpp:47-50 | a 16-entry matrix |
| CommonUtils.ScaleMatShape | app/src/main/cpp/CommonUtils.cpp:47-50 | the identity except entries 0 and 5; entry 0 is positive exactly when mirrorX is set and entry 5 exactly when mirrorY is set; their magnitudes are the factors |
| CommonUtils.LoadScaleMat | app/src/main/cpp/CommonUtils.cpp:25-51 | for every size without a division by zero, the array becomes the scale matrix of the factors the aspect rule chooses |
| VideoRendererBase.Create | app/src/main/cpp/VideoRenderer.cpp:21-31 | the filter renderer exactly for tYUV420_FILTER, the Vulkan one exactly for tVK_YUV420, and the plain GL one for every other code |
| VkRenderer.TexTypes | app/src/main/cpp/VKVideoRendererYUV420.cpp:13 | the textures are kept in the order Y, U, V |
| VkRenderer.PlaneFits | app/src/main/cpp/VKVideoRendererYUV420.cpp:1206-1213 | in a buffer holding the frame, each plane's rows read back to back stay inside it |
| VkRenderer.PlanesInsideStore | app/src/main/cpp/VKVideoRendererYUV420.cpp:1187-1204 | U starts at w*h and V at w*h*5/4, where the store's regions start; the planes do not overlap and end inside the w x h store |
| VkRenderer.VulkanTexture.constructor | app/src/main/cpp/VKVideoRendererYUV420.h:119 | a zero-initialised texture |
| VkRenderer.GetBufferOffset | app/src/main/cpp/VKVideoRendererYUV420.cpp:1187-1204 | the texture gets the plane's size, (w, h) for Y and (w/2, h/2) for U and V, and the plane's offset 0, w*h or w*h*5/4 is returned |
| VkRenderer.CopyTextureData | app/src/main/cpp/VKVideoRendererYUV420.cpp:1206-1213 | the mapped memory becomes the row copy at the driver's row pitch from the tightly packed source |
| VkRenderer.TextureRowsLand | app/src/main/cpp/VKVideoRendererYUV420.cpp:1206-1213 | for each row r, mapped[r*rowPitch, +width) equals data[r*width, +width) |
| VkRenderer.UploadPlane | app/src/main/cpp/VKVideoRendererYUV420.cpp:191-197 | after the offset and the copy, the texture holds its plane of the frame |
| VkRenderer.LoadTexture | app/src/main/cpp/VKVideoRendererYUV420.cpp:1216-1284 | a fresh mapping at the given row pitch, sized for and holding the plane |
| VkRenderer.FirstMemoryTypeIsFirst | app/src/main/cpp/VKVideoRendererYUV420.cpp:1172-1184 | the search's answer is the smallest allowed memory type with every required property, and there is none exactly when no type fits |
| VkRenderer.MemoryTypeSearch | app/src/main/cpp/VKVideoRendererYUV420.cpp:1172-1184 | the shifting loop finds exactly the first fitting memory type |
| VkRenderer.MapMemoryTypeToIndex | app/src/main/cpp/VKVideoRendererYUV420.cpp:932-949 | true exactly when some type fits; the index then becomes the first fitting type, and otherwise it is untouched |
| VkRenderer.AllocateMemoryTypeFromProperties | app/src/main/cpp/VKVideoRendererYUV420.cpp:1168-1185 | VK_SUCCESS exactly when some type fits, with the first fitting index; otherwise VK_ERROR_MEMORY_MAP_FAILED with the index untouched |
| VkRenderer.FindGraphicsQueueFamily | app/src/main/cpp/VKVideoRendererYUV420.cpp:269-278 | the first family with the graphics bit, or the family count when there is none |
| VkRenderer.ChooseSurfaceFormat | app/src/main/cpp/VKVideoRendererYUV420.cpp:328-335 | the first R8G8B8A8_UNORM format, or the count when there is none |
| VkRenderer.FirstGraphicsFamily | app/src/main/cpp/VKVideoRendererYUV420.cpp:269-276 | the first family with the graphics bit, as a function |
| VkRenderer.CreateDeviceQueuesAsWritten | app/src/main/cpp/VKVideoRendererYUV420.cpp:283-306 | as written: the device is created with the graphics family, but the queue is fetched from family 0 |
| VkRenderer.AsWrittenFetchesUnrequestedFamily | app/src/main/cpp/VKVideoRendererYUV420.cpp:306 | whenever the graphics family is not 0, the queue comes from a family the device was not created with |
| VkRenderer.AsWrittenCounterexample | app/src/main/cpp/VKVideoRendererYUV420.cpp:306 | families [compute, graphics]: created with family 1, queue fetched from 0 |
| VkRenderer.CreateDeviceQueues | app/src/main/cpp/VKVideoRendererYUV420.cpp:283-306 | corrected: the queue comes from the family the device was created with, the first graphics family |
| VkRenderer.SrcAccessMask | app/src/main/cpp/VKVideoRendererYUV420.cpp:478-493 | only write accesses, and none exactly when the old layout is not a colour attachment, transfer destination or preinitialized layout |
| VkRenderer.DstAccessMask | app/src/main/cpp/VKVideoRendererYUV420.cpp:495-519 | at most one access bit, none exactly for the layouts without an entry; the access is a read exactly for TRANSFER_SRC and SHADER_READ_ONLY |
| VkRenderer.SetImageLayout | app/src/main/cpp/VKVideoRendererYUV420.cpp:454-523 | the barrier carries both layouts and the two table masks |
| VkRenderer.TextureTransitions | app/src/main/cpp/VKVideoRendererYUV420.cpp:1319-1322 | a preinitialized texture made shader-readable waits for host writes and holds back shader reads; an undefined one waits for nothing |
| VkRenderer.Vertices | app/src/main/cpp/VKVideoRendererYUV420.cpp:1085-1090 | four corners of the 2 x 2 quad at z 0, each with texture coordinates (x+1)/2 and (y+1)/2 |
| VkRenderer.Indices | app/src/main/cpp/VKVideoRendererYUV420.cpp:1118-1125 | the indices 0, 1, 2, 2, 3, 0: six of them, every one below the vertex count, and every vertex used |
| VkRenderer.QuadTrianglesAgree | app/src/main/cpp/VKVideoRendererYUV420.cpp:1085-1125 | both triangles wind counter-clockwise and each covers half of the quad |
| VkRenderer.DrawEvents | app/src/main/cpp/VKVideoRendererYUV420.cpp:105-137 | every draw ends by presenting |
| VkRenderer.DrawDecisions | app/src/main/cpp/VKVideoRendererYUV420.cpp:105-137 | textures are torn down exactly when initialised and the size changed; the pipeline is built exactly when not initialised; otherwise the textures are re-uploaded |
| VkRenderer.VKVideoRendererYUV420.constructor | app/src/main/cpp/VKVideoRendererYUV420.cpp:12-17 | not initialised, no buffer, no indices, VideoRenderer's defaults |
| VkRenderer.VKVideoRendererYUV420.Init | app/src/main/cpp/VKVideoRendererYUV420.cpp:48-67 | the surface size is stored, then the device and the swap chain are created |
| VkRenderer.VKVideoRendererYUV420.SetParameters | app/src/main/cpp/VKVideoRendererYUV420.cpp:139-141 | only the parameter word changes |
| VkRenderer.VKVideoRendererYUV420.GetParameters | app/src/main/cpp/VKVideoRendererYUV420.cpp:143-145 | the stored parameter word is returned |
| VkRenderer.VKVideoRendererYUV420.IsInitialized | app/src/main/cpp/VKVideoRendererYUV420.cpp:1161-1163 | the initialised flag |
| VkRenderer.VKVideoRendererYUV420.CreateTextures | app/src/main/cpp/VKVideoRendererYUV420.cpp:147-189 | three distinct fresh textures, each sized for and holding its plane of the current frame |
| VkRenderer.VKVideoRendererYUV420.UpdateTextureData | app/src/main/cpp/VKVideoRendererYUV420.cpp:191-197 | the existing textures now hold the planes of the current frame |
| VkRenderer.VKVideoRendererYUV420.CreateRenderPipeline | app/src/main/cpp/VKVideoRendererYUV420.cpp:34-46 | the only way to become initialised; the textures hold the frame |
| VkRenderer.VKVideoRendererYUV420.Resize | app/src/main/cpp/VKVideoRendererYUV420.cpp:111-122 | the new size is stored and the per-frame resources are recreated, with fresh textures |
| VkRenderer.VKVideoRendererYUV420.SetFrame | app/src/main/cpp/VKVideoRendererYUV420.cpp:105-126 | the buffer, rotation, mirror and size are always stored; resources are resized only when initialised and the size changed |
| VkRenderer.VKVideoRendererYUV420.Draw | app/src/main/cpp/VKVideoRendererYUV420.cpp:105-137 | afterwards the renderer is initialised, the pipeline has been built once in all, and the textures hold the new frame; the trace follows DrawEvents |
| VkRenderer.VKVideoRendererYUV420.BuildOrUpload | app/src/main/cpp/VKVideoRendererYUV420.cpp:128-136 | builds the pipeline when not initialised, otherwise re-uploads; then presents |
| Capture.Zeros | app/src/main/java/com/media/camera/preview/capture/VideoCapture.java:38-39 | a new byte array has the requested length, all zero |
| Capture.Gather | app/src/main/java/com/media/camera/preview/capture/VideoCapture.java:59-61 | the column loop yields planeWidth bytes |
| Capture.FullRows | app/src/main/java/com/media/camera/preview/capture/VideoCapture.java:57-62 | the full-row loop keeps the position inside the buffer and the row array at rowStride bytes |
| Capture.FullRowsShape | app/src/main/java/com/media/camera/preview/capture/VideoCapture.java:57-62 | after k full rows, the position has advanced k strides, k*planeWidth bytes were appended, and the row array holds the last stride read |
| Capture.FullRowsRow | app/src/main/java/com/media/camera/preview/capture/VideoCapture.java:57-62 | full row i lands at output row i: the gather of the rowStride bytes at buffer row i |
| Capture.FullRowsSucceed | app/src/main/java/com/media/camera/preview/capture/VideoCapture.java:57-62 | the full rows succeed exactly when every column lies inside a row and the buffer holds all k strides |
| Capture.StridedPlaneSucceeds | app/src/main/java/com/media/camera/preview/capture/VideoCapture.java:56-69 | the slow path succeeds exactly when its columns fit a row and the buffer holds the full rows |
| Capture.StridedPlaneLength | app/src/main/java/com/media/camera/preview/capture/VideoCapture.java:56-69 | the slow path writes (max(planeHeight-1, 0) + 1)*planeWidth bytes, which is planeWidth*planeHeight for a non-empty plane |
| Capture.StridedPlanePixel | app/src/main/java/com/media/camera/preview/capture/VideoCapture.java:56-69 | output byte (row, col) is the buffer byte at row*rowStride + col*pixelStride whenever the buffer has it |
| Capture.FullRowPixel | app/src/main/java/com/media/camera/preview/capture/VideoCapture.java:57-62 | the same for a full row, where the buffer always has the byte |
| Capture.LastRowPixel | app/src/main/java/com/media/camera/preview/capture/VideoCapture.java:66-69 | the same for the last row, which reads only min(rowStride, remaining) bytes |
| Capture.StridedPlaneStaleTail | app/src/main/java/com/media/camera/preview/capture/VideoCapture.java:66-69 | a last-row column past the buffer's end repeats the same column of the previous row read, or is 0 when there was none |
| Capture.FullRowsVerbatim | app/src/main/java/com/media/camera/preview/capture/VideoCapture.java:57-62 | with no padding, the full rows copy the buffer verbatim |
| Capture.WholePlaneShortcut | app/src/main/java/com/media/camera/preview/capture/VideoCapture.java:50-53 | for a tightly packed, non-empty plane the slow path would write exactly what the bulk get writes |
| Capture.WrittenPrefix | app/src/main/java/com/media/camera/preview/capture/VideoCapture.java:42-71 | once some planes are written, every shorter prefix of them was written too, and is no longer |
| Capture.FailureSticks | app/src/main/java/com/media/camera/preview/capture/VideoCapture.java:42-71 | a plane that throws, or bytes past the array's end, make the whole packer throw |
| Capture.PlanesFitData | app/src/main/java/com/media/camera/preview/capture/VideoCapture.java:38-39 | w*h + 2*(w/2)*(h/2) never exceeds the w*h*12/8 array |
| Capture.ImageLayout | app/src/main/java/com/media/camera/preview/capture/VideoCapture.java:42-71 | when every plane succeeds, the result is Y, then U, then V back to back, each planeWidth*planeHeight bytes, padded with zeros to the array's length |
| Capture.PackersAgree | app/src/main/java/com/media/camera/preview/capture/VideoCapture.java:50-53 | for even sizes and tightly packed planes this packer gives the plain concatenation of the other revision |
| Capture.WriteColumns | app/src/main/java/com/media/camera/preview/capture/VideoCapture.java:59-61 | succeeds exactly when every column and destination byte is inside its array; then writes the gathered row at the offset |
| Capture.CopyFullRows | app/src/main/java/com/media/camera/preview/capture/VideoCapture.java:57-62 | the loop writes exactly what FullRows describes, or reports the exception FullRows predicts |
| Capture.CopyStridedPlane | app/src/main/java/com/media/camera/preview/capture/VideoCapture.java:56-69 | writes the StridedPlane bytes at the offset, or fails exactly when they do not exist or do not fit |
| Capture.CopyPlane | app/src/main/java/com/media/camera/preview/capture/VideoCapture.java:50-69 | writes the PlaneBytes bytes at the offset, or fails exactly when they do not exist or do not fit |
| Capture.PackPlane | app/src/main/java/com/media/camera/preview/capture/VideoCapture.java:43-70 | one plane turn extends the bytes written so far by the plane's bytes, or the whole packer throws |
| Capture.YUV420888Data | app/src/main/java/com/media/camera/preview/capture/VideoCapture.java:34-74 | the array returned is PackedImage of the planes, or None when the Java code throws |
| Capture.ConcatenatedData | app/src/main/java/com/media/camera2glpreview/capture/VideoCapture.java:33-49 | the result has length ySize+uSize+vSize and holds Y, U and V verbatim in that order |
| CameraSelection.Orientations | app/src/main/java/com/media/camera/preview/controller/CameraController.java:44-49 | the table answers 0, 90, 180 or 270 |
| CameraSelection.Orientation | app/src/main/java/com/media/camera/preview/controller/CameraController.java:341-344 | Java's remainder lies in (-360, 360) and is in [0, 360) when the sum is non-negative |
| CameraSelection.OrientationSteps | app/src/main/java/com/media/camera/preview/controller/CameraController.java:341-344 | for a non-negative sensor angle that is a multiple of 90, the result is 0, 90, 180 or 270, and each step of the display rotation turns it back by 90 |
| CameraSelection.UnmountedSensorOrientation | app/src/main/java/com/media/camera2glpreview/capture/VideoCameraPreview.java:83-85 | with sensor 0, rotation r in 0..3 gives (360 - 90r) % 360 |
| CameraSelection.Opposite | app/src/main/java/com/media/camera/preview/controller/CameraController.java:116-119 | front is requested exactly when the current facing is not front, and back exactly when it is |
| CameraSelection.ScanFromIsFirstNearest | app/src/main/java/com/media/camera/preview/controller/CameraController.java:295-303 | the size loop keeps the first closest kept size of the prefix it has seen |
| CameraSelection.NearestIsFirstNearest | app/src/main/java/com/media/camera/preview/controller/CameraController.java:295-303 | a pass picks nothing exactly when no size passes its test; otherwise it picks the first size with minimal height distance |
| CameraSelection.OptimalPreviewSizeChoice | app/src/main/java/com/media/camera/preview/controller/CameraController.java:279-316 | null gives null; a non-empty list gives one of its members; with an aspect match it is the first closest matching size, and otherwise the first closest size of all |
| CameraSelection.NearestSize | app/src/main/java/com/media/camera/preview/controller/CameraController.java:295-303 | one pass gives the size at the index Nearest picks, with minDiff its height distance, or neither |
| CameraSelection.ChoosePreviewSize | app/src/main/java/com/media/camera/preview/controller/CameraController.java:279-316 | the two passes together return OptimalPreviewSize |
| CameraSelection.LastNonFront | app/src/main/java/com/media/camera/preview/capture/VideoCameraPreview.java:263-277 | the index, if any, is a camera before n that does not face front |
| CameraSelection.LastNonFrontWithSizes | app/src/main/java/com/media/camera/preview/capture/VideoCameraPreview.java:263-277 | the index, if any, is a non-front camera before n with a configuration map |
| CameraSelection.LastNonFrontIsLast | app/src/main/java/com/media/camera/preview/capture/VideoCameraPreview.java:263-277 | the camera chosen is non-front and every later camera faces front; there is none exactly when all face front |
| CameraSelection.LastNonFrontWithSizesIsLast | app/src/main/java/com/media/camera/preview/capture/VideoCameraPreview.java:263-277 | the same for the last non-front camera with a configuration map |
| CameraSelection.FirstFacing | app/src/main/java/com/media/camera/preview/controller/CameraController.java:321-335 | the index, if any, is a camera from i on with the requested facing |
| CameraSelection.FirstFacingIsFirst | app/src/main/java/com/media/camera/preview/controller/CameraController.java:321-335 | it is the first such camera, and there is none exactly when no camera has that facing |
| Controller.SetupCameraPicksFirst | app/src/main/java/com/media/camera/preview/controller/CameraController.java:318-339 | the first camera with the facing gives its id, facing and sensor orientation; without one nothing changes |
| Controller.ThrowsOnNullFacingIsFirstNull | app/src/main/java/com/media/camera/preview/controller/CameraController.java:320-339 | setupCameraId throws exactly when some camera without a facing comes before every camera with the requested facing; such a camera after the first match is never looked at |
| Controller.SwitchTogglesMirroring | app/src/main/java/com/media/camera/preview/controller/CameraController.java:115-125 | when a camera has the opposite facing, the mirroring flips, and switching twice between front and back returns to the first facing |
| Controller.CameraController.constructor | app/src/main/java/com/media/camera/preview/controller/CameraController.java:57-72 | an empty size list, no camera and no preview size |
| Controller.CameraController.GetOptimalPreviewSize | app/src/main/java/com/media/camera/preview/controller/CameraController.java:279-316 | the size returned is OptimalPreviewSize of the current list for the view |
| Controller.CameraController.SetupCameraId | app/src/main/java/com/media/camera/preview/controller/CameraController.java:318-339 | throws exactly when a camera without a facing comes before the first match, and then writes nothing; otherwise the loop with its break leaves the selection SetupCamera describes; nothing else changes |
| Controller.CameraController.Initialize | app/src/main/java/com/media/camera/preview/controller/CameraController.java:83-92 | the view is remembered; then either setupCameraId throws and nothing else happens, or the front camera is selected, the optimal size chosen and the camera opened |
| Controller.CameraController.ChangeSize | app/src/main/java/com/media/camera/preview/controller/CameraController.java:107-113 | the size is taken and the camera is closed and reopened with its thread |
| Controller.CameraController.SwitchCamera | app/src/main/java/com/media/camera/preview/controller/CameraController.java:115-125 | the camera is stopped; then either setupCameraId throws for the opposite facing and nothing else happens, or that facing is selected, the size chosen again for the remembered view, and the camera reopened and restarted |
| Controller.CameraController.GetOrientation | app/src/main/java/com/media/camera/preview/controller/CameraController.java:341-344 | the orientation of the chosen sensor for the display rotation |
| Controller.CameraController.IsMirrored | app/src/main/java/com/media/camera/preview/controller/CameraController.java:346-348 | true exactly when the chosen lens faces front |
| Controller.CameraController.OnPreviewFrame | app/src/main/java/com/media/camera/preview/controller/CameraController.java:75-77 | the caller's bytes and size go to the renderer unchanged, with the current orientation and mirroring; no field changes |
| CameraPreview.VideoCameraPreview.constructor | app/src/main/java/com/media/camera/preview/capture/VideoCameraPreview.java:45-52 | an empty size list, no camera and no preview size |
| CameraPreview.VideoCameraPreview.ScanCameras | app/src/main/java/com/media/camera/preview/capture/VideoCameraPreview.java:263-277 | the id and sensor angle are those of the last non-front camera; the sizes are those of the last non-front camera with a map, else unchanged |
| CameraPreview.VideoCameraPreview.GetOptimalPreviewSize | app/src/main/java/com/media/camera/preview/capture/VideoCameraPreview.java:260-319 | the scan leaves the id and sensor orientation of the last camera not facing front and the sizes of the last such camera with a map (each unchanged without one); the result is OptimalPreviewSize over those sizes |
| CameraPreview.VideoCameraPreview.Init | app/src/main/java/com/media/camera/preview/capture/VideoCameraPreview.java:63-65 | the preview size is the optimal size for the view, and the id, sensor orientation and sizes are those the scan picks, the id being the one openCamera later opens |
| CameraPreview.VideoCameraPreview.ChangeSize | app/src/main/java/com/media/camera/preview/capture/VideoCameraPreview.java:103-108 | the size is taken and the camera is stopped and started |
| Camera2Preview.VideoCameraPreview.constructor | app/src/main/java/com/media/camera2glpreview/capture/VideoCameraPreview.java:47 | no camera id; the sensor angle keeps the field default 0 |
| Camera2Preview.VideoCameraPreview.GetOrientation | app/src/main/java/com/media/camera2glpreview/capture/VideoCameraPreview.java:83-85 | the orientation with sensor angle 0, which is (360 - 90r) % 360 for r in 0..3 |
| Camera2Preview.VideoCameraPreview.OpenCamera | app/src/main/java/com/media/camera2glpreview/capture/VideoCameraPreview.java:90-120 | without permission nothing happens; otherwise the last non-front camera id is opened |
| Activity.WithFilter | app/src/main/java/com/media/camera/preview/activity/GLActivity.java:130 | the low nibble becomes the filter index and bits 4..31 are kept |
| Activity.MaxFilter | app/src/main/java/com/media/camera/preview/activity/GLActivity.java:139 | bits 4..7 of the word, a value in 0..15 |
| Activity.SwipeInRange | app/src/main/java/com/media/camera/preview/activity/GLActivity.java:140-144 | a swipe keeps the index in 0..14 and moves it by at most one |
| Activity.SwipeWrites | app/src/main/java/com/media/camera/preview/activity/GLActivity.java:127-145 | a word sent to the renderer is the new mParams; its low nibble is the new index, and its upper bits come from the old mParams (right) or the renderer's word (left) |
| Activity.SwipeSteps | app/src/main/java/com/media/camera/preview/activity/GLActivity.java:122-145 | right steps down from a positive index, and opens the Vulkan activity at 0; left steps up only below maxFilter - 1; up and down change nothing |
| Activity.RightUndoesLeft | app/src/main/java/com/media/camera/preview/activity/GLActivity.java:127-145 | a left swipe that stepped up is undone by a right swipe |
| Activity.Swipes | app/src/main/java/com/media/camera/preview/activity/GLActivity.java:118-149 | any run of swipes keeps the index in 0..14 |
| Activity.GLActivity.constructor | app/src/main/java/com/media/camera/preview/activity/GLActivity.java:31 | mFilter starts at 0, and mParams at the int default 0 |
| Activity.GLActivity.OnSwipe | app/src/main/java/com/media/camera/preview/activity/GLActivity.java:118-149 | the fields take one step of Swipe, and its request to the UI or renderer is recorded |

## Left out

- The pixel data packed by the three renderers is bytes (`Byte` = 0..255);
  pointers are offsets into one source sequence, as the three `video_frame`
  planes can come from one buffer.
- FrameCopy.Fits over-requires zero-byte copies: a copy of 0 bytes at an
  offset past the end is excluded. No caller makes one.
- FrameCopy.SourceInBounds: the source never checks `length` or the source
  planes' sizes; the model requires every byte the copy reads to exist.
- The `GLsizei`/`int` casts of sizes, and `glPixelStorei` unpack alignment,
  are not modelled.
- Float arithmetic is modelled over exact reals, so rounding is not captured.
- CommonUtils.LoadScaleMat: requires a positive surface height and rotated
  frame height, and a positive surface or rotated frame width. Outside that
  the float code divides by zero, giving an infinity or NaN, which the real
  model does not represent.
- YuvRenderer.ScaleChoice: returns None for a zero frame width with a zero
  frame height or a zero surface width, where a float factor is infinite or
  NaN; the uniform the source binds then is not modelled.
- YuvRenderer.VideoRendererYUV420.constructor: no constructor of this
  revision initialises `m_width`, `m_height`, `m_backingWidth`,
  `m_backingHeight`, `isDirty` or `isProgramChanged`; the model takes them as
  0 and false, as in a zero-initialised object, and takes `m_program` as a
  parameter.
- The rotation angle's `sinf`/`cosf` come in as parameters (`c`, `s`).
- The renderers' destructors are not modelled. In VideoRendererYUV420.cpp,
  `deleteTextures` is only called by the destructor, so it is left out too.
- `m_sizeY`, `m_sizeU` and `m_sizeV` are derived from the frame size instead
  of being stored.
- The GL driver's answers (texture ids, program id, uniform location) are one
  `Driver` value per call. Driver state, such as ids becoming stale, is not
  modelled.
- Headers and bodies come from different revisions. Each `.cpp` body is
  modelled as written. VideoRendererYUV420Filter.cpp calls
  `createProgram(vertex, fragment)`, which VideoRendererYUV420.cpp does not
  define; it is modelled as linking those two shaders.
- `tVK_YUV420` is not defined in any header (VideoRenderer.h:9 has only
  `tYUV420` and `tYUV420_FILTER`); it is taken as 2.
- VkRenderer: `size_t` offsets are unbounded integers, because 64-bit
  overflow cannot happen for frame sizes.
- The factory defaults in VideoRender.cpp (a separate revision) are not part
  of this model.
- Pointer ownership (`unique_ptr` and aliasing of the caller's buffer) is not
  modelled; a frame buffer is a value.
- The Vulkan bootstrap is not modelled: instance, device, swap chain, render
  pass, pipeline, descriptors, command buffers.
  - Its calls are trace events.
  - `CALL_VK` aborts are not modelled.
- The JNI glue, the native-context storage, the UI and the GLSL sources are
  not part of this model.
- VkRenderer.LoadTexture: only the linear, host-visible path is modelled; the
  staging and blit path is not.
- VkRenderer: the driver's row pitches come in as parameters.
- VkRenderer: `render`, present and `updateUniformBuffers` are events only.
- VkRenderer.FindGraphicsQueueFamily: the `assert` that a family was found is
  modelled as returning the count; the same holds for
  VkRenderer.ChooseSurfaceFormat.
- VkRenderer: the memory-type table is taken to have its full 32 entries;
  `memoryTypeCount` is not modelled.
- Capture: Java `int` overflow is not modelled, for `w*h*12` or
  `col*pixelStride`.
- CameraSelection: the size choice measures `Math.abs(size.getHeight() - h)`
  on unbounded integers; Java's `int` subtraction can wrap, and
  `Math.abs(Integer.MIN_VALUE)` stays negative, neither of which is modelled.
- The 0.1 aspect tolerance on doubles is the parameter `inTolerance`.
- Camera sessions, background threads, semaphores and the `tryAcquire`
  timeout are not modelled; neither is `CameraAccessException`.
- Controller.CameraController.GetOrientation: requires a sensor orientation,
  because unboxing a null one throws. The same holds for IsMirrored and
  SwitchCamera (on `mFacing`) and for OnPreviewFrame.
- Capture.StridedPlane models planes of height 0 as written: the last-row
  copy still runs once.
- Capture.StridedPlaneStaleTail: bytes of a short last row are repeated from
  the previous row read, as written.
- GLActivity.java is from a different revision than its layout. It refers to
  `mPreview`, and to a `drawVideoFrame` signature that is not modelled. The
  answer of `getVideoParameters` is a parameter.
- `getOutputSizes` and the trivial getters and setters of the Java classes
  are not modelled.
- camera2glpreview VideoCameraPreview's `surfaceChanged` and `ImageReader`
  setup are not modelled.
- CameraSelection.ChoosePreviewSize: the fallback pass in CameraController
  starts from the `minDiff` left by the first pass, while VideoCameraPreview
  resets it. When the first pass chose nothing, `minDiff` is still
  `Double.MAX_VALUE`, so both revisions share one model.

## Findings

| source | as written | input that shows it | evidently intended | confidence | as-written member | corrected member |
|---|---|---|---|---|---|---|
| app/src/main/cpp/VKVideoRendererYUV420.cpp:306 | the device is created with the first graphics queue family, but `vkGetDeviceQueue` fetches queue 0 of family 0 | queue family flags [0x2, 0x1]: device created with family 1, queue fetched from family 0 | fetch the queue from the family the device was created with | not executed | VkRenderer.CreateDeviceQueuesAsWritten | VkRenderer.CreateDeviceQueues |
