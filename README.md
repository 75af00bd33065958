# A verified model of a Vulkan renderer's sequential core

The renderer draws a glTF scene (Sponza) with Vulkan. Most of its code hands constant
structures to the driver. This project models the sequential logic underneath:

- **Frame slots.** The orchestrator keeps two slots. Each has a fence, a command buffer and
  two semaphores. `prepareFrame` waits on the current slot, acquires an image, may rebuild
  the swapchain, and starts recording. `endFrame` submits, presents, may rebuild, and
  rotates to the next slot (`Frames`).
- **The swapchain.** Format, present-mode, extent and image-count selection, and the
  create / framebuffers / destroy / recreate lifecycle (`Swapchains`).
- **Scene flattening.** glTF nodes and primitives become one vertex list, one index list
  rebased per primitive, and `(firstIndex, indexCount, materialIndex)` records. Also the
  sampler, texture and material tables (`Models`).
- **Descriptor sets.** A builder accumulates bindings and pool sizes, makes `maxSets` set
  instances, and issues indexed or broadcast writes (`DescriptorSets`).
- **The application.** It sets up the two descriptor sets, writes the per-slot uniforms
  and records one frame's commands (`App`).
- **Device selection.** The queue-family scan, the extension check, the first-supported
  format search, suitability, and unique queue create-infos (`Devices`).
- **Images.** The layout-transition table, and the null-handle guard on view creation
  (`Images`).
- **Helpers.** Validation-layer coverage, stencil detection and `vectorsizeof` (`Utils`).

How the world outside the core is represented:

- **Vulkan handles** are opaque ids, where 0 is the null handle, or values that name what
  they were built from. For example, `ViewOf(image, format, aspect)` is a view and
  `SetHandle(pool, layout, index)` is a descriptor set.
- **Inputs become parameters.** That covers what the driver, the allocator, GLFW and
  tinygltf report: surface queries, acquire and present results, allocations, the
  framebuffer size and the parsed document.
- **GPU completion** is an explicit step (`Renderer.GpuComplete`). A fence is a signaled
  flag per slot, and a command buffer is a lifecycle state plus the commands recorded
  into it.
- **Stateful objects are classes.** The renderer, swapchain, image, descriptor-set
  builder, model, device, camera and application have fields their methods update. Each
  operation is proved equal to a pure function of the old state (`State() ==
  Prepared(old(State()), …)`). The promised properties are then proved about those
  functions.
- **C++ integers.** `uint32_t` arithmetic is modelled as it wraps (`Vk.ToU32`).

## Model

| member | source | states |
|---|---|---|
| Vk.ToU32 | src/framework/model/Model.cpp:162-163 | A `static_cast<uint32_t>`: values below 2^32 are kept, and in general the result is congruent to the input modulo 2^32 |
| Utils.CheckValidationLayerSupport | src/framework/utils/Utils.cpp:25-46 | True exactly when every requested layer name equals some available layer name; true for an empty request; false at the first missing layer |
| Utils.DepthCandidatesStencil | src/framework/utils/Utils.cpp:48-51 | Only D32SfloatS8Uint and D24UnormS8Uint have a stencil component; D32Sfloat has none |
| Utils.VectorSizeOf | src/framework/utils/Utils.h:16 | Element size times count when that is below 2^32; otherwise the product reduced modulo 2^32 |
| Devices.LastGraphics | src/framework/Device.cpp:142-163 | The graphics index the scan holds after n families: a graphics-capable index with none after it; None exactly when no family before n has the graphics bit |
| Devices.LastPresent | src/framework/Device.cpp:142-163 | The same for present support |
| Devices.StopFrom | src/framework/Device.cpp:142-163 | Where the scan stops: after the first family at which both indices are set, or at the end of the list; no earlier prefix is complete |
| Devices.FindQueueFamilies | src/framework/Device.cpp:142-163 | The loop with early break computes the scan's specification; each found index is in range and has its capability |
| Devices.ScanStopsAtFirstComplete | src/framework/Device.cpp:142-163 | The scan ends at the first index where both families are known, or at the end |
| Devices.ScanKeepsLastGraphics | src/framework/Device.cpp:142-163 | A found graphics family is the last graphics-capable index the scan looked at |
| Devices.ScanCompleteIff | src/framework/utils/VulkanStructs.h:18-21 | After the scan, `isComplete` holds exactly when some family has graphics and some family can present; stopping early never loses one |
| Devices.CheckExtensionSupport | src/framework/Device.cpp:119-128 | Erasing the available names from the required set leaves it empty exactly when every required extension is available |
| Devices.FirstSupportedFrom | src/framework/Device.cpp:35-51 | The first candidate at or after `from` whose features for the tiling include all requested bits; no earlier candidate qualifies |
| Devices.FindSupportedFormat | src/framework/Device.cpp:35-51 | The first qualifying candidate in order when there is one; otherwise the default (undefined) format |
| Devices.FindDepthFormat | src/framework/Device.cpp:28-33 | D32Sfloat, else D32SfloatS8Uint, else D24UnormS8Uint, each under optimal tiling with the depth-stencil attachment feature; undefined when none qualifies |
| Devices.SuitableIff | src/framework/Device.cpp:110-117 | Suitable exactly when all hold: some graphics family, some present family, the swapchain extension, a surface format, a present mode, and anisotropy |
| Devices.CheckDeviceSuitable | src/framework/Device.cpp:110-117 | The instance-side check answers exactly the suitability predicate |
| Devices.QueueCreateInfos | src/framework/Device.cpp:83-92 | One create-info per distinct family, so one when graphics equals present and two otherwise; ascending order; each with one queue and priority 1.0; the families are exactly {graphics, present} |
| Devices.Device.constructor | src/framework/Device.h:50 | No GPU chosen yet |
| Devices.Device.PickPhysicalDevice | src/framework/Device.cpp:53-76 | The first suitable device is chosen and nothing critical is logged. If none is suitable, the GPU is unchanged, and a critical message is logged exactly when the list is empty or no GPU was chosen before |
| Images.AspectMask | src/framework/image/Image.cpp:71-86 | Color exactly for a non-depth target layout; Depth exactly for a depth layout; Stencil exactly for a depth layout whose format has a stencil component |
| Images.TransitionBarrier | src/framework/image/Image.cpp:62-132 | A barrier exists exactly for the four known (old, new) pairs and carries them, with the aspect mask above. Source access is empty, and the source stage is top-of-pipe, exactly when coming from Undefined. Depth targets wait at early fragment tests with depth read access. Write access is given exactly for DepthStencilAttachmentOptimal |
| Images.UploadTransitionsChain | src/framework/image/Image.cpp:88-103 | Both texture upload steps are supported. The second waits on exactly the access and stage the first makes visible, and both are color |
| Images.TransitionTable | src/framework/image/Image.cpp:88-119 | The access masks and stages of each of the four rows |
| Images.ViewAfterCreate | src/framework/image/Image.cpp:37-60 | A null handle keeps the old view; otherwise the view is of that image, with the given format and aspect |
| Images.Image.constructor | src/framework/image/Image.h:31-34 | Null handle, no view, tracked layout Undefined |
| Images.Image.SetHandle | src/framework/image/Image.h:17 | The handle becomes the given one |
| Images.Image.SetView | src/framework/image/Image.h:18 | The view becomes the given one |
| Images.Image.Create | src/framework/image/Image.cpp:11-35 | The extent handed to the allocator is the given one; the image stores none of its own (ghost). The handle is what the allocator returned, null on failure, and the error flag is set exactly on failure |
| Images.Image.CreateView | src/framework/image/Image.cpp:37-60 | The new view is `ViewAfterCreate` of the old one; an error is logged exactly on a null handle |
| Images.Image.TransitionLayout | src/framework/image/Image.cpp:62-132 | Records the table's barrier. The tracked layout becomes the new layout exactly when the pair is supported and is unchanged otherwise |
| Swapchains.ChooseSurfaceFormat | src/framework/swapchain/Swapchain.cpp:117-127 | B8G8R8A8Srgb/SrgbNonlinear when offered, otherwise the first entry; always an offered format |
| Swapchains.ChoosePresentMode | src/framework/swapchain/Swapchain.cpp:129-138 | Mailbox if it appears anywhere in the list, otherwise Fifo |
| Swapchains.Clamp | src/framework/swapchain/Swapchain.cpp:140-160 | The result lies within [lo, hi]: the value itself when inside, otherwise the nearer bound |
| Swapchains.ChooseExtent | src/framework/swapchain/Swapchain.cpp:140-160 | Without the UINT32_MAX sentinel, the current extent unchanged. With it, each dimension lies within the surface bounds: the window size when inside them, otherwise the bound it crosses |
| Swapchains.ImageCount | src/framework/swapchain/Swapchain.cpp:25-27 | minImageCount + 1, lowered to maxImageCount only when that is non-zero and exceeded, so never above a non-zero maximum. It wraps to 0 when minImageCount is UINT32_MAX |
| Swapchains.SharingFor | src/framework/swapchain/Swapchain.cpp:37-46 | Exclusive exactly when the graphics and present families are equal; otherwise concurrent over the two distinct indices |
| Swapchains.AcquiredImage | src/framework/swapchain/Swapchain.cpp:60-64 | The swapchain image takes the driver handle and gets a color view in the swapchain format; on a null handle it keeps its old view |
| Swapchains.FirstNonZeroFrom | src/framework/swapchain/Swapchain.cpp:85-91 | The first framebuffer-size poll that is non-zero in both dimensions; every earlier poll has a zero dimension |
| Swapchains.Swapchain.constructor | src/framework/swapchain/Swapchain.cpp:7-9 | No handle, no images, no framebuffers, no render pass; the shared depth image is the renderer's |
| Swapchains.Swapchain.SetRenderPass | src/framework/swapchain/Swapchain.h:26 | The render pass becomes the given one |
| Swapchains.Swapchain.Create | src/framework/swapchain/Swapchain.cpp:11-65 | Returns the create-info of the selection rules. Records its extent, its format and the driver handle. Keeps exactly one image per driver image, each the acquired image with a color view |
| Swapchains.Swapchain.CreateFramebuffers | src/framework/swapchain/Swapchain.cpp:67-81 | Exactly one framebuffer per image. Framebuffer i pairs image i's view with the shared depth view, at the swapchain extent, for the render pass |
| Swapchains.Swapchain.Destroy | src/framework/swapchain/Swapchain.cpp:101-115 | Leaves no framebuffers, no images and a null handle. The shared depth image's `destroy` (line 103) changes none of its modelled fields and is not modelled |
| Swapchains.Swapchain.Recreate | src/framework/swapchain/Swapchain.cpp:83-99 | Waits for a non-zero window size, then builds at the size `chooseExtent` reads again inside `create` (line 147). The new handle, format, extent and image list come from `create`. The depth image is rebuilt at the new extent, in depth-attachment layout. There is one framebuffer per image over the new views. The render pass is kept |
| Swapchains.Swapchain.RebuiltFramebuffersPairViews | src/framework/swapchain/Swapchain.cpp:83-99 | After a rebuild, framebuffer i pairs a color view of the new image i with the depth-aspect view of the rebuilt depth image, at the depth image's extent |
| DepthResources.CreateDepthImage | src/framework/Renderer.cpp:247-255 | The depth image gets exactly the given (swapchain) extent and the allocation. Its view is a depth view in the first supported depth format, and it ends in DepthStencilAttachmentOptimal |
| Frames.InitialFrameState | src/framework/Renderer.cpp:114-123 | Slot 0 and not resized. Every fence starts signaled and every command buffer initial; no slot is recording |
| Frames.Completed | src/framework/Renderer.cpp:204 | GPU completion of a slot: a pending command buffer becomes executable and its fence signals; nothing else changes |
| Frames.Waited | src/framework/Renderer.cpp:156 | After the wait on the current slot's fence, that fence is signaled. Other slots, the slot index, `m_fbIndex` and `m_resized` are unchanged |
| Frames.Begun | src/framework/Renderer.cpp:166-185 | Only the current slot's fence is reset. Its command buffer is recording, with exactly the viewport and scissor of the extent. The acquired image index is stored, and other slots are unchanged |
| Frames.Prepared | src/framework/Renderer.cpp:154-188 | `prepareFrame` keeps the slot index. It stores the image index and leaves the current fence reset and the current buffer recording viewport and scissor. Without a recreate no other slot changes; with one (lines 161-162), the recreate's `waitIdle` finishes every other pending slot and signals its fence |
| Frames.DrainFrom | src/framework/swapchain/Swapchain.cpp:93 | Completing the slots from k on turns exactly those pending buffers executable and signals their fences; earlier slots, the index and the recorded commands are unchanged |
| Frames.Drained | src/framework/swapchain/Swapchain.cpp:93 | After `waitIdle` no buffer is pending, exactly the non-recording slots' fences are signaled, and each pending buffer became executable; nothing else changes |
| Frames.Recorded | src/Application.cpp:76-94 | Recording a command appends it to the current slot's buffer and changes no fence or lifecycle state |
| Frames.RecordAll | src/Application.cpp:76-94 | Recording a list appends exactly that list to the current slot's buffer; every other part of the state is unchanged |
| Frames.RecordAllSnoc | src/Application.cpp:76-94 | Recording a list and then one command equals recording the longer list |
| Frames.RecordAllAppend | src/Application.cpp:76-94 | Recording two lists one after the other equals recording their concatenation |
| Frames.Ended | src/framework/Renderer.cpp:190-233 | No slot is recording, `m_resized` ends false, and the index advances by one modulo 2. Without a recreate the submitted slot is pending with its fence unsignaled and nothing else changes. With one (lines 222-226), `waitIdle` finishes the submitted slot and every other, so every fence is signaled and no buffer is pending |
| Frames.CompleteAll | src/framework/Renderer.cpp:204 | Any sequence of GPU completions keeps the slots valid, the slot index and which buffer is recording |
| Frames.Frame | src/Application.cpp:67-97 | One frame (completions, prepare, record, end) keeps the between-frames invariant and advances the slot by one modulo 2 |
| Frames.AdvanceRotates | src/framework/Renderer.cpp:232 | n single steps from slot c reach (c + n) mod 2, always below 2; from 0 the slots alternate 0, 1, 0, … |
| Frames.AdvanceStep | src/framework/Renderer.cpp:232 | Advancing n frames is one step followed by n − 1 frames |
| Frames.RunFrames | src/framework/Renderer.cpp:232 | After any number of frames the state is between frames and valid, and the slot is the starting slot advanced once per frame |
| Frames.InFlightAfterTwoFrames | src/Application.cpp:71-73 | Two frames with no GPU completion, no pending resize, no recreate at either present and none at the second acquire return to the starting slot while its command buffer is still pending and its fence unsignaled |
| Frames.RecreateAtPresentDrains | src/framework/Renderer.cpp:222-226 | A frame that recreates at present leaves no buffer pending and every fence signaled |
| Frames.Renderer.constructor | src/framework/Renderer.cpp:6-32 | The frame state is the initial state, with one semaphore pair per slot |
| Frames.Renderer.CreateSyncObjects | src/framework/Renderer.cpp:93-124 | Exactly 2 command buffers, image-available semaphores, render-finished semaphores and fences, one per slot; every fence signaled |
| Frames.Renderer.CurrentFrameIndex | src/framework/Renderer.cpp:383-386 | The returned slot index is below `maxFramesInFlight` |
| Frames.Renderer.GpuComplete | src/framework/Renderer.cpp:204 | The state becomes `Completed` of the old state |
| Frames.Renderer.WaitForCurrentFence | src/framework/Renderer.cpp:156 | The state becomes `Waited` of the old state |
| Frames.Renderer.WaitIdle | src/framework/swapchain/Swapchain.cpp:93 | The state becomes `Drained` of the old state |
| Frames.Renderer.BeginRecording | src/framework/Renderer.cpp:166-185 | The state becomes `Begun` of the old state |
| Frames.Renderer.PrepareFrame | src/framework/Renderer.cpp:154-188 | The state becomes `Prepared` of the old state with the acquired index, drained exactly when it recreated. The swapchain is rebuilt exactly on out-of-date, and then it is `RebuiltFor` the environment. An error is logged exactly on any other result besides success or suboptimal. Otherwise the swapchain is untouched |
| Frames.Renderer.Record | src/Application.cpp:76-94 | The state becomes `Recorded` of the old state |
| Frames.Renderer.SubmitCurrent | src/framework/Renderer.cpp:192-204 | Only the current buffer becomes pending. The submit waits on `imageAvailable[cur]` at the color-output stage, signals `renderFinished[cur]`, and is gated on `fence[cur]` |
| Frames.Renderer.EndFrame | src/framework/Renderer.cpp:190-233 | The state becomes `Ended`. Submit and present use only the current slot's objects. It recreates exactly when present threw out-of-date, returned suboptimal, or `m_resized` was set. It logs exactly on another non-success result |
| Frames.Renderer.HandlePresent | src/framework/Renderer.cpp:212-230 | The recreate-or-log decision after present. `m_resized` is cleared, the slots are drained and the swapchain is rebuilt exactly on the recreate branch; otherwise fences and buffers are unchanged |
| Frames.Renderer.FramebufferResized | src/framework/Renderer.h:68-71 | The only change is `m_resized` set to true; validity is kept |
| DescriptorSets.WriteFor | src/framework/rendering/DescriptorSet.h:53-69 | One write, to the given set and binding, at array element 0, with count 1 and the descriptor's type. Image info is attached exactly when the descriptor supplies one, and so is buffer info: a uniform buffer gives only its whole range, and a texture gives only image info, when it has a view |
| DescriptorSets.BroadcastWrites | src/framework/rendering/DescriptorSet.h:82-101 | Exactly one write per set instance, in order, all to the same binding |
| DescriptorSets.MaxCount | src/framework/rendering/DescriptorSet.cpp:33-41 | The largest pool-size count, and one of them; 0 when none was added |
| DescriptorSets.MaxCountAppend | src/framework/rendering/DescriptorSet.cpp:40 | The running maximum over appended pool sizes computes `MaxCount` |
| DescriptorSets.DescriptorSet.constructor | src/framework/rendering/DescriptorSet.h:35-41 | No bindings, no sizes, `m_maxSets` 0, no sets, no writes, nothing created |
| DescriptorSets.DescriptorSet.AddBinding | src/framework/rendering/DescriptorSet.cpp:21-31 | Appends exactly one layout binding with the given type, stages, binding and count; nothing else changes |
| DescriptorSets.DescriptorSet.AddPoolSize | src/framework/rendering/DescriptorSet.cpp:33-41 | Appends exactly one pool size and raises `m_maxSets` to max(old, count). It keeps `m_maxSets` equal to the largest count added |
| DescriptorSets.DescriptorSet.Create | src/framework/rendering/DescriptorSet.cpp:8-13 | The layout is made from every binding and the pool from every size with `m_maxSets`. Then come exactly `m_maxSets` set instances, all from that pool with that layout |
| DescriptorSets.DescriptorSet.Destroy | src/framework/rendering/DescriptorSet.cpp:15-19 | Releases only the pool and the layout; the accumulated lists are kept |
| DescriptorSets.DescriptorSet.At | src/framework/rendering/DescriptorSet.h:28 | Set instance `index` |
| DescriptorSets.DescriptorSet.WriteDescriptor | src/framework/rendering/DescriptorSet.h:45-71 | Rejected, with no update, exactly when no sets exist; otherwise exactly one write, to set `index` |
| DescriptorSets.DescriptorSet.WriteDescriptorToAll | src/framework/rendering/DescriptorSet.h:73-101 | Rejected, with no update, exactly when no sets exist; otherwise the broadcast writes, one per set |
| Models.PrimitiveVertices | src/framework/model/Model.cpp:202-210 | A primitive appends exactly its vertex count of vertices, in order |
| Models.Rebased | src/framework/model/Model.cpp:221-241 | Every stored index is the raw index plus `vertexStart`, as `uint32_t` |
| Models.PrimitiveStep | src/framework/model/Model.cpp:157-251 | A primitive without indices changes nothing. Otherwise its vertices are appended. An unsupported component type then returns with no index and no record. A supported one appends its rebased indices and the record (old index length, accessor count, material) |
| Models.PrimitivesFrom | src/framework/model/Model.cpp:157-252 | A node's primitive loop only appends to the three lists |
| Models.NodeSpec | src/framework/model/Model.cpp:127-253 | Loading a node drawn from a forest only appends to the three lists |
| Models.ChildrenFrom | src/framework/model/Model.cpp:144-146 | Loading the children in order only appends |
| Models.NodesFrom | src/framework/model/Model.cpp:59-60 | Loading every top-level entry of the node list only appends |
| Models.TiledStep | src/framework/model/Model.cpp:247-251 | Below 2^32 indices, a new record starts where the index list ended and ends where it now ends |
| Models.PrimitivesTiled | src/framework/model/Model.cpp:157-252 | The primitive loop keeps the records tiling the index list |
| Models.NodeTiled | src/framework/model/Model.cpp:127-253 | Loading a node keeps the records tiling the index list |
| Models.ChildrenTiled | src/framework/model/Model.cpp:144-146 | Loading the children keeps the tiling |
| Models.NodesTiled | src/framework/model/Model.cpp:59-60 | Loading all nodes keeps the tiling |
| Models.BoundedStep | src/framework/model/Model.cpp:202-241 | Raw indices below a primitive's vertex count, rebased by `vertexStart`, stay below the grown vertex list, as long as it stays below 2^32 |
| Models.PrimitivesBounded | src/framework/model/Model.cpp:157-252 | With in-range raw indices, the primitive loop keeps every stored index below the vertex list length |
| Models.NodeBounded | src/framework/model/Model.cpp:127-253 | The same for loading a node |
| Models.ChildrenBounded | src/framework/model/Model.cpp:144-146 | The same for loading the children |
| Models.NodesBounded | src/framework/model/Model.cpp:59-60 | The same for loading all nodes |
| Models.UnsupportedComponentTypeEndsNode | src/framework/model/Model.cpp:219-245 | An unsupported index component type ends the node: its vertices stay appended, with no index and no record, and later primitives are skipped |
| Models.EmptyBuffers | src/framework/model/Model.h:47-49 | The empty lists are tiled and bounded |
| Models.LoadedBuffersTiledAndBounded | src/framework/model/Model.cpp:43-65 | Loading a document into empty lists yields records that tile the index list. With in-range raw indices, every index also names a vertex |
| Models.NestedDocument | src/framework/model/Model.cpp:144-146 | A two-node document, a parent with one child, is well formed and a forest |
| Models.NestedPrimitiveLoads | src/framework/model/Model.cpp:157-251 | That document's primitive, loaded into empty lists and then again, gives records (0, 3) and (3, 3) and indices rebased by 3 the second time |
| Models.ChildNodeFlattenedTwice | src/framework/model/Model.cpp:59-60 | Loading the whole document flattens the child's mesh twice: once under its parent and once as an entry of the node list |
| Models.FilterFor | src/framework/model/Model.cpp:20-25 | Linear exactly for LINEAR and LINEAR_MIPMAP_*; Nearest for NEAREST and NEAREST_MIPMAP_* |
| Models.AddressModeFor | src/framework/model/Model.cpp:27-29 | ClampToEdge exactly for CLAMP_TO_EDGE and MirroredRepeat exactly for MIRRORED_REPEAT; Repeat for REPEAT and any other code |
| Models.SamplersOf | src/framework/model/Model.cpp:78-83 | Exactly one sampler per glTF sampler, in order, from its magnification filter and S wrap mode |
| Models.NormalTextures | src/framework/model/Model.cpp:69-76 | The set holds exactly the normal-texture indices, other than -1, of some material |
| Models.TexturesOf | src/framework/model/Model.cpp:85-98 | Exactly one texture per glTF texture |
| Models.TexturesOfFormats | src/framework/model/Model.cpp:85-98 | Texture i shares glTF sampler `sampler` and loads from the model directory plus its image's URI. Its format is R8G8B8A8Unorm exactly when it is some material's normal texture, and otherwise R8G8B8A8Srgb |
| Models.MaterialsOf | src/framework/model/Model.cpp:101-122 | No materials without textures; otherwise exactly one per glTF material |
| Models.MaterialsOfReferences | src/framework/model/Model.cpp:106-121 | Albedo, normal and metallic-roughness are the glTF indices, with -1 falling back to the last texture. Occlusion and emissive are null. In a well-formed document all three are in range |
| Models.Model.constructor | src/framework/model/Model.h:43-49 | No samplers, textures or materials; empty vertex, index and record lists |
| Models.Model.LoadNode | src/framework/model/Model.cpp:127-253 | The recursive load performs exactly `NodeSpec`: children first, then a node with a mesh runs its primitive loop. It logs exactly when the node has no mesh |
| Models.Model.LoadPrimitives | src/framework/model/Model.cpp:157-252 | The loop with its mid-loop return performs exactly `PrimitivesFrom` |
| Models.Model.LoadPrimitive | src/framework/model/Model.cpp:159-251 | One primitive performs `PrimitiveStep`, and a return is reported exactly for an unsupported component type |
| Models.Model.LoadTextures | src/framework/model/Model.cpp:67-99 | Appends exactly the samplers and the textures of the tables |
| Models.Model.LoadMaterials | src/framework/model/Model.cpp:101-125 | Appends exactly the materials of the table, relative to the textures loaded |
| Models.Model.LoadGltfModel | src/framework/model/Model.cpp:43-65 | A failed parse is logged and changes nothing; it logs exactly then. Otherwise every node is loaded, then the textures, then the materials |
| App.Direction | src/Application.cpp:120-121 | A position widened to a vector with w = 0 |
| App.UniformWrites | src/Application.cpp:136-137 | Uniform buffer i written to binding 0 of global set i, one write each, in order |
| App.MaterialWrites | src/Application.cpp:149-155 | Three writes per material. Material i's albedo, normal and metallic-roughness textures go to bindings 0, 1 and 2 of material set i |
| App.MaterialWritesPrefix | src/Application.cpp:149-155 | The material writes of a longer prefix extend the shorter one by that material's three writes |
| App.LoadedMaterialsTextured | src/framework/model/Model.cpp:101-122 | In a well-formed document, each loaded material's albedo, normal and metallic-roughness indices name loaded textures |
| App.DrawCommands | src/Application.cpp:86-92 | For each primitive, in mesh order: bind material set `materialIndex` at set 1, then exactly one `drawIndexed(indexCount, 1, firstIndex, 0, 0)` |
| App.DrawCommandsPrefix | src/Application.cpp:86-92 | The draw list of a longer prefix extends the shorter one by that primitive's two commands |
| App.FrameCommands | src/Application.cpp:74-94 | The recorded frame begins the render pass, binds global set `currentFrameIndex` at set 0, records the draw commands, and ends the render pass |
| App.Camera.constructor | src/framework/Camera.h:8 | The light flag starts cleared |
| App.Application.constructor | src/Application.h:29-38 | Member initialisation: a fresh camera, model and pair of distinct, empty descriptor sets, with no uniform buffers, no uniform data and no light position yet |
| App.Application.Setup | src/Application.cpp:16-28 | The constructor's load, uniform buffers and `setupDescriptors`, in that order. The model holds the loaded geometry and materials; there is one global set and one uniform buffer per slot with buffer i written into set i; there is one material set per material with its writes. With a valid renderer, every frame precondition then holds once each primitive's material has a set |
| App.Application.SetupDescriptors | src/Application.cpp:126-156 | One global set instance per uniform buffer, with buffer i written into set i, then one material set instance per material, with its three writes |
| App.Application.CreateUniformBuffers | src/Application.cpp:24-26 | Exactly `maxFramesInFlight` uniform buffers, each the size of `ShaderMatrixInfo` (288 bytes) |
| App.Application.SetupGlobalDescriptors | src/Application.cpp:128-137 | Global set: a uniform binding 0 for vertex and fragment, and a sampler binding 1 for fragment. Pool sizes are (uniform, #buffers) and (sampler, 1), so there are #buffers (> 0) set instances. Buffer i goes into set i |
| App.Application.CreateGlobalSets | src/Application.cpp:128-134 | The bindings, pool sizes and set instances of the global set, before any write |
| App.Application.WriteUniformDescriptors | src/Application.cpp:136-137 | Appends exactly the uniform writes |
| App.Application.SetupMaterialDescriptors | src/Application.cpp:141-155 | Three sampler bindings 0 to 2 and three pool sizes equal to the material count, so exactly one set per material. Then the material writes |
| App.Application.CreateMaterialSets | src/Application.cpp:141-147 | The bindings, pool sizes and one set instance per material, before any write |
| App.Application.AddMaterialBindings | src/Application.cpp:141-143 | The three sampler bindings |
| App.Application.AddMaterialPoolSizes | src/Application.cpp:144-146 | The three pool sizes, whose maximum is the material count |
| App.Application.WriteMaterialDescriptors | src/Application.cpp:149-155 | Appends exactly the material writes |
| App.Application.WriteMaterial | src/Application.cpp:152-154 | Appends material i's three writes |
| App.Application.UpdateUniforms | src/Application.cpp:99-124 | The light position is set to the camera position on the first call, or when the flag is set, and the flag is then cleared. Only the current slot's uniform data is written, from the transforms, the light and the camera |
| App.Application.RecordPrologue | src/Application.cpp:74-82 | Records begin-render-pass, pipeline, vertex and index buffers, and global set `currentFrameIndex` |
| App.Application.RecordDraws | src/Application.cpp:84-92 | The primitive loop records exactly `DrawCommands` |
| App.Application.RecordDraw | src/Application.cpp:88-91 | One primitive records its bind and its draw |
| App.Application.RecordFrame | src/Application.cpp:74-94 | Records exactly `FrameCommands` for the current slot |
| App.Application.DoFrameAsWritten | src/Application.cpp:67-97 | The frame in the source's order. The uniform write sees the slot's command-buffer state before the fence wait, and the frame ends in `Ended` of the recorded `Prepared` state |
| App.Application.DoFrame | src/Application.cpp:67-97 | The frame with the uniforms written after `prepareFrame`. The slot being written is then the one recording, so its fence has been waited on. The frame's state is the same as in the source's order |
| App.Application.FrameAfterUniforms | src/Application.cpp:73-96 | Prepare, record and end after the uniforms, from the old renderer state |

## Left out

- GLFW windowing, event polling and camera input (`Camera.cpp`): the framebuffer-size reads, the camera position and the light flag are inputs. The busy wait in `Swapchain::recreate` is a list of polls that must contain a non-zero size; the later read in `chooseExtent` is a separate input, `createSize`.
- Floating-point math: the model, view, projection and normal matrices are an opaque `Transforms` input. The node transforms and vertex attribute decoding in `loadNode` are not modelled; a vertex is named by (mesh, primitive, vertex).
- GPU and CPU concurrency: fence waits, semaphores and queue submission are modelled as per-slot flags and an explicit completion step. The `waitIdle` of `Swapchain::recreate` completes every pending slot (`Frames.Drained`). The `waitIdle` at the end of `Application::run` is not modelled.
- The vulkan-hpp exception mode: acquire ends on the returned codes as the branches are written. Only present models the thrown out-of-date error. Any other driver failure is not modelled.
- Foreign objects: instance, surface, logical device, allocator, pipeline, render pass, buffers, samplers, texture decoding and staging copies. Their handles are parameters, and texture descriptors are passed to the material setup as values.
- tinygltf parsing: the parsed document is an `Option<Document>` input. The document must be well formed and its node graph a forest (section 3.5.2 of the glTF 2.0 specification). The source assumes both.
- Logging: the messages are not modelled. The logged errors of the modelled operations are boolean outputs, with these exceptions. The critical log of `findSupportedFormat` (Device.cpp:48) is not an output; it fires exactly when `Devices.FirstSupportedFrom` reaches the end of the candidates. Also not modelled: the tinygltf warning and the two info logs of `loadGltfModel` (Model.cpp:57, 64, 124), and the logs of the parts left out here (renderer initialisation, the debug messenger, the pipeline, textures).
- Renderer cleanup and the destructors.
- App.Application.RecordDraws: it requires every record's `materialIndex` to name a material set. A primitive with no material (`-1`) is stored as 0xFFFFFFFF, and indexing the set list with it is undefined behavior in the source.
- App.Application.SetupGlobalDescriptors: it requires fewer than 2^32 uniform buffers, so `size()` converts to `uint32_t` without loss. The source has 2.
- App.Application.SetupMaterialDescriptors: it requires fewer than 2^32 materials, for the same reason.
- Models.LoadedBuffersTiledAndBounded: tiling and bounds are proved while the index and vertex lists stay below 2^32 entries. Beyond that the `uint32_t` record fields and rebased indices wrap.
- Swapchains.ChooseExtent: it requires the surface's minimum extent to be at most its maximum when the sentinel is set. `std::clamp` is undefined otherwise, and Vulkan guarantees the ordering.
- Images.Image.TransitionLayout: on an unsupported pair the source returns without ending or freeing the command buffer it began. The model reports this as `submitted == false`, and the buffer's lifecycle is not modelled.
- App.Application.SetupGlobalDescriptors: the global pool has a single sampler descriptor for two sets that each declare a sampler binding. No write goes to binding 1, so the model states the pool as written and nothing about exhausting it.

## Findings

| source | as written | input that shows it | evidently intended | confidence | as-written member | corrected member |
|---|---|---|---|---|---|---|
| src/Application.cpp:71-73 | `doFrame` calls `updateUniforms`, which writes the current slot's uniform buffer, before `prepareFrame` waits on that slot's fence | Two frames with no GPU completion in between. The third frame returns to the first slot while its submission is still pending (`Frames.InFlightAfterTwoFrames`, for frames that do not recreate the swapchain), and the uniform write then sees state Pending | Write the uniforms after `prepareFrame` has waited on the slot's fence, so that the GPU is no longer reading the buffer | not executed | App.Application.DoFrameAsWritten | App.Application.DoFrame |
