# Vulkan terrain generator — a verified model of its rendering core

The terrain generator draws an endless landscape of 16 × 16 chunks. Each
chunk's heights come from five octaves of simplex noise sampled at global
coordinates. Each chunk becomes a mesh of coloured quads and is drawn by a
small Vulkan engine with these parts:

- a window (SDL) that can switch between windowed and fullscreen mode;
- a Vulkan context, which picks a physical device by score, finds its queue
  families and looks up memory types;
- a renderer, which owns the swapchain and its presentation objects and
  runs the acquire / present loop over two frames in flight;
- graphics pipelines, which derive their vertex input, descriptor set
  layouts, push constant range, descriptor pool, uniform buffers and
  descriptor writes from the reflected SPIR-V of their shader modules;
- vertex, index and uniform buffers;
- the Khronos validation layer and its debug callback.

This project models that core in Dafny and proves what each part promises.
Each module follows one source file:

| module | models |
|---|---|
| `VkTypes`, `ShaderReflection` | the Vulkan values (handles, results, stage bits, formats) and the reflected shader resources the rest works on |
| `VertexInput` | the vertex input reflection of `GraphicsPipeline` |
| `DescriptorLayout` | descriptor set layouts, push constants, uniform buffer layout and descriptor writes of `GraphicsPipeline` |
| `GraphicsPipelines` | the `GraphicsPipeline` object, its fixed-function state and its device limit cache |
| `UniformBuffers`, `IndexBuffers`, `VertexBuffers` | the three buffer classes |
| `VulkanUtility` | format search, image layout barriers, image creation info and buffer copies |
| `VulkanContexts` | device selection, queue families, instance and device extensions, memory types |
| `Renderers` | swapchain settings, the depth/stencil format, the frame loop and presentation object recreation |
| `Chunks` | noise map, biome colours, mesh construction and chunk placement |
| `Windows` | window size and fullscreen bookkeeping |
| `ValidationLayers` | layer support, the debug messenger and the wrapping of debug messages |

Objects whose fields the engine updates in place are classes with those
fields. Examples are `GraphicsPipeline`, `Renderer`, `Window`, `Chunk` and
the buffers. Their methods state the new state in terms of specification
functions, and lemmas prove what those functions promise. Loops in the
source are methods with loops, proved equal to a recursive specification.
Examples are the noise map, the mesh, the queue family scan, the device
scoring, the reflection loops and the message wrapping. Vulkan, SDL and VMA
calls become parameters: the handle a create call returns, the result code
it reports, the properties a query answers. Where a call's order matters,
the object keeps a log of the calls.

## Model

| member | source | states |
|---|---|---|
| VertexInput.VertexInputFormat | TerrainGenerator/src/engine/graphics/pipeline/GraphicsPipeline.cpp:84-201 | a SPIR-V input type gets a Vulkan format exactly when it has one to four components of a base type the switch handles, and that format has the type's component count and base type |
| VertexInput.VertexInputSize | TerrainGenerator/src/engine/graphics/pipeline/GraphicsPipeline.cpp:51-82 | the size of an input fits in 32 bits, is 0 for a base type the switch does not handle, and equals the byte size of the input's format whenever it has one |
| VertexInput.InsertByLocation | TerrainGenerator/src/engine/graphics/pipeline/GraphicsPipeline.h:45 | inserting into the set ordered by location keeps it strictly ascending, leaves it unchanged when the location is taken, and otherwise adds exactly the new input |
| VertexInput.VertexStageInputs | TerrainGenerator/src/engine/graphics/pipeline/GraphicsPipeline.cpp:207-232 | the inputs come from the first vertex-stage module only, and are empty when there is none |
| VertexInput.CollectInputs | TerrainGenerator/src/engine/graphics/pipeline/GraphicsPipeline.cpp:212-228 | a successful collection is strictly ascending by location; a failure is always the invalid-vertex-input-type error |
| VertexInput.CollectInputsSucceeds | TerrainGenerator/src/engine/graphics/pipeline/GraphicsPipeline.cpp:222-225 | collection throws exactly when some input has no vertex format |
| VertexInput.InsertByLocationLocations | TerrainGenerator/src/engine/graphics/pipeline/GraphicsPipeline.cpp:227 | after an insertion, a location is present iff it was present before or is the inserted one |
| VertexInput.CollectInputsLocations | TerrainGenerator/src/engine/graphics/pipeline/GraphicsPipeline.cpp:212-228 | the collected set holds a location iff the shader declares an input there |
| VertexInput.CollectInputsFirstWins | TerrainGenerator/src/engine/graphics/pipeline/GraphicsPipeline.cpp:227 | an entry is in the collected set iff it is the first input declared at its location |
| VertexInput.SumSizesMonotone | TerrainGenerator/src/engine/graphics/pipeline/GraphicsPipeline.cpp:234-253 | the running stride never decreases along the attributes, so offsets are ascending |
| VertexInput.FindVertexStageInputs | TerrainGenerator/src/engine/graphics/pipeline/GraphicsPipeline.cpp:207-232 | the module loop with its break returns exactly the first vertex module's inputs |
| VertexInput.ReflectVertexInputs | TerrainGenerator/src/engine/graphics/pipeline/GraphicsPipeline.cpp:212-228 | the input loop computes the collection, including the throw on an input without a format |
| VertexInput.PackAttributes | TerrainGenerator/src/engine/graphics/pipeline/GraphicsPipeline.cpp:234-253 | binding 0 is per-vertex with the summed stride; attribute i takes input i's location and format at the running offset, and the attributes' byte ranges do not overlap |
| VertexInput.GetVertexInputData | TerrainGenerator/src/engine/graphics/pipeline/GraphicsPipeline.cpp:203-256 | vertex input reflection fails iff collection fails, and otherwise packs the collected inputs |
| DescriptorLayout.MergeBinding | TerrainGenerator/src/engine/graphics/pipeline/GraphicsPipeline.cpp:276-289 | recording a binding keeps the map's keys ascending and changes only that key: a new key gets the declaration, an existing one keeps its size and type and ORs in the stage |
| DescriptorLayout.PaddedUniformSize | TerrainGenerator/src/engine/graphics/pipeline/GraphicsPipeline.cpp:274 | the padded size is strictly larger than the declared size and at most one alignment more |
| DescriptorLayout.PaddedUniformSizeIsNextMultiple | TerrainGenerator/src/engine/graphics/pipeline/GraphicsPipeline.cpp:274 | the padded size is the next multiple of the alignment strictly above the declared size, so an already aligned size gains a whole alignment |
| DescriptorLayout.Step | TerrainGenerator/src/engine/graphics/pipeline/GraphicsPipeline.cpp:264-335 | one reflected resource keeps the binding map ordered |
| DescriptorLayout.FoldFrom | TerrainGenerator/src/engine/graphics/pipeline/GraphicsPipeline.cpp:264-335 | folding resources from an ordered state keeps the binding map ordered |
| DescriptorLayout.Fold | TerrainGenerator/src/engine/graphics/pipeline/GraphicsPipeline.cpp:258-336 | the whole reflection leaves an ordered binding map |
| DescriptorLayout.Declarations | TerrainGenerator/src/engine/graphics/pipeline/GraphicsPipeline.cpp:264-316 | keeps only the uniform and sampler declarations of the given binding, in order |
| DescriptorLayout.FoldBindings | TerrainGenerator/src/engine/graphics/pipeline/GraphicsPipeline.cpp:264-316 | after reflection, a binding's entry has the size and type of its first declaration and the OR of the stages of all its declarations; an undeclared binding has no entry |
| DescriptorLayout.PushConstantDeclarations | TerrainGenerator/src/engine/graphics/pipeline/GraphicsPipeline.cpp:318-335 | keeps only the push constant blocks, in order |
| DescriptorLayout.FoldPushConstantRange | TerrainGenerator/src/engine/graphics/pipeline/GraphicsPipeline.cpp:318-335 | the push constant range has offset 0, the size of the first block and the stage of the last block; with no block it stays empty |
| DescriptorLayout.FoldSucceeds | TerrainGenerator/src/engine/graphics/pipeline/GraphicsPipeline.cpp:266-329 | reflection throws exactly when a uniform or sampler is outside set 0, or the first push constant block is larger than the device allows |
| DescriptorLayout.ReflectUniformBuffers | TerrainGenerator/src/engine/graphics/pipeline/GraphicsPipeline.cpp:264-290 | the uniform buffer loop computes the fold over the module's uniforms |
| DescriptorLayout.ReflectSampledImages | TerrainGenerator/src/engine/graphics/pipeline/GraphicsPipeline.cpp:292-316 | the sampler loop computes the fold over the module's samplers |
| DescriptorLayout.ReflectPushConstants | TerrainGenerator/src/engine/graphics/pipeline/GraphicsPipeline.cpp:318-335 | the push constant loop computes the fold over the module's blocks |
| DescriptorLayout.ReflectDescriptorBindings | TerrainGenerator/src/engine/graphics/pipeline/GraphicsPipeline.cpp:258-336 | the loop over modules computes the fold of all their resources, stopping at the first throw |
| DescriptorLayout.LookupFindsEntry | TerrainGenerator/src/engine/graphics/pipeline/GraphicsPipeline.h:71-72 | in an ordered binding map, finding an entry's key returns that entry |
| DescriptorLayout.FoldSizedExactlyWhenUniform | TerrainGenerator/src/engine/graphics/pipeline/GraphicsPipeline.h:48-53 | after reflection, exactly the uniform buffer bindings carry a size |
| DescriptorLayout.CountsCoverBindings | TerrainGenerator/src/engine/graphics/pipeline/GraphicsPipeline.cpp:338-357 | every binding is counted under exactly one descriptor type |
| DescriptorLayout.BuildLayoutBindings | TerrainGenerator/src/engine/graphics/pipeline/GraphicsPipeline.cpp:338-357 | one layout binding per map entry with its binding, type, count 1 and stages; the type counts hold exactly the types used, each with its number of bindings |
| DescriptorLayout.ComputeUniformBufferSize | TerrainGenerator/src/engine/graphics/pipeline/GraphicsPipeline.cpp:619-634 | the uniform buffer size loop computes the sum of the padded uniform sizes |
| DescriptorLayout.UniformBufferSizeMonotone | TerrainGenerator/src/engine/graphics/pipeline/GraphicsPipeline.cpp:619-634 | the running uniform size never decreases along the bindings |
| DescriptorLayout.UniformRangesDisjoint | TerrainGenerator/src/engine/graphics/pipeline/GraphicsPipeline.cpp:683-690 | the byte ranges of two different uniform bindings do not overlap |
| DescriptorLayout.UniformRangeWithinBuffer | TerrainGenerator/src/engine/graphics/pipeline/GraphicsPipeline.cpp:615-690 | every uniform binding's range lies inside the uniform buffer |
| DescriptorLayout.DescriptorWrites | TerrainGenerator/src/engine/graphics/pipeline/GraphicsPipeline.cpp:676-723 | one write per image and binding: a buffer write at the binding's running offset for uniforms, an image write for samplers |
| DescriptorLayout.IndexOfBinding | TerrainGenerator/src/engine/graphics/pipeline/GraphicsPipeline.cpp:731-738 | finds the position of the binding being updated, or reports that no entry has it |
| DescriptorLayout.UniformWriteRange | TerrainGenerator/src/engine/graphics/pipeline/GraphicsPipeline.cpp:726-744 | corrected update range: fails only when the target binding is a sampler; a missing binding writes nothing at the end; a range always lies inside the buffer |
| DescriptorLayout.FindUniformWriteRange | TerrainGenerator/src/engine/graphics/pipeline/GraphicsPipeline.cpp:726-741 | the offset loop, with samplers adding nothing, computes the corrected range: it throws exactly on a sampler target, and otherwise gives the target's uniform offset and size |
| DescriptorLayout.UniformWriteRangeMatchesDescriptor | TerrainGenerator/src/engine/graphics/pipeline/GraphicsPipeline.cpp:683-744 | the corrected update writes exactly the range the uniform's descriptor points at |
| DescriptorLayout.UniformWriteRangeAsWrittenCharacterised | TerrainGenerator/src/engine/graphics/pipeline/GraphicsPipeline.cpp:731-741 | the loop as written agrees with the corrected range unless a sampler precedes the target, in which case it throws |
| DescriptorLayout.SamplerThenUniformDescriptor | TerrainGenerator/src/engine/graphics/pipeline/GraphicsPipeline.cpp:683-690 | with a sampler at binding 0 and a 256-byte uniform at binding 1, the uniform's descriptor covers bytes 0 to 256 |
| DescriptorLayout.SamplerBeforeUniformThrows | TerrainGenerator/src/engine/graphics/pipeline/GraphicsPipeline.cpp:740 | for that layout the loop as written throws on updating binding 1, while the corrected range is bytes 0 to 256 |
| GraphicsPipelines.DepthTestBehaviour | TerrainGenerator/src/engine/graphics/pipeline/GraphicsPipeline.cpp:478-499 | with depth testing on, a fragment passes iff it is strictly nearer (compare op LESS), and a passing fragment's depth is stored; with it off every fragment passes and nothing is written |
| GraphicsPipelines.RasterisationBehaviour | TerrainGenerator/src/engine/graphics/pipeline/GraphicsPipeline.cpp:456-467 | a triangle is culled iff culling is on and it is back-facing; polygons are lines iff wireframe is on |
| GraphicsPipelines.BlendBehaviour | TerrainGenerator/src/engine/graphics/pipeline/GraphicsPipeline.cpp:501-520 | with blending on, a channel becomes the alpha-weighted mix of source and destination, within their range for alpha in [0, 1]; with it off the source is written |
| GraphicsPipelines.DefaultConfigState | TerrainGenerator/src/engine/graphics/pipeline/GraphicsPipeline.h:27-35 | the default configuration fills polygons, culls back faces, depth-tests and blends |
| GraphicsPipelines.PoolCoversEverySet | TerrainGenerator/src/engine/graphics/pipeline/GraphicsPipeline.cpp:579-602 | the pool sizes add up to one descriptor per binding for each swapchain image |
| GraphicsPipelines.DeviceLimitCache.constructor | TerrainGenerator/src/engine/graphics/pipeline/GraphicsPipeline.h:55-56 | the cached limits start at the sentinels that force a query |
| GraphicsPipelines.DeviceLimitCache.Load | TerrainGenerator/src/engine/graphics/pipeline/GraphicsPipeline.cpp:13-20 | the limits are queried only while a sentinel is still cached, and are kept otherwise |
| GraphicsPipelines.GraphicsPipeline.constructor | TerrainGenerator/src/engine/graphics/pipeline/GraphicsPipeline.h:58-72 | a pipeline starts with no bindings, an empty push constant range, no pool, no uniform buffers and no writes |
| GraphicsPipelines.GraphicsPipeline.InitialiseDescriptorSetLayouts | TerrainGenerator/src/engine/graphics/pipeline/GraphicsPipeline.cpp:258-368 | the pipeline fails with the reflection's error or holds the reflected bindings, push constant range and layout bindings |
| GraphicsPipelines.GraphicsPipeline.InitialisePipeline | TerrainGenerator/src/engine/graphics/pipeline/GraphicsPipeline.cpp:407-566 | the pipeline holds its layout, the reflected vertex input and the fixed-function state of its configuration, or the first error |
| GraphicsPipelines.GraphicsPipeline.InitialiseVertexInputAndState | TerrainGenerator/src/engine/graphics/pipeline/GraphicsPipeline.cpp:423-520 | the vertex input state packs the collected inputs, and the fixed-function state follows the configuration |
| GraphicsPipelines.GraphicsPipeline.InitialiseDescriptorPool | TerrainGenerator/src/engine/graphics/pipeline/GraphicsPipeline.cpp:579-602 | one pool size per descriptor type in use, its count times the image count (32-bit), and one set per image |
| GraphicsPipelines.GraphicsPipeline.DestroyDescriptorPool | TerrainGenerator/src/engine/graphics/pipeline/GraphicsPipeline.cpp:604-613 | destroying a live pool frees the sets allocated from it; the rest of the pipeline is unchanged |
| GraphicsPipelines.GraphicsPipeline.ResizeUniformBuffers | TerrainGenerator/src/engine/graphics/pipeline/GraphicsPipeline.cpp:639-648 | there is one fresh, distinct, unallocated uniform buffer per image |
| GraphicsPipelines.GraphicsPipeline.InitialiseUniformBuffers | TerrainGenerator/src/engine/graphics/pipeline/GraphicsPipeline.cpp:615-637 | every image gets a uniform buffer of the summed padded size and a set of descriptor writes |
| GraphicsPipelines.GraphicsPipeline.SetUniformBufferData | TerrainGenerator/src/engine/graphics/pipeline/GraphicsPipeline.cpp:726-744 | the current image's uniform buffer is overwritten over the binding's range (corrected) and no other buffer changes |
| GraphicsPipelines.GraphicsPipeline.RefreshUniformBuffers | TerrainGenerator/src/engine/graphics/pipeline/GraphicsPipeline.cpp:40-49 | after a swapchain change the pipeline holds the new pool with one size per descriptor type in use (count times the new image count, 32-bit) and one set per image, one fresh buffer per image of the summed uniform size with the allocator's handle and unwritten memory, and each image's descriptor writes at the uniform offsets; bindings, layout bindings, type counts, push constant range, vertex input and fixed-function state stay as they were |
| GraphicsPipelines.GraphicsPipeline.Construct | TerrainGenerator/src/engine/graphics/pipeline/GraphicsPipeline.cpp:10-25 | construction loads the limits only while a sentinel is cached, fails with the reflection's or the vertex input's error, and otherwise holds the reflected layout, vertex input and fixed-function state, the created pool with its per-type sizes and one set per image, one fresh buffer per image of the summed uniform size, and each image's descriptor writes |
| GraphicsPipelines.GraphicsPipeline.Destroy | TerrainGenerator/src/engine/graphics/pipeline/GraphicsPipeline.cpp:32-38 | destruction drops the uniform buffers and the pool, and forgets the descriptor sets exactly when a pool was live; the reflected layout, pool sizes, vertex input and fixed-function state are untouched |
| UniformBuffers.Overwrite | TerrainGenerator/src/engine/graphics/buffers/UniformBuffer.cpp:24-33 | copying data into mapped memory changes exactly the bytes from the offset on for the data's length |
| UniformBuffers.OverwriteDisjointCommute | TerrainGenerator/src/engine/graphics/buffers/UniformBuffer.cpp:24-33 | updates to disjoint ranges can be applied in either order |
| UniformBuffers.OverwriteSameRange | TerrainGenerator/src/engine/graphics/buffers/UniformBuffer.cpp:24-33 | a second update of the same range replaces the first |
| UniformBuffers.UniformBuffer.constructor | TerrainGenerator/src/engine/graphics/buffers/UniformBuffer.cpp:8-10 | a uniform buffer starts with no buffer, no allocation and no memory |
| UniformBuffers.UniformBuffer.Initialise | TerrainGenerator/src/engine/graphics/buffers/UniformBuffer.cpp:17-22 | the buffer holds the created handles and size bytes of unwritten memory |
| UniformBuffers.UniformBuffer.SetBufferData | TerrainGenerator/src/engine/graphics/buffers/UniformBuffer.cpp:24-33 | the memory is overwritten over the range; the handles and size are unchanged |
| UniformBuffers.UniformBuffer.Destroy | TerrainGenerator/src/engine/graphics/buffers/UniformBuffer.cpp:35-43 | a live buffer and its allocation are released; a null one is left alone |
| IndexBuffers.IndexTypeOf | TerrainGenerator/src/engine/graphics/buffers/IndexBuffer.h:25-36 | the index type chosen has the byte width of the element type |
| IndexBuffers.IndexTypeOfInjective | TerrainGenerator/src/engine/graphics/buffers/IndexBuffer.h:25-36 | different element types give different index types |
| IndexBuffers.IndexBuffer.constructor | TerrainGenerator/src/engine/graphics/buffers/IndexBuffer.h:13-14 | an index buffer starts with zero 16-bit indices and no buffer |
| IndexBuffers.IndexBuffer.Initialise | TerrainGenerator/src/engine/graphics/buffers/IndexBuffer.h:20-39 | the count is the element count (32-bit), the type matches the element width, and the upload holds every element |
| IndexBuffers.DrawCoversUpload | TerrainGenerator/src/engine/graphics/buffers/IndexBuffer.h:23-38 | the draw covers exactly the uploaded bytes |
| VertexBuffers.VertexBuffer.constructor | TerrainGenerator/src/engine/graphics/buffers/VertexBuffer.h:12 | a vertex buffer starts with zero vertices and no buffer |
| VertexBuffers.VertexBuffer.Initialise | TerrainGenerator/src/engine/graphics/buffers/VertexBuffer.h:18-23 | the count is the element count (32-bit) and the upload holds every element |
| VertexBuffers.VertexBuffer.GetVertexCount | TerrainGenerator/src/engine/graphics/buffers/VertexBuffer.h:25 | returns the stored vertex count |
| VulkanUtility.FindSupportedFormat | TerrainGenerator/src/engine/graphics/renderer/VulkanUtility.cpp:129-144 | returns a candidate with the wanted features for the tiling, and fails iff no candidate has them |
| VulkanUtility.BarrierAspect | TerrainGenerator/src/engine/graphics/renderer/VulkanUtility.cpp:208-220 | a depth attachment barrier covers depth, and stencil too when supported; any other barrier covers colour |
| VulkanUtility.BarrierAspectBits | TerrainGenerator/src/engine/graphics/renderer/VulkanUtility.cpp:208-220 | bit by bit: colour iff the target is not a depth attachment, depth iff it is, and stencil iff it is and stencil is supported |
| VulkanUtility.TransitionBarrier | TerrainGenerator/src/engine/graphics/renderer/VulkanUtility.cpp:196-258 | exactly the three supported transitions get a barrier over one mip level and one layer; any other throws |
| VulkanUtility.TransitionFromUndefinedWaitsOnNothing | TerrainGenerator/src/engine/graphics/renderer/VulkanUtility.cpp:230-253 | a transition waits on no earlier access, from the top of the pipe, iff it starts from the undefined layout; every accepted transition makes some access available |
| VulkanUtility.UploadTransitionsChain | TerrainGenerator/src/engine/graphics/renderer/VulkanUtility.cpp:230-245 | the upload transition's destination access and stage are what the shader-read transition waits on |
| VulkanUtility.DepthTransitionCoversDepthTests | TerrainGenerator/src/engine/graphics/renderer/VulkanUtility.cpp:246-253 | the depth transition makes depth reads and writes wait until the early fragment tests |
| VulkanUtility.CreateImageInfo | TerrainGenerator/src/engine/graphics/renderer/VulkanUtility.cpp:76-100 | the created image has the requested extent, format, tiling and usage |
| VulkanUtility.CreatedImageIsPlain2D | TerrainGenerator/src/engine/graphics/renderer/VulkanUtility.cpp:76-100 | it holds exactly width × height texels: depth, mip levels, layers and samples are all 1; it starts undefined and is owned by one queue family |
| VulkanUtility.CopyBufferRegion | TerrainGenerator/src/engine/graphics/renderer/VulkanUtility.cpp:41-46 | the copy region has the requested size at offset 0 in both buffers |
| VulkanUtility.ApplyCopy | TerrainGenerator/src/engine/graphics/renderer/VulkanUtility.cpp:41-46 | a region copy changes exactly the destination bytes it covers, to the matching source bytes |
| VulkanUtility.CopyBufferCopiesPrefix | TerrainGenerator/src/engine/graphics/renderer/VulkanUtility.cpp:24-74 | CopyBuffer makes the destination's first size bytes equal to the source's and keeps the rest |
| VulkanContexts.Latest | TerrainGenerator/src/engine/graphics/renderer/VulkanContext.cpp:367-380 | the index kept is the last capable family seen, and there is none iff no family is capable |
| VulkanContexts.VisitedCount | TerrainGenerator/src/engine/graphics/renderer/VulkanContext.cpp:382-388 | the scan stops at or before the end of the family list |
| VulkanContexts.FindQueueFamilyIndices | TerrainGenerator/src/engine/graphics/renderer/VulkanContext.cpp:355-391 | the scan loop with its break computes the specified indices |
| VulkanContexts.FoundIndicesAreCapable | TerrainGenerator/src/engine/graphics/renderer/VulkanContext.cpp:355-391 | a found graphics index has a wanted queue bit and a found presentation index supports presentation |
| VulkanContexts.CompleteStaysComplete | TerrainGenerator/src/engine/graphics/renderer/VulkanContext.cpp:91-94 | once both indices are found they stay found as the scan goes on |
| VulkanContexts.VisitedCountStops | TerrainGenerator/src/engine/graphics/renderer/VulkanContext.cpp:382-385 | the scan stops right after the first family at which both indices are known, or at the end |
| VulkanContexts.FoundIndicesCompleteIffAvailable | TerrainGenerator/src/engine/graphics/renderer/VulkanContext.cpp:355-391 | the result is complete iff some family has a wanted bit and some family can present |
| VulkanContexts.NoEarlierStop | TerrainGenerator/src/engine/graphics/renderer/VulkanContext.cpp:382-385 | before the stopping point the indices were never complete |
| VulkanContexts.TransferOnlyFamilyTakenForGraphics | TerrainGenerator/src/engine/graphics/renderer/VulkanContext.cpp:369 | as written, a transfer-only family that can present is chosen as the graphics family |
| VulkanContexts.GraphicsFamilyOffersGraphics | TerrainGenerator/src/engine/graphics/renderer/VulkanContext.cpp:369 | testing the graphics bit alone, a found graphics family always offers graphics, and the example picks the real graphics family |
| VulkanContexts.SupportsRequiredDeviceExtensions | TerrainGenerator/src/engine/graphics/renderer/VulkanContext.cpp:393-414 | a device is supported iff it lists every required extension, that is the swapchain extension |
| VulkanContexts.ScorePositiveIffEligible | TerrainGenerator/src/engine/graphics/renderer/VulkanContext.cpp:258-353 | a device scores above zero iff it has every required feature, a family with the GRAPHICS or the TRANSFER flag (the test at line 369), a presenting family, the swapchain extension, a surface format and a presentation mode |
| VulkanContexts.TransferOnlyDeviceScored | TerrainGenerator/src/engine/graphics/renderer/VulkanContext.cpp:281-299 | as written, a device whose only family can transfer and present but not draw is scored above 1000 and uses that family for both queues |
| VulkanContexts.DeviceTypeDecidesBetweenEqualDevices | TerrainGenerator/src/engine/graphics/renderer/VulkanContext.cpp:258-353 | between otherwise equal eligible devices (queue families found with the GRAPHICS-or-TRANSFER test), the better device type scores higher |
| VulkanContexts.GetPhysicalDeviceScore | TerrainGenerator/src/engine/graphics/renderer/VulkanContext.cpp:258-353 | the scoring code, with the queue families found by the GRAPHICS-or-TRANSFER test, computes the score: 0 for an ineligible device, otherwise tier plus shared-family bonus plus 2D limit plus device-local megabytes |
| VulkanContexts.BestDeviceUnique | TerrainGenerator/src/engine/graphics/renderer/VulkanContext.cpp:238-248 | the highest-scoring device that comes first in the enumeration is unique |
| VulkanContexts.ScoreDevices | TerrainGenerator/src/engine/graphics/renderer/VulkanContext.cpp:240-244 | the scoring loop yields every device's score (as written, with the GRAPHICS-or-TRANSFER queue test), in enumeration order |
| VulkanContexts.FirstHighest | TerrainGenerator/src/engine/graphics/renderer/VulkanContext.cpp:238-248 | the front of the descending multimap is the first device with the highest score |
| VulkanContexts.SelectBestDevice | TerrainGenerator/src/engine/graphics/renderer/VulkanContext.cpp:225-256 | no device fails with one error, only zero scores with the other, and otherwise the first highest-scoring device is chosen with a positive score, scored as written |
| VulkanContexts.RequiredInstanceExtensions | TerrainGenerator/src/engine/graphics/renderer/VulkanContext.cpp:145-199 | SDL's extensions in order, followed by debug utils iff validation is enabled |
| VulkanContexts.GetRequiredInstanceExtensions | TerrainGenerator/src/engine/graphics/renderer/VulkanContext.cpp:145-199 | fails when SDL cannot report its extensions; otherwise succeeds iff every required extension is available, and else names the first one missing |
| VulkanContexts.VulkanContext.constructor | TerrainGenerator/src/engine/graphics/renderer/VulkanContext.h:39-53 | a context starts with no physical device, no queue families and no memory types |
| VulkanContexts.VulkanContext.SelectPhysicalDevice | TerrainGenerator/src/engine/graphics/renderer/VulkanContext.cpp:225-256 | the context holds the best device, its queue families as the GRAPHICS-or-TRANSFER scan finds them, and its memory types, or throws and changes nothing |
| VulkanContexts.VulkanContext.GetMemoryTypeIndex | TerrainGenerator/src/engine/graphics/renderer/VulkanContext.cpp:528-539 | returns the first memory type allowed by the filter with all wanted properties, and fails iff there is none |
| Renderers.ScanSurfaceFormats | TerrainGenerator/src/engine/graphics/renderer/Renderer.cpp:351-361 | the scan stops with the preferred sRGB format iff some format is undefined or is that format |
| Renderers.GetBestSurfaceFormat | TerrainGenerator/src/engine/graphics/renderer/Renderer.cpp:349-364 | picks the preferred sRGB format when offered or unconstrained, and otherwise the first format |
| Renderers.BestSurfaceFormatIsOffered | TerrainGenerator/src/engine/graphics/renderer/Renderer.cpp:349-364 | the chosen format is offered, unless the surface leaves the format free |
| Renderers.ScanPresentationModes | TerrainGenerator/src/engine/graphics/renderer/Renderer.cpp:368-382 | mailbox wins as soon as seen, then immediate, then FIFO |
| Renderers.GetBestPresentationMode | TerrainGenerator/src/engine/graphics/renderer/Renderer.cpp:366-383 | mailbox iff offered; immediate iff offered without mailbox; FIFO otherwise |
| Renderers.Clamp | TerrainGenerator/src/engine/graphics/renderer/Renderer.cpp:393-397 | the result lies within the bounds and keeps a value already inside them |
| Renderers.ClampIdempotent | TerrainGenerator/src/engine/graphics/renderer/Renderer.cpp:393-397 | clamping twice is clamping once |
| Renderers.GetDrawableSurfaceExtent | TerrainGenerator/src/engine/graphics/renderer/Renderer.cpp:385-401 | the surface's fixed extent is used when it has one; otherwise the drawable size is clamped into the allowed extents |
| Renderers.DrawableSizeKeptWhenInRange | TerrainGenerator/src/engine/graphics/renderer/Renderer.cpp:385-401 | a drawable size within the allowed extents is used unchanged |
| Renderers.SwapchainImageCount | TerrainGenerator/src/engine/graphics/renderer/Renderer.cpp:279-284 | the image count never exceeds a non-zero maximum |
| Renderers.SwapchainImageCountWithinLimits | TerrainGenerator/src/engine/graphics/renderer/Renderer.cpp:279-284 | it is the minimum or one more, and one more whenever the maximum allows |
| Renderers.SwapchainSharing | TerrainGenerator/src/engine/graphics/renderer/Renderer.cpp:296-309 | images are exclusive iff graphics and presentation share a family, and otherwise shared between the two families |
| Renderers.ChooseSwapchainSettings | TerrainGenerator/src/engine/graphics/renderer/Renderer.cpp:271-323 | the swapchain is created with the best format, mode, extent, image count and sharing |
| Renderers.StencilTestMatchesCandidates | TerrainGenerator/src/engine/graphics/renderer/Renderer.cpp:600-618 | a depth format tried is marked as supporting stencil iff it has an 8-bit stencil component |
| Renderers.AcquireActionFor | TerrainGenerator/src/engine/graphics/renderer/Renderer.cpp:36-54 | an out-of-date swapchain is recreated and the frame skipped; success and suboptimal render; anything else throws |
| Renderers.PresentActionFor | TerrainGenerator/src/engine/graphics/renderer/Renderer.cpp:114-137 | presentation recreates iff out of date, suboptimal or resized; keeps the swapchain iff it succeeded without a resize; throws otherwise |
| Renderers.ResizeFlagOverridesPresentErrors | TerrainGenerator/src/engine/graphics/renderer/Renderer.cpp:125-134 | a pending resize recreates whatever the result; without one, only unexpected results throw |
| Renderers.NextFrameSlot | TerrainGenerator/src/engine/graphics/renderer/Renderer.cpp:136 | the next frame slot is below the number of frames in flight |
| Renderers.FrameSlotsAlternate | TerrainGenerator/src/engine/graphics/renderer/Renderer.cpp:136 | with two frames in flight the slots alternate |
| Renderers.Undo | TerrainGenerator/src/engine/graphics/renderer/Renderer.cpp:633-642 | every creation step has exactly one matching destruction step |
| Renderers.CleanupReversesBuild | TerrainGenerator/src/engine/graphics/renderer/Renderer.cpp:633-668 | cleanup first waits for the device, then destroys in reverse creation order |
| Renderers.WaitUntilDrawable | TerrainGenerator/src/engine/graphics/renderer/Renderer.cpp:651-659 | the wait loop stops at the first poll with a drawable surface, having waited once per earlier poll |
| Renderers.DrawablePollHasArea | TerrainGenerator/src/engine/graphics/renderer/Renderer.cpp:651-659 | after the wait the window is not minimised and the surface extent, or the drawable size, has area |
| Renderers.Renderer.constructor | TerrainGenerator/src/engine/graphics/renderer/Renderer.h:42-66 | a renderer starts at frame slot 0, with FIFO, no resize pending, no stencil and no swapchain |
| Renderers.Renderer.FindDepthStencilFormat | TerrainGenerator/src/engine/graphics/renderer/Renderer.cpp:600-618 | returns a usable depth format, marking stencil support for the stencil format, and fails iff none of the candidates is usable |
| Renderers.Renderer.BuildPresentationObjects | TerrainGenerator/src/engine/graphics/renderer/Renderer.cpp:15-26 | builds swapchain, render pass, depth buffer, framebuffers and command buffers in order with the chosen settings; fails iff no candidate depth format is usable, and then only the swapchain has been built (the render pass looks the format up first, line 475) |
| Renderers.Renderer.Construct | TerrainGenerator/src/engine/graphics/renderer/Renderer.cpp:15-26 | the renderer holds the chosen swapchain settings; it fails iff no depth format is usable, logging only the swapchain and leaving the depth format and stencil flag as they were, and otherwise logs every build step and holds a candidate depth format |
| Renderers.Renderer.RecreatePresentationObjects | TerrainGenerator/src/engine/graphics/renderer/Renderer.cpp:644-668 | waits until the first drawable poll, tears down in reverse order and rebuilds with fresh settings, failing iff no depth format is usable (then only the swapchain is rebuilt), never losing stencil support |
| Renderers.Renderer.ProcessWindowResize | TerrainGenerator/src/engine/graphics/renderer/Renderer.cpp:191-194 | a resize is recorded as pending |
| Renderers.Renderer.PrepareRender | TerrainGenerator/src/engine/graphics/renderer/Renderer.cpp:36-54 | waits for and resets the frame's fence, acquires an image, then renders, recreates and skips, or throws as the acquire result says |
| Renderers.Renderer.Present | TerrainGenerator/src/engine/graphics/renderer/Renderer.cpp:114-137 | presents the acquired image; recreates on out-of-date, suboptimal or resize and clears the resize; advances the frame slot unless it throws |
| Chunks.GlobalIndex | TerrainGenerator/src/terrain_generator/Chunk.cpp:46-47 | a sample's global index is the chunk offset plus the local index |
| Chunks.NoiseMap | TerrainGenerator/src/terrain_generator/Chunk.cpp:33-61 | the map has 17 × 17 samples |
| Chunks.CreateNoiseMap | TerrainGenerator/src/terrain_generator/Chunk.cpp:33-61 | the nested loop fills every sample with the five-octave height and returns the specified map |
| Chunks.NoiseMapByEntries | TerrainGenerator/src/terrain_generator/Chunk.cpp:33-61 | a well-shaped map with the right sample in every cell is the noise map |
| Chunks.NeighboursShareEdges | TerrainGenerator/src/terrain_generator/Chunk.cpp:46-47 | a chunk's last row and column equal the first row and column of its neighbours |
| Chunks.SampleDependsOnGlobalIndex | TerrainGenerator/src/terrain_generator/Chunk.cpp:46-56 | samples with the same global coordinates have the same height, whichever chunk holds them |
| Chunks.HeightBounds | TerrainGenerator/src/terrain_generator/Chunk.cpp:49-56 | with simplex noise in [-1, 1], heights lie between 0 and 48 × 1.9375² |
| Chunks.BandIndex | TerrainGenerator/src/terrain_generator/Chunk.cpp:128-185 | a biome's band is one of the bands the thresholds define |
| Chunks.GetBiome | TerrainGenerator/src/terrain_generator/Chunk.cpp:128-185 | the biome's band lies above exactly the thresholds at or below the height |
| Chunks.BiomeMonotone | TerrainGenerator/src/terrain_generator/Chunk.cpp:128-185 | a higher point never lies in a lower band |
| Chunks.EveryBiomeReached | TerrainGenerator/src/terrain_generator/Chunk.cpp:128-185 | every biome is the biome of some height |
| Chunks.GetBiomeColour | TerrainGenerator/src/terrain_generator/Chunk.cpp:128-185 | the colour is that of exactly one biome, the height's own, so heights share a colour iff they share a biome |
| Chunks.BiomeColoursDistinct | TerrainGenerator/src/terrain_generator/Chunk.cpp:128-185 | different biomes have different colours |
| Chunks.CellVertices | TerrainGenerator/src/terrain_generator/Chunk.cpp:89-111 | each cell contributes four vertices |
| Chunks.CellIndices | TerrainGenerator/src/terrain_generator/Chunk.cpp:113-118 | each cell contributes six indices, two triangles over its four vertices |
| Chunks.RowVertices | TerrainGenerator/src/terrain_generator/Chunk.cpp:72-122 | a row of z cells has 4z vertices |
| Chunks.MeshVertices | TerrainGenerator/src/terrain_generator/Chunk.cpp:72-122 | the mesh has four vertices per cell |
| Chunks.MeshIndices | TerrainGenerator/src/terrain_generator/Chunk.cpp:113-120 | six indices per cell, each naming one of the mesh's vertices |
| Chunks.MeshIndexPattern | TerrainGenerator/src/terrain_generator/Chunk.cpp:113-120 | cell k's indices are 4k + 0, 1, 2, 2, 1, 3 |
| Chunks.RowVertexCell | TerrainGenerator/src/terrain_generator/Chunk.cpp:89-111 | cell z's vertices sit at positions 4z to 4z + 4 of its row |
| Chunks.MeshVertexRow | TerrainGenerator/src/terrain_generator/Chunk.cpp:72-122 | row x's vertices sit at their row's slot of the mesh |
| Chunks.CellCorners | TerrainGenerator/src/terrain_generator/Chunk.cpp:89-118 | a cell's two triangles are drawn over its four corners in the right order, coloured by the first corner's biome |
| Chunks.EmitCell | TerrainGenerator/src/terrain_generator/Chunk.cpp:89-120 | one loop iteration emits the cell's vertices and indices |
| Chunks.EmitRow | TerrainGenerator/src/terrain_generator/Chunk.cpp:74-121 | the inner loop emits a row's vertices and extends the indices by one row |
| Chunks.BuildMesh | TerrainGenerator/src/terrain_generator/Chunk.cpp:63-122 | the nested loop builds the specified mesh |
| Chunks.MeshSize | TerrainGenerator/src/terrain_generator/Chunk.cpp:63-126 | 1024 vertices and 1536 indices, every index naming a vertex and fitting 16 bits |
| Chunks.ModelTranslation | TerrainGenerator/src/terrain_generator/Chunk.cpp:16 | the chunk is translated by its position times the chunk size, at height 0 |
| Chunks.NeighboursMeetSeamlessly | TerrainGenerator/src/terrain_generator/Chunk.cpp:16-56 | the far edge of one chunk lies on the near edge of the next in world space |
| Chunks.Chunk.constructor | TerrainGenerator/src/terrain_generator/Chunk.cpp:13-18 | a chunk holds its position, translation and the mesh of its noise map |
| Chunks.Chunk.InitialiseVertices | TerrainGenerator/src/terrain_generator/Chunk.cpp:63-126 | the buffers are filled with the mesh and its indices, in bytes |
| Chunks.Chunk.Render | TerrainGenerator/src/terrain_generator/Chunk.cpp:23-31 | pushes the model translation and draws all indices, each naming an uploaded vertex |
| Windows.Toggle | TerrainGenerator/src/engine/window/Window.cpp:52-80 | toggling flips fullscreen, remembers the windowed size on entry, restores it on exit and flags the change |
| Windows.ToggleCalls | TerrainGenerator/src/engine/window/Window.cpp:52-80 | toggling sets the size, the fullscreen flag and the border, in that order |
| Windows.ToggleTwice | TerrainGenerator/src/engine/window/Window.cpp:52-80 | two toggles restore the fullscreen state and remembered size, and a windowed size |
| Windows.Resize | TerrainGenerator/src/engine/window/Window.cpp:88-98 | the first resize after a toggle only clears the flag; any other records the new size |
| Windows.FullscreenResizeSwallowedOnce | TerrainGenerator/src/engine/window/Window.cpp:88-98 | the resize that follows entering fullscreen is ignored, the next one is not |
| Windows.Destroyed | TerrainGenerator/src/engine/window/Window.cpp:38-50 | destruction resets the window to windowed with no pending change |
| Windows.Run | TerrainGenerator/src/engine/window/Window.cpp:38-98 | through any history of toggles, resizes and destructions, the window is fullscreen iff it remembers a windowed size |
| Windows.Window.constructor | TerrainGenerator/src/engine/window/Window.h:18-27 | a window starts with no handle, size 0 × 0 and windowed |
| Windows.Window.Create | TerrainGenerator/src/engine/window/Window.cpp:19-36 | throws on a null handle; otherwise records the size and toggles to fullscreen when asked |
| Windows.Window.Destroy | TerrainGenerator/src/engine/window/Window.cpp:38-50 | a live window is destroyed and reset; a missing one is left alone |
| Windows.Window.ToggleFullscreen | TerrainGenerator/src/engine/window/Window.cpp:52-80 | the window's fields and SDL calls follow the toggle |
| Windows.Window.ProcessResize | TerrainGenerator/src/engine/window/Window.cpp:88-98 | the window's fields follow the resize rule |
| Windows.Window.ChangeSize | TerrainGenerator/src/engine/window/Window.cpp:82-86 | asks SDL for the size and records it as a resize |
| ValidationLayers.ValidationLayersEnabled | TerrainGenerator/src/engine/graphics/renderer/VulkanValidationLayers.h:14-18 | validation is on iff the build is a debug build off Apple platforms |
| ValidationLayers.AreSupported | TerrainGenerator/src/engine/graphics/renderer/VulkanValidationLayers.cpp:14-43 | supported iff every required layer is among the installed layers |
| ValidationLayers.SupportedIffKhronosListed | TerrainGenerator/src/engine/graphics/renderer/VulkanValidationLayers.h:20-22 | that is, iff the Khronos validation layer is installed |
| ValidationLayers.DebugMessenger.constructor | TerrainGenerator/src/engine/graphics/renderer/VulkanValidationLayers.h:24 | the messenger starts null |
| ValidationLayers.DebugMessenger.CreateDebugUtilsMessenger | TerrainGenerator/src/engine/graphics/renderer/VulkanValidationLayers.cpp:45-50 | without the loader's create function the extension is reported missing; otherwise the create call's result is returned |
| ValidationLayers.DebugMessenger.SetupDebugUtilsMessenger | TerrainGenerator/src/engine/graphics/renderer/VulkanValidationLayers.cpp:61-70 | setup succeeds iff the function is loaded and creation succeeds, and then holds the new messenger |
| ValidationLayers.DebugMessenger.DestroyDebugUtilsMessenger | TerrainGenerator/src/engine/graphics/renderer/VulkanValidationLayers.cpp:72-81 | a live messenger is destroyed iff the destroy function is loaded |
| ValidationLayers.Wrapped | TerrainGenerator/src/engine/graphics/renderer/VulkanValidationLayers.cpp:85-100 | wrapping keeps the message's length in bytes |
| ValidationLayers.WrapOnlyBreaksSpaces | TerrainGenerator/src/engine/graphics/renderer/VulkanValidationLayers.cpp:89-100 | wrapping changes only spaces, each into a line break |
| ValidationLayers.BreakFollowsFullLine | TerrainGenerator/src/engine/graphics/renderer/VulkanValidationLayers.cpp:89-100 | a line break is inserted only after more than 100 bytes without one |
| ValidationLayers.FullLineBreaksAtSpace | TerrainGenerator/src/engine/graphics/renderer/VulkanValidationLayers.cpp:89-100 | a space after more than 100 bytes without a break is always broken |
| ValidationLayers.WrapBreaksExactlyFullLines | TerrainGenerator/src/engine/graphics/renderer/VulkanValidationLayers.cpp:89-100 | from the start of a message, a space becomes a break iff more than 100 bytes precede it on its line |
| ValidationLayers.DebugCallback | TerrainGenerator/src/engine/graphics/renderer/VulkanValidationLayers.cpp:83-106 | the callback's in-place loop over the message's bytes yields the wrapped message, and it never aborts the Vulkan call |

## Left out

- Vulkan, SDL and VMA themselves: object creation, command recording, queue submission and memory mapping are not modelled. Handles, result codes and query answers are parameters, and the order of calls is a log.
- A failing create call (swapchain, render pass, framebuffer, pipeline, pool, semaphores, fences, command buffers) throws in the source. The model gives the created handle as a parameter and does not model that failure.
- `glm::simplex` is a parameter of the noise functions. Its bound, [-1, 1], is an assumption of `Chunks.HeightBounds`.
- Floating point: heights, colours, depths and blend factors are reals, so rounding is not modelled.
- Vertex normals (`Chunk.cpp:75-87`, the cross products and `glm::normalize`) are left out. They need square roots; vertices carry position and colour.
- The camera, the world of chunks around the camera, the application's `main` and its event loop are not part of this model.
- `Buffer.cpp` (staging buffers and the upload of vertex and index data) is not part of this model. The buffers record the byte count they upload.
- Shader module loading, pipeline layout and descriptor set layout objects, descriptor set allocation, the pipeline cache and the frame synchronisation objects are not modelled; only their parameters are.
- Fixed-function state other than the configuration-driven fields (viewport, topology, multisampling, colour write mask) is not modelled.
- The command buffer `TransitionImageLayout` allocates is not freed when the transition throws. That leak is not modelled.
- The message box and `std::cerr` output of the debug callback are left out. The callback returns the wrapped text instead.
- `Window(title, size, isFullscreen)`, `SetIcon`, `SetBordered` and `CreateVulkanSurface` are not modelled. The three-argument constructor is the default constructor followed by `Create`.
- `GetDrawableSize` and `IsMinimised` become a sequence of polls of the window and surface.
- Renderers.Renderer.RecreatePresentationObjects: requires that some poll eventually shows a drawable window. The source waits on window events forever otherwise. `Renderers.WaitUntilDrawable`, `Renderers.Renderer.PrepareRender` and `Renderers.Renderer.Present` carry the same requirement when they recreate.
- Renderers.GetBestSurfaceFormat: requires a non-empty format list. The source takes `front()` of the list, and device selection only admits devices that report a surface format.
- UniformBuffers.UniformBuffer.SetBufferData: requires the write to lie within the buffer. The source's `memcpy` past the mapped range is undefined behaviour.
- GraphicsPipelines.GraphicsPipeline.SetUniformBufferData: requires a valid image index and enough data for the range. The source indexes a vector and reads the caller's data without checks.
- VulkanContexts.VulkanContext.SelectPhysicalDevice: requires at most 32 memory types per device, the limit (VK_MAX_MEMORY_TYPES) Vulkan guarantees.

## Findings

| source | as written | input that shows it | evidently intended | confidence | as-written member | corrected member |
|---|---|---|---|---|---|---|
| TerrainGenerator/src/engine/graphics/pipeline/GraphicsPipeline.cpp:740 | every binding before the updated one adds `size.value()` to the offset, and a sampler binding has no size | a sampler at binding 0 and a 256-byte uniform at binding 1; updating binding 1 throws `bad_optional_access` | skip sampler bindings (add 0), as the descriptor offsets at lines 683-690 do | high, not executed | DescriptorLayout.SamplerBeforeUniformThrows | DescriptorLayout.UniformWriteRange |
| TerrainGenerator/src/engine/graphics/renderer/VulkanContext.cpp:369 | a family with the graphics or the transfer bit is taken as the graphics family | families [transfer only and can present, graphics only]: index 0, which has no graphics, is chosen | test the graphics bit alone | medium, not executed | VulkanContexts.TransferOnlyFamilyTakenForGraphics | VulkanContexts.GraphicsFamilyOffersGraphics |

Device scoring and selection keep the queue test at `VulkanContext.cpp:369` as written, because that is what the program runs: `VulkanContexts.TransferOnlyDeviceScored` shows a device with no graphics family scored and selectable. The corrected test is stated for the queue family scan alone.
