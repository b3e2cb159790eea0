/** Vocabulary shared by the renderer model: the Vulkan enumerations and flag
    bits the core code branches on, opaque handles, and the Option/Result
    wrappers that stand for std::optional and for thrown exceptions. */
module VkTypes {

  datatype Option<T> = None | Some(value: T)

  /** A value, or the exception the source would have thrown. */
  datatype Result<T, E> = Ok(value: T) | Err(error: E)

  /** An opaque Vulkan/VMA/SDL object; 0 plays the part of VK_NULL_HANDLE / nullptr. */
  type Handle = nat
  const NullHandle: Handle := 0

  /** One byte of host-visible memory. */
  type Byte = bv8

  const U32Max: nat := 0xFFFF_FFFF
  const U32Modulus: nat := 0x1_0000_0000
  const U64Max: nat := 0xFFFF_FFFF_FFFF_FFFF

  /** The value a uint32 holds after storing x: x reduced modulo 2^32. */
  function WrapU32(x: nat): (r: nat)
    ensures r < U32Modulus
    ensures x < U32Modulus ==> r == x
  {
    x % U32Modulus
  }

  /** VkResult, restricted to the codes the core distinguishes. */
  datatype VkResult =
    | Success
    | NotReady
    | Timeout
    | Suboptimal
    | ErrorOutOfDate
    | ErrorOutOfHostMemory
    | ErrorOutOfDeviceMemory
    | ErrorDeviceLost
    | ErrorSurfaceLost
    | OtherResult(code: int)

  /** VkFormat: the 24 vertex-attribute formats, the surface and depth formats the
      renderer names, and every other format as an opaque code. */
  datatype Format =
    | FormatUndefined
    | R8Uint | R8G8Uint | R8G8B8Uint | R8G8B8A8Uint
    | R16Sfloat | R16G16Sfloat | R16G16B16Sfloat | R16G16B16A16Sfloat
    | R32Sint | R32G32Sint | R32G32B32Sint | R32G32B32A32Sint
    | R32Uint | R32G32Uint | R32G32B32Uint | R32G32B32A32Uint
    | R32Sfloat | R32G32Sfloat | R32G32B32Sfloat | R32G32B32A32Sfloat
    | R64Sfloat | R64G64Sfloat | R64G64B64Sfloat | R64G64B64A64Sfloat
    | B8G8R8A8Srgb | B8G8R8A8Unorm
    | D32SfloatS8Uint | D24UnormS8Uint | D32Sfloat | D16UnormS8Uint | D16Unorm
    | OtherFormat(code: int)

  datatype ColorSpace = SrgbNonlinear | OtherColorSpace(code: int)

  datatype SurfaceFormat = SurfaceFormat(format: Format, colorSpace: ColorSpace)

  datatype PresentMode = Immediate | Mailbox | Fifo | FifoRelaxed | OtherPresentMode(code: int)

  datatype ImageLayout =
    | LayoutUndefined
    | LayoutGeneral
    | LayoutColorAttachmentOptimal
    | LayoutDepthStencilAttachmentOptimal
    | LayoutShaderReadOnlyOptimal
    | LayoutTransferSrcOptimal
    | LayoutTransferDstOptimal
    | LayoutPresentSrc
    | OtherLayout(code: int)

  datatype ImageTiling = TilingOptimal | TilingLinear | OtherTiling(code: int)

  datatype Extent2D = Extent2D(width: nat, height: nat)

  /** ShaderModule::Stage: None is 0, the others carry one VkShaderStageFlagBits bit. */
  datatype Stage = StageNone | Vertex | TessellationControl | TessellationEvaluation | Geometry | Fragment | Compute

  function StageBits(s: Stage): (bits: bv32)
    ensures s != StageNone <==> bits != 0
  {
    match s
    case StageNone => 0
    case Vertex => 0x1
    case TessellationControl => 0x2
    case TessellationEvaluation => 0x4
    case Geometry => 0x8
    case Fragment => 0x10
    case Compute => 0x20
  }

  // VkQueueFlagBits
  const QueueGraphicsBit: bv32 := 0x1
  const QueueComputeBit: bv32 := 0x2
  const QueueTransferBit: bv32 := 0x4

  // VkMemoryHeapFlagBits
  const MemoryHeapDeviceLocalBit: bv32 := 0x1

  // VkAccessFlagBits
  const AccessShaderReadBit: bv32 := 0x20
  const AccessDepthStencilAttachmentReadBit: bv32 := 0x200
  const AccessDepthStencilAttachmentWriteBit: bv32 := 0x400
  const AccessTransferWriteBit: bv32 := 0x1000

  // VkPipelineStageFlagBits
  const PipelineStageTopOfPipeBit: bv32 := 0x1
  const PipelineStageFragmentShaderBit: bv32 := 0x80
  const PipelineStageEarlyFragmentTestsBit: bv32 := 0x100
  const PipelineStageTransferBit: bv32 := 0x1000

  // VkBufferUsageFlagBits
  const BufferUsageTransferSrcBit: bv32 := 0x1
  const BufferUsageTransferDstBit: bv32 := 0x2
  const BufferUsageUniformBufferBit: bv32 := 0x10
  const BufferUsageIndexBufferBit: bv32 := 0x40
  const BufferUsageVertexBufferBit: bv32 := 0x80

  // VkImageAspectFlagBits
  const ImageAspectColorBit: bv32 := 0x1
  const ImageAspectDepthBit: bv32 := 0x2
  const ImageAspectStencilBit: bv32 := 0x4

  // VkFormatFeatureFlagBits
  const FormatFeatureDepthStencilAttachmentBit: bv32 := 0x200

  /** (flags & wanted) == wanted: every wanted bit is set in flags. */
  predicate HasAll(flags: bv32, wanted: bv32) {
    flags & wanted == wanted
  }
}
