/** The decision logic of the free helpers in vulkan_util: which candidate
    format a device supports, which access masks and pipeline stages an image
    layout transition synchronises, and the fixed parameters CreateImage and
    CopyBuffer hand to Vulkan. */
module VulkanUtility {
  import opened VkTypes

  /** The exceptions the helpers throw. */
  datatype UtilityError = NoSupportedFormat | UnsupportedLayoutTransition

  /** VkFormatProperties: the features a format offers under each tiling. */
  datatype FormatProperties = FormatProperties(linearTilingFeatures: bv32, optimalTilingFeatures: bv32)

  /** A format's properties offer every requested feature bit under the
      requested tiling; a tiling other than linear or optimal never does. */
  predicate SupportsFeatures(properties: FormatProperties, tiling: ImageTiling, features: bv32) {
    (tiling == TilingLinear && HasAll(properties.linearTilingFeatures, features))
    || (tiling == TilingOptimal && HasAll(properties.optimalTilingFeatures, features))
  }

  /** Whether the device (its vkGetPhysicalDeviceFormatProperties answer is
      `formatProperties`) supports format f for the request. */
  predicate Usable(formatProperties: Format -> FormatProperties, f: Format, tiling: ImageTiling, features: bv32) {
    SupportsFeatures(formatProperties(f), tiling, features)
  }

  /** The first candidate, in list order, that the device supports with every
      requested feature under the requested tiling; an error when none does. */
  method FindSupportedFormat(formatProperties: Format -> FormatProperties, candidates: seq<Format>, tiling: ImageTiling, features: bv32)
    returns (r: Result<Format, UtilityError>)
    ensures r.Err? <==> forall i :: 0 <= i < |candidates| ==> !Usable(formatProperties, candidates[i], tiling, features)
    ensures r.Err? ==> r.error == NoSupportedFormat
    ensures r.Ok? ==> exists i :: 0 <= i < |candidates| && candidates[i] == r.value
                                  && Usable(formatProperties, candidates[i], tiling, features)
                                  && forall j :: 0 <= j < i ==> !Usable(formatProperties, candidates[j], tiling, features)
  {
    var i := 0;
    while i < |candidates|
      invariant 0 <= i <= |candidates|
      invariant forall j :: 0 <= j < i ==> !Usable(formatProperties, candidates[j], tiling, features)
    {
      if Usable(formatProperties, candidates[i], tiling, features) {
        return Ok(candidates[i]);
      }
      i := i + 1;
    }
    return Err(NoSupportedFormat);
  }

  /** VkImageSubresourceRange. */
  datatype SubresourceRange = SubresourceRange(aspectMask: bv32, baseMipLevel: nat, levelCount: nat, baseArrayLayer: nat, layerCount: nat)

  /** The VkImageMemoryBarrier and the two stage masks of the
      vkCmdPipelineBarrier call that TransitionImageLayout records. */
  datatype LayoutBarrier = LayoutBarrier(
    oldLayout: ImageLayout,
    newLayout: ImageLayout,
    srcAccessMask: bv32,
    dstAccessMask: bv32,
    sourceStage: bv32,
    destinationStage: bv32,
    range: SubresourceRange)

  /** The aspect a barrier covers: depth (and stencil when the format has
      one) for a depth-stencil attachment, colour otherwise. */
  function BarrierAspect(newLayout: ImageLayout, supportStencil: bool): (aspect: bv32)
    ensures newLayout == LayoutDepthStencilAttachmentOptimal && supportStencil ==> aspect == 0x6
    ensures newLayout == LayoutDepthStencilAttachmentOptimal && !supportStencil ==> aspect == ImageAspectDepthBit
    ensures newLayout != LayoutDepthStencilAttachmentOptimal ==> aspect == ImageAspectColorBit
  {
    if newLayout == LayoutDepthStencilAttachmentOptimal then
      (if supportStencil then ImageAspectDepthBit | ImageAspectStencilBit else ImageAspectDepthBit)
    else
      ImageAspectColorBit
  }

  /** Bit by bit: the colour aspect exactly off depth-stencil targets, the
      depth aspect exactly on them, and the stencil aspect exactly on them
      when the format has a stencil component. */
  lemma BarrierAspectBits(newLayout: ImageLayout, supportStencil: bool)
    ensures var aspect := BarrierAspect(newLayout, supportStencil);
            && (aspect & ImageAspectColorBit != 0 <==> newLayout != LayoutDepthStencilAttachmentOptimal)
            && (aspect & ImageAspectDepthBit != 0 <==> newLayout == LayoutDepthStencilAttachmentOptimal)
            && (aspect & ImageAspectStencilBit != 0 <==> newLayout == LayoutDepthStencilAttachmentOptimal && supportStencil)
  {
  }

  /** The three transitions the helper accepts. */
  predicate SupportedTransition(oldLayout: ImageLayout, newLayout: ImageLayout) {
    || (oldLayout == LayoutUndefined && newLayout == LayoutTransferDstOptimal)
    || (oldLayout == LayoutTransferDstOptimal && newLayout == LayoutShaderReadOnlyOptimal)
    || (oldLayout == LayoutUndefined && newLayout == LayoutDepthStencilAttachmentOptimal)
  }

  /** The barrier TransitionImageLayout records, or the invalid_argument it
      throws for any other pair of layouts. */
  function TransitionBarrier(oldLayout: ImageLayout, newLayout: ImageLayout, supportStencil: bool): (r: Result<LayoutBarrier, UtilityError>)
    ensures r.Ok? <==> SupportedTransition(oldLayout, newLayout)
    ensures r.Err? ==> r.error == UnsupportedLayoutTransition
    ensures r.Ok? ==> r.value.oldLayout == oldLayout && r.value.newLayout == newLayout
    ensures r.Ok? ==> r.value.range == SubresourceRange(BarrierAspect(newLayout, supportStencil), 0, 1, 0, 1)
  {
    var range := SubresourceRange(BarrierAspect(newLayout, supportStencil), 0, 1, 0, 1);
    if oldLayout == LayoutUndefined && newLayout == LayoutTransferDstOptimal then
      Ok(LayoutBarrier(oldLayout, newLayout, 0, AccessTransferWriteBit,
                       PipelineStageTopOfPipeBit, PipelineStageTransferBit, range))
    else if oldLayout == LayoutTransferDstOptimal && newLayout == LayoutShaderReadOnlyOptimal then
      Ok(LayoutBarrier(oldLayout, newLayout, AccessTransferWriteBit, AccessShaderReadBit,
                       PipelineStageTransferBit, PipelineStageFragmentShaderBit, range))
    else if oldLayout == LayoutUndefined && newLayout == LayoutDepthStencilAttachmentOptimal then
      Ok(LayoutBarrier(oldLayout, newLayout, 0, AccessDepthStencilAttachmentReadBit | AccessDepthStencilAttachmentWriteBit,
                       PipelineStageTopOfPipeBit, PipelineStageEarlyFragmentTestsBit, range))
    else
      Err(UnsupportedLayoutTransition)
  }

  /** A transition out of UNDEFINED discards the old contents, so it waits on
      no earlier access and starts at the top of the pipe; every accepted
      transition makes some access available to its destination. */
  lemma TransitionFromUndefinedWaitsOnNothing(oldLayout: ImageLayout, newLayout: ImageLayout, supportStencil: bool)
    requires TransitionBarrier(oldLayout, newLayout, supportStencil).Ok?
    ensures var b := TransitionBarrier(oldLayout, newLayout, supportStencil).value;
            && (oldLayout == LayoutUndefined <==> b.srcAccessMask == 0)
            && (oldLayout == LayoutUndefined <==> b.sourceStage == PipelineStageTopOfPipeBit)
            && b.dstAccessMask != 0
  {
  }

  /** The texture upload path UNDEFINED -> TRANSFER_DST -> SHADER_READ_ONLY is
      synchronised end to end: the second barrier waits on exactly the access
      and stage the first one made available. */
  lemma UploadTransitionsChain(supportStencil: bool)
    ensures var first := TransitionBarrier(LayoutUndefined, LayoutTransferDstOptimal, supportStencil);
            var second := TransitionBarrier(LayoutTransferDstOptimal, LayoutShaderReadOnlyOptimal, supportStencil);
            && first.Ok? && second.Ok?
            && second.value.srcAccessMask == first.value.dstAccessMask
            && second.value.sourceStage == first.value.destinationStage
            && first.value.range.aspectMask == ImageAspectColorBit
  {
  }

  /** The depth-buffer transition makes both depth reads and depth writes
      available to the early fragment tests. */
  lemma DepthTransitionCoversDepthTests(supportStencil: bool)
    ensures var b := TransitionBarrier(LayoutUndefined, LayoutDepthStencilAttachmentOptimal, supportStencil);
            && b.Ok?
            && HasAll(b.value.dstAccessMask, AccessDepthStencilAttachmentReadBit)
            && HasAll(b.value.dstAccessMask, AccessDepthStencilAttachmentWriteBit)
            && b.value.destinationStage == PipelineStageEarlyFragmentTestsBit
  {
  }

  /** VkImageCreateInfo as CreateImage fills it. */
  datatype ImageCreateInfo = ImageCreateInfo(
    width: nat, height: nat, depth: nat,
    mipLevels: nat, arrayLayers: nat,
    format: Format, tiling: ImageTiling,
    initialLayout: ImageLayout, usage: bv32,
    samples: nat, exclusiveSharing: bool)

  /** The creation parameters CreateImage passes on: the caller's size,
      format, tiling and usage, everything else fixed. */
  function CreateImageInfo(width: nat, height: nat, format: Format, tiling: ImageTiling, usage: bv32): (info: ImageCreateInfo)
    ensures info.width == width && info.height == height
    ensures info.format == format && info.tiling == tiling && info.usage == usage
  {
    ImageCreateInfo(width, height, 1, 1, 1, format, tiling, LayoutUndefined, usage, 1, true)
  }

  /** Number of texels a created image holds over all levels, layers and samples. */
  function TexelCount(info: ImageCreateInfo): nat {
    info.width * info.height * info.depth * info.mipLevels * info.arrayLayers * info.samples
  }

  /** Every image CreateImage makes is a single-sampled 2D image with one
      level and one layer, owned by one queue family and starting out with
      undefined contents: it holds exactly width x height texels. */
  lemma CreatedImageIsPlain2D(width: nat, height: nat, format: Format, tiling: ImageTiling, usage: bv32)
    ensures var info := CreateImageInfo(width, height, format, tiling, usage);
            && TexelCount(info) == width * height
            && info.exclusiveSharing
            && info.initialLayout == LayoutUndefined
  {
  }

  /** VkBufferCopy. */
  datatype CopyRegion = CopyRegion(srcOffset: nat, dstOffset: nat, size: nat)

  /** The single region CopyBuffer records. */
  function CopyBufferRegion(size: nat): (region: CopyRegion)
    ensures region.size == size
  {
    CopyRegion(0, 0, size)
  }

  /** The effect of executing a copy region on the destination's bytes. */
  function ApplyCopy(source: seq<Byte>, destination: seq<Byte>, region: CopyRegion): (r: seq<Byte>)
    requires region.srcOffset + region.size <= |source|
    requires region.dstOffset + region.size <= |destination|
    ensures |r| == |destination|
    ensures forall i :: region.dstOffset <= i < region.dstOffset + region.size ==> r[i] == source[region.srcOffset + (i - region.dstOffset)]
    ensures forall i :: 0 <= i < |r| && !(region.dstOffset <= i < region.dstOffset + region.size) ==> r[i] == destination[i]
  {
    destination[..region.dstOffset]
    + source[region.srcOffset..region.srcOffset + region.size]
    + destination[region.dstOffset + region.size..]
  }

  /** CopyBuffer makes the first `size` bytes of the destination equal to the
      first `size` bytes of the source and leaves the rest alone. */
  lemma CopyBufferCopiesPrefix(source: seq<Byte>, destination: seq<Byte>, size: nat)
    requires size <= |source| && size <= |destination|
    ensures ApplyCopy(source, destination, CopyBufferRegion(size)) == source[..size] + destination[size..]
  {
  }
}
