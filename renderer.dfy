/** The presentation policy of the Renderer: which surface format,
    presentation mode, extent and image count the swapchain is built with,
    how the outcome of image acquisition and presentation is handled, how
    the frame-in-flight slot rotates, and in which order the presentation
    objects are torn down and rebuilt. Every Vulkan and SDL call is an entry
    of an event log, and what the calls report are parameters. */
module Renderers {
  import opened VkTypes
  import opened VulkanContexts
  import opened VulkanUtility

  /** Renderer::s_MaxFramesInFlight. */
  const MaxFramesInFlight: nat := 2

  /** The exceptions the renderer throws. */
  datatype RendererError =
    | AcquireFailed
    | PresentFailed
    | DepthStencilFormatUnavailable

  // ---------------------------------------------------------------------
  // Swapchain parameter selection
  // ---------------------------------------------------------------------

  const PreferredSurfaceFormat := SurfaceFormat(B8G8R8A8Srgb, SrgbNonlinear)

  /** An entry at which the surface-format scan returns: UNDEFINED (the
      surface accepts anything) or exactly the preferred pair. */
  predicate EndsFormatScan(f: SurfaceFormat) {
    f.format == FormatUndefined || f == PreferredSurfaceFormat
  }

  /** The early return of the surface-format loop, if any entry triggers it. */
  function ScanSurfaceFormats(formats: seq<SurfaceFormat>): (r: Option<SurfaceFormat>)
    ensures r.Some? <==> exists i :: 0 <= i < |formats| && EndsFormatScan(formats[i])
    ensures r.Some? ==> r.value == PreferredSurfaceFormat
  {
    if |formats| == 0 then None
    else if formats[0].format == FormatUndefined then Some(PreferredSurfaceFormat)
    else if formats[0].format == B8G8R8A8Srgb && formats[0].colorSpace == SrgbNonlinear then Some(formats[0])
    else
      var rest := ScanSurfaceFormats(formats[1..]);
      assert forall i :: 1 <= i < |formats| ==> formats[i] == formats[1..][i - 1];
      rest
  }

  /** B8G8R8A8_SRGB with the sRGB non-linear colour space when the surface
      leaves the choice open or offers that pair; the first offered format
      otherwise. The list must not be empty. */
  function GetBestSurfaceFormat(available: seq<SurfaceFormat>): (r: SurfaceFormat)
    requires |available| > 0
    ensures (exists i :: 0 <= i < |available| && EndsFormatScan(available[i])) ==> r == PreferredSurfaceFormat
    ensures (forall i :: 0 <= i < |available| ==> !EndsFormatScan(available[i])) ==> r == available[0]
  {
    match ScanSurfaceFormats(available)
    case Some(f) => f
    case None => available[0]
  }

  /** The chosen format is always one the surface offers, or the preferred
      pair when the surface reports UNDEFINED. */
  lemma BestSurfaceFormatIsOffered(available: seq<SurfaceFormat>)
    requires |available| > 0
    ensures var r := GetBestSurfaceFormat(available);
            r in available || (r == PreferredSurfaceFormat && exists i :: 0 <= i < |available| && available[i].format == FormatUndefined)
  {
    if exists i :: 0 <= i < |available| && EndsFormatScan(available[i]) {
      var i :| 0 <= i < |available| && EndsFormatScan(available[i]);
      if available[i].format != FormatUndefined {
        assert available[i] == PreferredSurfaceFormat;
      }
    }
  }

  /** The presentation-mode loop: MAILBOX returns at once, IMMEDIATE is
      remembered, and after the loop IMMEDIATE beats FIFO. */
  function ScanPresentationModes(modes: seq<PresentMode>, supportsImmediate: bool): (r: PresentMode)
    ensures Mailbox in modes ==> r == Mailbox
    ensures Mailbox !in modes && (supportsImmediate || Immediate in modes) ==> r == Immediate
    ensures Mailbox !in modes && !supportsImmediate && Immediate !in modes ==> r == Fifo
  {
    if |modes| == 0 then (if supportsImmediate then Immediate else Fifo)
    else if modes[0] == Mailbox then modes[0]
    else
      var r := ScanPresentationModes(modes[1..], supportsImmediate || modes[0] == Immediate);
      assert modes == [modes[0]] + modes[1..];
      r
  }

  /** MAILBOX if offered, else IMMEDIATE if offered, else FIFO (which every
      surface supports). */
  function GetBestPresentationMode(modes: seq<PresentMode>): (r: PresentMode)
    ensures r in {Mailbox, Immediate, Fifo}
    ensures r == Mailbox <==> Mailbox in modes
    ensures r == Immediate <==> Mailbox !in modes && Immediate in modes
    ensures r == Fifo <==> Mailbox !in modes && Immediate !in modes
  {
    ScanPresentationModes(modes, false)
  }

  /** std::clamp(v, lo, hi) as the standard library writes it. */
  function Clamp(v: nat, lo: nat, hi: nat): (r: nat)
    ensures lo <= hi ==> lo <= r <= hi
    ensures lo <= v <= hi ==> r == v
  {
    if v < lo then lo else if hi < v then hi else v
  }

  /** Clamping an already clamped value changes nothing. */
  lemma ClampIdempotent(v: nat, lo: nat, hi: nat)
    requires lo <= hi
    ensures Clamp(Clamp(v, lo, hi), lo, hi) == Clamp(v, lo, hi)
  {
  }

  /** The surface's current extent, unless both of its components carry the
      UINT32_MAX sentinel; then the window's drawable size clamped into the
      surface's extent range, component by component. */
  function GetDrawableSurfaceExtent(capabilities: SurfaceCapabilities, drawableSize: Extent2D): (r: Extent2D)
    ensures capabilities.currentExtent.width < U32Max || capabilities.currentExtent.height < U32Max
            ==> r == capabilities.currentExtent
    ensures capabilities.currentExtent.width >= U32Max && capabilities.currentExtent.height >= U32Max
            && capabilities.minImageExtent.width <= capabilities.maxImageExtent.width
            && capabilities.minImageExtent.height <= capabilities.maxImageExtent.height
            ==> && capabilities.minImageExtent.width <= r.width <= capabilities.maxImageExtent.width
                && capabilities.minImageExtent.height <= r.height <= capabilities.maxImageExtent.height
  {
    if capabilities.currentExtent.width < U32Max || capabilities.currentExtent.height < U32Max then
      capabilities.currentExtent
    else
      Extent2D(Clamp(drawableSize.width, capabilities.minImageExtent.width, capabilities.maxImageExtent.width),
               Clamp(drawableSize.height, capabilities.minImageExtent.height, capabilities.maxImageExtent.height))
  }

  /** A drawable size that already fits the surface's range is used as is. */
  lemma DrawableSizeKeptWhenInRange(capabilities: SurfaceCapabilities, drawableSize: Extent2D)
    requires capabilities.currentExtent.width >= U32Max && capabilities.currentExtent.height >= U32Max
    requires capabilities.minImageExtent.width <= drawableSize.width <= capabilities.maxImageExtent.width
    requires capabilities.minImageExtent.height <= drawableSize.height <= capabilities.maxImageExtent.height
    ensures GetDrawableSurfaceExtent(capabilities, drawableSize) == drawableSize
  {
  }

  /** The minimum image count the swapchain asks for: one more than the
      surface's minimum (as a uint32), lowered to the surface's maximum when
      it has one (a maximum of 0 means no limit) and is exceeded. */
  function SwapchainImageCount(capabilities: SurfaceCapabilities): (r: nat)
    ensures capabilities.maxImageCount > 0 ==> r <= capabilities.maxImageCount
  {
    var requested := WrapU32(capabilities.minImageCount + 1);
    if capabilities.maxImageCount > 0 && requested > capabilities.maxImageCount then capabilities.maxImageCount
    else requested
  }

  /** On a surface whose limits are consistent, the request is one image
      above the minimum when the maximum allows, and never below the
      minimum. */
  lemma SwapchainImageCountWithinLimits(capabilities: SurfaceCapabilities)
    requires capabilities.minImageCount < U32Max
    requires capabilities.maxImageCount == 0 || capabilities.minImageCount <= capabilities.maxImageCount
    ensures capabilities.minImageCount <= SwapchainImageCount(capabilities) <= capabilities.minImageCount + 1
    ensures capabilities.maxImageCount == 0 || capabilities.minImageCount < capabilities.maxImageCount
            ==> SwapchainImageCount(capabilities) == capabilities.minImageCount + 1
  {
  }

  /** How the swapchain images are shared between the queue families. */
  datatype SharingMode = Exclusive | Concurrent(queueFamilyIndices: seq<nat>)

  /** Exclusive ownership when one family both draws and presents;
      concurrent use by the two families otherwise. */
  function SwapchainSharing(graphicsFamily: nat, presentationFamily: nat): (r: SharingMode)
    ensures r.Exclusive? <==> graphicsFamily == presentationFamily
    ensures r.Concurrent? ==> r.queueFamilyIndices == [graphicsFamily, presentationFamily]
  {
    if graphicsFamily == presentationFamily then Exclusive
    else Concurrent([graphicsFamily, presentationFamily])
  }

  /** The swapchain parameters InitialiseSwapchain derives from the surface. */
  datatype SwapchainSettings = SwapchainSettings(
    surfaceFormat: SurfaceFormat,
    presentationMode: PresentMode,
    extent: Extent2D,
    minImageCount: nat,
    sharing: SharingMode)

  function ChooseSwapchainSettings(surface: SurfaceProperties, drawableSize: Extent2D, graphicsFamily: nat, presentationFamily: nat): (s: SwapchainSettings)
    requires |surface.surfaceFormats| > 0
    ensures s.surfaceFormat == GetBestSurfaceFormat(surface.surfaceFormats)
    ensures s.presentationMode == GetBestPresentationMode(surface.presentationModes)
    ensures s.extent == GetDrawableSurfaceExtent(surface.surfaceCapabilities, drawableSize)
    ensures s.minImageCount == SwapchainImageCount(surface.surfaceCapabilities)
    ensures s.sharing == SwapchainSharing(graphicsFamily, presentationFamily)
  {
    SwapchainSettings(
      GetBestSurfaceFormat(surface.surfaceFormats),
      GetBestPresentationMode(surface.presentationModes),
      GetDrawableSurfaceExtent(surface.surfaceCapabilities, drawableSize),
      SwapchainImageCount(surface.surfaceCapabilities),
      SwapchainSharing(graphicsFamily, presentationFamily))
  }

  // ---------------------------------------------------------------------
  // Depth-stencil format
  // ---------------------------------------------------------------------

  /** The depth formats FindDepthStencilFormat tries, best first. */
  const DepthStencilCandidates: seq<Format> := [D32SfloatS8Uint, D24UnormS8Uint, D32Sfloat, D16UnormS8Uint, D16Unorm]

  /** The test FindDepthStencilFormat applies to the chosen format. */
  predicate MarksStencil(f: Format) {
    f != D32Sfloat && f != D16Unorm
  }

  /** Among the candidates, exactly the formats with an 8-bit stencil
      component pass the test. */
  lemma StencilTestMatchesCandidates()
    ensures forall f :: f in DepthStencilCandidates ==>
              (MarksStencil(f) <==> f in {D32SfloatS8Uint, D24UnormS8Uint, D16UnormS8Uint})
  {
  }

  // ---------------------------------------------------------------------
  // Frame outcome handling
  // ---------------------------------------------------------------------

  /** What PrepareRender does with the result of vkAcquireNextImageKHR. */
  datatype AcquireAction = RenderFrame | RecreateAndSkipFrame | FailAcquire

  function AcquireActionFor(result: VkResult): (a: AcquireAction)
    ensures a == RecreateAndSkipFrame <==> result == ErrorOutOfDate
    ensures a == RenderFrame <==> result == Success || result == Suboptimal
  {
    if result == ErrorOutOfDate then RecreateAndSkipFrame
    else if result != Success && result != Suboptimal then FailAcquire
    else RenderFrame
  }

  /** What Present does with the result of vkQueuePresentKHR and the resize
      flag. */
  datatype PresentAction = RecreateAfterPresent | KeepSwapchain | FailPresent

  function PresentActionFor(result: VkResult, hasFramebufferResized: bool): (a: PresentAction)
    ensures a == RecreateAfterPresent <==> result == ErrorOutOfDate || result == Suboptimal || hasFramebufferResized
    ensures a == KeepSwapchain <==> result == Success && !hasFramebufferResized
  {
    if result == ErrorOutOfDate || result == Suboptimal || hasFramebufferResized then RecreateAfterPresent
    else if result != Success then FailPresent
    else KeepSwapchain
  }

  /** A pending resize turns every presentation result, even an error, into
      a recreation: no result fails while the flag is set. */
  lemma ResizeFlagOverridesPresentErrors(result: VkResult)
    ensures PresentActionFor(result, true) == RecreateAfterPresent
    ensures PresentActionFor(result, false) == FailPresent
            <==> result !in {Success, Suboptimal, ErrorOutOfDate}
  {
  }

  /** The slot of the next frame in flight. */
  function NextFrameSlot(slot: nat): (next: nat)
    ensures next < MaxFramesInFlight
  {
    (slot + 1) % MaxFramesInFlight
  }

  /** The two slots alternate: from either slot, one frame moves to the other
      and two frames come back. */
  lemma FrameSlotsAlternate(slot: nat)
    requires slot < MaxFramesInFlight
    ensures NextFrameSlot(slot) != slot
    ensures NextFrameSlot(NextFrameSlot(slot)) == slot
  {
  }

  // ---------------------------------------------------------------------
  // Presentation objects
  // ---------------------------------------------------------------------

  /** The steps of building and tearing down the presentation objects. */
  datatype PresentationStep =
    | FinaliseRenderOperations
    | DeallocateCommandBuffers
    | DestroyFramebuffers
    | DestroyDepthStencilBuffer
    | DestroyRenderPass
    | DestroySwapchain
    | InitialiseSwapchain
    | InitialiseRenderPass
    | InitialiseDepthStencilBuffer
    | InitialiseFramebuffers
    | AllocateCommandBuffers

  /** CleanupPresentationObjects: wait for the device to go idle, then
      destroy from the command buffers down to the swapchain. */
  const CleanupSteps: seq<PresentationStep> :=
    [FinaliseRenderOperations, DeallocateCommandBuffers, DestroyFramebuffers,
     DestroyDepthStencilBuffer, DestroyRenderPass, DestroySwapchain]

  /** The construction order shared by the constructor and
      RecreatePresentationObjects. */
  const BuildSteps: seq<PresentationStep> :=
    [InitialiseSwapchain, InitialiseRenderPass, InitialiseDepthStencilBuffer,
     InitialiseFramebuffers, AllocateCommandBuffers]

  /** The step that destroys what a build step creates. */
  function Undo(step: PresentationStep): (r: Option<PresentationStep>)
    ensures r.Some? <==> step in BuildSteps
  {
    match step
    case InitialiseSwapchain => Some(DestroySwapchain)
    case InitialiseRenderPass => Some(DestroyRenderPass)
    case InitialiseDepthStencilBuffer => Some(DestroyDepthStencilBuffer)
    case InitialiseFramebuffers => Some(DestroyFramebuffers)
    case AllocateCommandBuffers => Some(DeallocateCommandBuffers)
    case _ => None
  }

  /** Teardown undoes the build in exactly the reverse order, after the
      device has gone idle, so nothing is destroyed while an object built
      from it is alive. */
  lemma CleanupReversesBuild()
    ensures CleanupSteps[0] == FinaliseRenderOperations
    ensures |CleanupSteps| == |BuildSteps| + 1
    ensures forall i :: 0 <= i < |BuildSteps| ==> Undo(BuildSteps[i]) == Some(CleanupSteps[|BuildSteps| - i])
  {
  }

  /** One poll of the wait loop in RecreatePresentationObjects: whether the
      window is minimised, the surface's current extent and the window's
      drawable size at that evaluation of the loop condition. */
  datatype SurfacePoll = SurfacePoll(minimised: bool, currentExtent: Extent2D, drawableSize: Extent2D)

  /** The loop condition: nothing can be drawn at this size. */
  predicate MustWait(p: SurfacePoll) {
    || p.minimised
    || p.currentExtent.width == 0
    || p.currentExtent.height == 0
    || (p.currentExtent.width == U32Max && p.drawableSize.width == 0)
    || (p.currentExtent.height == U32Max && p.drawableSize.height == 0)
  }

  /** The window becomes drawable at some poll. */
  predicate BecomesDrawable(polls: seq<SurfacePoll>) {
    exists i :: 0 <= i < |polls| && !MustWait(polls[i])
  }

  /** Evaluates the loop condition poll after poll, waiting for a window
      event between polls, until the window can be drawn to; returns the
      number of waits. */
  method WaitUntilDrawable(polls: seq<SurfacePoll>) returns (waits: nat)
    requires BecomesDrawable(polls)
    ensures waits < |polls| && !MustWait(polls[waits])
    ensures forall j :: 0 <= j < waits ==> MustWait(polls[j])
  {
    waits := 0;
    while MustWait(polls[waits])
      invariant 0 <= waits < |polls|
      invariant forall j :: 0 <= j < waits ==> MustWait(polls[j])
      invariant exists i :: waits <= i < |polls| && !MustWait(polls[i])
      decreases |polls| - waits
    {
      waits := waits + 1;
    }
  }

  /** A drawable poll ends the wait: it has a non-zero extent, and when the
      surface leaves the extent to the window, a non-zero drawable size. */
  lemma DrawablePollHasArea(p: SurfacePoll)
    requires !MustWait(p)
    ensures !p.minimised && p.currentExtent.width > 0 && p.currentExtent.height > 0
    ensures p.currentExtent.width == U32Max ==> p.drawableSize.width > 0
    ensures p.currentExtent.height == U32Max ==> p.drawableSize.height > 0
  {
  }

  /** The Vulkan and SDL calls the renderer makes, in the order it makes them. */
  datatype RenderEvent =
    | WaitForFence(slot: nat)
    | ResetFence(slot: nat)
    | AcquireImage(slot: nat)
    | QueuePresent(slot: nat, imageIndex: nat)
    | WaitForWindowEvent
    | Step(step: PresentationStep)

  function StepEvents(steps: seq<PresentationStep>): (r: seq<RenderEvent>)
    ensures |r| == |steps|
    ensures forall i :: 0 <= i < |steps| ==> r[i] == Step(steps[i])
  {
    seq(|steps|, i requires 0 <= i < |steps| => Step(steps[i]))
  }

  function WaitEvents(waits: nat): (r: seq<RenderEvent>)
    ensures |r| == waits
    ensures forall i :: 0 <= i < waits ==> r[i] == WaitForWindowEvent
  {
    seq(waits, _ => WaitForWindowEvent)
  }

  /** What the renderer needs from the outside world to rebuild its
      presentation objects: the polls of the wait loop, the surface as
      GetSurfaceProperties then reports it, the window's drawable size, the
      two queue families and the device's format properties. */
  datatype Surroundings = Surroundings(
    polls: seq<SurfacePoll>,
    surface: SurfaceProperties,
    drawableSize: Extent2D,
    graphicsFamily: nat,
    presentationFamily: nat,
    formatProperties: Format -> FormatProperties)

  /** The environment lets a recreation run: the window eventually becomes
      drawable and the surface offers a format. */
  predicate CanRecreate(env: Surroundings) {
    BecomesDrawable(env.polls) && |env.surface.surfaceFormats| > 0
  }

  /** No candidate depth format is usable as a depth-stencil attachment
      with optimal tiling. */
  predicate NoDepthStencilFormat(formatProperties: Format -> FormatProperties) {
    forall i :: 0 <= i < |DepthStencilCandidates| ==>
      !Usable(formatProperties, DepthStencilCandidates[i], TilingOptimal, FormatFeatureDepthStencilAttachmentBit)
  }

  class Renderer {
    var currentFrameInFlight: nat
    var nextAcquiredImageIndex: nat
    var hasFramebufferResized: bool
    var supportsStencil: bool
    /** The swapchain parameters in use; the defaults before the first build. */
    var surfaceFormat: SurfaceFormat
    var presentationMode: PresentMode
    var swapchainExtent: Extent2D
    var swapchainSettings: Option<SwapchainSettings>
    var depthStencilFormat: Option<Format>
    /** Every Vulkan and SDL call made so far. */
    var log: seq<RenderEvent>

    predicate Valid()
      reads this`currentFrameInFlight
    {
      currentFrameInFlight < MaxFramesInFlight
    }

    /** The member initialisers of Renderer.h; the constructor body is Construct. */
    constructor()
      ensures Valid()
      ensures currentFrameInFlight == 0 && nextAcquiredImageIndex == 0
      ensures !hasFramebufferResized && !supportsStencil
      ensures presentationMode == Fifo && swapchainExtent == Extent2D(0, 0)
      ensures swapchainSettings.None? && depthStencilFormat.None? && log == []
    {
      currentFrameInFlight := 0;
      nextAcquiredImageIndex := 0;
      hasFramebufferResized := false;
      supportsStencil := false;
      surfaceFormat := SurfaceFormat(FormatUndefined, SrgbNonlinear);
      presentationMode := Fifo;
      swapchainExtent := Extent2D(0, 0);
      swapchainSettings := None;
      depthStencilFormat := None;
      log := [];
    }

    /** Picks the first candidate depth format the device supports with
        optimal tiling as a depth-stencil attachment, and raises the stencil
        flag when it has a stencil component. The flag is never lowered. */
    method FindDepthStencilFormat(formatProperties: Format -> FormatProperties) returns (r: Result<Format, RendererError>)
      modifies this`supportsStencil
      ensures r.Err? ==> r.error == DepthStencilFormatUnavailable && supportsStencil == old(supportsStencil)
      ensures r.Ok? ==> r.value in DepthStencilCandidates
                        && Usable(formatProperties, r.value, TilingOptimal, FormatFeatureDepthStencilAttachmentBit)
      ensures r.Ok? ==> supportsStencil == (old(supportsStencil) || MarksStencil(r.value))
      ensures r.Err? <==> forall i :: 0 <= i < |DepthStencilCandidates| ==>
                            !Usable(formatProperties, DepthStencilCandidates[i], TilingOptimal, FormatFeatureDepthStencilAttachmentBit)
    {
      var found := FindSupportedFormat(formatProperties, DepthStencilCandidates, TilingOptimal, FormatFeatureDepthStencilAttachmentBit);
      if found.Err? {
        return Err(DepthStencilFormatUnavailable);
      }
      if found.value != D32Sfloat && found.value != D16Unorm {
        supportsStencil := true;
      }
      return Ok(found.value);
    }

    /** InitialiseSwapchain through AllocateCommandBuffers: derives the
        swapchain parameters from the surface, then builds the render pass,
        the depth buffer, the framebuffers and the command buffers. The
        render pass looks up the depth format before it creates anything,
        so when no depth format is supported only the swapchain is built;
        the depth buffer's own lookup finds the same format again. */
    method BuildPresentationObjects(env: Surroundings) returns (error: Option<RendererError>)
      requires |env.surface.surfaceFormats| > 0
      modifies this`log, this`surfaceFormat, this`presentationMode, this`swapchainExtent,
               this`swapchainSettings, this`supportsStencil, this`depthStencilFormat
      ensures var settings := ChooseSwapchainSettings(env.surface, env.drawableSize, env.graphicsFamily, env.presentationFamily);
              && swapchainSettings == Some(settings)
              && surfaceFormat == settings.surfaceFormat
              && presentationMode == settings.presentationMode
              && swapchainExtent == settings.extent
      ensures error.Some? <==> NoDepthStencilFormat(env.formatProperties)
      ensures error.None? ==> log == old(log) + StepEvents(BuildSteps)
      ensures error.Some? ==> log == old(log) + StepEvents(BuildSteps[..1])
      ensures error.Some? ==> error == Some(DepthStencilFormatUnavailable) && depthStencilFormat == old(depthStencilFormat)
      ensures error.None? ==> depthStencilFormat.Some? && depthStencilFormat.value in DepthStencilCandidates
                              && supportsStencil == (old(supportsStencil) || MarksStencil(depthStencilFormat.value))
      ensures error.Some? ==> supportsStencil == old(supportsStencil)
    {
      var settings := ChooseSwapchainSettings(env.surface, env.drawableSize, env.graphicsFamily, env.presentationFamily);
      swapchainSettings := Some(settings);
      surfaceFormat := settings.surfaceFormat;
      presentationMode := settings.presentationMode;
      swapchainExtent := settings.extent;
      log := log + [Step(InitialiseSwapchain)];
      var depthFormat := FindDepthStencilFormat(env.formatProperties);
      if depthFormat.Err? {
        assert BuildSteps[..1] == [InitialiseSwapchain];
        return Some(depthFormat.error);
      }
      log := log + [Step(InitialiseRenderPass)];
      depthStencilFormat := Some(depthFormat.value);
      log := log + [Step(InitialiseDepthStencilBuffer)];
      log := log + [Step(InitialiseFramebuffers)];
      log := log + [Step(AllocateCommandBuffers)];
      return None;
    }

    /** The body of the constructor: pipeline cache and synchronisation
        primitives (not modelled), then the presentation objects. */
    method Construct(env: Surroundings) returns (error: Option<RendererError>)
      requires |env.surface.surfaceFormats| > 0
      requires Valid()
      modifies this`log, this`surfaceFormat, this`presentationMode, this`swapchainExtent,
               this`swapchainSettings, this`supportsStencil, this`depthStencilFormat
      ensures Valid()
      ensures error.Some? <==> NoDepthStencilFormat(env.formatProperties)
      ensures error.None? ==> log == old(log) + StepEvents(BuildSteps)
      ensures error.Some? ==> error == Some(DepthStencilFormatUnavailable) && log == old(log) + StepEvents(BuildSteps[..1])
      ensures error.None? ==> depthStencilFormat.Some? && depthStencilFormat.value in DepthStencilCandidates
                              && supportsStencil == (old(supportsStencil) || MarksStencil(depthStencilFormat.value))
      ensures error.Some? ==> depthStencilFormat == old(depthStencilFormat) && supportsStencil == old(supportsStencil)
      ensures swapchainSettings == Some(ChooseSwapchainSettings(env.surface, env.drawableSize, env.graphicsFamily, env.presentationFamily))
    {
      error := BuildPresentationObjects(env);
    }

    /** Waits until the window can be drawn to, tears the presentation
        objects down and builds them again. */
    method RecreatePresentationObjects(env: Surroundings) returns (error: Option<RendererError>)
      requires CanRecreate(env)
      modifies this`log, this`surfaceFormat, this`presentationMode, this`swapchainExtent,
               this`swapchainSettings, this`supportsStencil, this`depthStencilFormat
      ensures exists waits :: 0 <= waits < |env.polls| && !MustWait(env.polls[waits])
                              && (forall j :: 0 <= j < waits ==> MustWait(env.polls[j]))
                              && log == old(log) + WaitEvents(waits) + StepEvents(CleanupSteps)
                                        + StepEvents(if error.None? then BuildSteps else BuildSteps[..1])
      ensures error.Some? <==> NoDepthStencilFormat(env.formatProperties)
      ensures swapchainSettings == Some(ChooseSwapchainSettings(env.surface, env.drawableSize, env.graphicsFamily, env.presentationFamily))
      ensures error.Some? ==> error == Some(DepthStencilFormatUnavailable)
      ensures old(supportsStencil) ==> supportsStencil
    {
      var waits := WaitUntilDrawable(env.polls);
      log := log + WaitEvents(waits);
      log := log + StepEvents(CleanupSteps);
      ghost var beforeBuild := log;
      error := BuildPresentationObjects(env);
      assert log == beforeBuild + StepEvents(if error.None? then BuildSteps else BuildSteps[..1]);
    }

    /** Records the window's resize so the next presentation recreates the
        swapchain. */
    method ProcessWindowResize()
      modifies this`hasFramebufferResized
      ensures hasFramebufferResized
    {
      hasFramebufferResized := true;
    }

    /** Waits on and resets the fence of the current slot, acquires the next
        swapchain image, and then renders the frame (true), recreates the
        swapchain and skips the frame (false), or fails. The slot does not
        change. */
    method PrepareRender(acquireResult: VkResult, acquiredImageIndex: nat, env: Surroundings) returns (r: Result<bool, RendererError>)
      requires Valid()
      requires acquireResult == ErrorOutOfDate ==> CanRecreate(env)
      modifies this`log, this`nextAcquiredImageIndex, this`surfaceFormat, this`presentationMode, this`swapchainExtent,
               this`swapchainSettings, this`supportsStencil, this`depthStencilFormat
      ensures Valid() && currentFrameInFlight == old(currentFrameInFlight)
      ensures |log| >= |old(log)| + 3
      ensures log[..|old(log)| + 3] == old(log) + [WaitForFence(currentFrameInFlight), ResetFence(currentFrameInFlight), AcquireImage(currentFrameInFlight)]
      ensures AcquireActionFor(acquireResult) == RenderFrame ==>
                r == Ok(true) && nextAcquiredImageIndex == acquiredImageIndex && |log| == |old(log)| + 3
      ensures AcquireActionFor(acquireResult) == FailAcquire ==> r == Err(AcquireFailed) && |log| == |old(log)| + 3
      ensures AcquireActionFor(acquireResult) == RecreateAndSkipFrame ==>
                && (r == Ok(false) || r == Err(DepthStencilFormatUnavailable))
                && swapchainSettings == Some(ChooseSwapchainSettings(env.surface, env.drawableSize, env.graphicsFamily, env.presentationFamily))
    {
      log := log + [WaitForFence(currentFrameInFlight), ResetFence(currentFrameInFlight), AcquireImage(currentFrameInFlight)];
      ghost var acquired := log;
      match AcquireActionFor(acquireResult)
      case RecreateAndSkipFrame =>
        var error := RecreatePresentationObjects(env);
        assert log[..|acquired|] == acquired;
        if error.Some? {
          return Err(error.value);
        }
        return Ok(false);
      case FailAcquire =>
        return Err(AcquireFailed);
      case RenderFrame =>
        nextAcquiredImageIndex := acquiredImageIndex;
        return Ok(true);
    }

    /** Presents the acquired image; recreates the swapchain when it is out
        of date or suboptimal or the window was resized (clearing the resize
        flag), fails on any other error, and then moves to the next slot. */
    method Present(presentResult: VkResult, env: Surroundings) returns (error: Option<RendererError>)
      requires Valid()
      requires PresentActionFor(presentResult, hasFramebufferResized) == RecreateAfterPresent ==> CanRecreate(env)
      modifies this`log, this`currentFrameInFlight, this`hasFramebufferResized, this`surfaceFormat, this`presentationMode,
               this`swapchainExtent, this`swapchainSettings, this`supportsStencil, this`depthStencilFormat
      ensures Valid()
      ensures |log| >= |old(log)| + 1
      ensures log[..|old(log)| + 1] == old(log) + [QueuePresent(old(currentFrameInFlight), nextAcquiredImageIndex)]
      ensures error.None? ==> currentFrameInFlight == NextFrameSlot(old(currentFrameInFlight))
      ensures error.Some? ==> currentFrameInFlight == old(currentFrameInFlight)
      ensures PresentActionFor(presentResult, old(hasFramebufferResized)) == KeepSwapchain ==>
                error.None? && |log| == |old(log)| + 1 && hasFramebufferResized == old(hasFramebufferResized)
      ensures PresentActionFor(presentResult, old(hasFramebufferResized)) == FailPresent ==>
                error == Some(PresentFailed) && |log| == |old(log)| + 1
      ensures PresentActionFor(presentResult, old(hasFramebufferResized)) == RecreateAfterPresent ==>
                && !hasFramebufferResized
                && (error.None? || error == Some(DepthStencilFormatUnavailable))
                && swapchainSettings == Some(ChooseSwapchainSettings(env.surface, env.drawableSize, env.graphicsFamily, env.presentationFamily))
    {
      log := log + [QueuePresent(currentFrameInFlight, nextAcquiredImageIndex)];
      ghost var presented := log;
      var action := PresentActionFor(presentResult, hasFramebufferResized);
      if action == FailPresent {
        return Some(PresentFailed);
      }
      error := None;
      if action == RecreateAfterPresent {
        hasFramebufferResized := false;
        error := RecreatePresentationObjects(env);
        assert log[..|presented|] == presented;
        if error.Some? {
          return;
        }
      }
      currentFrameInFlight := NextFrameSlot(currentFrameInFlight);
    }
  }
}
