/** The device-selection logic of VulkanContext: which queue families a
    device offers, whether it has the swapchain extension, how it is scored,
    which device wins, which memory type an allocation uses, and whether the
    instance extensions SDL and the validation layers need are available.
    Every Vulkan query is replaced by the record it would fill in. */
module VulkanContexts {
  import opened VkTypes

  /** The exceptions VulkanContext throws. */
  datatype ContextError =
    | NoVulkanDevice
    | NoSuitableDevice
    | NoSuitableMemoryType
    | InstanceExtensionQueryFailed
    | MissingInstanceExtension(name: string)

  // ---------------------------------------------------------------------
  // Queue families
  // ---------------------------------------------------------------------

  datatype QueueFamilyIndices = QueueFamilyIndices(graphicsFamilyIndex: Option<nat>, presentationFamilyIndex: Option<nat>)

  const NoQueueFamilyIndices := QueueFamilyIndices(None, None)

  predicate AreQueueFamilyIndicesComplete(indices: QueueFamilyIndices) {
    indices.graphicsFamilyIndex.Some? && indices.presentationFamilyIndex.Some?
  }

  /** A queue family: its VkQueueFlags, and whether
      vkGetPhysicalDeviceSurfaceSupportKHR reports that it can present to
      the window's surface. */
  datatype QueueFamily = QueueFamily(queueFlags: bv32, supportsPresentation: bool)

  /** The flags the source tests a family against to pick the graphics
      family: GRAPHICS or TRANSFER. */
  const SourceGraphicsFamilyMask: bv32 := QueueGraphicsBit | QueueTransferBit

  /** The flags a family must have to run the renderer's draw commands. */
  const GraphicsFamilyMask: bv32 := QueueGraphicsBit

  /** The family has at least one of the wanted queue flags. */
  predicate Offers(family: QueueFamily, wanted: bv32) {
    family.queueFlags & wanted != 0
  }

  predicate Presents(family: QueueFamily) {
    family.supportsPresentation
  }

  /** The index of the last family of the list that satisfies `capable`. */
  function Latest(families: seq<QueueFamily>, capable: QueueFamily -> bool): (r: Option<nat>)
    ensures r.Some? ==> r.value < |families| && capable(families[r.value])
    ensures r.Some? ==> forall j :: r.value < j < |families| ==> !capable(families[j])
    ensures r.None? <==> forall j :: 0 <= j < |families| ==> !capable(families[j])
  {
    if |families| == 0 then None
    else if capable(families[|families| - 1]) then Some(|families| - 1)
    else Latest(families[..|families| - 1], capable)
  }

  /** The indices the scan holds after visiting every family of the list:
      the latest family offering a wanted flag and the latest presenting one. */
  function IndicesAfter(families: seq<QueueFamily>, wanted: bv32): QueueFamilyIndices {
    QueueFamilyIndices(Latest(families, f => Offers(f, wanted)), Latest(families, Presents))
  }

  /** How many families the scan visits when it has already visited n of
      them: it stops right after the first family at which both indices are
      set, or at the end of the list. */
  function VisitedCount(families: seq<QueueFamily>, wanted: bv32, n: nat): (m: nat)
    requires n <= |families|
    ensures n <= m <= |families|
    decreases |families| - n
  {
    if n == |families| then n
    else if AreQueueFamilyIndicesComplete(IndicesAfter(families[..n + 1], wanted)) then n + 1
    else VisitedCount(families, wanted, n + 1)
  }

  /** What FindQueueFamilyIndices returns for a device's families. */
  function FoundQueueFamilies(families: seq<QueueFamily>, wanted: bv32): QueueFamilyIndices {
    IndicesAfter(families[..VisitedCount(families, wanted, 0)], wanted)
  }

  /** Scans the families in index order, overwriting the graphics index at
      every family offering a wanted flag and the presentation index at every
      presenting family, and stops as soon as both are set. `wanted` is the
      flag mask the graphics family is tested against. */
  method FindQueueFamilyIndices(families: seq<QueueFamily>, wanted: bv32) returns (indices: QueueFamilyIndices)
    ensures indices == FoundQueueFamilies(families, wanted)
  {
    indices := NoQueueFamilyIndices;
    var currentIndex := 0;
    while currentIndex < |families|
      invariant 0 <= currentIndex <= |families|
      invariant indices == IndicesAfter(families[..currentIndex], wanted)
      invariant VisitedCount(families, wanted, currentIndex) == VisitedCount(families, wanted, 0)
    {
      assert families[..currentIndex + 1][..currentIndex] == families[..currentIndex];
      if Offers(families[currentIndex], wanted) {
        indices := indices.(graphicsFamilyIndex := Some(currentIndex));
      }
      if families[currentIndex].supportsPresentation {
        indices := indices.(presentationFamilyIndex := Some(currentIndex));
      }
      if AreQueueFamilyIndicesComplete(indices) {
        break;
      }
      currentIndex := currentIndex + 1;
    }
  }

  /** Every index the scan returns names a family with the matching
      capability. */
  lemma FoundIndicesAreCapable(families: seq<QueueFamily>, wanted: bv32)
    ensures var found := FoundQueueFamilies(families, wanted);
            && (found.graphicsFamilyIndex.Some? ==> found.graphicsFamilyIndex.value < |families| && Offers(families[found.graphicsFamilyIndex.value], wanted))
            && (found.presentationFamilyIndex.Some? ==> found.presentationFamilyIndex.value < |families| && Presents(families[found.presentationFamilyIndex.value]))
  {
    var m := VisitedCount(families, wanted, 0);
    var prefix := families[..m];
    var g := Latest(prefix, f => Offers(f, wanted));
    var p := Latest(prefix, Presents);
    if g.Some? {
      assert prefix[g.value] == families[g.value];
    }
    if p.Some? {
      assert prefix[p.value] == families[p.value];
    }
  }

  /** Once both indices are set on a prefix, they stay set on every longer
      prefix. */
  lemma CompleteStaysComplete(families: seq<QueueFamily>, wanted: bv32, k: nat, n: nat)
    requires k <= n <= |families|
    requires AreQueueFamilyIndicesComplete(IndicesAfter(families[..k], wanted))
    ensures AreQueueFamilyIndicesComplete(IndicesAfter(families[..n], wanted))
  {
    var g := Latest(families[..k], f => Offers(f, wanted)).value;
    var p := Latest(families[..k], Presents).value;
    assert families[..n][g] == families[..k][g];
    assert families[..n][p] == families[..k][p];
  }

  /** The scan ends either at the end of the list or right after both
      indices became set. */
  lemma {:induction false} VisitedCountStops(families: seq<QueueFamily>, wanted: bv32, n: nat)
    requires n <= |families|
    ensures var m := VisitedCount(families, wanted, n);
            m == |families| || AreQueueFamilyIndicesComplete(IndicesAfter(families[..m], wanted))
    decreases |families| - n
  {
    if n < |families| && !AreQueueFamilyIndicesComplete(IndicesAfter(families[..n + 1], wanted)) {
      VisitedCountStops(families, wanted, n + 1);
    }
  }

  /** Both indices are found exactly when the device has some family offering
      a wanted flag and some presenting family. */
  lemma FoundIndicesCompleteIffAvailable(families: seq<QueueFamily>, wanted: bv32)
    ensures AreQueueFamilyIndicesComplete(FoundQueueFamilies(families, wanted))
            <==> (exists i :: 0 <= i < |families| && Offers(families[i], wanted))
                 && (exists j :: 0 <= j < |families| && Presents(families[j]))
  {
    var m := VisitedCount(families, wanted, 0);
    VisitedCountStops(families, wanted, 0);
    FoundIndicesAreCapable(families, wanted);
    if (exists i :: 0 <= i < |families| && Offers(families[i], wanted))
       && (exists j :: 0 <= j < |families| && Presents(families[j])) {
      assert families[..|families|] == families;
      if m == |families| {
        var i :| 0 <= i < |families| && Offers(families[i], wanted);
        var j :| 0 <= j < |families| && Presents(families[j]);
        assert Latest(families, f => Offers(f, wanted)).Some?;
        assert Latest(families, Presents).Some?;
      }
    }
  }

  /** The scan stops at the first family at which both indices are set: on
      every shorter prefix it has not found both. */
  lemma {:induction false} NoEarlierStop(families: seq<QueueFamily>, wanted: bv32, n: nat, k: nat)
    requires n <= |families|
    requires n < k < VisitedCount(families, wanted, n)
    ensures !AreQueueFamilyIndicesComplete(IndicesAfter(families[..k], wanted))
    decreases |families| - n
  {
    if k > n + 1 {
      NoEarlierStop(families, wanted, n + 1, k);
    }
  }

  /** A device whose first family can only transfer and present and whose
      second can only draw. */
  function TransferThenGraphicsFamilies(): seq<QueueFamily> {
    [QueueFamily(QueueTransferBit, true), QueueFamily(QueueGraphicsBit, false)]
  }

  /** As written, the GRAPHICS-or-TRANSFER test takes the transfer-only
      family 0 as the graphics family and stops there, so the renderer
      submits draw commands to a queue that cannot run them. */
  lemma TransferOnlyFamilyTakenForGraphics()
    ensures var families := TransferThenGraphicsFamilies();
            var found := FoundQueueFamilies(families, SourceGraphicsFamilyMask);
            && found == QueueFamilyIndices(Some(0), Some(0))
            && !Offers(families[0], GraphicsFamilyMask)
  {
    var families := TransferThenGraphicsFamilies();
    assert families[..1] == [families[0]];
    assert Offers(families[0], SourceGraphicsFamilyMask);
    assert AreQueueFamilyIndicesComplete(IndicesAfter(families[..1], SourceGraphicsFamilyMask));
  }

  /** Testing for the GRAPHICS flag alone, the graphics family of that device
      is family 1, which can draw; in general the graphics family found
      always has the GRAPHICS flag. */
  lemma GraphicsFamilyOffersGraphics(families: seq<QueueFamily>)
    ensures var found := FoundQueueFamilies(families, GraphicsFamilyMask);
            found.graphicsFamilyIndex.Some? ==> families[found.graphicsFamilyIndex.value].queueFlags & QueueGraphicsBit != 0
    ensures FoundQueueFamilies(TransferThenGraphicsFamilies(), GraphicsFamilyMask) == QueueFamilyIndices(Some(1), Some(0))
  {
    FoundIndicesAreCapable(families, GraphicsFamilyMask);
    var example := TransferThenGraphicsFamilies();
    assert example[..1] == [example[0]];
    assert !AreQueueFamilyIndicesComplete(IndicesAfter(example[..1], GraphicsFamilyMask));
    assert example[..2] == example;
    assert AreQueueFamilyIndicesComplete(IndicesAfter(example[..2], GraphicsFamilyMask));
    assert VisitedCount(example, GraphicsFamilyMask, 0) == 2;
  }

  // ---------------------------------------------------------------------
  // Device extensions
  // ---------------------------------------------------------------------

  const SwapchainExtensionName: string := "VK_KHR_swapchain"

  /** The device extensions the renderer enables: the swapchain only. */
  const RequiredDeviceExtensions: seq<string> := [SwapchainExtensionName]

  /** Erases each available extension name from the set of required ones
      and reports success as soon as that set is empty; an empty list of
      available extensions therefore never succeeds. */
  method SupportsRequiredDeviceExtensions(available: seq<string>) returns (supported: bool)
    ensures supported <==> forall name :: name in RequiredDeviceExtensions ==> name in available
    ensures supported <==> SwapchainExtensionName in available
    ensures |available| == 0 ==> !supported
  {
    var required: set<string> := set name | name in RequiredDeviceExtensions;
    assert SwapchainExtensionName in required;
    var i := 0;
    while i < |available|
      invariant 0 <= i <= |available|
      invariant required == set name | name in RequiredDeviceExtensions && name !in available[..i]
      invariant required != {}
    {
      assert available[..i + 1] == available[..i] + [available[i]];
      required := required - {available[i]};
      if required == {} {
        assert SwapchainExtensionName !in required;
        assert SwapchainExtensionName in available;
        return true;
      }
      i := i + 1;
    }
    assert available[..i] == available;
    assert SwapchainExtensionName in required;
    return false;
  }

  // ---------------------------------------------------------------------
  // Scoring and selection
  // ---------------------------------------------------------------------

  datatype DeviceType = DiscreteGpu | IntegratedGpu | VirtualGpu | CpuDevice | OtherDeviceType

  /** The seven VkPhysicalDeviceFeatures the renderer requires. */
  datatype DeviceFeatures = DeviceFeatures(
    geometryShader: bool,
    tessellationShader: bool,
    fillModeNonSolid: bool,
    depthClamp: bool,
    imageCubeArray: bool,
    shaderStorageImageMultisample: bool,
    shaderUniformBufferArrayDynamicIndexing: bool)

  function RequiredFeatureList(f: DeviceFeatures): seq<bool> {
    [f.geometryShader, f.tessellationShader, f.fillModeNonSolid, f.depthClamp,
     f.imageCubeArray, f.shaderStorageImageMultisample, f.shaderUniformBufferArrayDynamicIndexing]
  }

  datatype MemoryHeap = MemoryHeap(size: nat, flags: bv32)

  datatype SurfaceCapabilities = SurfaceCapabilities(
    minImageCount: nat,
    maxImageCount: nat,
    currentExtent: Extent2D,
    minImageExtent: Extent2D,
    maxImageExtent: Extent2D)

  /** VulkanContext::SurfaceProperties. */
  datatype SurfaceProperties = SurfaceProperties(
    surfaceCapabilities: SurfaceCapabilities,
    surfaceFormats: seq<SurfaceFormat>,
    presentationModes: seq<PresentMode>)

  /** What the Vulkan queries report about one physical device. */
  datatype PhysicalDevice = PhysicalDevice(
    features: DeviceFeatures,
    deviceType: DeviceType,
    maxImageDimension2D: nat,
    memoryHeaps: seq<MemoryHeap>,
    memoryTypes: seq<bv32>,
    queueFamilies: seq<QueueFamily>,
    extensions: seq<string>,
    surface: SurfaceProperties)

  /** VK_MAX_MEMORY_TYPES: the size of the memoryTypes array. */
  const MaxMemoryTypes: nat := 32

  predicate HasRequiredFeatures(f: DeviceFeatures) {
    forall i :: 0 <= i < |RequiredFeatureList(f)| ==> RequiredFeatureList(f)[i]
  }

  /** The queue families the renderer would use on the device, found with
      the GRAPHICS-or-TRANSFER test the source scores and selects with. */
  function DeviceQueueFamilies(d: PhysicalDevice): QueueFamilyIndices {
    FoundQueueFamilies(d.queueFamilies, SourceGraphicsFamilyMask)
  }

  /** A device the renderer can run on: every required feature, a graphics
      and a presentation family, the swapchain extension, and at least one
      surface format and one presentation mode. */
  predicate Eligible(d: PhysicalDevice) {
    && HasRequiredFeatures(d.features)
    && AreQueueFamilyIndicesComplete(DeviceQueueFamilies(d))
    && SwapchainExtensionName in d.extensions
    && |d.surface.surfaceFormats| > 0
    && |d.surface.presentationModes| > 0
  }

  function TypeTier(t: DeviceType): nat {
    match t
    case DiscreteGpu => 10000
    case IntegratedGpu => 1000
    case VirtualGpu => 100
    case CpuDevice => 10
    case OtherDeviceType => 1
  }

  /** Whole megabytes (10^6 bytes, rounded down per heap) of the
      device-local heaps. */
  function DeviceLocalMegabytes(heaps: seq<MemoryHeap>): nat {
    if |heaps| == 0 then 0
    else
      var last := heaps[|heaps| - 1];
      DeviceLocalMegabytes(heaps[..|heaps| - 1])
      + (if last.flags & MemoryHeapDeviceLocalBit != 0 then last.size / 1000000 else 0)
  }

  /** The score a device receives: 0 when it is not eligible, otherwise its
      type tier, 1000 if one family both draws and presents, its largest 2D
      image dimension and its device-local megabytes. */
  function DeviceScore(d: PhysicalDevice): nat {
    if !Eligible(d) then 0
    else
      var families := DeviceQueueFamilies(d);
      TypeTier(d.deviceType)
      + (if families.graphicsFamilyIndex == families.presentationFamilyIndex then 1000 else 0)
      + d.maxImageDimension2D
      + DeviceLocalMegabytes(d.memoryHeaps)
  }

  /** A device scores at least 1 exactly when it is eligible: it has every
      required feature, some family with the GRAPHICS or the TRANSFER flag,
      some presenting family, the swapchain extension, a surface format and
      a presentation mode. */
  lemma ScorePositiveIffEligible(d: PhysicalDevice)
    ensures DeviceScore(d) > 0 <==> Eligible(d)
    ensures Eligible(d) <==>
              && HasRequiredFeatures(d.features)
              && (exists i :: 0 <= i < |d.queueFamilies| && Offers(d.queueFamilies[i], SourceGraphicsFamilyMask))
              && (exists j :: 0 <= j < |d.queueFamilies| && Presents(d.queueFamilies[j]))
              && SwapchainExtensionName in d.extensions
              && |d.surface.surfaceFormats| > 0
              && |d.surface.presentationModes| > 0
  {
    FoundIndicesCompleteIffAvailable(d.queueFamilies, SourceGraphicsFamilyMask);
  }

  /** The :369 test reaches device selection: a device whose only family can
      transfer and present, but not draw, is still eligible and even earns
      the shared-family bonus. */
  lemma TransferOnlyDeviceScored(d: PhysicalDevice)
    requires HasRequiredFeatures(d.features)
    requires d.queueFamilies == [QueueFamily(QueueTransferBit, true)]
    requires SwapchainExtensionName in d.extensions
    requires |d.surface.surfaceFormats| > 0 && |d.surface.presentationModes| > 0
    ensures DeviceQueueFamilies(d) == QueueFamilyIndices(Some(0), Some(0))
    ensures !Offers(d.queueFamilies[0], GraphicsFamilyMask)
    ensures DeviceScore(d) > 1000
  {
    var families := d.queueFamilies;
    assert families[..1] == families;
    assert Offers(families[0], SourceGraphicsFamilyMask);
    assert AreQueueFamilyIndicesComplete(IndicesAfter(families[..1], SourceGraphicsFamilyMask));
  }

  /** Between two devices that differ only in their type, the higher tier
      wins: a discrete GPU beats an otherwise identical integrated one. */
  lemma DeviceTypeDecidesBetweenEqualDevices(d: PhysicalDevice, t: DeviceType)
    requires Eligible(d)
    requires TypeTier(t) > TypeTier(d.deviceType)
    ensures DeviceScore(d.(deviceType := t)) > DeviceScore(d)
  {
    assert DeviceQueueFamilies(d.(deviceType := t)) == DeviceQueueFamilies(d);
  }

  /** Scores one device: 0 at the first missing feature, 0 when the
      families, the extension or the surface are lacking, and otherwise the
      sum of the tier, the shared-family bonus, the 2D limit and the
      device-local heap sizes in megabytes. */
  method GetPhysicalDeviceScore(d: PhysicalDevice) returns (score: nat)
    ensures score == DeviceScore(d)
  {
    var requiredFeatures := RequiredFeatureList(d.features);
    var i := 0;
    while i < |requiredFeatures|
      invariant 0 <= i <= |requiredFeatures|
      invariant forall j :: 0 <= j < i ==> requiredFeatures[j]
    {
      if !requiredFeatures[i] {
        return 0;
      }
      i := i + 1;
    }

    var families := FindQueueFamilyIndices(d.queueFamilies, SourceGraphicsFamilyMask);
    var supportsExtensions := SupportsRequiredDeviceExtensions(d.extensions);
    var surfaceSupported := false;
    if supportsExtensions {
      surfaceSupported := |d.surface.surfaceFormats| > 0 && |d.surface.presentationModes| > 0;
    }
    if !AreQueueFamilyIndicesComplete(families) || !supportsExtensions || !surfaceSupported {
      return 0;
    }

    score := TypeTier(d.deviceType);
    if families.graphicsFamilyIndex == families.presentationFamilyIndex {
      score := score + 1000;
    }
    score := score + d.maxImageDimension2D;
    ghost var base := score;

    var h := 0;
    while h < |d.memoryHeaps|
      invariant 0 <= h <= |d.memoryHeaps|
      invariant score == base + DeviceLocalMegabytes(d.memoryHeaps[..h])
    {
      assert d.memoryHeaps[..h + 1][..h] == d.memoryHeaps[..h];
      if d.memoryHeaps[h].flags & MemoryHeapDeviceLocalBit != 0 {
        score := score + d.memoryHeaps[h].size / 1000000;
      }
      h := h + 1;
    }
    assert d.memoryHeaps[..h] == d.memoryHeaps;
  }

  /** The score of every device, in enumeration order. */
  function Scores(devices: seq<PhysicalDevice>): (scores: seq<nat>)
    ensures |scores| == |devices|
    ensures forall i :: 0 <= i < |devices| ==> scores[i] == DeviceScore(devices[i])
  {
    seq(|devices|, i requires 0 <= i < |devices| => DeviceScore(devices[i]))
  }

  /** Entry k is the highest, and every entry before it is strictly lower. */
  predicate IsFirstHighest(scores: seq<nat>, k: nat) {
    && k < |scores|
    && (forall i :: 0 <= i < |scores| ==> scores[i] <= scores[k])
    && (forall i :: 0 <= i < k ==> scores[i] < scores[k])
  }

  /** Device k has the highest score, and every device enumerated before it
      scores strictly less. */
  predicate IsBestDevice(devices: seq<PhysicalDevice>, k: nat) {
    IsFirstHighest(Scores(devices), k)
  }

  /** A device with a positive entry in the scores is eligible. */
  lemma PositiveScoreEligible(devices: seq<PhysicalDevice>, k: nat)
    requires k < |devices| && Scores(devices)[k] > 0
    ensures Eligible(devices[k])
  {
    assert DeviceScore(devices[k]) > 0;
  }

  /** The best device is unique. */
  lemma BestDeviceUnique(devices: seq<PhysicalDevice>, k: nat, l: nat)
    requires IsBestDevice(devices, k) && IsBestDevice(devices, l)
    ensures k == l
  {
    var scores := Scores(devices);
    assert IsFirstHighest(scores, k) && IsFirstHighest(scores, l);
    assert scores[l] <= scores[k] && scores[k] <= scores[l];
    if k < l {
      assert false;
    }
    if l < k {
      assert false;
    }
  }

  /** Scores every device in enumeration order: the keys the source inserts
      into its score-ordered multimap. */
  method ScoreDevices(devices: seq<PhysicalDevice>) returns (scores: seq<nat>)
    ensures scores == Scores(devices)
  {
    scores := [];
    var i := 0;
    while i < |devices|
      invariant 0 <= i <= |devices|
      invariant |scores| == i
      invariant forall j :: 0 <= j < i ==> scores[j] == DeviceScore(devices[j])
    {
      var score := GetPhysicalDeviceScore(devices[i]);
      scores := scores + [score];
      i := i + 1;
    }
  }

  /** The entry a multimap ordered by descending key puts first when the
      entries are inserted in list order: the highest score, the earliest
      among equal scores. */
  method FirstHighest(scores: seq<nat>) returns (best: nat)
    requires |scores| > 0
    ensures IsFirstHighest(scores, best)
  {
    best := 0;
    var i := 1;
    while i < |scores|
      invariant 1 <= i <= |scores|
      invariant best < i
      invariant forall j :: 0 <= j < i ==> scores[j] <= scores[best]
      invariant forall j :: 0 <= j < best ==> scores[j] < scores[best]
    {
      if scores[i] > scores[best] {
        best := i;
      }
      i := i + 1;
    }
  }

  /** The device SelectPhysicalDevice settles on: the first entry of the
      score-ordered multimap. It fails when there is no device, and when the
      best score is 0. */
  method SelectBestDevice(devices: seq<PhysicalDevice>) returns (r: Result<nat, ContextError>)
    ensures |devices| == 0 <==> r == Err(NoVulkanDevice)
    ensures r == Err(NoSuitableDevice) <==> |devices| > 0 && forall i :: 0 <= i < |devices| ==> Scores(devices)[i] == 0
    ensures r.Ok? ==> IsBestDevice(devices, r.value) && Scores(devices)[r.value] > 0
  {
    if |devices| == 0 {
      return Err(NoVulkanDevice);
    }
    var scores := ScoreDevices(devices);
    var best := FirstHighest(scores);
    if scores[best] > 0 {
      return Ok(best);
    }
    return Err(NoSuitableDevice);
  }

  // ---------------------------------------------------------------------
  // Memory types
  // ---------------------------------------------------------------------

  /** Bit i of the memory-type filter is set. */
  predicate FilterAllows(filter: bv32, i: nat)
    requires i < 32
  {
    filter & ((1 as bv32) << i) != 0
  }

  /** Memory type i is allowed by the filter and has every requested property. */
  predicate MemoryTypeMatches(memoryTypes: seq<bv32>, filter: bv32, properties: bv32, i: nat)
    requires i < |memoryTypes| <= MaxMemoryTypes
  {
    FilterAllows(filter, i) && HasAll(memoryTypes[i], properties)
  }

  // ---------------------------------------------------------------------
  // Instance extensions
  // ---------------------------------------------------------------------

  const DebugUtilsExtensionName: string := "VK_EXT_debug_utils"

  /** The instance extensions SDL needs for its surface, followed by the
      debug-utils extension when validation layers are enabled. */
  function RequiredInstanceExtensions(sdlExtensions: seq<string>, validationEnabled: bool): (r: seq<string>)
    ensures |sdlExtensions| <= |r|
    ensures r[..|sdlExtensions|] == sdlExtensions
    ensures validationEnabled <==> |r| == |sdlExtensions| + 1
    ensures validationEnabled ==> r[|sdlExtensions|] == DebugUtilsExtensionName
  {
    sdlExtensions + (if validationEnabled then [DebugUtilsExtensionName] else [])
  }

  /** GetRequiredInstanceExtensions: the SDL query (None when it fails), the
      debug-utils addition, then a check of each required name, in order,
      against the available instance extensions that fails naming the first
      one missing. */
  method GetRequiredInstanceExtensions(sdlExtensions: Option<seq<string>>, validationEnabled: bool, available: seq<string>)
    returns (r: Result<seq<string>, ContextError>)
    ensures sdlExtensions.None? ==> r == Err(InstanceExtensionQueryFailed)
    ensures sdlExtensions.Some? ==>
              var required := RequiredInstanceExtensions(sdlExtensions.value, validationEnabled);
              && (r.Ok? <==> forall i :: 0 <= i < |required| ==> required[i] in available)
              && (r.Ok? ==> r.value == required)
              && (r.Err? ==> exists i :: 0 <= i < |required| && r.error == MissingInstanceExtension(required[i])
                                         && required[i] !in available
                                         && forall j :: 0 <= j < i ==> required[j] in available)
  {
    if sdlExtensions.None? {
      return Err(InstanceExtensionQueryFailed);
    }
    var required := RequiredInstanceExtensions(sdlExtensions.value, validationEnabled);
    var i := 0;
    while i < |required|
      invariant 0 <= i <= |required|
      invariant forall j :: 0 <= j < i ==> required[j] in available
    {
      var extensionFound := false;
      var k := 0;
      while k < |available|
        invariant 0 <= k <= |available|
        invariant extensionFound <==> required[i] in available[..k]
      {
        assert available[..k + 1] == available[..k] + [available[k]];
        if required[i] == available[k] {
          extensionFound := true;
          break;
        }
        k := k + 1;
      }
      if !extensionFound {
        assert available[..k] == available;
        return Err(MissingInstanceExtension(required[i]));
      }
      assert required[i] in available;
      i := i + 1;
    }
    return Ok(required);
  }

  // ---------------------------------------------------------------------
  // The context object
  // ---------------------------------------------------------------------

  /** The part of VulkanContext that device selection fills in. */
  class VulkanContext {
    /** Index of the chosen device in enumeration order; None stands for
        VK_NULL_HANDLE. */
    var physicalDevice: Option<nat>
    var queueFamilyIndices: QueueFamilyIndices
    /** The propertyFlags of each memory type of the chosen device. */
    var memoryTypes: seq<bv32>

    predicate Valid()
      reads this
    {
      |memoryTypes| <= MaxMemoryTypes
    }

    constructor()
      ensures Valid()
      ensures physicalDevice == None && queueFamilyIndices == NoQueueFamilyIndices && memoryTypes == []
    {
      physicalDevice := None;
      queueFamilyIndices := NoQueueFamilyIndices;
      memoryTypes := [];
    }

    /** Chooses the best-scoring device and records its queue families and
        memory types; on failure nothing changes. */
    method SelectPhysicalDevice(devices: seq<PhysicalDevice>) returns (error: Option<ContextError>)
      requires Valid()
      requires forall i :: 0 <= i < |devices| ==> |devices[i].memoryTypes| <= MaxMemoryTypes
      modifies this
      ensures Valid()
      ensures error == Some(NoVulkanDevice) <==> |devices| == 0
      ensures error == Some(NoSuitableDevice) <==> |devices| > 0 && forall i :: 0 <= i < |devices| ==> Scores(devices)[i] == 0
      ensures error.None? ==> && physicalDevice.Some?
                              && IsBestDevice(devices, physicalDevice.value)
                              && Eligible(devices[physicalDevice.value])
                              && queueFamilyIndices == DeviceQueueFamilies(devices[physicalDevice.value])
                              && memoryTypes == devices[physicalDevice.value].memoryTypes
      ensures error.Some? ==> unchanged(this)
    {
      var best := SelectBestDevice(devices);
      if best.Err? {
        return Some(best.error);
      }
      PositiveScoreEligible(devices, best.value);
      physicalDevice := Some(best.value);
      queueFamilyIndices := FindQueueFamilyIndices(devices[best.value].queueFamilies, SourceGraphicsFamilyMask);
      memoryTypes := devices[best.value].memoryTypes;
      return None;
    }

    /** The smallest memory type allowed by the filter that has every
        requested property; an error when there is none. */
    method GetMemoryTypeIndex(filter: bv32, properties: bv32) returns (r: Result<nat, ContextError>)
      requires Valid()
      ensures r.Err? <==> forall i :: 0 <= i < |memoryTypes| ==> !MemoryTypeMatches(memoryTypes, filter, properties, i)
      ensures r.Err? ==> r.error == NoSuitableMemoryType
      ensures r.Ok? ==> && r.value < |memoryTypes|
                        && MemoryTypeMatches(memoryTypes, filter, properties, r.value)
                        && forall j :: 0 <= j < r.value ==> !MemoryTypeMatches(memoryTypes, filter, properties, j)
    {
      var i := 0;
      while i < |memoryTypes|
        invariant 0 <= i <= |memoryTypes|
        invariant forall j :: 0 <= j < i ==> !MemoryTypeMatches(memoryTypes, filter, properties, j)
      {
        if FilterAllows(filter, i) && HasAll(memoryTypes[i], properties) {
          assert MemoryTypeMatches(memoryTypes, filter, properties, i);
          return Ok(i);
        }
        i := i + 1;
      }
      return Err(NoSuitableMemoryType);
    }
  }
}
