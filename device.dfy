/**
 * Physical-device selection (`Device.cpp`): the queue-family scan, extension coverage,
 * the first-supported-format search, device suitability and the queue create-infos.
 * What the driver reports about a device is passed in as a `PhysicalDeviceInfo`.
 */
module Devices {
  import opened Vk

  /** One entry of `getQueueFamilyProperties`, with the answer of `getSurfaceSupportKHR` for it. */
  datatype QueueFamily = QueueFamily(graphics: bool, presentSupport: bool)

  datatype ImageTiling = Linear | Optimal | DrmFormatModifier

  type FormatFeatureFlags = bv32

  const DepthStencilAttachmentFeature: FormatFeatureFlags := 0x200

  datatype FormatProperties = FormatProperties(
    linearTilingFeatures: FormatFeatureFlags,
    optimalTilingFeatures: FormatFeatureFlags)

  datatype SurfaceFormat = SurfaceFormat(format: Format, colorSpace: ColorSpace)

  /** What the Vulkan instance reports about one physical device and the window surface. */
  datatype PhysicalDeviceInfo = PhysicalDeviceInfo(
    queueFamilies: seq<QueueFamily>,
    extensions: seq<string>,
    surfaceFormats: seq<SurfaceFormat>,
    presentModes: seq<PresentMode>,
    samplerAnisotropy: bool,
    formatProperties: Format -> FormatProperties)

  /** `Device::m_extensions`: only the swapchain extension is required. */
  const RequiredExtensions: seq<string> := ["VK_KHR_swapchain"]

  // ---------------------------------------------------------------------------------
  // Queue families
  // ---------------------------------------------------------------------------------

  /** The last index below `n` of a family with the graphics bit. */
  function LastGraphics(fams: seq<QueueFamily>, n: nat): (r: Option<nat>)
    requires n <= |fams|
    ensures r.Some? ==> r.value < n && fams[r.value].graphics
    ensures r.Some? ==> forall j :: r.value < j < n ==> !fams[j].graphics
    ensures r.None? <==> forall j :: 0 <= j < n ==> !fams[j].graphics
  {
    if n == 0 then None
    else if fams[n - 1].graphics then Some(n - 1)
    else LastGraphics(fams, n - 1)
  }

  /** The last index below `n` of a family that can present to the surface. */
  function LastPresent(fams: seq<QueueFamily>, n: nat): (r: Option<nat>)
    requires n <= |fams|
    ensures r.Some? ==> r.value < n && fams[r.value].presentSupport
    ensures r.Some? ==> forall j :: r.value < j < n ==> !fams[j].presentSupport
    ensures r.None? <==> forall j :: 0 <= j < n ==> !fams[j].presentSupport
  {
    if n == 0 then None
    else if fams[n - 1].presentSupport then Some(n - 1)
    else LastPresent(fams, n - 1)
  }

  /** The indices the scan holds after it has looked at the first `n` families. */
  function ScannedUpTo(fams: seq<QueueFamily>, n: nat): QueueFamilyIndices
    requires n <= |fams|
  {
    QueueFamilyIndices(LastGraphics(fams, n), LastPresent(fams, n))
  }

  /**
   * Where the scan stops when it resumes at index `i`: just after the first family at
   * which both indices are set, or at the end of the list.
   */
  function StopFrom(fams: seq<QueueFamily>, i: nat): (n: nat)
    requires i <= |fams|
    ensures i <= n <= |fams|
    ensures i < |fams| ==> i < n
    ensures n == |fams| || ScannedUpTo(fams, n).IsComplete()
    ensures forall m :: i < m < n ==> !ScannedUpTo(fams, m).IsComplete()
    decreases |fams| - i
  {
    if i == |fams| then |fams|
    else if ScannedUpTo(fams, i + 1).IsComplete() then i + 1
    else StopFrom(fams, i + 1)
  }

  /** The result `findQueueFamilies` promises. */
  function QueueFamiliesOf(fams: seq<QueueFamily>): QueueFamilyIndices {
    ScannedUpTo(fams, StopFrom(fams, 0))
  }

  /**
   * `findQueueFamilies`: scan the families in index order, remembering the latest
   * graphics-capable and the latest present-capable index, and stop at the first index
   * after which both are known.
   */
  method FindQueueFamilies(fams: seq<QueueFamily>) returns (indices: QueueFamilyIndices)
    ensures indices == QueueFamiliesOf(fams)
    ensures indices.graphicsFamily.Some? ==>
      indices.graphicsFamily.value < |fams| && fams[indices.graphicsFamily.value].graphics
    ensures indices.presentFamily.Some? ==>
      indices.presentFamily.value < |fams| && fams[indices.presentFamily.value].presentSupport
  {
    indices := QueueFamilyIndices(None, None);
    var i := 0;
    while i < |fams|
      invariant 0 <= i <= |fams|
      invariant indices == ScannedUpTo(fams, i)
      invariant StopFrom(fams, i) == StopFrom(fams, 0)
    {
      if fams[i].graphics {
        indices := indices.(graphicsFamily := Some(i));
      }
      if fams[i].presentSupport {
        indices := indices.(presentFamily := Some(i));
      }
      if indices.IsComplete() {
        return;
      }
      i := i + 1;
    }
  }

  /** The scan stops at the first index at which both families are known. */
  lemma ScanStopsAtFirstComplete(fams: seq<QueueFamily>)
    ensures var n := StopFrom(fams, 0);
      (n == |fams| || QueueFamiliesOf(fams).IsComplete()) &&
      forall m :: 0 < m < n ==> !ScannedUpTo(fams, m).IsComplete()
  {
  }

  /** A found graphics family is the last graphics-capable index the scan looked at. */
  lemma {:induction false} ScanKeepsLastGraphics(fams: seq<QueueFamily>)
    ensures var r := QueueFamiliesOf(fams); var n := StopFrom(fams, 0);
      r.graphicsFamily.Some? ==>
        r.graphicsFamily.value < n && fams[r.graphicsFamily.value].graphics &&
        forall j :: r.graphicsFamily.value < j < n ==> !fams[j].graphics
  {
  }

  /**
   * `isComplete` after the scan holds exactly when the device has some graphics family
   * and some family that can present: stopping early never loses a family.
   */
  lemma {:induction false} ScanCompleteIff(fams: seq<QueueFamily>)
    ensures QueueFamiliesOf(fams).IsComplete() <==>
      (exists g :: 0 <= g < |fams| && fams[g].graphics) &&
      (exists p :: 0 <= p < |fams| && fams[p].presentSupport)
  {
    var n := StopFrom(fams, 0);
    if (exists g :: 0 <= g < |fams| && fams[g].graphics) &&
       (exists p :: 0 <= p < |fams| && fams[p].presentSupport) {
      if n == |fams| {
        var g :| 0 <= g < |fams| && fams[g].graphics;
        var p :| 0 <= p < |fams| && fams[p].presentSupport;
        assert LastGraphics(fams, n).Some?;
        assert LastPresent(fams, n).Some?;
      }
    }
  }

  // ---------------------------------------------------------------------------------
  // Extensions
  // ---------------------------------------------------------------------------------

  ghost predicate SupportsRequiredExtensions(available: seq<string>) {
    forall i :: 0 <= i < |RequiredExtensions| ==> RequiredExtensions[i] in available
  }

  /**
   * `checkExtensionSupport`: start from the set of required names, erase every
   * available name from it, and report whether nothing is left.
   */
  method CheckExtensionSupport(available: seq<string>) returns (ok: bool)
    ensures ok <==> SupportsRequiredExtensions(available)
  {
    var required := set i | 0 <= i < |RequiredExtensions| :: RequiredExtensions[i];
    var remaining := required;
    for k := 0 to |available|
      invariant remaining == required - (set j | 0 <= j < k :: available[j])
    {
      remaining := remaining - {available[k]};
    }
    ok := remaining == {};
    assert (set j | 0 <= j < |available| :: available[j]) == set e | e in available;
    assert RequiredExtensions[0] in required;
  }

  // ---------------------------------------------------------------------------------
  // Formats
  // ---------------------------------------------------------------------------------

  /** The features a format offers for the tiling include every requested bit. */
  predicate FormatSupports(props: FormatProperties, tiling: ImageTiling, features: FormatFeatureFlags) {
    if tiling == Linear then props.linearTilingFeatures & features == features
    else if tiling == Optimal then props.optimalTilingFeatures & features == features
    else false
  }

  /** The first candidate at or after `from` that qualifies, or `|candidates|`. */
  function FirstSupportedFrom(candidates: seq<Format>, from: nat, tiling: ImageTiling,
                              features: FormatFeatureFlags, query: Format -> FormatProperties): (k: nat)
    requires from <= |candidates|
    ensures from <= k <= |candidates|
    ensures k < |candidates| ==> FormatSupports(query(candidates[k]), tiling, features)
    ensures forall j :: from <= j < k ==> !FormatSupports(query(candidates[j]), tiling, features)
    decreases |candidates| - from
  {
    if from == |candidates| then |candidates|
    else if FormatSupports(query(candidates[from]), tiling, features) then from
    else FirstSupportedFrom(candidates, from + 1, tiling, features, query)
  }

  /**
   * `findSupportedFormat`: the first candidate, in order, whose properties for the
   * tiling contain all requested feature bits; the default (undefined) format when
   * none does, after logging a critical message.
   */
  function FindSupportedFormat(candidates: seq<Format>, tiling: ImageTiling,
                               features: FormatFeatureFlags, query: Format -> FormatProperties): (r: Format)
    ensures (exists k :: 0 <= k < |candidates| && FormatSupports(query(candidates[k]), tiling, features)) ==>
      exists k :: 0 <= k < |candidates| && candidates[k] == r &&
        FormatSupports(query(candidates[k]), tiling, features) &&
        forall j :: 0 <= j < k ==> !FormatSupports(query(candidates[j]), tiling, features)
    ensures (forall k :: 0 <= k < |candidates| ==> !FormatSupports(query(candidates[k]), tiling, features)) ==>
      r == UndefinedFormat
  {
    var k := FirstSupportedFrom(candidates, 0, tiling, features, query);
    if k < |candidates| then candidates[k] else UndefinedFormat
  }

  /** `findDepthFormat`: D32Sfloat, then D32SfloatS8Uint, then D24UnormS8Uint, with optimal tiling. */
  function FindDepthFormat(query: Format -> FormatProperties): (r: Format)
    ensures var ok := (f: Format) => query(f).optimalTilingFeatures & DepthStencilAttachmentFeature == DepthStencilAttachmentFeature;
      r == (if ok(D32Sfloat) then D32Sfloat
            else if ok(D32SfloatS8Uint) then D32SfloatS8Uint
            else if ok(D24UnormS8Uint) then D24UnormS8Uint
            else UndefinedFormat)
  {
    var candidates := [D32Sfloat, D32SfloatS8Uint, D24UnormS8Uint];
    var r := FindSupportedFormat(candidates, Optimal, DepthStencilAttachmentFeature, query);
    assert FirstSupportedFrom(candidates, 0, Optimal, DepthStencilAttachmentFeature, query) <= 3;
    r
  }

  // ---------------------------------------------------------------------------------
  // Device choice
  // ---------------------------------------------------------------------------------

  /**
   * `isDeviceSuitable`: both queue families found, the required extensions present,
   * at least one surface format and one present mode, and sampler anisotropy.
   */
  ghost predicate IsDeviceSuitable(dev: PhysicalDeviceInfo) {
    QueueFamiliesOf(dev.queueFamilies).IsComplete()
    && SupportsRequiredExtensions(dev.extensions)
    && |dev.surfaceFormats| > 0 && |dev.presentModes| > 0
    && dev.samplerAnisotropy
  }

  /** Suitability restated without the scan: the device merely has to offer both kinds of family. */
  lemma SuitableIff(dev: PhysicalDeviceInfo)
    ensures IsDeviceSuitable(dev) <==>
      (exists g :: 0 <= g < |dev.queueFamilies| && dev.queueFamilies[g].graphics) &&
      (exists p :: 0 <= p < |dev.queueFamilies| && dev.queueFamilies[p].presentSupport) &&
      "VK_KHR_swapchain" in dev.extensions &&
      |dev.surfaceFormats| > 0 && |dev.presentModes| > 0 && dev.samplerAnisotropy
  {
    ScanCompleteIff(dev.queueFamilies);
    assert SupportsRequiredExtensions(dev.extensions) <==> RequiredExtensions[0] in dev.extensions;
  }

  /** The instance-side `isDeviceSuitable`, evaluated with the same foreign queries. */
  method CheckDeviceSuitable(dev: PhysicalDeviceInfo) returns (suitable: bool)
    ensures suitable <==> IsDeviceSuitable(dev)
  {
    var indices := FindQueueFamilies(dev.queueFamilies);
    var extensionsOk := CheckExtensionSupport(dev.extensions);
    suitable := indices.IsComplete() && extensionsOk
      && |dev.surfaceFormats| > 0 && |dev.presentModes| > 0
      && dev.samplerAnisotropy;
  }

  /** One `vk::DeviceQueueCreateInfo`: a family, one queue, priority 1. */
  datatype QueueCreateInfo = QueueCreateInfo(queueFamilyIndex: nat, queueCount: nat, priorities: seq<real>)

  /**
   * The queue create-infos of `createLogicalDevice`: one per member of the
   * `std::set` {graphics, present}, in ascending order. `value()` on an unset family
   * throws, so both must be set.
   */
  method QueueCreateInfos(indices: QueueFamilyIndices) returns (infos: seq<QueueCreateInfo>)
    requires indices.IsComplete()
    ensures var g, p := indices.graphicsFamily.value, indices.presentFamily.value;
      |infos| == (if g == p then 1 else 2)
      && (forall k :: 0 <= k < |infos| ==> infos[k].queueCount == 1 && infos[k].priorities == [1.0])
      && (set k | 0 <= k < |infos| :: infos[k].queueFamilyIndex) == {g, p}
      && (forall k :: 0 < k < |infos| ==> infos[k - 1].queueFamilyIndex < infos[k].queueFamilyIndex)
  {
    var g, p := indices.graphicsFamily.value, indices.presentFamily.value;
    var uniqueQueueFamilies := if g < p then [g, p] else if p < g then [p, g] else [g];
    infos := [];
    for k := 0 to |uniqueQueueFamilies|
      invariant |infos| == k
      invariant forall j :: 0 <= j < k ==> infos[j] == QueueCreateInfo(uniqueQueueFamilies[j], 1, [1.0])
    {
      infos := infos + [QueueCreateInfo(uniqueQueueFamilies[k], 1, [1.0])];
    }
    assert (set k | 0 <= k < |infos| :: infos[k].queueFamilyIndex) == set x | x in uniqueQueueFamilies;
  }

  /** The part of `Device` that `pickPhysicalDevice` sets: the chosen GPU. */
  class Device {
    /** `m_gpu`: the position of the chosen device in enumeration order; None is the null handle. */
    var gpu: Option<nat>

    constructor ()
      ensures gpu == None
    {
      gpu := None;
    }

    /**
     * `pickPhysicalDevice`: take the first suitable device in enumeration order. With no
     * devices at all, or none suitable while no GPU was chosen before, a critical
     * message is logged (`critical`) and the GPU stays as it was.
     */
    method PickPhysicalDevice(devices: seq<PhysicalDeviceInfo>) returns (critical: bool)
      modifies this
      ensures (exists k :: 0 <= k < |devices| && IsDeviceSuitable(devices[k])) ==>
        gpu.Some? && gpu.value < |devices| && IsDeviceSuitable(devices[gpu.value]) &&
        (forall j :: 0 <= j < gpu.value ==> !IsDeviceSuitable(devices[j])) && !critical
      ensures (forall k :: 0 <= k < |devices| ==> !IsDeviceSuitable(devices[k])) ==>
        gpu == old(gpu) && (critical <==> devices == [] || old(gpu).None?)
    {
      if devices == [] {
        return true;
      }
      for k := 0 to |devices|
        invariant gpu == old(gpu)
        invariant forall j :: 0 <= j < k ==> !IsDeviceSuitable(devices[j])
      {
        var suitable := CheckDeviceSuitable(devices[k]);
        if suitable {
          gpu := Some(k);
          return false;
        }
      }
      critical := gpu.None?;
    }
  }
}
