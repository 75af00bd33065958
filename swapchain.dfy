/**
 * `Swapchain` (`Swapchain.cpp`): the selection rules that turn what the surface reports
 * into a swapchain create-info, and the lifecycle of the image and framebuffer lists.
 * The surface queries, the driver's handles and the window's framebuffer size are
 * parameters.
 */
module Swapchains {
  import opened Vk
  import Images
  import Devices
  import DepthResources

  datatype SurfaceCapabilities = SurfaceCapabilities(
    minImageCount: u32,
    maxImageCount: u32,
    currentExtent: Extent2D,
    minImageExtent: Extent2D,
    maxImageExtent: Extent2D)

  /** What `getSurfaceFormatsKHR`, `getSurfacePresentModesKHR` and `getSurfaceCapabilitiesKHR` report. */
  datatype Surface = Surface(
    formats: seq<Devices.SurfaceFormat>,
    presentModes: seq<PresentMode>,
    capabilities: SurfaceCapabilities)

  /** `glfwGetFramebufferSize`: a width and a height as C `int`. */
  datatype FramebufferSize = FramebufferSize(width: int, height: int)
  {
    predicate NonZero() {
      width != 0 && height != 0
    }
  }

  datatype SharingMode = Exclusive | Concurrent(queueFamilyIndices: seq<nat>)

  /** The fields of `vk::SwapchainCreateInfoKHR` that `create` computes. */
  datatype SwapchainCreateInfo = SwapchainCreateInfo(
    minImageCount: u32,
    imageFormat: Format,
    imageColorSpace: ColorSpace,
    imageExtent: Extent2D,
    sharing: SharingMode,
    presentMode: PresentMode)

  /** What the driver hands back: `createSwapchainKHR` and `getSwapchainImagesKHR`. */
  datatype SwapchainDriver = SwapchainDriver(handle: nat, images: seq<nat>)

  /** An element of `m_images`: only its handle and its view matter to the swapchain. */
  datatype SwapchainImage = SwapchainImage(handle: nat, view: Images.View)

  /** A `Framebuffer`, named by its create-info. */
  datatype Framebuffer = Framebuffer(renderPass: nat, attachments: seq<Images.View>, width: u32, height: u32)

  const PreferredSurfaceFormat: Devices.SurfaceFormat := Devices.SurfaceFormat(B8G8R8A8Srgb, SrgbNonlinear)

  function SurfaceFormatFor(formats: seq<Devices.SurfaceFormat>): Devices.SurfaceFormat
    requires |formats| > 0
  {
    if PreferredSurfaceFormat in formats then PreferredSurfaceFormat else formats[0]
  }

  function PresentModeFor(modes: seq<PresentMode>): PresentMode {
    if Mailbox in modes then Mailbox else Fifo
  }

  /**
   * `chooseSurfaceFormat`: the first B8G8R8A8Srgb / SrgbNonlinear entry if there is one,
   * otherwise the first entry. The list is non-empty for any device that passed the
   * suitability check.
   */
  method ChooseSurfaceFormat(formats: seq<Devices.SurfaceFormat>) returns (chosen: Devices.SurfaceFormat)
    requires |formats| > 0
    ensures chosen in formats
    ensures PreferredSurfaceFormat in formats ==> chosen == PreferredSurfaceFormat
    ensures PreferredSurfaceFormat !in formats ==> chosen == formats[0]
    ensures chosen == SurfaceFormatFor(formats)
  {
    for i := 0 to |formats|
      invariant PreferredSurfaceFormat !in formats[..i]
    {
      if formats[i].format == B8G8R8A8Srgb && formats[i].colorSpace == SrgbNonlinear {
        return formats[i];
      }
    }
    assert formats[..|formats|] == formats;
    return formats[0];
  }

  /** `choosePresentMode`: Mailbox when it is offered anywhere, otherwise Fifo. */
  method ChoosePresentMode(modes: seq<PresentMode>) returns (mode: PresentMode)
    ensures Mailbox in modes ==> mode == Mailbox
    ensures Mailbox !in modes ==> mode == Fifo
    ensures mode == PresentModeFor(modes)
  {
    for i := 0 to |modes|
      invariant Mailbox !in modes[..i]
    {
      if modes[i] == Mailbox {
        return modes[i];
      }
    }
    assert modes[..|modes|] == modes;
    return Fifo;
  }

  /** `std::clamp`, which requires `lo <= hi`. */
  function Clamp(v: u32, lo: u32, hi: u32): (r: u32)
    requires lo <= hi
    ensures lo <= r <= hi
    ensures lo <= v <= hi ==> r == v
    ensures v < lo ==> r == lo
    ensures hi < v ==> r == hi
  {
    if v < lo then lo else if hi < v then hi else v
  }

  /** Vulkan guarantees min <= max for both image-extent bounds. */
  predicate ExtentBoundsOrdered(caps: SurfaceCapabilities) {
    caps.minImageExtent.width <= caps.maxImageExtent.width
    && caps.minImageExtent.height <= caps.maxImageExtent.height
  }

  /**
   * `chooseExtent`: the surface's current extent, unless its width is the UINT32_MAX
   * "match the window" sentinel; then the framebuffer size, cast to `uint32_t`, clamped
   * into the surface's bounds dimension by dimension.
   */
  function ChooseExtent(caps: SurfaceCapabilities, fb: FramebufferSize): (r: Extent2D)
    requires caps.currentExtent.width == UINT32_MAX ==> ExtentBoundsOrdered(caps)
    ensures caps.currentExtent.width != UINT32_MAX ==> r == caps.currentExtent
    ensures caps.currentExtent.width == UINT32_MAX ==>
      caps.minImageExtent.width <= r.width <= caps.maxImageExtent.width
      && caps.minImageExtent.height <= r.height <= caps.maxImageExtent.height
    ensures (caps.currentExtent.width == UINT32_MAX
      && caps.minImageExtent.width <= fb.width <= caps.maxImageExtent.width) ==> r.width == fb.width
    ensures (caps.currentExtent.width == UINT32_MAX
      && caps.minImageExtent.height <= fb.height <= caps.maxImageExtent.height) ==> r.height == fb.height
    ensures caps.currentExtent.width == UINT32_MAX && 0 <= fb.width < caps.minImageExtent.width ==>
      r.width == caps.minImageExtent.width
    ensures caps.currentExtent.width == UINT32_MAX && caps.maxImageExtent.width < fb.width < U32_LIMIT ==>
      r.width == caps.maxImageExtent.width
    ensures caps.currentExtent.width == UINT32_MAX && 0 <= fb.height < caps.minImageExtent.height ==>
      r.height == caps.minImageExtent.height
    ensures caps.currentExtent.width == UINT32_MAX && caps.maxImageExtent.height < fb.height < U32_LIMIT ==>
      r.height == caps.maxImageExtent.height
  {
    if caps.currentExtent.width != UINT32_MAX then
      caps.currentExtent
    else
      Extent2D(Clamp(ToU32(fb.width), caps.minImageExtent.width, caps.maxImageExtent.width),
               Clamp(ToU32(fb.height), caps.minImageExtent.height, caps.maxImageExtent.height))
  }

  /**
   * The requested image count: minImageCount + 1 as `uint32_t`, lowered to maxImageCount
   * when there is a maximum (non-zero) and it is exceeded.
   */
  function ImageCount(caps: SurfaceCapabilities): (r: u32)
    ensures (caps.minImageCount < UINT32_MAX
      && (caps.maxImageCount == 0 || caps.minImageCount < caps.maxImageCount)) ==> r == caps.minImageCount + 1
    ensures 0 < caps.maxImageCount <= caps.minImageCount < UINT32_MAX ==> r == caps.maxImageCount
    ensures caps.maxImageCount > 0 && caps.minImageCount < UINT32_MAX ==> r <= caps.maxImageCount
    ensures caps.minImageCount == UINT32_MAX ==> r == 0
  {
    var imgCount := ToU32(caps.minImageCount + 1);
    if caps.maxImageCount > 0 && imgCount > caps.maxImageCount then caps.maxImageCount else imgCount
  }

  /**
   * Exclusive sharing when one queue family does both jobs; otherwise concurrent
   * sharing listing the graphics family and then the present family.
   */
  function SharingFor(indices: QueueFamilyIndices): (r: SharingMode)
    requires indices.IsComplete()
    ensures r.Exclusive? <==> indices.graphicsFamily == indices.presentFamily
    ensures r.Concurrent? ==>
      r.queueFamilyIndices == [indices.graphicsFamily.value, indices.presentFamily.value]
      && r.queueFamilyIndices[0] != r.queueFamilyIndices[1]
  {
    if indices.graphicsFamily != indices.presentFamily then
      Concurrent([indices.graphicsFamily.value, indices.presentFamily.value])
    else
      Exclusive
  }

  /** The create-info `create` builds from the surface, the window size and the queue families. */
  function CreateInfoFor(surface: Surface, fb: FramebufferSize, indices: QueueFamilyIndices): SwapchainCreateInfo
    requires |surface.formats| > 0
    requires surface.capabilities.currentExtent.width == UINT32_MAX ==> ExtentBoundsOrdered(surface.capabilities)
    requires indices.IsComplete()
  {
    var surfaceFormat := SurfaceFormatFor(surface.formats);
    SwapchainCreateInfo(
      ImageCount(surface.capabilities),
      surfaceFormat.format,
      surfaceFormat.colorSpace,
      ChooseExtent(surface.capabilities, fb),
      SharingFor(indices),
      PresentModeFor(surface.presentModes))
  }

  /** The element `m_images.resize` leaves at position `i`: the old one, or a default `Image`. */
  function ResizedImage(images: seq<SwapchainImage>, i: nat): SwapchainImage {
    if i < |images| then images[i] else SwapchainImage(0, Images.NoView)
  }

  /** `m_images[i]` after `setHandle(h)` and `createView(format, eColor)`. */
  function AcquiredImage(previous: SwapchainImage, h: nat, format: Format): (r: SwapchainImage)
    ensures r.handle == h
    ensures h != 0 ==> r.view == Images.ViewOf(h, format, Images.Color)
    ensures h == 0 ==> r.view == previous.view
  {
    SwapchainImage(h, Images.ViewAfterCreate(h, previous.view, format, Images.Color))
  }

  /**
   * Everything `recreate` needs from the outside world: the framebuffer sizes its busy
   * wait reads, then the size `chooseExtent` reads again inside `create` (the window may
   * have changed in between), and what the driver and the allocator report.
   */
  datatype RecreateEnv = RecreateEnv(
    polls: seq<FramebufferSize>,
    createSize: FramebufferSize,
    surface: Surface,
    indices: QueueFamilyIndices,
    driver: SwapchainDriver,
    formatProperties: Format -> Devices.FormatProperties,
    depthAllocation: nat)
  {
    /**
     * The window eventually reports a non-zero size (otherwise `recreate` waits forever),
     * and the surface and queue families satisfy what `create` relies on.
     */
    predicate Ok() {
      (exists i :: 0 <= i < |polls| && polls[i].NonZero())
      && |surface.formats| > 0
      && (surface.capabilities.currentExtent.width == UINT32_MAX ==> ExtentBoundsOrdered(surface.capabilities))
      && indices.IsComplete()
    }
  }

  /** The index of the first framebuffer-size poll at or after `k` that is non-zero in both dimensions. */
  function FirstNonZeroFrom(polls: seq<FramebufferSize>, k: nat): (r: nat)
    requires k <= |polls|
    requires exists j :: k <= j < |polls| && polls[j].NonZero()
    ensures k <= r < |polls| && polls[r].NonZero()
    ensures forall j :: k <= j < r ==> !polls[j].NonZero()
    decreases |polls| - k
  {
    if polls[k].NonZero() then k else FirstNonZeroFrom(polls, k + 1)
  }

  /** The extent `recreate` gives the swapchain: chosen for the size read inside `create`. */
  function RebuiltExtent(env: RecreateEnv): Extent2D
    requires env.Ok()
  {
    CreateInfoFor(env.surface, env.createSize, env.indices).imageExtent
  }

  class Swapchain {
    /** `handle`; 0 is VK_NULL_HANDLE. */
    var handle: nat
    /** `m_imageFormat`. */
    var imageFormat: Format
    /** `m_extent`. */
    var extent: Extent2D
    /** `m_images`. */
    var images: seq<SwapchainImage>
    /** `m_framebuffers`. */
    var framebuffers: seq<Framebuffer>
    /** `m_renderPass`. */
    var renderPass: nat
    /** The renderer's single depth image, which every framebuffer shares. */
    const depthImage: Images.Image

    constructor (depthImage: Images.Image)
      ensures this.depthImage == depthImage
      ensures handle == 0 && images == [] && framebuffers == [] && renderPass == 0
    {
      this.depthImage := depthImage;
      handle := 0;
      imageFormat := UndefinedFormat;
      extent := Extent2D(0, 0);
      images := [];
      framebuffers := [];
      renderPass := 0;
    }

    /** `setRenderPass`. */
    method SetRenderPass(rp: nat)
      modifies this`renderPass
      ensures renderPass == rp
    {
      renderPass := rp;
    }

    /**
     * `create`: choose format, present mode, extent, image count and sharing mode, create
     * the swapchain and give each of its images a color view. `m_images` is resized, so
     * elements that already existed keep their old view when the driver gives a null image.
     */
    method Create(surface: Surface, fb: FramebufferSize, indices: QueueFamilyIndices, driver: SwapchainDriver)
      returns (info: SwapchainCreateInfo)
      requires |surface.formats| > 0
      requires surface.capabilities.currentExtent.width == UINT32_MAX ==> ExtentBoundsOrdered(surface.capabilities)
      requires indices.IsComplete()
      modifies this`handle, this`imageFormat, this`extent, this`images
      ensures info == CreateInfoFor(surface, fb, indices)
      ensures extent == info.imageExtent && imageFormat == info.imageFormat
      ensures handle == driver.handle
      ensures |images| == |driver.images|
      ensures forall i :: 0 <= i < |images| ==>
        images[i] == AcquiredImage(ResizedImage(old(images), i), driver.images[i], imageFormat)
    {
      var surfaceFormat := ChooseSurfaceFormat(surface.formats);
      var presentMode := ChoosePresentMode(surface.presentModes);
      extent := ChooseExtent(surface.capabilities, fb);
      var imgCount := ImageCount(surface.capabilities);
      var sharing := SharingFor(indices);
      info := SwapchainCreateInfo(imgCount, surfaceFormat.format, surfaceFormat.colorSpace, extent, sharing, presentMode);

      handle := driver.handle;
      imageFormat := surfaceFormat.format;

      var previous := images;
      var resized := seq(|driver.images|, i requires 0 <= i < |driver.images| => ResizedImage(previous, i));
      images := resized;
      for i := 0 to |driver.images|
        invariant handle == driver.handle && imageFormat == surfaceFormat.format && extent == info.imageExtent
        invariant |images| == |driver.images|
        invariant forall k :: 0 <= k < i ==> images[k] == AcquiredImage(resized[k], driver.images[k], imageFormat)
        invariant forall k :: i <= k < |images| ==> images[k] == resized[k]
      {
        var image := SwapchainImage(driver.images[i], images[i].view);
        images := images[i := SwapchainImage(image.handle, Images.ViewAfterCreate(image.handle, image.view, imageFormat, Images.Color))];
      }
    }

    /**
     * `createFramebuffers`: one framebuffer per image, attaching that image's view and the
     * shared depth view, sized to the swapchain extent.
     */
    method CreateFramebuffers()
      modifies this`framebuffers
      ensures |framebuffers| == |images|
      ensures forall i :: 0 <= i < |images| ==>
        framebuffers[i] == Framebuffer(renderPass, [images[i].view, depthImage.view], extent.width, extent.height)
    {
      var previous := framebuffers;
      var count := |images|;
      framebuffers := seq(count, i requires 0 <= i < count =>
        if i < |previous| then previous[i] else Framebuffer(0, [], 0, 0));
      for i := 0 to |images|
        invariant |framebuffers| == |images|
        invariant forall k :: 0 <= k < i ==>
          framebuffers[k] == Framebuffer(renderPass, [images[k].view, depthImage.view], extent.width, extent.height)
      {
        var attachments := [images[i].view, depthImage.view];
        framebuffers := framebuffers[i := Framebuffer(renderPass, attachments, extent.width, extent.height)];
      }
    }

    /**
     * `destroy`: release the framebuffers, the image views and the swapchain, and forget
     * them. It first destroys the shared depth image, whose fields that does not change;
     * releasing Vulkan objects is not modelled, so the depth image is left as it is.
     */
    method Destroy()
      modifies this`framebuffers, this`images, this`handle
      ensures framebuffers == [] && images == [] && handle == 0
    {
      framebuffers := [];
      images := [];
      handle := 0;
    }

    /**
     * The state `recreate` leaves, which depends only on its inputs and on the depth view
     * before the call (kept if the depth allocation fails): a fresh swapchain for the window
     * size `create` reads, a depth image of the new extent, and one framebuffer per new image.
     */
    ghost predicate RebuiltFor(env: RecreateEnv, oldDepthView: Images.View)
      requires env.Ok()
      reads this, depthImage
    {
      var info := CreateInfoFor(env.surface, env.createSize, env.indices);
      && handle == env.driver.handle
      && extent == info.imageExtent
      && imageFormat == info.imageFormat
      && |images| == |env.driver.images|
      && (forall i :: 0 <= i < |images| ==>
            images[i] == AcquiredImage(SwapchainImage(0, Images.NoView), env.driver.images[i], imageFormat))
      && depthImage.allocatedExtent == extent
      && depthImage.handle == env.depthAllocation
      && depthImage.view == Images.ViewAfterCreate(env.depthAllocation, oldDepthView,
                                                   Devices.FindDepthFormat(env.formatProperties), Images.Depth)
      && depthImage.currentLayout == DepthStencilAttachmentOptimal
      && |framebuffers| == |images|
      && (forall i :: 0 <= i < |images| ==>
            framebuffers[i] == Framebuffer(renderPass, [images[i].view, depthImage.view], extent.width, extent.height))
    }

    /**
     * `recreate`: wait until the window has a non-zero size, then destroy, create (which
     * reads the window size again), rebuild the depth image at the new extent and create
     * the framebuffers, in that order. The `waitIdle` between the wait and `destroy` acts
     * on the renderer's frame slots and is the renderer's `WaitIdle`.
     */
    method Recreate(env: RecreateEnv)
      requires env.Ok()
      modifies this`handle, this`imageFormat, this`extent, this`images, this`framebuffers, depthImage
      ensures RebuiltFor(env, old(depthImage.view))
      ensures renderPass == old(renderPass)
    {
      var k := 0;
      var size := env.polls[0];
      while size.width == 0 || size.height == 0
        invariant 0 <= k < |env.polls| && size == env.polls[k]
        invariant k <= FirstNonZeroFrom(env.polls, 0)
        decreases |env.polls| - k
      {
        k := k + 1;
        size := env.polls[k];
      }
      Destroy();
      var _ := Create(env.surface, env.createSize, env.indices, env.driver);
      DepthResources.CreateDepthImage(depthImage, extent, env.formatProperties, env.depthAllocation);
      CreateFramebuffers();
    }
  }

  /**
   * After a recreate, framebuffer `i` pairs the color view of swapchain image `i` with the
   * depth view, whatever the swapchain held before.
   */
  lemma RebuiltFramebuffersPairViews(sc: Swapchain, env: RecreateEnv, oldDepthView: Images.View, i: nat)
    requires env.Ok()
    requires sc.RebuiltFor(env, oldDepthView)
    requires i < |sc.images|
    ensures i < |sc.framebuffers| && |sc.framebuffers[i].attachments| == 2
    ensures env.driver.images[i] != 0 ==>
      sc.framebuffers[i].attachments[0] == Images.ViewOf(env.driver.images[i], sc.imageFormat, Images.Color)
    ensures env.depthAllocation != 0 ==>
      sc.framebuffers[i].attachments[1].ViewOf? && sc.framebuffers[i].attachments[1].aspect == Images.Depth
    ensures sc.framebuffers[i].width == sc.depthImage.allocatedExtent.width
    ensures sc.framebuffers[i].height == sc.depthImage.allocatedExtent.height
  {
  }
}
