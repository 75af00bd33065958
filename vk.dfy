/**
 * Value types shared by the whole renderer model: the Vulkan enumerations the core
 * inspects, 32-bit unsigned arithmetic as C++ performs it, and the frame-slot count.
 * Vulkan handles are modelled as opaque ids (0 is the null handle) or as values that
 * describe the object they name.
 */
module Vk {

  datatype Option<+T> = None | Some(value: T)

  /** The range of C++ `uint32_t`. */
  const U32_LIMIT: int := 0x1_0000_0000
  const UINT32_MAX: int := 0xFFFF_FFFF

  type u32 = x: int | 0 <= x < 0x1_0000_0000

  /** Conversion to `uint32_t`: the value modulo 2^32, as C++ defines it. */
  function ToU32(x: int): (r: u32)
    ensures 0 <= x < U32_LIMIT ==> r == x
    ensures (r - x) % U32_LIMIT == 0
  {
    x % U32_LIMIT
  }

  /** `Device::maxFramesInFlight`: the number of frame slots. */
  const MaxFramesInFlight: nat := 2

  datatype Format =
    | UndefinedFormat
    | B8G8R8A8Srgb
    | B8G8R8A8Unorm
    | R8G8B8A8Srgb
    | R8G8B8A8Unorm
    | D32Sfloat
    | D32SfloatS8Uint
    | D24UnormS8Uint
    | OtherFormat(code: nat)

  datatype ColorSpace = SrgbNonlinear | OtherColorSpace(code: nat)

  datatype PresentMode = Immediate | Mailbox | Fifo | FifoRelaxed

  datatype Extent2D = Extent2D(width: u32, height: u32)

  datatype ImageLayout =
    | Undefined
    | General
    | ColorAttachmentOptimal
    | DepthStencilAttachmentOptimal
    | DepthStencilReadOnlyOptimal
    | ShaderReadOnlyOptimal
    | TransferSrcOptimal
    | TransferDstOptimal
    | PresentSrc

  /** The `vk::Result` codes the frame orchestrator distinguishes. */
  datatype VkResult =
    | Success
    | SuboptimalKhr
    | ErrorOutOfDateKhr
    | NotReady
    | Timeout
    | OtherError(code: int)

  datatype QueueFamilyIndices = QueueFamilyIndices(graphicsFamily: Option<nat>, presentFamily: Option<nat>)
  {
    /** `QueueFamilyIndices::isComplete`: both families have been found. */
    predicate IsComplete() {
      graphicsFamily.Some? && presentFamily.Some?
    }
  }
}
