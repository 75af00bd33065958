/**
 * `Image` (`Image.cpp`): a 2D image with one view and a tracked layout. The layout
 * change is a pure case table on (old layout, new layout, format); the image records the
 * new layout only when the table supports the pair.
 */
module Images {
  import opened Vk
  import Utils

  datatype Access = TransferWrite | ShaderRead | DepthStencilAttachmentRead | DepthStencilAttachmentWrite

  datatype Stage = TopOfPipe | Transfer | FragmentShader | EarlyFragmentTests | ColorAttachmentOutput

  datatype Aspect = Color | Depth | Stencil

  /**
   * An image view, named by what it was created from: the image handle, the format and
   * the aspect of its subresource range.
   */
  datatype View = NoView | ViewOf(image: nat, format: Format, aspect: Aspect)

  /** The single `vk::ImageMemoryBarrier` a supported transition records, with its two stages. */
  datatype Barrier = Barrier(
    oldLayout: ImageLayout,
    newLayout: ImageLayout,
    srcAccess: set<Access>,
    dstAccess: set<Access>,
    srcStage: Stage,
    dstStage: Stage,
    aspect: set<Aspect>)

  predicate IsDepthLayout(layout: ImageLayout) {
    layout == DepthStencilAttachmentOptimal || layout == DepthStencilReadOnlyOptimal
  }

  /** The aspect mask: color, or depth (plus stencil when the format has one) for a depth target layout. */
  function AspectMask(newLayout: ImageLayout, format: Format): (r: set<Aspect>)
    ensures Color in r <==> !IsDepthLayout(newLayout)
    ensures Depth in r <==> IsDepthLayout(newLayout)
    ensures Stencil in r <==> IsDepthLayout(newLayout) && Utils.HasStencilComponent(format)
  {
    if IsDepthLayout(newLayout) then
      {Depth} + (if Utils.HasStencilComponent(format) then {Stencil} else {})
    else {Color}
  }

  /** The four (old, new) pairs `transitionLayout` knows. */
  predicate SupportedTransition(oldLayout: ImageLayout, newLayout: ImageLayout) {
    (oldLayout == Undefined && newLayout == TransferDstOptimal)
    || (oldLayout == TransferDstOptimal && newLayout == ShaderReadOnlyOptimal)
    || (oldLayout == Undefined && newLayout == DepthStencilAttachmentOptimal)
    || (oldLayout == Undefined && newLayout == DepthStencilReadOnlyOptimal)
  }

  /** The decision table of `transitionLayout`; None stands for "unsupported transition". */
  function TransitionBarrier(format: Format, oldLayout: ImageLayout, newLayout: ImageLayout): (r: Option<Barrier>)
    ensures r.Some? <==> SupportedTransition(oldLayout, newLayout)
    ensures r.Some? ==> r.value.oldLayout == oldLayout && r.value.newLayout == newLayout
    ensures r.Some? ==> r.value.aspect == AspectMask(newLayout, format)
    ensures r.Some? ==> (r.value.srcAccess == {} <==> oldLayout == Undefined)
    ensures r.Some? ==> (r.value.srcStage == TopOfPipe <==> oldLayout == Undefined)
    ensures r.Some? && IsDepthLayout(newLayout) ==>
      r.value.dstStage == EarlyFragmentTests && DepthStencilAttachmentRead in r.value.dstAccess
    ensures r.Some? ==> (DepthStencilAttachmentWrite in r.value.dstAccess <==> newLayout == DepthStencilAttachmentOptimal)
  {
    var aspect := AspectMask(newLayout, format);
    if oldLayout == Undefined && newLayout == TransferDstOptimal then
      Some(Barrier(oldLayout, newLayout, {}, {TransferWrite}, TopOfPipe, Transfer, aspect))
    else if oldLayout == TransferDstOptimal && newLayout == ShaderReadOnlyOptimal then
      Some(Barrier(oldLayout, newLayout, {TransferWrite}, {ShaderRead}, Transfer, FragmentShader, aspect))
    else if oldLayout == Undefined && newLayout == DepthStencilAttachmentOptimal then
      Some(Barrier(oldLayout, newLayout, {}, {DepthStencilAttachmentWrite, DepthStencilAttachmentRead},
                   TopOfPipe, EarlyFragmentTests, aspect))
    else if oldLayout == Undefined && newLayout == DepthStencilReadOnlyOptimal then
      Some(Barrier(oldLayout, newLayout, {}, {DepthStencilAttachmentRead}, TopOfPipe, EarlyFragmentTests, aspect))
    else
      None
  }

  /**
   * The upload path of a texture (Undefined, then TransferDstOptimal, then
   * ShaderReadOnlyOptimal) is two supported steps whose barriers chain: the second
   * waits on exactly the access and stage the first makes visible.
   */
  lemma UploadTransitionsChain(format: Format)
    ensures var first := TransitionBarrier(format, Undefined, TransferDstOptimal);
      var second := TransitionBarrier(format, TransferDstOptimal, ShaderReadOnlyOptimal);
      first.Some? && second.Some? &&
      first.value.dstAccess == second.value.srcAccess &&
      first.value.dstStage == second.value.srcStage &&
      first.value.aspect == second.value.aspect == {Color}
  {
  }

  /** The access masks and stages of each supported row of the table. */
  lemma TransitionTable(format: Format)
    ensures var b := TransitionBarrier(format, Undefined, TransferDstOptimal).value;
      b.srcAccess == {} && b.dstAccess == {TransferWrite} && b.srcStage == TopOfPipe && b.dstStage == Transfer
    ensures var b := TransitionBarrier(format, TransferDstOptimal, ShaderReadOnlyOptimal).value;
      b.srcAccess == {TransferWrite} && b.dstAccess == {ShaderRead} && b.srcStage == Transfer && b.dstStage == FragmentShader
    ensures var b := TransitionBarrier(format, Undefined, DepthStencilAttachmentOptimal).value;
      b.srcAccess == {} && b.dstAccess == {DepthStencilAttachmentRead, DepthStencilAttachmentWrite}
      && b.srcStage == TopOfPipe && b.dstStage == EarlyFragmentTests
    ensures var b := TransitionBarrier(format, Undefined, DepthStencilReadOnlyOptimal).value;
      b.srcAccess == {} && b.dstAccess == {DepthStencilAttachmentRead}
      && b.srcStage == TopOfPipe && b.dstStage == EarlyFragmentTests
  {
  }

  /** The view `createView` leaves: unchanged (after logging) on a null image, else a view of the image. */
  function ViewAfterCreate(handle: nat, view: View, format: Format, aspect: Aspect): (r: View)
    ensures handle == 0 ==> r == view
    ensures handle != 0 ==> r.ViewOf? && r.image == handle && r.format == format && r.aspect == aspect
  {
    if handle == 0 then view else ViewOf(handle, format, aspect)
  }

  class Image {
    /** `m_handle`; 0 is VK_NULL_HANDLE. */
    var handle: nat
    /** `m_view`. */
    var view: View
    /** `m_currentLayout`. */
    var currentLayout: ImageLayout
    /** The extent `create` last handed to the allocator; the image stores no extent of its own. */
    ghost var allocatedExtent: Extent2D

    constructor ()
      ensures handle == 0 && view == NoView && currentLayout == Undefined
    {
      handle := 0;
      view := NoView;
      currentLayout := Undefined;
      allocatedExtent := Extent2D(0, 0);
    }

    /** `setHandle`. */
    method SetHandle(h: nat)
      modifies this`handle
      ensures handle == h
    {
      handle := h;
    }

    /** `setView`. */
    method SetView(v: View)
      modifies this`view
      ensures view == v
    {
      view := v;
    }

    /**
     * `create`: allocate a 2D image of the given size. `allocation` is what the memory
     * allocator returns; 0 means the allocation failed (logged), and the handle is then null.
     */
    method Create(width: u32, height: u32, format: Format, allocation: nat) returns (error: bool)
      modifies this`handle, this`allocatedExtent
      ensures allocatedExtent == Extent2D(width, height)
      ensures handle == allocation
      ensures error <==> allocation == 0
    {
      allocatedExtent := Extent2D(width, height);
      error := allocation == 0;
      handle := allocation;
    }

    /** `createView`: log an error and keep the old view on a null handle; otherwise create a view. */
    method CreateView(format: Format, aspect: Aspect) returns (error: bool)
      modifies this`view
      ensures view == ViewAfterCreate(handle, old(view), format, aspect)
      ensures error <==> handle == 0
    {
      if handle == 0 {
        return true;
      }
      view := ViewOf(handle, format, aspect);
      return false;
    }

    /**
     * `transitionLayout`: record the barrier of the table and submit it, then track the
     * new layout; on an unsupported pair, warn and return with the layout unchanged.
     * `barrier` is the barrier recorded; `submitted` says whether the single-time command
     * buffer begun at the start was ended, submitted and freed (on the unsupported path the
     * source returns before doing so).
     */
    method TransitionLayout(format: Format, oldLayout: ImageLayout, newLayout: ImageLayout)
      returns (barrier: Option<Barrier>, submitted: bool)
      modifies this`currentLayout
      ensures barrier == TransitionBarrier(format, oldLayout, newLayout)
      ensures submitted <==> SupportedTransition(oldLayout, newLayout)
      ensures currentLayout == if submitted then newLayout else old(currentLayout)
    {
      barrier := TransitionBarrier(format, oldLayout, newLayout);
      if barrier.None? {
        return barrier, false;
      }
      currentLayout := newLayout;
      submitted := true;
    }
  }
}
