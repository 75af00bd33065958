/** Small helpers of `utils`: validation-layer lookup, stencil detection, byte sizes. */
module Utils {
  import opened Vk

  /** Every requested layer name equals some available layer name. */
  ghost predicate AllLayersAvailable(requested: seq<string>, available: seq<string>) {
    forall i :: 0 <= i < |requested| ==> requested[i] in available
  }

  /**
   * `checkValidationLayerSupport`: for each requested layer, scan the available layers
   * for an equal name; stop with false at the first requested layer that is missing.
   * The available list is what `vk::enumerateInstanceLayerProperties` reports.
   */
  method CheckValidationLayerSupport(requested: seq<string>, available: seq<string>) returns (ok: bool)
    ensures ok <==> AllLayersAvailable(requested, available)
    ensures requested == [] ==> ok
  {
    for i := 0 to |requested|
      invariant forall k :: 0 <= k < i ==> requested[k] in available
    {
      var layerFound := false;
      var j := 0;
      while j < |available|
        invariant 0 <= j <= |available|
        invariant !layerFound ==> requested[i] !in available[..j]
        invariant layerFound ==> requested[i] in available
      {
        if requested[i] == available[j] {
          layerFound := true;
          break;
        }
        j := j + 1;
      }
      if !layerFound {
        assert available[..j] == available;
        return false;
      }
    }
    return true;
  }

  /** `hasStencilComponent`: the two combined depth/stencil formats. */
  predicate HasStencilComponent(format: Format) {
    format == D32SfloatS8Uint || format == D24UnormS8Uint
  }

  lemma DepthCandidatesStencil()
    ensures !HasStencilComponent(D32Sfloat)
    ensures HasStencilComponent(D32SfloatS8Uint) && HasStencilComponent(D24UnormS8Uint)
    ensures forall f :: HasStencilComponent(f) ==> f in {D32SfloatS8Uint, D24UnormS8Uint}
  {
  }

  /**
   * `vectorsizeof`: element size times element count, returned as `uint32_t`, so a
   * byte size of 2^32 or more wraps around.
   */
  function VectorSizeOf(elementSize: nat, count: nat): (r: u32)
    ensures elementSize * count < U32_LIMIT ==> r == elementSize * count
    ensures (r - elementSize * count) % U32_LIMIT == 0
  {
    ToU32(elementSize * count)
  }
}
