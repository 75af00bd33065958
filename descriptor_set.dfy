/**
 * `DescriptorSet` (`DescriptorSet.cpp` / `.h`): a builder that accumulates layout bindings
 * and pool sizes, then creates one layout, one pool and `m_maxSets` set instances, and
 * records descriptor writes into them. The driver's handles are parameters; a set
 * instance is named by the pool and layout it comes from and its position.
 */
module DescriptorSets {
  import opened Vk
  import Images

  datatype DescriptorType = UniformBuffer | CombinedImageSampler | OtherDescriptorType(code: nat)

  datatype ShaderStage = VertexStage | FragmentStage

  /** `vk::DescriptorSetLayoutBinding`. */
  datatype LayoutBinding = LayoutBinding(binding: u32, descriptorType: DescriptorType, descriptorCount: u32, stages: set<ShaderStage>)

  /** `vk::DescriptorPoolSize`. */
  datatype PoolSize = PoolSize(descriptorType: DescriptorType, descriptorCount: u32)

  /** The layout `createLayout` made, with the bindings it was created from. */
  datatype Layout = Layout(handle: nat, bindings: seq<LayoutBinding>)

  /** The pool `createDescriptorPool` made, with its pool sizes and `maxSets`. */
  datatype Pool = Pool(handle: nat, sizes: seq<PoolSize>, maxSets: u32)

  /** The `index`-th set allocated from `pool` with `layout`. */
  datatype SetHandle = SetHandle(pool: nat, layout: nat, index: nat)

  datatype BufferInfo = BufferInfo(buffer: nat, offset: nat, range: nat)

  datatype ImageInfo = ImageInfo(imageLayout: ImageLayout, view: Images.View, sampler: nat)

  /**
   * The two `Descriptor` implementations written into sets: a uniform buffer (handle and
   * size) and a texture (its image's view and tracked layout, and its sampler).
   */
  datatype Descriptor =
    | UniformBufferDescriptor(buffer: nat, size: nat)
    | TextureDescriptor(view: Images.View, imageLayout: ImageLayout, sampler: nat)

  /** `getDescriptorBufferInfo`: the whole buffer for a uniform buffer, nothing for a texture. */
  function BufferInfoOf(d: Descriptor): Option<BufferInfo> {
    match d
    case UniformBufferDescriptor(buffer, size) => Some(BufferInfo(buffer, 0, size))
    case TextureDescriptor(_, _, _) => None
  }

  /** `getDescriptorImageInfo`: nothing for a uniform buffer, or for a texture without a view (logged). */
  function ImageInfoOf(d: Descriptor): Option<ImageInfo> {
    match d
    case UniformBufferDescriptor(_, _) => None
    case TextureDescriptor(view, layout, sampler) =>
      if view == Images.NoView then None else Some(ImageInfo(layout, view, sampler))
  }

  /** `getDescriptorType`. */
  function TypeOf(d: Descriptor): DescriptorType {
    match d
    case UniformBufferDescriptor(_, _) => UniformBuffer
    case TextureDescriptor(_, _, _) => CombinedImageSampler
  }

  /** `vk::WriteDescriptorSet`; an info is present exactly when its pointer is set. */
  datatype WriteDescriptorSet = WriteDescriptorSet(
    dstSet: SetHandle,
    dstBinding: u32,
    dstArrayElement: nat,
    descriptorType: DescriptorType,
    descriptorCount: nat,
    imageInfo: Option<ImageInfo>,
    bufferInfo: Option<BufferInfo>)

  /**
   * The single write both `writeDescriptor` overloads issue for one set: array element 0,
   * one descriptor of the descriptor's own type, and each info attached exactly when the
   * descriptor supplies it.
   */
  function WriteFor(dst: SetHandle, binding: u32, d: Descriptor): (w: WriteDescriptorSet)
    ensures w.dstSet == dst && w.dstBinding == binding
    ensures w.dstArrayElement == 0 && w.descriptorCount == 1
    ensures w.descriptorType == TypeOf(d)
    ensures w.imageInfo.Some? <==> ImageInfoOf(d).Some?
    ensures w.bufferInfo.Some? <==> BufferInfoOf(d).Some?
    ensures d.UniformBufferDescriptor? ==>
      w.imageInfo.None? && w.bufferInfo == Some(BufferInfo(d.buffer, 0, d.size))
    ensures d.TextureDescriptor? ==>
      w.bufferInfo.None? && (w.imageInfo.Some? <==> d.view != Images.NoView)
  {
    WriteDescriptorSet(dst, binding, 0, TypeOf(d), 1, ImageInfoOf(d), BufferInfoOf(d))
  }

  /** The writes of the broadcast overload: one per set instance, in order, all to `binding`. */
  function BroadcastWrites(sets: seq<SetHandle>, binding: u32, d: Descriptor): (ws: seq<WriteDescriptorSet>)
    ensures |ws| == |sets|
    ensures forall i :: 0 <= i < |sets| ==> ws[i] == WriteFor(sets[i], binding, d)
  {
    if sets == [] then []
    else BroadcastWrites(sets[..|sets| - 1], binding, d) + [WriteFor(sets[|sets| - 1], binding, d)]
  }

  function Max(a: u32, b: u32): u32 {
    if a < b then b else a
  }

  /** The largest descriptor count among the pool sizes, or 0 for none. */
  function MaxCount(sizes: seq<PoolSize>): (m: u32)
    ensures forall i :: 0 <= i < |sizes| ==> sizes[i].descriptorCount <= m
    ensures sizes == [] ==> m == 0
    ensures sizes != [] ==> exists i :: 0 <= i < |sizes| && m == sizes[i].descriptorCount
  {
    if sizes == [] then 0 else Max(sizes[0].descriptorCount, MaxCount(sizes[1..]))
  }

  /** A running maximum over appended pool sizes computes `MaxCount`. */
  lemma {:induction false} MaxCountAppend(sizes: seq<PoolSize>, p: PoolSize)
    ensures MaxCount(sizes + [p]) == Max(MaxCount(sizes), p.descriptorCount)
    decreases |sizes|
  {
    if sizes == [] {
      assert sizes + [p] == [p];
      assert [p][1..] == [];
    } else {
      assert (sizes + [p])[1..] == sizes[1..] + [p];
      MaxCountAppend(sizes[1..], p);
    }
  }

  class DescriptorSet {
    /** `m_bindings`. */
    var bindings: seq<LayoutBinding>
    /** `m_sizes`. */
    var sizes: seq<PoolSize>
    /** `m_maxSets`. */
    var maxSets: u32
    /** `m_layout` and `m_pool`: None until created. */
    var layout: Option<Layout>
    var pool: Option<Pool>
    /** Whether `m_layout` / `m_pool` still name live driver objects. */
    var layoutAlive: bool
    var poolAlive: bool
    /** `m_sets`. */
    var sets: seq<SetHandle>
    /** The `updateDescriptorSets` calls issued so far, in order. */
    var updates: seq<WriteDescriptorSet>

    constructor ()
      ensures bindings == [] && sizes == [] && maxSets == 0 && sets == [] && updates == []
      ensures layout == None && pool == None && !layoutAlive && !poolAlive
    {
      bindings := [];
      sizes := [];
      maxSets := 0;
      layout := None;
      pool := None;
      layoutAlive := false;
      poolAlive := false;
      sets := [];
      updates := [];
    }

    /** The state of a freshly constructed builder. */
    predicate Empty()
      reads this
    {
      bindings == [] && sizes == [] && maxSets == 0 && sets == [] && updates == []
    }

    /** `addBinding`: append one layout binding; the count defaults to 1 at the call sites in the model. */
    method AddBinding(descriptorType: DescriptorType, stages: set<ShaderStage>, binding: u32, count: u32)
      modifies this`bindings
      ensures bindings == old(bindings) + [LayoutBinding(binding, descriptorType, count, stages)]
    {
      bindings := bindings + [LayoutBinding(binding, descriptorType, count, stages)];
    }

    /** `addPoolSize`: append one pool size and raise `m_maxSets` to its count. */
    method AddPoolSize(descriptorType: DescriptorType, count: u32)
      modifies this`sizes, this`maxSets
      ensures sizes == old(sizes) + [PoolSize(descriptorType, count)]
      ensures maxSets == Max(old(maxSets), count)
      ensures old(maxSets == MaxCount(sizes)) ==> maxSets == MaxCount(sizes)
    {
      MaxCountAppend(sizes, PoolSize(descriptorType, count));
      sizes := sizes + [PoolSize(descriptorType, count)];
      maxSets := Max(maxSets, count);
    }

    /**
     * `create`: the layout from every binding, then the pool from every pool size with
     * `maxSets`, then `maxSets` sets, all allocated from that pool with that layout.
     * `layoutHandle` and `poolHandle` are what the driver returns.
     */
    method Create(layoutHandle: nat, poolHandle: nat)
      modifies this`layout, this`pool, this`layoutAlive, this`poolAlive, this`sets
      ensures layout == Some(Layout(layoutHandle, bindings)) && layoutAlive
      ensures pool == Some(Pool(poolHandle, sizes, maxSets)) && poolAlive
      ensures |sets| == maxSets
      ensures forall i :: 0 <= i < |sets| ==> sets[i] == SetHandle(poolHandle, layoutHandle, i)
    {
      layout := Some(Layout(layoutHandle, bindings));
      layoutAlive := true;
      pool := Some(Pool(poolHandle, sizes, maxSets));
      poolAlive := true;
      var n := maxSets;
      sets := seq(n, i requires 0 <= i < n => SetHandle(poolHandle, layoutHandle, i));
    }

    /** `destroy`: release the pool and the layout; the accumulated lists stay as they were. */
    method Destroy()
      modifies this`layoutAlive, this`poolAlive
      ensures !layoutAlive && !poolAlive
    {
      poolAlive := false;
      layoutAlive := false;
    }

    /** `operator[]`. */
    function At(index: nat): (s: SetHandle)
      reads this
      requires index < |sets|
      ensures s == sets[index]
    {
      sets[index]
    }

    /**
     * `writeDescriptor(descriptor, binding, index)`: rejected (logged) before `create`;
     * otherwise one write to set `index`.
     */
    method WriteDescriptor(d: Descriptor, binding: u32, index: int) returns (error: bool)
      requires |sets| > 0 ==> 0 <= index < |sets|
      modifies this`updates
      ensures error <==> sets == []
      ensures error ==> updates == old(updates)
      ensures !error ==> updates == old(updates) + [WriteFor(sets[index], binding, d)]
    {
      if |sets| == 0 {
        return true;
      }
      updates := updates + [WriteFor(sets[index], binding, d)];
      return false;
    }

    /**
     * `writeDescriptor(descriptor, binding)`: rejected (logged) before `create`; otherwise
     * one write per set instance, in order.
     */
    method WriteDescriptorToAll(d: Descriptor, binding: u32) returns (error: bool)
      modifies this`updates
      ensures error <==> sets == []
      ensures updates == old(updates) + BroadcastWrites(sets, binding, d)
    {
      if |sets| == 0 {
        return true;
      }
      for i := 0 to |sets|
        invariant updates == old(updates) + BroadcastWrites(sets[..i], binding, d)
      {
        assert sets[..i + 1][..i] == sets[..i];
        updates := updates + [WriteFor(sets[i], binding, d)];
      }
      assert sets[..|sets|] == sets;
      return false;
    }
  }
}
