/**
 * `Application` (`Application.cpp`): sets up the two descriptor-set builders, writes the
 * per-frame uniform data, and records one frame's draw commands between the renderer's
 * `prepareFrame` and `endFrame`.
 */
module App {
  import opened Vk
  import Images
  import DescriptorSets
  import Frames
  import Swapchains
  import Models

  /** `sizeof(ShaderMatrixInfo)`: four `mat4` of 64 bytes and two `vec4` of 16 bytes. */
  const ShaderMatrixInfoSize: nat := 4 * 64 + 2 * 16

  datatype Vec3 = Vec3(x: real, y: real, z: real)

  datatype Vec4 = Vec4(x: real, y: real, z: real, w: real)

  /**
   * The model, view, projection and normal matrices of a frame. They come from the camera
   * and the model through floating-point matrix algebra, which is not modelled: they are
   * values supplied by the caller.
   */
  datatype Transforms = Transforms(model: seq<real>, view: seq<real>, proj: seq<real>, normal: seq<real>)

  /** `ShaderMatrixInfo`. */
  datatype ShaderMatrixInfo = ShaderMatrixInfo(transforms: Transforms, lightPos: Vec4, cameraPos: Vec4)

  /** A point as a `vec4` with `w` = 0, as `updateUniforms` stores both positions. */
  function Direction(p: Vec3): (v: Vec4)
    ensures v.x == p.x && v.y == p.y && v.z == p.z && v.w == 0.0
  {
    Vec4(p.x, p.y, p.z, 0.0)
  }

  /** A `UniformBuffer`: its driver handle and the size it was created with. */
  datatype UniformBuffer = UniformBuffer(handle: nat, size: nat)

  function UniformDescriptor(b: UniformBuffer): DescriptorSets.Descriptor {
    DescriptorSets.UniformBufferDescriptor(b.handle, b.size)
  }

  /** The bindings `setupDescriptors` gives the global set: the uniform buffer, then a sampler. */
  function GlobalBindings(): seq<DescriptorSets.LayoutBinding> {
    [DescriptorSets.LayoutBinding(0, DescriptorSets.UniformBuffer, 1, {DescriptorSets.VertexStage, DescriptorSets.FragmentStage}),
     DescriptorSets.LayoutBinding(1, DescriptorSets.CombinedImageSampler, 1, {DescriptorSets.FragmentStage})]
  }

  /** The pool sizes of the global set for `n` uniform buffers. */
  function GlobalPoolSizes(n: u32): seq<DescriptorSets.PoolSize> {
    [DescriptorSets.PoolSize(DescriptorSets.UniformBuffer, n), DescriptorSets.PoolSize(DescriptorSets.CombinedImageSampler, 1)]
  }

  /** The bindings of a material set: albedo, normal and metallic-roughness samplers. */
  function MaterialBindings(): seq<DescriptorSets.LayoutBinding> {
    [DescriptorSets.LayoutBinding(0, DescriptorSets.CombinedImageSampler, 1, {DescriptorSets.FragmentStage}),
     DescriptorSets.LayoutBinding(1, DescriptorSets.CombinedImageSampler, 1, {DescriptorSets.FragmentStage}),
     DescriptorSets.LayoutBinding(2, DescriptorSets.CombinedImageSampler, 1, {DescriptorSets.FragmentStage})]
  }

  /** The pool sizes of the material set for `n` materials. */
  function MaterialPoolSizes(n: u32): seq<DescriptorSets.PoolSize> {
    [DescriptorSets.PoolSize(DescriptorSets.CombinedImageSampler, n),
     DescriptorSets.PoolSize(DescriptorSets.CombinedImageSampler, n),
     DescriptorSets.PoolSize(DescriptorSets.CombinedImageSampler, n)]
  }

  /** The writes of the uniform-buffer loop: buffer `i` into binding 0 of set `i`. */
  function UniformWrites(sets: seq<DescriptorSets.SetHandle>, buffers: seq<UniformBuffer>): (ws: seq<DescriptorSets.WriteDescriptorSet>)
    requires |buffers| <= |sets|
    ensures |ws| == |buffers|
    ensures forall i :: 0 <= i < |buffers| ==> ws[i] == DescriptorSets.WriteFor(sets[i], 0, UniformDescriptor(buffers[i]))
  {
    if buffers == [] then []
    else
      var n := |buffers| - 1;
      UniformWrites(sets, buffers[..n]) + [DescriptorSets.WriteFor(sets[n], 0, UniformDescriptor(buffers[n]))]
  }

  /** Every texture a material names is one of the `textureCount` loaded textures. */
  predicate TexturesIn(m: Models.MaterialInfo, textureCount: nat) {
    && 0 <= m.albedo < textureCount
    && 0 <= m.normal < textureCount
    && 0 <= m.metallicRoughness < textureCount
  }

  /** The three writes for material `i`: its albedo, normal and metallic-roughness textures into bindings 0, 1 and 2 of set `i`. */
  function MaterialWritesOf(dst: DescriptorSets.SetHandle, m: Models.MaterialInfo, textures: seq<DescriptorSets.Descriptor>): seq<DescriptorSets.WriteDescriptorSet>
    requires TexturesIn(m, |textures|)
  {
    [DescriptorSets.WriteFor(dst, 0, textures[m.albedo]),
     DescriptorSets.WriteFor(dst, 1, textures[m.normal]),
     DescriptorSets.WriteFor(dst, 2, textures[m.metallicRoughness])]
  }

  /** The writes of the material loop, three per material in order. */
  function MaterialWrites(sets: seq<DescriptorSets.SetHandle>, materials: seq<Models.MaterialInfo>,
                          textures: seq<DescriptorSets.Descriptor>): (ws: seq<DescriptorSets.WriteDescriptorSet>)
    requires |materials| <= |sets|
    requires forall i :: 0 <= i < |materials| ==> TexturesIn(materials[i], |textures|)
    ensures |ws| == 3 * |materials|
    ensures forall i :: 0 <= i < |materials| ==> ws[3 * i..3 * i + 3] == MaterialWritesOf(sets[i], materials[i], textures)
  {
    if materials == [] then []
    else
      var n := |materials| - 1;
      MaterialWrites(sets, materials[..n], textures) + MaterialWritesOf(sets[n], materials[n], textures)
  }

  /** The material writes of a longer prefix extend the shorter one by that material's three writes. */
  lemma MaterialWritesPrefix(sets: seq<DescriptorSets.SetHandle>, materials: seq<Models.MaterialInfo>,
                             textures: seq<DescriptorSets.Descriptor>, i: nat)
    requires i < |materials| <= |sets|
    requires forall k :: 0 <= k < |materials| ==> TexturesIn(materials[k], |textures|)
    ensures MaterialWrites(sets, materials[..i + 1], textures)
      == MaterialWrites(sets, materials[..i], textures) + MaterialWritesOf(sets[i], materials[i], textures)
  {
    assert materials[..i + 1][..i] == materials[..i];
  }

  /** In a well-formed document, every material the model loads names loaded textures only. */
  lemma LoadedMaterialsTextured(doc: Models.Document)
    requires Models.WellFormed(doc)
    ensures var ms := Models.MaterialsOf(doc.materials, |doc.textures|);
      forall i :: 0 <= i < |ms| ==> TexturesIn(ms[i], |doc.textures|)
  {
    var ms := Models.MaterialsOf(doc.materials, |doc.textures|);
    forall i | 0 <= i < |ms|
      ensures TexturesIn(ms[i], |doc.textures|)
    {
      Models.MaterialsOfReferences(doc, |doc.textures|, i);
    }
  }

  /** Every primitive's material has a material set. */
  predicate DrawsBound(mesh: seq<Models.Primitive>, materialSets: seq<DescriptorSets.SetHandle>) {
    forall j :: 0 <= j < |mesh| ==> mesh[j].materialIndex as int < |materialSets|
  }

  /** The two commands of the primitive loop for one primitive. */
  function DrawOf(p: Models.Primitive, materialSets: seq<DescriptorSets.SetHandle>): seq<Frames.Command>
    requires p.materialIndex as int < |materialSets|
  {
    [Frames.BindDescriptorSet(1, materialSets[p.materialIndex]), Frames.DrawIndexed(p.indexCount, 1, p.firstIndex, 0, 0)]
  }

  /**
   * The primitive loop of `doFrame`: for each primitive in turn, bind its material's set
   * as set 1 and draw its index range once, with no vertex offset.
   */
  function DrawCommands(mesh: seq<Models.Primitive>, materialSets: seq<DescriptorSets.SetHandle>): (cmds: seq<Frames.Command>)
    requires DrawsBound(mesh, materialSets)
    ensures |cmds| == 2 * |mesh|
    ensures forall j :: 0 <= j < |mesh| ==>
      && cmds[2 * j] == Frames.BindDescriptorSet(1, materialSets[mesh[j].materialIndex])
      && cmds[2 * j + 1] == Frames.DrawIndexed(mesh[j].indexCount, 1, mesh[j].firstIndex, 0, 0)
  {
    if mesh == [] then []
    else
      var n := |mesh| - 1;
      DrawCommands(mesh[..n], materialSets) + DrawOf(mesh[n], materialSets)
  }

  lemma DrawCommandsPrefix(mesh: seq<Models.Primitive>, i: nat, materialSets: seq<DescriptorSets.SetHandle>)
    requires DrawsBound(mesh, materialSets) && i < |mesh|
    ensures DrawsBound(mesh[..i], materialSets) && DrawsBound(mesh[..i + 1], materialSets)
    ensures DrawCommands(mesh[..i + 1], materialSets) == DrawCommands(mesh[..i], materialSets) + DrawOf(mesh[i], materialSets)
  {
    assert mesh[..i + 1][..i] == mesh[..i];
  }

  /** The commands `doFrame` records before the primitive loop. */
  function Prologue(renderPass: nat, framebufferIndex: u32, extent: Extent2D, pipeline: nat,
                    vertexBuffer: nat, indexBuffer: nat, globalSet: DescriptorSets.SetHandle): seq<Frames.Command>
  {
    [Frames.BeginRenderPass(renderPass, framebufferIndex, extent),
     Frames.BindPipeline(pipeline),
     Frames.BindVertexBuffer(vertexBuffer),
     Frames.BindIndexBuffer(indexBuffer),
     Frames.BindDescriptorSet(0, globalSet)]
  }

  /**
   * Everything `doFrame` records after `prepareFrame`: the render pass over the whole
   * swapchain extent on the acquired framebuffer, pipeline and buffers, the frame's global
   * set as set 0, the primitive loop, and the end of the render pass.
   */
  function FrameCommands(renderPass: nat, framebufferIndex: u32, extent: Extent2D, pipeline: nat,
                         vertexBuffer: nat, indexBuffer: nat, globalSet: DescriptorSets.SetHandle,
                         mesh: seq<Models.Primitive>, materialSets: seq<DescriptorSets.SetHandle>): (cmds: seq<Frames.Command>)
    requires DrawsBound(mesh, materialSets)
    ensures |cmds| == 2 * |mesh| + 6
    ensures cmds[0] == Frames.BeginRenderPass(renderPass, framebufferIndex, extent)
    ensures cmds[4] == Frames.BindDescriptorSet(0, globalSet)
    ensures cmds[5..|cmds| - 1] == DrawCommands(mesh, materialSets)
    ensures cmds[|cmds| - 1] == Frames.EndRenderPass
  {
    var pro := Prologue(renderPass, framebufferIndex, extent, pipeline, vertexBuffer, indexBuffer, globalSet);
    var draws := DrawCommands(mesh, materialSets);
    var cmds := pro + draws + [Frames.EndRenderPass];
    assert cmds[5..|cmds| - 1] == draws;
    cmds
  }

  /** The extent the swapchain has once `prepareFrame` returns. */
  function PreparedExtent(acquire: Frames.AcquireResult, env: Swapchains.RecreateEnv, current: Extent2D): Extent2D
    requires acquire.result == ErrorOutOfDateKhr ==> env.Ok()
  {
    if acquire.result == ErrorOutOfDateKhr then Swapchains.RebuiltExtent(env) else current
  }

  /** `Camera`, reduced to what `updateUniforms` reads and writes. */
  class Camera {
    /** `m_position`. */
    var position: Vec3
    /** `updateLightPos`: set by the input handler to move the light to the camera. */
    var updateLightPos: bool

    constructor (position: Vec3)
      ensures this.position == position && !updateLightPos
    {
      this.position := position;
      updateLightPos := false;
    }
  }

  class Application {
    const renderer: Frames.Renderer
    const camera: Camera
    const model: Models.Model
    /** `m_descriptorSet`: one set per frame in flight. */
    const descriptorSet: DescriptorSets.DescriptorSet
    /** `m_materialDescriptorSet`: one set per material. */
    const materialDescriptorSet: DescriptorSets.DescriptorSet
    /** The handles of `m_renderPass`, `m_pipeline`, `m_vertexBuffer` and `m_indexBuffer`. */
    const renderPass: nat
    const pipeline: nat
    const vertexBuffer: nat
    const indexBuffer: nat
    /** `m_uniformBuffers`. */
    var uniformBuffers: seq<UniformBuffer>
    /** The `ShaderMatrixInfo` last copied into each uniform buffer, None before the first. */
    var uniformData: seq<Option<ShaderMatrixInfo>>
    /** The function-local `static lightPos` of `updateUniforms`: None until its first call. */
    var lightPos: Option<Vec3>

    constructor (renderer: Frames.Renderer, renderPass: nat, pipeline: nat, vertexBuffer: nat, indexBuffer: nat, cameraPosition: Vec3)
      ensures this.renderer == renderer && this.renderPass == renderPass && this.pipeline == pipeline
      ensures this.vertexBuffer == vertexBuffer && this.indexBuffer == indexBuffer
      ensures fresh(camera) && camera.position == cameraPosition && !camera.updateLightPos
      ensures fresh(model) && model.Geometry() == Models.EmptyBuffers() && model.materials == []
      ensures fresh(descriptorSet) && fresh(materialDescriptorSet) && descriptorSet != materialDescriptorSet
      ensures descriptorSet.Empty() && materialDescriptorSet.Empty()
      ensures uniformBuffers == [] && uniformData == [] && lightPos == None
    {
      this.renderer := renderer;
      this.renderPass := renderPass;
      this.pipeline := pipeline;
      this.vertexBuffer := vertexBuffer;
      this.indexBuffer := indexBuffer;
      camera := new Camera(cameraPosition);
      model := new Models.Model();
      descriptorSet := new DescriptorSets.DescriptorSet();
      materialDescriptorSet := new DescriptorSets.DescriptorSet();
      uniformBuffers := [];
      uniformData := [];
      lightPos := None;
    }

    /** What a frame needs: a valid renderer, one global set and one uniform buffer per slot, and a set for every drawn material. */
    predicate Ready()
      reads this, renderer, descriptorSet, materialDescriptorSet, model
    {
      && renderer.Valid()
      && descriptorSet != materialDescriptorSet
      && |uniformData| == MaxFramesInFlight
      && |descriptorSet.sets| == MaxFramesInFlight
      && DrawsBound(model.mesh, materialDescriptorSet.sets)
    }

    /**
     * The part of the `Application` constructor that builds what a frame reads, in the
     * constructor's order: load the model, create one uniform buffer per frame in flight,
     * then `setupDescriptors`. `doc` is what tinygltf parsed (None on failure),
     * `uniformHandles` the allocator's buffers, and `textureDescriptors[t]` the loaded
     * texture `t` as a descriptor. Every frame precondition but one then holds; the
     * remaining one, that each primitive's material has a set, is a property of the file.
     */
    method Setup(doc: Option<Models.Document>, ghost rank: seq<nat>, uniformHandles: seq<nat>,
                 globalLayout: nat, globalPool: nat, materialLayout: nat, materialPool: nat,
                 textureDescriptors: seq<DescriptorSets.Descriptor>)
      requires renderer.Valid()
      requires doc.Some? ==> Models.WellFormed(doc.value) && Models.Ranked(doc.value, rank)
      requires doc.Some? ==> |doc.value.materials| < U32_LIMIT
      requires |uniformHandles| == MaxFramesInFlight
      requires model.textures == [] && model.materials == []
      requires |textureDescriptors| == if doc.Some? then |doc.value.textures| else 0
      requires descriptorSet.Empty() && materialDescriptorSet.Empty() && descriptorSet != materialDescriptorSet
      modifies model, this`uniformBuffers, this`uniformData, descriptorSet, materialDescriptorSet
      ensures doc.Some? ==> model.Geometry() == Models.NodesFrom(doc.value, rank, 0, old(model.Geometry()))
      ensures doc.None? ==> model.Geometry() == old(model.Geometry())
      ensures model.materials == if doc.Some? then Models.MaterialsOf(doc.value.materials, |doc.value.textures|) else []
      ensures |descriptorSet.sets| == MaxFramesInFlight == |uniformData| == |uniformBuffers|
      ensures forall i :: 0 <= i < MaxFramesInFlight ==>
        uniformBuffers[i] == UniformBuffer(uniformHandles[i], ShaderMatrixInfoSize) && uniformData[i].None?
      ensures descriptorSet.updates == UniformWrites(descriptorSet.sets, uniformBuffers)
      ensures |materialDescriptorSet.sets| == |model.materials|
      ensures materialDescriptorSet.updates == MaterialWrites(materialDescriptorSet.sets, model.materials, textureDescriptors)
      ensures renderer.Valid()
      ensures DrawsBound(model.mesh, materialDescriptorSet.sets) ==> Ready()
    {
      var _ := model.LoadGltfModel(doc, rank);
      if doc.Some? {
        LoadedMaterialsTextured(doc.value);
      }
      CreateUniformBuffers(uniformHandles);
      SetupDescriptors(globalLayout, globalPool, materialLayout, materialPool, textureDescriptors);
    }

    /**
     * `setupDescriptors`: the global set with one set instance per uniform buffer and
     * buffer `i` written into set `i`, then the material set with one set instance per
     * material and each material's three textures written into its own set.
     */
    method SetupDescriptors(globalLayout: nat, globalPool: nat, materialLayout: nat, materialPool: nat,
                            textureDescriptors: seq<DescriptorSets.Descriptor>)
      requires descriptorSet.Empty() && materialDescriptorSet.Empty() && descriptorSet != materialDescriptorSet
      requires 0 < |uniformBuffers| < U32_LIMIT && |model.materials| < U32_LIMIT
      requires forall i :: 0 <= i < |model.materials| ==> TexturesIn(model.materials[i], |textureDescriptors|)
      modifies descriptorSet, materialDescriptorSet
      ensures |descriptorSet.sets| == |uniformBuffers|
      ensures descriptorSet.updates == UniformWrites(descriptorSet.sets, uniformBuffers)
      ensures |materialDescriptorSet.sets| == |model.materials|
      ensures materialDescriptorSet.updates == MaterialWrites(materialDescriptorSet.sets, model.materials, textureDescriptors)
    {
      SetupGlobalDescriptors(globalLayout, globalPool);
      SetupMaterialDescriptors(materialLayout, materialPool, textureDescriptors);
    }

    /** The constructor's uniform buffers: one per frame in flight, each `sizeof(ShaderMatrixInfo)` bytes; `handles` are the allocator's. */
    method CreateUniformBuffers(handles: seq<nat>)
      requires |handles| == MaxFramesInFlight
      modifies this`uniformBuffers, this`uniformData
      ensures |uniformBuffers| == MaxFramesInFlight && |uniformData| == MaxFramesInFlight
      ensures forall i :: 0 <= i < MaxFramesInFlight ==>
        uniformBuffers[i] == UniformBuffer(handles[i], ShaderMatrixInfoSize) && uniformData[i].None?
    {
      uniformBuffers := [];
      uniformData := [];
      for i := 0 to MaxFramesInFlight
        invariant |uniformBuffers| == i && |uniformData| == i
        invariant forall k :: 0 <= k < i ==> uniformBuffers[k] == UniformBuffer(handles[k], ShaderMatrixInfoSize) && uniformData[k].None?
      {
        uniformBuffers := uniformBuffers + [UniformBuffer(handles[i], ShaderMatrixInfoSize)];
        uniformData := uniformData + [None];
      }
    }

    /**
     * `setupDescriptors`, global half: uniform-buffer and sampler bindings, a pool sized for
     * one uniform buffer per frame, and buffer `i` written into set `i`.
     */
    method SetupGlobalDescriptors(layout: nat, pool: nat)
      requires descriptorSet.Empty() && 0 < |uniformBuffers| < U32_LIMIT
      modifies descriptorSet
      ensures descriptorSet.bindings == GlobalBindings()
      ensures descriptorSet.sizes == GlobalPoolSizes(|uniformBuffers|)
      ensures descriptorSet.maxSets == DescriptorSets.MaxCount(descriptorSet.sizes) == |uniformBuffers|
      ensures |descriptorSet.sets| == |uniformBuffers|
      ensures descriptorSet.updates == UniformWrites(descriptorSet.sets, uniformBuffers)
      ensures descriptorSet.layout == Some(DescriptorSets.Layout(layout, GlobalBindings())) && descriptorSet.layoutAlive
    {
      CreateGlobalSets(layout, pool);
      WriteUniformDescriptors();
      assert [] + UniformWrites(descriptorSet.sets, uniformBuffers) == UniformWrites(descriptorSet.sets, uniformBuffers);
    }

    /** The global bindings and pool sizes, then `create`: one set per uniform buffer. */
    method CreateGlobalSets(layout: nat, pool: nat)
      requires descriptorSet.Empty() && 0 < |uniformBuffers| < U32_LIMIT
      modifies descriptorSet
      ensures descriptorSet.bindings == GlobalBindings()
      ensures descriptorSet.sizes == GlobalPoolSizes(|uniformBuffers|)
      ensures descriptorSet.maxSets == DescriptorSets.MaxCount(descriptorSet.sizes) == |uniformBuffers|
      ensures |descriptorSet.sets| == |uniformBuffers| && descriptorSet.updates == []
      ensures descriptorSet.layout == Some(DescriptorSets.Layout(layout, GlobalBindings())) && descriptorSet.layoutAlive
    {
      var n := |uniformBuffers|;
      descriptorSet.AddBinding(DescriptorSets.UniformBuffer, {DescriptorSets.VertexStage, DescriptorSets.FragmentStage}, 0, 1);
      descriptorSet.AddBinding(DescriptorSets.CombinedImageSampler, {DescriptorSets.FragmentStage}, 1, 1);
      assert descriptorSet.bindings == GlobalBindings();
      descriptorSet.AddPoolSize(DescriptorSets.UniformBuffer, n as u32);
      descriptorSet.AddPoolSize(DescriptorSets.CombinedImageSampler, 1);
      assert descriptorSet.sizes == GlobalPoolSizes(n as u32);
      descriptorSet.Create(layout, pool);
    }

    /** The uniform-buffer loop of `setupDescriptors`: buffer `i` into binding 0 of set `i`. */
    method WriteUniformDescriptors()
      requires |uniformBuffers| <= |descriptorSet.sets|
      modifies descriptorSet`updates
      ensures descriptorSet.updates == old(descriptorSet.updates) + UniformWrites(descriptorSet.sets, uniformBuffers)
    {
      ghost var start := descriptorSet.updates;
      var n := |uniformBuffers|;
      for i := 0 to n
        invariant descriptorSet.updates == start + UniformWrites(descriptorSet.sets, uniformBuffers[..i])
      {
        assert uniformBuffers[..i + 1][..i] == uniformBuffers[..i];
        var _ := descriptorSet.WriteDescriptor(UniformDescriptor(uniformBuffers[i]), 0, i);
      }
      assert uniformBuffers[..n] == uniformBuffers;
    }

    /**
     * `setupDescriptors`, material half: three sampler bindings, a pool sized for one set
     * per material, and each material's three textures written into its own set.
     * `textureDescriptors[t]` is the loaded texture `t` as a descriptor.
     */
    method SetupMaterialDescriptors(layout: nat, pool: nat, textureDescriptors: seq<DescriptorSets.Descriptor>)
      requires materialDescriptorSet.Empty() && |model.materials| < U32_LIMIT
      requires forall i :: 0 <= i < |model.materials| ==> TexturesIn(model.materials[i], |textureDescriptors|)
      modifies materialDescriptorSet
      ensures materialDescriptorSet.bindings == MaterialBindings()
      ensures materialDescriptorSet.sizes == MaterialPoolSizes(|model.materials|)
      ensures materialDescriptorSet.maxSets == DescriptorSets.MaxCount(materialDescriptorSet.sizes) == |model.materials|
      ensures |materialDescriptorSet.sets| == |model.materials|
      ensures materialDescriptorSet.updates == MaterialWrites(materialDescriptorSet.sets, model.materials, textureDescriptors)
      ensures materialDescriptorSet.layout == Some(DescriptorSets.Layout(layout, MaterialBindings())) && materialDescriptorSet.layoutAlive
    {
      var materials := model.materials;
      CreateMaterialSets(layout, pool);
      WriteMaterialDescriptors(materials, textureDescriptors);
      assert [] + MaterialWrites(materialDescriptorSet.sets, materials, textureDescriptors)
        == MaterialWrites(materialDescriptorSet.sets, materials, textureDescriptors);
    }

    /** The three sampler bindings and pool sizes, then `create`: one set per material. */
    method CreateMaterialSets(layout: nat, pool: nat)
      requires materialDescriptorSet.Empty() && |model.materials| < U32_LIMIT
      modifies materialDescriptorSet
      ensures materialDescriptorSet.bindings == MaterialBindings()
      ensures materialDescriptorSet.sizes == MaterialPoolSizes(|model.materials|)
      ensures materialDescriptorSet.maxSets == DescriptorSets.MaxCount(materialDescriptorSet.sizes) == |model.materials|
      ensures |materialDescriptorSet.sets| == |model.materials| && materialDescriptorSet.updates == []
      ensures materialDescriptorSet.layout == Some(DescriptorSets.Layout(layout, MaterialBindings())) && materialDescriptorSet.layoutAlive
    {
      AddMaterialBindings();
      AddMaterialPoolSizes(|model.materials| as u32);
      materialDescriptorSet.Create(layout, pool);
    }

    method AddMaterialBindings()
      requires materialDescriptorSet.bindings == []
      modifies materialDescriptorSet`bindings
      ensures materialDescriptorSet.bindings == MaterialBindings()
    {
      materialDescriptorSet.AddBinding(DescriptorSets.CombinedImageSampler, {DescriptorSets.FragmentStage}, 0, 1);
      materialDescriptorSet.AddBinding(DescriptorSets.CombinedImageSampler, {DescriptorSets.FragmentStage}, 1, 1);
      materialDescriptorSet.AddBinding(DescriptorSets.CombinedImageSampler, {DescriptorSets.FragmentStage}, 2, 1);
    }

    method AddMaterialPoolSizes(n: u32)
      requires materialDescriptorSet.sizes == [] && materialDescriptorSet.maxSets == 0
      modifies materialDescriptorSet`sizes, materialDescriptorSet`maxSets
      ensures materialDescriptorSet.sizes == MaterialPoolSizes(n)
      ensures materialDescriptorSet.maxSets == DescriptorSets.MaxCount(materialDescriptorSet.sizes) == n
    {
      materialDescriptorSet.AddPoolSize(DescriptorSets.CombinedImageSampler, n);
      materialDescriptorSet.AddPoolSize(DescriptorSets.CombinedImageSampler, n);
      materialDescriptorSet.AddPoolSize(DescriptorSets.CombinedImageSampler, n);
    }

    /** The material loop of `setupDescriptors`: material `i`'s three textures into set `i`. */
    method WriteMaterialDescriptors(materials: seq<Models.MaterialInfo>, textureDescriptors: seq<DescriptorSets.Descriptor>)
      requires |materialDescriptorSet.sets| == |materials|
      requires forall i :: 0 <= i < |materials| ==> TexturesIn(materials[i], |textureDescriptors|)
      modifies materialDescriptorSet`updates
      ensures materialDescriptorSet.updates == old(materialDescriptorSet.updates) + MaterialWrites(materialDescriptorSet.sets, materials, textureDescriptors)
    {
      ghost var start := materialDescriptorSet.updates;
      var sets := materialDescriptorSet.sets;
      for i := 0 to |materials|
        invariant materialDescriptorSet.updates == start + MaterialWrites(sets, materials[..i], textureDescriptors)
      {
        ghost var before := materialDescriptorSet.updates;
        var writes := MaterialWritesOf(sets[i], materials[i], textureDescriptors);
        MaterialWritesPrefix(sets, materials, textureDescriptors, i);
        WriteMaterial(i, materials[i], textureDescriptors);
        assert materialDescriptorSet.updates == before + writes;
        assert start + MaterialWrites(sets, materials[..i + 1], textureDescriptors)
          == start + MaterialWrites(sets, materials[..i], textureDescriptors) + writes;
      }
      assert materials[..|materials|] == materials;
    }

    /** One iteration of the material loop. */
    method WriteMaterial(i: nat, m: Models.MaterialInfo, textureDescriptors: seq<DescriptorSets.Descriptor>)
      requires i < |materialDescriptorSet.sets| && TexturesIn(m, |textureDescriptors|)
      modifies materialDescriptorSet`updates
      ensures materialDescriptorSet.updates
        == old(materialDescriptorSet.updates) + MaterialWritesOf(materialDescriptorSet.sets[i], m, textureDescriptors)
    {
      var dst := materialDescriptorSet.sets[i];
      var _ := materialDescriptorSet.WriteDescriptor(textureDescriptors[m.albedo], 0, i);
      var _ := materialDescriptorSet.WriteDescriptor(textureDescriptors[m.normal], 1, i);
      var _ := materialDescriptorSet.WriteDescriptor(textureDescriptors[m.metallicRoughness], 2, i);
      assert MaterialWritesOf(dst, m, textureDescriptors)
        == [DescriptorSets.WriteFor(dst, 0, textureDescriptors[m.albedo])]
         + [DescriptorSets.WriteFor(dst, 1, textureDescriptors[m.normal])]
         + [DescriptorSets.WriteFor(dst, 2, textureDescriptors[m.metallicRoughness])];
    }

    /**
     * `updateUniforms`: the light starts at the camera's first position and moves to the
     * camera only when the camera requests it (clearing the request); the frame's matrices
     * and both positions go into the uniform buffer of the renderer's current slot, and
     * `slotState` is that slot's command buffer state at the moment of the write.
     */
    method UpdateUniforms(transforms: Transforms) returns (slotState: Frames.CmdState)
      requires renderer.Valid() && |uniformData| == MaxFramesInFlight
      modifies this`lightPos, this`uniformData, camera
      ensures lightPos.Some?
      ensures lightPos.value == if old(lightPos).None? || old(camera.updateLightPos) then old(camera.position) else old(lightPos).value
      ensures !camera.updateLightPos && camera.position == old(camera.position)
      ensures uniformData == old(uniformData)[renderer.currentFrame :=
        Some(ShaderMatrixInfo(transforms, Direction(lightPos.value), Direction(camera.position)))]
      ensures slotState == renderer.cmdState[renderer.currentFrame]
    {
      var cameraPos := camera.position;
      if lightPos.None? {
        lightPos := Some(cameraPos);
      }
      if camera.updateLightPos {
        lightPos := Some(cameraPos);
        camera.updateLightPos := false;
      }
      var info := ShaderMatrixInfo(transforms, Direction(lightPos.value), Direction(cameraPos));
      var slot := renderer.CurrentFrameIndex();
      uniformData := uniformData[slot := Some(info)];
      slotState := renderer.cmdState[slot];
    }

    /** The commands before the primitive loop, recorded one by one. */
    method RecordPrologue(globalSet: DescriptorSets.SetHandle)
      requires renderer.Valid() && renderer.cmdState[renderer.currentFrame] == Frames.Recording
      modifies renderer`recorded
      ensures renderer.Valid()
      ensures renderer.State() == Frames.RecordAll(old(renderer.State()),
        Prologue(renderPass, renderer.fbIndex, renderer.swapchain.extent, pipeline, vertexBuffer, indexBuffer, globalSet))
    {
      ghost var s0 := renderer.State();
      var pro := Prologue(renderPass, renderer.fbIndex, renderer.swapchain.extent, pipeline, vertexBuffer, indexBuffer, globalSet);
      for k := 0 to |pro|
        invariant renderer.Valid() && renderer.State() == Frames.RecordAll(s0, pro[..k])
      {
        Frames.RecordAllSnoc(s0, pro[..k], pro[k]);
        assert pro[..k + 1] == pro[..k] + [pro[k]];
        renderer.Record(pro[k]);
      }
      assert pro[..|pro|] == pro;
    }

    /** The primitive loop: a material bind and an indexed draw per primitive. */
    method RecordDraws()
      requires renderer.Valid() && renderer.cmdState[renderer.currentFrame] == Frames.Recording
      requires DrawsBound(model.mesh, materialDescriptorSet.sets)
      modifies renderer`recorded
      ensures renderer.Valid()
      ensures renderer.State() == Frames.RecordAll(old(renderer.State()), DrawCommands(model.mesh, materialDescriptorSet.sets))
    {
      ghost var s0 := renderer.State();
      var mesh := model.mesh;
      var sets := materialDescriptorSet.sets;
      for i := 0 to |mesh|
        invariant renderer.Valid() && renderer.State() == Frames.RecordAll(s0, DrawCommands(mesh[..i], sets))
      {
        DrawCommandsPrefix(mesh, i, sets);
        Frames.RecordAllAppend(s0, DrawCommands(mesh[..i], sets), DrawOf(mesh[i], sets));
        RecordDraw(mesh[i]);
      }
      assert mesh[..|mesh|] == mesh;
    }

    /** One iteration of the primitive loop: bind the primitive's material set, then draw its indices. */
    method RecordDraw(p: Models.Primitive)
      requires renderer.Valid() && renderer.cmdState[renderer.currentFrame] == Frames.Recording
      requires p.materialIndex as int < |materialDescriptorSet.sets|
      modifies renderer`recorded
      ensures renderer.Valid()
      ensures renderer.State() == Frames.RecordAll(old(renderer.State()), DrawOf(p, materialDescriptorSet.sets))
    {
      ghost var s0 := renderer.State();
      var bind := Frames.BindDescriptorSet(1, materialDescriptorSet.At(p.materialIndex as nat));
      var draw := Frames.DrawIndexed(p.indexCount, 1, p.firstIndex, 0, 0);
      assert DrawOf(p, materialDescriptorSet.sets) == [bind] + [draw];
      Frames.RecordAllSnoc(s0, [], bind);
      renderer.Record(bind);
      Frames.RecordAllSnoc(s0, [bind], draw);
      renderer.Record(draw);
    }

    /** Everything between `prepareFrame` and `endFrame`, with the renderer's current global set as set 0. */
    method RecordFrame()
      requires Ready() && renderer.cmdState[renderer.currentFrame] == Frames.Recording
      modifies renderer`recorded
      ensures Ready()
      ensures renderer.State() == Frames.RecordAll(old(renderer.State()),
        FrameCommands(renderPass, renderer.fbIndex, renderer.swapchain.extent, pipeline, vertexBuffer, indexBuffer,
                      descriptorSet.sets[renderer.currentFrame], model.mesh, materialDescriptorSet.sets))
    {
      ghost var s0 := renderer.State();
      var globalSet := descriptorSet.At(renderer.CurrentFrameIndex());
      var pro := Prologue(renderPass, renderer.fbIndex, renderer.swapchain.extent, pipeline, vertexBuffer, indexBuffer, globalSet);
      var draws := DrawCommands(model.mesh, materialDescriptorSet.sets);
      RecordPrologue(globalSet);
      RecordDraws();
      Frames.RecordAllAppend(s0, pro, draws);
      Frames.RecordAllSnoc(s0, pro + draws, Frames.EndRenderPass);
      renderer.Record(Frames.EndRenderPass);
    }
    /**
     * `doFrame` as written: `updateUniforms` first, then `prepareFrame`, the frame's
     * commands and `endFrame`. `uniformSlotState` is the state of the slot whose uniform
     * buffer was overwritten, at the moment of the write: the fence wait of `prepareFrame`
     * has not happened yet, so it is whatever the slot's previous frame left.
     */
    method DoFrameAsWritten(transforms: Transforms, acquire: Frames.AcquireResult, present: Frames.PresentOutcome,
                            prepareEnv: Swapchains.RecreateEnv, endEnv: Swapchains.RecreateEnv)
      returns (uniformSlotState: Frames.CmdState)
      requires Ready() && renderer.cmdState[renderer.currentFrame] != Frames.Recording
      requires acquire.result == ErrorOutOfDateKhr ==> prepareEnv.Ok()
      requires Frames.EndRecreates(present, renderer.resized) ==> endEnv.Ok()
      modifies this`lightPos, this`uniformData, camera, renderer, renderer.swapchain, renderer.swapchain.depthImage
      ensures Ready() && lightPos.Some?
      ensures uniformSlotState == old(renderer.cmdState[renderer.currentFrame])
      ensures uniformData == old(uniformData)[old(renderer.currentFrame) :=
        Some(ShaderMatrixInfo(transforms, Direction(lightPos.value), Direction(camera.position)))]
      ensures var extent := PreparedExtent(acquire, prepareEnv, old(renderer.swapchain.extent));
        renderer.State() == Frames.Ended(Frames.RecordAll(Frames.Prepared(old(renderer.State()), acquire.imageIndex, extent, Frames.AcquireRecreates(acquire)),
          FrameCommands(renderPass, acquire.imageIndex, extent, pipeline, vertexBuffer, indexBuffer,
                        descriptorSet.sets[old(renderer.currentFrame)], model.mesh, materialDescriptorSet.sets)), present)
    {
      uniformSlotState := UpdateUniforms(transforms);
      FrameAfterUniforms(acquire, present, prepareEnv, endEnv);
    }

    /**
     * `doFrame` with the uniform write moved after `prepareFrame`: the slot's fence has been
     * waited on, so the buffer is written while its command buffer is being recorded and
     * no submission that reads it is in flight. The frame itself is the same.
     */
    method DoFrame(transforms: Transforms, acquire: Frames.AcquireResult, present: Frames.PresentOutcome,
                   prepareEnv: Swapchains.RecreateEnv, endEnv: Swapchains.RecreateEnv)
      returns (uniformSlotState: Frames.CmdState)
      requires Ready() && renderer.cmdState[renderer.currentFrame] != Frames.Recording
      requires acquire.result == ErrorOutOfDateKhr ==> prepareEnv.Ok()
      requires Frames.EndRecreates(present, renderer.resized) ==> endEnv.Ok()
      modifies this`lightPos, this`uniformData, camera, renderer, renderer.swapchain, renderer.swapchain.depthImage
      ensures Ready() && lightPos.Some?
      ensures uniformSlotState == Frames.Recording
      ensures uniformData == old(uniformData)[old(renderer.currentFrame) :=
        Some(ShaderMatrixInfo(transforms, Direction(lightPos.value), Direction(camera.position)))]
      ensures var extent := PreparedExtent(acquire, prepareEnv, old(renderer.swapchain.extent));
        renderer.State() == Frames.Ended(Frames.RecordAll(Frames.Prepared(old(renderer.State()), acquire.imageIndex, extent, Frames.AcquireRecreates(acquire)),
          FrameCommands(renderPass, acquire.imageIndex, extent, pipeline, vertexBuffer, indexBuffer,
                        descriptorSet.sets[old(renderer.currentFrame)], model.mesh, materialDescriptorSet.sets)), present)
    {
      ghost var s0 := renderer.State();
      ghost var extent := PreparedExtent(acquire, prepareEnv, renderer.swapchain.extent);
      var _, _ := renderer.PrepareFrame(acquire, prepareEnv);
      assert renderer.swapchain.extent == extent;
      uniformSlotState := UpdateUniforms(transforms);
      ghost var s1 := renderer.State();
      RecordFrame();
      var _, _, _, _ := renderer.EndFrame(present, endEnv);
    }

    /** The part of the as-written `doFrame` after `updateUniforms`. */
    method FrameAfterUniforms(acquire: Frames.AcquireResult, present: Frames.PresentOutcome,
                              prepareEnv: Swapchains.RecreateEnv, endEnv: Swapchains.RecreateEnv)
      requires Ready() && renderer.cmdState[renderer.currentFrame] != Frames.Recording
      requires acquire.result == ErrorOutOfDateKhr ==> prepareEnv.Ok()
      requires Frames.EndRecreates(present, renderer.resized) ==> endEnv.Ok()
      modifies renderer, renderer.swapchain, renderer.swapchain.depthImage
      ensures Ready()
      ensures var extent := PreparedExtent(acquire, prepareEnv, old(renderer.swapchain.extent));
        renderer.State() == Frames.Ended(Frames.RecordAll(Frames.Prepared(old(renderer.State()), acquire.imageIndex, extent, Frames.AcquireRecreates(acquire)),
          FrameCommands(renderPass, acquire.imageIndex, extent, pipeline, vertexBuffer, indexBuffer,
                        descriptorSet.sets[old(renderer.currentFrame)], model.mesh, materialDescriptorSet.sets)), present)
    {
      ghost var extent := PreparedExtent(acquire, prepareEnv, renderer.swapchain.extent);
      var _, _ := renderer.PrepareFrame(acquire, prepareEnv);
      assert renderer.swapchain.extent == extent;
      RecordFrame();
      var _, _, _, _ := renderer.EndFrame(present, endEnv);
    }
  }
}
