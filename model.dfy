/**
 * `Model` (`Model.cpp`): flattening a parsed glTF 2.0 document into one vertex list, one
 * index list and a list of `(firstIndex, indexCount, materialIndex)` records, plus the
 * sampler, texture and material tables. The parsed document is plain data; vertex
 * attributes (floats) are not modelled, so a vertex is named by where it comes from.
 */
module Models {
  import opened Vk

  // glTF 2.0 accessor component types (section 3.6.2.2) and sampler codes (section 5.26).
  const UNSIGNED_BYTE: int := 5121
  const UNSIGNED_SHORT: int := 5123
  const UNSIGNED_INT: int := 5125
  const NEAREST: int := 9728
  const LINEAR: int := 9729
  const NEAREST_MIPMAP_NEAREST: int := 9984
  const LINEAR_MIPMAP_NEAREST: int := 9985
  const NEAREST_MIPMAP_LINEAR: int := 9986
  const LINEAR_MIPMAP_LINEAR: int := 9987
  const REPEAT: int := 10497
  const CLAMP_TO_EDGE: int := 33071
  const MIRRORED_REPEAT: int := 33648

  /**
   * A mesh primitive: its index accessor (negative when absent), the count of its POSITION
   * accessor (None when it has no POSITION attribute), the index accessor's component type,
   * the index values as read from the buffer, and its material (-1 when absent).
   */
  datatype GltfPrimitive = GltfPrimitive(
    indices: int,
    positionCount: Option<nat>,
    componentType: int,
    rawIndices: seq<u32>,
    material: int)

  datatype GltfMesh = GltfMesh(primitives: seq<GltfPrimitive>)

  /** A node: its children (node indices) and its mesh (negative when it has none). */
  datatype GltfNode = GltfNode(children: seq<int>, mesh: int)

  /** A sampler's magnification filter and S wrap mode, -1 when undefined. */
  datatype GltfSampler = GltfSampler(magFilter: int, wrapS: int)

  datatype GltfTexture = GltfTexture(sampler: int, source: int)

  /** The three texture references of a material, -1 when absent. */
  datatype GltfMaterial = GltfMaterial(baseColorTexture: int, metallicRoughnessTexture: int, normalTexture: int)

  /** The parsed document; an image is its URI. */
  datatype Document = Document(
    nodes: seq<GltfNode>,
    meshes: seq<GltfMesh>,
    samplers: seq<GltfSampler>,
    textures: seq<GltfTexture>,
    materials: seq<GltfMaterial>,
    images: seq<string>)

  /**
   * What the loader dereferences without checking: child and mesh indices, texture
   * samplers and sources, and material texture references (or -1) are in range.
   */
  predicate WellFormed(doc: Document) {
    && (forall n, k :: 0 <= n < |doc.nodes| && 0 <= k < |doc.nodes[n].children| ==>
          0 <= doc.nodes[n].children[k] < |doc.nodes|)
    && (forall n :: 0 <= n < |doc.nodes| ==> doc.nodes[n].mesh < |doc.meshes|)
    && (forall t :: 0 <= t < |doc.textures| ==>
          0 <= doc.textures[t].sampler < |doc.samplers| && 0 <= doc.textures[t].source < |doc.images|)
    && (forall m :: 0 <= m < |doc.materials| ==> TextureRef(doc, doc.materials[m].baseColorTexture))
    && (forall m :: 0 <= m < |doc.materials| ==> TextureRef(doc, doc.materials[m].metallicRoughnessTexture))
    && (forall m :: 0 <= m < |doc.materials| ==> TextureRef(doc, doc.materials[m].normalTexture))
  }

  predicate TextureRef(doc: Document, t: int) {
    t == -1 || 0 <= t < |doc.textures|
  }

  /**
   * The node hierarchy is a forest (section 3.5.2 of the glTF 2.0 specification): `rank`
   * witnesses it by decreasing from every parent to each of its children.
   */
  predicate Ranked(doc: Document, rank: seq<nat>) {
    && |rank| == |doc.nodes|
    && (forall n, k ::
          (0 <= n < |doc.nodes| && 0 <= k < |doc.nodes[n].children| && 0 <= doc.nodes[n].children[k] < |doc.nodes|) ==>
          rank[doc.nodes[n].children[k]] < rank[n])
  }

  /** The `v`-th vertex of primitive `primitive` of mesh `mesh`. */
  datatype VertexRef = VertexRef(mesh: nat, primitive: nat, vertex: nat)

  /** `Primitive` (`Model.h`): all three fields are `uint32_t`. */
  datatype Primitive = Primitive(firstIndex: u32, indexCount: u32, materialIndex: u32)

  /** `m_vertexBuffer`, `m_indexBuffer` and `m_mesh`. */
  datatype Buffers = Buffers(vertices: seq<VertexRef>, indices: seq<u32>, mesh: seq<Primitive>)

  predicate IndexTypeSupported(componentType: int) {
    componentType == UNSIGNED_INT || componentType == UNSIGNED_SHORT || componentType == UNSIGNED_BYTE
  }

  /** The number of vertices a primitive contributes: its POSITION count, or 0 without POSITION. */
  function VertexCount(p: GltfPrimitive): nat {
    if p.positionCount.Some? then p.positionCount.value else 0
  }

  /** The vertices a primitive appends, in order. */
  function PrimitiveVertices(mesh: nat, k: nat, count: nat): (vs: seq<VertexRef>)
    ensures |vs| == count
    ensures forall v :: 0 <= v < count ==> vs[v] == VertexRef(mesh, k, v)
  {
    seq(count, v requires 0 <= v < count => VertexRef(mesh, k, v))
  }

  /** Index values rebased by `vertexStart`, with the `uint32_t` addition's wrap-around. */
  function Rebased(raw: seq<u32>, vertexStart: u32): (r: seq<u32>)
    ensures |r| == |raw|
    ensures forall i :: 0 <= i < |raw| ==> r[i] == ToU32(raw[i] as int + vertexStart as int)
  {
    seq(|raw|, i requires 0 <= i < |raw| => ToU32(raw[i] as int + vertexStart as int))
  }

  /** The outcome of one iteration of the primitive loop: go on with the next primitive, or return from the node. */
  datatype Step = Continue(next: Buffers) | Return(last: Buffers)

  function StepResult(st: Step): Buffers {
    match st
    case Continue(b) => b
    case Return(b) => b
  }

  /**
   * One primitive of `loadNode`: one without indices is skipped; otherwise its vertices are
   * appended, and then either (a supported component type) its rebased indices and a
   * record with the index list's length before it, its accessor count and its material are
   * appended, or (an unsupported one) the node returns with no record.
   */
  function PrimitiveStep(mesh: nat, k: nat, p: GltfPrimitive, b: Buffers): (st: Step)
    ensures p.indices < 0 ==> st == Continue(b)
    ensures p.indices >= 0 ==> StepResult(st).vertices == b.vertices + PrimitiveVertices(mesh, k, VertexCount(p))
    ensures st.Return? <==> p.indices >= 0 && !IndexTypeSupported(p.componentType)
    ensures st.Return? ==> st.last.indices == b.indices && st.last.mesh == b.mesh
    ensures st.Continue? && p.indices >= 0 ==>
      st.next.indices == b.indices + Rebased(p.rawIndices, ToU32(|b.vertices|)) &&
      st.next.mesh == b.mesh + [Primitive(ToU32(|b.indices|), ToU32(|p.rawIndices|), ToU32(p.material))]
  {
    if p.indices < 0 then Continue(b)
    else
      var firstIndex := ToU32(|b.indices|);
      var vertexStart := ToU32(|b.vertices|);
      var vertices := b.vertices + PrimitiveVertices(mesh, k, VertexCount(p));
      if !IndexTypeSupported(p.componentType) then Return(Buffers(vertices, b.indices, b.mesh))
      else
        Continue(Buffers(vertices, b.indices + Rebased(p.rawIndices, vertexStart),
                         b.mesh + [Primitive(firstIndex, ToU32(|p.rawIndices|), ToU32(p.material))]))
  }

  /** The primitive loop of `loadNode` from position `k` on, over mesh `mesh`. It only ever appends. */
  function PrimitivesFrom(mesh: nat, prims: seq<GltfPrimitive>, k: nat, b: Buffers): (r: Buffers)
    ensures b.vertices <= r.vertices && b.indices <= r.indices && b.mesh <= r.mesh
    decreases |prims| - k
  {
    if k >= |prims| then b
    else
      match PrimitiveStep(mesh, k, prims[k], b)
      case Continue(next) => PrimitivesFrom(mesh, prims, k + 1, next)
      case Return(last) => last
  }

  /** `loadNode(n)`: first its children in order, then (when it has a mesh) its primitives. */
  function NodeSpec(doc: Document, rank: seq<nat>, n: nat, b: Buffers): (r: Buffers)
    requires WellFormed(doc) && Ranked(doc, rank) && n < |doc.nodes|
    ensures b.vertices <= r.vertices && b.indices <= r.indices && b.mesh <= r.mesh
    decreases rank[n], 1
  {
    var afterChildren := ChildrenFrom(doc, rank, n, 0, b);
    var m := doc.nodes[n].mesh;
    if m < 0 then afterChildren
    else PrimitivesFrom(m, doc.meshes[m].primitives, 0, afterChildren)
  }

  /** The children of node `n` from position `k` on, each loaded with `NodeSpec`. */
  function ChildrenFrom(doc: Document, rank: seq<nat>, n: nat, k: nat, b: Buffers): (r: Buffers)
    requires WellFormed(doc) && Ranked(doc, rank) && n < |doc.nodes|
    ensures b.vertices <= r.vertices && b.indices <= r.indices && b.mesh <= r.mesh
    decreases rank[n], 0, |doc.nodes[n].children| - k
  {
    if k >= |doc.nodes[n].children| then b
    else ChildrenFrom(doc, rank, n, k + 1, NodeSpec(doc, rank, doc.nodes[n].children[k], b))
  }

  /** The node loop of `loadGltfModel` from position `k` on: every node of the document, in order. */
  function NodesFrom(doc: Document, rank: seq<nat>, k: nat, b: Buffers): (r: Buffers)
    requires WellFormed(doc) && Ranked(doc, rank)
    ensures b.vertices <= r.vertices && b.indices <= r.indices && b.mesh <= r.mesh
    decreases |doc.nodes| - k
  {
    if k >= |doc.nodes| then b
    else NodesFrom(doc, rank, k + 1, NodeSpec(doc, rank, k, b))
  }

  /**
   * The records tile the index list: the first starts at 0, each one starts where the
   * previous one ends, and the last one ends at the list's length.
   */
  predicate Tiled(b: Buffers) {
    && (b.mesh == [] ==> b.indices == [])
    && (b.mesh != [] ==> b.mesh[0].firstIndex == 0)
    && (forall j :: 0 <= j < |b.mesh| - 1 ==>
          b.mesh[j].firstIndex as int + b.mesh[j].indexCount as int == b.mesh[j + 1].firstIndex as int)
    && (b.mesh != [] ==>
          b.mesh[|b.mesh| - 1].firstIndex as int + b.mesh[|b.mesh| - 1].indexCount as int == |b.indices|)
  }

  /** Every stored index names a vertex of the vertex list. */
  predicate Bounded(b: Buffers) {
    forall i :: 0 <= i < |b.indices| ==> b.indices[i] as int < |b.vertices|
  }

  /**
   * Appending one record tiles on: its `firstIndex` is the index list's length before it and
   * its `indexCount` is its accessor's count, so as long as the index list stays below 2^32
   * entries it ends where the list now ends.
   */
  lemma TiledStep(b: Buffers, vertices: seq<VertexRef>, raw: seq<u32>, vertexStart: u32, material: int)
    requires Tiled(b) && |b.indices| + |raw| < U32_LIMIT
    ensures Tiled(Buffers(vertices, b.indices + Rebased(raw, vertexStart),
                          b.mesh + [Primitive(ToU32(|b.indices|), ToU32(|raw|), ToU32(material))]))
  {
    var r := Primitive(ToU32(|b.indices|), ToU32(|raw|), ToU32(material));
    assert ToU32(|b.indices|) == |b.indices| && ToU32(|raw|) == |raw|;
    var mesh := b.mesh + [r];
    assert forall j :: 0 <= j < |b.mesh| ==> mesh[j] == b.mesh[j];
    if b.mesh != [] {
      assert mesh[|b.mesh| - 1] == b.mesh[|b.mesh| - 1];
    }
  }

  lemma {:induction false} PrimitivesTiled(mesh: nat, prims: seq<GltfPrimitive>, k: nat, b: Buffers)
    requires Tiled(b) && |PrimitivesFrom(mesh, prims, k, b).indices| < U32_LIMIT
    ensures Tiled(PrimitivesFrom(mesh, prims, k, b))
    decreases |prims| - k
  {
    if k < |prims| {
      var p := prims[k];
      var st := PrimitiveStep(mesh, k, p, b);
      if st.Continue? {
        if p.indices >= 0 {
          TiledStep(b, st.next.vertices, p.rawIndices, ToU32(|b.vertices|), p.material);
        }
        PrimitivesTiled(mesh, prims, k + 1, st.next);
      }
    }
  }

  /**
   * Loading a node keeps the records tiling the index list, provided the index list stays
   * below 2^32 entries (beyond that the `uint32_t` offsets wrap).
   */
  lemma {:induction false} NodeTiled(doc: Document, rank: seq<nat>, n: nat, b: Buffers)
    requires WellFormed(doc) && Ranked(doc, rank) && n < |doc.nodes|
    requires Tiled(b) && |NodeSpec(doc, rank, n, b).indices| < U32_LIMIT
    ensures Tiled(NodeSpec(doc, rank, n, b))
    decreases rank[n], 1
  {
    var afterChildren := ChildrenFrom(doc, rank, n, 0, b);
    ChildrenTiled(doc, rank, n, 0, b);
    var m := doc.nodes[n].mesh;
    if m >= 0 {
      PrimitivesTiled(m, doc.meshes[m].primitives, 0, afterChildren);
    }
  }

  lemma {:induction false} ChildrenTiled(doc: Document, rank: seq<nat>, n: nat, k: nat, b: Buffers)
    requires WellFormed(doc) && Ranked(doc, rank) && n < |doc.nodes|
    requires Tiled(b) && |ChildrenFrom(doc, rank, n, k, b).indices| < U32_LIMIT
    ensures Tiled(ChildrenFrom(doc, rank, n, k, b))
    decreases rank[n], 0, |doc.nodes[n].children| - k
  {
    if k < |doc.nodes[n].children| {
      var c := doc.nodes[n].children[k];
      var next := NodeSpec(doc, rank, c, b);
      assert ChildrenFrom(doc, rank, n, k, b) == ChildrenFrom(doc, rank, n, k + 1, next);
      NodeTiled(doc, rank, c, b);
      ChildrenTiled(doc, rank, n, k + 1, next);
    }
  }

  /** Loading every node from position `k` on keeps the records tiling the index list. */
  lemma {:induction false} NodesTiled(doc: Document, rank: seq<nat>, k: nat, b: Buffers)
    requires WellFormed(doc) && Ranked(doc, rank)
    requires Tiled(b) && |NodesFrom(doc, rank, k, b).indices| < U32_LIMIT
    ensures Tiled(NodesFrom(doc, rank, k, b))
    decreases |doc.nodes| - k
  {
    if k < |doc.nodes| {
      var next := NodeSpec(doc, rank, k, b);
      NodeTiled(doc, rank, k, b);
      NodesTiled(doc, rank, k + 1, next);
    }
  }

  /** The raw indices of every primitive in `prims` are below that primitive's vertex count. */
  predicate PrimitivesInRange(prims: seq<GltfPrimitive>) {
    forall k, i :: 0 <= k < |prims| && 0 <= i < |prims[k].rawIndices| ==>
      prims[k].rawIndices[i] as int < VertexCount(prims[k])
  }

  predicate IndicesInRange(doc: Document) {
    forall m :: 0 <= m < |doc.meshes| ==> PrimitivesInRange(doc.meshes[m].primitives)
  }

  /**
   * Rebasing indices that are below the primitive's vertex count by the vertex list's
   * length before the primitive keeps every index below the grown vertex list, as long as
   * that list stays below 2^32 entries.
   */
  lemma BoundedStep(b: Buffers, added: seq<VertexRef>, raw: seq<u32>, mesh: seq<Primitive>)
    requires Bounded(b) && |b.vertices| + |added| < U32_LIMIT
    requires forall i :: 0 <= i < |raw| ==> raw[i] as int < |added|
    ensures Bounded(Buffers(b.vertices + added, b.indices + Rebased(raw, ToU32(|b.vertices|)), mesh))
  {
    var vertexStart := ToU32(|b.vertices|);
    assert vertexStart == |b.vertices|;
    var r := Rebased(raw, vertexStart);
    forall i | 0 <= i < |raw|
      ensures r[i] as int < |b.vertices| + |added|
    {
      assert raw[i] + vertexStart < U32_LIMIT;
    }
  }

  lemma {:induction false} PrimitivesBounded(mesh: nat, prims: seq<GltfPrimitive>, k: nat, b: Buffers)
    requires PrimitivesInRange(prims)
    requires Bounded(b) && |PrimitivesFrom(mesh, prims, k, b).vertices| < U32_LIMIT
    ensures Bounded(PrimitivesFrom(mesh, prims, k, b))
    decreases |prims| - k
  {
    if k < |prims| {
      var p := prims[k];
      var st := PrimitiveStep(mesh, k, p, b);
      var added := PrimitiveVertices(mesh, k, VertexCount(p));
      if st.Continue? {
        if p.indices >= 0 {
          assert forall i :: 0 <= i < |p.rawIndices| ==> p.rawIndices[i] as int < |added|;
          BoundedStep(b, added, p.rawIndices, st.next.mesh);
        }
        PrimitivesBounded(mesh, prims, k + 1, st.next);
      }
    }
  }

  /**
   * When every raw index is below its primitive's vertex count and the vertex list stays
   * below 2^32 entries, loading a node keeps every stored index below the vertex list's length.
   */
  lemma {:induction false} NodeBounded(doc: Document, rank: seq<nat>, n: nat, b: Buffers)
    requires WellFormed(doc) && Ranked(doc, rank) && n < |doc.nodes| && IndicesInRange(doc)
    requires Bounded(b) && |NodeSpec(doc, rank, n, b).vertices| < U32_LIMIT
    ensures Bounded(NodeSpec(doc, rank, n, b))
    decreases rank[n], 1
  {
    var afterChildren := ChildrenFrom(doc, rank, n, 0, b);
    ChildrenBounded(doc, rank, n, 0, b);
    var m := doc.nodes[n].mesh;
    if m >= 0 {
      PrimitivesBounded(m, doc.meshes[m].primitives, 0, afterChildren);
    }
  }

  lemma {:induction false} ChildrenBounded(doc: Document, rank: seq<nat>, n: nat, k: nat, b: Buffers)
    requires WellFormed(doc) && Ranked(doc, rank) && n < |doc.nodes| && IndicesInRange(doc)
    requires Bounded(b) && |ChildrenFrom(doc, rank, n, k, b).vertices| < U32_LIMIT
    ensures Bounded(ChildrenFrom(doc, rank, n, k, b))
    decreases rank[n], 0, |doc.nodes[n].children| - k
  {
    if k < |doc.nodes[n].children| {
      var c := doc.nodes[n].children[k];
      var next := NodeSpec(doc, rank, c, b);
      assert ChildrenFrom(doc, rank, n, k, b) == ChildrenFrom(doc, rank, n, k + 1, next);
      NodeBounded(doc, rank, c, b);
      ChildrenBounded(doc, rank, n, k + 1, next);
    }
  }

  lemma {:induction false} NodesBounded(doc: Document, rank: seq<nat>, k: nat, b: Buffers)
    requires WellFormed(doc) && Ranked(doc, rank) && IndicesInRange(doc)
    requires Bounded(b) && |NodesFrom(doc, rank, k, b).vertices| < U32_LIMIT
    ensures Bounded(NodesFrom(doc, rank, k, b))
    decreases |doc.nodes| - k
  {
    if k < |doc.nodes| {
      var next := NodeSpec(doc, rank, k, b);
      NodeBounded(doc, rank, k, b);
      NodesBounded(doc, rank, k + 1, next);
    }
  }

  /** A primitive whose index component type is unsupported ends the node: its vertices stay appended, nothing else is added. */
  lemma UnsupportedComponentTypeEndsNode(mesh: nat, prims: seq<GltfPrimitive>, k: nat, b: Buffers)
    requires k < |prims| && prims[k].indices >= 0 && !IndexTypeSupported(prims[k].componentType)
    ensures PrimitivesFrom(mesh, prims, k, b) ==
      Buffers(b.vertices + PrimitiveVertices(mesh, k, VertexCount(prims[k])), b.indices, b.mesh)
  {
  }

  /** The buffers as the constructor leaves them. */
  function EmptyBuffers(): (b: Buffers)
    ensures Tiled(b) && Bounded(b)
  {
    Buffers([], [], [])
  }

  /**
   * Loading every node of a document into empty buffers leaves records that tile the index
   * list and, when raw indices are below their primitives' vertex counts, indices that all
   * name a vertex, as long as both lists stay below 2^32 entries.
   */
  lemma LoadedBuffersTiledAndBounded(doc: Document, rank: seq<nat>)
    requires WellFormed(doc) && Ranked(doc, rank)
    requires |NodesFrom(doc, rank, 0, EmptyBuffers()).indices| < U32_LIMIT
    requires |NodesFrom(doc, rank, 0, EmptyBuffers()).vertices| < U32_LIMIT
    ensures Tiled(NodesFrom(doc, rank, 0, EmptyBuffers()))
    ensures IndicesInRange(doc) ==> Bounded(NodesFrom(doc, rank, 0, EmptyBuffers()))
  {
    NodesTiled(doc, rank, 0, EmptyBuffers());
    if IndicesInRange(doc) {
      NodesBounded(doc, rank, 0, EmptyBuffers());
    }
  }

  /** A root node without a mesh whose one child holds a mesh with one three-index primitive. */
  function NestedDocument(): (doc: Document)
    ensures WellFormed(doc) && Ranked(doc, [1, 0])
  {
    Document([GltfNode([1], -1), GltfNode([], 0)], [GltfMesh([NestedPrimitive()])], [], [], [], [])
  }

  function NestedPrimitive(): GltfPrimitive {
    GltfPrimitive(0, Some(3), UNSIGNED_SHORT, [0, 1, 2], 0)
  }

  /** The nested primitive loaded into empty buffers, and once more after that. */
  lemma NestedPrimitiveLoads()
    ensures PrimitivesFrom(0, [NestedPrimitive()], 0, EmptyBuffers()) ==
      Buffers(PrimitiveVertices(0, 0, 3), [0, 1, 2], [Primitive(0, 3, 0)])
    ensures PrimitivesFrom(0, [NestedPrimitive()], 0, Buffers(PrimitiveVertices(0, 0, 3), [0, 1, 2], [Primitive(0, 3, 0)])) ==
      Buffers(PrimitiveVertices(0, 0, 3) + PrimitiveVertices(0, 0, 3), [0, 1, 2, 3, 4, 5], [Primitive(0, 3, 0), Primitive(3, 3, 0)])
  {
    var e := EmptyBuffers();
    assert Rebased([0, 1, 2], 0) == [0, 1, 2];
    assert Rebased([0, 1, 2], 3) == [3, 4, 5];
    var once := Buffers(PrimitiveVertices(0, 0, 3), [0, 1, 2], [Primitive(0, 3, 0)]);
    assert e.vertices + PrimitiveVertices(0, 0, 3) == PrimitiveVertices(0, 0, 3);
    assert PrimitiveStep(0, 0, NestedPrimitive(), e) == Continue(once);
    var twice := Buffers(once.vertices + PrimitiveVertices(0, 0, 3), [0, 1, 2, 3, 4, 5],
                         [Primitive(0, 3, 0), Primitive(3, 3, 0)]);
    assert PrimitiveStep(0, 0, NestedPrimitive(), once) == Continue(twice);
  }

  /**
   * `loadGltfModel` loads every node of the document, and `loadNode` loads every child of a
   * node, so a node that is some node's child is flattened twice: a root (no mesh) with one
   * child holding a three-index primitive yields two records and six vertices.
   */
  lemma ChildNodeFlattenedTwice()
    ensures var r := NodesFrom(NestedDocument(), [1, 0], 0, EmptyBuffers());
      r.mesh == [Primitive(0, 3, 0), Primitive(3, 3, 0)] && |r.vertices| == 6 && r.indices == [0, 1, 2, 3, 4, 5]
  {
    var doc := NestedDocument();
    var rank := [1, 0];
    var e := EmptyBuffers();
    NestedPrimitiveLoads();
    var once := Buffers(PrimitiveVertices(0, 0, 3), [0, 1, 2], [Primitive(0, 3, 0)]);
    var twice := Buffers(PrimitiveVertices(0, 0, 3) + PrimitiveVertices(0, 0, 3), [0, 1, 2, 3, 4, 5],
                         [Primitive(0, 3, 0), Primitive(3, 3, 0)]);
    assert NodeSpec(doc, rank, 1, e) == once;
    assert ChildrenFrom(doc, rank, 0, 0, e) == ChildrenFrom(doc, rank, 0, 1, once);
    assert NodeSpec(doc, rank, 0, e) == once;
    assert NodeSpec(doc, rank, 1, once) == twice;
    assert NodesFrom(doc, rank, 0, e) == NodesFrom(doc, rank, 1, once);
    assert NodesFrom(doc, rank, 1, once) == NodesFrom(doc, rank, 2, twice);
  }

  datatype Filter = Nearest | Linear

  datatype AddressMode = Repeat | ClampToEdge | MirroredRepeat

  /**
   * The filter table the constructor fills: the NEAREST codes map to Nearest and the
   * LINEAR codes to Linear, by the first filter in the code's name. Any other code
   * (tinygltf's -1 for an undefined filter among them) finds no entry, and `operator[]`
   * inserts the value-initialised `vk::Filter`, which is Nearest.
   */
  function FilterFor(code: int): (f: Filter)
    ensures f == Linear <==> code == LINEAR || code == LINEAR_MIPMAP_NEAREST || code == LINEAR_MIPMAP_LINEAR
    ensures code == NEAREST || code == NEAREST_MIPMAP_NEAREST || code == NEAREST_MIPMAP_LINEAR ==> f == Nearest
  {
    if code == NEAREST then Nearest
    else if code == LINEAR then Linear
    else if code == NEAREST_MIPMAP_NEAREST then Nearest
    else if code == LINEAR_MIPMAP_NEAREST then Linear
    else if code == NEAREST_MIPMAP_LINEAR then Nearest
    else if code == LINEAR_MIPMAP_LINEAR then Linear
    else Nearest
  }

  /**
   * The address-mode table: each glTF wrap code maps to the same-named mode; any other
   * code finds no entry and gets the value-initialised mode, Repeat.
   */
  function AddressModeFor(code: int): (m: AddressMode)
    ensures m == ClampToEdge <==> code == CLAMP_TO_EDGE
    ensures m == MirroredRepeat <==> code == MIRRORED_REPEAT
    ensures m == Repeat <==> code != CLAMP_TO_EDGE && code != MIRRORED_REPEAT
  {
    if code == REPEAT then Repeat
    else if code == CLAMP_TO_EDGE then ClampToEdge
    else if code == MIRRORED_REPEAT then MirroredRepeat
    else Repeat
  }

  /** The sampler `Sampler::create` makes: one filter for both magnification and minification, one address mode for U, V and W. */
  datatype SamplerInfo = SamplerInfo(filter: Filter, addressMode: AddressMode)

  /** A texture: the index of the sampler it shares, the file it is loaded from, its format. */
  datatype TextureInfo = TextureInfo(sampler: nat, path: string, format: Format)

  /** A material: indices of its textures; occlusion and emissive are null pointers (None). */
  datatype MaterialInfo = MaterialInfo(albedo: int, normal: int, metallicRoughness: int,
                                       occlusion: Option<nat>, emissive: Option<nat>)

  const TextureDirectory: string := "res/models/Sponza/glTF/"

  /** The sampler made from a glTF sampler. */
  function SamplerFor(s: GltfSampler): SamplerInfo {
    SamplerInfo(FilterFor(s.magFilter), AddressModeFor(s.wrapS))
  }

  /** The samplers `loadTextures` makes: one per glTF sampler, in order. */
  function SamplersOf(doc: Document): (ss: seq<SamplerInfo>)
    ensures |ss| == |doc.samplers|
    ensures forall i :: 0 <= i < |ss| ==> ss[i] == SamplerFor(doc.samplers[i])
  {
    seq(|doc.samplers|, i requires 0 <= i < |doc.samplers| => SamplerFor(doc.samplers[i]))
  }

  /** The textures some material uses as its normal map. */
  function NormalTextures(materials: seq<GltfMaterial>): (r: set<int>)
    ensures forall t :: t in r <==> t != -1 && exists m :: 0 <= m < |materials| && materials[m].normalTexture == t
  {
    set m | m in materials && m.normalTexture != -1 :: m.normalTexture
  }

  /** The format of texture `i`: UNORM for a normal map, sRGB otherwise. */
  function TextureFormat(materials: seq<GltfMaterial>, i: int): Format {
    if i in NormalTextures(materials) then R8G8B8A8Unorm else R8G8B8A8Srgb
  }

  /** The textures `loadTextures` makes: one per glTF texture, in order. */
  function TexturesOf(doc: Document): (ts: seq<TextureInfo>)
    requires WellFormed(doc)
    ensures |ts| == |doc.textures|
  {
    seq(|doc.textures|, i requires 0 <= i < |doc.textures| =>
      TextureInfo(doc.textures[i].sampler, TextureDirectory + doc.images[doc.textures[i].source],
                  TextureFormat(doc.materials, i)))
  }

  /**
   * Texture `i` shares sampler `textures[i].sampler`, is loaded from its image's URI under
   * the model directory, and is R8G8B8A8Unorm exactly when some material uses it as its
   * normal texture (R8G8B8A8Srgb otherwise).
   */
  lemma TexturesOfFormats(doc: Document, i: nat)
    requires WellFormed(doc) && i < |doc.textures|
    ensures TexturesOf(doc)[i].sampler == doc.textures[i].sampler
    ensures TexturesOf(doc)[i].path == TextureDirectory + doc.images[doc.textures[i].source]
    ensures TexturesOf(doc)[i].format == R8G8B8A8Unorm <==>
      exists m :: 0 <= m < |doc.materials| && doc.materials[m].normalTexture == i
    ensures TexturesOf(doc)[i].format != R8G8B8A8Unorm ==> TexturesOf(doc)[i].format == R8G8B8A8Srgb
  {
    assert i != -1;
  }

  /** A texture reference, or the last texture for -1. */
  function Resolve(t: int, textureCount: nat): int {
    if t == -1 then (if textureCount == 0 then 0 else textureCount - 1) else t
  }

  /** The materials `loadMaterials` makes: none without textures, else one per glTF material. */
  function MaterialsOf(materials: seq<GltfMaterial>, textureCount: nat): (ms: seq<MaterialInfo>)
    ensures textureCount == 0 ==> ms == []
    ensures textureCount > 0 ==> |ms| == |materials|
  {
    if textureCount == 0 then []
    else
      seq(|materials|, i requires 0 <= i < |materials| =>
        MaterialInfo(Resolve(materials[i].baseColorTexture, textureCount),
                     Resolve(materials[i].normalTexture, textureCount),
                     Resolve(materials[i].metallicRoughnessTexture, textureCount),
                     None, None))
  }

  /**
   * Each material keeps the texture indices its glTF material gives, with -1 replaced by
   * the last texture, and has no occlusion or emissive texture; for a well-formed document
   * whose textures were all loaded, every reference names an existing texture.
   */
  lemma MaterialsOfReferences(doc: Document, textureCount: nat, i: nat)
    requires textureCount > 0 && i < |doc.materials|
    ensures var m := MaterialsOf(doc.materials, textureCount)[i];
      var g := doc.materials[i];
      && (m.albedo == if g.baseColorTexture == -1 then textureCount - 1 else g.baseColorTexture)
      && (m.normal == if g.normalTexture == -1 then textureCount - 1 else g.normalTexture)
      && (m.metallicRoughness == if g.metallicRoughnessTexture == -1 then textureCount - 1 else g.metallicRoughnessTexture)
      && m.occlusion.None? && m.emissive.None?
      && (WellFormed(doc) && textureCount == |doc.textures| ==>
            0 <= m.albedo < textureCount && 0 <= m.normal < textureCount && 0 <= m.metallicRoughness < textureCount)
  {
  }

  class Model {
    /** `m_samplers`, `m_textures` and `m_materials`. */
    var samplers: seq<SamplerInfo>
    var textures: seq<TextureInfo>
    var materials: seq<MaterialInfo>
    /** `m_mesh`, `m_indexBuffer` and `m_vertexBuffer`. */
    var mesh: seq<Primitive>
    var indices: seq<u32>
    var vertices: seq<VertexRef>

    function Geometry(): Buffers
      reads this
    {
      Buffers(vertices, indices, mesh)
    }

    constructor ()
      ensures Geometry() == EmptyBuffers()
      ensures samplers == [] && textures == [] && materials == []
    {
      samplers := [];
      textures := [];
      materials := [];
      mesh := [];
      indices := [];
      vertices := [];
    }

    /**
     * `loadNode`: children first (recursively), then this node's mesh primitives; a node
     * without a mesh is logged (`logged`) after its children are loaded.
     */
    method LoadNode(doc: Document, ghost rank: seq<nat>, n: nat) returns (logged: bool)
      requires WellFormed(doc) && Ranked(doc, rank) && n < |doc.nodes|
      modifies this`vertices, this`indices, this`mesh
      ensures Geometry() == NodeSpec(doc, rank, n, old(Geometry()))
      ensures logged <==> doc.nodes[n].mesh < 0
      decreases rank[n], 1
    {
      var node := doc.nodes[n];
      ghost var start := Geometry();
      for i := 0 to |node.children|
        invariant ChildrenFrom(doc, rank, n, 0, start) == ChildrenFrom(doc, rank, n, i, Geometry())
      {
        var _ := LoadNode(doc, rank, node.children[i]);
      }
      if node.mesh < 0 {
        return true;
      }
      logged := false;
      LoadPrimitives(node.mesh, doc.meshes[node.mesh].primitives);
    }

    /** The primitive loop of `loadNode` over mesh `m`; returning from it ends the node. */
    method LoadPrimitives(m: nat, prims: seq<GltfPrimitive>)
      modifies this`vertices, this`indices, this`mesh
      ensures Geometry() == PrimitivesFrom(m, prims, 0, old(Geometry()))
    {
      for k := 0 to |prims|
        invariant PrimitivesFrom(m, prims, 0, old(Geometry())) == PrimitivesFrom(m, prims, k, Geometry())
      {
        var returned := LoadPrimitive(m, k, prims[k]);
        if returned {
          return;
        }
      }
    }

    /** One iteration of the primitive loop; `returned` says that `loadNode` returns here. */
    method LoadPrimitive(m: nat, k: nat, p: GltfPrimitive) returns (returned: bool)
      modifies this`vertices, this`indices, this`mesh
      ensures returned <==> PrimitiveStep(m, k, p, old(Geometry())).Return?
      ensures Geometry() == StepResult(PrimitiveStep(m, k, p, old(Geometry())))
    {
      if p.indices < 0 {
        return false;
      }
      var firstIndex := ToU32(|indices|);
      var vertexStart := ToU32(|vertices|);
      var indexCount: u32 := 0;
      ghost var before := Geometry();
      var vertexCount := if p.positionCount.Some? then p.positionCount.value else 0;
      for v := 0 to vertexCount
        invariant vertices == before.vertices + PrimitiveVertices(m, k, v)
        invariant indices == before.indices && mesh == before.mesh
      {
        vertices := vertices + [VertexRef(m, k, v)];
      }
      indexCount := ToU32(indexCount + |p.rawIndices|);
      if !IndexTypeSupported(p.componentType) {
        return true;
      }
      for i := 0 to |p.rawIndices|
        invariant indices == before.indices + Rebased(p.rawIndices[..i], vertexStart)
        invariant vertices == before.vertices + PrimitiveVertices(m, k, vertexCount)
        invariant mesh == before.mesh
      {
        assert Rebased(p.rawIndices[..i + 1], vertexStart) ==
          Rebased(p.rawIndices[..i], vertexStart) + [ToU32(p.rawIndices[i] as int + vertexStart as int)];
        indices := indices + [ToU32(p.rawIndices[i] as int + vertexStart as int)];
      }
      assert p.rawIndices[..|p.rawIndices|] == p.rawIndices;
      mesh := mesh + [Primitive(firstIndex, indexCount, ToU32(p.material))];
      return false;
    }

    /**
     * `loadTextures`: one sampler per glTF sampler, then one texture per glTF texture, each
     * sharing the sampler at the glTF texture's sampler index and formatted by whether some
     * material uses it as a normal map.
     */
    method LoadTextures(doc: Document)
      requires WellFormed(doc)
      modifies this`samplers, this`textures
      ensures samplers == old(samplers) + SamplersOf(doc)
      ensures textures == old(textures) + TexturesOf(doc)
    {
      var normals: set<int> := {};
      for m := 0 to |doc.materials|
        invariant normals == NormalTextures(doc.materials[..m])
        invariant samplers == old(samplers) && textures == old(textures)
      {
        assert doc.materials[..m + 1] == doc.materials[..m] + [doc.materials[m]];
        var index := doc.materials[m].normalTexture;
        if index != -1 {
          normals := normals + {index};
        }
      }
      assert doc.materials[..|doc.materials|] == doc.materials;
      ghost var samplers0 := samplers;
      for s := 0 to |doc.samplers|
        invariant samplers == samplers0 + SamplersOf(doc)[..s]
        invariant textures == old(textures)
      {
        assert SamplersOf(doc)[..s + 1] == SamplersOf(doc)[..s] + [SamplerFor(doc.samplers[s])];
        samplers := samplers + [SamplerInfo(FilterFor(doc.samplers[s].magFilter), AddressModeFor(doc.samplers[s].wrapS))];
      }
      assert SamplersOf(doc)[..|doc.samplers|] == SamplersOf(doc);
      ghost var textures0 := textures;
      for i := 0 to |doc.textures|
        invariant textures == textures0 + TexturesOf(doc)[..i]
        invariant samplers == old(samplers) + SamplersOf(doc)
      {
        var t := doc.textures[i];
        var format := R8G8B8A8Srgb;
        if i in normals {
          format := R8G8B8A8Unorm;
        }
        assert format == TextureFormat(doc.materials, i);
        assert TexturesOf(doc)[..i + 1] == TexturesOf(doc)[..i] + [TexturesOf(doc)[i]];
        textures := textures + [TextureInfo(t.sampler, TextureDirectory + doc.images[t.source], format)];
      }
      assert TexturesOf(doc)[..|doc.textures|] == TexturesOf(doc);
    }

    /** `loadMaterials`: nothing without textures; otherwise one material per glTF material. */
    method LoadMaterials(doc: Document)
      modifies this`materials
      ensures materials == old(materials) + MaterialsOf(doc.materials, |textures|)
    {
      if |textures| == 0 {
        return;
      }
      ghost var materials0 := materials;
      for i := 0 to |doc.materials|
        invariant materials == materials0 + MaterialsOf(doc.materials, |textures|)[..i]
      {
        var lastTextureIndex := if |textures| == 0 then 0 else |textures| - 1;
        var g := doc.materials[i];
        var albedo := if g.baseColorTexture == -1 then lastTextureIndex else g.baseColorTexture;
        var metallicRoughness := if g.metallicRoughnessTexture == -1 then lastTextureIndex else g.metallicRoughnessTexture;
        var normal := if g.normalTexture == -1 then lastTextureIndex else g.normalTexture;
        materials := materials + [MaterialInfo(albedo, normal, metallicRoughness, None, None)];
      }
      assert MaterialsOf(doc.materials, |textures|)[..|doc.materials|] == MaterialsOf(doc.materials, |textures|);
    }

    /**
     * `loadGltfModel`: a document tinygltf failed to parse (None) is logged (`logged`) and
     * nothing is loaded; otherwise every node in document order, then the textures, then
     * the materials.
     */
    method LoadGltfModel(doc: Option<Document>, ghost rank: seq<nat>) returns (logged: bool)
      requires doc.Some? ==> WellFormed(doc.value) && Ranked(doc.value, rank)
      modifies this
      ensures doc.None? ==>
        (Geometry() == old(Geometry()) && samplers == old(samplers) && textures == old(textures) && materials == old(materials))
      ensures doc.Some? ==> Geometry() == NodesFrom(doc.value, rank, 0, old(Geometry()))
      ensures doc.Some? ==> textures == old(textures) + TexturesOf(doc.value)
      ensures doc.Some? ==> materials == old(materials) + MaterialsOf(doc.value.materials, |textures|)
      ensures doc.Some? ==>
        samplers == old(samplers) + SamplersOf(doc.value)
      ensures logged <==> doc.None?
    {
      if doc.None? {
        return true;
      }
      logged := false;
      var d := doc.value;
      for n := 0 to |d.nodes|
        invariant NodesFrom(d, rank, 0, old(Geometry())) == NodesFrom(d, rank, n, Geometry())
        invariant samplers == old(samplers) && textures == old(textures) && materials == old(materials)
      {
        var _ := LoadNode(d, rank, n);
      }
      LoadTextures(d);
      LoadMaterials(d);
    }
  }
}
