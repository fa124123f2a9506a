/** The scene build of the offline tools, the older aggregation variant: one mesh table entry per imported mesh,
    one auxiliary record per vertex, and a material import that stops at the first failure. */
module ToolsBuildScene {
  import opened BasicTypes
  import opened SceneBuildPipeline
  import Core = BuildScene

  // =================================================================================================================
  // Data model

  /** An imported mesh of the tools pipeline: one index list and one material index for the whole mesh. */
  datatype ToolsMesh = ToolsMesh(
    positions: seq<Float3>,
    normals: seq<Float3>,
    uv0: seq<Float2>,
    indices: seq<uint32>,
    materialIndex: uint32)

  /** One mesh table entry. Offsets are into the global index and vertex buffers. */
  datatype BuiltMeshData = BuiltMeshData(indexCount: uint32, indexOffset: uint32, vertexCount: uint32, vertexOffset: uint32)

  /** The per-vertex record: position, normal and uv components, and the mesh's material index. */
  datatype VertexAuxiliaryData = VertexAuxiliaryData(
    px: real, py: real, pz: real,
    nx: real, ny: real, nz: real,
    u: real, v: real,
    materialIndex: uint32)

  /** The counts fit the 32-bit fields they are stored in, and every vertex has a normal and a uv. */
  predicate MeshFits(m: ToolsMesh)
  {
    && |m.positions| < UINT32_LIMIT && |m.indices| < UINT32_LIMIT
    && |m.normals| >= |m.positions| && |m.uv0| >= |m.positions|
  }

  predicate AllMeshesFit(ms: seq<ToolsMesh>)
  {
    forall k :: 0 <= k < |ms| ==> MeshFits(ms[k])
  }

  class ToolsImportedScene {
    var meshes: seq<ToolsMesh>
    var materials: seq<string>
    var camera: CameraSettings

    constructor ()
      ensures meshes == [] && materials == []
    {
      meshes, materials := [], [];
      camera := ZeroCamera();
    }
  }

  class ToolsBuiltScene {
    var meshes: seq<BuiltMeshData>
    var indices: seq<uint32>
    var positions: seq<Float3>
    var vertexData: seq<VertexAuxiliaryData>
    var materialData: seq<ImportedMaterialData>
    var camera: CameraSettings

    constructor ()
      ensures meshes == [] && indices == [] && positions == [] && vertexData == [] && materialData == []
    {
      meshes, indices, positions, vertexData, materialData := [], [], [], [], [];
      camera := ZeroCamera();
    }
  }

  // =================================================================================================================
  // The merged geometry, as a function of the meshes

  /** The auxiliary record of vertex i of a mesh. */
  function VertexRecord(m: ToolsMesh, i: nat): VertexAuxiliaryData
    requires i < |m.positions| && i < |m.normals| && i < |m.uv0|
  {
    var p, n, uv := m.positions[i], m.normals[i], m.uv0[i];
    VertexAuxiliaryData(p.x, p.y, p.z, n.x, n.y, n.z, uv.x, uv.y, m.materialIndex)
  }

  /** The records of the first count vertices of a mesh. */
  function VertexRecords(m: ToolsMesh, count: nat): (r: seq<VertexAuxiliaryData>)
    requires count <= |m.positions| && count <= |m.normals| && count <= |m.uv0|
    ensures |r| == count && forall i :: 0 <= i < count ==> r[i] == VertexRecord(m, i)
  {
    if count == 0 then [] else VertexRecords(m, count - 1) + [VertexRecord(m, count - 1)]
  }

  /** The part of the built scene that BuildMeshes appends to. */
  datatype ToolsGeometry = ToolsGeometry(
    meshes: seq<BuiltMeshData>,
    indices: seq<uint32>,
    positions: seq<Float3>,
    vertexData: seq<VertexAuxiliaryData>)

  const EmptyGeometry: ToolsGeometry := ToolsGeometry([], [], [], [])

  function Concat(g: ToolsGeometry, h: ToolsGeometry): ToolsGeometry
  {
    ToolsGeometry(g.meshes + h.meshes, g.indices + h.indices, g.positions + h.positions, g.vertexData + h.vertexData)
  }

  lemma ConcatAssociative(a: ToolsGeometry, b: ToolsGeometry, c: ToolsGeometry)
    ensures Concat(Concat(a, b), c) == Concat(a, Concat(b, c))
  {
    assert (a.meshes + b.meshes) + c.meshes == a.meshes + (b.meshes + c.meshes);
    assert (a.indices + b.indices) + c.indices == a.indices + (b.indices + c.indices);
    assert (a.positions + b.positions) + c.positions == a.positions + (b.positions + c.positions);
    assert (a.vertexData + b.vertexData) + c.vertexData == a.vertexData + (b.vertexData + c.vertexData);
  }

  /** What one mesh adds: its entry, its indices shifted by the vertex offset, its positions and its records. */
  function MeshGeometry(m: ToolsMesh, indexOffset: uint32, vertexOffset: uint32): ToolsGeometry
    requires MeshFits(m)
  {
    ToolsGeometry(
      [BuiltMeshData(|m.indices|, indexOffset, |m.positions|, vertexOffset)],
      Core.OffsetIndices(m.indices, vertexOffset),
      m.positions,
      VertexRecords(m, |m.positions|))
  }

  /** totalVertexCount after the meshes, in uint32 arithmetic. */
  function VertexOffset(ms: seq<ToolsMesh>): uint32
    requires AllMeshesFit(ms)
  {
    if ms == [] then 0 else AddU32(VertexOffset(ms[..|ms| - 1]), |ms[|ms| - 1].positions|)
  }

  /** totalIndexCount after the meshes, in uint32 arithmetic. */
  function IndexOffset(ms: seq<ToolsMesh>): uint32
    requires AllMeshesFit(ms)
  {
    if ms == [] then 0 else AddU32(IndexOffset(ms[..|ms| - 1]), |ms[|ms| - 1].indices|)
  }

  /** The vertex count over all meshes, unbounded. */
  function VertexTotal(ms: seq<ToolsMesh>): nat
  {
    if ms == [] then 0 else VertexTotal(ms[..|ms| - 1]) + |ms[|ms| - 1].positions|
  }

  /** The index count over all meshes, unbounded. */
  function IndexTotal(ms: seq<ToolsMesh>): nat
  {
    if ms == [] then 0 else IndexTotal(ms[..|ms| - 1]) + |ms[|ms| - 1].indices|
  }

  /** Everything BuildMeshes appends for the meshes, in order. */
  function Merge(ms: seq<ToolsMesh>): ToolsGeometry
    requires AllMeshesFit(ms)
  {
    if ms == [] then EmptyGeometry
    else
      var init := ms[..|ms| - 1];
      Concat(Merge(init), MeshGeometry(ms[|ms| - 1], IndexOffset(init), VertexOffset(init)))
  }

  // -- Properties of the merged geometry

  /** One entry per mesh, one index per mesh index, and one position and one record per vertex. */
  lemma {:induction false} MergeSizes(ms: seq<ToolsMesh>)
    requires AllMeshesFit(ms)
    ensures var g := Merge(ms);
            && |g.meshes| == |ms|
            && |g.indices| == IndexTotal(ms)
            && |g.positions| == |g.vertexData| == VertexTotal(ms)
  {
    if ms != [] {
      MergeSizes(ms[..|ms| - 1]);
    }
  }

  /** The running uint32 counters are the totals modulo 2^32. */
  lemma {:induction false} OffsetsAreTotals(ms: seq<ToolsMesh>)
    requires AllMeshesFit(ms)
    ensures IndexOffset(ms) == IndexTotal(ms) % UINT32_LIMIT
    ensures VertexOffset(ms) == VertexTotal(ms) % UINT32_LIMIT
  {
    if ms != [] {
      var init, m := ms[..|ms| - 1], ms[|ms| - 1];
      OffsetsAreTotals(init);
      ModAdd(IndexTotal(init), |m.indices|);
      ModAdd(VertexTotal(init), |m.positions|);
    }
  }

  lemma ModAdd(a: nat, b: nat)
    ensures (a % UINT32_LIMIT + b) % UINT32_LIMIT == (a + b) % UINT32_LIMIT
  {
    var q := a / UINT32_LIMIT;
    assert a == q * UINT32_LIMIT + a % UINT32_LIMIT;
  }

  /** Entry k describes mesh k: its index and vertex counts, and as offsets the running totals of the meshes before
      it. */
  lemma {:induction false} EntryIsRunningTotals(ms: seq<ToolsMesh>, k: nat)
    requires AllMeshesFit(ms) && k < |ms|
    ensures k < |Merge(ms).meshes|
    ensures Merge(ms).meshes[k]
            == BuiltMeshData(|ms[k].indices|, IndexOffset(ms[..k]), |ms[k].positions|, VertexOffset(ms[..k]))
  {
    var init := ms[..|ms| - 1];
    MergeSizes(init);
    if k < |ms| - 1 {
      EntryIsRunningTotals(init, k);
      assert init[..k] == ms[..k];
    } else {
      assert init == ms[..k];
    }
  }

  /** Index i of mesh k lands at the index total of the meshes before it, shifted by their vertex count. */
  lemma {:induction false} IndexOfMesh(ms: seq<ToolsMesh>, k: nat, i: nat)
    requires AllMeshesFit(ms) && k < |ms| && i < |ms[k].indices|
    ensures IndexTotal(ms[..k]) + i < |Merge(ms).indices|
    ensures Merge(ms).indices[IndexTotal(ms[..k]) + i] == AddU32(ms[k].indices[i], VertexOffset(ms[..k]))
  {
    var init := ms[..|ms| - 1];
    MergeSizes(init);
    if k < |ms| - 1 {
      IndexOfMesh(init, k, i);
      assert init[..k] == ms[..k];
    } else {
      assert init == ms[..k];
    }
  }

  /** Vertex i of mesh k lands at the vertex total of the meshes before it, as its position and as its record. */
  lemma {:induction false} VertexOfMesh(ms: seq<ToolsMesh>, k: nat, i: nat)
    requires AllMeshesFit(ms) && k < |ms| && i < |ms[k].positions|
    ensures VertexTotal(ms[..k]) + i < |Merge(ms).positions| == |Merge(ms).vertexData|
    ensures Merge(ms).positions[VertexTotal(ms[..k]) + i] == ms[k].positions[i]
    ensures Merge(ms).vertexData[VertexTotal(ms[..k]) + i] == VertexRecord(ms[k], i)
  {
    var init := ms[..|ms| - 1];
    MergeSizes(init);
    MergeSizes(ms);
    if k < |ms| - 1 {
      VertexOfMesh(init, k, i);
      assert init[..k] == ms[..k];
    } else {
      assert init == ms[..k];
    }
  }

  // =================================================================================================================
  // The build

  /** The merged geometry the built scene currently holds. */
  function Snapshot(built: ToolsBuiltScene): ToolsGeometry
    reads built`meshes, built`indices, built`positions, built`vertexData
  {
    ToolsGeometry(built.meshes, built.indices, built.positions, built.vertexData)
  }

  /** AppendAndOffsetIndices: appends each index of the addend plus offset, in uint32 arithmetic. */
  method AppendAndOffsetIndices(addend: seq<uint32>, offset: uint32, built: ToolsBuiltScene)
    modifies built`indices
    ensures built.indices == old(built.indices) + Core.OffsetIndices(addend, offset)
  {
    for scan := 0 to |addend|
      invariant built.indices == old(built.indices) + Core.OffsetIndices(addend[..scan], offset)
    {
      assert Core.OffsetIndices(addend[..scan + 1], offset)
             == Core.OffsetIndices(addend[..scan], offset) + [AddU32(addend[scan], offset)];
      built.indices := built.indices + [AddU32(addend[scan], offset)];
    }
    assert addend[..|addend|] == addend;
  }

  /** The per-vertex loop of BuildMeshes: one auxiliary record per vertex. */
  method AppendVertexData(built: ToolsBuiltScene, mesh: ToolsMesh)
    requires MeshFits(mesh)
    modifies built`vertexData
    ensures built.vertexData == old(built.vertexData) + VertexRecords(mesh, |mesh.positions|)
  {
    var vertexCount: uint32 := |mesh.positions|;
    for i := 0 to vertexCount
      invariant built.vertexData == old(built.vertexData) + VertexRecords(mesh, i)
    {
      var vertexData := VertexAuxiliaryData(
        mesh.positions[i].x, mesh.positions[i].y, mesh.positions[i].z,
        mesh.normals[i].x, mesh.normals[i].y, mesh.normals[i].z,
        mesh.uv0[i].x, mesh.uv0[i].y,
        mesh.materialIndex);
      built.vertexData := built.vertexData + [vertexData];
    }
  }

  /** The body of the BuildMeshes loop for one mesh. */
  method AppendMesh(built: ToolsBuiltScene, mesh: ToolsMesh, totalIndexCount: uint32, totalVertexCount: uint32)
    requires MeshFits(mesh)
    modifies built`meshes, built`indices, built`positions, built`vertexData
    ensures Snapshot(built) == Concat(old(Snapshot(built)), MeshGeometry(mesh, totalIndexCount, totalVertexCount))
  {
    var meshData := BuiltMeshData(|mesh.indices|, totalIndexCount, |mesh.positions|, totalVertexCount);
    built.meshes := built.meshes + [meshData];
    AppendAndOffsetIndices(mesh.indices, totalVertexCount, built);
    built.positions := built.positions + mesh.positions;
    AppendVertexData(built, mesh);
  }

  /** BuildMeshes: appends, mesh by mesh, its entry with the running totals as offsets, its shifted indices, its
      positions and its vertex records. */
  method BuildMeshes(imported: ToolsImportedScene, built: ToolsBuiltScene)
    requires AllMeshesFit(imported.meshes)
    modifies built`meshes, built`indices, built`positions, built`vertexData
    ensures Snapshot(built) == Concat(old(Snapshot(built)), Merge(imported.meshes))
  {
    var meshes := imported.meshes;
    var totalIndexCount: uint32 := 0;
    var totalVertexCount: uint32 := 0;
    for scan := 0 to |meshes|
      invariant Snapshot(built) == Concat(old(Snapshot(built)), Merge(meshes[..scan]))
      invariant totalIndexCount == IndexOffset(meshes[..scan]) && totalVertexCount == VertexOffset(meshes[..scan])
    {
      var mesh := meshes[scan];
      ghost var done := Merge(meshes[..scan]);
      ghost var added := MeshGeometry(mesh, totalIndexCount, totalVertexCount);
      assert meshes[..scan + 1][..scan] == meshes[..scan];
      assert Merge(meshes[..scan + 1]) == Concat(done, added);
      AppendMesh(built, mesh, totalIndexCount, totalVertexCount);
      totalIndexCount := AddU32(totalIndexCount, |mesh.indices|);
      totalVertexCount := AddU32(totalVertexCount, |mesh.positions|);
      ConcatAssociative(old(Snapshot(built)), done, added);
    }
    assert meshes[..|meshes|] == meshes;
  }

  // -- Materials

  /** A default-constructed material slot, as Resize leaves it. */
  function EmptyMaterialData(): ImportedMaterialData
  {
    ImportedMaterialData("", "", "", "", Float3(0.0, 0.0, 0.0), [], [], false, false, false)
  }

  /** The position of the first failed import, None when every import succeeded. */
  function FirstFailure(importResults: seq<Option<ImportedMaterialData>>): (r: Option<nat>)
    ensures r.None? <==> forall k :: 0 <= k < |importResults| ==> importResults[k].Some?
    ensures r.Some? ==> r.value < |importResults| && importResults[r.value].None?
                        && forall k :: 0 <= k < r.value ==> importResults[k].Some?
  {
    if importResults == [] then None
    else match FirstFailure(importResults[..|importResults| - 1])
      case Some(k) => Some(k)
      case None => if importResults[|importResults| - 1].None? then Some(|importResults| - 1) else None
  }

  /** CArray::Resize: the slots kept up to the new count, and default-constructed slots beyond the old length. */
  function Resized(slots: seq<ImportedMaterialData>, count: nat): (r: seq<ImportedMaterialData>)
    ensures |r| == count
    ensures forall k :: 0 <= k < count && k < |slots| ==> r[k] == slots[k]
    ensures forall k :: |slots| <= k < count ==> r[k] == EmptyMaterialData()
  {
    if count <= |slots| then slots[..count] else slots + seq(count - |slots|, _ => EmptyMaterialData())
  }

  /** The material slots after BuildMaterials: the imported data up to the first failure, and from there on the
      slots as Resize left them. */
  function MaterialSlots(before: seq<ImportedMaterialData>, importResults: seq<Option<ImportedMaterialData>>)
    : (r: seq<ImportedMaterialData>)
    ensures |r| == |importResults|
  {
    var stop := match FirstFailure(importResults) case Some(k) => k case None => |importResults|;
    var resized := Resized(before, |importResults|);
    seq(|importResults|, k requires 0 <= k < |importResults| =>
      if k < stop then importResults[k].value else resized[k])
  }

  /** Slot k holds material k's data when material k and every material before it imported. Otherwise it is the
      slot that was there before, when there was one, and a default slot when Resize added it. */
  lemma MaterialSlotsFilled(before: seq<ImportedMaterialData>, importResults: seq<Option<ImportedMaterialData>>, k: nat)
    requires k < |importResults|
    ensures (forall j :: 0 <= j <= k ==> importResults[j].Some?) ==>
              MaterialSlots(before, importResults)[k] == importResults[k].value
    ensures !(forall j :: 0 <= j <= k ==> importResults[j].Some?) ==>
              MaterialSlots(before, importResults)[k] == if k < |before| then before[k] else EmptyMaterialData()
  {
    var f := FirstFailure(importResults);
    if f.Some? && f.value <= k {
      assert importResults[f.value].None?;
    }
  }

  /** BuildMaterials: sizes the slots to the material count, then imports material by material (importResults[k] is
      what importing the k-th material gave, None on failure) and returns false at the first failure. */
  method BuildMaterials(imported: ToolsImportedScene, importResults: seq<Option<ImportedMaterialData>>,
                        built: ToolsBuiltScene)
    returns (ok: bool)
    requires |importResults| == |imported.materials|
    modifies built`materialData
    ensures ok <==> FirstFailure(importResults).None?
    ensures built.materialData == MaterialSlots(old(built.materialData), importResults)
  {
    var count := |imported.materials|;
    var resized := Resized(built.materialData, count);
    built.materialData := resized;
    for scan := 0 to count
      invariant |built.materialData| == count
      invariant FirstFailure(importResults[..scan]).None?
      invariant forall k :: 0 <= k < count ==>
                  built.materialData[k] == if k < scan then importResults[k].value else resized[k]
    {
      assert importResults[..scan + 1][..scan] == importResults[..scan];
      match importResults[scan]
      case None =>
        PrefixFailure(importResults, scan);
        ok := false;
        return;
      case Some(materialData) =>
        built.materialData := built.materialData[scan := materialData];
    }
    assert importResults[..count] == importResults;
    ok := true;
  }

  /** A failure at scan after a clean prefix is the first failure. */
  lemma PrefixFailure(importResults: seq<Option<ImportedMaterialData>>, scan: nat)
    requires scan < |importResults| && importResults[scan].None?
    requires FirstFailure(importResults[..scan]).None?
    ensures FirstFailure(importResults) == Some(scan)
  {
    assert forall k :: 0 <= k < scan ==> importResults[..scan][k].Some?;
  }

  /** BuildScene: imports the materials; on a failure returns false before any mesh is built, otherwise merges the
      meshes and copies the camera. */
  method BuildScene(imported: ToolsImportedScene, importResults: seq<Option<ImportedMaterialData>>,
                    built: ToolsBuiltScene)
    returns (ok: bool)
    requires |importResults| == |imported.materials|
    requires AllMeshesFit(imported.meshes)
    modifies built`materialData, built`meshes, built`indices, built`positions, built`vertexData, built`camera
    ensures ok <==> forall k :: 0 <= k < |importResults| ==> importResults[k].Some?
    ensures built.materialData == MaterialSlots(old(built.materialData), importResults)
    ensures ok ==> Snapshot(built) == Concat(old(Snapshot(built)), Merge(imported.meshes)) && built.camera == imported.camera
    ensures !ok ==> Snapshot(built) == old(Snapshot(built)) && built.camera == old(built.camera)
  {
    ok := BuildMaterials(imported, importResults, built);
    if !ok {
      return;
    }
    BuildMeshes(imported, built);
    built.camera := imported.camera;
  }
}
