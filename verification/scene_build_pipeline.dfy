/** The records that flow through the scene build: imported meshes, materials and instances, and the built scene.
    Positions, normals, UVs and transforms are copied, never computed, so their components are plain reals. */
module SceneBuildPipeline {
  import opened BasicTypes

  datatype Float2 = Float2(x: real, y: real)
  datatype Float3 = Float3(x: real, y: real, z: real)
  datatype Float4 = Float4(x: real, y: real, z: real, w: real)

  function Sub3(a: Float3, b: Float3): Float3 { Float3(a.x - b.x, a.y - b.y, a.z - b.z) }
  function Scale3(s: real, a: Float3): Float3 { Float3(s * a.x, s * a.y, s * a.z) }
  function Dot(a: Float3, b: Float3): real { a.x * b.x + a.y * b.y + a.z * b.z }
  function Cross(a: Float3, b: Float3): Float3
  {
    Float3(a.y * b.z - a.z * b.y, a.z * b.x - a.x * b.z, a.x * b.y - a.y * b.x)
  }

  /** A 4x4 transform. Product(a, b) stands for MatrixMultiply(a, b); the product's arithmetic is not modelled. */
  datatype Float4x4 = Matrix(rows: seq<Float4>) | Product(left: Float4x4, right: Float4x4)

  function Identity(): Float4x4
  {
    Matrix([Float4(1.0, 0.0, 0.0, 0.0), Float4(0.0, 1.0, 0.0, 0.0), Float4(0.0, 0.0, 1.0, 0.0), Float4(0.0, 0.0, 0.0, 1.0)])
  }

  datatype CameraSettings = CameraSettings(position: Float3, lookAt: Float3, up: Float3, fov: real, znear: real, zfar: real)

  function ZeroCamera(): CameraSettings
  {
    CameraSettings(Float3(0.0, 0.0, 0.0), Float3(0.0, 0.0, 0.0), Float3(0.0, 0.0, 0.0), 0.0, 0.0, 0.0)
  }

  // -- Material properties, in the order of the attribute table of the material importer

  const MaterialPropertyCount: nat := 13
  const SpecTrans: nat := 8
  const DiffuseTrans: nat := 9
  const Displacement: nat := 12

  datatype MaterialShader = DisneyThin | DisneySolid | TransparentGgx

  datatype MaterialFlag = Transparent | AlphaTested | DisplacementEnabled | InvertDisplacement | UsesPtex

  /** A built material. Texture indices are positions in BuiltScene.textures, or InvalidIndex32 for "no texture". */
  datatype Material = Material(
    shader: MaterialShader,
    flags: set<MaterialFlag>,
    baseColor: Float3,
    baseColorTextureIndex: nat,
    normalTextureIndex: nat,
    scalarAttributeValues: seq<real>,
    scalarAttributeTextureIndices: seq<nat>)

  /** Material(): no flags, no textures, zero-initialised values and shader. */
  function DefaultMaterial(): (m: Material)
    ensures |m.scalarAttributeValues| == |m.scalarAttributeTextureIndices| == MaterialPropertyCount
    ensures forall k :: 0 <= k < MaterialPropertyCount ==> m.scalarAttributeTextureIndices[k] == InvalidIndex32
  {
    Material(DisneyThin, {}, Float3(0.0, 0.0, 0.0), InvalidIndex32, InvalidIndex32,
             seq(MaterialPropertyCount, _ => 0.0), seq(MaterialPropertyCount, _ => InvalidIndex32))
  }

  datatype ImportedMaterialData = ImportedMaterialData(
    shaderName: string,
    normalTexture: string,
    baseColorTexture: string,
    baseColorFolder: string,
    baseColor: Float3,
    scalarAttributeTextures: seq<string>,
    scalarAttributes: seq<real>,
    alphaTested: bool,
    invertDisplacement: bool,
    usesPtex: bool)

  /** The two per-property arrays have one slot per material property. */
  predicate MaterialDataShaped(d: ImportedMaterialData)
  {
    |d.scalarAttributeTextures| == MaterialPropertyCount && |d.scalarAttributes| == MaterialPropertyCount
  }

  datatype ImportedMesh = ImportedMesh(
    positions: seq<Float3>,
    normals: seq<Float3>,
    uv0: seq<Float2>,
    tangents: seq<Float3>,
    bitangents: seq<Float3>,
    triindices: seq<uint32>,
    quadindices: seq<uint32>,
    materialHash: Hash32,
    meshNameHash: Hash32)

  datatype ModelInstance = ModelInstance(transform: Float4x4, materialHash: Hash32, meshIdx: uint32)

  /** One merged index/vertex range. Offsets are into the global buffers of the built scene. */
  datatype MeshMetaData = MeshMetaData(
    indexCount: uint32,
    indexOffset: uint32,
    vertexCount: uint32,
    vertexOffset: uint32,
    materialHash: Hash32,
    indicesPerFace: uint32)

  /** The import stage's output, which the Disney processor fills in place. */
  class ImportedModel {
    var modelFiles: seq<string>
    var meshes: seq<ImportedMesh>
    var materials: seq<string>
    var materialHashes: seq<Hash32>
    var loadedMaterials: seq<ImportedMaterialData>
    var loadedMaterialHashes: seq<Hash32>
    var instances: seq<ModelInstance>
    var camera: CameraSettings

    constructor ()
      ensures modelFiles == [] && meshes == [] && materials == [] && materialHashes == []
      ensures loadedMaterials == [] && loadedMaterialHashes == [] && instances == []
    {
      modelFiles, meshes, materials, materialHashes := [], [], [], [];
      loadedMaterials, loadedMaterialHashes, instances := [], [], [];
      camera := ZeroCamera();
    }
  }

  /** The aggregate scene the build produces. The bounding box and sphere are not modelled. */
  class BuiltScene {
    var models: seq<string>
    var instances: seq<ModelInstance>
    var camera: CameraSettings
    var backgroundIntensity: Float3
    var textures: seq<string>
    var materialHashes: seq<Hash32>
    var materials: seq<Material>
    var meshes: seq<MeshMetaData>
    var indices: seq<uint32>
    var faceIndexCounts: seq<uint32>
    var positions: seq<Float3>
    var normals: seq<Float3>
    var tangents: seq<Float4>
    var uvs: seq<Float2>

    constructor ()
      ensures models == [] && instances == [] && textures == [] && materialHashes == [] && materials == []
      ensures meshes == [] && indices == [] && faceIndexCounts == []
      ensures positions == [] && normals == [] && tangents == [] && uvs == []
    {
      models, instances, textures, materialHashes, materials := [], [], [], [], [];
      meshes, indices, faceIndexCounts := [], [], [];
      positions, normals, tangents, uvs := [], [], [], [];
      camera := ZeroCamera();
      backgroundIntensity := Float3(0.0, 0.0, 0.0);
    }
  }
}
