# Selas offline scene build, modelled in Dafny

This project models the core of the offline scene-build pipeline of the Selas renderer. It has five parts, one
Dafny module for each.

- **BinarySerializer** (`binary_serializer.dfy`) models the relocatable binary format.
  - A `BinaryWriter` keeps a raw segment, a pointer-data segment and a list of pending 8-byte pointer slots.
  - Finishing patches every slot with `rawLength + pointerDataOffset` in host (little-endian) uint64 layout, and
    then emits the raw segment followed by the pointer data.
  - A `BinaryReader` is a bounds-checked cursor with a copying `Read` and a zero-copy `Attach`.
  - The main results:
    - every finished slot addresses exactly the pointer data written after it was reserved;
    - raw bytes outside slots survive the fixup;
    - one slot written, finished and attached back resolves to its payload.
- **BuildScene** (`build_scene.dfy`) models the scene aggregation of the renderer's build library.
  - Shader names are resolved case-insensitively, with DisneySolid as the fallback.
  - Texture paths are de-duplicated case-insensitively; the first match wins.
  - Material flags are derived from the imported data; failed imports are skipped; the (hash, material) pairs are
    sorted by hash.
  - Every mesh is merged into global index and vertex buffers:
    - running uint32 offsets;
    - a triangle entry and a quad entry per mesh;
    - a per-face index-count list;
    - tangent frames.
  - The mesh-table lemmas prove two things: the entries tile the index buffer, and each entry addresses only its
    own mesh's vertices.
- **ToolsBuildScene** (`tools_build_scene.dfy`) models the older aggregation variant of the offline tools.
  - It makes one mesh entry per mesh, whose offsets are the running totals.
  - It makes one auxiliary record per vertex.
  - Its material import stops at the first failure, and then no mesh is built.
- **DisneySceneBuildProcessor** (`disney_scene_build_processor.dfy`) models the Disney scene processor.
  - The content root is the source name up to its last `~`.
  - The scene, element and instanced-primitives files are parsed into obj file and instance lists. Documents are
    abstract values.
  - Each element is added to the imported model by fanning out copies × mesh descriptions × instances, with every
    mesh index moved past the model files that were there before.
- **ImportanceSampling** (`importance_sampling.dfy`) models sampling of tabulated distributions.
  - The binary search of a cumulative distribution function is proved to return the first entry at least the
    key, together with its pdf.
  - The marginal and conditional table sizes are modelled.
  - The row that the image-based-light sampler searches is proved to lie inside the conditional table.

The modules that support these parts are:
- `BasicTypes`: the unsigned integer widths, uint32 addition with wrap-around, Option and Error.
- `StringUtil`: case-insensitive ASCII equality and last-character search.
- `SceneBuildPipeline`: the imported and built scene records.
- `QuickSort`: joint sorting of hashes and materials, given by its contract.

How the source is represented:
- Growable arrays that the source mutates are `seq` fields of classes, which methods with `modifies` clauses
  update.
- Each loop is a `while` or `for` loop with invariants, proved against a specification function.
- uint32 counters wrap explicitly (`AddU32`, `% 2^32`).
- Positions, normals, uvs and transforms are real-valued records that are copied, never computed.
- A matrix product is the symbolic `Product`.

## Model

| member | source | states |
|---|---|---|
| BinarySerializer.LittleEndianRoundTrip | Source/Core/IoLib/BinarySerializer.cpp:86-87 | Decoding the n low-order little-endian bytes of a value below 256^n gives the value back, so a stored uint64 reads back as itself |
| BinarySerializer.EncodeUInt64 | Source/Core/IoLib/BinarySerializer.cpp:86-87 | The host store of a uint64 is 8 bytes that decode to the stored value |
| BinarySerializer.PatchedSlotHoldsOffset | Source/Core/IoLib/BinarySerializer.cpp:82-88 | After the fixup loop, each slot's 8 bytes hold that slot's own `base + pointerDataOffset`: slots are disjoint and in order, so no later patch overwrites an earlier one |
| BinarySerializer.PatchLeavesOtherBytes | Source/Core/IoLib/BinarySerializer.cpp:82-88 | The fixup loop leaves every raw byte outside all slots unchanged |
| BinarySerializer.Finish | Source/Core/IoLib/BinarySerializer.cpp:78-95 | The finished output is as long as raw plus pointer data and ends with the pointer data |
| BinarySerializer.FinishedSlotAddressesPayload | Source/Core/IoLib/BinarySerializer.cpp:82-95 | The offset read back from slot i of the finished output is `rawLength + pointerDataOffset`, lies within the output, and the bytes from there on are exactly the pointer data written after slot i was reserved |
| BinarySerializer.FinishKeepsRawBytes | Source/Core/IoLib/BinarySerializer.cpp:82-94 | Every raw byte outside the slots is at its own position in the finished output |
| BinarySerializer.BinaryWriter.Start | Source/Core/IoLib/BinarySerializer.cpp:14-29 | Empties the raw data, the slot list and the pointer data; the reservation sizes have no visible effect |
| BinarySerializer.BinaryWriter.Write | Source/Core/IoLib/BinarySerializer.cpp:101-109 | Appends exactly the given bytes, in order, to the raw data; only the raw data changes, and the slot invariant is kept |
| BinarySerializer.BinaryWriter.WritePointerData | Source/Core/IoLib/BinarySerializer.cpp:112-120 | Appends exactly the given bytes, in order, to the pointer data; only the pointer data changes |
| BinarySerializer.BinaryWriter.WritePointerOffsetX64 | Source/Core/IoLib/BinarySerializer.cpp:123-134 | Records a slot at the old raw length whose payload starts at the current pointer-data length, then appends 8 zero bytes; every slot stays inside the raw data, in order and not beyond the pointer data |
| BinarySerializer.BinaryWriter.FixupPointers | Source/Core/IoLib/BinarySerializer.cpp:82-88 | The fixup loop leaves the raw data equal to the slots patched in order with `rawLength + pointerDataOffset` |
| BinarySerializer.BinaryWriter.EndToBuffer | Source/Core/IoLib/BinarySerializer.cpp:72-98 | The raw data is patched in place as FixupPointers states. The returned buffer is the patched raw data followed by the pointer data, and the size is their total |
| BinarySerializer.BinaryWriter.EndToFile | Source/Core/IoLib/BinarySerializer.cpp:32-69 | A file that fails to open is an error with nothing written or patched. Otherwise the raw data is patched in place as FixupPointers states, the written stream is the finished output and the result is success exactly when the close succeeds; the source asserts a non-zero output size, so an opened file requires one |
| BinarySerializer.BinaryReader.Start | Source/Core/IoLib/BinarySerializer.cpp:137-144 | Binds the cursor to the buffer and size, at offset 0 |
| BinarySerializer.BinaryReader.End | Source/Core/IoLib/BinarySerializer.cpp:147-152 | Resets the data, size and offset |
| BinarySerializer.BinaryReader.Read | Source/Core/IoLib/BinarySerializer.cpp:155-164 | Only within the bound `offset + n <= size`, returns the bytes `[offset, offset + n)` and advances the offset by n |
| BinarySerializer.BinaryReader.Attach | Source/Core/IoLib/BinarySerializer.cpp:167-176 | Checks the same bound and advances the same way, copying nothing; the result is the old offset, and the attached range lies within the buffer |
| BinarySerializer.SlotRoundTrip | Source/Core/IoLib/BinarySerializer.cpp:123-176 | Writing one slot and its payload, finishing to memory, loading the buffer and attaching the slot gives an offset that resolves to exactly the payload |
| StringUtil.FindLastChar | Source/Core/BuildCommon/CDisneySceneBuildProcessor.cpp:59 | None exactly when the character does not occur; otherwise a position holding it with no occurrence after it |
| QuickSort.SortByKey | Source/Core/BuildCommon/BuildScene.cpp:230 | The (hash, material) pairs are sorted by ascending hash and are a permutation of the input pairs, so each hash stays with its material |
| BuildScene.ShaderOfMatches | Source/Core/BuildCommon/BuildScene.cpp:23-38 | A name equal, ignoring case, to one of DisneyThin, DisneySolid or TransparentGGX selects that shader; any other name selects DisneySolid |
| BuildScene.DetermineShaderType | Source/Core/BuildCommon/BuildScene.cpp:23-38 | The scan loop returns the shader that the name selects |
| BuildScene.FindIgnoreCase | Source/Core/BuildCommon/BuildScene.cpp:159-170 | Returns the first position equal to the path ignoring case, or None exactly when no entry is |
| BuildScene.TextureAdded | Source/Core/BuildCommon/BuildScene.cpp:159-170 | The index names an entry equal to the path ignoring case. The list is unchanged and the index is the first match when some entry matches. Otherwise the path is appended and the index is the old length. The list grows exactly when nothing matched |
| BuildScene.TextureAddedKeepsUnique | Source/Core/BuildCommon/BuildScene.cpp:159-170 | Adding a texture never introduces a case-insensitive duplicate |
| BuildScene.AddTexture | Source/Core/BuildCommon/BuildScene.cpp:159-170 | The scan-and-append loop leaves the texture list and returns the index that TextureAdded describes |
| BuildScene.ResolveTexture | Source/Core/BuildCommon/BuildScene.cpp:201-206 | The texture list only grows, by at most the name. An empty name leaves the sentinel and the list unchanged. Any other name gets the position of a texture equal to it ignoring case; when the list grew, the name was appended and its index is the old length |
| BuildScene.ResolveTextureFacts | Source/Core/BuildCommon/BuildScene.cpp:201-206 | Resolving a name only appends, by at most one entry, keeps the list free of duplicates, yields the sentinel exactly for the empty name, and otherwise yields a matching texture's position |
| BuildScene.ResolveAttributeTexturesGrow | Source/Core/BuildCommon/BuildScene.cpp:208-215 | Resolving the property textures only appends, by at most one entry per property, and keeps the list free of duplicates |
| BuildScene.ResolveAttributeTexturesIndices | Source/Core/BuildCommon/BuildScene.cpp:208-215 | Each property texture index is the sentinel exactly when its name is empty, and otherwise the position of a texture equal to the name ignoring case |
| BuildScene.ConvertMaterialFlags | Source/Core/BuildCommon/BuildScene.cpp:193-227 | The converted material has the imported values. Alpha testing and inverted displacement come from the data. Displacement is enabled exactly when a displacement texture is bound. It is transparent exactly for TransparentGGX, or DisneySolid with positive diffuse or specular transmission. Ptex is never set |
| BuildScene.ConvertMaterialTextures | Source/Core/BuildCommon/BuildScene.cpp:201-215 | Converting one material only appends to the texture list, by at most 2 + 13 entries, and keeps it free of duplicates |
| BuildScene.ConvertMaterialIndices | Source/Core/BuildCommon/BuildScene.cpp:201-227 | A converted material has no dangling texture index, and enables displacement exactly when a displacement texture is named |
| BuildScene.BuildScalarAttributes | Source/Core/BuildCommon/BuildScene.cpp:208-215 | The property loop copies every value and stores each property texture index as resolved in property order |
| BuildScene.AddMaterialTextures | Source/Core/BuildCommon/BuildScene.cpp:201-206 | The base color texture and then the normal texture are resolved, and their indices stored |
| BuildScene.AddDerivedFlags | Source/Core/BuildCommon/BuildScene.cpp:217-227 | Adds DisplacementEnabled when the displacement index is valid, and Transparent under the shader/transmission rule; no other field changes |
| BuildScene.BuildMaterial | Source/Core/BuildCommon/BuildScene.cpp:189-227 | The body of the import loop leaves the material and the texture list that ConvertMaterial describes |
| BuildScene.ImportAllPairsMatchImports | Source/Core/BuildCommon/BuildScene.cpp:176-191 | The j-th appended pair carries the hash of the j-th successful import, next to the material built from it; hashes and materials stay equal in length and parallel |
| BuildScene.FailedImportSkipped | Source/Core/BuildCommon/BuildScene.cpp:181-185 | A failed import contributes nothing: neither the pairs nor the texture list change |
| BuildScene.ImportAllTexturesConsistent | Source/Core/BuildCommon/BuildScene.cpp:176-228 | Importing only appends textures, never introduces a duplicate, and leaves no material with a dangling texture index |
| BuildScene.ImportMaterials | Source/Core/BuildCommon/BuildScene.cpp:173-232 | Always succeeds. The new hashes and materials are the old pairs plus one pair per successful import, sorted by hash as a permutation. The texture list is the one the imports leave |
| BuildScene.OffsetIndicesInRange | Source/Core/BuildCommon/BuildScene.cpp:92 | When nothing wraps, a local index below the vertex count becomes a global index in `[offset, offset + vertexCount)` |
| BuildScene.AppendAndOffsetIndices | Source/Core/BuildCommon/BuildScene.cpp:41-47 | Appends the shifted indices to the global index buffer |
| BuildScene.GramSchmidtOrthogonal | Source/Core/BuildCommon/BuildScene.cpp:136 | For a unit normal, the Gram-Schmidt tangent is orthogonal to the normal |
| BuildScene.VertexTangentFacts | Source/Core/BuildCommon/BuildScene.cpp:122-142 | A stored tangent's w is -1 or 1, and its xyz is orthogonal to a unit normal |
| BuildScene.MergeSizes | Source/Core/BuildCommon/BuildScene.cpp:74-146 | The merged buffers hold exactly the total index count, the total vertex count (positions, normals and tangents alike), the total uv count and the total face count |
| BuildScene.OffsetsAreTotals | Source/Core/BuildCommon/BuildScene.cpp:74-146 | The running uint32 index and vertex offsets equal the plain totals while those fit in 32 bits |
| BuildScene.MeshEntriesTile | Source/Core/BuildCommon/BuildScene.cpp:82-117 | One mesh's entries (the triangle entry only if it has triangles, then the quad entry only if it has quads) cover its index range contiguously |
| BuildScene.MeshTableTilesIndices | Source/Core/BuildCommon/BuildScene.cpp:74-146 | The mesh table tiles the whole index buffer in order: each entry's indexOffset is the count emitted before it, and no entry is empty |
| BuildScene.MeshEntriesAddressOwnVertices | Source/Core/BuildCommon/BuildScene.cpp:82-117 | Both entries of a mesh, placed after the earlier buffers, address only the mesh's own vertex range |
| BuildScene.MeshTableAddressesOwnVertices | Source/Core/BuildCommon/BuildScene.cpp:74-146 | If each mesh's indices are below its vertex count and the totals fit, every merged index in an entry's range lies in `[vertexOffset, vertexOffset + vertexCount)` |
| BuildScene.FaceIndexCountsAreTrianglesOrQuads | Source/Core/BuildCommon/BuildScene.cpp:94-114 | Every face index count is 3 or 4 |
| BuildScene.TangentHandednessIsSign | Source/Core/BuildCommon/BuildScene.cpp:139-142 | Every stored tangent has handedness -1 or 1 |
| BuildScene.AppendFaceIndexCounts | Source/Core/BuildCommon/BuildScene.cpp:94-96 | The face loop appends exactly faceCount copies of the index count per face |
| BuildScene.AppendVertexFrames | Source/Core/BuildCommon/BuildScene.cpp:122-143 | The vertex loop appends each vertex's normal and its tangent frame, one per vertex |
| BuildScene.AppendIndexList | Source/Core/BuildCommon/BuildScene.cpp:82-99 | A non-empty list adds an entry with its count, the running index offset, the mesh's vertex range, hash and arity. Its shifted indices and `count / arity` face counts are appended. The index offset advances by the count |
| BuildScene.AppendMesh | Source/Core/BuildCommon/BuildScene.cpp:78-145 | One loop pass appends exactly that mesh's geometry at the current offsets and advances the index offset past both lists |
| BuildScene.BuildMeshes | Source/Core/BuildCommon/BuildScene.cpp:50-156 | The global buffers become the old buffers followed by the merge of every mesh in order, with running offsets |
| BuildScene.FinishScene | Source/Core/BuildCommon/BuildScene.cpp:238-242 | The meshes are merged, the background intensity is 1.2 × (0.9, 0.84, 0.78), and the camera is copied |
| BuildScene.BuildScene | Source/Core/BuildCommon/BuildScene.cpp:235-245 | Always succeeds, with the materials imported as ImportMaterials states, the meshes merged, the background set and the camera copied; models and instances are left alone |
| ToolsBuildScene.VertexRecords | Source/CoreTools/BuildCommon/BuildScene.cpp:50-63 | One record per vertex, each copying that vertex's position, normal and uv and the mesh's material index |
| ToolsBuildScene.MergeSizes | Source/CoreTools/BuildCommon/BuildScene.cpp:35-67 | There is exactly one entry per mesh, one index per mesh index, and one position and one record per vertex |
| ToolsBuildScene.OffsetsAreTotals | Source/CoreTools/BuildCommon/BuildScene.cpp:65-66 | The running counters are the index and vertex totals modulo 2^32 |
| ToolsBuildScene.EntryIsRunningTotals | Source/CoreTools/BuildCommon/BuildScene.cpp:39-45 | Entry k describes mesh k, in input order: its counts, with the running totals of the earlier meshes as offsets |
| ToolsBuildScene.IndexOfMesh | Source/CoreTools/BuildCommon/BuildScene.cpp:46 | Index i of mesh k lands after the earlier meshes' indices, shifted by their vertex count |
| ToolsBuildScene.VertexOfMesh | Source/CoreTools/BuildCommon/BuildScene.cpp:47-63 | Vertex i of mesh k lands after the earlier meshes' vertices, as its position and as its record |
| ToolsBuildScene.AppendAndOffsetIndices | Source/CoreTools/BuildCommon/BuildScene.cpp:17-27 | Appends each addend index plus the offset, in uint32 arithmetic and in order |
| ToolsBuildScene.AppendVertexData | Source/CoreTools/BuildCommon/BuildScene.cpp:49-63 | The vertex loop appends exactly the mesh's vertex records |
| ToolsBuildScene.AppendMesh | Source/CoreTools/BuildCommon/BuildScene.cpp:37-63 | One loop pass appends the mesh's entry, shifted indices, positions and records at the running totals |
| ToolsBuildScene.BuildMeshes | Source/CoreTools/BuildCommon/BuildScene.cpp:30-68 | The buffers become the old buffers followed by the merge of every mesh in order |
| ToolsBuildScene.FirstFailure | Source/CoreTools/BuildCommon/BuildScene.cpp:74-76 | The first failed import: None exactly when all imports succeed |
| ToolsBuildScene.MaterialSlotsFilled | Source/CoreTools/BuildCommon/BuildScene.cpp:73-76 | Slot k holds material k's data when it and every material before it imported. Otherwise it keeps the slot that was there before the resize, or a default slot when the resize added it |
| ToolsBuildScene.BuildMaterials | Source/CoreTools/BuildCommon/BuildScene.cpp:71-79 | Resizes the slots to the material count, keeping the old slots below it. Fills them up to the first failure, and returns true exactly when no import fails |
| ToolsBuildScene.BuildScene | Source/CoreTools/BuildCommon/BuildScene.cpp:82-92 | Succeeds exactly when every import succeeds. The material slots are those BuildMaterials leaves, from the old slots. On success the meshes are merged and the camera copied. On failure no mesh is built and the camera is unchanged |
| DisneySceneBuildProcessor.ContentRoot | Source/Core/BuildCommon/CDisneySceneBuildProcessor.cpp:54-68 | The empty string when the name has no `~`; otherwise the prefix of the name ending at its last `~` |
| DisneySceneBuildProcessor.ObjInstances | Source/Core/BuildCommon/CDisneySceneBuildProcessor.cpp:115-128 | Succeeds exactly when every transform parses, giving one instance per entry with the obj file's index and the entry's transform |
| DisneySceneBuildProcessor.PrimsAddedSizes | Source/Core/BuildCommon/CDisneySceneBuildProcessor.cpp:103-129 | A primitives file adds one obj file per object and one instance per instance entry |
| DisneySceneBuildProcessor.PrimsAddedShape | Source/Core/BuildCommon/CDisneySceneBuildProcessor.cpp:103-129 | The earlier lists are kept as prefixes, and obj file j is the content root followed by the object's name |
| DisneySceneBuildProcessor.PrimInstanceOfObject | Source/Core/BuildCommon/CDisneySceneBuildProcessor.cpp:110-128 | Instance i of obj file j lands after the instances of the earlier obj files, with the index of obj file j and its own transform |
| DisneySceneBuildProcessor.PrimsAddedKeepsIndexing | Source/Core/BuildCommon/CDisneySceneBuildProcessor.cpp:110-122 | While the obj file count fits a uint32, every instance keeps naming one of the obj files |
| DisneySceneBuildProcessor.SectionAddedKeepsIndexing | Source/Core/BuildCommon/CDisneySceneBuildProcessor.cpp:138-162 | The same holds after a whole instanced-primitives section |
| DisneySceneBuildProcessor.AddObjInstances | Source/Core/BuildCommon/CDisneySceneBuildProcessor.cpp:113-128 | Fails exactly when some transform does not parse. On success the instance list grows by exactly the obj file's instances |
| DisneySceneBuildProcessor.ParseInstancePrimitivesFile | Source/Core/BuildCommon/CDisneySceneBuildProcessor.cpp:93-132 | Fails exactly when the file is missing or a transform does not parse. On success the lists are those PrimFileAdded describes |
| DisneySceneBuildProcessor.ParseInstancePrimitivesSection | Source/Core/BuildCommon/CDisneySceneBuildProcessor.cpp:135-165 | Entries whose type is not "archive" are skipped, and a missing type or file name is an error. On success the lists are those SectionAdded describes |
| DisneySceneBuildProcessor.AllTransforms | Source/Core/BuildCommon/CDisneySceneBuildProcessor.cpp:206-214 | Succeeds exactly when every instanced copy's matrix parses, keeping them in document order |
| DisneySceneBuildProcessor.ElementParsedShape | Source/Core/BuildCommon/CDisneySceneBuildProcessor.cpp:178-216 | A parsed element has one mesh description: the root material file, the root geom file first with the identity instance of index 0 first, the root transform followed by one copy per extra copy, and instances naming its obj files |
| DisneySceneBuildProcessor.ParseElementFile | Source/Core/BuildCommon/CDisneySceneBuildProcessor.cpp:168-219 | Succeeds exactly when the element parses. Then the element gains the parsed mesh description and its transforms |
| DisneySceneBuildProcessor.MeshCopyInstanceAt | Source/Core/BuildCommon/CDisneySceneBuildProcessor.cpp:258-266 | Instance i that a copy makes of a mesh description has the copy's transform times the instance's, mesh index plus the model offset, and material hash 0 |
| DisneySceneBuildProcessor.CopyInstanceAt | Source/Core/BuildCommon/CDisneySceneBuildProcessor.cpp:254-267 | Within one copy, instance i of mesh m comes after the instances of the earlier meshes |
| DisneySceneBuildProcessor.FanOutSize | Source/Core/BuildCommon/CDisneySceneBuildProcessor.cpp:251-268 | The fan-out has exactly `copies × Σ instances` entries |
| DisneySceneBuildProcessor.FanOutAt | Source/Core/BuildCommon/CDisneySceneBuildProcessor.cpp:251-268 | The fan-out is ordered by copy, then mesh, then instance, each entry built from its copy and instance |
| DisneySceneBuildProcessor.AddSingleMeshElement | Source/Core/BuildCommon/CDisneySceneBuildProcessor.cpp:243-268 | A successful single-mesh element appends its obj files to the model files and its fan-out, offset by the model file count before it, to the instances |
| DisneySceneBuildProcessor.FanOutNamesModelFiles | Source/Core/BuildCommon/CDisneySceneBuildProcessor.cpp:243-263 | For a parsed element, the instance made from copy c and instance i has the composed transform, and its mesh index names that instance's obj file in the grown model file list |
| DisneySceneBuildProcessor.ImportDisneyMaterials | Source/Core/BuildCommon/CDisneySceneBuildProcessor.cpp:222-237 | Fails, changing nothing, exactly when the material file is missing. Otherwise its hashes and materials are appended |
| DisneySceneBuildProcessor.AppendMeshInstances | Source/Core/BuildCommon/CDisneySceneBuildProcessor.cpp:257-266 | The innermost loop appends one model instance per instance of the mesh description |
| DisneySceneBuildProcessor.AppendCopyInstances | Source/Core/BuildCommon/CDisneySceneBuildProcessor.cpp:254-267 | The middle loop appends the copy's instances, mesh description by mesh description |
| DisneySceneBuildProcessor.AddElementToScene | Source/Core/BuildCommon/CDisneySceneBuildProcessor.cpp:240-271 | The material phase, which may stop at a missing material file, then the fan-out; the state and the verdict are those AddElement describes |
| DisneySceneBuildProcessor.AddElementFile | Source/Core/BuildCommon/CDisneySceneBuildProcessor.cpp:317-319 | Fails exactly when the element file does not parse. The element is then added and AddElementToScene's result is ignored |
| DisneySceneBuildProcessor.ImportScene | Source/Core/BuildCommon/CDisneySceneBuildProcessor.cpp:297-320 | Uses the default camera, the scene file, then every element in order. Fails exactly when the scene or one of its elements does not parse |
| DisneySceneBuildProcessor.Process | Source/Core/BuildCommon/CDisneySceneBuildProcessor.cpp:295-334 | Succeeds exactly when the scene parses. The built scene has the default camera and no models, instances, materials, textures or geometry, since the processor imports none |
| ImportanceSampling.FirstAtLeastUnique | Source/Core/MathLib/ImportanceSampling.cpp:21-38 | The first entry at least the key is the only index with all entries before it below the key and its own entry (or the end) at least the key |
| ImportanceSampling.FoundIffLastReaches | Source/Core/MathLib/ImportanceSampling.cpp:40 | On a cumulative distribution, some entry reaches the key exactly when the last one does, which is the condition of the search's assertion |
| ImportanceSampling.FirstAtLeastMonotone | Source/Core/MathLib/ImportanceSampling.cpp:27-37 | A larger key never gives an earlier sample |
| ImportanceSampling.SampleDistributionFunction | Source/Core/MathLib/ImportanceSampling.cpp:19-41 | On a non-decreasing distribution, the index is the first entry at least the key and pdf is its step (the entry itself at 0). When no entry reaches the key, the index is (uint)-1 and pdf is untouched. Every probed mid lies in [0, count) |
| ImportanceSampling.RowsTileConditionalTable | Source/Core/MathLib/ImportanceSampling.cpp:44-53 | The marginal table has height entries. While width × height fits a uint32, row y starts at y × width, right after row y - 1, and ends inside the width × height conditional table, the last row at its end |
| ImportanceSampling.IblSample | Source/Core/MathLib/ImportanceSampling.cpp:88-91 | The row is the first marginal entry at least r0, with its pdf. The row y × width of the conditional table lies inside it. The column is the first entry of that row at least r1 with its pdf. Otherwise it is (uint)-1 and cdf keeps its incoming value |

## Left out

- File I/O is not modelled: `EnsureDirectoryExists`, `fopen`, `fwrite` and `fclose`. `BinaryWriter.EndToFile` takes whether the file opened and the `fclose` result as parameters, and returns the byte stream handed to `fwrite`.
- Capacity reservation (`Reserve`, the sizes passed to `SerializerStart`, the total counts in the first loop of the core `BuildMeshes`) is not modelled: it has no visible effect.
- BinaryWriter.EndToBuffer: requires the total size to fit a uint32, so the truncation of `dataSize` and of the `DataSize()` copies is not modelled.
- BinaryWriter.EndToFile: requires each segment to fit a uint32; the source's assertion of a non-zero total becomes a requirement when the file opened.
- BinaryReader.Read and BinaryReader.Attach: the bound check is an assertion in the source, so it is a requirement here; uint32 wrap-around of `offset + size` is not modelled.
- JSON parsing (rapidjson) is not modelled. The scene, element, primitives and material documents are abstract values in `ContentFiles`: ordered lists of the entries the processor reads. A value that fails to parse is `None`, and a path with no document is a file that fails to open.
- `AddFileDependency` and `AddProcessDependency` are assumed to succeed. In the source, a failed registration aborts the parse or the process. So the "succeeds exactly when" contracts of ParseInstancePrimitivesFile, ParseElementFile, ImportDisneyMaterials, ImportScene and Process hold only when every registration succeeds.
- `ContentFilePath` is not modelled: documents are looked up by their content name.
- `IndependentPathSeperators` is not modelled: obj file and primitives file names keep the separators their documents give.
- `WriteDebugInfo_` logging and the truncation of fixed-size strings are not modelled.
- `BakeScene` is not part of this model. `Process` ends after `BuildScene`, and the dependency loops that follow it are left out.
- ImportMaterial and ImportDisneyMaterials (the material file readers) are not part of this model. The core BuildScene takes each import's outcome as the `importResults` parameter. The Disney processor reads a material file's hashes and materials from `ContentFiles`. In the tools variant, the slot of a failed import is modelled as left as it was; what ImportMaterial writes into it before failing is not modelled.
- MurmurHash is not modelled; hashes are given values.
- Floating-point arithmetic is modelled with reals: rounding is not modelled. `MatrixMultiply` is a symbolic product. `MakeOrthogonalCoordinateSystem` and the handedness test are the `orthogonalBasis` parameter and a given sign.
- The bounding box and bounding sphere computed at the end of the core `BuildMeshes` are not modelled.
- `QuickSortMatchingArrays` is given by its contract (sorted by hash, a permutation of the pairs). The order among equal hashes is left open, as the source leaves it.
- Resize in the tools variant keeps the old slots below the new count. The slots it adds beyond the old length are uninitialised, and are modelled as `EmptyMaterialData`. The Disney processor's uninitialised instance slots after `Resize` are not observable on success, because the loop then writes every one of them.
- Process: the result of `AddElementToScene` is ignored, as in the source. So a missing material file stops that element's material phase and fan-out without failing the build.
- AddElementToScene: `modelOffset` is computed once per element, before any mesh description's obj files are appended. With several mesh descriptions, the later ones' instances would name the wrong model files. A parsed element always has one mesh description, so this case never arises, and FanOutNamesModelFiles is stated for one mesh description.
- SampleDistributionFunction: requires `count <= 2^30`, so the int32 arithmetic of `count - 1` and `low + high` cannot wrap; larger counts are not modelled.
- SampleDistributionFunction: the source leaves `pdf` unassigned when no entry reaches the key; the model keeps the caller's value, `pdfIn`.
- IblSample: requires the marginal search's assertion to hold (the last marginal entry reaches r0) and the texel count to fit a uint32.
- IblSample: the two uninitialised locals `mdf` and `cdf` are the parameters `mdfIn` and `cdfIn`, which a failed search leaves in place.
- IblSample: leaves out theta, phi, the Jacobian and the final pdf, which are float arithmetic.
- `IblPdf`, `GgxD`, `GgxDPdf` and the sampling heuristics are not part of this model.
- The core `BuildScene` does not copy the imported model's models and instances into the built scene. The model follows the code, which also leaves `built.models` and `built.instances` as they were.
- The core `ImportMaterials` de-duplicates textures but not materials. Two materials with the same hash are both kept. Only failed imports are skipped.
